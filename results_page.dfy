/** The results page of the single-page app: the search effect gated by
    the token counters, and the parser for the model's line-per-item
    answer. */
module ResultsPage {
  import opened Base
  import opened AppTokens

  /** One recommendation as parsed from a line of the answer. */
  datatype Rec = Rec(title: string, description: string)

  // ---------- the line parser ----------

  /** The dashes the separator pattern `/\s+[-–]\s+/` accepts: the hyphen
      and the en dash. */
  const AsWrittenDashes: set<char> := {'-', '–'}

  /** The dashes the answer format "Title — description" calls for as
      well: the em dash besides the two above. */
  const IntendedDashes: set<char> := {'-', '–', '—'}

  /** The end of the run of white space that starts at `i`. */
  function SpaceEnd(s: string, i: nat): (k: nat)
    requires i <= |s|
    ensures i <= k <= |s|
    ensures forall j :: i <= j < k ==> IsSpace(s[j])
    ensures k == |s| || !IsSpace(s[k])
    decreases |s| - i
  {
    if i < |s| && IsSpace(s[i]) then SpaceEnd(s, i + 1) else i
  }

  /** A separator starts at `i`: white space, one of the dashes, white
      space. Greedy matching of the first `\s+` cannot stop short of the
      end of the run, since a dash is not white space. */
  predicate SepAt(s: string, i: nat, dashes: set<char>)
    requires i <= |s|
  {
    i < |s| && IsSpace(s[i]) &&
    var k := SpaceEnd(s, i);
    k + 1 < |s| && s[k] in dashes && IsSpace(s[k + 1])
  }

  /** Where a separator that starts at `i` ends: after all the white space
      that follows the dash. */
  function SepEnd(s: string, i: nat, dashes: set<char>): (e: nat)
    requires i <= |s| && SepAt(s, i, dashes)
    ensures i + 3 <= e <= |s|
  {
    SpaceEnd(s, SpaceEnd(s, i) + 1)
  }

  /** `split` from position `from`, the current piece having started at
      `start`: each leftmost separator ends a piece. */
  function PiecesFrom(s: string, dashes: set<char>, start: nat, from: nat): (r: seq<string>)
    requires start <= from <= |s|
    ensures |r| >= 1
    decreases |s| - from
  {
    if from == |s| then [s[start..]]
    else if SepAt(s, from, dashes) then
      var e := SepEnd(s, from, dashes);
      [s[start..from]] + PiecesFrom(s, dashes, e, e)
    else PiecesFrom(s, dashes, start, from + 1)
  }

  /** `line.split(separator)`. */
  function Pieces(s: string, dashes: set<char>): seq<string> {
    PiecesFrom(s, dashes, 0, 0)
  }

  /** A line without a separator is one piece: the whole line. */
  lemma {:induction false} NoSepOnePiece(s: string, dashes: set<char>, start: nat, from: nat)
    requires start <= from <= |s|
    requires forall j :: from <= j < |s| ==> !SepAt(s, j, dashes)
    ensures PiecesFrom(s, dashes, start, from) == [s[start..]]
    decreases |s| - from
  {
    if from < |s| {
      NoSepOnePiece(s, dashes, start, from + 1);
    }
  }

  /** The first piece ends where the first separator starts, and the rest
      is the split of what follows that separator. */
  lemma {:induction false} FirstSepSplits(s: string, dashes: set<char>, start: nat, from: nat, i: nat)
    requires start <= from <= i < |s|
    requires SepAt(s, i, dashes)
    requires forall j :: from <= j < i ==> !SepAt(s, j, dashes)
    ensures PiecesFrom(s, dashes, start, from)[0] == s[start..i]
    ensures PiecesFrom(s, dashes, start, from)[1..] ==
      PiecesFrom(s, dashes, SepEnd(s, i, dashes), SepEnd(s, i, dashes))
    decreases i - from
  {
    if from < i {
      FirstSepSplits(s, dashes, start, from + 1, i);
    }
  }

  /** The `map` callback: the trimmed first piece is the title; the other
      pieces, joined with " - " and trimmed, are the description. */
  function ParseLine(line: string, dashes: set<char>): (r: Rec)
    ensures r.title == Trim(Pieces(line, dashes)[0])
  {
    var p := Pieces(line, dashes);
    Rec(Trim(p[0]), Trim(Join(p[1..], " - ")))
  }

  /** Without a separator the whole trimmed line is the title and the
      description is empty. */
  lemma NoSepTitleOnly(line: string, dashes: set<char>)
    requires forall j :: 0 <= j < |line| ==> !SepAt(line, j, dashes)
    ensures ParseLine(line, dashes) == Rec(Trim(line), "")
  {
    NoSepOnePiece(line, dashes, 0, 0);
    assert line[0..] == line;
  }

  /** With a separator, the title is the trimmed text before the first one,
      and the description is the rest joined and trimmed. */
  lemma SepTitle(line: string, dashes: set<char>, i: nat)
    requires i < |line| && SepAt(line, i, dashes)
    requires forall j :: 0 <= j < i ==> !SepAt(line, j, dashes)
    ensures ParseLine(line, dashes).title == Trim(line[..i])
    ensures ParseLine(line, dashes).description ==
      Trim(Join(Pieces(line[SepEnd(line, i, dashes)..], dashes), " - "))
  {
    FirstSepSplits(line, dashes, 0, 0, i);
    var e := SepEnd(line, i, dashes);
    ShiftedPieces(line, dashes, e, e, e);
  }

  /** Splitting a suffix of a line gives the pieces of the line from the
      suffix's start on: the split depends only on the text it reads. */
  lemma {:induction false} ShiftedPieces(s: string, dashes: set<char>, c: nat, start: nat, from: nat)
    requires c <= start <= from <= |s|
    ensures PiecesFrom(s, dashes, start, from) == PiecesFrom(s[c..], dashes, start - c, from - c)
    decreases |s| - from
  {
    var t := s[c..];
    if from < |s| {
      SepShift(s, dashes, c, from);
      if SepAt(s, from, dashes) {
        var e := SepEnd(s, from, dashes);
        ShiftedPieces(s, dashes, c, e, e);
        SliceOfSuffix(s, c, start, from);
        assert PiecesFrom(t, dashes, start - c, from - c) ==
          [t[start - c..from - c]] + PiecesFrom(t, dashes, e - c, e - c);
      } else {
        ShiftedPieces(s, dashes, c, start, from + 1);
      }
    } else {
      SliceOfSuffix(s, c, start, from);
    }
  }

  /** A separator is one seen from a suffix too, and ends at the same place. */
  lemma SepShift(s: string, dashes: set<char>, c: nat, i: nat)
    requires c <= i < |s|
    ensures SepAt(s[c..], i - c, dashes) == SepAt(s, i, dashes)
    ensures SepAt(s, i, dashes) ==> SepEnd(s[c..], i - c, dashes) == SepEnd(s, i, dashes) - c
  {
    var t := s[c..];
    SpaceShift(s, c, i);
    var k := SpaceEnd(s, i);
    assert t[i - c] == s[i];
    if k + 1 < |s| {
      assert t[k - c] == s[k] && t[k + 1 - c] == s[k + 1];
      SpaceShift(s, c, k + 1);
    }
  }

  /** White space runs are the same seen from a suffix. */
  lemma {:induction false} SpaceShift(s: string, c: nat, i: nat)
    requires c <= i <= |s|
    ensures SpaceEnd(s[c..], i - c) == SpaceEnd(s, i) - c
    decreases |s| - i
  {
    if i < |s| && IsSpace(s[i]) {
      SpaceShift(s, c, i + 1);
    }
  }

  /** No white space anywhere in `s`. */
  predicate Unspaced(s: string) {
    forall j :: 0 <= j < |s| ==> !IsSpace(s[j])
  }

  /** The line "title — description" with the em dash the answer format
      asks for (as in "Dune — Epic"). */
  function EmDashed(t: string, d: string): string {
    t + " — " + d
  }

  /** As written, such a line is not split: the whole line is the title and
      the description is empty. */
  lemma EmDashNotSplit(t: string, d: string)
    requires t != [] && d != [] && Unspaced(t) && Unspaced(d)
    ensures ParseLine(EmDashed(t, d), AsWrittenDashes) == Rec(EmDashed(t, d), "")
  {
    var s := EmDashed(t, d);
    var n := |t|;
    assert s[n] == ' ' && s[n + 1] == '—' && s[n + 2] == ' ';
    assert forall j :: 0 <= j < n ==> s[j] == t[j];
    assert forall j :: n + 3 <= j < |s| ==> s[j] == d[j - n - 3];
    forall j | 0 <= j < |s|
      ensures !SepAt(s, j, AsWrittenDashes)
    {
      if j == n {
        assert SpaceEnd(s, n + 1) == n + 1;
      } else if j == n + 2 {
        assert SpaceEnd(s, n + 3) == n + 3;
      }
    }
    NoSepTitleOnly(s, AsWrittenDashes);
    TrimNoop(s);
  }

  /** With the em dash accepted the same line splits into its title and
      its description. */
  lemma EmDashSplit(t: string, d: string)
    requires t != [] && d != [] && Unspaced(t) && Unspaced(d)
    ensures ParseLine(EmDashed(t, d), IntendedDashes) == Rec(t, d)
  {
    var s := EmDashed(t, d);
    var n := |t|;
    EmDashSeparator(t, d);
    SepTitle(s, IntendedDashes, n);
    UnspacedOnePiece(t);
    UnspacedOnePiece(d);
  }

  /** In "title — description" the first separator is the em dash and its
      spaces, right after the title. */
  lemma EmDashSeparator(t: string, d: string)
    requires t != [] && d != [] && Unspaced(t) && Unspaced(d)
    ensures var s := EmDashed(t, d); var n := |t|;
      n < |s| && SepAt(s, n, IntendedDashes) && SepEnd(s, n, IntendedDashes) == n + 3 &&
      (forall j :: 0 <= j < n ==> !SepAt(s, j, IntendedDashes)) && s[..n] == t && s[n + 3..] == d
  {
    var s := EmDashed(t, d);
    var n := |t|;
    assert s[n] == ' ' && s[n + 1] == '—' && s[n + 2] == ' ';
    assert forall j :: 0 <= j < n ==> s[j] == t[j];
    assert SpaceEnd(s, n + 1) == n + 1;
    assert SpaceEnd(s, n) == n + 1;
    assert SpaceEnd(s, n + 3) == n + 3;
    assert s[..n] == t;
    assert s[n + 3..] == d;
  }

  /** A non-empty text without white space is its own trim, and its own
      single piece whatever the dashes. */
  lemma UnspacedOnePiece(s: string)
    requires s != [] && Unspaced(s)
    ensures Trim(s) == s
    ensures forall dashes :: Trim(Join(Pieces(s, dashes), " - ")) == s
  {
    TrimNoop(s);
    forall dashes ensures Trim(Join(Pieces(s, dashes), " - ")) == s {
      NoSepOnePiece(s, dashes, 0, 0);
      assert s[0..] == s;
    }
  }

  /** Every piece the intended pattern keeps apart the as-written one keeps
      apart too: a line without any dash separator parses the same way. */
  lemma DashesAgreeWithoutEmDash(line: string)
    requires forall j :: 0 <= j < |line| ==> line[j] != '—'
    ensures ParseLine(line, IntendedDashes) == ParseLine(line, AsWrittenDashes)
  {
    SameSplit(line, 0, 0);
  }

  lemma {:induction false} SameSplit(s: string, start: nat, from: nat)
    requires start <= from <= |s|
    requires forall j :: 0 <= j < |s| ==> s[j] != '—'
    ensures PiecesFrom(s, IntendedDashes, start, from) == PiecesFrom(s, AsWrittenDashes, start, from)
    decreases |s| - from
  {
    if from < |s| {
      assert SepAt(s, from, IntendedDashes) == SepAt(s, from, AsWrittenDashes);
      if SepAt(s, from, IntendedDashes) {
        var e := SepEnd(s, from, IntendedDashes);
        SameSplit(s, e, e);
      } else {
        SameSplit(s, start, from + 1);
      }
    }
  }

  // ---------- the answer ----------

  /** `filter((line) => line.trim().length > 0)`. */
  function NonBlank(lines: seq<string>): (r: seq<string>)
    ensures |r| <= |lines|
  {
    if lines == [] then []
    else
      var last := lines[|lines| - 1];
      NonBlank(lines[..|lines| - 1]) + (if Trim(last) != "" then [last] else [])
  }

  /** The filter keeps exactly the lines that are not blank. */
  lemma {:induction false} NonBlankMember(lines: seq<string>, x: string)
    ensures x in NonBlank(lines) <==> x in lines && Trim(x) != ""
  {
    if lines != [] {
      var init := lines[..|lines| - 1];
      NonBlankMember(init, x);
      assert lines == init + [lines[|lines| - 1]];
    }
  }

  /** One item per non-blank line of the answer. */
  function ParseContent(content: string, dashes: set<char>): (r: seq<Rec>)
    ensures |r| == |NonBlank(Split(content, '\n'))|
    ensures forall i :: 0 <= i < |r| ==> r[i] == ParseLine(NonBlank(Split(content, '\n'))[i], dashes)
  {
    var lines := NonBlank(Split(content, '\n'));
    seq(|lines|, i requires 0 <= i < |lines| => ParseLine(lines[i], dashes))
  }

  /** What came back from the chat completion request: an exception, or a
      body whose first choice may carry text. */
  datatype Reply = Threw | Answered(content: Option<string>)

  const AskPrefix := "Give me 5 recommendations based on: \""

  /** The question without a refinement. */
  function Ask(promptText: string): string {
    AskPrefix + promptText + "\"."
  }

  /** The user message: the question, and "Make the list more X." only
      when a refinement is given. */
  function UserPrompt(promptText: string, refineText: string): (r: string)
    ensures |r| >= |Ask(promptText)| && r[..|Ask(promptText)|] == Ask(promptText)
    ensures refineText == "" <==> r == Ask(promptText)
  {
    if refineText != "" then Ask(promptText) + " Make the list more " + refineText + "."
    else Ask(promptText)
  }

  /** `fetchRecommendations`: without a key nothing is sent and there are
      no items; otherwise the user message is sent, and the items are the
      parsed answer, none when the request fails or the answer is empty. */
  function FetchRecommendations(promptText: string, refineText: string, apiKey: Option<string>, reply: Reply,
                                dashes: set<char>): (r: (Option<string>, seq<Rec>))
    ensures (apiKey.None? || apiKey.value == "") ==> r == (None, [])
    ensures apiKey.Some? && apiKey.value != "" ==> r.0 == Some(UserPrompt(promptText, refineText))
    ensures (reply.Threw? || reply.content.None? || reply.content.value == "") ==> r.1 == []
    ensures apiKey.Some? && apiKey.value != "" && reply.Answered? && reply.content.Some? ==>
      r.1 == ParseContent(reply.content.value, dashes)
  {
    if apiKey.None? || apiKey.value == "" then (None, [])
    else
      var sent := Some(UserPrompt(promptText, refineText));
      match reply
      case Threw => (sent, [])
      case Answered(content) =>
        if content.None? || content.value == "" then (sent, [])
        else (sent, ParseContent(content.value, dashes))
  }

  // ---------- tokens ----------

  /** `hasTokens()`: a free search left, or a signed-in user with paid
      tokens. */
  predicate HasTokens(free: JsNumber, signedIn: bool, balance: JsNumber)
    ensures free.Positive() ==> HasTokens(free, signedIn, balance)
    ensures !signedIn ==> (HasTokens(free, signedIn, balance) <==> free.Positive())
  {
    free.Positive() || (signedIn && balance.Positive())
  }

  /** `consumeToken()` on the counters: a free search first, else a paid
      token for a signed-in user, else nothing. */
  function Consumed(free: JsNumber, signedIn: bool, balance: JsNumber): (r: (JsNumber, JsNumber))
    ensures free.Positive() ==> r == (Num(free.i - 1), balance)
    ensures !free.Positive() && signedIn && balance.Positive() ==> r == (free, Num(balance.i - 1))
    ensures !HasTokens(free, signedIn, balance) ==> r == (free, balance)
  {
    if free.Positive() then (free.Pred(), balance)
    else if signedIn && balance.Positive() then (free, balance.Pred())
    else (free, balance)
  }

  /** The tokens that can be spent: positive free searches, and positive
      paid tokens when signed in. */
  function Spendable(free: JsNumber, signedIn: bool, balance: JsNumber): (n: nat)
    ensures n > 0 <==> HasTokens(free, signedIn, balance)
  {
    (if free.Positive() then free.i else 0) + (if signedIn && balance.Positive() then balance.i else 0)
  }

  /** Spending takes exactly one token when there is one. */
  lemma ConsumeSpendsOne(free: JsNumber, signedIn: bool, balance: JsNumber)
    requires HasTokens(free, signedIn, balance)
    ensures var r := Consumed(free, signedIn, balance);
      Spendable(r.0, signedIn, r.1) == Spendable(free, signedIn, balance) - 1
  {
  }

  const OutOfPaid := "You have used all of your tokens. Please purchase a pack or upgrade."
  const OutOfFree := "You have used your free searches. Please sign in to continue."

  function OutOfTokens(signedIn: bool): string {
    if signedIn then OutOfPaid else OutOfFree
  }

  /** The placeholder's modifiers and the rotation of the one shown. */
  const Modifiers: seq<string> :=
    ["funny", "family friendly", "romantic", "action-packed", "underrated", "award winning",
     "true story", "spicy", "dark", "heartwarming"]

  function NextModifier(i: nat): (j: nat)
    ensures j < |Modifiers|
    ensures i + 1 < |Modifiers| ==> j == i + 1
  {
    (i + 1) % |Modifiers|
  }

  /** The page's own state; the query comes from the navigation. */
  class Page {
    const query: string
    var results: seq<Rec>
    var loading: bool
    var error: string
    var refineText: string
    var refineInput: string

    constructor (query: string)
      ensures this.query == query && results == [] && !loading && error == "" && refineText == "" && refineInput == ""
    {
      this.query := query;
      results := [];
      loading := false;
      error := "";
      refineText := "";
      refineInput := "";
    }

    /** `handleRefineSubmit`: a blank refinement is ignored; otherwise it
        is trimmed into `refineText` and the input is cleared. */
    method RefineSubmit()
      modifies this
      ensures Trim(old(refineInput)) == "" ==> refineText == old(refineText) && refineInput == old(refineInput)
      ensures Trim(old(refineInput)) != "" ==> refineText == Trim(old(refineInput)) && refineInput == ""
      ensures results == old(results) && error == old(error) && loading == old(loading)
    {
      if Trim(refineInput) == "" {
        return;
      }
      refineText := Trim(refineInput);
      refineInput := "";
    }

    /** One run of the search effect. `cancelled` says the effect was
        cleaned up before the answer came; `apiKey` and `reply` stand for
        the environment and the network; `dashes` are the characters the
        line parser splits on (`AsWrittenDashes` in the page as written). With an empty query nothing
        happens; without tokens the page shows why and clears the results;
        otherwise the answer is shown and one token is spent. */
    method GetRecs(w: Wallet, apiKey: Option<string>, reply: Reply, dashes: set<char>, cancelled: bool)
      requires w.Persisted()
      modifies this, w, w.ls
      ensures w.Persisted() && w.signedIn == old(w.signedIn)
      ensures query == "" ==>
        results == old(results) && error == old(error) && loading == old(loading) &&
        w.freeTokens == old(w.freeTokens) && w.tokenBalance == old(w.tokenBalance)
      ensures query != "" && !HasTokens(old(w.freeTokens), w.signedIn, old(w.tokenBalance)) ==>
        results == [] && error == OutOfTokens(w.signedIn) && loading == old(loading) &&
        w.freeTokens == old(w.freeTokens) && w.tokenBalance == old(w.tokenBalance)
      ensures query != "" && HasTokens(old(w.freeTokens), w.signedIn, old(w.tokenBalance)) ==>
        error == "" && !loading &&
        (cancelled ==> results == old(results) && w.freeTokens == old(w.freeTokens) && w.tokenBalance == old(w.tokenBalance)) &&
        (!cancelled ==>
          results == FetchRecommendations(query, refineText, apiKey, reply, dashes).1 &&
          (w.freeTokens, w.tokenBalance) == Consumed(old(w.freeTokens), w.signedIn, old(w.tokenBalance)))
    {
      if query == "" {
        return;
      }
      if !HasTokens(w.freeTokens, w.signedIn, w.tokenBalance) {
        error := OutOfTokens(w.signedIn);
        results := [];
        return;
      }
      loading := true;
      error := "";
      var recs := FetchRecommendations(query, refineText, apiKey, reply, dashes).1;
      if !cancelled {
        results := recs;
        ConsumeToken(w);
      }
      loading := false;
    }
  }

  /** `consumeToken()`: the counters after one search, persisted. */
  method ConsumeToken(w: Wallet)
    requires w.Persisted()
    modifies w, w.ls
    ensures w.Persisted() && w.signedIn == old(w.signedIn)
    ensures (w.freeTokens, w.tokenBalance) == Consumed(old(w.freeTokens), w.signedIn, old(w.tokenBalance))
  {
    if w.freeTokens.Positive() {
      w.SetFreeTokens(w.freeTokens.Pred());
    } else if w.signedIn && w.tokenBalance.Positive() {
      w.SetTokenBalance(w.tokenBalance.Pred());
    }
  }

  /** The search effect as the page wires it: `hasTokens` and
      `consumeToken` are among its dependencies and change whenever a
      counter does, so every answered search schedules the effect again.
      It runs until no token is left, and the last run replaces the
      answer with the out-of-tokens message. */
  method SearchAsWritten(p: Page, w: Wallet, apiKey: Option<string>, reply: Reply)
    requires w.Persisted() && p.query != "" && p != w as object
    requires HasTokens(w.freeTokens, w.signedIn, w.tokenBalance)
    modifies p, w, w.ls
    ensures w.Persisted() && w.signedIn == old(w.signedIn)
    ensures !HasTokens(w.freeTokens, w.signedIn, w.tokenBalance)
    ensures p.results == [] && p.error == OutOfTokens(w.signedIn)
  {
    p.GetRecs(w, apiKey, reply, AsWrittenDashes, false);
    while HasTokens(w.freeTokens, w.signedIn, w.tokenBalance)
      invariant w.Persisted() && w.signedIn == old(w.signedIn)
      decreases Spendable(w.freeTokens, w.signedIn, w.tokenBalance)
    {
      ConsumeSpendsOne(w.freeTokens, w.signedIn, w.tokenBalance);
      p.GetRecs(w, apiKey, reply, AsWrittenDashes, false);
    }
    p.GetRecs(w, apiKey, reply, AsWrittenDashes, false);
  }

  /** The search the page means to make: the effect runs once for the
      query, shows the answer and spends exactly one token. */
  method Search(p: Page, w: Wallet, apiKey: Option<string>, reply: Reply)
    requires w.Persisted() && p.query != "" && p != w as object
    requires HasTokens(w.freeTokens, w.signedIn, w.tokenBalance)
    modifies p, w, w.ls
    ensures w.Persisted() && w.signedIn == old(w.signedIn)
    ensures p.results == FetchRecommendations(p.query, p.refineText, apiKey, reply, IntendedDashes).1
    ensures Spendable(w.freeTokens, w.signedIn, w.tokenBalance) ==
      Spendable(old(w.freeTokens), w.signedIn, old(w.tokenBalance)) - 1
  {
    ConsumeSpendsOne(w.freeTokens, w.signedIn, w.tokenBalance);
    p.GetRecs(w, apiKey, reply, IntendedDashes, false);
  }
}
