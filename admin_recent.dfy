/** `/api/admin_recent`: the latest searches and votes, merged, newest first. */
module AdminRecent {
  import opened Base
  import opened Json
  import opened Http

  /** A `usage_events` row and a `feedback` row, as selected. */
  datatype UsageRow = UsageRow(id: string, createdAt: string, event: string, prompt: Option<string>)
  datatype FeedbackRow = FeedbackRow(id: string, createdAt: string, vote: Option<string>, prompt: Option<string>)

  /** What a query gives back: an error, or rows (`None` for `null`). */
  datatype Query<T> = QueryError(details: Json) | Rows(data: Option<seq<T>>)

  /** One line of the merged feed. */
  datatype RecentRow =
    | Search(id: string, createdAt: string, prompt: Option<string>)
    | Vote(id: string, createdAt: string, prompt: Option<string>, vote: string)

  /** At most this many rows are asked of each table and returned. */
  const Limit: nat := 20

  function RowsOrEmpty<T>(data: Option<seq<T>>): seq<T> {
    if data.Some? then data.value else []
  }

  // ---------- merging ----------

  /** The search events among the usage rows, in order. */
  function Searches(rows: seq<UsageRow>): (r: seq<RecentRow>)
    ensures |r| <= |rows|
    ensures forall i :: 0 <= i < |r| ==> r[i].Search?
  {
    if rows == [] then []
    else
      var last := rows[|rows| - 1];
      Searches(rows[..|rows| - 1]) +
      (if last.event == "search" then [Search(last.id, last.createdAt, last.prompt)] else [])
  }

  /** A search line is in the feed exactly when a usage row with the event
      "search" has its id, time and prompt. */
  lemma {:induction false} SearchesMember(rows: seq<UsageRow>, x: RecentRow)
    ensures x in Searches(rows) <==>
      exists i :: 0 <= i < |rows| && rows[i].event == "search" && x == Search(rows[i].id, rows[i].createdAt, rows[i].prompt)
  {
    if rows != [] {
      var init := rows[..|rows| - 1];
      SearchesMember(init, x);
      if x in Searches(init) {
        var i :| 0 <= i < |init| && init[i].event == "search" && x == Search(init[i].id, init[i].createdAt, init[i].prompt);
        assert rows[i] == init[i];
      }
      if exists i :: 0 <= i < |rows| && rows[i].event == "search" && x == Search(rows[i].id, rows[i].createdAt, rows[i].prompt) {
        var i :| 0 <= i < |rows| && rows[i].event == "search" && x == Search(rows[i].id, rows[i].createdAt, rows[i].prompt);
        if i < |init| {
          assert init[i] == rows[i];
        }
      }
    }
  }

  /** A vote line: the vote itself, "up" when the row has none. */
  function VoteLine(r: FeedbackRow): (v: RecentRow)
    ensures v.Vote? && v.id == r.id && v.createdAt == r.createdAt && v.prompt == r.prompt
    ensures r.vote.None? ==> v.vote == "up"
    ensures r.vote.Some? ==> v.vote == r.vote.value
  {
    Vote(r.id, r.createdAt, r.prompt, if r.vote.Some? then r.vote.value else "up")
  }

  /** Every feedback row, as a vote line, in order. */
  function Votes(rows: seq<FeedbackRow>): (r: seq<RecentRow>)
    ensures |r| == |rows|
    ensures forall i :: 0 <= i < |rows| ==> r[i] == VoteLine(rows[i])
  {
    seq(|rows|, i requires 0 <= i < |rows| => VoteLine(rows[i]))
  }

  /** `merged`, before sorting: the searches, then the votes. */
  function Merged(usage: seq<UsageRow>, feedback: seq<FeedbackRow>): (m: seq<RecentRow>)
    ensures |m| <= |usage| + |feedback|
  {
    Searches(usage) + Votes(feedback)
  }

  // ---------- JavaScript's string order ----------

  /** `a < b` on strings: the first differing character decides, and a
      proper prefix comes first. */
  predicate Below(a: string, b: string) {
    if a == [] then b != []
    else if b == [] then false
    else if a[0] != b[0] then a[0] < b[0]
    else Below(a[1..], b[1..])
  }

  lemma {:induction false} BelowIrreflexive(a: string)
    ensures !Below(a, a)
  {
    if a != [] {
      BelowIrreflexive(a[1..]);
    }
  }

  lemma {:induction false} BelowTransitive(a: string, b: string, c: string)
    requires Below(a, b) && Below(b, c)
    ensures Below(a, c)
  {
    if a != [] && b != [] && c != [] && a[0] == b[0] && b[0] == c[0] {
      BelowTransitive(a[1..], b[1..], c[1..]);
    }
  }

  lemma {:induction false} BelowTotal(a: string, b: string)
    requires a != b
    ensures Below(a, b) || Below(b, a)
  {
    if a != [] && b != [] && a[0] == b[0] {
      HeadTail(a);
      HeadTail(b);
      BelowTotal(a[1..], b[1..]);
    }
  }

  /** Row `x` is at least as new as row `y`. */
  predicate NoOlder(x: RecentRow, y: RecentRow) {
    !Below(x.createdAt, y.createdAt)
  }

  /** "At least as new" chains. */
  lemma NoOlderTransitive(x: RecentRow, y: RecentRow, z: RecentRow)
    requires NoOlder(x, y) && NoOlder(y, z)
    ensures NoOlder(x, z)
  {
    if Below(x.createdAt, z.createdAt) {
      if x.createdAt == y.createdAt {
      } else {
        BelowTotal(x.createdAt, y.createdAt);
        BelowTransitive(y.createdAt, x.createdAt, z.createdAt);
      }
    }
  }

  /** Newest first. */
  predicate NewestFirst(s: seq<RecentRow>) {
    forall p, q :: 0 <= p < q < |s| ==> NoOlder(s[p], s[q])
  }

  // ---------- the sort ----------

  /** `merged.sort((a, b) => (a.created_at < b.created_at ? 1 : -1))`:
      the same rows, newest first. */
  method SortNewestFirst(a: array<RecentRow>)
    modifies a
    ensures NewestFirst(a[..])
    ensures multiset(a[..]) == multiset(old(a[..]))
  {
    for i := 0 to a.Length
      invariant NewestFirst(a[..i])
      invariant multiset(a[..]) == multiset(old(a[..]))
    {
      InsertLast(a, i);
    }
    assert a[..a.Length] == a[..];
  }

  /** One insertion step: `a[i]` moves left past every older row, so the
      first `i + 1` rows are newest first. */
  method InsertLast(a: array<RecentRow>, i: nat)
    requires i < a.Length && NewestFirst(a[..i])
    modifies a
    ensures NewestFirst(a[..i + 1])
    ensures multiset(a[..]) == multiset(old(a[..]))
  {
    var j := i;
    while j > 0 && Below(a[j - 1].createdAt, a[j].createdAt)
      invariant 0 <= j <= i
      invariant forall p, q :: 0 <= p < q <= i && p != j && q != j ==> NoOlder(a[p], a[q])
      invariant forall q :: j < q <= i ==> NoOlder(a[j], a[q])
      invariant multiset(a[..]) == multiset(old(a[..]))
    {
      BelowAsymmetric(a[j - 1].createdAt, a[j].createdAt);
      Swap(a, j);
      j := j - 1;
    }
    if j > 0 {
      forall p | 0 <= p < j - 1
        ensures NoOlder(a[p], a[j])
      {
        NoOlderTransitive(a[p], a[j - 1], a[j]);
      }
    }
  }

  /** Exchanges `a[j - 1]` and `a[j]`. */
  method Swap(a: array<RecentRow>, j: nat)
    requires 0 < j < a.Length
    modifies a
    ensures a[..] == old(a[..])[j - 1 := old(a[j])][j := old(a[j - 1])]
    ensures multiset(a[..]) == multiset(old(a[..]))
  {
    a[j - 1], a[j] := a[j], a[j - 1];
  }

  lemma BelowAsymmetric(a: string, b: string)
    requires Below(a, b)
    ensures !Below(b, a)
  {
    if Below(b, a) {
      BelowTransitive(a, b, a);
      BelowIrreflexive(a);
    }
  }

  // ---------- the route ----------

  function OptJson(o: Option<string>): Json {
    if o.Some? then JStr(o.value) else JNull
  }

  function RowJson(r: RecentRow): Json {
    match r
    case Search(id, createdAt, prompt) =>
      JObj([("type", JStr("search")), ("id", JStr(id)), ("created_at", JStr(createdAt)), ("prompt", OptJson(prompt))])
    case Vote(id, createdAt, prompt, vote) =>
      JObj([("type", JStr("vote")), ("id", JStr(id)), ("created_at", JStr(createdAt)), ("prompt", OptJson(prompt)),
            ("vote", JStr(vote))])
  }

  /** `{ ok: true, projectHost, rows }`. */
  function RecentReply(projectHost: string, rows: seq<RecentRow>): Json {
    JObj([("ok", JBool(true)), ("projectHost", JStr(projectHost)),
          ("rows", JArr(seq(|rows|, i requires 0 <= i < |rows| => RowJson(rows[i]))))])
  }

  /** `{ error, details }` for a failed query. */
  function QueryFailure(msg: string, details: Json): Json {
    JObj([("error", JStr(msg)), ("details", details)])
  }

  /** The rows the route returns for two answered queries: the newest
      twenty of the merge, newest first. */
  method Recent(usage: seq<UsageRow>, feedback: seq<FeedbackRow>) returns (rows: seq<RecentRow>)
    ensures |rows| == if |Merged(usage, feedback)| < Limit then |Merged(usage, feedback)| else Limit
    ensures NewestFirst(rows)
    ensures multiset(rows) <= multiset(Merged(usage, feedback))
    ensures forall x, y :: x in rows && y in multiset(Merged(usage, feedback)) - multiset(rows) ==> NoOlder(x, y)
  {
    var merged := Merged(usage, feedback);
    var a := new RecentRow[|merged|](i requires 0 <= i < |merged| => merged[i]);
    assert a[..] == merged;
    SortNewestFirst(a);
    var sorted := a[..];
    rows := JsSlice(sorted, 0, Limit);
    assert rows == sorted[..|rows|];
    TopRows(sorted, |rows|);
  }

  /** The first `n` rows of a newest-first list are newest first, and none
      left out is newer than one kept. */
  lemma TopRows(s: seq<RecentRow>, n: nat)
    requires NewestFirst(s) && n <= |s|
    ensures NewestFirst(s[..n])
    ensures multiset(s[..n]) <= multiset(s)
    ensures forall x, y :: x in s[..n] && y in multiset(s) - multiset(s[..n]) ==> NoOlder(x, y)
  {
    assert s == s[..n] + s[n..];
    assert multiset(s) == multiset(s[..n]) + multiset(s[n..]);
    forall x, y | x in s[..n] && y in multiset(s) - multiset(s[..n])
      ensures NoOlder(x, y)
    {
      assert y in multiset(s[n..]);
      var p :| 0 <= p < n && s[p] == x;
      var q :| n <= q < |s| && s[q] == y;
    }
  }

  /** The route. The two queries' answers are inputs; `projectHost` is the
      host of the configured database address. */
  method Handle(usageQuery: Query<UsageRow>, feedbackQuery: Query<FeedbackRow>, projectHost: string, res: Response)
    modifies res
    ensures res.headers == old(res.headers)
    ensures usageQuery.QueryError? ==>
      res.status == 500 && res.payload == Sent(QueryFailure("usage query failed", usageQuery.details))
    ensures usageQuery.Rows? && feedbackQuery.QueryError? ==>
      res.status == 500 && res.payload == Sent(QueryFailure("feedback query failed", feedbackQuery.details))
    ensures usageQuery.Rows? && feedbackQuery.Rows? ==>
      res.status == 200 && res.payload.Sent? &&
      var merged := Merged(RowsOrEmpty(usageQuery.data), RowsOrEmpty(feedbackQuery.data));
      exists rows :: res.payload == Sent(RecentReply(projectHost, rows)) &&
        |rows| == (if |merged| < Limit then |merged| else Limit) && NewestFirst(rows) &&
        multiset(rows) <= multiset(merged) &&
        forall x, y :: x in rows && y in multiset(merged) - multiset(rows) ==> NoOlder(x, y)
  {
    if usageQuery.QueryError? {
      res.Send(500, QueryFailure("usage query failed", usageQuery.details));
      return;
    }
    if feedbackQuery.QueryError? {
      res.Send(500, QueryFailure("feedback query failed", feedbackQuery.details));
      return;
    }
    var rows := Recent(RowsOrEmpty(usageQuery.data), RowsOrEmpty(feedbackQuery.data));
    res.Send(200, RecentReply(projectHost, rows));
  }
}
