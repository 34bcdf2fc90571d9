/** The search hook of the first results page: one prompt at a time, an
    optional title and tag to refine the last base query with, a vote on
    the first pick, and five picks per page. */
module LegacySearch {
  import opened Base
  import opened Json

  const PageSize: nat := 5

  const LoadError: string := "We couldn\U{2019}t load picks. Try again in a moment."

  /** The separators the refine actions put between the parts of a query. */
  const MoreLike: string := " \U{2014} more like "
  const MakeIt: string := " \U{2014} make it "

  datatype Vote = Up | Down

  function VoteName(v: Vote): string {
    match v
    case Up => "up"
    case Down => "down"
  }

  /** How a request to `/api/recs` ended: a non-2xx answer, a network error
      or a body that is not JSON all fail; otherwise `data.items`, where
      None stands for a missing or null list. */
  datatype Outcome = Failed | Loaded(items: Option<seq<Json>>)

  /** `p ?? prompt`. */
  function Given(p: Option<string>, prompt: string): string {
    if p.Some? then p.value else prompt
  }

  /** The prompt `getRecs(p)` works with: `(p ?? prompt).trim()`, and None
      when that is empty, in which case the call does nothing. */
  function EffectivePrompt(p: Option<string>, prompt: string): (q: Option<string>)
    ensures q.Some? ==> q.value != [] && Trim(q.value) == q.value
    ensures q.None? <==> forall i :: 0 <= i < |Given(p, prompt)| ==> IsSpace(Given(p, prompt)[i])
  {
    var e := Trim(Given(p, prompt));
    TrimEmptyIffBlank(Given(p, prompt));
    if e == [] then None else TrimNoop(e); Some(e)
  }

  /** A `string | null` state variable used as a condition. */
  predicate Chosen(o: Option<string>) {
    o.Some? && o.value != ""
  }

  /** `(lastBase || "").trim()`. */
  function BaseText(lastBase: Option<string>): string {
    Trim(if lastBase.Some? then lastBase.value else "")
  }

  /** The text `refineWithTitle(title)` hands to `getRecs`. */
  function TitleRefined(lastBase: Option<string>, title: string, tagRefine: Option<string>): string {
    BaseText(lastBase) + MoreLike + title + (if Chosen(tagRefine) then MakeIt + tagRefine.value else "")
  }

  /** The text `refineWithTag(tag)` hands to `getRecs`. */
  function TagRefined(lastBase: Option<string>, titleRefine: Option<string>, tag: string): string {
    BaseText(lastBase) + (if Chosen(titleRefine) then MoreLike + titleRefine.value else "") + MakeIt + tag
  }

  /** A text that holds a character other than white space is never blank,
      so it always starts a search. */
  lemma NotBlank(s: string, i: nat)
    requires i < |s| && !IsSpace(s[i])
    ensures EffectivePrompt(Some(s), "").Some?
  {
    TrimEmptyIffBlank(s);
  }

  /** A text with a separator that holds an em dash is never blank. */
  lemma DashedNotBlank(s: string, pre: string, sep: string, post: string)
    requires s == pre + sep + post && |sep| > 1 && sep[1] == '\U{2014}'
    ensures EffectivePrompt(Some(s), "").Some?
  {
    assert s[|pre| + 1] == sep[1];
    NotBlank(s, |pre| + 1);
  }

  /** Both refine texts carry an em dash, which is not white space: a refine
      always starts a search. */
  lemma RefinesSearch(lastBase: Option<string>, titleRefine: Option<string>, tagRefine: Option<string>, s: string)
    ensures EffectivePrompt(Some(TitleRefined(lastBase, s, tagRefine)), "").Some?
    ensures EffectivePrompt(Some(TagRefined(lastBase, titleRefine, s)), "").Some?
  {
    TitleRefineSearches(lastBase, tagRefine, s);
    TagRefineSearches(lastBase, titleRefine, s);
  }

  lemma TitleRefineSearches(lastBase: Option<string>, tagRefine: Option<string>, s: string)
    ensures EffectivePrompt(Some(TitleRefined(lastBase, s, tagRefine)), "").Some?
  {
    var b := BaseText(lastBase);
    var tagPart := if Chosen(tagRefine) then MakeIt + tagRefine.value else "";
    var t := TitleRefined(lastBase, s, tagRefine);
    assert t == b + MoreLike + (s + tagPart) by {
      AppendAssoc(b + MoreLike, s, tagPart);
    }
    SeparatorsDashed();
    DashedNotBlank(t, b, MoreLike, s + tagPart);
  }

  lemma TagRefineSearches(lastBase: Option<string>, titleRefine: Option<string>, s: string)
    ensures EffectivePrompt(Some(TagRefined(lastBase, titleRefine, s)), "").Some?
  {
    var b := BaseText(lastBase);
    var mid := if Chosen(titleRefine) then MoreLike + titleRefine.value else "";
    var t := TagRefined(lastBase, titleRefine, s);
    assert t == b + mid + MakeIt + s;
    SeparatorsDashed();
    DashedNotBlank(t, b + mid, MakeIt, s);
  }

  /** Both separators hold an em dash after their leading space. */
  lemma SeparatorsDashed()
    ensures |MoreLike| > 1 && MoreLike[1] == '\U{2014}'
    ensures |MakeIt| > 1 && MakeIt[1] == '\U{2014}'
  {
  }

  /** With a title and a tag both chosen, the order of the two refinements
      does not matter: both build the same query. */
  lemma RefineOrder(lastBase: Option<string>, title: string, tag: string)
    requires title != "" && tag != ""
    ensures TitleRefined(lastBase, title, Some(tag)) == TagRefined(lastBase, Some(title), tag)
  {
    assert Chosen(Some(tag)) && Chosen(Some(title));
    var b := BaseText(lastBase);
    AppendAssoc(b + MoreLike, title, MakeIt + tag);
    AppendAssoc(b + MoreLike + title, MakeIt, tag);
    AppendAssoc(b, MoreLike, title);
  }

  /** With a base query and a title that ends in something other than white
      space, the query sent is the base, the separator and the title, as
      written. */
  lemma TitleRefinedExact(lastBase: Option<string>, title: string)
    requires BaseText(lastBase) != [] && title != [] && !IsSpace(title[|title| - 1])
    ensures EffectivePrompt(Some(TitleRefined(lastBase, title, None)), "") ==
            Some(BaseText(lastBase) + MoreLike + title)
  {
    var t := BaseText(lastBase) + MoreLike + title;
    assert TitleRefined(lastBase, title, None) == t;
    assert t[0] == BaseText(lastBase)[0];
    assert t[|t| - 1] == title[|title| - 1];
    TrimNoop(t);
  }

  /** `paged`: the records of page `page`, through `slice`, so a page before
      the first counts from the end. */
  function Paged(recs: seq<Json>, page: int): (r: seq<Json>)
    ensures |r| <= PageSize
  {
    var start := (page - 1) * PageSize;
    var r := JsSlice(recs, start, start + PageSize);
    assert 0 <= start ==> |r| <= PageSize;
    r
  }

  /** `totalPages`: `Math.max(1, Math.ceil(n / 5))`. */
  function TotalPages(n: nat): (t: nat)
    ensures t >= 1 && n <= t * PageSize
    ensures n > 0 ==> (t - 1) * PageSize < n
  {
    if n == 0 then 1 else (n + PageSize - 1) / PageSize
  }

  /** Every record is on exactly the page its index says, and that page is
      one of the pages counted. */
  lemma PageOfIndex(recs: seq<Json>, i: nat)
    requires i < |recs|
    ensures 1 <= i / PageSize + 1 <= TotalPages(|recs|)
    ensures i % PageSize < |Paged(recs, i / PageSize + 1)|
    ensures Paged(recs, i / PageSize + 1)[i % PageSize] == recs[i]
  {
    var p := i / PageSize + 1;
    var start := (p - 1) * PageSize;
    assert start <= i < start + PageSize;
    var b := SliceIndex(start + PageSize, |recs|);
    assert Paged(recs, p) == recs[start..b];
  }

  /** Pages after the last one are empty; pages before the last are full. */
  lemma PageSizes(recs: seq<Json>, page: int)
    ensures page > TotalPages(|recs|) ==> Paged(recs, page) == []
    ensures 1 <= page < TotalPages(|recs|) ==> |Paged(recs, page)| == PageSize
  {
    var start := (page - 1) * PageSize;
    if page > TotalPages(|recs|) {
      assert start >= |recs|;
    }
    if 1 <= page < TotalPages(|recs|) {
      assert start + PageSize <= |recs|;
      assert Paged(recs, page) == recs[start..start + PageSize];
    }
  }

  /** `first?.key` for the first record. */
  function FirstField(recs: seq<Json>, key: string): (r: Option<Json>)
    ensures recs == [] ==> r.None?
    ensures recs != [] ==> r == Get(recs[0], key)
  {
    if recs == [] then None else Get(recs[0], key)
  }

  /** The body `handleVote` posts to `/api/feedback`: the fields of a missing
      first record are `undefined` and so absent from the text. */
  function VoteBody(vote: Vote, lastBase: Option<string>, recs: seq<Json>): (j: Json)
    ensures j.JObj?
  {
    JObj(VoteHead(vote, lastBase) + ItemFields(recs) + Defined("userId", Some(JNull)))
  }

  /** The vote, the base query (or "") and a null user. */
  lemma VoteBodyHead(vote: Vote, lastBase: Option<string>, recs: seq<Json>)
    ensures Get(VoteBody(vote, lastBase, recs), "vote") == Some(JStr(VoteName(vote)))
    ensures Get(VoteBody(vote, lastBase, recs), "prompt") == Some(JStr(if lastBase.Some? then lastBase.value else ""))
    ensures Get(VoteBody(vote, lastBase, recs), "userId") == Some(JNull)
  {
    var head := VoteHead(vote, lastBase);
    var items := ItemFields(recs);
    var tail := Defined("userId", Some(JNull));
    LookupAppend3(head, items, tail, "vote");
    LookupAppend3(head, items, tail, "prompt");
    LookupAppend3(head, items, tail, "userId");
  }

  /** The first record's id, title and summary, each absent when there is
      no first record or it lacks the property. */
  lemma VoteBodyItems(vote: Vote, lastBase: Option<string>, recs: seq<Json>)
    ensures Get(VoteBody(vote, lastBase, recs), "itemId") == FirstField(recs, "id")
    ensures Get(VoteBody(vote, lastBase, recs), "itemTitle") == FirstField(recs, "title")
    ensures Get(VoteBody(vote, lastBase, recs), "itemSummary") == FirstField(recs, "summary")
  {
    VoteBodyField(vote, lastBase, recs, "itemId");
    VoteBodyField(vote, lastBase, recs, "itemTitle");
    VoteBodyField(vote, lastBase, recs, "itemSummary");
  }

  /** A key the vote body takes from the first pick only. */
  lemma VoteBodyField(vote: Vote, lastBase: Option<string>, recs: seq<Json>, key: string)
    requires key in {"itemId", "itemTitle", "itemSummary"}
    ensures Get(VoteBody(vote, lastBase, recs), key) == Lookup(ItemFields(recs), key)
  {
    LookupAppend3(VoteHead(vote, lastBase), ItemFields(recs), Defined("userId", Some(JNull)), key);
  }

  /** The `vote` and `prompt` properties of the vote body. */
  function VoteHead(vote: Vote, lastBase: Option<string>): (r: seq<(string, Json)>)
    ensures Lookup(r, "vote") == Some(JStr(VoteName(vote)))
    ensures Lookup(r, "prompt") == Some(JStr(if lastBase.Some? then lastBase.value else ""))
    ensures Lookup(r, "itemId").None? && Lookup(r, "itemTitle").None?
    ensures Lookup(r, "itemSummary").None? && Lookup(r, "userId").None?
  {
    var a := Defined("vote", Some(JStr(VoteName(vote))));
    var b := Defined("prompt", Some(JStr(if lastBase.Some? then lastBase.value else "")));
    LookupAppend(a, b, "vote");
    LookupAppend(a, b, "prompt");
    LookupAppend(a, b, "itemId");
    LookupAppend(a, b, "itemTitle");
    LookupAppend(a, b, "itemSummary");
    LookupAppend(a, b, "userId");
    a + b
  }

  /** The three `first?.…` properties of the vote body. */
  function ItemFields(recs: seq<Json>): (r: seq<(string, Json)>)
    ensures Lookup(r, "itemId") == FirstField(recs, "id")
    ensures Lookup(r, "itemTitle") == FirstField(recs, "title")
    ensures Lookup(r, "itemSummary") == FirstField(recs, "summary")
    ensures Lookup(r, "vote").None? && Lookup(r, "prompt").None? && Lookup(r, "userId").None?
  {
    var a := Defined("itemId", FirstField(recs, "id"));
    var b := Defined("itemTitle", FirstField(recs, "title"));
    var c := Defined("itemSummary", FirstField(recs, "summary"));
    LookupAppend3(a, b, c, "vote");
    LookupAppend3(a, b, c, "prompt");
    LookupAppend3(a, b, c, "userId");
    LookupAppend3(a, b, c, "itemId");
    LookupAppend3(a, b, c, "itemTitle");
    LookupAppend3(a, b, c, "itemSummary");
    a + b + c
  }

  /** The hook's state variables. `url` is the `q` parameter of the page
      address and `sent` the queries posted to `/api/recs`, oldest first. */
  datatype State = State(
    prompt: string,
    recs: seq<Json>,
    loading: bool,
    errorMsg: Option<string>,
    page: int,
    justVoted: Option<Vote>,
    lastBase: Option<string>,
    titleRefine: Option<string>,
    tagRefine: Option<string>,
    url: Option<string>,
    sent: seq<string>)

  /** While a search runs the list is empty and shows no error; the only
      error shown is the load error; the base query and every query sent
      are trimmed and not empty. */
  predicate Valid(s: State) {
    (s.loading ==> s.recs == [] && s.errorMsg.None?) &&
    (s.errorMsg.Some? ==> s.errorMsg.value == LoadError) &&
    (s.lastBase.Some? ==> s.lastBase.value != [] && Trim(s.lastBase.value) == s.lastBase.value) &&
    (forall i :: 0 <= i < |s.sent| ==> s.sent[i] != [] && Trim(s.sent[i]) == s.sent[i])
  }

  /** The state on first render. */
  function Initial(url: Option<string>): (s: State)
    ensures Valid(s) && !s.loading && s.recs == [] && s.page == 1 && s.sent == []
  {
    State("", [], false, None, 1, None, None, None, None, url, [])
  }

  /** The state once `getRecs` has sent `query`: the list is cleared, the
      query goes into the address and to `/api/recs`, and a new (non-refine)
      search forgets the refinements and becomes the base query. */
  function Started(s: State, query: string, isRefine: bool): (t: State)
    ensures t.prompt == "" && t.recs == [] && t.loading && t.errorMsg.None? && t.page == 1
    ensures t.justVoted.None? && t.url == Some(query) && t.sent == s.sent + [query]
    ensures !isRefine ==> t.lastBase == Some(query) && t.titleRefine.None? && t.tagRefine.None?
    ensures isRefine ==> t.lastBase == s.lastBase && t.titleRefine == s.titleRefine && t.tagRefine == s.tagRefine
  {
    var r := s.(prompt := "", recs := [], loading := true, errorMsg := None, page := 1, justVoted := None,
                url := Some(query), sent := s.sent + [query]);
    if isRefine then r else r.(lastBase := Some(query), titleRefine := None, tagRefine := None)
  }

  /** `getRecs(p, { isRefine })` up to the request: a blank prompt changes
      nothing. */
  function GetRecsStep(s: State, p: Option<string>, isRefine: bool): (t: State)
    ensures EffectivePrompt(p, s.prompt).None? ==> t == s
    ensures EffectivePrompt(p, s.prompt).Some? ==> t == Started(s, EffectivePrompt(p, s.prompt).value, isRefine)
  {
    match EffectivePrompt(p, s.prompt)
    case None => s
    case Some(q) => Started(s, q, isRefine)
  }

  /** The end of a request: the list (`data.items ?? []`) or the load
      error; loading stops either way. */
  function Finished(s: State, outcome: Outcome): (t: State)
    ensures !t.loading && t.sent == s.sent && t.lastBase == s.lastBase && t.page == s.page
    ensures outcome.Failed? ==> t.errorMsg == Some(LoadError) && t.recs == s.recs
    ensures outcome.Loaded? ==>
      t.errorMsg == s.errorMsg && t.recs == (if outcome.items.Some? then outcome.items.value else [])
  {
    match outcome
    case Failed => s.(errorMsg := Some(LoadError), loading := false)
    case Loaded(items) => s.(recs := if items.Some? then items.value else [], loading := false)
  }

  /** The query a title refine sends: never blank. */
  function TitleQuery(s: State, title: string): (q: string)
    ensures EffectivePrompt(Some(TitleRefined(s.lastBase, title, s.tagRefine)), "") == Some(q)
    ensures q != [] && Trim(q) == q
  {
    RefinesSearch(s.lastBase, s.titleRefine, s.tagRefine, title);
    EffectivePrompt(Some(TitleRefined(s.lastBase, title, s.tagRefine)), "").value
  }

  /** The query a tag refine sends: never blank. */
  function TagQuery(s: State, tag: string): (q: string)
    ensures EffectivePrompt(Some(TagRefined(s.lastBase, s.titleRefine, tag)), "") == Some(q)
    ensures q != [] && Trim(q) == q
  {
    RefinesSearch(s.lastBase, s.titleRefine, s.tagRefine, tag);
    EffectivePrompt(Some(TagRefined(s.lastBase, s.titleRefine, tag)), "").value
  }

  /** `refineWithTitle(title)`: the title is remembered and the base query,
      the title and the remembered tag are searched for. */
  function TitleStep(s: State, title: string): (t: State)
    ensures t.titleRefine == Some(title) && t.tagRefine == s.tagRefine && t.lastBase == s.lastBase
    ensures t.url == Some(TitleQuery(s, title)) && t.sent == s.sent + [TitleQuery(s, title)]
  {
    Started(s.(titleRefine := Some(title), prompt := ""), TitleQuery(s, title), true)
  }

  /** `refineWithTag(tag)`: the tag is remembered and the base query, the
      remembered title and the tag are searched for. */
  function TagStep(s: State, tag: string): (t: State)
    ensures t.tagRefine == Some(tag) && t.titleRefine == s.titleRefine && t.lastBase == s.lastBase
    ensures t.url == Some(TagQuery(s, tag)) && t.sent == s.sent + [TagQuery(s, tag)]
  {
    Started(s.(tagRefine := Some(tag), prompt := ""), TagQuery(s, tag), true)
  }

  /** `handleVote(vote)` once the server has answered: the vote is shown
      only when it was saved. */
  function Voted(s: State, vote: Vote, saved: bool): (t: State)
    ensures saved ==> t.justVoted == Some(vote)
    ensures !saved ==> t == s
    ensures t.(justVoted := s.justVoted) == s
  {
    if saved then s.(justVoted := Some(vote)) else s
  }

  /** `onEnter`: Enter searches for the typed prompt unless a search is
      already running. */
  function EnterStep(s: State, key: string): (t: State)
    ensures key != "Enter" || s.loading ==> t == s
    ensures key == "Enter" && !s.loading ==> t == GetRecsStep(s, None, false)
  {
    if key == "Enter" && !s.loading then GetRecsStep(s, None, false) else s
  }

  /** The mount effect: a non-blank `q` in the address starts a new search
      for it. */
  function MountStep(s: State): (t: State)
    ensures s.url.None? ==> t == s
    ensures s.url.Some? ==> t == GetRecsStep(s, s.url, false)
  {
    if s.url.Some? && EffectivePrompt(s.url, "").Some? then GetRecsStep(s, s.url, false) else s
  }

  /** Every step keeps the state's invariant. */
  lemma StartedValid(s: State, query: string, isRefine: bool)
    requires Valid(s) && query != [] && Trim(query) == query
    ensures Valid(Started(s, query, isRefine))
  {
    var t := Started(s, query, isRefine);
    forall i | 0 <= i < |t.sent|
      ensures t.sent[i] != [] && Trim(t.sent[i]) == t.sent[i]
    {
      if i < |s.sent| {
        assert t.sent[i] == s.sent[i];
      }
    }
  }

  lemma GetRecsValid(s: State, p: Option<string>, isRefine: bool)
    requires Valid(s)
    ensures Valid(GetRecsStep(s, p, isRefine))
  {
    var q := EffectivePrompt(p, s.prompt);
    if q.Some? {
      StartedValid(s, q.value, isRefine);
    }
  }

  lemma TitleStepValid(s: State, title: string)
    requires Valid(s)
    ensures Valid(TitleStep(s, title))
  {
    var q := TitleQuery(s, title);
    var s1 := s.(titleRefine := Some(title), prompt := "");
    assert Valid(s1);
    StartedValid(s1, q, true);
  }

  lemma TagStepValid(s: State, tag: string)
    requires Valid(s)
    ensures Valid(TagStep(s, tag))
  {
    var q := TagQuery(s, tag);
    var s1 := s.(tagRefine := Some(tag), prompt := "");
    assert Valid(s1);
    StartedValid(s1, q, true);
  }

  lemma FinishedValid(s: State, outcome: Outcome)
    requires Valid(s)
    ensures Valid(Finished(s, outcome))
  {
  }

  lemma VotedValid(s: State, vote: Vote, saved: bool)
    requires Valid(s)
    ensures Valid(Voted(s, vote, saved))
  {
  }

  lemma EnterValid(s: State, key: string)
    requires Valid(s)
    ensures Valid(EnterStep(s, key))
  {
    GetRecsValid(s, None, false);
  }

  lemma MountValid(s: State)
    requires Valid(s)
    ensures Valid(MountStep(s))
  {
    GetRecsValid(s, s.url, false);
  }

  /** The hook: its state variables, updated by its actions. */
  class Search {
    var state: State

    constructor (url: Option<string>)
      ensures state == Initial(url)
    {
      state := Initial(url);
    }

    /** The records on the current page. */
    function PagedNow(): (r: seq<Json>)
      reads this
      ensures r == Paged(state.recs, state.page)
    {
      Paged(state.recs, state.page)
    }

    method SetPrompt(p: string)
      modifies this
      ensures state == old(state).(prompt := p)
    {
      state := state.(prompt := p);
    }

    method SetPage(p: int)
      modifies this
      ensures state == old(state).(page := p)
    {
      state := state.(page := p);
    }

    /** `getRecs(p, { isRefine })`: returns the query sent, if any. */
    method GetRecs(p: Option<string>, isRefine: bool) returns (query: Option<string>)
      modifies this
      ensures query == EffectivePrompt(p, old(state).prompt)
      ensures state == GetRecsStep(old(state), p, isRefine)
    {
      query := EffectivePrompt(p, state.prompt);
      state := GetRecsStep(state, p, isRefine);
    }

    method FinishSearch(outcome: Outcome)
      modifies this
      ensures state == Finished(old(state), outcome)
    {
      state := Finished(state, outcome);
    }

    method RefineWithTitle(title: string) returns (query: string)
      modifies this
      ensures query == TitleQuery(old(state), title)
      ensures state == TitleStep(old(state), title)
    {
      query := TitleQuery(state, title);
      state := TitleStep(state, title);
    }

    method RefineWithTag(tag: string) returns (query: string)
      modifies this
      ensures query == TagQuery(old(state), tag)
      ensures state == TagStep(old(state), tag)
    {
      query := TagQuery(state, tag);
      state := TagStep(state, tag);
    }

    /** `handleVote(vote)`: returns the body posted to `/api/feedback`;
        `saved` says whether the server accepted it. */
    method HandleVote(vote: Vote, saved: bool) returns (body: Json)
      modifies this
      ensures body == VoteBody(vote, old(state).lastBase, old(state).recs)
      ensures state == Voted(old(state), vote, saved)
    {
      body := VoteBody(vote, state.lastBase, state.recs);
      state := Voted(state, vote, saved);
    }

    method OnEnter(key: string)
      modifies this
      ensures state == EnterStep(old(state), key)
    {
      if key == "Enter" && !state.loading {
        var _ := GetRecs(None, false);
      }
    }

    method Mount()
      modifies this
      ensures state == MountStep(old(state))
    {
      if state.url.Some? && EffectivePrompt(state.url, "").Some? {
        var _ := GetRecs(state.url, false);
      }
    }
  }
}
