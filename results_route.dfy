/** The `/results` page: reads `?q=` and `?v=` and mounts the results view. */
module ResultsRoute {
  import opened Base
  import opened Json
  import Http
  import V4 = ResultsV4

  /** The verticals the page accepts. */
  const Allowed: seq<string> := ["movies", "tv", "wine", "books"]

  /** `normalizeVertical`: the parameter itself when it is given once and is
      exactly one of the allowed verticals, else "movies". */
  function NormalizeVertical(v: Option<Http.QueryParam>): (r: string)
    ensures r in Allowed
    ensures v.Some? && v.value.Param? && v.value.s in Allowed ==> r == v.value.s
    ensures r != "movies" ==> v == Some(Http.Param(r))
  {
    if v.Some? && v.value.Param? && v.value.s in Allowed then v.value.s else "movies"
  }

  /** No capital letter A to Z in the text. */
  predicate NoCapital(s: string) {
    forall i :: 0 <= i < |s| ==> !('A' <= s[i] <= 'Z')
  }

  /** Matching is exact: a single parameter is kept exactly when it is one
      of the allowed verticals, so any capital ("TV", "Movies") falls back
      to "movies". */
  lemma NormalizeIsCaseSensitive(s: string)
    ensures NormalizeVertical(Some(Http.Param(s))) == s <==> s in Allowed
    ensures !NoCapital(s) ==> NormalizeVertical(Some(Http.Param(s))) == "movies"
  {
    if !NoCapital(s) {
      assert s !in Allowed by {
        forall a | a in Allowed
          ensures NoCapital(a)
        {
          assert a == "movies" || a == "tv" || a == "wine" || a == "books";
        }
      }
    }
  }

  /** `q`: the parameter when it is given once; a repeated one is dropped. */
  function Query(q: Option<Http.QueryParam>): (r: Option<string>)
    ensures r.Some? <==> q.Some? && q.value.Param?
    ensures r.Some? ==> r.value == q.value.s
  {
    if q.Some? && q.value.Param? then Some(q.value.s) else None
  }

  /** The vertical's label: its first letter upper-cased. */
  function Label(v: string): (l: string)
    requires v != ""
    ensures |l| == |v| && l[1..] == v[1..]
    ensures l[0] == UpperChar(v[0])
  {
    [UpperChar(v[0])] + v[1..]
  }

  /** The label of an allowed vertical starts with a capital, and lower-casing a label gives
      the vertical back. */
  lemma LabelsOfAllowed(v: string)
    requires v in Allowed
    ensures 'A' <= Label(v)[0] <= 'Z'
    ensures ToLower(Label(v)) == v
  {
    var l := Label(v);
    assert ToLower(l) == v by {
      assert forall i :: 0 <= i < |v| ==> LowerChar(l[i]) == v[i];
    }
  }

  /** The "Results for …" line: shown only for a non-empty query. */
  function Banner(q: Option<string>, v: string): (b: Option<string>)
    requires v != ""
    ensures b.Some? <==> q.Some? && q.value != ""
  {
    if q.Some? && q.value != "" then Some("Results for “" + q.value + "” · in " + Label(v)) else None
  }

  /** The props the page passes to the results view. `autoRunQuery` is the
      query text, used for its truthiness. */
  datatype Props = Props(initialQuery: Option<string>, initialVertical: Option<string>, autoRunQuery: Option<string>)

  function Truthy(s: Option<string>): bool {
    s.Some? && s.value != ""
  }

  /** The request the view posts on mount, if it posts one: the first
      prompt, built before any thumb or chip. */
  function FirstRequest(p: Props): (r: Option<Json>)
    ensures r.Some? <==> V4.AutoRuns(Truthy(p.autoRunQuery), p.initialQuery, p.initialVertical)
  {
    var s := V4.Initial(p.initialQuery, p.initialVertical);
    if V4.AutoRuns(Truthy(p.autoRunQuery), p.initialQuery, p.initialVertical)
    then Some(V4.RequestBody(V4.PromptFor(s, false), s.vertical))
    else None
  }

  /** The props as the page writes them: the query only as the auto-run
      switch, not as the view's query. */
  function PropsAsWritten(q: Option<string>, v: string): Props {
    Props(None, Some(v), q)
  }

  /** The query is lost: a page opened for a query asks for the vertical's
      popular items instead. */
  lemma QueryNotForwarded(q: Option<string>, v: string)
    requires v in Allowed
    ensures Truthy(q) ==> FirstRequest(PropsAsWritten(q, v)) == Some(V4.RequestBody("Find 5 popular " + v, v))
    ensures !Truthy(q) ==> FirstRequest(PropsAsWritten(q, v)).None?
  {
    var s := V4.Initial(None, Some(v));
    assert s.prompt == "" && s.vertical == v;
    V4.FreshPrompt(s, false);
    assert V4.PromptFor(s, false) == "Find 5 popular " + v;
  }

  /** The props with the query also handed over as the view's query. */
  function CorrectedProps(q: Option<string>, v: string): (p: Props)
    ensures p.initialQuery == q && p.initialVertical == Some(v) && p.autoRunQuery == q
  {
    Props(q, Some(v), q)
  }

  /** With the query handed over, the page asks for what was searched for,
      trimmed, and asks nothing without a query. */
  lemma QueryForwarded(q: Option<string>, v: string)
    requires v in Allowed
    ensures q.Some? && Trim(q.value) != "" ==>
      FirstRequest(CorrectedProps(q, v)) == Some(V4.RequestBody(Trim(q.value), v))
    ensures !Truthy(q) ==> FirstRequest(CorrectedProps(q, v)).None?
  {
    var s := V4.Initial(q, Some(v));
    assert s.vertical == v;
    V4.FreshPrompt(s, false);
  }

  /** The page's whole render, as written: the banner and the view's first
      request. A query starts the view, but the view asks for the
      vertical's popular items. */
  function Page(query: map<string, Http.QueryParam>): (r: (Option<string>, Option<Json>))
    ensures r.0.Some? <==> r.1.Some?
    ensures r.1.Some? <==> "q" in query && query["q"].Param? && query["q"].s != ""
    ensures var v := NormalizeVertical(if "v" in query then Some(query["v"]) else None);
      r.1.Some? ==> r.1 == Some(V4.RequestBody("Find 5 popular " + v, v))
  {
    var q := Query(if "q" in query then Some(query["q"]) else None);
    var v := NormalizeVertical(if "v" in query then Some(query["v"]) else None);
    QueryNotForwarded(q, v);
    (Banner(q, v), FirstRequest(PropsAsWritten(q, v)))
  }

  /** The render with the query handed over: the request asks for the
      trimmed query in the normalised vertical. */
  function CorrectedPage(query: map<string, Http.QueryParam>): (r: (Option<string>, Option<Json>))
    ensures r.0.Some? <==> r.1.Some?
    ensures "q" in query && query["q"].Param? && Trim(query["q"].s) != "" ==>
      r.1 == Some(V4.RequestBody(Trim(query["q"].s), NormalizeVertical(if "v" in query then Some(query["v"]) else None)))
  {
    var q := Query(if "q" in query then Some(query["q"]) else None);
    var v := NormalizeVertical(if "v" in query then Some(query["v"]) else None);
    QueryForwarded(q, v);
    (Banner(q, v), FirstRequest(CorrectedProps(q, v)))
  }
}
