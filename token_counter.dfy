/** The home page of the app router: a search box whose searches are
    counted per calendar month in `localStorage`. */
module HomeCounter {
  import opened Base
  import opened Json
  import opened Browser
  import opened Dates

  const KeyPrefix := "rk_tokens_used_month_"

  /** The free searches the counter's text measures against. */
  const FreeRecs: nat := 5

  /** The storage key of a month: the prefix, the year as written by
      `String`, and the month number padded to two digits. */
  function MonthKey(c: Civil): (k: string)
    ensures |k| > |KeyPrefix| && k[..|KeyPrefix|] == KeyPrefix
  {
    KeyPrefix + IntToString(c.year) + PadZero(c.month, 2)
  }

  /** Two months of the common era never share a key: each month has its
      own counter. */
  lemma MonthKeyInjective(a: Civil, b: Civil)
    requires a.year >= 0 && b.year >= 0 && 1 <= a.month <= 12 && 1 <= b.month <= 12
    requires MonthKey(a) == MonthKey(b)
    ensures a.year == b.year && a.month == b.month
  {
    var ya, yb := NatToString(a.year), NatToString(b.year);
    var ma, mb := PadZero(a.month, 2), PadZero(b.month, 2);
    assert |ma| == 2 && |mb| == 2;
    var n := |KeyPrefix|;
    assert MonthKey(a)[n..] == ya + ma;
    assert MonthKey(b)[n..] == yb + mb;
    assert |ya| == |yb|;
    assert ya == (ya + ma)[..|ya|] && yb == (yb + mb)[..|yb|];
    assert ma == (ya + ma)[|ya|..] && mb == (yb + mb)[|yb|..];
    DigitsValueOfNat(a.year);
    DigitsValueOfNat(b.year);
    PadZeroValue(a.month, 2);
    PadZeroValue(b.month, 2);
  }

  /** `${used} of 5 free recs used`. */
  function TokenText(used: JsNumber): (t: string)
    ensures |t| > |NumberToString(used)| && t[..|NumberToString(used)|] == NumberToString(used)
  {
    NumberToString(used) + " of " + NatToString(FreeRecs) + " free recs used"
  }

  /** `useTokenCounter`: the count and the key it is kept under, empty
      until the mount effect has run. */
  class Counter {
    var used: JsNumber
    var monthKey: string
    const ls: LocalStorage

    constructor (ls: LocalStorage)
      ensures used == Num(0) && monthKey == "" && this.ls == ls
    {
      used := Num(0);
      monthKey := "";
      this.ls := ls;
    }

    /** The mount effect: this month's key, and the count stored under it
        (`Number` of the text, 0 when nothing or "" is stored). */
    method Mount(clock: Clock)
      modifies this
      ensures monthKey == MonthKey(clock.today)
      ensures used == NumberJs(ls.GetItemOr(monthKey, "0"))
      ensures unchanged(ls)
    {
      monthKey := MonthKey(clock.today);
      used := NumberJs(ls.GetItemOr(monthKey, "0"));
    }

    /** `increment()`: nothing before the key is known; afterwards one
        more, written under the key. */
    method Increment()
      modifies this, ls
      ensures old(monthKey) == "" ==> used == old(used) && unchanged(ls)
      ensures old(monthKey) != "" ==>
        used == old(used).Succ() && ls.items == old(ls.items)[monthKey := NumberToString(used)]
      ensures monthKey == old(monthKey)
    {
      if monthKey == "" {
        return;
      }
      var next := used.Succ();
      used := next;
      ls.SetItem(monthKey, NumberToString(next));
    }

    /** The count survives a reload within the month: mounting again on a
        day of the same month reads back the count just written. */
    lemma ReadBack(clock: Clock)
      requires monthKey == MonthKey(clock.today) && monthKey in ls.items
      requires ls.items[monthKey] == NumberToString(used)
      ensures NumberJs(ls.GetItemOr(MonthKey(clock.today), "0")) == used
    {
      NumberOfNumberToString(used);
    }
  }

  /** How a request to `/api/recommend` ended: an error status with the
      body's `error` field when it had a truthy one, a thrown error with
      its message, or a body with its optional `results`. */
  datatype Outcome =
    | NotOk(status: int, errorField: Option<string>)
    | Threw(message: Option<string>)
    | Ok(results: Option<seq<Json>>)

  /** The error message `run` shows for a failed request: the body's
      `error` field when it is truthy (an empty one counts as missing),
      else the status. */
  function ErrorText(o: Outcome): (e: string)
    requires !o.Ok?
    ensures o.NotOk? && o.errorField.Some? && o.errorField.value != "" ==> e == o.errorField.value
    ensures o.NotOk? && (o.errorField.None? || o.errorField.value == "") ==>
      e == "Server error: " + IntToString(o.status)
    ensures o.Threw? && o.message.None? ==> e == "Something went wrong."
    ensures o.Threw? && o.message.Some? ==> e == o.message.value
  {
    match o
    case NotOk(status, f) => if f.Some? && f.value != "" then f.value else "Server error: " + IntToString(status)
    case Threw(m) => if m.Some? then m.value else "Something went wrong."
  }

  /** The body `run` posts; an undefined refinement is left out. */
  function RunBody(prompt: string, category: string, refine: Option<string>): Json {
    JObj(Defined("prompt", Some(JStr(prompt))) + Defined("category", Some(JStr(category))) +
         Defined("refine", if refine.Some? then Some(JStr(refine.value)) else None))
  }

  /** The posted body carries the prompt and the category, and the
      refinement exactly when there is one. */
  lemma RunBodyFields(prompt: string, category: string, refine: Option<string>)
    ensures Get(RunBody(prompt, category, refine), "prompt") == Some(JStr(prompt))
    ensures Get(RunBody(prompt, category, refine), "category") == Some(JStr(category))
    ensures Get(RunBody(prompt, category, refine), "refine") == (if refine.Some? then Some(JStr(refine.value)) else None)
  {
    var a := Defined("prompt", Some(JStr(prompt)));
    var b := Defined("category", Some(JStr(category)));
    var c := Defined("refine", if refine.Some? then Some(JStr(refine.value)) else None);
    LookupAppend3(a, b, c, "prompt");
    LookupAppend3(a, b, c, "category");
    LookupAppend3(a, b, c, "refine");
  }

  /** `sp.get("q") ?? ""`: the parameter's text, empty when it is absent. */
  function QueryText(q: Option<string>): (t: string)
    ensures q.Some? ==> t == q.value
    ensures q.None? ==> t == ""
  {
    if q.Some? then q.value else ""
  }

  /** The category after the auto-run effect: a non-empty `cat` parameter
      replaces the current one, and nothing else does. */
  function ChosenCategory(cat: Option<string>, current: string): (c: string)
    ensures cat.Some? && cat.value != "" ==> c == cat.value
    ensures c != current ==> cat == Some(c) && c != ""
  {
    if cat.Some? && cat.value != "" then cat.value else current
  }

  /** The page's state and its counter. */
  class Home {
    var prompt: string
    var category: string
    var results: seq<Json>
    var loading: bool
    var error: string
    var booted: bool
    const counter: Counter

    constructor (counter: Counter)
      ensures this.counter == counter && prompt == "" && category == "universal"
      ensures results == [] && !loading && error == "" && !booted
    {
      this.counter := counter;
      prompt := "";
      category := "universal";
      results := [];
      loading := false;
      error := "";
      booted := false;
    }

    /** `run` as a closure of some render sees it: `sentCategory` is the
        category of that render, and `counts` says whether its
        `increment` sees the month key (it does not in the first render,
        before the mount effect has stored the key). */
    method Fetch(promptText: string, refineText: Option<string>, sentCategory: string, counts: bool, o: Outcome)
      returns (body: Json)
      modifies this, counter, counter.ls
      ensures body == RunBody(promptText, sentCategory, refineText)
      ensures !loading && prompt == old(prompt) && category == old(category) && booted == old(booted)
      ensures counter.monthKey == old(counter.monthKey)
      ensures o.Ok? ==> results == (if o.results.Some? then o.results.value else []) && error == ""
      ensures !o.Ok? ==> results == [] && error == ErrorText(o)
      ensures o.Ok? && counts && old(counter.monthKey) != "" ==> counter.used == old(counter.used).Succ()
      ensures !o.Ok? || !counts || old(counter.monthKey) == "" ==>
        counter.used == old(counter.used) && counter.ls.items == old(counter.ls.items)
    {
      body := RunBody(promptText, sentCategory, refineText);
      if o.Ok? {
        results := if o.results.Some? then o.results.value else [];
        error := "";
        if counts {
          counter.Increment();
        }
      } else {
        results := [];
        error := ErrorText(o);
      }
      loading := false;
    }

    /** `run(promptText, refineText)` from the current render, with the
        request's outcome: the body posted, then the results, or the
        error. Only an answered request is counted. */
    method Run(promptText: string, refineText: Option<string>, o: Outcome) returns (body: Json)
      modifies this, counter, counter.ls
      ensures body == RunBody(promptText, old(category), refineText)
      ensures !loading && prompt == old(prompt) && category == old(category) && booted == old(booted)
      ensures counter.monthKey == old(counter.monthKey)
      ensures o.Ok? ==>
        results == (if o.results.Some? then o.results.value else []) && error == "" &&
        (old(counter.monthKey) == "" ==> counter.used == old(counter.used)) &&
        (old(counter.monthKey) != "" ==> counter.used == old(counter.used).Succ())
      ensures !o.Ok? ==>
        results == [] && error == ErrorText(o) &&
        counter.used == old(counter.used) && counter.ls.items == old(counter.ls.items)
    {
      body := Fetch(promptText, refineText, category, true, o);
    }

    /** The auto-run's start: the query goes in the box and `run` is
        called with it, no refinement, as `Fetch` describes. */
    method Launch(query: string, sentCategory: string, counts: bool, o: Outcome) returns (body: Json)
      modifies this, counter, counter.ls
      ensures booted && prompt == query && category == old(category)
      ensures body == RunBody(query, sentCategory, None)
      ensures o.Ok? && counts && old(counter.monthKey) != "" ==> counter.used == old(counter.used).Succ()
      ensures !counts ==> counter.used == old(counter.used) && counter.ls.items == old(counter.ls.items)
    {
      booted := true;
      prompt := query;
      body := Fetch(query, None, sentCategory, counts, o);
    }

    /** The auto-run effect for `?q=…&cat=…`, as written: once per page, a
        non-empty `cat` chooses the category and a query that is not blank
        is put in the box and run. The `run` it calls belongs to the render
        the effect was scheduled by, so it posts the category from before
        `cat` was applied; run on mount (`onMount`), its `increment` does
        not yet see the month key and the search is not counted. */
    method Boot(q: Option<string>, cat: Option<string>, onMount: bool, o: Outcome) returns (body: Option<Json>)
      modifies this, counter, counter.ls
      ensures old(booted) ==> (body.None? && prompt == old(prompt) && category == old(category) &&
        results == old(results) && counter.used == old(counter.used))
      ensures !old(booted) ==> category == ChosenCategory(cat, old(category))
      ensures !old(booted) ==> (body.None? <==> Trim(QueryText(q)) == "")
      ensures !old(booted) && Trim(QueryText(q)) != "" ==>
        booted && prompt == QueryText(q) && body == Some(RunBody(QueryText(q), old(category), None))
      ensures !old(booted) && Trim(QueryText(q)) != "" && o.Ok? && !onMount && old(counter.monthKey) != "" ==>
        counter.used == old(counter.used).Succ()
      ensures onMount ==> counter.used == old(counter.used) && counter.ls.items == old(counter.ls.items)
    {
      if booted {
        return None;
      }
      var query := QueryText(q);
      var seen := category;
      category := ChosenCategory(cat, category);
      if Trim(query) != "" {
        var b := Launch(query, seen, !onMount, o);
        body := Some(b);
      } else {
        body := None;
      }
    }

    /** The auto-run effect as meant: the search runs in the chosen
        category and is counted like any other. */
    method BootIntended(q: Option<string>, cat: Option<string>, o: Outcome) returns (body: Option<Json>)
      modifies this, counter, counter.ls
      ensures old(booted) ==> (body.None? && prompt == old(prompt) && category == old(category) &&
        results == old(results) && counter.used == old(counter.used))
      ensures !old(booted) ==> category == ChosenCategory(cat, old(category))
      ensures !old(booted) ==> (body.None? <==> Trim(QueryText(q)) == "")
      ensures !old(booted) && Trim(QueryText(q)) != "" ==>
        booted && prompt == QueryText(q) && body == Some(RunBody(QueryText(q), category, None))
      ensures !old(booted) && Trim(QueryText(q)) != "" && o.Ok? && old(counter.monthKey) != "" ==>
        counter.used == old(counter.used).Succ()
    {
      if booted {
        return None;
      }
      var query := QueryText(q);
      category := ChosenCategory(cat, category);
      if Trim(query) != "" {
        var b := Launch(query, category, true, o);
        body := Some(b);
      } else {
        body := None;
      }
    }
  }

  /** `/?q=dune&cat=books` on a fresh page: the effect picks "books", but
      the search it posts names "universal". */
  lemma StaleCategoryPosted()
    ensures ChosenCategory(Some("books"), "universal") == "books"
    ensures Get(RunBody("dune", "universal", None), "category") != Some(JStr("books"))
  {
    RunBodyFields("dune", "universal", None);
    assert "universal" != "books" by {
      assert "universal"[0] == 'u';
    }
  }
}
