/** `/api/admin_stats`: searches and votes per UTC day over the last
    fourteen days, and their totals. */
module AdminStats {
  import opened Base
  import opened Json
  import opened Http
  import opened Dates

  /** One day of the report. */
  datatype Bucket = Bucket(date: string, searches: nat, votes: nat)

  /** A `usage_events` row and a `feedback` row, as selected. */
  datatype UsageRow = UsageRow(id: string, event: string, createdAt: string, prompt: Option<string>)
  datatype FeedbackRow = FeedbackRow(id: string, vote: string, createdAt: string, prompt: Option<string>)

  /** What a query gives back: an error, or rows (`None` for `null`). */
  datatype Query<T> = QueryError(details: Json) | Rows(data: Option<seq<T>>)

  /** `rows ?? []`. */
  function RowsOrEmpty<T>(data: Option<seq<T>>): seq<T> {
    if data.Some? then data.value else []
  }

  /** `dayKey(iso)`: the first ten characters, `YYYY-MM-DD`. */
  function DayOf(iso: string): (k: string)
    ensures |k| == if |iso| < 10 then |iso| else 10
    ensures k == iso[..|k|]
  {
    Take(iso, 10)
  }

  // ---------- what the report counts ----------

  /** The searches among `rows` on day `key`. */
  function SearchesOn(rows: seq<UsageRow>, key: string): nat {
    if rows == [] then 0
    else
      var r := rows[|rows| - 1];
      SearchesOn(rows[..|rows| - 1], key) + (if DayOf(r.createdAt) == key && r.event == "search" then 1 else 0)
  }

  /** The votes among `rows` on day `key`. */
  function VotesOn(rows: seq<FeedbackRow>, key: string): nat {
    if rows == [] then 0
    else
      VotesOn(rows[..|rows| - 1], key) + (if DayOf(rows[|rows| - 1].createdAt) == key then 1 else 0)
  }

  /** The days some usage row falls on, whatever its event. */
  function UsageDays(rows: seq<UsageRow>): set<string> {
    if rows == [] then {} else UsageDays(rows[..|rows| - 1]) + {DayOf(rows[|rows| - 1].createdAt)}
  }

  /** The days some feedback row falls on. */
  function FeedbackDays(rows: seq<FeedbackRow>): set<string> {
    if rows == [] then {} else FeedbackDays(rows[..|rows| - 1]) + {DayOf(rows[|rows| - 1].createdAt)}
  }

  /** A day no usage row falls on has no searches. */
  lemma {:induction false} NoSearchesOff(rows: seq<UsageRow>, key: string)
    requires key !in UsageDays(rows)
    ensures SearchesOn(rows, key) == 0
  {
    if rows != [] {
      NoSearchesOff(rows[..|rows| - 1], key);
    }
  }

  /** A day no feedback row falls on has no votes. */
  lemma {:induction false} NoVotesOff(rows: seq<FeedbackRow>, key: string)
    requires key !in FeedbackDays(rows)
    ensures VotesOn(rows, key) == 0
  {
    if rows != [] {
      NoVotesOff(rows[..|rows| - 1], key);
    }
  }

  /** Every vote on a day is one feedback row on it: the votes never
      exceed the rows. */
  lemma {:induction false} VotesAtMostRows(rows: seq<FeedbackRow>, key: string)
    ensures VotesOn(rows, key) <= |rows|
  {
    if rows != [] {
      VotesAtMostRows(rows[..|rows| - 1], key);
    }
  }

  // ---------- the buckets ----------

  /** One more usage row: its day joins the days, and it adds a search to
      that day exactly when its event is "search". */
  lemma UsageStep(rows: seq<UsageRow>, r: UsageRow)
    ensures UsageDays(rows + [r]) == UsageDays(rows) + {DayOf(r.createdAt)}
    ensures forall k :: (SearchesOn(rows + [r], k) ==
      SearchesOn(rows, k) + (if DayOf(r.createdAt) == k && r.event == "search" then 1 else 0))
  {
    assert (rows + [r])[..|rows|] == rows;
  }

  /** One more feedback row: its day joins the days, with one vote more. */
  lemma FeedbackStep(rows: seq<FeedbackRow>, r: FeedbackRow)
    ensures FeedbackDays(rows + [r]) == FeedbackDays(rows) + {DayOf(r.createdAt)}
    ensures forall k :: VotesOn(rows + [r], k) == VotesOn(rows, k) + (if DayOf(r.createdAt) == k then 1 else 0)
  {
    assert (rows + [r])[..|rows|] == rows;
  }

  /** The contents of the buckets after some usage and feedback rows. */
  predicate Counted(buckets: map<string, Bucket>, usage: seq<UsageRow>, feedback: seq<FeedbackRow>) {
    && buckets.Keys == UsageDays(usage) + FeedbackDays(feedback)
    && forall k :: k in buckets ==> buckets[k] == Bucket(k, SearchesOn(usage, k), VotesOn(feedback, k))
  }

  /** The body of the first loop keeps the buckets counted. */
  lemma CountUsage(buckets: map<string, Bucket>, usage: seq<UsageRow>, r: UsageRow)
    requires Counted(buckets, usage, [])
    ensures var key := DayOf(r.createdAt);
      var b := if key in buckets then buckets[key] else Bucket(key, 0, 0);
      Counted(buckets[key := if r.event == "search" then b.(searches := b.searches + 1) else b], usage + [r], [])
  {
    UsageStep(usage, r);
    var key := DayOf(r.createdAt);
    if key !in buckets {
      NoSearchesOff(usage, key);
    }
  }

  /** The body of the second loop keeps the buckets counted. */
  lemma CountFeedback(buckets: map<string, Bucket>, usage: seq<UsageRow>, feedback: seq<FeedbackRow>, r: FeedbackRow)
    requires Counted(buckets, usage, feedback)
    ensures var key := DayOf(r.createdAt);
      var b := if key in buckets then buckets[key] else Bucket(key, 0, 0);
      Counted(buckets[key := b.(votes := b.votes + 1)], usage, feedback + [r])
  {
    FeedbackStep(feedback, r);
    var key := DayOf(r.createdAt);
    if key !in buckets {
      NoSearchesOff(usage, key);
      NoVotesOff(feedback, key);
    }
  }

  /** The two loops that fill `buckets`: a bucket for every day a row falls
      on, holding that day's searches and votes. */
  method Aggregate(usage: seq<UsageRow>, feedback: seq<FeedbackRow>) returns (buckets: map<string, Bucket>)
    ensures Counted(buckets, usage, feedback)
  {
    buckets := map[];
    for i := 0 to |usage|
      invariant Counted(buckets, usage[..i], [])
    {
      var r := usage[i];
      var key := DayOf(r.createdAt);
      CountUsage(buckets, usage[..i], r);
      TakeSnoc(usage, i);
      var b := if key in buckets then buckets[key] else Bucket(key, 0, 0);
      if r.event == "search" {
        b := b.(searches := b.searches + 1);
      }
      buckets := buckets[key := b];
    }
    assert usage[..|usage|] == usage;
    for j := 0 to |feedback|
      invariant Counted(buckets, usage, feedback[..j])
    {
      var r := feedback[j];
      var key := DayOf(r.createdAt);
      CountFeedback(buckets, usage, feedback[..j], r);
      TakeSnoc(feedback, j);
      var b := if key in buckets then buckets[key] else Bucket(key, 0, 0);
      b := b.(votes := b.votes + 1);
      buckets := buckets[key := b];
    }
    assert feedback[..|feedback|] == feedback;
  }

  // ---------- the fourteen days ----------

  /** The number of days in the report. */
  const WindowDays: nat := 14

  /** The instant `i` days before `now`. */
  function DaysBack(now: int, i: int): int {
    now - i * MsPerDay
  }

  /** The report's days, newest first: today's UTC date and the thirteen
      before it. */
  function WindowKeys(now: int): (keys: seq<string>)
    ensures |keys| == WindowDays
    ensures forall i :: 0 <= i < WindowDays ==> keys[i] == DayKey(DaysBack(now, i))
  {
    seq(WindowDays, i requires 0 <= i < WindowDays => DayKey(DaysBack(now, i)))
  }

  /** Going back whole days moves the day number back by as many. */
  lemma DaysBackNumber(now: int, i: int)
    ensures DaysBack(now, i) / MsPerDay == now / MsPerDay - i
  {
    var q := now / MsPerDay;
    var r := now % MsPerDay;
    assert DaysBack(now, i) == (q - i) * MsPerDay + r;
  }

  /** Within the years 0..9999 the fourteen days are fourteen different
      dates, so no row is counted on two of them. */
  lemma WindowDistinct(now: int, i: int, j: int)
    requires 0 <= i < j < WindowDays
    requires 0 <= UtcDate(DaysBack(now, i)).year <= 9999 && 0 <= UtcDate(DaysBack(now, j)).year <= 9999
    ensures WindowKeys(now)[i] != WindowKeys(now)[j]
  {
    DaysBackNumber(now, i);
    DaysBackNumber(now, j);
    SameKeyIffSameDay(DaysBack(now, i), DaysBack(now, j));
  }

  /** The report for some days: each day's searches and votes, zero when
      nothing happened that day. */
  function Report(usage: seq<UsageRow>, feedback: seq<FeedbackRow>, keys: seq<string>): (days: seq<Bucket>)
    ensures |days| == |keys|
    ensures forall i :: 0 <= i < |keys| ==> days[i].date == keys[i]
  {
    seq(|keys|, i requires 0 <= i < |keys| => Bucket(keys[i], SearchesOn(usage, keys[i]), VotesOn(feedback, keys[i])))
  }

  /** A day's bucket, or zeros when no row falls on it, holds its counts. */
  lemma LookupDay(buckets: map<string, Bucket>, usage: seq<UsageRow>, feedback: seq<FeedbackRow>, key: string)
    requires Counted(buckets, usage, feedback)
    ensures (if key in buckets then buckets[key] else Bucket(key, 0, 0)) ==
      Bucket(key, SearchesOn(usage, key), VotesOn(feedback, key))
  {
    if key !in buckets {
      NoSearchesOff(usage, key);
      NoVotesOff(feedback, key);
    }
  }

  /** The loop that builds `days` from the buckets, one day key at a time. */
  method Window(buckets: map<string, Bucket>, keys: seq<string>, ghost usage: seq<UsageRow>, ghost feedback: seq<FeedbackRow>)
    returns (days: seq<Bucket>)
    requires Counted(buckets, usage, feedback)
    ensures days == Report(usage, feedback, keys)
  {
    days := [];
    for i := 0 to |keys|
      invariant days == Report(usage, feedback, keys)[..i]
    {
      var key := keys[i];
      var got := if key in buckets then buckets[key] else Bucket(key, 0, 0);
      LookupDay(buckets, usage, feedback, key);
      TakeSnoc(Report(usage, feedback, keys), i);
      days := days + [got];
    }
    assert Report(usage, feedback, keys)[..|keys|] == Report(usage, feedback, keys);
  }

  // ---------- totals ----------

  function SumSearches(days: seq<Bucket>): nat {
    if days == [] then 0 else SumSearches(days[..|days| - 1]) + days[|days| - 1].searches
  }

  function SumVotes(days: seq<Bucket>): nat {
    if days == [] then 0 else SumVotes(days[..|days| - 1]) + days[|days| - 1].votes
  }

  lemma {:induction false} SumsAgree(days: seq<Bucket>, days': seq<Bucket>)
    requires |days| == |days'|
    requires forall i :: 0 <= i < |days| ==> days[i].searches == days'[i].searches && days[i].votes == days'[i].votes
    ensures SumSearches(days) == SumSearches(days') && SumVotes(days) == SumVotes(days')
  {
    if days != [] {
      SumsAgree(days[..|days| - 1], days'[..|days'| - 1]);
    }
  }

  /** A usage row on a day outside the window changes nothing in the
      report, so the totals only count the fourteen days. */
  lemma UsageOutsideIgnored(usage: seq<UsageRow>, feedback: seq<FeedbackRow>, keys: seq<string>, r: UsageRow)
    requires DayOf(r.createdAt) !in keys
    ensures Report(usage + [r], feedback, keys) == Report(usage, feedback, keys)
  {
    UsageStep(usage, r);
  }

  /** A feedback row on a day outside the window changes nothing either. */
  lemma FeedbackOutsideIgnored(usage: seq<UsageRow>, feedback: seq<FeedbackRow>, keys: seq<string>, r: FeedbackRow)
    requires DayOf(r.createdAt) !in keys
    ensures Report(usage, feedback + [r], keys) == Report(usage, feedback, keys)
  {
    FeedbackStep(feedback, r);
  }

  /** A search on one of the days adds exactly one to that day and to the
      search total; the votes stay as they were. */
  lemma SearchInsideCounted(usage: seq<UsageRow>, feedback: seq<FeedbackRow>, keys: seq<string>, r: UsageRow, i: int)
    requires 0 <= i < |keys| && DayOf(r.createdAt) == keys[i] && r.event == "search"
    requires forall j :: 0 <= j < |keys| && j != i ==> keys[j] != keys[i]
    ensures SumSearches(Report(usage + [r], feedback, keys)) == SumSearches(Report(usage, feedback, keys)) + 1
    ensures SumVotes(Report(usage + [r], feedback, keys)) == SumVotes(Report(usage, feedback, keys))
  {
    var a := Report(usage + [r], feedback, keys);
    var b := Report(usage, feedback, keys);
    UsageStep(usage, r);
    var b' := b[i := b[i].(searches := b[i].searches + 1)];
    SumsAgree(a, b');
    SumAfterBump(b, i);
  }

  /** A vote on one of the days adds exactly one to that day and to the
      vote total; the searches stay as they were. */
  lemma VoteInsideCounted(usage: seq<UsageRow>, feedback: seq<FeedbackRow>, keys: seq<string>, r: FeedbackRow, i: int)
    requires 0 <= i < |keys| && DayOf(r.createdAt) == keys[i]
    requires forall j :: 0 <= j < |keys| && j != i ==> keys[j] != keys[i]
    ensures SumVotes(Report(usage, feedback + [r], keys)) == SumVotes(Report(usage, feedback, keys)) + 1
    ensures SumSearches(Report(usage, feedback + [r], keys)) == SumSearches(Report(usage, feedback, keys))
  {
    var a := Report(usage, feedback + [r], keys);
    var b := Report(usage, feedback, keys);
    FeedbackStep(feedback, r);
    var b' := b[i := b[i].(votes := b[i].votes + 1)];
    SumsAgree(a, b');
    SumAfterVote(b, i);
  }

  lemma {:induction false} SumAfterBump(days: seq<Bucket>, i: int)
    requires 0 <= i < |days|
    ensures SumSearches(days[i := days[i].(searches := days[i].searches + 1)]) == SumSearches(days) + 1
    ensures SumVotes(days[i := days[i].(searches := days[i].searches + 1)]) == SumVotes(days)
  {
    var n := |days| - 1;
    var d' := days[i := days[i].(searches := days[i].searches + 1)];
    if i == n {
      assert d'[..n] == days[..n];
    } else {
      assert d'[..n] == days[..n][i := days[i].(searches := days[i].searches + 1)];
      SumAfterBump(days[..n], i);
    }
  }

  lemma {:induction false} SumAfterVote(days: seq<Bucket>, i: int)
    requires 0 <= i < |days|
    ensures SumVotes(days[i := days[i].(votes := days[i].votes + 1)]) == SumVotes(days) + 1
    ensures SumSearches(days[i := days[i].(votes := days[i].votes + 1)]) == SumSearches(days)
  {
    var n := |days| - 1;
    var d' := days[i := days[i].(votes := days[i].votes + 1)];
    if i == n {
      assert d'[..n] == days[..n];
    } else {
      assert d'[..n] == days[..n][i := days[i].(votes := days[i].votes + 1)];
      SumAfterVote(days[..n], i);
    }
  }

  // ---------- the route ----------

  function BucketJson(b: Bucket): Json {
    JObj([("date", JStr(b.date)), ("searches", JNum(b.searches)), ("votes", JNum(b.votes))])
  }

  /** `{ ok: true, projectHost, totals, days }`. */
  function StatsReply(projectHost: string, days: seq<Bucket>): Json {
    JObj([("ok", JBool(true)), ("projectHost", JStr(projectHost)),
          ("totals", JObj([("searches", JNum(SumSearches(days))), ("votes", JNum(SumVotes(days)))])),
          ("days", JArr(seq(|days|, i requires 0 <= i < |days| => BucketJson(days[i]))))])
  }

  /** `{ error, details }` for a failed query. */
  function QueryFailure(msg: string, details: Json): Json {
    JObj([("error", JStr(msg)), ("details", details)])
  }

  /** The route. The two queries' answers and `now` are inputs;
      `projectHost` is the host of the configured database address. */
  method Handle(usageQuery: Query<UsageRow>, feedbackQuery: Query<FeedbackRow>, now: int, projectHost: string,
                res: Response)
    modifies res
    ensures res.headers == old(res.headers)
    ensures usageQuery.QueryError? ==>
      res.status == 500 && res.payload == Sent(QueryFailure("usage query failed", usageQuery.details))
    ensures usageQuery.Rows? && feedbackQuery.QueryError? ==>
      res.status == 500 && res.payload == Sent(QueryFailure("feedback query failed", feedbackQuery.details))
    ensures usageQuery.Rows? && feedbackQuery.Rows? ==>
      res.status == 200 &&
      res.payload == Sent(StatsReply(projectHost,
        Report(RowsOrEmpty(usageQuery.data), RowsOrEmpty(feedbackQuery.data), WindowKeys(now))))
  {
    if usageQuery.QueryError? {
      res.Send(500, QueryFailure("usage query failed", usageQuery.details));
      return;
    }
    if feedbackQuery.QueryError? {
      res.Send(500, QueryFailure("feedback query failed", feedbackQuery.details));
      return;
    }
    var usage := RowsOrEmpty(usageQuery.data);
    var feedback := RowsOrEmpty(feedbackQuery.data);
    var buckets := Aggregate(usage, feedback);
    var days := Window(buckets, WindowKeys(now), usage, feedback);
    res.Send(200, StatsReply(projectHost, days));
  }
}
