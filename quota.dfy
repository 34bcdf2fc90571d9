// The server-side daily quota: a per-client, per-UTC-day record of how many
// recommendation chains were counted and which chain ids were already
// counted, keyed by a client id kept in the `rex_id` cookie.

module Quota {
  import opened Base
  import opened Json
  import opened Dates
  import opened Http

  datatype Tier = Guest | Signed | Paid

  datatype BetaFlags = BetaFlags(beta1: bool, beta2: bool)

  const CookieName: string := "rex_id"
  const CookieMaxAgeDays: nat := 180

  // ---------- cookies ----------

  /** One `;`-separated part of a Cookie header: trimmed, then split at its
      first `=`; every later `=` stays in the value. */
  function CookiePair(part: string): (string, string) {
    var pieces := Split(Trim(part), '=');
    (pieces[0], Join(pieces[1..], "="))
  }

  /** The cookies the parts describe: a later part overrides an earlier one
      with the same name, and a part with an empty name is skipped. */
  function CookieJar(parts: seq<string>): map<string, string>
    decreases |parts|
  {
    if parts == [] then map[]
    else
      var jar := CookieJar(parts[..|parts| - 1]);
      var kv := CookiePair(parts[|parts| - 1]);
      if kv.0 != "" then jar[kv.0 := kv.1] else jar
  }

  /** The cookies of an optional header; an absent or empty header has none. */
  function Cookies(header: Option<string>): map<string, string> {
    if header.None? || header.value == "" then map[] else CookieJar(Split(header.value, ';'))
  }

  /** `parseCookies`: fills the jar part by part. */
  method ParseCookies(header: Option<string>) returns (out: map<string, string>)
    ensures out == Cookies(header)
    ensures header.None? ==> out == map[]
  {
    out := map[];
    if header.None? || header.value == "" {
      return;
    }
    var parts := Split(header.value, ';');
    var i := 0;
    while i < |parts|
      invariant 0 <= i <= |parts|
      invariant out == CookieJar(parts[..i])
    {
      var next := parts[..i + 1];
      assert next[..|next| - 1] == parts[..i] && next[|next| - 1] == parts[i];
      var kv := CookiePair(parts[i]);
      if kv.0 != "" {
        out := out[kv.0 := kv.1];
      }
      i := i + 1;
    }
    assert parts[..i] == parts;
  }

  /** A name holds a cookie exactly when some part carries that non-empty
      name. */
  lemma CookieJarNames(parts: seq<string>, name: string)
    ensures name in CookieJar(parts) <==>
      name != "" && exists i :: 0 <= i < |parts| && CookiePair(parts[i]).0 == name
  {
    if name in CookieJar(parts) {
      NamedPartOf(parts, name);
    }
    if name != "" && exists i :: 0 <= i < |parts| && CookiePair(parts[i]).0 == name {
      var i :| 0 <= i < |parts| && CookiePair(parts[i]).0 == name;
      NamedPartKept(parts, i);
    }
  }

  /** Every cookie of the jar comes from a part carrying its name. */
  lemma {:induction false} NamedPartOf(parts: seq<string>, name: string)
    requires name in CookieJar(parts)
    ensures name != "" && exists i :: 0 <= i < |parts| && CookiePair(parts[i]).0 == name
    decreases |parts|
  {
    var init := parts[..|parts| - 1];
    var kv := CookiePair(parts[|parts| - 1]);
    if kv.0 != "" && kv.0 == name {
      assert CookiePair(parts[|parts| - 1]).0 == name;
    } else {
      NamedPartOf(init, name);
      var i :| 0 <= i < |init| && CookiePair(init[i]).0 == name;
      assert parts[i] == init[i];
    }
  }

  /** A part with a non-empty name leaves that name in the jar. */
  lemma {:induction false} NamedPartKept(parts: seq<string>, i: nat)
    requires i < |parts| && CookiePair(parts[i]).0 != ""
    ensures CookiePair(parts[i]).0 in CookieJar(parts)
    decreases |parts|
  {
    if i < |parts| - 1 {
      var init := parts[..|parts| - 1];
      assert init[i] == parts[i];
      NamedPartKept(init, i);
    }
  }

  /** The value of a name is the one of the last part carrying it. */
  lemma {:induction false} CookieJarLastWins(parts: seq<string>, i: nat)
    requires i < |parts| && CookiePair(parts[i]).0 != ""
    requires forall j :: i < j < |parts| ==> CookiePair(parts[j]).0 != CookiePair(parts[i]).0
    ensures CookiePair(parts[i]).0 in CookieJar(parts)
    ensures CookieJar(parts)[CookiePair(parts[i]).0] == CookiePair(parts[i]).1
    decreases |parts|
  {
    if i < |parts| - 1 {
      var init := parts[..|parts| - 1];
      var name := CookiePair(parts[i]).0;
      assert init[i] == parts[i];
      assert forall j :: i < j < |init| ==> init[j] == parts[j];
      CookieJarLastWins(init, i);
      assert CookiePair(parts[|parts| - 1]).0 != name;
    }
  }

  /** A `name=value` part reads back as that name and value, whatever `=`
      the value contains. */
  lemma CookiePairOf(name: string, value: string)
    requires name != "" && '=' !in name && !IsSpace(name[0])
    requires value == [] || !IsSpace(value[|value| - 1])
    ensures CookiePair(name + "=" + value) == (name, value)
  {
    var s := name + "=" + value;
    if value == [] {
      assert s[|s| - 1] == '=';
    } else {
      assert s[|s| - 1] == value[|value| - 1];
    }
    assert s[0] == name[0];
    TrimNoop(s);
    SplitAtFirst(name, value, '=');
  }

  /** Characters `encodeURIComponent` leaves as they are. */
  predicate UriSafe(s: string) {
    forall i :: 0 <= i < |s| ==>
      ('a' <= s[i] <= 'z') || ('A' <= s[i] <= 'Z') || IsDigit(s[i]) || s[i] in "-_.!~*'()"
  }

  /** The `Set-Cookie` line for `name=value` kept for `days` days from `now`. */
  function CookieText(name: string, value: string, days: nat, now: int): string {
    var maxAge := days * 24 * 60 * 60;
    name + "=" + value + "; Path=/; HttpOnly; SameSite=Lax; Expires=" +
    UtcString(now + maxAge * 1000) + "; Max-Age=" + NatToString(maxAge)
  }

  /** The Set-Cookie header after adding one cookie: a missing or empty one
      is replaced, a single value becomes a list of two, a list grows by one. */
  function AppendCookie(prev: Option<HeaderValue>, cookie: string): HeaderValue {
    match prev
    case None => One(cookie)
    case Some(One(s)) => if s == "" then One(cookie) else Many([s, cookie])
    case Some(Many(xs)) => Many(xs + [cookie])
  }

  /** The cookies a Set-Cookie header value sends. */
  function CookiesSent(h: Option<HeaderValue>): seq<string> {
    match h
    case None => []
    case Some(One(s)) => if s == "" then [] else [s]
    case Some(Many(xs)) => xs
  }

  /** Appending keeps every cookie already set and adds exactly one. */
  lemma AppendCookieKeeps(prev: Option<HeaderValue>, cookie: string)
    requires cookie != ""
    ensures CookiesSent(Some(AppendCookie(prev, cookie))) == CookiesSent(prev) + [cookie]
  {
  }

  /** `setCookie`. */
  method SetCookie(res: Response, name: string, value: string, days: nat, now: int)
    requires UriSafe(value)
    modifies res
    ensures res.headers == old(res.headers)["Set-Cookie" :=
      AppendCookie(old(res.GetHeader("Set-Cookie")), CookieText(name, value, days, now))]
    ensures res.status == old(res.status) && res.payload == old(res.payload)
  {
    var cookie := CookieText(name, value, days, now);
    var prev := res.GetHeader("Set-Cookie");
    res.SetHeader("Set-Cookie", AppendCookie(prev, cookie));
  }

  // ---------- client id ----------

  function Base36Digit(d: nat): (c: char)
    requires d < 36
  {
    if d < 10 then DigitChar(d) else (('a' as int) + d - 10) as char
  }

  /** `n.toString(36)`. */
  function Base36(n: nat): (r: string)
    ensures r != [] && UriSafe(r)
    decreases n
  {
    if n < 36 then [Base36Digit(n)] else Base36(n / 36) + [Base36Digit(n % 36)]
  }

  /** A new client id from the base-36 digits of a random number and the clock. */
  function NewClientId(random: string, now: nat): (id: string)
    requires UriSafe(random)
    ensures UriSafe(id) && |id| > 4 && id[..4] == "rex_"
  {
    "rex_" + random + "_" + Base36(now)
  }

  /** The id a request is served under: its non-empty `rex_id` cookie, or a new one. */
  function ClientIdFor(req: Request, random: string, now: nat): string
    requires UriSafe(random)
  {
    var jar := Cookies(req.Header("cookie"));
    if CookieName in jar && jar[CookieName] != "" then jar[CookieName]
    else NewClientId(random, now)
  }

  /** Whether the request already carries a usable `rex_id`. */
  predicate HasClientId(req: Request) {
    var jar := Cookies(req.Header("cookie"));
    CookieName in jar && jar[CookieName] != ""
  }

  /** The response headers after serving `req`: unchanged when it carried a
      client id, else with the new id's cookie appended. */
  function HeadersAfterId(h: map<string, HeaderValue>, req: Request, random: string, now: nat): map<string, HeaderValue>
    requires UriSafe(random)
  {
    if HasClientId(req) then h
    else
      var prev := if "Set-Cookie" in h then Some(h["Set-Cookie"]) else None;
      h["Set-Cookie" := AppendCookie(prev, CookieText(CookieName, NewClientId(random, now), CookieMaxAgeDays, now))]
  }

  /** `getOrCreateClientId`: an existing non-empty `rex_id` is returned and no
      header is added; otherwise a fresh `rex_` id is returned and exactly one
      cookie is appended to Set-Cookie. */
  method GetOrCreateClientId(req: Request, res: Response, random: string, now: nat) returns (id: string)
    requires UriSafe(random)
    modifies res
    ensures id == ClientIdFor(req, random, now) && id != ""
    ensures HasClientId(req) ==> id == Cookies(req.Header("cookie"))[CookieName]
    ensures !HasClientId(req) ==> |id| > 4 && id[..4] == "rex_"
    ensures res.headers == HeadersAfterId(old(res.headers), req, random, now)
    ensures res.status == old(res.status) && res.payload == old(res.payload)
  {
    var cookies := ParseCookies(req.Header("cookie"));
    if CookieName in cookies && cookies[CookieName] != "" {
      id := cookies[CookieName];
    } else {
      id := NewClientId(random, now);
      SetCookie(res, CookieName, id, CookieMaxAgeDays, now);
    }
  }

  /** A new client always gets exactly one more cookie, and the ones set
      before are kept. */
  lemma NewClientCookie(h: map<string, HeaderValue>, req: Request, random: string, now: nat)
    requires UriSafe(random) && !HasClientId(req)
    ensures var prev := if "Set-Cookie" in h then Some(h["Set-Cookie"]) else None;
      var after := HeadersAfterId(h, req, random, now);
      "Set-Cookie" in after &&
      CookiesSent(Some(after["Set-Cookie"])) ==
        CookiesSent(prev) + [CookieText(CookieName, NewClientId(random, now), CookieMaxAgeDays, now)]
  {
    var prev := if "Set-Cookie" in h then Some(h["Set-Cookie"]) else None;
    AppendCookieKeeps(prev, CookieText(CookieName, NewClientId(random, now), CookieMaxAgeDays, now));
  }

  // ---------- day key and cap ----------

  /** `todayKey`: the UTC calendar date of the instant, `YYYY-MM-DD`. */
  function TodayKey(now: int): string {
    DayKey(now)
  }

  /** `getEffectiveDailyCap`: 5, raised to 10 by the first beta unlock and to
      15 by the second; paid is unlimited. */
  function GetEffectiveDailyCap(tier: Tier, flags: BetaFlags): (cap: Limit)
    ensures cap.Unlimited? <==> tier == Paid
    ensures tier != Paid && flags.beta2 ==> cap == Finite(15)
    ensures tier != Paid && flags.beta1 && !flags.beta2 ==> cap == Finite(10)
    ensures tier != Paid && !flags.beta1 && !flags.beta2 ==> cap == Finite(5)
  {
    if tier == Paid then Unlimited
    else
      var cap := 5;
      var cap := if flags.beta1 then 10 else cap;
      var cap := if flags.beta2 then 15 else cap;
      Finite(cap)
  }

  /** Each unlock only raises the cap, and the tier decides more than the flags. */
  lemma CapMonotone(tier: Tier, f: BetaFlags, g: BetaFlags)
    requires tier != Paid
    requires (f.beta1 ==> g.beta1 || g.beta2) && (f.beta2 ==> g.beta2)
    ensures GetEffectiveDailyCap(tier, f).n <= GetEffectiveDailyCap(tier, g).n
  {
  }

  /** `remaining`: unlimited for an unlimited cap, else `max(0, cap - count)`. */
  function Remaining(cap: Limit, count: nat): (r: Limit)
    ensures r.Unlimited? <==> cap.Unlimited?
    ensures cap.Finite? && count <= cap.n ==> r.n + count == cap.n
    ensures cap.Finite? && count >= cap.n ==> r.n == 0
  {
    match cap
    case Unlimited => Unlimited
    case Finite(n) => Finite(if count < n then n - count else 0)
  }

  // ---------- per-day state ----------

  /** A day's record: chains counted and the chain ids counted. A `Set` of
      JavaScript values holds ids as given: strings, numbers and booleans by
      value, arrays and objects by reference, so the latter never match an
      earlier id and may occur several times. */
  datatype DayState = DayState(count: nat, chainsCounted: multiset<Json>)

  const EmptyDay: DayState := DayState(0, multiset{})

  predicate ByValue(id: Json) {
    !(id.JArr? || id.JObj?)
  }

  /** `chainsCounted.has(id)`. */
  predicate AlreadyCounted(d: DayState, id: Json) {
    ByValue(id) && id in d.chainsCounted
  }

  /** The record keeps one counted chain per id it holds, each by-value id once. */
  predicate Consistent(d: DayState) {
    d.count == |d.chainsCounted| &&
    forall id :: id in d.chainsCounted && ByValue(id) ==> d.chainsCounted[id] == 1
  }

  /** One `endChainAndCount` step on a day record: the verdict and the new record. */
  function CountChain(d: DayState, cap: Limit, chainId: Json): (bool, DayState) {
    if !AlreadyCounted(d, chainId) && cap.Admits(d.count) then
      (true, DayState(d.count + 1, d.chainsCounted + multiset{chainId}))
    else (false, d)
  }

  /** Counting never takes a finite cap's record past the cap. */
  lemma CountWithinCap(d: DayState, n: nat, chainId: Json)
    requires d.count <= n
    ensures CountChain(d, Finite(n), chainId).1.count <= n
  {
  }

  /** A chain is counted exactly when its id is new today and the count is
      below the cap; then the count rises by one and the id is recorded,
      else the record is left as it was. */
  lemma CountChainCases(d: DayState, cap: Limit, chainId: Json)
    ensures var (counted, d') := CountChain(d, cap, chainId);
      (counted <==> !AlreadyCounted(d, chainId) && (cap.Unlimited? || d.count < cap.n)) &&
      (counted ==> d'.count == d.count + 1 && chainId in d'.chainsCounted) &&
      (!counted ==> d' == d)
  {
  }

  /** Counting keeps the record consistent. */
  lemma CountKeepsConsistent(d: DayState, cap: Limit, chainId: Json)
    requires Consistent(d)
    ensures Consistent(CountChain(d, cap, chainId).1)
  {
    var (counted, d') := CountChain(d, cap, chainId);
    if counted {
      forall id | id in d'.chainsCounted && ByValue(id)
        ensures d'.chainsCounted[id] == 1
      {
        if id == chainId {
          assert d.chainsCounted[id] == 0;
        }
      }
    }
  }

  /** Ending the same by-value chain twice under the same cap counts it at
      most once: the second call reports `counted = false` and changes nothing. */
  lemma CountTwice(d: DayState, cap: Limit, chainId: Json)
    requires ByValue(chainId)
    ensures var first := CountChain(d, cap, chainId).1;
      CountChain(first, cap, chainId) == (false, first)
  {
  }

  /** What `endChainAndCount` returns. */
  datatype ChainResult = ChainResult(
    clientId: string, day: string, counted: bool, countToday: nat, cap: Limit, remaining: Limit)

  /** What `getUsage` returns. */
  datatype Usage = Usage(clientId: string, day: string, countToday: nat, cap: Limit, remaining: Limit)

  /** `startChain`: a suggested id, `ch_` and up to eight random base-36 digits. */
  function StartChain(random: string): (chainId: string)
    ensures 3 <= |chainId| <= 11 && chainId[..3] == "ch_"
    ensures |random| >= 8 ==> |chainId| == 11
  {
    "ch_" + Take(random, 8)
  }

  /** The days a store map records for a client. */
  function DaysOf(m: map<string, map<string, DayState>>, clientId: string): map<string, DayState> {
    if clientId in m then m[clientId] else map[]
  }

  predicate AllConsistent(m: map<string, map<string, DayState>>) {
    forall c, k :: c in m && k in m[c] ==> Consistent(m[c][k])
  }

  /** Replacing one record by a consistent one keeps the store consistent. */
  lemma UpdateKeepsConsistent(m: map<string, map<string, DayState>>, c: string, k: string, d: DayState)
    requires AllConsistent(m) && Consistent(d)
    ensures AllConsistent(m[c := DaysOf(m, c)[k := d]])
  {
  }

  /** The in-process store: client id to day key to day record. */
  class QuotaStore {
    var clients: map<string, map<string, DayState>>

    constructor ()
      ensures clients == map[]
    {
      clients := map[];
    }

    /** The days recorded for a client. */
    function ByDay(clientId: string): map<string, DayState>
      reads this
    {
      DaysOf(clients, clientId)
    }

    /** The record of (client, day), empty when there is none yet. */
    function DayOrEmpty(clientId: string, day: string): DayState
      reads this
    {
      var days := ByDay(clientId);
      if day in days then days[day] else EmptyDay
    }

    predicate HasDay(clientId: string, day: string)
      reads this
    {
      clientId in clients && day in clients[clientId]
    }

    /** Every record is consistent. */
    predicate Valid()
      reads this
    {
      AllConsistent(clients)
    }

    /** `ensureDay`: the record of (client, day), created empty if missing;
        no other record changes. */
    method EnsureDay(clientId: string, day: string) returns (d: DayState)
      modifies this
      ensures d == old(DayOrEmpty(clientId, day))
      ensures clients == old(clients)[clientId := old(ByDay(clientId))[day := d]]
      ensures old(Valid()) ==> Valid()
    {
      d := DayOrEmpty(clientId, day);
      if Valid() {
        UpdateKeepsConsistent(clients, clientId, day, d);
      }
      clients := clients[clientId := ByDay(clientId)[day := d]];
    }

    /** The counting step of `endChainAndCount` on the (client, day) record,
        which `ensureDay` creates first when missing. */
    method CountOnDay(clientId: string, day: string, cap: Limit, chainId: Json)
      returns (counted: bool, count: nat)
      modifies this
      ensures var step := CountChain(old(DayOrEmpty(clientId, day)), cap, chainId);
        counted == step.0 && count == step.1.count &&
        clients == old(clients)[clientId := old(ByDay(clientId))[day := step.1]]
      ensures old(Valid()) ==> Valid()
    {
      ghost var days0 := ByDay(clientId);
      ghost var valid0 := Valid();
      var dayState := EnsureDay(clientId, day);
      ghost var step := CountChain(dayState, cap, chainId);
      counted := false;
      if !AlreadyCounted(dayState, chainId) {
        if cap.Admits(dayState.count) {
          dayState := DayState(dayState.count + 1, dayState.chainsCounted + multiset{chainId});
          if valid0 {
            CountKeepsConsistent(old(DayOrEmpty(clientId, day)), cap, chainId);
            UpdateKeepsConsistent(old(clients), clientId, day, dayState);
          }
          assert clients[clientId][day := dayState] == days0[day := dayState];
          clients := clients[clientId := clients[clientId][day := dayState]];
          counted := true;
        }
      }
      assert (counted, dayState) == step;
      count := dayState.count;
    }

    /** `endChainAndCount`: counts the chain for today under the tier's cap
        unless this id was already counted today or the cap is reached. Only
        the (client, today) record can change. */
    method EndChainAndCount(req: Request, res: Response, tier: Tier, beta: BetaFlags,
                            chainId: Json, random: string, now: nat)
      returns (r: ChainResult)
      requires UriSafe(random)
      modifies this, res
      ensures r.clientId == ClientIdFor(req, random, now) && r.day == TodayKey(now)
      ensures r.cap == GetEffectiveDailyCap(tier, beta)
      ensures var step := CountChain(old(DayOrEmpty(r.clientId, r.day)), r.cap, chainId);
        r.counted == step.0 && r.countToday == step.1.count &&
        clients == old(clients)[r.clientId := old(ByDay(r.clientId))[r.day := step.1]]
      ensures r.remaining == Remaining(r.cap, r.countToday)
      ensures old(Valid()) ==> Valid()
      ensures res.headers == HeadersAfterId(old(res.headers), req, random, now)
      ensures res.status == old(res.status) && res.payload == old(res.payload)
    {
      var clientId := GetOrCreateClientId(req, res, random, now);
      var day := TodayKey(now);
      var cap := GetEffectiveDailyCap(tier, beta);
      var counted, count := CountOnDay(clientId, day, cap, chainId);
      r := ChainResult(clientId, day, counted, count, cap, Remaining(cap, count));
    }

    /** `getUsage`: reports today's count; at most creates an empty record. */
    method GetUsage(req: Request, res: Response, tier: Tier, beta: BetaFlags, random: string, now: nat)
      returns (u: Usage)
      requires UriSafe(random)
      modifies this, res
      ensures u.clientId == ClientIdFor(req, random, now) && u.day == TodayKey(now)
      ensures u.countToday == old(DayOrEmpty(u.clientId, u.day)).count
      ensures u.cap == GetEffectiveDailyCap(tier, beta) && u.remaining == Remaining(u.cap, u.countToday)
      ensures clients == old(clients)[u.clientId := old(ByDay(u.clientId))[u.day := old(DayOrEmpty(u.clientId, u.day))]]
      ensures old(HasDay(u.clientId, u.day)) ==> clients == old(clients)
      ensures old(Valid()) ==> Valid()
      ensures res.headers == HeadersAfterId(old(res.headers), req, random, now)
      ensures res.status == old(res.status) && res.payload == old(res.payload)
    {
      var clientId := GetOrCreateClientId(req, res, random, now);
      var day := TodayKey(now);
      var dayState := EnsureDay(clientId, day);
      assert old(HasDay(clientId, day)) ==> old(clients)[clientId][day := dayState] == old(clients)[clientId];
      var cap := GetEffectiveDailyCap(tier, beta);
      u := Usage(clientId, day, dayState.count, cap, Remaining(cap, dayState.count));
    }

    /** `resetTodayForDev`: zeroes this client's record for today when it
        exists; nothing else changes. */
    method ResetTodayForDev(req: Request, res: Response, random: string, now: nat)
      requires UriSafe(random)
      modifies this, res
      ensures var id := ClientIdFor(req, random, now);
        var day := TodayKey(now);
        if old(HasDay(id, day)) then clients == old(clients)[id := old(clients[id])[day := EmptyDay]]
        else clients == old(clients)
      ensures old(Valid()) ==> Valid()
      ensures res.headers == HeadersAfterId(old(res.headers), req, random, now)
      ensures res.status == old(res.status) && res.payload == old(res.payload)
    {
      var clientId := GetOrCreateClientId(req, res, random, now);
      var day := TodayKey(now);
      if clientId in clients && day in clients[clientId] {
        if Valid() {
          UpdateKeepsConsistent(clients, clientId, day, EmptyDay);
        }
        clients := clients[clientId := clients[clientId][day := EmptyDay]];
      }
    }
  }

  /** A cap in a JSON body: `Infinity` is written as null. */
  function LimitJson(l: Limit): Json {
    match l
    case Unlimited => JNull
    case Finite(n) => JNum(n)
  }
}
