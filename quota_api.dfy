/** `/api/quota`: reports today's usage (GET) and ends a chain, counting it
    against the daily cap (POST with `action: "end"`). */
module QuotaApi {
  import opened Base
  import opened Json
  import opened Http
  import opened Quota

  /** The body the POST branch works on: text is parsed (None when that
      throws), anything else is `req.body || {}`. */
  function PostBody(b: Body): (r: Option<Json>)
    ensures BodyText(b).Some? ==> r == Parse(BodyText(b).value)
    ensures BodyText(b).None? ==> r == Some(BodyOrEmpty(b))
  {
    match BodyText(b)
    case Some(s) => Parse(s)
    case None => Some(BodyOrEmpty(b))
  }

  /** `parseTier` for a POST: only the exact strings name a tier. */
  function TierFromBody(body: Json): (t: Tier)
    ensures t == Signed <==> Get(body, "tier") == Some(JStr("signed"))
    ensures t == Paid <==> Get(body, "tier") == Some(JStr("paid"))
  {
    match Get(body, "tier")
    case Some(JStr(s)) => if s == "signed" then Signed else if s == "paid" then Paid else Guest
    case _ => Guest
  }

  /** `parseTier` for a GET: the `x-rex-tier` header, matched exactly. */
  function TierFromHeader(h: Option<string>): (t: Tier)
    ensures t == Signed <==> h == Some("signed")
    ensures t == Paid <==> h == Some("paid")
  {
    if h == Some("signed") then Signed else if h == Some("paid") then Paid else Guest
  }

  /** `parseBeta` for a POST: `body.beta || {}`, flags by truthiness. */
  function BetaFromBody(body: Json): (f: BetaFlags)
    ensures TruthyOpt(Get(body, "beta")) ==>
      f == BetaFlags(TruthyOpt(Get(Get(body, "beta").value, "beta1")),
                     TruthyOpt(Get(Get(body, "beta").value, "beta2")))
    ensures !TruthyOpt(Get(body, "beta")) ==> f == BetaFlags(false, false)
  {
    var b := if TruthyOpt(Get(body, "beta")) then Get(body, "beta").value else JObj([]);
    BetaFlags(TruthyOpt(Get(b, "beta1")), TruthyOpt(Get(b, "beta2")))
  }

  /** `parseBeta` for a GET: a header set to exactly "1". */
  function BetaFromHeaders(req: Request): (f: BetaFlags)
    ensures f.beta1 <==> req.Header("x-rex-beta1") == Some("1")
    ensures f.beta2 <==> req.Header("x-rex-beta2") == Some("1")
  {
    BetaFlags(req.Header("x-rex-beta1") == Some("1"), req.Header("x-rex-beta2") == Some("1"))
  }

  /** What a POST asks for. */
  datatype PostAction =
    | BadRequest
    | UnknownAction
    | MissingChainId
    | End(tier: Tier, beta: BetaFlags, chainId: Json)

  /** The POST branch's decision, before anything is counted. */
  function ClassifyPost(b: Body): (a: PostAction)
    ensures a == BadRequest <==> PostBody(b).None?
    ensures a.End? ==>
      Get(PostBody(b).value, "action") == Some(JStr("end")) &&
      Get(PostBody(b).value, "chainId") == Some(a.chainId) && Truthy(a.chainId)
    ensures a.End? ==> a.tier == TierFromBody(PostBody(b).value) && a.beta == BetaFromBody(PostBody(b).value)
    ensures PostBody(b).Some? && Get(PostBody(b).value, "action") != Some(JStr("end")) ==> a == UnknownAction
    ensures (PostBody(b).Some? && Get(PostBody(b).value, "action") == Some(JStr("end")) &&
             !TruthyOpt(Get(PostBody(b).value, "chainId"))) ==> a == MissingChainId
  {
    match PostBody(b)
    case None => BadRequest
    case Some(body) =>
      if Get(body, "action") != Some(JStr("end")) then UnknownAction
      else
        var chainId := Get(body, "chainId");
        if !TruthyOpt(chainId) then MissingChainId
        else End(TierFromBody(body), BetaFromBody(body), chainId.value)
  }

  function TierJson(t: Tier): Json {
    JStr(match t case Guest => "guest" case Signed => "signed" case Paid => "paid")
  }

  function BetaJson(f: BetaFlags): Json {
    JObj([("beta1", JBool(f.beta1)), ("beta2", JBool(f.beta2))])
  }

  function UsageJson(u: Usage): Json {
    JObj([("clientId", JStr(u.clientId)), ("day", JStr(u.day)), ("countToday", JNum(u.countToday)),
          ("cap", LimitJson(u.cap)), ("remaining", LimitJson(u.remaining))])
  }

  function ResultJson(r: ChainResult): Json {
    JObj([("clientId", JStr(r.clientId)), ("day", JStr(r.day)), ("counted", JBool(r.counted)),
          ("countToday", JNum(r.countToday)), ("cap", LimitJson(r.cap)), ("remaining", LimitJson(r.remaining))])
  }

  /** `{ ok: true, usage, tier, beta }`. */
  function UsageReply(u: Usage, tier: Tier, beta: BetaFlags): Json {
    JObj([("ok", JBool(true)), ("usage", UsageJson(u)), ("tier", TierJson(tier)), ("beta", BetaJson(beta))])
  }

  /** `{ ok: true, result }`. */
  function EndReply(r: ChainResult): Json {
    JObj([("ok", JBool(true)), ("result", ResultJson(r))])
  }

  /** `{ ok: false, error: msg }`. */
  function Failure(msg: string): Json {
    JObj([("ok", JBool(false)), ("error", JStr(msg))])
  }

  /** The route. `random` and `now` stand for `Math.random()` and the clock
      of a fresh visitor's id. Only a POST that ends a chain with a truthy
      id can count a search; every other answer leaves the counts alone. */
  method Handle(store: QuotaStore, req: Request, res: Response, random: string, now: nat)
    requires UriSafe(random)
    modifies store, res
    ensures old(store.Valid()) ==> store.Valid()
    ensures req.verb == "GET" ==>
      var tier := TierFromHeader(req.Header("x-rex-tier"));
      var beta := BetaFromHeaders(req);
      var id := ClientIdFor(req, random, now);
      var cap := GetEffectiveDailyCap(tier, beta);
      var count := old(store.DayOrEmpty(id, TodayKey(now))).count;
      res.status == 200 &&
      res.payload == Sent(UsageReply(Usage(id, TodayKey(now), count, cap, Remaining(cap, count)), tier, beta))
    ensures req.verb == "GET" ==>
      store.clients == old(store.clients)[ClientIdFor(req, random, now) :=
        old(store.ByDay(ClientIdFor(req, random, now)))[TodayKey(now) :=
          old(store.DayOrEmpty(ClientIdFor(req, random, now), TodayKey(now)))]]
    ensures req.verb == "GET" ==> res.headers == HeadersAfterId(old(res.headers), req, random, now)
    ensures req.verb == "POST" && !ClassifyPost(req.body).End? ==>
      res.status == 400 && store.clients == old(store.clients) && res.headers == old(res.headers)
    ensures req.verb == "POST" && ClassifyPost(req.body) == BadRequest ==> res.payload == Sent(Failure("Bad Request"))
    ensures req.verb == "POST" && ClassifyPost(req.body) == UnknownAction ==> res.payload == Sent(Failure("Unknown action"))
    ensures req.verb == "POST" && ClassifyPost(req.body) == MissingChainId ==> res.payload == Sent(Failure("Missing chainId"))
    ensures req.verb == "POST" && ClassifyPost(req.body).End? ==>
      var a := ClassifyPost(req.body);
      var id := ClientIdFor(req, random, now);
      var cap := GetEffectiveDailyCap(a.tier, a.beta);
      var step := CountChain(old(store.DayOrEmpty(id, TodayKey(now))), cap, a.chainId);
      res.status == 200 &&
      res.payload == Sent(EndReply(ChainResult(id, TodayKey(now), step.0, step.1.count, cap,
                                               Remaining(cap, step.1.count)))) &&
      res.headers == HeadersAfterId(old(res.headers), req, random, now) &&
      store.clients == old(store.clients)[id := old(store.ByDay(id))[TodayKey(now) := step.1]]
    ensures req.verb != "GET" && req.verb != "POST" ==>
      res.status == 405 && res.payload == Sent(Failure("Method Not Allowed")) &&
      res.headers == old(res.headers)["Allow" := One("GET, POST")] && store.clients == old(store.clients)
  {
    if req.verb == "GET" {
      var tier := TierFromHeader(req.Header("x-rex-tier"));
      var beta := BetaFromHeaders(req);
      var usage := store.GetUsage(req, res, tier, beta, random, now);
      res.Send(200, UsageReply(usage, tier, beta));
      return;
    }
    if req.verb == "POST" {
      match ClassifyPost(req.body) {
        case BadRequest =>
          res.Send(400, Failure("Bad Request"));
        case UnknownAction =>
          res.Send(400, Failure("Unknown action"));
        case MissingChainId =>
          res.Send(400, Failure("Missing chainId"));
        case End(tier, beta, chainId) =>
          var result := store.EndChainAndCount(req, res, tier, beta, chainId, random, now);
          res.Send(200, EndReply(result));
      }
      return;
    }
    res.SetHeader("Allow", One("GET, POST"));
    res.Send(405, Failure("Method Not Allowed"));
  }
}
