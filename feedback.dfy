/** `/api/feedback`: a thumbs-up or thumbs-down on one recommendation. */
module Feedback {
  import opened Base
  import opened Json
  import opened Http

  /** The vote of a body, when it is exactly "up" or "down". */
  function VoteOf(body: Json): (v: Option<string>)
    ensures v.Some? ==> v.value in {"up", "down"} && Get(body, "vote") == Some(JStr(v.value))
    ensures v.None? ==> Get(body, "vote") != Some(JStr("up")) && Get(body, "vote") != Some(JStr("down"))
  {
    match Get(body, "vote")
    case Some(JStr(s)) => if s == "up" || s == "down" then Some(s) else None
    case _ => None
  }

  /** The record the route logs for an accepted vote. Fields the body left
      out stay undefined (`None`), except `userId`, which falls back to
      `null`, and `tier`, which falls back to "guest". */
  datatype LogRecord = LogRecord(
    vote: string,
    itemId: Option<Json>,
    itemTitle: Option<Json>,
    itemSummary: Option<Json>,
    prompt: Option<Json>,
    userId: Json,
    tier: Json,
    ts: string)

  /** `a ?? b`: the fallback replaces `undefined` and `null` only. */
  function OrElse(a: Option<Json>, b: Json): (r: Json)
    ensures a.None? || a == Some(JNull) ==> r == b
    ensures a.Some? && a.value != JNull ==> r == a.value
  {
    if a.Some? && a.value != JNull then a.value else b
  }

  /** The logged record of a body whose vote is valid; `ts` is the time of
      the request as ISO text. */
  function Record(body: Json, vote: string, ts: string): (r: LogRecord)
    ensures r.vote == vote && r.ts == ts
    ensures r.prompt == Get(body, "prompt") && r.itemId == Get(body, "itemId")
    ensures r.itemTitle == Get(body, "itemTitle") && r.itemSummary == Get(body, "itemSummary")
    ensures Get(body, "userId").None? || Get(body, "userId") == Some(JNull) ==> r.userId == JNull
    ensures Get(body, "userId").Some? ==> r.userId == Get(body, "userId").value
    ensures Get(body, "tier").None? || Get(body, "tier") == Some(JNull) ==> r.tier == JStr("guest")
    ensures Get(body, "tier").Some? && Get(body, "tier") != Some(JNull) ==> r.tier == Get(body, "tier").value
  {
    LogRecord(vote, Get(body, "itemId"), Get(body, "itemTitle"), Get(body, "itemSummary"),
              Get(body, "prompt"), OrElse(Get(body, "userId"), JNull),
              OrElse(Get(body, "tier"), JStr("guest")), ts)
  }

  /** The route. Returns the record it logs, if any. */
  method Handle(req: Request, ts: string, res: Response) returns (logged: Option<LogRecord>)
    modifies res
    ensures req.verb != "POST" ==>
      res.headers == old(res.headers)["Allow" := One("POST")] &&
      res.status == 405 && res.payload == Sent(ErrorBody("Method not allowed")) && logged.None?
    ensures req.verb == "POST" && VoteOf(BodyOrEmpty(req.body)).None? ==>
      res.headers == old(res.headers) &&
      res.status == 400 && res.payload == Sent(ErrorBody("Missing or invalid vote")) && logged.None?
    ensures req.verb == "POST" && VoteOf(BodyOrEmpty(req.body)).Some? ==>
      res.headers == old(res.headers) &&
      res.status == 200 && res.payload == Sent(JObj([("ok", JBool(true))])) &&
      logged == Some(Record(BodyOrEmpty(req.body), VoteOf(BodyOrEmpty(req.body)).value, ts))
  {
    if req.verb != "POST" {
      res.SetHeader("Allow", One("POST"));
      res.Send(405, ErrorBody("Method not allowed"));
      return None;
    }
    var body := BodyOrEmpty(req.body);
    var vote := VoteOf(body);
    if vote.None? {
      res.Send(400, ErrorBody("Missing or invalid vote"));
      return None;
    }
    logged := Some(Record(body, vote.value, ts));
    res.Send(200, JObj([("ok", JBool(true))]));
  }

  /** A vote sent as text instead of JSON is refused, whatever the text. */
  lemma TextBodyRefused(s: string)
    ensures VoteOf(BodyOrEmpty(Text(s))).None?
  {
  }

  /** An accepted vote is exactly one of "up" and "down", and both are
      accepted in a JSON body. */
  lemma AcceptedVotes(fields: seq<(string, Json)>, s: string)
    requires Lookup(fields, "vote") == Some(JStr(s))
    ensures VoteOf(BodyOrEmpty(Value(JObj(fields)))).Some? <==> s == "up" || s == "down"
  {
  }
}
