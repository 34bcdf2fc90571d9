// Requests and responses of the Next.js API routes.

module Http {
  import opened Base
  import opened Json

  /** `req.body`: absent, left as text, or already parsed from JSON. */
  datatype Body = NoBody | Text(s: string) | Value(j: Json)

  /** A query parameter given once or repeated. */
  datatype QueryParam = Param(s: string) | Params(xs: seq<string>)

  /** The parts of `NextApiRequest` the routes read. Header names are lower
      case and repeated headers arrive joined into one string. */
  datatype Request = Request(
    verb: string,
    headers: map<string, string>,
    query: map<string, QueryParam>,
    body: Body,
    remoteAddress: Option<string>)
  {
    function Header(name: string): Option<string> {
      if name in headers then Some(headers[name]) else None
    }
  }

  /** `typeof req.body === "string"`. */
  function BodyText(b: Body): Option<string> {
    match b
    case Text(s) => Some(s)
    case Value(JStr(s)) => Some(s)
    case _ => None
  }

  /** `req.body || {}` as a value: an absent or falsy body reads as `{}`. */
  function BodyOrEmpty(b: Body): (r: Json)
    ensures Truthy(r)
    ensures b.Value? && Truthy(b.j) ==> r == b.j
  {
    match b
    case NoBody => JObj([])
    case Text(s) => if s == "" then JObj([]) else JStr(s)
    case Value(j) => if Truthy(j) then j else JObj([])
  }

  /** A header value as `res.getHeader` returns it. */
  datatype HeaderValue = One(s: string) | Many(xs: seq<string>)

  /** What the route has sent: nothing yet, a JSON body, or the framework's
      own 500 page after an exception escaped the route. */
  datatype Payload = Unsent | Sent(j: Json) | Crashed

  /** `NextApiResponse`: headers set so far, the status and the body. */
  class Response {
    var headers: map<string, HeaderValue>
    var status: nat
    var payload: Payload

    constructor ()
      ensures headers == map[] && status == 200 && payload == Unsent
    {
      headers := map[];
      status := 200;
      payload := Unsent;
    }

    function GetHeader(name: string): Option<HeaderValue>
      reads this
    {
      if name in headers then Some(headers[name]) else None
    }

    method SetHeader(name: string, v: HeaderValue)
      modifies this
      ensures headers == old(headers)[name := v]
      ensures status == old(status) && payload == old(payload)
    {
      headers := headers[name := v];
    }

    /** `res.status(code).json(body)`. */
    method Send(code: nat, body: Json)
      modifies this
      ensures status == code && payload == Sent(body) && headers == old(headers)
    {
      status := code;
      payload := Sent(body);
    }

    /** An exception that escaped the route: the framework answers 500. */
    method Crash()
      modifies this
      ensures status == 500 && payload == Crashed && headers == old(headers)
    {
      status := 500;
      payload := Crashed;
    }
  }

  /** `{ error: msg }`, the error body most routes send. */
  function ErrorBody(msg: string): Json {
    JObj([("error", JStr(msg))])
  }
}
