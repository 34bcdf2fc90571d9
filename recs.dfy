/** `/api/recs`: a per-IP fixed-window rate limit, the prompt sent to the
    language model, and the clean-up of its JSON answer into exactly five
    recommendations. */
module Recs {
  import opened Base
  import opened Json
  import opened Http

  // ---------- rate limit ----------

  const WindowMs: int := 60000
  const MaxReq: nat := 10

  /** Requests counted in the current window and the instant it ends. */
  datatype RateRecord = RateRecord(count: nat, reset: int)

  /** One `rateLimit` call on an IP's record: whether the request may go
      ahead, and the record afterwards. */
  function Step(rec: Option<RateRecord>, now: int): (bool, RateRecord) {
    if rec.None? || now > rec.value.reset then (true, RateRecord(1, now + WindowMs))
    else if rec.value.count >= MaxReq then (false, rec.value)
    else (true, rec.value.(count := rec.value.count + 1))
  }

  /** How many of the requests at `times` (in order) one IP gets through,
      starting from `rec`. */
  function Allowed(rec: Option<RateRecord>, times: seq<int>): nat
    decreases |times|
  {
    if times == [] then 0
    else
      var s := Step(rec, times[0]);
      (if s.0 then 1 else 0) + Allowed(Some(s.1), times[1..])
  }

  /** Inside one window (no request after `reset`), the requests let
      through and those already counted add up to at most `MaxReq`. */
  lemma {:induction false} WindowBound(r: RateRecord, times: seq<int>)
    requires r.count <= MaxReq
    requires forall i :: 0 <= i < |times| ==> times[i] <= r.reset
    ensures r.count + Allowed(Some(r), times) <= MaxReq
    decreases |times|
  {
    if times != [] {
      var s := Step(Some(r), times[0]);
      assert s.1.reset == r.reset;
      assert s.1.count == r.count + (if s.0 then 1 else 0);
      WindowBound(s.1, times[1..]);
    }
  }

  /** An IP seen for the first time at `times[0]` gets at most `MaxReq`
      requests through during the following `WindowMs` milliseconds. */
  lemma FreshWindowBound(times: seq<int>)
    requires times != []
    requires forall i :: 0 <= i < |times| ==> times[i] <= times[0] + WindowMs
    ensures Allowed(None, times) <= MaxReq
  {
    var first := RateRecord(1, times[0] + WindowMs);
    WindowBound(first, times[1..]);
  }

  /** The module-level `hits` map. */
  class RateLimiter {
    var hits: map<string, RateRecord>

    constructor ()
      ensures hits == map[]
    {
      hits := map[];
    }

    function Record(ip: string): Option<RateRecord>
      reads this
    {
      if ip in hits then Some(hits[ip]) else None
    }

    /** Every stored window has counted between one and `MaxReq` requests. */
    predicate Valid()
      reads this
    {
      forall ip :: ip in hits ==> 1 <= hits[ip].count <= MaxReq
    }

    /** `rateLimit(ip)`: only this IP's record changes, as `Step` says. */
    method RateLimit(ip: string, now: int) returns (allowed: bool)
      modifies this
      ensures allowed == Step(old(Record(ip)), now).0
      ensures hits == old(hits)[ip := Step(old(Record(ip)), now).1]
      ensures old(Valid()) ==> Valid()
    {
      if ip !in hits || now > hits[ip].reset {
        hits := hits[ip := RateRecord(1, now + WindowMs)];
        return true;
      }
      var rec := hits[ip];
      if rec.count >= MaxReq {
        allowed := false;
        assert hits == hits[ip := rec];
        return;
      }
      hits := hits[ip := rec.(count := rec.count + 1)];
      allowed := true;
    }
  }

  // ---------- slugs ----------

  /** The characters `[a-z0-9]`. */
  predicate IsAlnum(c: char) {
    'a' <= c <= 'z' || '0' <= c <= '9'
  }

  /** The `[a-z0-9]` characters of a string, in order. */
  function Alnums(s: string): string {
    if s == [] then [] else (if IsAlnum(s[0]) then [s[0]] else []) + Alnums(s[1..])
  }

  lemma {:induction false} AlnumsAppend(a: string, b: string)
    ensures Alnums(a + b) == Alnums(a) + Alnums(b)
  {
    if a != [] {
      var h := if IsAlnum(a[0]) then [a[0]] else [];
      assert (a + b)[0] == a[0];
      assert (a + b)[1..] == a[1..] + b;
      assert Alnums(a + b) == h + Alnums(a[1..] + b);
      AlnumsAppend(a[1..], b);
    } else {
      assert a + b == b;
    }
  }

  lemma {:induction false} AlnumsOfDashes(s: string)
    requires forall i :: 0 <= i < |s| ==> s[i] == '-'
    ensures Alnums(s) == []
  {
    if s != [] {
      AlnumsOfDashes(s[1..]);
    }
  }

  /** The rest of a string after a leading run of characters outside `[a-z0-9]`. */
  function SkipRun(s: string): (r: string)
    ensures |r| <= |s| && r == s[|s| - |r|..]
    ensures r == [] || IsAlnum(r[0])
    ensures s != [] && !IsAlnum(s[0]) ==> |r| < |s|
  {
    if s != [] && !IsAlnum(s[0]) then SkipRun(s[1..]) else s
  }

  lemma {:induction false} AlnumsOfSkipRun(s: string)
    ensures Alnums(SkipRun(s)) == Alnums(s)
  {
    if s != [] && !IsAlnum(s[0]) {
      AlnumsOfSkipRun(s[1..]);
    }
  }

  /** `replace(/[^a-z0-9]+/g, "-")`: each maximal run of other characters
      becomes one dash. */
  function Dashes(s: string): (r: string)
    ensures forall i :: 0 <= i < |r| ==> IsAlnum(r[i]) || r[i] == '-'
    ensures SingleDashes(r)
    ensures (s == [] || IsAlnum(s[0])) ==> (r == [] || IsAlnum(r[0]))
    decreases |s|
  {
    if s == [] then []
    else if IsAlnum(s[0]) then [s[0]] + Dashes(s[1..])
    else "-" + Dashes(SkipRun(s))
  }

  /** Replacing runs keeps every letter and digit, in order. */
  lemma {:induction false} DashesAlnums(s: string)
    ensures Alnums(Dashes(s)) == Alnums(s)
    decreases |s|
  {
    if s == [] {
    } else if IsAlnum(s[0]) {
      DashesAlnums(s[1..]);
      AlnumsAppend([s[0]], Dashes(s[1..]));
    } else {
      DashesAlnums(SkipRun(s));
      AlnumsOfSkipRun(s);
      AlnumsAppend("-", Dashes(SkipRun(s)));
    }
  }

  /** A string already made of letters, digits and single dashes is left as is. */
  lemma {:induction false} DashesNoop(s: string)
    requires forall i :: 0 <= i < |s| ==> IsAlnum(s[i]) || s[i] == '-'
    requires SingleDashes(s)
    ensures Dashes(s) == s
    decreases |s|
  {
    if s != [] {
      if IsAlnum(s[0]) {
        DashesNoop(s[1..]);
      } else {
        assert SkipRun(s) == s[1..];
        DashesNoop(s[1..]);
      }
    }
  }

  function DropLeadingDashes(t: string): (r: string)
    ensures |r| <= |t| && r == t[|t| - |r|..]
    ensures r == [] || r[0] != '-'
  {
    if t != [] && t[0] == '-' then DropLeadingDashes(t[1..]) else t
  }

  function DropTrailingDashes(t: string): (r: string)
    ensures |r| <= |t| && r == t[..|r|]
    ensures r == [] || r[|r| - 1] != '-'
  {
    if t != [] && t[|t| - 1] == '-' then DropTrailingDashes(t[..|t| - 1]) else t
  }

  /** No two dashes in a row. */
  ghost predicate SingleDashes(s: string) {
    forall i, j :: 0 <= i < j < |s| && j == i + 1 ==> !(s[i] == '-' && s[j] == '-')
  }

  /** A slug: letters, digits and single dashes, with no dash at either end. */
  ghost predicate IsSlug(s: string) {
    (forall i :: 0 <= i < |s| ==> IsAlnum(s[i]) || s[i] == '-') &&
    SingleDashes(s) &&
    (s == [] || (s[0] != '-' && s[|s| - 1] != '-'))
  }

  /** The `id` clean-up of `safeParse`: lower case, runs of other characters
      to one dash, then `replace(/^-+|-+$/g, "")`. */
  function Slugify(s: string): (r: string)
    ensures IsSlug(r)
  {
    var d := Dashes(ToLower(s));
    var u := DropTrailingDashes(d);
    TrimmedSlug(d, u, DropLeadingDashes(u));
    DropLeadingDashes(u)
  }

  /** Letters, digits and single dashes, with the dashes at either end cut
      off, make a slug: `u` is `d` without its trailing dashes and `r` is
      `u` without its leading ones. */
  lemma TrimmedSlug(d: string, u: string, r: string)
    requires forall i :: 0 <= i < |d| ==> IsAlnum(d[i]) || d[i] == '-'
    requires SingleDashes(d)
    requires |u| <= |d| && u == d[..|u|] && (u == [] || u[|u| - 1] != '-')
    requires |r| <= |u| && r == u[|u| - |r|..] && (r == [] || r[0] != '-')
    ensures IsSlug(r)
  {
    SuffixOfPrefix(d, u, r);
    DashedSlice(d, |u| - |r|, r);
    if r != [] {
      LastOfSuffix(u, r);
    }
  }

  /** A slice of letters, digits and single dashes is made of them too. */
  lemma DashedSlice(d: string, o: nat, r: string)
    requires o + |r| <= |d| && r == d[o..o + |r|]
    requires forall i :: 0 <= i < |d| ==> IsAlnum(d[i]) || d[i] == '-'
    requires SingleDashes(d)
    ensures forall i :: 0 <= i < |r| ==> IsAlnum(r[i]) || r[i] == '-'
    ensures SingleDashes(r)
  {
    forall i | 0 <= i < |r|
      ensures IsAlnum(r[i]) || r[i] == '-'
    {
      assert r[i] == d[o + i];
    }
    forall i, j | 0 <= i < j < |r| && j == i + 1
      ensures !(r[i] == '-' && r[j] == '-')
    {
      assert r[i] == d[o + i] && r[j] == d[o + j];
    }
  }

  /** The slug keeps exactly the letters and digits of the lower-cased text. */
  lemma SlugifyAlnums(s: string)
    ensures Alnums(Slugify(s)) == Alnums(ToLower(s))
  {
    var d := Dashes(ToLower(s));
    DropTrailingAlnums(d);
    DropLeadingAlnums(DropTrailingDashes(d));
    DashesAlnums(ToLower(s));
  }

  lemma {:induction false} DropLeadingAlnums(t: string)
    ensures Alnums(DropLeadingDashes(t)) == Alnums(t)
  {
    if t != [] && t[0] == '-' {
      DropLeadingAlnums(t[1..]);
    }
  }

  lemma {:induction false} DropTrailingAlnums(t: string)
    ensures Alnums(DropTrailingDashes(t)) == Alnums(t)
  {
    if t != [] && t[|t| - 1] == '-' {
      var init := t[..|t| - 1];
      assert t == init + "-";
      AlnumsAppend(init, "-");
      DropTrailingAlnums(init);
    }
  }

  /** Slugifying a slug changes nothing. */
  lemma SlugifyIdempotent(s: string)
    ensures Slugify(Slugify(s)) == Slugify(s)
  {
    SlugNoop(Slugify(s));
  }

  /** A slug is its own slug: every step of the clean-up leaves it as is. */
  lemma SlugNoop(r: string)
    requires IsSlug(r)
    ensures Slugify(r) == r
  {
    LowerNoop(r);
    DashesNoop(r);
    assert DropTrailingDashes(r) == r;
    assert DropLeadingDashes(r) == r;
  }

  // ---------- safeParse ----------

  /** No white space at either end. */
  predicate Trimmed(s: string) {
    s == [] || (!IsSpace(s[0]) && !IsSpace(s[|s| - 1]))
  }

  /** One cleaned recommendation. */
  datatype Rec = Rec(id: string, title: string, summary: string)

  /** `String(it.key || "")`. */
  function FieldText(it: Json, key: string): string {
    if TruthyOpt(Get(it, key)) then ToJsString(Get(it, key).value) else ""
  }

  /** The `map` step of `safeParse` on one item. */
  function Sanitize(it: Json): (r: Rec)
    ensures IsSlug(r.id) && Trimmed(r.title) && Trimmed(r.summary)
  {
    var id := Slugify(FieldText(it, "id"));
    var title := Trim(FieldText(it, "title"));
    var summary := Trim(FieldText(it, "summary"));
    Rec(id, title, summary)
  }

  /** The `map` step over a list of items. */
  function SanitizeAll(xs: seq<Json>): (r: seq<Rec>)
    ensures |r| == |xs| && forall i :: 0 <= i < |xs| ==> r[i] == Sanitize(xs[i])
  {
    seq(|xs|, i requires 0 <= i < |xs| => Sanitize(xs[i]))
  }

  predicate Complete(r: Rec) {
    r.id != [] && r.title != [] && r.summary != []
  }

  /** The `filter` step: items with an empty field are dropped, order kept. */
  function KeepComplete(rs: seq<Rec>): (r: seq<Rec>)
    ensures |r| <= |rs|
    ensures forall i :: 0 <= i < |r| ==> Complete(r[i])
    ensures |r| == |rs| ==> r == rs
    ensures (forall i :: 0 <= i < |rs| ==> Complete(rs[i])) ==> r == rs
  {
    if rs == [] then []
    else if Complete(rs[0]) then [rs[0]] + KeepComplete(rs[1..])
    else KeepComplete(rs[1..])
  }

  /** The `items` array `safeParse` works on: None when the text does not
      parse, the value is falsy, or `items` is not an array. */
  function ItemsOf(content: string): (r: Option<seq<Json>>)
    ensures r.Some? ==> Parse(content).Some? && Get(Parse(content).value, "items") == Some(JArr(r.value))
    ensures (Parse(content).Some? && Truthy(Parse(content).value) && Get(Parse(content).value, "items").Some? &&
             Get(Parse(content).value, "items").value.JArr?) ==> r.Some?
  {
    match Parse(content)
    case None => None
    case Some(obj) =>
      if !Truthy(obj) then None
      else
        match Get(obj, "items")
        case Some(JArr(xs)) => Some(xs)
        case _ => None
  }

  /** `items.slice(0, 5).map(...).filter(...)` followed by the length check:
      None when a null among the first five makes a property read throw, or
      when fewer than five complete records remain. Five records come out
      only when the first five items all sanitise to complete records. */
  function CleanItems(xs: seq<Json>): (r: Option<seq<Rec>>)
    ensures r.Some? ==> |xs| >= 5 && |r.value| == 5
    ensures r.Some? ==> forall i :: 0 <= i < 5 ==> r.value[i] == Sanitize(xs[i]) && Complete(r.value[i])
    ensures (|xs| >= 5 && forall i :: 0 <= i < 5 ==> !xs[i].JNull? && Complete(Sanitize(xs[i]))) ==> r.Some?
  {
    var first := Take(xs, 5);
    if exists i :: 0 <= i < |first| && first[i].JNull? then None
    else
      var mapped := SanitizeAll(first);
      var kept := KeepComplete(mapped);
      if |kept| != 5 then
        assert !(|xs| >= 5 && forall i :: 0 <= i < 5 ==> Complete(Sanitize(xs[i]))) by {
          if |xs| >= 5 && forall i :: 0 <= i < 5 ==> Complete(Sanitize(xs[i])) {
            FirstFiveKept(xs);
          }
        }
        None
      else
        assert kept == mapped;
        Some(kept)
  }

  /** When the first five items all sanitise to complete records, the
      filter keeps all five. */
  lemma FirstFiveKept(xs: seq<Json>)
    requires |xs| >= 5 && forall i :: 0 <= i < 5 ==> Complete(Sanitize(xs[i]))
    ensures KeepComplete(SanitizeAll(Take(xs, 5))) == SanitizeAll(Take(xs, 5))
  {
    var mapped := SanitizeAll(Take(xs, 5));
    forall i | 0 <= i < |mapped|
      ensures Complete(mapped[i])
    {
      assert Take(xs, 5)[i] == xs[i];
    }
  }

  /** The records of a `safeParse` result, or None when it returns null. */
  function SafeItems(content: string): (r: Option<seq<Rec>>)
    ensures ItemsOf(content).None? ==> r.None?
    ensures ItemsOf(content).Some? ==> r == CleanItems(ItemsOf(content).value)
  {
    match ItemsOf(content)
    case None => None
    case Some(xs) => CleanItems(xs)
  }

  function RecJson(r: Rec): Json {
    JObj([("id", JStr(r.id)), ("title", JStr(r.title)), ("summary", JStr(r.summary))])
  }

  function RecsJson(rs: seq<Rec>): (r: seq<Json>)
    ensures |r| == |rs| && forall i :: 0 <= i < |rs| ==> r[i] == RecJson(rs[i])
  {
    if rs == [] then [] else [RecJson(rs[0])] + RecsJson(rs[1..])
  }

  /** `safeParse(content)`: the parsed object with `items` replaced by the
      five cleaned records; None for null. */
  function SafeParse(content: string): (r: Option<Json>)
    ensures r.Some? <==> SafeItems(content).Some?
    ensures r.Some? ==> Get(r.value, "items") == Some(JArr(RecsJson(SafeItems(content).value)))
    ensures r.Some? ==> forall k :: k != "items" ==> Get(r.value, k) == Get(Parse(content).value, k)
  {
    match SafeItems(content)
    case None => None
    case Some(recs) =>
      var obj := Parse(content).value;
      Some(JObj(SetField(obj.fields, "items", JArr(RecsJson(recs)))))
  }

  // ---------- the prompt ----------

  /** `(xs && xs.length) ? xs.join(", ") : "n/a"`; None when that throws
      (a non-empty string or an object with a truthy `length` has no `join`). */
  function ListText(v: Option<Json>): (r: Option<string>)
    ensures !TruthyOpt(v) ==> r == Some("n/a")
    ensures v == Some(JArr([])) ==> r == Some("n/a")
    ensures forall xs :: v == Some(JArr(xs)) && xs != [] ==> r == Some(JoinValues(xs, ", "))
    ensures r.None? <==> TruthyOpt(v) && (v.value.JStr? || (v.value.JObj? && TruthyOpt(Get(v.value, "length"))))
  {
    if !TruthyOpt(v) then Some("n/a")
    else
      match v.value
      case JArr(xs) => if xs == [] then Some("n/a") else Some(JoinValues(xs, ", "))
      case JStr(_) => None
      case JObj(_) => if TruthyOpt(Get(v.value, "length")) then None else Some("n/a")
      case _ => Some("n/a")
  }

  /** `category || "unknown"` in a template literal. */
  function CategoryText(v: Option<Json>): (r: string)
    ensures !TruthyOpt(v) ==> r == "unknown"
    ensures forall s :: v == Some(JStr(s)) && s != [] ==> r == s
  {
    if TruthyOpt(v) then ToJsString(v.value) else "unknown"
  }

  const GoalText: string :=
    "Return 5 items that the user is likely to love. Keep each summary crisp and specific (why this fits). Output STRICT JSON as per the schema."

  /** `userTemplate(prompt, hints, category, refiners)`, already trimmed:
      the template's own first and last characters are line breaks. None
      when rendering the hints or the refiners throws. */
  function UserTemplate(prompt: string, hints: Option<Json>, category: Option<Json>, refiners: Option<Json>)
    : (r: Option<string>)
    ensures r.Some? <==> ListText(hints).Some? && ListText(refiners).Some?
  {
    var h := ListText(hints);
    var f := ListText(refiners);
    if h.None? || f.None? then None
    else
      Some("USER REQUEST:\n" + prompt + "\n\nCONTEXT HINTS (optional):\n" + h.value +
           "\n\nCATEGORY (optional): " + CategoryText(category) +
           "\n\nREFINERS (optional): " + f.value + "\n\nGOAL:\n" + GoalText)
  }

  // ---------- the route ----------

  /** `x-forwarded-for`'s first entry, trimmed, else the socket address,
      else "unknown". */
  function ClientIp(req: Request): (ip: string)
    ensures ip != []
    ensures req.Header("x-forwarded-for").Some? && Trim(Split(req.Header("x-forwarded-for").value, ',')[0]) != [] ==>
      ip == Trim(Split(req.Header("x-forwarded-for").value, ',')[0])
  {
    var fwd := if req.Header("x-forwarded-for").Some? then Trim(Split(req.Header("x-forwarded-for").value, ',')[0]) else "";
    if fwd != [] then fwd
    else if req.remoteAddress.Some? && req.remoteAddress.value != [] then req.remoteAddress.value
    else "unknown"
  }

  /** What the call to the model produced: an exception (its message), a
      non-2xx answer (its text), or the parsed JSON answer. */
  datatype ModelReply = Threw(message: string) | HttpError(text: string) | Reply(data: Json)

  /** `v?.[0]` on a parsed value. */
  function IndexZero(v: Option<Json>): Option<Json> {
    match v
    case Some(JArr(xs)) => if xs == [] then None else Some(xs[0])
    case Some(JObj(_)) => Get(v.value, "0")
    case Some(JStr(s)) => if s == [] then None else Some(JStr([s[0]]))
    case _ => None
  }

  /** `data?.choices?.[0]?.message?.content || ""`, as the text `JSON.parse`
      receives. */
  function ReplyContent(data: Json): string {
    var m := IndexZero(Get(data, "choices"));
    var msg := if m.Some? then Get(m.value, "message") else None;
    var c := if msg.Some? then Get(msg.value, "content") else None;
    if TruthyOpt(c) then ToJsString(c.value) else ""
  }

  /** The answer to a request that reached the model. */
  function ModelAnswer(reply: ModelReply): (r: (nat, Json))
    ensures reply.Threw? ==> r.0 == 500
    ensures reply.HttpError? ==> r == (500, JObj([("error", JStr("Model error")), ("detail", JStr(Take(reply.text, 500)))]))
    ensures reply.Reply? && SafeParse(ReplyContent(reply.data)).None? ==> r == (502, ErrorBody("Bad model output"))
    ensures reply.Reply? && SafeParse(ReplyContent(reply.data)).Some? ==> r == (200, SafeParse(ReplyContent(reply.data)).value)
  {
    match reply
    case Threw(m) => (500, JObj([("error", JStr("Server error")), ("detail", JStr(m))]))
    case HttpError(t) => (500, JObj([("error", JStr("Model error")), ("detail", JStr(Take(t, 500)))]))
    case Reply(data) =>
      match SafeParse(ReplyContent(data))
      case None => (502, ErrorBody("Bad model output"))
      case Some(p) => (200, p)
  }

  /** The prompt field when it is a non-blank string. */
  function PromptOf(body: Json): (p: Option<string>)
    ensures p.Some? ==> Get(body, "prompt") == Some(JStr(p.value)) && Trim(p.value) != []
    ensures p.None? ==> !(Get(body, "prompt").Some? && Get(body, "prompt").value.JStr? &&
                          Trim(Get(body, "prompt").value.s) != [])
  {
    match Get(body, "prompt")
    case Some(JStr(s)) => if Trim(s) != [] then Some(s) else None
    case _ => None
  }

  /** What follows a passed rate limit: the prompt check, the template (an
      exception there escapes the route, which the framework answers with
      500) and the model's answer. */
  function AnswerOf(body: Json, reply: ModelReply): (r: (nat, Payload))
    ensures PromptOf(body).None? ==> r == (400, Sent(ErrorBody("Missing prompt")))
    ensures PromptOf(body).Some? ==>
      var user := UserTemplate(PromptOf(body).value, Get(body, "hints"), Get(body, "category"), Get(body, "refiners"));
      (user.None? ==> r == (500, Crashed)) &&
      (user.Some? ==> r == (ModelAnswer(reply).0, Sent(ModelAnswer(reply).1)))
    ensures r.0 == 200 ==>
      PromptOf(body).Some? && reply.Reply? && r.1 == Sent(SafeParse(ReplyContent(reply.data)).value)
  {
    var prompt := PromptOf(body);
    if prompt.None? then (400, Sent(ErrorBody("Missing prompt")))
    else if UserTemplate(prompt.value, Get(body, "hints"), Get(body, "category"), Get(body, "refiners")).None? then
      (500, Crashed)
    else
      var answer := ModelAnswer(reply);
      (answer.0, Sent(answer.1))
  }

  /** The route. `apiKey` is `OPENAI_API_KEY`, `now` the clock and `reply`
      the model's answer. The checks run in order: method, key, rate,
      prompt; only requests that pass the method and key checks touch the
      rate limit, and a refused one is answered 429 before its body is read. */
  method Handle(limiter: RateLimiter, req: Request, res: Response, apiKey: string, now: int, reply: ModelReply)
    modifies limiter, res
    ensures req.verb != "POST" ==>
      res.status == 405 && res.payload == Sent(ErrorBody("Method not allowed")) && limiter.hits == old(limiter.hits)
    ensures req.verb == "POST" && apiKey == [] ==>
      res.status == 500 && res.payload == Sent(ErrorBody("Missing OPENAI_API_KEY")) && limiter.hits == old(limiter.hits)
    ensures req.verb == "POST" && apiKey != [] ==>
      limiter.hits == old(limiter.hits)[ClientIp(req) := Step(old(limiter.Record(ClientIp(req))), now).1]
    ensures req.verb == "POST" && apiKey != [] && !Step(old(limiter.Record(ClientIp(req))), now).0 ==>
      res.status == 429 && res.payload == Sent(ErrorBody("Too many requests, slow down."))
    ensures req.verb == "POST" && apiKey != [] && Step(old(limiter.Record(ClientIp(req))), now).0 ==>
      (res.status, res.payload) == AnswerOf(BodyOrEmpty(req.body), reply)
    ensures res.headers == old(res.headers)
    ensures old(limiter.Valid()) ==> limiter.Valid()
  {
    if req.verb != "POST" {
      res.Send(405, ErrorBody("Method not allowed"));
      return;
    }
    if apiKey == [] {
      res.Send(500, ErrorBody("Missing OPENAI_API_KEY"));
      return;
    }
    var ip := ClientIp(req);
    var ok := limiter.RateLimit(ip, now);
    if !ok {
      res.Send(429, ErrorBody("Too many requests, slow down."));
      return;
    }
    var answer := AnswerOf(BodyOrEmpty(req.body), reply);
    if answer.1.Crashed? {
      res.Crash();
    } else {
      res.Send(answer.0, answer.1.j);
    }
  }
}
