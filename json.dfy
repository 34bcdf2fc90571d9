/** JSON values as `JSON.stringify` writes them and `JSON.parse` reads them,
    restricted to integer numbers. The browser-side records (chain pointer,
    beta status, session feedback) and the model output all pass through
    this text form. */
module Json {
  import opened Base

  datatype Json =
    | JNull
    | JBool(b: bool)
    | JNum(n: int)
    | JStr(s: string)
    | JArr(items: seq<Json>)
    | JObj(fields: seq<(string, Json)>)

  /** JavaScript truthiness of a parsed value. */
  predicate Truthy(j: Json) {
    match j
    case JNull => false
    case JBool(b) => b
    case JNum(n) => n != 0
    case JStr(s) => s != []
    case _ => true
  }

  /** Truthiness of a property read: undefined (None) is falsy. */
  predicate TruthyOpt(o: Option<Json>) {
    o.Some? && Truthy(o.value)
  }

  /** The value bound to `key` in a field list; a later duplicate wins, as
      with `JSON.parse`. */
  function Lookup(fs: seq<(string, Json)>, key: string): (r: Option<Json>)
    ensures r.Some? ==> exists i :: 0 <= i < |fs| && fs[i] == (key, r.value)
    ensures r.None? ==> forall i :: 0 <= i < |fs| ==> fs[i].0 != key
  {
    if fs == [] then None
    else if fs[|fs| - 1].0 == key then Some(fs[|fs| - 1].1)
    else
      var r := Lookup(fs[..|fs| - 1], key);
      assert forall i :: 0 <= i < |fs| - 1 ==> fs[..|fs| - 1][i] == fs[i];
      r
  }

  /** `v.key` on a parsed value: only objects carry keys; anything else gives
      `undefined` (None). */
  function Get(j: Json, key: string): Option<Json> {
    if j.JObj? then Lookup(j.fields, key) else None
  }

  /** A key bound in the later part of a field list is bound there; any
      other key is looked up in the earlier part. */
  lemma {:induction false} LookupAppend(a: seq<(string, Json)>, b: seq<(string, Json)>, key: string)
    ensures Lookup(a + b, key) == if Lookup(b, key).Some? then Lookup(b, key) else Lookup(a, key)
    decreases |b|
  {
    if b == [] {
      assert a + b == a;
    } else {
      var init := b[..|b| - 1];
      assert (a + b)[..|a + b| - 1] == a + init;
      if b[|b| - 1].0 != key {
        LookupAppend(a, init, key);
      }
    }
  }

  /** `LookupAppend` for a list made of three parts. */
  lemma LookupAppend3(a: seq<(string, Json)>, b: seq<(string, Json)>, c: seq<(string, Json)>, key: string)
    ensures Lookup(a + b + c, key) ==
            if Lookup(c, key).Some? then Lookup(c, key)
            else if Lookup(b, key).Some? then Lookup(b, key)
            else Lookup(a, key)
  {
    LookupAppend(a + b, c, key);
    LookupAppend(a, b, key);
  }

  /** A property that may be `undefined`, written as the field list it
      adds to an object literal: nothing when it is undefined. */
  function Defined(key: string, o: Option<Json>): (r: seq<(string, Json)>)
    ensures Lookup(r, key) == o
    ensures forall k :: k != key ==> Lookup(r, k).None?
  {
    if o.Some? then [(key, o.value)] else []
  }

  /** `{ ...obj, key: v }`: the field keeps its place when present and is
      appended otherwise. */
  function SetField(fs: seq<(string, Json)>, key: string, v: Json): (r: seq<(string, Json)>)
    ensures Lookup(r, key) == Some(v)
    ensures forall k :: k != key ==> Lookup(r, k) == Lookup(fs, k)
  {
    if exists i :: 0 <= i < |fs| && fs[i].0 == key then ReplaceField(fs, key, v)
    else
      assert forall k :: k != key ==> Lookup(fs + [(key, v)], k) == Lookup(fs, k) by {
        forall k | k != key ensures Lookup(fs + [(key, v)], k) == Lookup(fs, k) {
          assert (fs + [(key, v)])[..|fs|] == fs;
        }
      }
      fs + [(key, v)]
  }

  function ReplaceField(fs: seq<(string, Json)>, key: string, v: Json): (r: seq<(string, Json)>)
    requires exists i :: 0 <= i < |fs| && fs[i].0 == key
    ensures Lookup(r, key) == Some(v)
    ensures forall k :: k != key ==> Lookup(r, k) == Lookup(fs, k)
    decreases |fs|
  {
    var last := fs[|fs| - 1];
    var init := fs[..|fs| - 1];
    var last' := if last.0 == key then (key, v) else last;
    if !exists i :: 0 <= i < |init| && init[i].0 == key then
      assert last.0 == key by {
        var i :| 0 <= i < |fs| && fs[i].0 == key;
        if i < |init| { assert init[i] == fs[i]; }
      }
      var r := init + [last'];
      assert r[..|r| - 1] == init;
      r
    else
      var r := ReplaceField(init, key, v) + [last'];
      assert r[..|r| - 1] == ReplaceField(init, key, v);
      r
  }

  /** A property whose value may be `undefined` (None): `JSON.stringify`
      leaves such a property out, so the field list gains nothing. */
  function SetDefined(fs: seq<(string, Json)>, key: string, o: Option<Json>): (r: seq<(string, Json)>)
    ensures Lookup(r, key) == (if o.Some? then o else Lookup(fs, key))
    ensures forall k :: k != key ==> Lookup(r, k) == Lookup(fs, k)
  {
    if o.Some? then SetField(fs, key, o.value) else fs
  }

  /** `String(v)` as a template literal or `String(...)` renders a value. */
  function ToJsString(j: Json): string
    decreases j, 1
  {
    match j
    case JNull => "null"
    case JBool(b) => if b then "true" else "false"
    case JNum(n) => IntToString(n)
    case JStr(s) => s
    case JArr(xs) => JoinValues(xs, ",")
    case JObj(_) => "[object Object]"
  }

  /** `xs.join(sep)`; `String(array)` is `join(",")`. A null element
      becomes the empty string. */
  function JoinValues(xs: seq<Json>, sep: string): string
    decreases xs, 0
  {
    if xs == [] then ""
    else
      var head := if xs[0].JNull? then "" else ToJsString(xs[0]);
      if |xs| == 1 then head else head + sep + JoinValues(xs[1..], sep)
  }

  // ---------- JSON.stringify ----------

  function HexDigit(d: nat): (c: char)
    requires d < 16
  {
    if d < 10 then DigitChar(d) else (('a' as int) + d - 10) as char
  }

  function HexValue(c: char): (r: Option<nat>)
    ensures r.Some? ==> r.value < 16
  {
    if '0' <= c <= '9' then Some((c as int) - ('0' as int))
    else if 'a' <= c <= 'f' then Some((c as int) - ('a' as int) + 10)
    else if 'A' <= c <= 'F' then Some((c as int) - ('A' as int) + 10)
    else None
  }

  /** How `JSON.stringify` writes one character inside a string literal. */
  function EscapeChar(c: char): string {
    if c == '"' then "\\\""
    else if c == '\\' then "\\\\"
    else if c == '\U{0008}' then "\\b"
    else if c == '\U{000C}' then "\\f"
    else if c == '\n' then "\\n"
    else if c == '\r' then "\\r"
    else if c == '\t' then "\\t"
    else if (c as int) < 0x20 then "\\u00" + [HexDigit((c as int) / 16), HexDigit((c as int) % 16)]
    else [c]
  }

  function Escape(s: string): string {
    if s == [] then "" else EscapeChar(s[0]) + Escape(s[1..])
  }

  function Quote(s: string): string {
    "\"" + Escape(s) + "\""
  }

  /** `JSON.stringify(v)`: no white space between tokens. */
  function Stringify(j: Json): (r: string)
    ensures r != [] && FirstOfValue(r[0])
    decreases j, 1
  {
    match j
    case JNull => "null"
    case JBool(b) => if b then "true" else "false"
    case JNum(n) => IntToString(n)
    case JStr(s) => Quote(s)
    case JArr(xs) => "[" + StringifyItems(xs) + "]"
    case JObj(fs) => "{" + StringifyFields(fs) + "}"
  }

  function StringifyItems(xs: seq<Json>): string
    decreases xs, 0
  {
    if xs == [] then ""
    else if |xs| == 1 then Stringify(xs[0])
    else Stringify(xs[0]) + "," + StringifyItems(xs[1..])
  }

  function StringifyFields(fs: seq<(string, Json)>): string
    decreases fs, 0
  {
    if fs == [] then ""
    else
      assert fs[0].1 < fs[0];
      var head := Quote(fs[0].0) + ":" + Stringify(fs[0].1);
      if |fs| == 1 then head else head + "," + StringifyFields(fs[1..])
  }

  // ---------- JSON.parse ----------

  predicate IsJsonSpace(c: char) {
    c == ' ' || c == '\t' || c == '\n' || c == '\r'
  }

  /** The characters a serialised value can start with. */
  predicate FirstOfValue(c: char) {
    c == 'n' || c == 't' || c == 'f' || c == '"' || c == '[' || c == '{' || c == '-' || IsDigit(c)
  }

  function SkipWs(s: string): (r: string)
    ensures |r| <= |s|
  {
    if s != [] && IsJsonSpace(s[0]) then SkipWs(s[1..]) else s
  }

  /** The value of four hex digits at the start of `s`, if they are. */
  function Hex4(s: string): (r: Option<nat>)
    ensures r.Some? ==> |s| >= 4 && r.value < 0x10000
  {
    if |s| < 4 then None
    else
      match (HexValue(s[0]), HexValue(s[1]), HexValue(s[2]), HexValue(s[3]))
      case (Some(a), Some(b), Some(c), Some(d)) => Some(((a * 16 + b) * 16 + c) * 16 + d)
      case _ => None
  }

  /** The character an escape sequence after a backslash stands for, and
      what follows it. A `\u` escape of a high surrogate followed by one of
      a low surrogate stands for the character of the pair; an unpaired
      surrogate is refused, since a string here holds Unicode scalar
      values only. */
  function Unescape(s: string): (r: Option<(char, string)>)
    ensures r.Some? ==> |r.value.1| < |s|
  {
    if s == [] then None
    else if s[0] == '"' then Some(('"', s[1..]))
    else if s[0] == '\\' then Some(('\\', s[1..]))
    else if s[0] == '/' then Some(('/', s[1..]))
    else if s[0] == 'b' then Some(('\U{0008}', s[1..]))
    else if s[0] == 'f' then Some(('\U{000C}', s[1..]))
    else if s[0] == 'n' then Some(('\n', s[1..]))
    else if s[0] == 'r' then Some(('\r', s[1..]))
    else if s[0] == 't' then Some(('\t', s[1..]))
    else if s[0] == 'u' then
      match Hex4(s[1..])
      case None => None
      case Some(code) =>
        if code < 0xD800 || 0xE000 <= code then Some((code as char, s[5..]))
        else if code < 0xDC00 && |s| >= 11 && s[5] == '\\' && s[6] == 'u' then
          match Hex4(s[7..])
          case Some(low) =>
            if 0xDC00 <= low < 0xE000 then
              Some((((code - 0xD800) * 0x400 + (low - 0xDC00) + 0x10000) as char, s[11..]))
            else None
          case None => None
        else None
    else None
  }

  /** A surrogate pair escape reads as the one character it encodes. */
  lemma SurrogatePair()
    ensures Unescape("ud83d\\ude00") == Some(('\U{1F600}', ""))
  {
    assert Hex4("d83d\\ude00") == Some(0xD83D);
    assert Hex4("de00") == Some(0xDE00);
  }

  /** The body of a string literal up to its closing quote, and the rest. */
  function ParseStrBody(s: string): (r: Option<(string, string)>)
    ensures r.Some? ==> |r.value.1| < |s|
    decreases |s|
  {
    if s == [] then None
    else if s[0] == '"' then Some(([], s[1..]))
    else if s[0] == '\\' then
      match Unescape(s[1..])
      case None => None
      case Some((c, rest)) =>
        match ParseStrBody(rest)
        case None => None
        case Some((t, r)) => Some(([c] + t, r))
    else if (s[0] as int) < 0x20 then None
    else
      match ParseStrBody(s[1..])
      case None => None
      case Some((t, r)) => Some(([s[0]] + t, r))
  }

  /** A JSON number, integers only: optional minus, then `0` or a digit run
      without leading zero. Fractions and exponents are refused. */
  function ParseNum(s: string): (r: Option<(int, string)>)
    ensures r.Some? ==> |r.value.1| < |s|
  {
    var neg := s != [] && s[0] == '-';
    var u := if neg then s[1..] else s;
    var k := DigitPrefixLen(u);
    if k == 0 || (u[0] == '0' && k > 1) then None
    else if k < |u| && (u[k] == '.' || u[k] == 'e' || u[k] == 'E') then None
    else
      var v := DigitsValue(u[..k]);
      Some((if neg then 0 - v else v, u[k..]))
  }

  function ParseValue(s: string): (r: Option<(Json, string)>)
    ensures r.Some? ==> |r.value.1| < |s|
    decreases |s|, 1
  {
    var t := SkipWs(s);
    if t == [] then None
    else if t[0] == 'n' || t[0] == 't' || t[0] == 'f' then ParseKeyword(t)
    else if t[0] == '"' then
      match ParseStrBody(t[1..])
      case None => None
      case Some((str, rest)) => Some((JStr(str), rest))
    else if t[0] == '[' then ParseArray(t[1..])
    else if t[0] == '{' then ParseObject(t[1..])
    else if t[0] == '-' || IsDigit(t[0]) then
      match ParseNum(t)
      case None => None
      case Some((n, rest)) => Some((JNum(n), rest))
    else None
  }

  function ParseKeyword(t: string): (r: Option<(Json, string)>)
    ensures r.Some? ==> |r.value.1| < |t|
  {
    if |t| >= 4 && t[..4] == "null" then Some((JNull, t[4..]))
    else if |t| >= 4 && t[..4] == "true" then Some((JBool(true), t[4..]))
    else if |t| >= 5 && t[..5] == "false" then Some((JBool(false), t[5..]))
    else None
  }

  /** An array after its opening bracket. */
  function ParseArray(s: string): (r: Option<(Json, string)>)
    ensures r.Some? ==> |r.value.1| < |s|
    decreases |s|, 3
  {
    var u := SkipWs(s);
    if u != [] && u[0] == ']' then Some((JArr([]), u[1..]))
    else
      match ParseItems(s)
      case None => None
      case Some((xs, rest)) => Some((JArr(xs), rest))
  }

  /** An object after its opening brace. */
  function ParseObject(s: string): (r: Option<(Json, string)>)
    ensures r.Some? ==> |r.value.1| < |s|
    decreases |s|, 3
  {
    var u := SkipWs(s);
    if u != [] && u[0] == '}' then Some((JObj([]), u[1..]))
    else
      match ParseFields(s)
      case None => None
      case Some((fs, rest)) => Some((JObj(fs), rest))
  }

  /** One or more array elements and the closing bracket. */
  function ParseItems(s: string): (r: Option<(seq<Json>, string)>)
    ensures r.Some? ==> |r.value.1| < |s|
    decreases |s|, 2
  {
    match ParseValue(s)
    case None => None
    case Some((v, rest)) =>
      var u := SkipWs(rest);
      if u != [] && u[0] == ']' then Some(([v], u[1..]))
      else if u != [] && u[0] == ',' then
        match ParseItems(u[1..])
        case None => None
        case Some((vs, r)) => Some(([v] + vs, r))
      else None
  }

  /** One or more `"key":value` members and the closing brace. */
  function ParseFields(s: string): (r: Option<(seq<(string, Json)>, string)>)
    ensures r.Some? ==> |r.value.1| < |s|
    decreases |s|, 2
  {
    var t := SkipWs(s);
    if t == [] || t[0] != '"' then None
    else
      match ParseStrBody(t[1..])
      case None => None
      case Some((key, rest)) =>
        var u := SkipWs(rest);
        if u == [] || u[0] != ':' then None
        else
          match ParseValue(u[1..])
          case None => None
          case Some((v, rest2)) =>
            var w := SkipWs(rest2);
            if w != [] && w[0] == '}' then Some(([(key, v)], w[1..]))
            else if w != [] && w[0] == ',' then
              match ParseFields(w[1..])
              case None => None
              case Some((fs, r)) => Some(([(key, v)] + fs, r))
            else None
  }

  /** `JSON.parse(s)`, with None standing for the SyntaxError it throws. */
  function Parse(s: string): (r: Option<Json>)
    ensures SkipWs(s) == [] ==> r.None?
    ensures s != [] && !IsJsonSpace(s[0]) && !FirstOfValue(s[0]) ==> r.None?
  {
    match ParseValue(s)
    case None => None
    case Some((j, rest)) => if SkipWs(rest) == [] then Some(j) else None
  }

  // ---------- round trip ----------

  /** What may follow a serialised value inside a larger text. */
  predicate Follows(rest: string) {
    rest == [] || rest[0] == ',' || rest[0] == ']' || rest[0] == '}'
  }

  lemma SkipWsNoop(s: string)
    requires s == [] || !IsJsonSpace(s[0])
    ensures SkipWs(s) == s
  {
  }

  lemma {:induction false} HexRoundTrip(d: nat)
    requires d < 16
    ensures HexValue(HexDigit(d)) == Some(d)
  {
  }

  /** What `ParseStrBody` gives for a character followed by `rest`. */
  function ThenChar(c: char, rest: string): Option<(string, string)> {
    match ParseStrBody(rest)
    case None => None
    case Some((t, r)) => Some(([c] + t, r))
  }

  lemma EscapeCharRoundTrip(c: char, rest: string)
    ensures ParseStrBody(EscapeChar(c) + rest) == ThenChar(c, rest)
  {
    if c == '"' || c == '\\' || c == '\U{0008}' || c == '\U{000C}' || c == '\n' || c == '\r' || c == '\t' {
      ShortEscapeRoundTrip(c, rest);
    } else if (c as int) < 0x20 {
      UnicodeEscapeRoundTrip(c, rest);
    } else {
      assert (EscapeChar(c) + rest)[1..] == rest;
    }
  }

  /** A character written as a backslash and one letter. */
  lemma ShortEscapeRoundTrip(c: char, rest: string)
    requires c == '"' || c == '\\' || c == '\U{0008}' || c == '\U{000C}' || c == '\n' || c == '\r' || c == '\t'
    ensures ParseStrBody(EscapeChar(c) + rest) == ThenChar(c, rest)
  {
    var s := EscapeChar(c) + rest;
    assert |EscapeChar(c)| == 2 && EscapeChar(c)[0] == '\\';
    assert s[0] == '\\' && s[1..][1..] == rest;
    assert Unescape(s[1..]) == Some((c, rest));
  }

  /** A control character written as `\u00` and two hex digits. */
  lemma UnicodeEscapeRoundTrip(c: char, rest: string)
    requires (c as int) < 0x20
    requires !(c == '"' || c == '\\' || c == '\U{0008}' || c == '\U{000C}' || c == '\n' || c == '\r' || c == '\t')
    ensures ParseStrBody(EscapeChar(c) + rest) == ThenChar(c, rest)
  {
    var s := EscapeChar(c) + rest;
    var hi := (c as int) / 16;
    var lo := (c as int) % 16;
    HexRoundTrip(hi);
    HexRoundTrip(lo);
    assert s[1..][5..] == rest;
    assert HexValue('0') == Some(0);
    assert ((0 * 16 + 0) * 16 + hi) * 16 + lo == c as int;
  }

  lemma {:induction false} StrBodyRoundTrip(str: string, rest: string)
    ensures ParseStrBody(Escape(str) + "\"" + rest) == Some((str, rest))
    decreases |str|
  {
    if str == [] {
      assert Escape(str) + "\"" + rest == "\"" + rest;
      assert ("\"" + rest)[1..] == rest;
    } else {
      var tail := Escape(str[1..]) + "\"" + rest;
      assert Escape(str) + "\"" + rest == EscapeChar(str[0]) + tail;
      EscapeCharRoundTrip(str[0], tail);
      StrBodyRoundTrip(str[1..], rest);
      HeadTail(str);
    }
  }

  /** The digits `String` writes for `m`, then a text that cannot continue
      a number: the digit run is exactly those digits, a valid number, and
      worth `m`. */
  lemma {:induction false} DigitsRead(m: nat, rest: string)
    requires Follows(rest)
    ensures var u := NatToString(m) + rest;
      var k := DigitPrefixLen(u);
      k == |NatToString(m)| && k > 0 && !(u[0] == '0' && k > 1) &&
      !(k < |u| && (u[k] == '.' || u[k] == 'e' || u[k] == 'E')) &&
      DigitsValue(u[..k]) == m && u[k..] == rest
  {
    var d := NatToString(m);
    var u := d + rest;
    DigitPrefixOfDigits(d, rest);
    assert u[..|d|] == d;
    assert u[|d|..] == rest;
    assert u[0] == '0' ==> |d| == 1;
    assert |d| < |u| ==> u[|d|] == rest[0];
    DigitsValueOfNat(m);
  }

  lemma {:induction false} NatRoundTrip(m: nat, rest: string)
    requires Follows(rest)
    ensures ParseNum(NatToString(m) + rest) == Some((m, rest))
  {
    assert (NatToString(m) + rest)[0] != '-';
    DigitsRead(m, rest);
  }

  lemma {:induction false} NegRoundTrip(m: nat, rest: string)
    requires m > 0 && Follows(rest)
    ensures ParseNum("-" + NatToString(m) + rest) == Some((-(m as int), rest))
  {
    var s := "-" + NatToString(m) + rest;
    assert s[1..] == NatToString(m) + rest;
    DigitsRead(m, rest);
  }

  lemma {:induction false} NumRoundTrip(n: int, rest: string)
    requires Follows(rest)
    ensures ParseNum(IntToString(n) + rest) == Some((n, rest))
  {
    if n < 0 {
      NegRoundTrip(-n, rest);
    } else {
      NatRoundTrip(n, rest);
    }
  }

  lemma {:induction false} ValueRoundTrip(j: Json, rest: string)
    requires Follows(rest)
    ensures ParseValue(Stringify(j) + rest) == Some((j, rest))
    decreases j, 4
  {
    match j
    case JNull =>
      KeywordValue(j, rest);
    case JBool(b) =>
      KeywordValue(j, rest);
    case JNum(n) =>
      NumValue(n, rest);
    case JStr(str) =>
      StrValue(str, rest);
    case JArr(xs) =>
      ArrValue(xs, rest);
    case JObj(fs) =>
      ObjValue(fs, rest);
  }

  lemma KeywordValue(j: Json, rest: string)
    requires j.JNull? || j.JBool?
    ensures ParseValue(Stringify(j) + rest) == Some((j, rest))
  {
    var s := Stringify(j) + rest;
    SkipWsNoop(s);
    KeywordRoundTrip(j, rest);
  }

  lemma NumValue(n: int, rest: string)
    requires Follows(rest)
    ensures ParseValue(Stringify(JNum(n)) + rest) == Some((JNum(n), rest))
  {
    var s := IntToString(n) + rest;
    SkipWsNoop(s);
    NumRoundTrip(n, rest);
  }

  lemma StrValue(str: string, rest: string)
    ensures ParseValue(Stringify(JStr(str)) + rest) == Some((JStr(str), rest))
  {
    var s := Quote(str) + rest;
    SkipWsNoop(s);
    assert s[1..] == Escape(str) + "\"" + rest;
    StrBodyRoundTrip(str, rest);
  }

  lemma {:induction false} ArrValue(xs: seq<Json>, rest: string)
    requires Follows(rest)
    ensures ParseValue(Stringify(JArr(xs)) + rest) == Some((JArr(xs), rest))
    decreases xs, 3
  {
    var s := Stringify(JArr(xs)) + rest;
    assert s == "[" + StringifyItems(xs) + "]" + rest;
    SkipWsNoop(s);
    DropOpener("[", StringifyItems(xs), "]", rest);
    ArrayRoundTrip(xs, rest);
  }

  lemma {:induction false} ObjValue(fs: seq<(string, Json)>, rest: string)
    requires Follows(rest)
    ensures ParseValue(Stringify(JObj(fs)) + rest) == Some((JObj(fs), rest))
    decreases fs, 4
  {
    var s := Stringify(JObj(fs)) + rest;
    assert s == "{" + StringifyFields(fs) + "}" + rest;
    SkipWsNoop(s);
    DropOpener("{", StringifyFields(fs), "}", rest);
    ObjectRoundTrip(fs, rest);
  }

  lemma {:induction false} KeywordRoundTrip(j: Json, rest: string)
    requires j.JNull? || j.JBool?
    ensures ParseKeyword(Stringify(j) + rest) == Some((j, rest))
  {
    var s := Stringify(j) + rest;
    if j.JNull? {
      assert s[..4] == "null" && s[4..] == rest;
    } else if j.b {
      assert s[..4] == "true" && s[4..] == rest;
    } else {
      assert s[0] == 'f';
      assert s[..4] != "null" && s[..4] != "true";
      assert s[..5] == "false" && s[5..] == rest;
    }
  }

  lemma {:induction false} ArrayRoundTrip(xs: seq<Json>, rest: string)
    requires Follows(rest)
    ensures ParseArray(StringifyItems(xs) + "]" + rest) == Some((JArr(xs), rest))
    decreases xs, 2
  {
    var body := StringifyItems(xs) + "]" + rest;
    if xs == [] {
      assert body == "]" + rest;
      SkipWsNoop(body);
      assert body[1..] == rest;
    } else {
      assert body[0] == Stringify(xs[0])[0];
      SkipWsNoop(body);
      ItemsRoundTrip(xs, rest);
    }
  }

  lemma {:induction false} ObjectRoundTrip(fs: seq<(string, Json)>, rest: string)
    requires Follows(rest)
    ensures ParseObject(StringifyFields(fs) + "}" + rest) == Some((JObj(fs), rest))
    decreases fs, 3
  {
    var body := StringifyFields(fs) + "}" + rest;
    if fs == [] {
      assert body == "}" + rest;
      SkipWsNoop(body);
      assert body[1..] == rest;
    } else {
      assert body[0] == '"';
      SkipWsNoop(body);
      FieldsRoundTrip(fs, rest);
    }
  }

  /** One step of `ParseItems`: a value, then a closing bracket or a
      comma and more items. */
  lemma ItemsStep(s: string, v: Json, after: string)
    requires ParseValue(s) == Some((v, after))
    requires after != [] && (after[0] == ']' || after[0] == ',')
    ensures after[0] == ']' ==> ParseItems(s) == Some(([v], after[1..]))
    ensures after[0] == ',' ==> (ParseItems(s) ==
      match ParseItems(after[1..])
      case None => None
      case Some((vs, r)) => Some(([v] + vs, r)))
  {
    SkipWsNoop(after);
  }

  lemma {:induction false} ItemsRoundTrip(xs: seq<Json>, rest: string)
    requires xs != [] && Follows(rest)
    ensures ParseItems(StringifyItems(xs) + "]" + rest) == Some((xs, rest))
    decreases xs, 1
  {
    if |xs| == 1 {
      LastItemRoundTrip(xs, rest);
    } else {
      MoreItemsRoundTrip(xs, rest);
    }
  }

  lemma {:induction false} LastItemRoundTrip(xs: seq<Json>, rest: string)
    requires |xs| == 1 && Follows(rest)
    ensures ParseItems(StringifyItems(xs) + "]" + rest) == Some((xs, rest))
    decreases xs, 0
  {
    var s := StringifyItems(xs) + "]" + rest;
    var after := "]" + rest;
    assert s == Stringify(xs[0]) + after by {
      assert StringifyItems(xs) == Stringify(xs[0]);
    }
    ValueRoundTrip(xs[0], after);
    ItemsStep(s, xs[0], after);
    assert after[1..] == rest;
    assert [xs[0]] == xs;
  }

  lemma ItemsText(xs: seq<Json>, rest: string)
    requires |xs| > 1
    ensures StringifyItems(xs) + "]" + rest == Stringify(xs[0]) + ("," + (StringifyItems(xs[1..]) + "]" + rest))
  {
    ItemsCons(xs);
    Regroup(StringifyItems(xs), Stringify(xs[0]), ",", StringifyItems(xs[1..]), "]", rest);
  }

  lemma ItemsCons(xs: seq<Json>)
    requires |xs| > 1
    ensures StringifyItems(xs) == Stringify(xs[0]) + "," + StringifyItems(xs[1..])
  {
  }

  lemma {:induction false} MoreItemsRoundTrip(xs: seq<Json>, rest: string)
    requires |xs| > 1 && Follows(rest)
    ensures ParseItems(StringifyItems(xs) + "]" + rest) == Some((xs, rest))
    decreases xs, 0
  {
    var s := StringifyItems(xs) + "]" + rest;
    var tail := StringifyItems(xs[1..]) + "]" + rest;
    var after := "," + tail;
    ItemsText(xs, rest);
    ValueRoundTrip(xs[0], after);
    ItemsStep(s, xs[0], after);
    assert after[1..] == tail;
    ItemsRoundTrip(xs[1..], rest);
    HeadTail(xs);
  }

  lemma {:induction false} FieldsRoundTrip(fs: seq<(string, Json)>, rest: string)
    requires fs != [] && Follows(rest)
    ensures ParseFields(StringifyFields(fs) + "}" + rest) == Some((fs, rest))
    decreases fs, 2
  {
    if |fs| == 1 {
      LastFieldRoundTrip(fs, rest);
    } else {
      MoreFieldsRoundTrip(fs, rest);
    }
  }

  lemma {:induction false} LastFieldRoundTrip(fs: seq<(string, Json)>, rest: string)
    requires |fs| == 1 && Follows(rest)
    ensures ParseFields(StringifyFields(fs) + "}" + rest) == Some((fs, rest))
    decreases fs, 1
  {
    assert fs[0].1 < fs[0];
    assert StringifyFields(fs) + "}" + rest == Quote(fs[0].0) + ":" + Stringify(fs[0].1) + ("}" + rest);
    MemberThenClose(fs[0].0, fs[0].1, rest);
    assert [(fs[0].0, fs[0].1)] == fs;
  }

  lemma {:induction false} MoreFieldsRoundTrip(fs: seq<(string, Json)>, rest: string)
    requires |fs| > 1 && Follows(rest)
    ensures ParseFields(StringifyFields(fs) + "}" + rest) == Some((fs, rest))
    decreases fs, 1
  {
    FieldsRoundTrip(fs[1..], rest);
    MemberThenMore(fs, rest);
  }

  lemma FieldsText(fs: seq<(string, Json)>, rest: string)
    requires |fs| > 1
    ensures StringifyFields(fs) + "}" + rest ==
      Quote(fs[0].0) + ":" + Stringify(fs[0].1) + ("," + (StringifyFields(fs[1..]) + "}" + rest))
  {
    FieldsCons(fs);
    Regroup(StringifyFields(fs), Quote(fs[0].0) + ":" + Stringify(fs[0].1), ",", StringifyFields(fs[1..]), "}", rest);
  }

  lemma FieldsCons(fs: seq<(string, Json)>)
    requires |fs| > 1
    ensures StringifyFields(fs) == Quote(fs[0].0) + ":" + Stringify(fs[0].1) + "," + StringifyFields(fs[1..])
  {
  }

  /** The last member reads back, up to the closing brace. */
  lemma {:induction false} MemberThenClose(key: string, v: Json, rest: string)
    requires Follows(rest)
    ensures ParseFields(Quote(key) + ":" + Stringify(v) + ("}" + rest)) == Some(([(key, v)], rest))
    decreases v, 7
  {
    MemberPrefix(key, v, "}" + rest);
    assert ("}" + rest)[1..] == rest;
  }

  /** A member followed by a comma reads back, then the members after it. */
  lemma {:induction false} MemberThenMore(fs: seq<(string, Json)>, rest: string)
    requires |fs| > 1
    requires ParseFields(StringifyFields(fs[1..]) + "}" + rest) == Some((fs[1..], rest))
    ensures ParseFields(StringifyFields(fs) + "}" + rest) == Some((fs, rest))
    decreases fs, 0
  {
    var tail := StringifyFields(fs[1..]) + "}" + rest;
    assert fs[0].1 < fs[0];
    FieldsText(fs, rest);
    MemberPrefix(fs[0].0, fs[0].1, "," + tail);
    assert ("," + tail)[1..] == tail;
    assert [(fs[0].0, fs[0].1)] + fs[1..] == fs;
  }

  /** What `ParseFields` does after a member, given the text after its
      value: close the object, or go on after a comma. */
  function AfterMember(key: string, v: Json, w: string): Option<(seq<(string, Json)>, string)> {
    if w != [] && w[0] == '}' then Some(([(key, v)], w[1..]))
    else if w != [] && w[0] == ',' then
      (match ParseFields(w[1..])
       case None => None
       case Some((fs, r)) => Some(([(key, v)] + fs, r)))
    else None
  }

  /** A member reads back as its key and value, whatever follows it. */
  lemma {:induction false} MemberPrefix(key: string, v: Json, after: string)
    requires Follows(after)
    ensures ParseFields(Quote(key) + ":" + Stringify(v) + after) == AfterMember(key, v, after)
    decreases v, 6
  {
    var rest1 := ":" + Stringify(v) + after;
    AppendAssoc(Quote(key), ":", Stringify(v));
    AppendAssoc(Quote(key), ":" + Stringify(v), after);
    KeyRoundTrip(key, rest1);
    ColonValueRoundTrip(v, after);
    FieldsStep(Quote(key) + rest1, key, rest1, v, after);
    SkipWsNoop(after);
  }

  /** One step of `ParseFields`: a quoted key, a colon and a value, then
      whatever follows the value. */
  lemma FieldsStep(s: string, key: string, rest1: string, v: Json, after: string)
    requires s != [] && s[0] == '"' && ParseStrBody(s[1..]) == Some((key, rest1))
    requires rest1 != [] && rest1[0] == ':' && ParseValue(rest1[1..]) == Some((v, after))
    ensures ParseFields(s) == AfterMember(key, v, SkipWs(after))
  {
    SkipWsNoop(s);
    SkipWsNoop(rest1);
  }

  /** A quoted key reads back up to its closing quote. */
  lemma KeyRoundTrip(key: string, rest1: string)
    ensures (Quote(key) + rest1)[0] == '"'
    ensures ParseStrBody((Quote(key) + rest1)[1..]) == Some((key, rest1))
  {
    var s := Quote(key) + rest1;
    assert s[1..] == Escape(key) + "\"" + rest1;
    StrBodyRoundTrip(key, rest1);
  }

  /** A colon and a value read back as the value. */
  lemma {:induction false} ColonValueRoundTrip(v: Json, after: string)
    requires Follows(after)
    ensures (":" + Stringify(v) + after)[0] == ':'
    ensures ParseValue((":" + Stringify(v) + after)[1..]) == Some((v, after))
    decreases v, 5
  {
    assert (":" + Stringify(v) + after)[1..] == Stringify(v) + after;
    ValueRoundTrip(v, after);
  }

  /** `JSON.parse(JSON.stringify(v))` gives `v` back. */
  lemma ParseStringify(j: Json)
    ensures Parse(Stringify(j)) == Some(j)
  {
    ValueRoundTrip(j, []);
    assert Stringify(j) + [] == Stringify(j);
  }
}
