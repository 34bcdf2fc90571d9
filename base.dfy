/** Shared vocabulary of the model: optional values, daily caps, JavaScript
    numbers, and the string primitives the application code leans on
    (`trim`, `toLowerCase`, `split`, `join`, `String(n)`, `parseInt`,
    `Number`, `padStart`, `slice`). */
module Base {

  datatype Option<+T> = None | Some(value: T)

  /** A daily cap: a finite count, or JavaScript's `Infinity`. */
  datatype Limit = Finite(n: nat) | Unlimited {
    /** `count < limit` as JavaScript evaluates it. */
    predicate Admits(count: int) {
      Unlimited? || count < n
    }
  }

  /** A JavaScript number as this code base uses it: an integer, or NaN.
      Fractions, exponents and the infinities are not modelled here. */
  datatype JsNumber = Num(i: int) | NaN {
    /** `x > 0` (false for NaN). */
    predicate Positive() {
      Num? && i > 0
    }
    /** `x + 1` (NaN stays NaN). */
    function Succ(): JsNumber {
      if Num? then Num(i + 1) else NaN
    }
    /** `x - 1` (NaN stays NaN). */
    function Pred(): JsNumber {
      if Num? then Num(i - 1) else NaN
    }
  }

  // ---------- characters ----------

  /** The characters JavaScript's `trim`, `parseInt`, `Number` and the regex
      class `\s` treat as white space (WhiteSpace and LineTerminator). */
  predicate IsSpace(c: char) {
    c == '\t' || c == '\n' || c == '\U{000B}' || c == '\U{000C}' || c == '\r' || c == ' ' ||
    c == '\U{00A0}' || c == '\U{1680}' || ('\U{2000}' <= c <= '\U{200A}') ||
    c == '\U{2028}' || c == '\U{2029}' || c == '\U{202F}' || c == '\U{205F}' ||
    c == '\U{3000}' || c == '\U{FEFF}'
  }

  predicate IsDigit(c: char) {
    '0' <= c <= '9'
  }

  predicate AllDigits(s: string) {
    forall i :: 0 <= i < |s| ==> IsDigit(s[i])
  }

  function DigitValue(c: char): (d: nat)
    requires IsDigit(c)
    ensures d < 10
  {
    (c as int) - ('0' as int)
  }

  function DigitChar(d: nat): (c: char)
    requires d < 10
    ensures IsDigit(c) && DigitValue(c) == d
  {
    (('0' as int) + d) as char
  }

  function LowerChar(c: char): char {
    if 'A' <= c <= 'Z' then ((c as int) + 32) as char else c
  }

  function UpperChar(c: char): char {
    if 'a' <= c <= 'z' then ((c as int) - 32) as char else c
  }

  /** `s.toLowerCase()`, on the ASCII letters. */
  function ToLower(s: string): (r: string)
    ensures |r| == |s|
    ensures forall i :: 0 <= i < |s| ==> r[i] == LowerChar(s[i])
  {
    if s == [] then [] else [LowerChar(s[0])] + ToLower(s[1..])
  }

  /** Text without upper-case letters is its own lower case. */
  lemma LowerNoop(s: string)
    requires forall i :: 0 <= i < |s| ==> !('A' <= s[i] <= 'Z')
    ensures ToLower(s) == s
  {
    assert forall i :: 0 <= i < |s| ==> ToLower(s)[i] == s[i];
  }

  // ---------- trimming ----------

  function TrimStart(s: string): (r: string)
    ensures |r| <= |s| && r == s[|s| - |r|..]
    ensures r == [] || !IsSpace(r[0])
    ensures forall i :: 0 <= i < |s| - |r| ==> IsSpace(s[i])
  {
    if s != [] && IsSpace(s[0]) then
      var r := TrimStart(s[1..]);
      assert s[1..][|s| - 1 - |r|..] == s[|s| - |r|..];
      assert forall i :: 1 <= i < |s| - |r| ==> s[i] == s[1..][i - 1];
      r
    else s
  }

  function TrimEnd(s: string): (r: string)
    ensures |r| <= |s| && r == s[..|r|]
    ensures r == [] || !IsSpace(r[|r| - 1])
    ensures forall i :: |r| <= i < |s| ==> IsSpace(s[i])
  {
    if s != [] && IsSpace(s[|s| - 1]) then TrimEnd(s[..|s| - 1]) else s
  }

  /** `s.trim()`: the longest infix with no white space at either end. */
  function Trim(s: string): (r: string)
    ensures |r| <= |s|
    ensures r == [] || (!IsSpace(r[0]) && !IsSpace(r[|r| - 1]))
  {
    TrimEnd(TrimStart(s))
  }

  /** A string that neither starts nor ends with white space is its own trim. */
  lemma TrimNoop(s: string)
    requires s == [] || (!IsSpace(s[0]) && !IsSpace(s[|s| - 1]))
    ensures Trim(s) == s
  {
  }

  /** `!s.trim()`: every character is white space. */
  lemma {:induction false} TrimEmptyIffBlank(s: string)
    ensures Trim(s) == [] <==> forall i :: 0 <= i < |s| ==> IsSpace(s[i])
  {
    var t := TrimStart(s);
    if Trim(s) == [] {
      assert TrimEnd(t) == [];
      forall i | 0 <= i < |s| ensures IsSpace(s[i]) {
        if i >= |s| - |t| {
          assert s[i] == t[i - (|s| - |t|)];
        }
      }
    } else {
      var r := Trim(s);
      assert !IsSpace(r[0]);
      assert r[0] == t[0];
      assert t[0] == s[|s| - |t|];
    }
  }

  // ---------- integers and their text ----------

  /** `String(n)` for a natural number: its decimal digits, no leading zero. */
  function NatToString(n: nat): (r: string)
    ensures |r| >= 1 && AllDigits(r)
    ensures r[0] == '0' ==> n == 0
    decreases n
  {
    if n < 10 then [DigitChar(n)] else NatToString(n / 10) + [DigitChar(n % 10)]
  }

  /** `String(i)` for an integer. */
  function IntToString(i: int): (r: string)
    ensures r != [] && (IsDigit(r[0]) || r[0] == '-')
  {
    if i < 0 then "-" + NatToString(-i) else NatToString(i)
  }

  /** The value of a string of decimal digits, read left to right. */
  function DigitsValue(d: string): nat
    requires AllDigits(d)
    decreases |d|
  {
    if d == [] then 0 else DigitsValue(d[..|d| - 1]) * 10 + DigitValue(d[|d| - 1])
  }

  lemma {:induction false} DigitsValueOfNat(n: nat)
    ensures DigitsValue(NatToString(n)) == n
    decreases n
  {
    if n >= 10 {
      var p := NatToString(n / 10);
      var r := p + [DigitChar(n % 10)];
      assert r[..|r| - 1] == p;
      DigitsValueOfNat(n / 10);
    }
  }

  /** Length of the longest all-digit prefix of `s`. */
  function DigitPrefixLen(s: string): (k: nat)
    ensures k <= |s| && AllDigits(s[..k])
    ensures k == |s| || !IsDigit(s[k])
  {
    if s != [] && IsDigit(s[0]) then
      var k := 1 + DigitPrefixLen(s[1..]);
      assert forall i :: 1 <= i < k ==> s[..k][i] == s[1..][..k - 1][i - 1];
      k
    else 0
  }

  lemma DigitPrefixOfDigits(d: string, rest: string)
    requires AllDigits(d)
    requires rest == [] || !IsDigit(rest[0])
    ensures DigitPrefixLen(d + rest) == |d|
    decreases |d|
  {
    if d != [] {
      assert (d + rest)[1..] == d[1..] + rest;
      DigitPrefixOfDigits(d[1..], rest);
    } else {
      assert d + rest == rest;
    }
  }

  /** `parseInt(s, 10)`: leading white space, an optional sign, then the
      longest run of decimal digits; NaN when there is no digit. */
  function ParseIntJs(s: string): (x: JsNumber)
  {
    var t := TrimStart(s);
    var signed := t != [] && (t[0] == '-' || t[0] == '+');
    var u := if signed then t[1..] else t;
    var k := DigitPrefixLen(u);
    if k == 0 then NaN
    else if signed && t[0] == '-' then Num(0 - DigitsValue(u[..k]))
    else Num(DigitsValue(u[..k]))
  }

  /** The base a `0x`, `0o` or `0b` prefix announces (either case), 0 for
      any other second character. */
  function RadixOf(c: char): (b: nat)
    ensures b == 0 || b == 2 || b == 8 || b == 16
  {
    if c == 'x' || c == 'X' then 16
    else if c == 'o' || c == 'O' then 8
    else if c == 'b' || c == 'B' then 2
    else 0
  }

  /** The value of a character as a digit of a base up to 36 (letters of
      either case stand for 10 to 35); 36 when it is no digit at all. */
  function RadixDigitValue(c: char): (d: nat)
    ensures d <= 36
  {
    if '0' <= c <= '9' then (c as int) - ('0' as int)
    else if 'a' <= c <= 'z' then (c as int) - ('a' as int) + 10
    else if 'A' <= c <= 'Z' then (c as int) - ('A' as int) + 10
    else 36
  }

  predicate AllRadixDigits(s: string, b: nat) {
    forall i :: 0 <= i < |s| ==> RadixDigitValue(s[i]) < b
  }

  /** The value of a string of base-`b` digits, read left to right. */
  function RadixValue(s: string, b: nat): nat
    requires AllRadixDigits(s, b)
    decreases |s|
  {
    if s == [] then 0 else RadixValue(s[..|s| - 1], b) * b + RadixDigitValue(s[|s| - 1])
  }

  /** `Number(s)` on integer text: surrounding white space is ignored, the
      empty string is 0, `0x`, `0o` and `0b` introduce an unsigned run of
      hexadecimal, octal or binary digits, and anything else but an
      optionally signed run of decimal digits is NaN. */
  function NumberJs(s: string): (x: JsNumber)
  {
    var t := Trim(s);
    if t == [] then Num(0)
    else if |t| >= 2 && t[0] == '0' && RadixOf(t[1]) != 0 then
      var u := t[2..];
      if u == [] || !AllRadixDigits(u, RadixOf(t[1])) then NaN
      else Num(RadixValue(u, RadixOf(t[1])))
    else
      var signed := t[0] == '-' || t[0] == '+';
      var u := if signed then t[1..] else t;
      if u == [] || !AllDigits(u) then NaN
      else if t[0] == '-' then Num(0 - DigitsValue(u))
      else Num(DigitsValue(u))
  }

  /** `String(x)`. */
  function NumberToString(x: JsNumber): (r: string)
    ensures r != []
  {
    match x
    case Num(i) => IntToString(i)
    case NaN => "NaN"
  }

  /** A digit is not white space. */
  lemma DigitNotSpace(c: char)
    requires IsDigit(c)
    ensures !IsSpace(c)
  {
  }

  /** Text with no white space in front is its own `trimStart`. */
  lemma TrimStartNoop(s: string)
    requires s == [] || !IsSpace(s[0])
    ensures TrimStart(s) == s
  {
  }

  /** A run of digits is its own longest digit prefix. */
  lemma DigitPrefixAll(d: string)
    requires AllDigits(d)
    ensures DigitPrefixLen(d) == |d| && d[..|d|] == d
  {
    DigitPrefixOfDigits(d, []);
    AppendNil(d);
    TakeAll(d);
  }

  /** `parseInt` of a run of digits is its value. */
  lemma ParseIntOfDigits(d: string)
    requires d != [] && AllDigits(d)
    ensures ParseIntJs(d) == Num(DigitsValue(d))
  {
    DigitNotSpace(d[0]);
    TrimStartNoop(d);
    DigitPrefixAll(d);
  }

  /** `parseInt` of a minus sign and a run of digits is minus its value. */
  lemma ParseIntOfNegDigits(d: string)
    requires d != [] && AllDigits(d)
    ensures ParseIntJs("-" + d) == Num(0 - DigitsValue(d))
  {
    ConsTail('-', d);
    ParseIntOfMinus("-" + d, d);
  }

  /** The same, over any text whose first character is a minus sign. */
  lemma ParseIntOfMinus(s: string, d: string)
    requires s != [] && s[0] == '-' && s[1..] == d && d != [] && AllDigits(d)
    ensures ParseIntJs(s) == Num(0 - DigitsValue(d))
  {
    TrimStartNoop(s);
    DigitPrefixAll(d);
  }

  /** `parseInt` reads the digits `String` wrote for a natural number. */
  lemma ParseIntOfNat(n: nat)
    ensures ParseIntJs(NatToString(n)) == Num(n)
  {
    ParseIntOfDigits(NatToString(n));
    DigitsValueOfNat(n);
  }

  /** `parseInt` reads the text `String` wrote for a negative integer. */
  lemma ParseIntOfNegative(n: nat)
    requires n > 0
    ensures ParseIntJs("-" + NatToString(n)) == Num(-(n as int))
  {
    ParseIntOfNegDigits(NatToString(n));
    DigitsValueOfNat(n);
  }

  lemma ParseIntOfNaN()
    ensures ParseIntJs("NaN") == NaN
  {
    var s := "NaN";
    assert !IsSpace(s[0]);
    assert TrimStart(s) == s;
    assert !IsDigit(s[0]);
    assert DigitPrefixLen(s) == 0;
  }

  /** `parseInt` reads back what `String` wrote, NaN included. */
  lemma {:induction false} ParseIntOfNumberToString(x: JsNumber)
    ensures ParseIntJs(NumberToString(x)) == x
  {
    match x
    case NaN =>
      ParseIntOfNaN();
    case Num(i) =>
      if i >= 0 {
        ParseIntOfNat(i);
      } else {
        ParseIntOfNegative(-i);
      }
  }

  /** `Number` of a run of digits is its value. */
  lemma NumberOfDigits(d: string)
    requires d != [] && AllDigits(d)
    ensures NumberJs(d) == Num(DigitsValue(d))
  {
    DigitNotSpace(d[0]);
    DigitNotSpace(d[|d| - 1]);
    TrimNoop(d);
  }

  /** `Number` of a minus sign and a run of digits is minus its value. */
  lemma NumberOfNegDigits(s: string, d: string, i: int)
    requires d != [] && AllDigits(d) && s == "-" + d && DigitsValue(d) == -i
    ensures NumberJs(s) == Num(i)
  {
    ConsTail('-', d);
    assert Trim(s) == s by {
      assert s[|s| - 1] == d[|d| - 1];
      DigitNotSpace(d[|d| - 1]);
      TrimNoop(s);
    }
  }

  lemma NumberOfNaN()
    ensures NumberJs("NaN") == NaN
  {
    assert Trim("NaN") == "NaN" by {
      TrimNoop("NaN");
    }
    assert !AllDigits("NaN") by {
      assert !IsDigit("NaN"[0]);
    }
  }

  /** `Number` reads back what `String` wrote, NaN included. */
  lemma {:induction false} NumberOfNumberToString(x: JsNumber)
    ensures NumberJs(NumberToString(x)) == x
  {
    match x
    case NaN =>
      NumberOfNaN();
    case Num(i) =>
      if i < 0 {
        NumberOfNegative(i);
      } else {
        NumberOfNat(i);
      }
  }

  lemma NumberOfNat(n: nat)
    ensures NumberJs(IntToString(n)) == Num(n)
  {
    NumberOfDigits(NatToString(n));
    DigitsValueOfNat(n);
  }

  lemma NumberOfNegative(i: int)
    requires i < 0
    ensures NumberJs(IntToString(i)) == Num(i)
  {
    DigitsValueOfNat(-i);
    NumberOfNegDigits(IntToString(i), NatToString(-i), i);
  }

  /** Decimal digits read in base 10 have their decimal value. */
  lemma {:induction false} RadixTenIsDecimal(d: string)
    requires AllDigits(d)
    ensures AllRadixDigits(d, 10) && RadixValue(d, 10) == DigitsValue(d)
    decreases |d|
  {
    if d != [] {
      var p := d[..|d| - 1];
      assert AllDigits(p) by {
        assert forall i :: 0 <= i < |p| ==> p[i] == d[i];
      }
      RadixTenIsDecimal(p);
    }
  }

  /** `Number` of `0x`, `0o` or `0b` and a run of digits of that base is
      their value in that base. */
  lemma NumberOfPrefixed(s: string, p: char, d: string)
    requires RadixOf(p) != 0 && d != [] && AllRadixDigits(d, RadixOf(p))
    requires s == ['0', p] + d
    ensures NumberJs(s) == Num(RadixValue(d, RadixOf(p)))
  {
    assert s[2..] == d;
    assert Trim(s) == s by {
      assert s[|s| - 1] == d[|d| - 1];
      assert !IsSpace(s[|s| - 1]) by {
        assert RadixDigitValue(d[|d| - 1]) < 36;
      }
      TrimNoop(s);
    }
  }

  /** `Number("0x10")` is 16. */
  lemma NumberOfHex()
    ensures NumberJs("0x10") == Num(16)
  {
    var d := "10";
    var one := d[..1];
    assert one == "1" && one[..0] == [];
    assert RadixValue(one, 16) == 1;
    assert RadixValue(d, 16) == 16;
    NumberOfPrefixed("0x10", 'x', d);
  }

  /** A sign in front of the prefix makes the text NaN: `Number("-0x10")`. */
  lemma NumberOfSignedHex()
    ensures NumberJs("-0x10") == NaN
  {
    var m := "-0x10";
    assert Trim(m) == m by {
      TrimNoop(m);
    }
    assert m[1..][1] == 'x';
  }

  /** `String(n).padStart(w, "0")`. */
  function PadZero(n: nat, w: nat): (r: string)
    ensures AllDigits(r) && |r| >= w
    ensures n < Pow10(w) && w >= 1 ==> |r| == w
  {
    var d := NatToString(n);
    assert n < Pow10(w) && w >= 1 ==> |d| <= w by {
      if n < Pow10(w) && w >= 1 { NatToStringLength(n, w); }
    }
    if |d| < w then seq(w - |d|, _ => '0') + d else d
  }

  /** Leading zeros do not change the value read back. */
  lemma {:induction false} PadZeroValue(n: nat, w: nat)
    ensures DigitsValue(PadZero(n, w)) == n
  {
    var d := NatToString(n);
    if |d| < w {
      assert PadZero(n, w) == seq(w - |d|, _ => '0') + d;
      ZerosValue(w - |d|, d);
    } else {
      assert PadZero(n, w) == d;
    }
    DigitsValueOfNat(n);
  }

  lemma {:induction false} ZerosValue(k: nat, d: string)
    requires AllDigits(d)
    ensures DigitsValue(seq(k, _ => '0') + d) == DigitsValue(d)
    decreases |d|
  {
    var z := seq(k, _ => '0');
    if d == [] {
      assert z + d == z;
      AllZerosValue(k);
    } else {
      var s := z + d;
      assert s[..|s| - 1] == z + d[..|d| - 1];
      ZerosValue(k, d[..|d| - 1]);
    }
  }

  lemma {:induction false} AllZerosValue(k: nat)
    ensures DigitsValue(seq(k, _ => '0')) == 0
  {
    if k > 0 {
      assert seq(k, _ => '0')[..k - 1] == seq(k - 1, _ => '0');
      AllZerosValue(k - 1);
    }
  }

  lemma {:induction false} NatToStringLength(n: nat, k: nat)
    requires n < Pow10(k) && k >= 1
    ensures |NatToString(n)| <= k
    decreases n
  {
    if n >= 10 {
      NatToStringLength(n / 10, k - 1);
    }
  }

  function Pow10(k: nat): (p: nat)
    ensures p >= 1
  {
    if k == 0 then 1 else 10 * Pow10(k - 1)
  }

  /** Concatenation regroups freely. */
  lemma AppendAssoc<T>(a: seq<T>, b: seq<T>, c: seq<T>)
    ensures (a + b) + c == a + (b + c)
  {
  }

  /** A non-empty sequence is its head followed by its tail. */
  lemma HeadTail<T>(s: seq<T>)
    requires s != []
    ensures s == [s[0]] + s[1..]
  {
  }

  /** An element put in front comes first, and the rest follows. */
  lemma ConsTail<T>(c: T, d: seq<T>)
    ensures ([c] + d)[0] == c && ([c] + d)[1..] == d
  {
  }

  /** Appending nothing changes nothing. */
  lemma AppendNil<T>(s: seq<T>)
    ensures s + [] == s
  {
  }

  /** The prefix as long as the whole sequence is the sequence. */
  lemma TakeAll<T>(s: seq<T>)
    ensures s[..|s|] == s
  {
  }

  /** A prefix within the first part of a concatenation is a prefix of
      that part. */
  lemma TakeOfAppend<T>(a: seq<T>, b: seq<T>, n: nat)
    requires n <= |a|
    ensures (a + b)[..n] == a[..n]
  {
  }

  /** A suffix of a prefix is a slice of the whole. */
  lemma SuffixOfPrefix<T>(d: seq<T>, u: seq<T>, r: seq<T>)
    requires |u| <= |d| && u == d[..|u|] && |r| <= |u| && r == u[|u| - |r|..]
    ensures r == d[|u| - |r|..|u|]
  {
  }

  /** A non-empty suffix ends where the whole sequence ends. */
  lemma LastOfSuffix<T>(u: seq<T>, r: seq<T>)
    requires 0 < |r| <= |u| && r == u[|u| - |r|..]
    ensures r[|r| - 1] == u[|u| - 1]
  {
  }

  /** A slice of a suffix is the slice of the whole, shifted. */
  lemma SliceOfSuffix<T>(s: seq<T>, c: nat, a: nat, b: nat)
    requires c <= a <= b <= |s|
    ensures s[c..][a - c..b - c] == s[a..b]
    ensures s[c..][a - c..] == s[a..]
  {
  }

  /** A prefix one longer is the prefix and the next element. */
  lemma TakeSnoc<T>(s: seq<T>, i: nat)
    requires i < |s|
    ensures s[..i + 1] == s[..i] + [s[i]]
  {
  }

  /** A text made of `h + sep + t`, followed by `close` and `rest`, grouped
      from the right. */
  lemma Regroup<T>(whole: seq<T>, h: seq<T>, sep: seq<T>, t: seq<T>, close: seq<T>, rest: seq<T>)
    requires whole == h + sep + t
    ensures whole + close + rest == h + (sep + (t + close + rest))
  {
    AppendAssoc(whole, close, rest);
    AppendAssoc(t, close, rest);
    AppendAssoc(h + sep, t, close + rest);
    AppendAssoc(h, sep, t + (close + rest));
  }

  /** Dropping a one-element opener from a text built of four parts. */
  lemma DropOpener<T>(o: seq<T>, body: seq<T>, close: seq<T>, rest: seq<T>)
    requires |o| == 1
    ensures (o + body + close + rest)[1..] == body + close + rest
  {
    AppendAssoc(o + body, close, rest);
    AppendAssoc(o, body, close + rest);
    AppendAssoc(body, close, rest);
  }

  // ---------- split and join ----------

  /** `parts.join(sep)`. */
  function Join(parts: seq<string>, sep: string): string {
    if parts == [] then ""
    else if |parts| == 1 then parts[0]
    else parts[0] + sep + Join(parts[1..], sep)
  }

  /** `s.split(c)` for a one-character separator. */
  function Split(s: string, c: char): (r: seq<string>)
    ensures |r| >= 1
    ensures forall i :: 0 <= i < |r| ==> c !in r[i]
    decreases |s|
  {
    if s == [] then [""]
    else if s[0] == c then [""] + Split(s[1..], c)
    else
      var t := Split(s[1..], c);
      [[s[0]] + t[0]] + t[1..]
  }

  /** Joining the pieces of a split with its separator gives the string back. */
  lemma {:induction false} JoinSplit(s: string, c: char)
    ensures Join(Split(s, c), [c]) == s
    decreases |s|
  {
    if s != [] {
      JoinSplit(s[1..], c);
      var t := Split(s[1..], c);
      if s[0] == c {
        assert Split(s, c)[1..] == t;
      } else {
        var r := Split(s, c);
        assert r[1..] == t[1..];
        if |t| > 1 {
          assert t[0] + [c] + Join(t[1..], [c]) == s[1..];
          assert r[0] + [c] + Join(r[1..], [c]) == [s[0]] + (t[0] + [c] + Join(t[1..], [c]));
        }
      }
    }
  }

  /** The first piece of a split is everything before the first separator,
      and the remaining pieces, re-joined, are everything after it. */
  lemma {:induction false} SplitAtFirst(k: string, v: string, c: char)
    requires c !in k
    ensures Split(k + [c] + v, c)[0] == k
    ensures Join(Split(k + [c] + v, c)[1..], [c]) == v
    decreases |k|
  {
    var s := k + [c] + v;
    if k == [] {
      assert s[1..] == v;
      JoinSplit(v, c);
    } else {
      assert s[1..] == k[1..] + [c] + v;
      SplitAtFirst(k[1..], v, c);
      assert Split(s, c)[1..] == Split(s[1..], c)[1..];
    }
  }

  /** A string without the separator splits into itself alone. */
  lemma {:induction false} SplitWithout(s: string, c: char)
    requires c !in s
    ensures Split(s, c) == [s]
    decreases |s|
  {
    if s != [] {
      assert c !in s[1..];
      SplitWithout(s[1..], c);
      HeadTail(s);
    }
  }

  // ---------- slicing ----------

  /** How `Array.prototype.slice` / `String.prototype.slice` normalise an
      index: negative values count from the end, then clamp to [0, len]. */
  function SliceIndex(i: int, len: nat): (r: nat)
    ensures r <= len
    ensures 0 <= i <= len ==> r == i
    ensures i < 0 && 0 <= len + i ==> r == len + i
    ensures len + i < 0 ==> r == 0
    ensures len < i ==> r == len
  {
    if i < 0 then (if len + i < 0 then 0 else len + i)
    else if i > len then len
    else i
  }

  /** `s.slice(start, end)`. */
  function JsSlice<T>(s: seq<T>, start: int, end: int): (r: seq<T>)
    ensures |r| <= |s|
    ensures 0 <= start <= end <= |s| ==> r == s[start..end]
    ensures 0 <= end <= start ==> r == []
  {
    var a := SliceIndex(start, |s|);
    var b := SliceIndex(end, |s|);
    if a < b then s[a..b] else []
  }

  /** `s.slice(0, n)` for n >= 0. */
  function Take<T>(s: seq<T>, n: nat): (r: seq<T>)
    ensures |r| == if n < |s| then n else |s|
    ensures r == s[..|r|]
  {
    if n < |s| then s[..n] else s
  }

  /** `s.slice(-n)` for n > 0: the last n elements, or all of them. */
  function Last<T>(s: seq<T>, n: nat): (r: seq<T>)
    ensures |r| == if n < |s| then n else |s|
    ensures r == s[|s| - |r|..]
  {
    if n < |s| then s[|s| - n..] else s
  }
}
