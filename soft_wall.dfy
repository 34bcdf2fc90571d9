/** The browser-side soft wall: a per-day search counter in `localStorage`
    capped by the visitor's tier, and the "chain" pointer that lets one
    paid-for search be refined a few times for free. */
module SoftWall {
  import opened Base
  import opened Json
  import opened Dates
  import opened Browser

  datatype Tier = Guest | Free | Paid

  const KeyPrefixCount: string := "rekomendr.searches."
  const KeyTier: string := "rekomendr.tier"
  const KeyChain: string := "rekomendr.chain.state"

  /** Refines granted inside one chain. */
  const RefinesPerChainLimit: int := 3

  function TierName(t: Tier): string {
    match t
    case Guest => "guest"
    case Free => "free"
    case Paid => "paid"
  }

  /** The stored tier name, read case-insensitively; anything but the three
      known names is a guest. */
  function TierOf(s: string): (t: Tier)
    ensures t == Free <==> ToLower(s) == "free"
    ensures t == Paid <==> ToLower(s) == "paid"
  {
    var l := ToLower(s);
    if l == "free" then Free else if l == "paid" then Paid else Guest
  }

  lemma TierNameRoundTrip(t: Tier)
    ensures TierOf(TierName(t)) == t
  {
    var n := TierName(t);
    assert ToLower(n) == n by {
      forall i | 0 <= i < |n| ensures ToLower(n)[i] == n[i] {
        assert 'a' <= n[i] <= 'z';
      }
    }
  }

  // ---------- tier ----------

  /** `getTier()`: a guest on the server, else the stored tier name. */
  function GetTier(ls: LocalStorage): (t: Tier)
    reads ls
    ensures !ls.hasWindow ==> t == Guest
    ensures ls.hasWindow ==> t == TierOf(ls.GetItemOr(KeyTier, "guest"))
  {
    if !ls.hasWindow then Guest else TierOf(ls.GetItemOr(KeyTier, "guest"))
  }

  /** `setTier(t)`: what is stored reads back as `t`. */
  method SetTier(ls: LocalStorage, t: Tier)
    modifies ls
    ensures ls.hasWindow ==> ls.items == old(ls.items)[KeyTier := TierName(t)]
    ensures !ls.hasWindow ==> ls.items == old(ls.items)
    ensures ls.hasWindow ==> GetTier(ls) == t
  {
    if !ls.hasWindow {
      return;
    }
    ls.SetItem(KeyTier, TierName(t));
    TierNameRoundTrip(t);
  }

  // ---------- daily counter ----------

  /** The storage key of one local calendar day; the year is written
      without padding, month and day with two digits. */
  function CountKey(c: Civil): (k: string)
    ensures |KeyPrefixCount| < |k| && k[..|KeyPrefixCount|] == KeyPrefixCount
  {
    var k := KeyPrefixCount + IntToString(c.year) + "-" + PadZero(c.month, 2) + "-" + PadZero(c.day, 2);
    assert k[..|KeyPrefixCount|] == KeyPrefixCount;
    k
  }

  /** `getTodayKey()`: the key of the clock's local day. */
  function TodayKey(clk: Clock): (k: string)
    ensures k == CountKey(clk.today)
  {
    CountKey(clk.today)
  }

  /** Where the year, month and day sit in a counter key. */
  lemma CountKeyParts(c: Civil)
    requires 1 <= c.month <= 12 && 1 <= c.day <= 31
    ensures var k := CountKey(c); var p := |KeyPrefixCount|; var y := IntToString(c.year);
      |k| == p + |y| + 6 && k[p..p + |y|] == y &&
      k[p + |y| + 1..p + |y| + 3] == PadZero(c.month, 2) && k[p + |y| + 4..] == PadZero(c.day, 2)
  {
    assert Pow10(2) == 100 by {
      assert Pow10(1) == 10;
    }
    var y := IntToString(c.year);
    var m := PadZero(c.month, 2);
    var d := PadZero(c.day, 2);
    var k := KeyPrefixCount + y + "-" + m + "-" + d;
    assert |m| == 2 && |d| == 2;
    assert k == CountKey(c);
  }

  /** Two dates share a counter exactly when they are the same date. */
  lemma CountKeyInjective(c1: Civil, c2: Civil)
    requires 1 <= c1.month <= 12 && 1 <= c1.day <= 31
    requires 1 <= c2.month <= 12 && 1 <= c2.day <= 31
    ensures CountKey(c1) == CountKey(c2) <==> c1 == c2
  {
    if CountKey(c1) == CountKey(c2) {
      var k := CountKey(c1);
      var p := |KeyPrefixCount|;
      var y1, y2 := IntToString(c1.year), IntToString(c2.year);
      CountKeyParts(c1);
      CountKeyParts(c2);
      assert |y1| == |y2|;
      assert y1 == k[p..p + |y1|] == y2;
      ParseIntOfNumberToString(Num(c1.year));
      ParseIntOfNumberToString(Num(c2.year));
      assert c1.year == c2.year;
      assert PadZero(c1.month, 2) == k[p + |y1| + 1..p + |y1| + 3] == PadZero(c2.month, 2);
      assert PadZero(c1.day, 2) == k[p + |y1| + 4..] == PadZero(c2.day, 2);
      PadZeroValue(c1.month, 2);
      PadZeroValue(c2.month, 2);
      PadZeroValue(c1.day, 2);
      PadZeroValue(c2.day, 2);
    }
  }

  /** A counter key never collides with the tier or the chain entry. */
  lemma CountKeyDistinct(c: Civil)
    ensures CountKey(c) != KeyTier && CountKey(c) != KeyChain
  {
    var k := CountKey(c);
    assert k[10] == KeyPrefixCount[10] == 's';
  }

  /** `getLimitForTier(t)`. */
  function GetLimitForTier(t: Tier): (l: Limit)
    ensures l.Unlimited? <==> t == Paid
    ensures t == Free ==> l == Finite(10)
    ensures t == Guest ==> l == Finite(5)
  {
    match t
    case Paid => Unlimited
    case Free => Finite(10)
    case Guest => Finite(5)
  }

  /** Stricter tiers never get a larger cap: a count the guest cap admits
      is admitted under every tier, and one the free cap admits is admitted
      under every tier but guest. */
  lemma LimitOrder(t: Tier, count: int)
    ensures GetLimitForTier(Guest).Admits(count) ==> GetLimitForTier(t).Admits(count)
    ensures t != Guest && GetLimitForTier(Free).Admits(count) ==> GetLimitForTier(t).Admits(count)
  {
  }

  /** The count stored under `key`: what `parseInt` reads from the text,
      which is "0" when the entry is absent or empty; NaN counts as 0. */
  function CountIn(items: map<string, string>, key: string): int {
    match ParseIntJs(if key in items && items[key] != "" then items[key] else "0")
    case Num(i) => i
    case NaN => 0
  }

  /** A day that was never counted reads as 0. */
  lemma CountAbsent(items: map<string, string>, key: string)
    requires key !in items
    ensures CountIn(items, key) == 0
  {
    ParseIntOfNat(0);
  }

  /** A count written as text reads back as the same number. */
  lemma CountWritten(items: map<string, string>, key: string, n: int)
    ensures CountIn(items[key := IntToString(n)], key) == n
  {
    ParseIntOfNumberToString(Num(n));
  }

  /** Writing another entry leaves a count as it was. */
  lemma CountUntouched(items: map<string, string>, key: string, other: string, v: string)
    requires other != key
    ensures CountIn(items[other := v], key) == CountIn(items, key)
  {
    assert key in items[other := v] <==> key in items;
  }

  /** `getCount()`: today's stored count, 0 on the server. */
  function GetCount(ls: LocalStorage, clk: Clock): (n: int)
    reads ls
    ensures !ls.hasWindow ==> n == 0
  {
    if !ls.hasWindow then 0 else CountIn(ls.items, TodayKey(clk))
  }

  /** The entries after `increment()` on the day `key`: one more than the
      count stored there, written back as text. */
  function Incremented(items: map<string, string>, key: string): (r: map<string, string>)
    ensures r.Keys == items.Keys + {key}
    ensures forall k :: k in items && k != key ==> r[k] == items[k]
  {
    items[key := IntToString(CountIn(items, key) + 1)]
  }

  /** `increment()` on the entry `key`: the count under it goes up by one. */
  method IncrementKey(ls: LocalStorage, key: string)
    modifies ls
    ensures ls.items == Incremented(old(ls.items), key)
    ensures CountIn(ls.items, key) == old(CountIn(ls.items, key)) + 1
  {
    var n := CountIn(ls.items, key);
    ls.SetItem(key, IntToString(n + 1));
    CountWritten(old(ls.items), key, n + 1);
  }

  /** `increment()`: today's count goes up by one and nothing else changes. */
  method Increment(ls: LocalStorage, clk: Clock)
    modifies ls
    ensures !ls.hasWindow ==> ls.items == old(ls.items)
    ensures ls.hasWindow ==> ls.items == Incremented(old(ls.items), TodayKey(clk))
    ensures ls.hasWindow ==> GetCount(ls, clk) == old(GetCount(ls, clk)) + 1
  {
    if !ls.hasWindow {
      return;
    }
    IncrementKey(ls, TodayKey(clk));
  }

  /** The answer of the gate. */
  datatype Gate = Gate(allowed: bool, count: int, limit: Limit, tier: Tier)

  /** `canSearchNow(tier?)`: the given tier or the stored one, its cap and
      today's count. */
  function CanSearchNow(ls: LocalStorage, clk: Clock, tier: Option<Tier>): (g: Gate)
    reads ls
    ensures g.tier == (if tier.Some? then tier.value else GetTier(ls))
    ensures g.count == GetCount(ls, clk) && g.limit == GetLimitForTier(g.tier)
    ensures g.allowed <==> g.tier == Paid || g.count < g.limit.n
  {
    var t := if tier.Some? then tier.value else GetTier(ls);
    var limit := GetLimitForTier(t);
    var count := GetCount(ls, clk);
    Gate(limit.Admits(count), count, limit, t)
  }

  /** `gateAndMaybeIncrement(tier?)`: counts a search only when the gate
      lets it through, so a count within the cap stays within it. */
  method GateAndMaybeIncrement(ls: LocalStorage, clk: Clock, tier: Option<Tier>) returns (g: Gate)
    modifies ls
    ensures g == old(CanSearchNow(ls, clk, tier))
    ensures !g.allowed || !ls.hasWindow ==> ls.items == old(ls.items)
    ensures g.allowed && ls.hasWindow ==> GetCount(ls, clk) == g.count + 1
    ensures g.limit.Finite? && old(GetCount(ls, clk)) <= g.limit.n ==> GetCount(ls, clk) <= g.limit.n
  {
    g := CanSearchNow(ls, clk, tier);
    if g.allowed {
      Increment(ls, clk);
    }
  }

  // ---------- chain state ----------

  /** `readChain()`: the stored chain when it parses and has a truthy `id`. */
  function ReadChain(ls: LocalStorage): (c: Option<Json>)
    reads ls
    ensures c.Some? ==> ls.hasWindow && KeyChain in ls.items && Parse(ls.items[KeyChain]) == c
    ensures c.Some? ==> c.value.JObj? && TruthyOpt(Get(c.value, "id"))
    ensures ls.hasWindow && KeyChain in ls.items && Parse(ls.items[KeyChain]).Some? ==>
      (TruthyOpt(Get(Parse(ls.items[KeyChain]).value, "id")) ==> c.Some?)
  {
    if !ls.hasWindow then None
    else
      var raw := ls.GetItemOr(KeyChain, "");
      if raw == "" then None
      else
        match Parse(raw)
        case None => None
        case Some(obj) => if TruthyOpt(Get(obj, "id")) then Some(obj) else None
  }

  /** `writeChain(c)`: removes the entry for null, stores the text otherwise. */
  method WriteChain(ls: LocalStorage, c: Option<Json>)
    modifies ls
    ensures !ls.hasWindow ==> ls.items == old(ls.items)
    ensures ls.hasWindow && c.None? ==> ls.items == old(ls.items) - {KeyChain}
    ensures ls.hasWindow && c.Some? ==> ls.items == old(ls.items)[KeyChain := Stringify(c.value)]
    ensures ls.hasWindow && c.Some? ==> Parse(ls.items[KeyChain]) == c
  {
    if !ls.hasWindow {
      return;
    }
    if c.None? {
      ls.RemoveItem(KeyChain);
    } else {
      ls.SetItem(KeyChain, Stringify(c.value));
      ParseStringify(c.value);
    }
  }

  /** A stored chain with a truthy `id` is read back as it was written. */
  lemma ChainReadBack(ls: LocalStorage, c: Json)
    requires ls.hasWindow && KeyChain in ls.items && ls.items[KeyChain] == Stringify(c)
    requires TruthyOpt(Get(c, "id"))
    ensures ReadChain(ls) == Some(c)
  {
    ParseStringify(c);
  }

  /** `getActiveChain()`. */
  function GetActiveChain(ls: LocalStorage): (c: Option<Json>)
    reads ls
    ensures c == ReadChain(ls)
  {
    ReadChain(ls)
  }

  /** `endChain()`: afterwards there is no active chain. */
  method EndChain(ls: LocalStorage)
    modifies ls
    ensures !ls.hasWindow ==> ls.items == old(ls.items)
    ensures ls.hasWindow ==> ls.items == old(ls.items) - {KeyChain}
    ensures GetActiveChain(ls).None?
  {
    WriteChain(ls, None);
  }

  /** An optional string property: `undefined` leaves no trace in the
      stored text. */
  function OptStr(key: string, o: Option<string>): seq<(string, Json)> {
    Defined(key, if o.Some? then Some(JStr(o.value)) else None)
  }

  /** The five keys of a chain record are pairwise distinct. */
  lemma ChainKeysDistinct()
    ensures "id" != "startedAt" && "id" != "vertical" && "id" != "baseQuery" && "id" != "refines"
    ensures "startedAt" != "vertical" && "startedAt" != "baseQuery" && "startedAt" != "refines"
    ensures "vertical" != "baseQuery" && "vertical" != "refines" && "baseQuery" != "refines"
  {
    assert "startedAt"[0] != "baseQuery"[0];
  }

  /** A key of the chain record is read from the last part that binds it. */
  lemma ChainLookup(head: seq<(string, Json)>, v: Option<string>, b: Option<string>, key: string)
    ensures Lookup(head + OptStr("vertical", v) + OptStr("baseQuery", b) + [("refines", JNum(0))], key) ==
      if key == "refines" then Some(JNum(0))
      else if Lookup(OptStr("baseQuery", b), key).Some? then Lookup(OptStr("baseQuery", b), key)
      else if Lookup(OptStr("vertical", v), key).Some? then Lookup(OptStr("vertical", v), key)
      else Lookup(head, key)
  {
    var fv, fb := OptStr("vertical", v), OptStr("baseQuery", b);
    LookupAppend(head + fv + fb, [("refines", JNum(0))], key);
    LookupAppend3(head, fv, fb, key);
  }

  /** The chain record `beginChain` creates: `id`, `startedAt`, the
      parameters that were given, and no refines yet. */
  function NewChain(token: string, now: int, vertical: Option<string>, baseQuery: Option<string>): (c: Json)
    ensures c.JObj?
    ensures Get(c, "id") == Some(JStr(token)) && Get(c, "startedAt") == Some(JNum(now))
    ensures Get(c, "refines") == Some(JNum(0))
    ensures Get(c, "vertical") == (if vertical.Some? then Some(JStr(vertical.value)) else None)
    ensures Get(c, "baseQuery") == (if baseQuery.Some? then Some(JStr(baseQuery.value)) else None)
  {
    var head := [("id", JStr(token)), ("startedAt", JNum(now))];
    ChainKeysDistinct();
    ChainLookup(head, vertical, baseQuery, "id");
    ChainLookup(head, vertical, baseQuery, "startedAt");
    ChainLookup(head, vertical, baseQuery, "refines");
    ChainLookup(head, vertical, baseQuery, "vertical");
    ChainLookup(head, vertical, baseQuery, "baseQuery");
    JObj(head + OptStr("vertical", vertical) + OptStr("baseQuery", baseQuery) + [("refines", JNum(0))])
  }

  /** A freshly stored chain is the active one exactly when its `id` is not
      empty (`Math.random()` can yield an empty token). */
  lemma NewChainActive(ls: LocalStorage, token: string, now: int, vertical: Option<string>,
                       baseQuery: Option<string>)
    requires ls.hasWindow && KeyChain in ls.items
    requires ls.items[KeyChain] == Stringify(NewChain(token, now, vertical, baseQuery))
    ensures ReadChain(ls) == Some(NewChain(token, now, vertical, baseQuery)) <==> token != ""
  {
    var c := NewChain(token, now, vertical, baseQuery);
    if token != "" {
      ChainReadBack(ls, c);
    } else {
      assert Get(c, "id") == Some(JStr([]));
    }
  }

  /** `beginChain({ vertical, baseQuery })`: a refused gate changes nothing;
      an open one counts today's search and stores a fresh chain, which
      becomes the active one whenever its random `id` is not empty. */
  method BeginChain(ls: LocalStorage, clk: Clock, vertical: Option<string>, baseQuery: Option<string>,
                    token: string)
    returns (gate: Gate, chain: Option<Json>)
    modifies ls
    ensures gate == old(CanSearchNow(ls, clk, None))
    ensures !gate.allowed ==> chain.None? && ls.items == old(ls.items)
    ensures gate.allowed ==> chain == Some(NewChain(token, clk.nowMs, vertical, baseQuery))
    ensures gate.allowed && ls.hasWindow ==>
      ls.items == Incremented(old(ls.items), TodayKey(clk))[KeyChain := Stringify(chain.value)]
    ensures gate.allowed && ls.hasWindow ==> GetCount(ls, clk) == gate.count + 1
    ensures gate.allowed && ls.hasWindow ==> (GetActiveChain(ls) == chain <==> token != "")
  {
    gate := CanSearchNow(ls, clk, None);
    if !gate.allowed {
      return gate, None;
    }
    var c := NewChain(token, clk.nowMs, vertical, baseQuery);
    CountKeyDistinct(clk.today);
    CountAndStore(ls, TodayKey(clk), c);
    chain := Some(c);
    if ls.hasWindow {
      NewChainActive(ls, token, clk.nowMs, vertical, baseQuery);
    }
  }

  /** The two writes of an admitted `beginChain`: `increment()` on the
      day's entry `key`, then `writeChain(chain)`. */
  method CountAndStore(ls: LocalStorage, key: string, c: Json)
    requires key != KeyChain
    modifies ls
    ensures !ls.hasWindow ==> ls.items == old(ls.items)
    ensures ls.hasWindow ==> ls.items == Incremented(old(ls.items), key)[KeyChain := Stringify(c)]
    ensures ls.hasWindow ==> CountIn(ls.items, key) == old(CountIn(ls.items, key)) + 1
  {
    if !ls.hasWindow {
      return;
    }
    IncrementKey(ls, key);
    ghost var counted := ls.items;
    WriteChain(ls, Some(c));
    CountUntouched(counted, key, KeyChain, Stringify(c));
  }

  /** `chain.refines + 1` under JavaScript's `+`: undefined gives NaN, null
      and booleans count as numbers, and text (strings, arrays, objects)
      concatenates with "1" and is converted back by `Math.min`. */
  function PlusOne(v: Option<Json>): (x: JsNumber)
    ensures v == None ==> x == NaN
    ensures v == Some(JNull) ==> x == Num(1)
    ensures forall n :: v == Some(JNum(n)) ==> x == Num(n + 1)
  {
    match v
    case None => NaN
    case Some(j) =>
      match j
      case JNull => Num(1)
      case JBool(b) => Num(if b then 2 else 1)
      case JNum(n) => Num(n + 1)
      case _ => NumberJs(ToJsString(j) + "1")
  }

  /** `Math.min(x, 3)`: NaN stays NaN. */
  function CapRefines(x: JsNumber): (y: JsNumber)
    ensures y.NaN? <==> x.NaN?
    ensures y.Num? ==> y.i <= RefinesPerChainLimit && (y.i == x.i || y.i == RefinesPerChainLimit)
  {
    if x.Num? && x.i > RefinesPerChainLimit then Num(RefinesPerChainLimit) else x
  }

  /** How a number is stored: `JSON.stringify` writes NaN as null. */
  function NumberJson(x: JsNumber): (j: Json)
    ensures x.Num? ==> j == JNum(x.i)
    ensures x.NaN? ==> j == JNull
  {
    if x.Num? then JNum(x.i) else JNull
  }

  /** The refine counter after one more refine of a chain. */
  function NextRefines(chain: Json): (x: JsNumber)
  {
    CapRefines(PlusOne(Get(chain, "refines")))
  }

  /** `{ ...chain, refines: Math.min(chain.refines + 1, 3) }`. */
  function Refined(chain: Json): (next: Json)
    requires chain.JObj?
    ensures next.JObj? && Get(next, "refines") == Some(NumberJson(NextRefines(chain)))
    ensures forall k :: k != "refines" ==> Get(next, k) == Get(chain, k)
  {
    JObj(SetField(chain.fields, "refines", NumberJson(NextRefines(chain))))
  }

  /** From a fresh chain the counter climbs 1, 2, 3 and stays at 3; only
      the third refine reports the limit. */
  lemma RefinesClimbToLimit(c0: Json)
    requires c0.JObj? && Get(c0, "refines") == Some(JNum(0))
    ensures var c1 := Refined(c0); var c2 := Refined(c1); var c3 := Refined(c2);
      Get(c1, "refines") == Some(JNum(1)) && Get(c2, "refines") == Some(JNum(2)) &&
      Get(c3, "refines") == Some(JNum(3)) && Get(Refined(c3), "refines") == Some(JNum(3))
  {
  }

  /** `recordRefine()`: with no active chain nothing happens; otherwise the
      counter moves on by one, capped at the limit, the chain is stored
      back and stays active, and the limit is reported once reached. */
  method RecordRefine(ls: LocalStorage) returns (chain: Option<Json>, reachedLimit: bool)
    modifies ls
    ensures old(ReadChain(ls)).None? ==> chain.None? && !reachedLimit && ls.items == old(ls.items)
    ensures old(ReadChain(ls)).Some? ==> chain == Some(Refined(old(ReadChain(ls)).value))
    ensures old(ReadChain(ls)).Some? ==> ls.items == old(ls.items)[KeyChain := Stringify(chain.value)]
    ensures old(ReadChain(ls)).Some? ==> ReadChain(ls) == chain
    ensures reachedLimit <==>
      (old(ReadChain(ls)).Some? && NextRefines(old(ReadChain(ls)).value) == Num(RefinesPerChainLimit))
  {
    var c := ReadChain(ls);
    if c.None? {
      return None, false;
    }
    var next := Refined(c.value);
    WriteChain(ls, Some(next));
    var n := NextRefines(c.value);
    chain, reachedLimit := Some(next), n.Num? && n.i >= RefinesPerChainLimit;
    ChainReadBack(ls, next);
  }
}
