/** The newer results view: a session id, thumbs kept in `localStorage`
    for the session, titles the visitor disliked filtered out, suggestion
    chips, and the prompt sent to `/api/recs` composed from all of these. */
module ResultsV4 {
  import opened Base
  import opened Json
  import opened Browser

  const SessionKey: string := "rekomendr.sessionId.v1"
  const FeedbackKey: string := "rekomendr.sessionFeedback.v1"

  datatype Signal = Up | Down

  function SignalName(s: Signal): string {
    match s
    case Up => "up"
    case Down => "down"
  }

  /** A recommendation as the view shows it. */
  datatype Item = Item(id: string, title: string, year: Option<string>, description: string)

  /** One thumb given this session. */
  datatype Feedback = Feedback(itemId: string, title: string, year: Option<string>, signal: Signal)

  // ---------- session id ----------

  /** `ensureSessionId()`: the stored id, or a new one made of the clock
      and a random suffix, stored for next time; "server" without a
      window. */
  method EnsureSessionId(ls: LocalStorage, now: int, suffix: string) returns (sid: string)
    modifies ls
    ensures !ls.hasWindow ==> sid == "server" && ls.items == old(ls.items)
    ensures ls.hasWindow && SessionKey in old(ls.items) && old(ls.items)[SessionKey] != "" ==>
      sid == old(ls.items)[SessionKey] && ls.items == old(ls.items)
    ensures ls.hasWindow && !(SessionKey in old(ls.items) && old(ls.items)[SessionKey] != "") ==>
      sid == IntToString(now) + "-" + suffix && ls.items == old(ls.items)[SessionKey := sid]
    ensures ls.hasWindow ==> SessionKey in ls.items && ls.items[SessionKey] == sid && sid != ""
  {
    if !ls.hasWindow {
      return "server";
    }
    var stored := ls.GetItem(SessionKey);
    if stored.Some? && stored.value != "" {
      return stored.value;
    }
    sid := IntToString(now) + "-" + suffix;
    ls.SetItem(SessionKey, sid);
  }

  // ---------- stored feedback ----------

  function YearJson(year: Option<string>): Option<Json> {
    if year.Some? then Some(JStr(year.value)) else None
  }

  /** One entry as `JSON.stringify` writes it: a missing year leaves no
      property. */
  function FeedbackJson(f: Feedback): Json {
    JObj(Defined("itemId", Some(JStr(f.itemId))) + Defined("title", Some(JStr(f.title))) +
         (Defined("year", YearJson(f.year)) + Defined("signal", Some(JStr(SignalName(f.signal))))))
  }

  /** An entry read back: an object with string `itemId` and `title`, an
      optional string `year` and a `signal` of "up" or "down". */
  function FeedbackOf(j: Json): (r: Option<Feedback>)
    ensures r.Some? ==> Get(j, "itemId") == Some(JStr(r.value.itemId))
    ensures r.Some? ==> Get(j, "signal") == Some(JStr(SignalName(r.value.signal)))
  {
    match (Get(j, "itemId"), Get(j, "title"), Get(j, "year"), Get(j, "signal"))
    case (Some(JStr(id)), Some(JStr(title)), None, Some(JStr(s))) =>
      if s == "up" then Some(Feedback(id, title, None, Up))
      else if s == "down" then Some(Feedback(id, title, None, Down))
      else None
    case (Some(JStr(id)), Some(JStr(title)), Some(JStr(y)), Some(JStr(s))) =>
      if s == "up" then Some(Feedback(id, title, Some(y), Up))
      else if s == "down" then Some(Feedback(id, title, Some(y), Down))
      else None
    case _ => None
  }

  /** The properties of an entry's text. */
  lemma FeedbackJsonFields(f: Feedback)
    ensures Get(FeedbackJson(f), "itemId") == Some(JStr(f.itemId))
    ensures Get(FeedbackJson(f), "title") == Some(JStr(f.title))
    ensures Get(FeedbackJson(f), "year") == YearJson(f.year)
    ensures Get(FeedbackJson(f), "signal") == Some(JStr(SignalName(f.signal)))
  {
    var a := Defined("itemId", Some(JStr(f.itemId)));
    var b := Defined("title", Some(JStr(f.title)));
    var y := Defined("year", YearJson(f.year));
    var g := Defined("signal", Some(JStr(SignalName(f.signal))));
    LookupAppend(y, g, "itemId");
    LookupAppend(y, g, "title");
    LookupAppend(y, g, "year");
    LookupAppend(y, g, "signal");
    LookupAppend3(a, b, y + g, "itemId");
    LookupAppend3(a, b, y + g, "title");
    LookupAppend3(a, b, y + g, "year");
    LookupAppend3(a, b, y + g, "signal");
  }

  /** Every entry's text reads back as that entry. */
  lemma FeedbackRoundTrip(f: Feedback)
    ensures FeedbackOf(FeedbackJson(f)) == Some(f)
  {
    FeedbackJsonFields(f);
  }

  function ListJson(fs: seq<Feedback>): (j: Json)
    ensures j.JArr? && |j.items| == |fs|
    ensures forall i :: 0 <= i < |fs| ==> j.items[i] == FeedbackJson(fs[i])
  {
    JArr(seq(|fs|, i requires 0 <= i < |fs| => FeedbackJson(fs[i])))
  }

  /** The stored list read back: None when it is not an array of entries. */
  function EntriesOf(xs: seq<Json>): (r: Option<seq<Feedback>>)
    ensures r.Some? ==> |r.value| == |xs|
  {
    if xs == [] then Some([])
    else
      match (FeedbackOf(xs[0]), EntriesOf(xs[1..]))
      case (Some(f), Some(rest)) => Some([f] + rest)
      case _ => None
  }

  /** A list is read back entry by entry. */
  lemma EntriesCons(x: Json, xs: seq<Json>, f: Feedback, rest: seq<Feedback>)
    requires FeedbackOf(x) == Some(f) && EntriesOf(xs) == Some(rest)
    ensures EntriesOf([x] + xs) == Some([f] + rest)
  {
    var ys := [x] + xs;
    assert ys[0] == x && ys[1..] == xs;
  }

  /** Every stored list reads back as the list of entries written. */
  lemma {:induction false} EntriesRoundTrip(fs: seq<Feedback>)
    ensures EntriesOf(ListJson(fs).items) == Some(fs)
  {
    if fs != [] {
      var x, xs := FeedbackJson(fs[0]), ListJson(fs[1..]).items;
      FeedbackRoundTrip(fs[0]);
      EntriesRoundTrip(fs[1..]);
      EntriesCons(x, xs, fs[0], fs[1..]);
      ListJsonCons(fs);
      HeadTail(fs);
    }
  }

  lemma ListJsonCons(fs: seq<Feedback>)
    requires fs != []
    ensures ListJson(fs).items == [FeedbackJson(fs[0])] + ListJson(fs[1..]).items
  {
    var ys := [FeedbackJson(fs[0])] + ListJson(fs[1..]).items;
    assert forall i :: 0 <= i < |fs| ==> ListJson(fs).items[i] == ys[i];
  }

  /** `loadFeedback()`: [] without a window, with nothing stored, or when
      the stored text does not parse or is not a list of entries. */
  function LoadFeedback(ls: LocalStorage): (r: seq<Feedback>)
    reads ls
    ensures !ls.hasWindow || FeedbackKey !in ls.items || ls.items[FeedbackKey] == "" ==> r == []
    ensures ls.hasWindow && FeedbackKey in ls.items && Parse(ls.items[FeedbackKey]).None? ==> r == []
  {
    if !ls.hasWindow then []
    else
      var raw := ls.GetItemOr(FeedbackKey, "");
      if raw == "" then []
      else
        match Parse(raw)
        case Some(JArr(xs)) => if EntriesOf(xs).Some? then EntriesOf(xs).value else []
        case _ => []
  }

  /** `saveFeedback(list)`. */
  method SaveFeedback(ls: LocalStorage, fs: seq<Feedback>)
    modifies ls
    ensures !ls.hasWindow ==> ls.items == old(ls.items)
    ensures ls.hasWindow ==> ls.items == old(ls.items)[FeedbackKey := Stringify(ListJson(fs))]
    ensures ls.hasWindow ==> LoadFeedback(ls) == fs
  {
    if !ls.hasWindow {
      return;
    }
    ls.SetItem(FeedbackKey, Stringify(ListJson(fs)));
    ParseStringify(ListJson(fs));
    EntriesRoundTrip(fs);
  }

  /** `clearFeedback()`. */
  method ClearFeedback(ls: LocalStorage)
    modifies ls
    ensures !ls.hasWindow ==> ls.items == old(ls.items)
    ensures ls.hasWindow ==> ls.items == old(ls.items) - {FeedbackKey}
    ensures LoadFeedback(ls) == []
  {
    if ls.hasWindow {
      ls.RemoveItem(FeedbackKey);
    }
  }

  // ---------- disliked titles and the filter ----------

  /** `${title}${year ? ` (${year})` : ""}`. */
  function Label(title: string, year: Option<string>): string {
    title + (if year.Some? && year.value != "" then " (" + year.value + ")" else "")
  }

  function ItemLabel(it: Item): string {
    Label(it.title, it.year)
  }

  function FeedbackLabel(f: Feedback): string {
    Label(f.title, f.year)
  }

  /** The entries with one signal, in order. */
  function WithSignal(fs: seq<Feedback>, s: Signal): (r: seq<Feedback>)
    ensures |r| <= |fs|
    ensures forall i :: 0 <= i < |r| ==> r[i].signal == s
  {
    if fs == [] then []
    else if fs[0].signal == s then [fs[0]] + WithSignal(fs[1..], s)
    else WithSignal(fs[1..], s)
  }

  lemma {:induction false} WithSignalAppend(a: seq<Feedback>, b: seq<Feedback>, s: Signal)
    ensures WithSignal(a + b, s) == WithSignal(a, s) + WithSignal(b, s)
  {
    if a == [] {
      assert a + b == b;
    } else {
      assert (a + b)[1..] == a[1..] + b;
      WithSignalAppend(a[1..], b, s);
    }
  }

  lemma {:induction false} WithSignalMember(fs: seq<Feedback>, s: Signal, f: Feedback)
    ensures f in WithSignal(fs, s) <==> f in fs && f.signal == s
  {
    if fs != [] {
      WithSignalMember(fs[1..], s, f);
      HeadTail(fs);
    }
  }

  function Labels(fs: seq<Feedback>): (r: seq<string>)
    ensures |r| == |fs| && forall i :: 0 <= i < |fs| ==> r[i] == FeedbackLabel(fs[i])
  {
    seq(|fs|, i requires 0 <= i < |fs| => FeedbackLabel(fs[i]))
  }

  predicate NoDup<T(==)>(xs: seq<T>) {
    forall i, j :: 0 <= i < j < |xs| ==> xs[i] != xs[j]
  }

  /** A JavaScript `Set` built from a list: each value once, in order of
      first appearance. */
  function Dedupe(xs: seq<string>): (r: seq<string>)
    ensures NoDup(r) && |r| <= |xs|
    ensures forall x :: x in r <==> x in xs
  {
    if xs == [] then []
    else
      var init := xs[..|xs| - 1];
      var d := Dedupe(init);
      assert forall x :: x in xs <==> x in init || x == xs[|xs| - 1] by {
        assert xs == init + [xs[|xs| - 1]];
      }
      if xs[|xs| - 1] in d then d else d + [xs[|xs| - 1]]
  }

  /** `dislikedTitles`: the labels of the "down" thumbs, each once. */
  function DislikedTitles(fs: seq<Feedback>): (r: seq<string>)
    ensures NoDup(r)
  {
    Dedupe(Labels(WithSignal(fs, Down)))
  }

  /** A label is disliked exactly when some "down" thumb carries it; "up"
      thumbs never add one. */
  lemma DislikedMember(fs: seq<Feedback>, t: string)
    ensures t in DislikedTitles(fs) <==> exists f :: f in fs && f.signal == Down && FeedbackLabel(f) == t
  {
    var downs := WithSignal(fs, Down);
    if t in DislikedTitles(fs) {
      var i :| 0 <= i < |downs| && Labels(downs)[i] == t;
      WithSignalMember(fs, Down, downs[i]);
    }
    if exists f :: f in fs && f.signal == Down && FeedbackLabel(f) == t {
      var f :| f in fs && f.signal == Down && FeedbackLabel(f) == t;
      WithSignalMember(fs, Down, f);
      var i :| 0 <= i < |downs| && downs[i] == f;
      assert Labels(downs)[i] == t;
    }
  }

  /** `a` is `b` with some elements left out, order kept. */
  predicate IsSubseq<T(==)>(a: seq<T>, b: seq<T>) {
    if b == [] then a == []
    else IsSubseq(a, b[1..]) || (a != [] && a[0] == b[0] && IsSubseq(a[1..], b[1..]))
  }

  function KeepLiked(items: seq<Item>, disliked: seq<string>): (r: seq<Item>)
    ensures IsSubseq(r, items)
    ensures forall i :: 0 <= i < |r| ==> ItemLabel(r[i]) !in disliked
    ensures forall it :: it in items && ItemLabel(it) !in disliked ==> it in r
  {
    if items == [] then []
    else
      var rest := KeepLiked(items[1..], disliked);
      assert forall it :: it in items ==> it == items[0] || it in items[1..];
      if ItemLabel(items[0]) in disliked then rest
      else
        var r := [items[0]] + rest;
        assert r[1..] == rest;
        r
  }

  /** `filteredItems`: the items whose label was not disliked, in their
      order; all of them when nothing is disliked. */
  function FilteredItems(items: seq<Item>, disliked: seq<string>): (r: seq<Item>)
    ensures IsSubseq(r, items)
    ensures forall i :: 0 <= i < |r| ==> ItemLabel(r[i]) !in disliked
    ensures forall it :: it in items && ItemLabel(it) !in disliked ==> it in r
    ensures disliked == [] ==> r == items
  {
    if items == [] || disliked == [] then
      assert IsSubseq(items, items) by { SubseqRefl(items); }
      items
    else KeepLiked(items, disliked)
  }

  lemma {:induction false} SubseqRefl<T>(xs: seq<T>)
    ensures IsSubseq(xs, xs)
  {
    if xs != [] {
      SubseqRefl(xs[1..]);
    }
  }

  // ---------- suggestion chips ----------

  datatype Chip = Chip(key: string, caption: string)

  /** `SUGGESTION_DEFS`, in order. Whether a chip's text test matches is an
      input (`hitKeys`); the last two never match. */
  const Defs: seq<Chip> := [
    Chip("feel-good", "feel-good"),
    Chip("mind-bending", "mind-bending"),
    Chip("true-crime", "true crime vibe"),
    Chip("critically-acclaimed", "critically acclaimed"),
    Chip("hidden-gems", "hidden gems"),
    Chip("based-on-book", "based on a book"),
    Chip("funnier", "laugh-out-loud"),
    Chip("darker", "darker"),
    Chip("shorter", "shorter"),
    Chip("longer", "longer")
  ]

  const FallbackKeys: set<string> := {"critically-acclaimed", "hidden-gems", "based-on-book"}

  function Keys(cs: seq<Chip>): (r: seq<string>)
    ensures |r| == |cs| && forall i :: 0 <= i < |cs| ==> r[i] == cs[i].key
  {
    seq(|cs|, i requires 0 <= i < |cs| => cs[i].key)
  }

  /** `defs.filter(d => keys.has(d.key))`. */
  function DefsWith(cs: seq<Chip>, keys: set<string>): (r: seq<Chip>)
    ensures IsSubseq(r, cs)
    ensures forall i :: 0 <= i < |r| ==> r[i].key in keys
  {
    if cs == [] then []
    else
      var rest := DefsWith(cs[1..], keys);
      if cs[0].key in keys then
        var r := [cs[0]] + rest;
        assert r[1..] == rest;
        r
      else rest
  }

  /** `new Map(list.map(d => [d.key, d])).values()`: one chip per key, at
      the place the key first appears. The value kept is the last chip with
      that key; the chips here all come from `Defs`, whose keys are
      distinct, so first and last are the same chip. */
  function DedupeByKey(cs: seq<Chip>): (r: seq<Chip>)
    ensures NoDup(Keys(r)) && |r| <= |cs|
    ensures forall c :: c in r ==> c in cs
  {
    if cs == [] then []
    else
      var init := cs[..|cs| - 1];
      var last := cs[|cs| - 1];
      var d := DedupeByKey(init);
      if last.key in Keys(d) then d
      else
        var r := d + [last];
        assert Keys(r) == Keys(d) + [last.key];
        r
  }

  /** Keys already distinct: nothing is dropped. */
  lemma {:induction false} DedupeDistinct(cs: seq<Chip>)
    requires NoDup(Keys(cs))
    ensures DedupeByKey(cs) == cs
  {
    if cs != [] {
      var init := cs[..|cs| - 1];
      assert Keys(init) == Keys(cs)[..|cs| - 1];
      DedupeDistinct(init);
      assert cs[|cs| - 1].key == Keys(cs)[|cs| - 1];
      assert cs == init + [cs[|cs| - 1]];
    }
  }

  /** What comes later never displaces what came first. */
  lemma {:induction false} DedupePrefix(a: seq<Chip>, b: seq<Chip>)
    requires NoDup(Keys(a))
    ensures |DedupeByKey(a + b)| >= |a| && DedupeByKey(a + b)[..|a|] == a
    decreases |b|
  {
    if b == [] {
      assert a + b == a;
      DedupeDistinct(a);
    } else {
      var init := b[..|b| - 1];
      assert (a + b)[..|a + b| - 1] == a + init;
      DedupePrefix(a, init);
    }
  }

  lemma DefsKeysDistinct()
    ensures NoDup(Keys(Defs))
  {
  }

  lemma {:induction false} SubseqNoDupKeys(a: seq<Chip>, b: seq<Chip>)
    requires IsSubseq(a, b) && NoDup(Keys(b))
    ensures NoDup(Keys(a))
  {
    if b != [] {
      assert NoDup(Keys(b[1..])) by {
        forall i, j | 0 <= i < j < |b| - 1 ensures Keys(b[1..])[i] != Keys(b[1..])[j] {
          assert Keys(b)[i + 1] != Keys(b)[j + 1];
        }
      }
      if IsSubseq(a, b[1..]) {
        SubseqNoDupKeys(a, b[1..]);
      } else {
        SubseqNoDupKeys(a[1..], b[1..]);
        SubseqMember(a[1..], b[1..]);
        forall j | 0 < j < |a| ensures a[0].key != a[j].key {
          assert a[j] == a[1..][j - 1];
          assert a[j] in a[1..];
          assert a[j] in b[1..];
          var k :| 0 <= k < |b| - 1 && b[1..][k] == a[j];
          assert Keys(b)[0] != Keys(b)[k + 1];
        }
      }
    }
  }

  lemma {:induction false} SubseqMember<T>(a: seq<T>, b: seq<T>)
    requires IsSubseq(a, b)
    ensures forall x :: x in a ==> x in b
  {
    if b != [] {
      if IsSubseq(a, b[1..]) {
        SubseqMember(a, b[1..]);
      } else {
        SubseqMember(a[1..], b[1..]);
        assert forall x :: x in a ==> x == a[0] || x in a[1..];
      }
    }
  }

  /** `suggestedChips`: nothing without items; otherwise the matching chips
      followed by the three fallback chips, each key once, at most six. */
  function SuggestedChips(items: seq<Item>, hitKeys: set<string>): (r: seq<Chip>)
    ensures items == [] ==> r == []
    ensures |r| <= 6
  {
    if items == [] then []
    else Take(DedupeByKey(Hits(hitKeys) + DefsWith(Defs, FallbackKeys)), 6)
  }

  /** The chips whose test matches; the last two never match. */
  function Hits(hitKeys: set<string>): seq<Chip> {
    DefsWith(Defs, hitKeys - {"shorter", "longer"})
  }

  /** Each suggested key appears once, and every chip is a defined one. */
  lemma ChipsDistinct(items: seq<Item>, hitKeys: set<string>)
    ensures NoDup(Keys(SuggestedChips(items, hitKeys)))
    ensures forall c :: c in SuggestedChips(items, hitKeys) ==> c in Defs
  {
    if items != [] {
      var all := Hits(hitKeys) + DefsWith(Defs, FallbackKeys);
      var merged := DedupeByKey(all);
      var r := Take(merged, 6);
      assert Keys(r) == Keys(merged)[..|r|];
      SubseqMember(Hits(hitKeys), Defs);
      SubseqMember(DefsWith(Defs, FallbackKeys), Defs);
      forall c | c in r ensures c in Defs {
        assert c in merged;
        assert c in all;
      }
    }
  }

  /** The matching chips come first, in the order of the definitions, as
      many as fit in six. */
  lemma HitsFirst(items: seq<Item>, hitKeys: set<string>)
    requires items != []
    ensures var hits := Hits(hitKeys);
      var r := SuggestedChips(items, hitKeys);
      |r| >= (if |hits| < 6 then |hits| else 6) &&
      r[..(if |hits| < 6 then |hits| else 6)] == hits[..(if |hits| < 6 then |hits| else 6)]
  {
    var hits := Hits(hitKeys);
    DefsKeysDistinct();
    SubseqNoDupKeys(hits, Defs);
    DedupePrefix(hits, DefsWith(Defs, FallbackKeys));
  }

  /** With items present, the chips are the first six of: the matching
      chips, then the fallback chips that did not match already. */
  lemma SuggestedChipsFill(items: seq<Item>, hitKeys: set<string>)
    requires items != []
    ensures SuggestedChips(items, hitKeys) == Take(Hits(hitKeys) + DefsWith(Defs, FallbackKeys - hitKeys), 6)
  {
    var h := hitKeys - {"shorter", "longer"};
    var hits := DefsWith(Defs, h);
    assert SuggestedChips(items, hitKeys) == Take(DedupeByKey(hits + DefsWith(Defs, FallbackKeys)), 6);
    assert DedupeByKey(hits + DefsWith(Defs, FallbackKeys)) == hits + DefsWith(Defs, FallbackKeys - h) by {
      DefsKeysDistinct();
      FilterThenMerge(Defs, h, FallbackKeys);
    }
    FallbackNeverSizes(hitKeys);
  }

  /** The size chips are not fallback chips. */
  lemma FallbackNeverSizes(hitKeys: set<string>)
    ensures FallbackKeys - (hitKeys - {"shorter", "longer"}) == FallbackKeys - hitKeys
  {
    assert "shorter" !in FallbackKeys && "longer" !in FallbackKeys by {
      assert "shorter"[0] == 's' && "longer"[0] == 'l';
    }
  }

  /** The chips of `cs` with keys in `h`, then those with keys in `f`,
      merged by key: the second list loses exactly the keys in `h`. */
  lemma FilterThenMerge(cs: seq<Chip>, h: set<string>, f: set<string>)
    requires NoDup(Keys(cs))
    ensures DedupeByKey(DefsWith(cs, h) + DefsWith(cs, f)) == DefsWith(cs, h) + DefsWith(cs, f - h)
  {
    var a := DefsWith(cs, h);
    SubseqNoDupKeys(a, cs);
    forall c | c in cs
      ensures c.key in Keys(a) <==> c.key in h
    {
      FilteredKeys(cs, h, c);
    }
    DedupeAfter(a, cs, f, h);
  }

  /** A chip's key is among the filtered chips' keys exactly when it is
      wanted. */
  lemma FilteredKeys(cs: seq<Chip>, keys: set<string>, c: Chip)
    requires c in cs
    ensures c.key in Keys(DefsWith(cs, keys)) <==> c.key in keys
  {
    var r := DefsWith(cs, keys);
    if c.key in keys {
      DefsWithMember(cs, keys, c);
      var i :| 0 <= i < |r| && r[i] == c;
      assert Keys(r)[i] == c.key;
    }
  }

  /** A chip with a wanted key is kept by the filter. */
  lemma {:induction false} DefsWithMember(cs: seq<Chip>, keys: set<string>, c: Chip)
    requires c in cs && c.key in keys
    ensures c in DefsWith(cs, keys)
  {
    if cs[0] != c {
      DefsWithMember(cs[1..], keys, c);
    }
  }

  /** Filtering a list with one more chip at the end. */
  lemma {:induction false} DefsWithSnoc(cs: seq<Chip>, x: Chip, keys: set<string>)
    ensures DefsWith(cs + [x], keys) == DefsWith(cs, keys) + (if x.key in keys then [x] else [])
  {
    if cs == [] {
      assert [x][1..] == [];
    } else {
      assert (cs + [x])[1..] == cs[1..] + [x];
      DefsWithSnoc(cs[1..], x, keys);
    }
  }

  /** Merging a list with one more chip at the end. */
  lemma DedupeSnoc(s: seq<Chip>, x: Chip)
    ensures DedupeByKey(s + [x]) ==
      if x.key in Keys(DedupeByKey(s)) then DedupeByKey(s) else DedupeByKey(s) + [x]
  {
    assert (s + [x])[..|s + [x]| - 1] == s;
  }

  /** A chip whose key no chip of `init` shares is not found in any list
      drawn from `init`. */
  lemma KeyNotAmong(a: seq<Chip>, rest: seq<Chip>, init: seq<Chip>, x: Chip)
    requires IsSubseq(rest, init) && NoDup(Keys(init + [x]))
    ensures x.key in Keys(a + rest) <==> x.key in Keys(a)
  {
    SubseqMember(rest, init);
    var cs := init + [x];
    forall i | 0 <= i < |rest|
      ensures Keys(rest)[i] != x.key
    {
      assert rest[i] in rest;
      var k :| 0 <= k < |init| && init[k] == rest[i];
      assert Keys(cs)[k] != Keys(cs)[|cs| - 1];
    }
    assert Keys(a + rest) == Keys(a) + Keys(rest);
  }

  /** Merging chips after a list `a` of distinct keys: a later chip
      survives exactly when its key is not among `a`'s, which for the
      chips of `cs` is the same as not being in `h`. */
  lemma {:induction false} DedupeAfter(a: seq<Chip>, cs: seq<Chip>, f: set<string>, h: set<string>)
    requires NoDup(Keys(a)) && NoDup(Keys(cs))
    requires forall c :: c in cs ==> (c.key in Keys(a) <==> c.key in h)
    ensures DedupeByKey(a + DefsWith(cs, f)) == a + DefsWith(cs, f - h)
    decreases |cs|
  {
    if cs == [] {
      assert a + DefsWith(cs, f) == a && a + DefsWith(cs, f - h) == a;
      DedupeDistinct(a);
    } else {
      var init := cs[..|cs| - 1];
      var x := cs[|cs| - 1];
      assert cs == init + [x];
      assert Keys(init) == Keys(cs)[..|cs| - 1];
      assert forall c :: c in init ==> c in cs;
      DedupeAfter(a, init, f, h);
      assert x in cs;
      DedupeAfterStep(a, init, x, f, h);
    }
  }

  /** One more chip at the end of `cs` in the merge above. */
  lemma DedupeAfterStep(a: seq<Chip>, init: seq<Chip>, x: Chip, f: set<string>, h: set<string>)
    requires NoDup(Keys(init + [x]))
    requires DedupeByKey(a + DefsWith(init, f)) == a + DefsWith(init, f - h)
    requires x.key in Keys(a) <==> x.key in h
    ensures DedupeByKey(a + DefsWith(init + [x], f)) == a + DefsWith(init + [x], f - h)
  {
    var rest := DefsWith(init, f - h);
    var lhs := a + DefsWith(init + [x], f);
    var rhs := a + DefsWith(init + [x], f - h);
    assert rhs == if x.key in h || x.key !in f then a + rest else (a + rest) + [x] by {
      DefsWithSnoc(init, x, f - h);
    }
    if x.key in f {
      var s := a + DefsWith(init, f);
      assert lhs == s + [x] by {
        DefsWithSnoc(init, x, f);
      }
      assert x.key in Keys(a + rest) <==> x.key in h by {
        KeyNotAmong(a, rest, init, x);
      }
      DedupeSnoc(s, x);
    } else {
      assert lhs == a + DefsWith(init, f) by {
        DefsWithSnoc(init, x, f);
      }
    }
  }

  /** `toggleChip(key)`: a selected key is removed (every copy), any other
      key is appended. */
  function ToggleChip(prev: seq<string>, key: string): (r: seq<string>)
    ensures key in r <==> key !in prev
    ensures forall k :: k != key ==> (k in r <==> k in prev)
  {
    if key in prev then Without(prev, key) else prev + [key]
  }

  function Without(xs: seq<string>, key: string): (r: seq<string>)
    ensures forall k :: k in r <==> k in xs && k != key
    ensures key !in xs ==> r == xs
  {
    if xs == [] then []
    else
      var rest := Without(xs[1..], key);
      assert forall k :: k in xs <==> k == xs[0] || k in xs[1..];
      if xs[0] == key then rest else [xs[0]] + rest
  }

  /** Toggling twice restores which keys are selected, and restores the
      list itself when the key was not selected. */
  lemma ToggleTwice(prev: seq<string>, key: string)
    ensures forall k :: k in ToggleChip(ToggleChip(prev, key), key) <==> k in prev
    ensures key !in prev ==> ToggleChip(ToggleChip(prev, key), key) == prev
  {
    if key !in prev {
      var t := prev + [key];
      assert t[..|prev|] == prev;
      WithoutAppended(prev, key);
    }
  }

  lemma {:induction false} WithoutAppended(xs: seq<string>, key: string)
    requires key !in xs
    ensures Without(xs + [key], key) == xs
  {
    if xs != [] {
      assert (xs + [key])[1..] == xs[1..] + [key];
      WithoutAppended(xs[1..], key);
      HeadTail(xs);
    } else {
      assert xs + [key] == [key];
    }
  }

  // ---------- the prompt ----------

  /** `prompt?.trim()`, or "Find 5 popular {vertical}" when that is empty. */
  function BasePrompt(prompt: string, vertical: string): (r: string)
    ensures Trim(prompt) == [] ==> r == "Find 5 popular " + vertical
    ensures Trim(prompt) != [] ==> r == Trim(prompt)
  {
    if Trim(prompt) == [] then "Find 5 popular " + vertical else Trim(prompt)
  }

  /** " Avoid: a, b, c." */
  function AvoidClause(labels: seq<string>): string {
    " Avoid: " + Join(labels, ", ") + "."
  }

  function LikeClause(labels: seq<string>): string {
    ". Prefer items similar to: " + Join(labels, ", ") + ". Keep it fresh; avoid near-duplicates."
  }

  /** The refine clauses apply only in refine mode and once there is a
      thumb. */
  predicate Refining(refine: bool, fs: seq<Feedback>) {
    refine && fs != []
  }

  /** The last six "up" thumbs. */
  function RecentUps(fs: seq<Feedback>): seq<Feedback> {
    Last(WithSignal(fs, Up), 6)
  }

  /** The last ten "down" thumbs. */
  function RecentDowns(fs: seq<Feedback>): seq<Feedback> {
    Last(WithSignal(fs, Down), 10)
  }

  /** The "prefer" clause of refine mode, or nothing. */
  function LikePart(refine: bool, fs: seq<Feedback>): string {
    if Refining(refine, fs) && RecentUps(fs) != [] then LikeClause(Labels(RecentUps(fs))) else ""
  }

  /** The "avoid" clause of refine mode, or nothing. */
  function DownPart(refine: bool, fs: seq<Feedback>): string {
    if Refining(refine, fs) && RecentDowns(fs) != [] then AvoidClause(Labels(RecentDowns(fs))) else ""
  }

  /** A chip's label, or the key itself for a key with no definition. */
  function ChipLabel(key: string): (l: string)
    ensures (exists i :: 0 <= i < |Defs| && Defs[i].key == key) || l == key
  {
    FindLabel(Defs, key)
  }

  function FindLabel(cs: seq<Chip>, key: string): (l: string)
    ensures (exists i :: 0 <= i < |cs| && cs[i].key == key && cs[i].caption == l) || l == key
  {
    if cs == [] then key
    else if cs[0].key == key then cs[0].caption
    else
      var l := FindLabel(cs[1..], key);
      assert forall i :: 0 <= i < |cs| - 1 ==> cs[1..][i] == cs[i + 1];
      l
  }

  function ChipLabels(keys: seq<string>): (r: seq<string>)
    ensures |r| == |keys| && forall i :: 0 <= i < |keys| ==> r[i] == ChipLabel(keys[i])
  {
    seq(|keys|, i requires 0 <= i < |keys| => ChipLabel(keys[i]))
  }

  const ShorterHint: string := " Prefer runtime under ~110 minutes."
  const LongerHint: string := " Prefer epic/longer titles over ~140 minutes."

  function BiasClause(selected: seq<string>): string {
    ". Bias toward: " + Join(ChipLabels(selected), ", ") + "."
  }

  /** The chip clause, or nothing without a selected chip. */
  function BiasPart(selected: seq<string>): string {
    if selected != [] then BiasClause(selected) else ""
  }

  /** The runtime hints of the "shorter" and "longer" chips. */
  function ShorterPart(selected: seq<string>): string {
    if selected != [] && "shorter" in selected then ShorterHint else ""
  }

  function LongerPart(selected: seq<string>): string {
    if selected != [] && "longer" in selected then LongerHint else ""
  }

  /** The closing clause: at most ten disliked titles. */
  function AvoidPart(disliked: seq<string>): string {
    if disliked == [] then "" else AvoidClause(Take(disliked, 10))
  }

  /** Only the most recent thumbs count: earlier thumbs change nothing once
      there are six later "up" and ten later "down" ones. */
  lemma ThumbsRecentOnly(older: seq<Feedback>, recent: seq<Feedback>)
    requires |WithSignal(recent, Up)| >= 6 && |WithSignal(recent, Down)| >= 10
    ensures LikePart(true, older + recent) == LikePart(true, recent)
    ensures DownPart(true, older + recent) == DownPart(true, recent)
  {
    WithSignalAppend(older, recent, Up);
    WithSignalAppend(older, recent, Down);
    LastAppend(WithSignal(older, Up), WithSignal(recent, Up), 6);
    LastAppend(WithSignal(older, Down), WithSignal(recent, Down), 10);
  }

  lemma LastAppend(a: seq<Feedback>, b: seq<Feedback>, n: nat)
    requires |b| >= n
    ensures Last(a + b, n) == Last(b, n)
  {
    assert (a + b)[|a + b| - n..] == b[|b| - n..];
  }

  /** The avoid clause names at most the first ten disliked titles. */
  lemma AvoidFirstTen(disliked: seq<string>)
    requires |disliked| > 10
    ensures AvoidPart(disliked) == AvoidPart(disliked[..10])
  {
  }

  /** The prompt of `fetchRecs`, built clause by clause. */
  method ComposePrompt(prompt: string, vertical: string, refine: bool, fs: seq<Feedback>,
                       selected: seq<string>, disliked: seq<string>) returns (p: string)
    ensures p == BasePrompt(prompt, vertical) + LikePart(refine, fs) + DownPart(refine, fs) +
                 BiasPart(selected) + ShorterPart(selected) + LongerPart(selected) + AvoidPart(disliked)
  {
    p := Trim(prompt);
    if p == [] {
      p := "Find 5 popular " + vertical;
    }
    p := AddThumbs(p, refine, fs);
    p := AddChips(p, selected);
    if disliked != [] {
      p := p + AvoidClause(Take(disliked, 10));
    }
  }

  /** The refine-mode clauses: the liked titles, then the disliked ones. */
  method AddThumbs(p0: string, refine: bool, fs: seq<Feedback>) returns (p: string)
    ensures p == p0 + LikePart(refine, fs) + DownPart(refine, fs)
  {
    p := p0;
    if refine && fs != [] {
      var ups := Last(WithSignal(fs, Up), 6);
      if ups != [] {
        p := p + LikeClause(Labels(ups));
      }
      var downs := Last(WithSignal(fs, Down), 10);
      if downs != [] {
        p := p + AvoidClause(Labels(downs));
      }
    }
  }

  /** The chip clauses: the bias toward the chips' labels, then the
      runtime hints. */
  method AddChips(p0: string, selected: seq<string>) returns (p: string)
    ensures p == p0 + BiasPart(selected) + ShorterPart(selected) + LongerPart(selected)
  {
    if selected == [] {
      return p0;
    }
    p := p0 + BiasClause(selected);
    ghost var p1 := p;
    if "shorter" in selected {
      p := p + ShorterHint;
    }
    assert p == p1 + ShorterPart(selected);
    ghost var p2 := p;
    if "longer" in selected {
      p := p + LongerHint;
    }
    assert p == p2 + LongerPart(selected);
  }

  // ---------- the component ----------

  /** How a request to `/api/recs` ended: a non-2xx answer with its text,
      a thrown error with its message, or the items. */
  datatype Outcome = NotOk(status: int, text: string) | Threw(message: string) | Answered(items: seq<Item>)

  /** The component's state variables; `nudgeShown` is the ref that keeps
      the sign-in nudge to one appearance. */
  datatype State = State(
    vertical: string,
    prompt: string,
    items: seq<Item>,
    loading: bool,
    error: Option<string>,
    feedback: seq<Feedback>,
    showNudge: bool,
    nudgeShown: bool,
    selected: seq<string>)

  /** The mount effect's test: a truthy `autoRunQuery` and a query or a
      vertical, a missing vertical counting as "movies". */
  predicate AutoRuns(autoRunQuery: bool, initialQuery: Option<string>, initialVertical: Option<string>)
    ensures AutoRuns(autoRunQuery, initialQuery, initialVertical) ==> autoRunQuery
    ensures autoRunQuery && initialVertical.None? ==> AutoRuns(autoRunQuery, initialQuery, initialVertical)
    ensures initialVertical == Some("") ==>
      (AutoRuns(autoRunQuery, initialQuery, initialVertical) <==> autoRunQuery && Initial(initialQuery, initialVertical).prompt != "")
  {
    autoRunQuery &&
    ((initialQuery.Some? && initialQuery.value != "") ||
     initialVertical.None? || initialVertical.value != "")
  }

  /** The nudge is on screen only once it has been shown. */
  predicate Valid(s: State) {
    s.showNudge ==> s.nudgeShown
  }

  /** The state on first render: the props, with "movies" and "" standing
      in for a missing or empty vertical and query. */
  function Initial(initialQuery: Option<string>, initialVertical: Option<string>): (s: State)
    ensures Valid(s) && s.feedback == [] && s.selected == [] && !s.nudgeShown
    ensures s.items == [] && !s.loading && s.error.None?
    ensures s.vertical != ""
    ensures initialVertical.Some? && initialVertical.value != "" ==> s.vertical == initialVertical.value
    ensures initialQuery.Some? ==> s.prompt == initialQuery.value
    ensures initialQuery.None? ==> s.prompt == ""
  {
    State(if initialVertical.Some? && initialVertical.value != "" then initialVertical.value else "movies",
          if initialQuery.Some? then initialQuery.value else "",
          [], false, None, [], false, false, [])
  }

  /** The thumb `recordFeedback(item, signal)` appends. */
  function EntryFor(item: Item, signal: Signal): Feedback {
    Feedback(item.id, item.title, item.year, signal)
  }

  /** `recordFeedback`: one entry more, and the nudge the first time. */
  function Recorded(s: State, item: Item, signal: Signal): (t: State)
    ensures t.feedback == s.feedback + [EntryFor(item, signal)]
    ensures t.nudgeShown
    ensures s.nudgeShown ==> t.showNudge == s.showNudge
    ensures !s.nudgeShown ==> t.showNudge
    ensures t.items == s.items && t.selected == s.selected && t.prompt == s.prompt
  {
    var t := s.(feedback := s.feedback + [EntryFor(item, signal)]);
    if s.nudgeShown then t else t.(nudgeShown := true, showNudge := true)
  }

  /** The nudge appears at most once: after it has been shown, recording
      more thumbs never brings it back. */
  lemma NudgeOnce(s: State, item: Item, signal: Signal)
    requires s.nudgeShown && !s.showNudge
    ensures !Recorded(s, item, signal).showNudge
    ensures Valid(Recorded(s, item, signal))
  {
  }

  /** The text of a failed request: the answer's text or "HTTP {status}",
      or the thrown message, or the default. */
  function ErrorText(o: Outcome): (e: string)
    requires !o.Answered?
    ensures e != ""
  {
    var m := if o.NotOk? then (if o.text != "" then o.text else "HTTP " + IntToString(o.status)) else o.message;
    if m != "" then m else "Something went wrong."
  }

  /** The end of `fetchRecs`. */
  function Fetched(s: State, o: Outcome): (t: State)
    ensures !t.loading
    ensures o.Answered? ==> t.items == o.items && t.error == s.error
    ensures !o.Answered? ==> t.items == s.items && t.error == Some(ErrorText(o))
    ensures t.feedback == s.feedback && t.selected == s.selected && Valid(s) == Valid(t)
  {
    if o.Answered? then s.(items := o.items, loading := false)
    else s.(error := Some(ErrorText(o)), loading := false)
  }

  /** The prompt `fetchRecs` sends from a state. */
  function PromptFor(s: State, refine: bool): string {
    BasePrompt(s.prompt, s.vertical) + LikePart(refine, s.feedback) + DownPart(refine, s.feedback) +
    BiasPart(s.selected) + ShorterPart(s.selected) + LongerPart(s.selected) +
    AvoidPart(DislikedTitles(s.feedback))
  }

  /** Before any thumb or chip, the prompt is the base prompt alone. */
  lemma FreshPrompt(s: State, refine: bool)
    requires s.feedback == [] && s.selected == []
    ensures PromptFor(s, refine) == BasePrompt(s.prompt, s.vertical)
  {
    assert !Refining(refine, s.feedback);
    assert LikePart(refine, s.feedback) == "" && DownPart(refine, s.feedback) == "";
    assert BiasPart(s.selected) == "" && ShorterPart(s.selected) == "" && LongerPart(s.selected) == "";
    assert DislikedTitles([]) == [];
    assert AvoidPart(DislikedTitles(s.feedback)) == "";
  }

  /** `{ prompt, vertical }`. */
  function RequestBody(prompt: string, vertical: string): Json {
    JObj([("prompt", JStr(prompt)), ("vertical", JStr(vertical))])
  }

  /** The view: its state, updated by its handlers. */
  class View {
    var state: State

    constructor (initialQuery: Option<string>, initialVertical: Option<string>)
      ensures state == Initial(initialQuery, initialVertical)
    {
      state := Initial(initialQuery, initialVertical);
    }

    /** The items shown: the fetched ones without the disliked titles. */
    function Shown(): (r: seq<Item>)
      reads this
      ensures IsSubseq(r, state.items)
      ensures forall i :: 0 <= i < |r| ==> ItemLabel(r[i]) !in DislikedTitles(state.feedback)
    {
      FilteredItems(state.items, DislikedTitles(state.feedback))
    }

    /** The mount effect that loads the session's thumbs. */
    method LoadThumbs(ls: LocalStorage)
      modifies this
      ensures state == old(state).(feedback := LoadFeedback(ls))
    {
      state := state.(feedback := LoadFeedback(ls));
    }

    method SetPrompt(p: string)
      modifies this
      ensures state == old(state).(prompt := p)
    {
      state := state.(prompt := p);
    }

    method SetVertical(v: string)
      modifies this
      ensures state == old(state).(vertical := v)
    {
      state := state.(vertical := v);
    }

    method Toggle(key: string)
      modifies this
      ensures state == old(state).(selected := ToggleChip(old(state).selected, key))
    {
      state := state.(selected := ToggleChip(state.selected, key));
    }

    /** `clearRefinements()`: no chips, no thumbs, nothing stored. */
    method ClearRefinements(ls: LocalStorage)
      modifies this, ls
      ensures state == old(state).(selected := [], feedback := [])
      ensures LoadFeedback(ls) == []
    {
      state := state.(selected := [], feedback := []);
      ClearFeedback(ls);
    }

    /** `recordFeedback(item, signal)`: the new list is kept and stored. */
    method RecordFeedback(ls: LocalStorage, item: Item, signal: Signal)
      modifies this, ls
      ensures state == Recorded(old(state), item, signal)
      ensures ls.hasWindow ==> LoadFeedback(ls) == state.feedback
    {
      var next := state.feedback + [EntryFor(item, signal)];
      state := state.(feedback := next);
      SaveFeedback(ls, next);
      if !state.nudgeShown {
        state := state.(nudgeShown := true, showNudge := true);
      }
    }

    /** The nudge's timer running out. */
    method HideNudge()
      modifies this
      ensures state == old(state).(showNudge := false)
    {
      state := state.(showNudge := false);
    }

    /** `fetchRecs({ mode })` up to the request: returns the body posted. */
    method FetchRecs(refine: bool) returns (body: Json)
      modifies this
      ensures state == old(state).(loading := true, error := None)
      ensures body == RequestBody(PromptFor(old(state), refine), old(state).vertical)
    {
      state := state.(loading := true, error := None);
      var p := ComposePrompt(state.prompt, state.vertical, refine, state.feedback, state.selected,
                             DislikedTitles(state.feedback));
      body := RequestBody(p, state.vertical);
    }

    /** The end of `fetchRecs`. */
    method FinishFetch(o: Outcome)
      modifies this
      ensures state == Fetched(old(state), o)
    {
      state := Fetched(state, o);
    }
  }
}
