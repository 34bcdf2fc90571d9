/** `/api/seed`: the hard-coded guest recommendations for a vertical. */
module Seed {
  import opened Base
  import opened Json
  import opened Http

  /** One recommendation; wines carry no year. Its blurb is `Blurb(id)`. */
  datatype Rec = Rec(id: string, title: string, year: Option<string>)

  const Movies: seq<Rec> := [
    Rec("casablanca", "Casablanca", Some("1942")),
    Rec("parasite", "Parasite", Some("2019")),
    Rec("madmax-furyroad", "Mad Max: Fury Road", Some("2015")),
    Rec("spirited-away", "Spirited Away", Some("2001")),
    Rec("zodiac", "Zodiac", Some("2007"))
  ]

  const Tv: seq<Rec> := [
    Rec("succession", "Succession", Some("2018–2023")),
    Rec("better-call-saul", "Better Call Saul", Some("2015–2022")),
    Rec("the-wire", "The Wire", Some("2002–2008")),
    Rec("dark", "Dark", Some("2017–2020")),
    Rec("the-office", "The Office", Some("2005–2013"))
  ]

  const Wine: seq<Rec> := [
    Rec("cali-cab", "California Cabernet Sauvignon", None),
    Rec("sancerre", "Sancerre Sauvignon Blanc", None),
    Rec("rioja-crianza", "Rioja Crianza", None),
    Rec("pinot-noir", "Oregon Pinot Noir", None),
    Rec("aussie-shiraz", "Barossa Valley Shiraz", None)
  ]

  const Books: seq<Rec> := [
    Rec("midnight-library", "The Midnight Library", Some("2020")),
    Rec("educated", "Educated", Some("2018")),
    Rec("dune", "Dune", Some("1965")),
    Rec("circe", "Circe", Some("2018")),
    Rec("atomic-habits", "Atomic Habits", Some("2018"))
  ]

  /** The one-line blurb of each recommendation, by id. */
  function Blurb(id: string): string {
    match id
    case "casablanca" => "Classic romance and intrigue in WWII Morocco, with unforgettable lines and timeless chemistry."
    case "parasite" => "Bong Joon-ho’s genre-bending masterpiece about class tension, sharp wit, and shocking twists."
    case "madmax-furyroad" => "A relentless, visually stunning action spectacle that redefined blockbuster filmmaking."
    case "spirited-away" => "Hayao Miyazaki’s magical coming-of-age story, brimming with heart and imagination."
    case "zodiac" => "David Fincher’s chilling, obsessive chronicle of the Zodiac killer investigation."
    case "succession" => "Darkly funny and brutally sharp drama about a dysfunctional media dynasty."
    case "better-call-saul" => "A brilliant slow-burn prequel to Breaking Bad, mixing legal drama and moral collapse."
    case "the-wire" => "Gritty, layered exploration of Baltimore through cops, dealers, and institutions."
    case "dark" => "German sci-fi mystery weaving time travel and family secrets into an intricate puzzle."
    case "the-office" => "Lovably awkward mockumentary sitcom about everyday chaos in a paper company."
    case "cali-cab" => "Bold and fruit-forward with ripe blackberry and cassis; smooth oak finish."
    case "sancerre" => "Crisp, mineral-driven white from the Loire Valley, with citrus and flinty notes."
    case "rioja-crianza" => "Balanced Spanish red with bright cherry fruit and subtle vanilla from oak aging."
    case "pinot-noir" => "Elegant and silky with red berry flavors and earthy undertones; versatile pairing wine."
    case "aussie-shiraz" => "Big, spicy Australian red bursting with blackberry, pepper, and mocha notes."
    case "midnight-library" => "Matt Haig’s moving tale of regrets, possibilities, and choosing to live fully."
    case "educated" => "Tara Westover’s memoir of resilience and self-invention, from survivalist roots to academia."
    case "dune" => "Frank Herbert’s epic sci-fi saga of politics, prophecy, and ecology on desert planet Arrakis."
    case "circe" => "Madeline Miller’s lyrical retelling of Greek myth from the witch Circe’s perspective."
    case "atomic-habits" => "James Clear’s practical framework for building better habits and breaking bad ones."
    case _ => ""
  }

  /** `SEEDS`: the table's own keys and their lists. */
  const Seeds: map<string, seq<Rec>> := map["movies" := Movies, "tv" := Tv, "wine" := Wine, "books" := Books]

  /** No two recommendations of a list share an id. */
  predicate UniqueIds(s: seq<Rec>) {
    forall i, j :: 0 <= i < j < |s| ==> s[i].id != s[j].id
  }

  /** Every vertical of the table offers five recommendations with
      distinct ids. */
  lemma SeedsWellFormed()
    ensures Seeds.Keys == {"movies", "tv", "wine", "books"}
    ensures forall v :: v in Seeds ==> |Seeds[v]| == 5 && UniqueIds(Seeds[v])
  {
    assert UniqueIds(Movies);
    assert UniqueIds(Tv);
    assert UniqueIds(Wine);
    assert UniqueIds(Books);
  }

  /** `v`: the `v` parameter lower-cased when it was given once, else "". */
  function Vertical(v: Option<QueryParam>): (r: string)
    ensures forall i :: 0 <= i < |r| ==> !('A' <= r[i] <= 'Z')
    ensures v.None? || v.value.Params? ==> r == ""
    ensures v.Some? && v.value.Param? ==> |r| == |v.value.s|
  {
    if v.Some? && v.value.Param? then ToLower(v.value.s) else ""
  }

  /** A vertical is found whatever the case of the letters it is asked
      for in. */
  lemma VerticalIgnoresCase(s: string)
    requires ToLower(s) in Seeds
    ensures Vertical(Some(Param(s))) in Seeds && Seeds[Vertical(Some(Param(s)))] == Seeds[ToLower(s)]
  {
  }

  /** A recommendation as sent: `year` is left out when undefined. */
  function RecJson(r: Rec): Json {
    JObj([("id", JStr(r.id)), ("title", JStr(r.title))] +
         Defined("year", if r.year.Some? then Some(JStr(r.year.value)) else None) +
         [("blurb", JStr(Blurb(r.id)))])
  }

  function RecsJson(rs: seq<Rec>): (j: Json)
    ensures j.JArr? && |j.items| == |rs|
  {
    JArr(seq(|rs|, i requires 0 <= i < |rs| => RecJson(rs[i])))
  }

  // ---------- the lookup, as written ----------

  /** The members every plain object inherits from `Object.prototype`:
      functions, and `__proto__`, the prototype object itself. */
  const InheritedFunctions: set<string> := {
    "constructor", "hasOwnProperty", "isPrototypeOf", "propertyIsEnumerable", "toString",
    "valueOf", "toLocaleString", "__defineGetter__", "__defineSetter__", "__lookupGetter__",
    "__lookupSetter__"}

  /** What `SEEDS[v]` reads on the plain object: an own list, an inherited
      function, the prototype object, or `undefined`. */
  datatype Property = OwnList(recs: seq<Rec>) | InheritedFunction | Prototype | Undefined

  function PropertyAsWritten(v: string): (p: Property)
    ensures v in Seeds <==> p.OwnList?
    ensures p.OwnList? ==> p.recs == Seeds[v]
  {
    if v in Seeds then OwnList(Seeds[v])
    else if v in InheritedFunctions then InheritedFunction
    else if v == "__proto__" then Prototype
    else Undefined
  }

  /** `{ items: SEEDS[v] ?? [] }` after `JSON.stringify`: a function-valued
      field is dropped and the prototype object is written as `{}`. */
  function ReplyAsWritten(v: string): (j: Json)
    ensures v in Seeds ==> Get(j, "items") == Some(RecsJson(Seeds[v]))
    ensures v !in Seeds && v in InheritedFunctions ==> Get(j, "items") == None
    ensures v !in Seeds && v == "__proto__" ==> Get(j, "items") == Some(JObj([]))
    ensures v !in Seeds && v !in InheritedFunctions && v != "__proto__" ==> Get(j, "items") == Some(JArr([]))
  {
    match PropertyAsWritten(v)
    case OwnList(recs) => JObj([("items", RecsJson(recs))])
    case Undefined => JObj([("items", RecsJson([]))])
    case InheritedFunction => JObj([])
    case Prototype => JObj([("items", JObj([]))])
  }

  /** Lower-casing leaves exactly two inherited names reachable. */
  lemma ReachableInherited(q: QueryParam)
    ensures PropertyAsWritten(Vertical(Some(q))) in {InheritedFunction, Prototype} ==>
      Vertical(Some(q)) in {"constructor", "__proto__"}
  {
    var v := Vertical(Some(q));
    assert "hasOwnProperty"[3] == 'O' && "isPrototypeOf"[2] == 'P' && "propertyIsEnumerable"[8] == 'I';
    assert "toString"[2] == 'S' && "valueOf"[5] == 'O' && "toLocaleString"[2] == 'L';
    assert "__defineGetter__"[8] == 'G' && "__defineSetter__"[8] == 'S';
    assert "__lookupGetter__"[8] == 'G' && "__lookupSetter__"[8] == 'S';
  }

  /** A parameter with no upper-case letter is taken as it is. */
  lemma LowerKept(s: string)
    requires forall i :: 0 <= i < |s| ==> !('A' <= s[i] <= 'Z')
    ensures Vertical(Some(Param(s))) == s
  {
  }

  lemma ConstructorLowered()
    ensures Vertical(Some(Param("constructor"))) == "constructor"
  {
    LowerKept("constructor");
  }

  lemma ProtoLowered()
    ensures Vertical(Some(Param("__proto__"))) == "__proto__"
  {
    LowerKept("__proto__");
  }

  /** The inherited members' replies: no `items`, or `items` as `{}`. */
  lemma InheritedReplies()
    ensures Get(ReplyAsWritten("constructor"), "items") == None
    ensures Get(ReplyAsWritten("__proto__"), "items") == Some(JObj([]))
  {
    ConstructorInherited();
    ProtoInherited();
  }

  /** `?v=constructor` gets a reply with no `items` at all, and
      `?v=__proto__` one whose `items` is an object, not a list. */
  lemma InheritedKeysBreakReply()
    ensures Get(ReplyAsWritten(Vertical(Some(Param("constructor")))), "items") == None
    ensures Get(ReplyAsWritten(Vertical(Some(Param("__proto__")))), "items") == Some(JObj([]))
  {
    ConstructorLowered();
    ProtoLowered();
    InheritedReplies();
  }

  lemma ConstructorInherited()
    ensures PropertyAsWritten("constructor") == InheritedFunction
  {
  }

  lemma ProtoInherited()
    ensures PropertyAsWritten("__proto__") == Prototype
  {
  }

  // ---------- the lookup, own keys only ----------

  /** The list for a vertical: its own list in the table, else none. */
  function Items(v: string): (r: seq<Rec>)
    ensures v !in Seeds ==> r == []
    ensures v in Seeds ==> |r| == 5 && UniqueIds(r)
  {
    SeedsWellFormed();
    if v in Seeds then Seeds[v] else []
  }

  /** `{ items }`. */
  function Reply(v: string): (j: Json)
    ensures Get(j, "items") == Some(RecsJson(Items(v)))
  {
    JObj([("items", RecsJson(Items(v)))])
  }

  /** The two lookups agree on every name but the inherited ones. */
  lemma LookupsAgree(v: string)
    requires v !in InheritedFunctions && v != "__proto__"
    ensures ReplyAsWritten(v) == Reply(v)
  {
  }

  /** The route: always 200 with the table looked up as written. For
      every vertical but `constructor` and `__proto__` that is the
      vertical's list, empty for an unknown or missing vertical. */
  method Handle(req: Request, res: Response)
    modifies res
    ensures res.status == 200 && res.headers == old(res.headers)
    ensures var v := Vertical(if "v" in req.query then Some(req.query["v"]) else None);
      res.payload == Sent(ReplyAsWritten(v)) &&
      (v != "constructor" && v != "__proto__" ==> ReplyAsWritten(v) == Reply(v))
  {
    var p := if "v" in req.query then Some(req.query["v"]) else None;
    var v := Vertical(p);
    OnlyTwoInherited(p);
    res.Send(200, ReplyAsWritten(v));
  }

  /** Every vertical the route can be asked for but two is looked up as
      an own key. */
  lemma OnlyTwoInherited(p: Option<QueryParam>)
    ensures var v := Vertical(p);
      v != "constructor" && v != "__proto__" ==> ReplyAsWritten(v) == Reply(v)
  {
    var v := Vertical(p);
    if p.Some? {
      ReachableInherited(p.value);
    }
    if v != "constructor" && v != "__proto__" {
      assert PropertyAsWritten(v) !in {InheritedFunction, Prototype};
      LookupsAgree(v);
    }
  }
}
