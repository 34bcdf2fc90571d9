/** The client-side beta unlocks: two flags and an optional e-mail address
    kept as one JSON record in `localStorage`. */
module BetaUnlock {
  import opened Base
  import opened Json
  import opened Browser

  const Key: string := "rex_beta_status_v1"

  /** `email` holds whatever the stored record carried under that name. */
  datatype BetaStatus = BetaStatus(beta1: bool, beta2: bool, email: Option<Json>)

  const NoBeta: BetaStatus := BetaStatus(false, false, None)

  /** The record read from parsed text: flags by truthiness. A parsed `null`
      makes the property reads throw, which is caught and gives the default;
      any other non-object has no properties, which gives the default too. */
  function StatusOf(parsed: Json): (s: BetaStatus)
    ensures s.beta1 <==> TruthyOpt(Get(parsed, "beta1"))
    ensures s.beta2 <==> TruthyOpt(Get(parsed, "beta2"))
    ensures s.email == Get(parsed, "email")
    ensures !parsed.JObj? ==> s == NoBeta
  {
    BetaStatus(TruthyOpt(Get(parsed, "beta1")), TruthyOpt(Get(parsed, "beta2")), Get(parsed, "email"))
  }

  /** `read()`: the stored record, or no unlocks when there is no window, no
      entry, an empty entry or text that does not parse. */
  function Read(ls: LocalStorage): (s: BetaStatus)
    reads ls
    ensures !ls.hasWindow || Key !in ls.items || ls.items[Key] == "" ==> s == NoBeta
    ensures ls.hasWindow && Key in ls.items && Parse(ls.items[Key]).None? ==> s == NoBeta
    ensures ls.hasWindow && Key in ls.items && Parse(ls.items[Key]).Some? ==>
      s == StatusOf(Parse(ls.items[Key]).value)
  {
    if !ls.hasWindow then NoBeta
    else
      var raw := ls.GetItemOr(Key, "");
      if raw == "" then NoBeta
      else
        match Parse(raw)
        case None => NoBeta
        case Some(parsed) => StatusOf(parsed)
  }

  /** `JSON.stringify(status)`: an absent e-mail leaves no property. */
  function StatusJson(s: BetaStatus): (j: Json)
    ensures StatusOf(j) == s
  {
    var fs := [("beta1", JBool(s.beta1)), ("beta2", JBool(s.beta2))];
    assert Lookup(fs, "beta1") == Some(JBool(s.beta1)) && Lookup(fs, "email") == None by {
      assert fs[..1] == [("beta1", JBool(s.beta1))];
    }
    if s.email.Some? then
      var gs := fs + [("email", s.email.value)];
      assert gs[..2] == fs;
      JObj(gs)
    else
      JObj(fs)
  }

  /** `write(status)`. */
  method Write(ls: LocalStorage, s: BetaStatus)
    modifies ls
    ensures !ls.hasWindow ==> ls.items == old(ls.items)
    ensures ls.hasWindow ==> ls.items == old(ls.items)[Key := Stringify(StatusJson(s))]
    ensures Read(ls) == (if ls.hasWindow then s else NoBeta)
  {
    if !ls.hasWindow {
      return;
    }
    ls.SetItem(Key, Stringify(StatusJson(s)));
    ParseStringify(StatusJson(s));
  }

  /** `getBetaStatus()`. */
  function GetBetaStatus(ls: LocalStorage): (s: BetaStatus)
    reads ls
    ensures s == Read(ls)
  {
    Read(ls)
  }

  /** The status after the first unlock. */
  function Granted1(s: BetaStatus): (r: BetaStatus)
    ensures r.beta1 && r.beta2 == s.beta2 && r.email == s.email
  {
    s.(beta1 := true)
  }

  /** The status after the second unlock: the e-mail is recorded only by
      the grant that sets the flag, and only when it is not empty. */
  function Granted2(s: BetaStatus, email: Option<string>): (r: BetaStatus)
    ensures r.beta2 && r.beta1 == s.beta1
    ensures s.beta2 ==> r == s
    ensures !s.beta2 && email.Some? && email.value != "" ==> r.email == Some(JStr(email.value))
    ensures !(email.Some? && email.value != "") ==> r.email == s.email
  {
    if s.beta2 then s
    else s.(beta2 := true, email := if email.Some? && email.value != "" then Some(JStr(email.value)) else s.email)
  }

  /** Granting twice is granting once, whatever e-mail the second grant
      brings. */
  lemma GrantIdempotent(s: BetaStatus, e1: Option<string>, e2: Option<string>)
    ensures Granted1(Granted1(s)) == Granted1(s)
    ensures Granted2(Granted2(s, e1), e2) == Granted2(s, e1)
  {
  }

  /** `grantBeta1()`: stores the unlock only when it is new. */
  method GrantBeta1(ls: LocalStorage) returns (s: BetaStatus)
    modifies ls
    ensures s == Granted1(old(Read(ls)))
    ensures old(Read(ls)).beta1 ==> ls.items == old(ls.items)
    ensures !old(Read(ls)).beta1 && ls.hasWindow ==> ls.items == old(ls.items)[Key := Stringify(StatusJson(s))]
    ensures ls.hasWindow ==> Read(ls) == s
  {
    s := Read(ls);
    if !s.beta1 {
      s := s.(beta1 := true);
      Write(ls, s);
    }
  }

  /** `grantBeta2(email?)`: stores the unlock, with the e-mail, only when it
      is new. */
  method GrantBeta2(ls: LocalStorage, email: Option<string>) returns (s: BetaStatus)
    modifies ls
    ensures s == Granted2(old(Read(ls)), email)
    ensures old(Read(ls)).beta2 ==> ls.items == old(ls.items)
    ensures !old(Read(ls)).beta2 && ls.hasWindow ==> ls.items == old(ls.items)[Key := Stringify(StatusJson(s))]
    ensures ls.hasWindow ==> Read(ls) == s
  {
    s := Read(ls);
    if !s.beta2 {
      s := s.(beta2 := true);
      if email.Some? && email.value != "" {
        s := s.(email := Some(JStr(email.value)));
      }
      Write(ls, s);
    }
  }

  /** `clearBetaForDev()`: both unlocks are gone. */
  method ClearBetaForDev(ls: LocalStorage)
    modifies ls
    ensures !ls.hasWindow ==> ls.items == old(ls.items)
    ensures ls.hasWindow ==> ls.items == old(ls.items) - {Key}
    ensures Read(ls) == NoBeta
  {
    if ls.hasWindow {
      ls.RemoveItem(Key);
    }
  }
}
