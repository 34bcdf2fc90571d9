/** The top-level component's token counters: free searches and paid
    tokens, kept in `localStorage` and adjusted by sign-in and sign-out. */
module AppTokens {
  import opened Base
  import opened Browser

  const FreeKey := "rekomendr_freeTokens"
  const BalanceKey := "rekomendr_tokenBalance"

  /** The free searches of an anonymous visitor, and the sign-in bonus. */
  const AnonymousFree: int := 3
  const SignInBonus: int := 3

  /** A counter as first read: `parseInt` of the stored text, or the
      default when nothing is stored. */
  function Stored(stored: Option<string>, absent: int): (x: JsNumber)
    ensures stored.None? ==> x == Num(absent)
  {
    if stored.Some? then ParseIntJs(stored.value) else Num(absent)
  }

  /** What was written is what the next load reads, NaN included. */
  lemma StoredRoundTrip(x: JsNumber, absent: int)
    ensures Stored(Some(NumberToString(x)), absent) == x
  {
    ParseIntOfNumberToString(x);
  }

  /** The `SIGNED_IN` update: three more free searches for a count of at
      most three, any other count (NaN included) unchanged. */
  function AfterSignIn(prev: JsNumber): (n: JsNumber)
    ensures prev.Num? && prev.i <= AnonymousFree ==> n.Num? && n.i == prev.i + SignInBonus
    ensures !(prev.Num? && prev.i <= AnonymousFree) ==> n == prev
  {
    if prev.Num? && prev.i <= AnonymousFree then Num(prev.i + SignInBonus) else prev
  }

  /** Signing in again grants nothing more once the visitor had a free
      search left: the bonus only repeats for a count at or below zero. */
  lemma SignInSettles(prev: JsNumber)
    ensures AfterSignIn(AfterSignIn(prev)) == AfterSignIn(prev) <==> !(prev.Num? && prev.i <= 0)
  {
  }

  /** The counters, the user and the storage they are kept in. */
  class Wallet {
    var signedIn: bool
    var freeTokens: JsNumber
    var tokenBalance: JsNumber
    const ls: LocalStorage

    /** The persistence effects have run: storage holds both counters. */
    predicate Persisted()
      reads this, ls
    {
      ls.GetItem(FreeKey) == Some(NumberToString(freeTokens)) &&
      ls.GetItem(BalanceKey) == Some(NumberToString(tokenBalance))
    }

    /** A reload would start from the counters as they are now. */
    lemma ReloadKeeps()
      requires Persisted()
      ensures Stored(ls.GetItem(FreeKey), AnonymousFree) == freeTokens
      ensures Stored(ls.GetItem(BalanceKey), 0) == tokenBalance
    {
      StoredRoundTrip(freeTokens, AnonymousFree);
      StoredRoundTrip(tokenBalance, 0);
    }

    /** First render: no user, counters read from storage (3 free and no
        paid tokens when absent), then written back by the effects. */
    constructor (ls: LocalStorage)
      modifies ls
      ensures this.ls == ls && !signedIn
      ensures freeTokens == Stored(old(ls.GetItem(FreeKey)), AnonymousFree)
      ensures tokenBalance == Stored(old(ls.GetItem(BalanceKey)), 0)
      ensures Persisted()
      ensures ls.items == old(ls.items)[FreeKey := NumberToString(freeTokens)][BalanceKey := NumberToString(tokenBalance)]
    {
      this.ls := ls;
      signedIn := false;
      freeTokens := Stored(ls.GetItem(FreeKey), AnonymousFree);
      tokenBalance := Stored(ls.GetItem(BalanceKey), 0);
      new;
      ls.SetItem(FreeKey, NumberToString(freeTokens));
      ls.SetItem(BalanceKey, NumberToString(tokenBalance));
    }

    /** `setFreeTokens(x)` followed by its persistence effect. */
    method SetFreeTokens(x: JsNumber)
      requires Persisted()
      modifies this, ls
      ensures freeTokens == x && tokenBalance == old(tokenBalance) && signedIn == old(signedIn)
      ensures ls.items == old(ls.items)[FreeKey := NumberToString(x)]
      ensures Persisted()
    {
      freeTokens := x;
      ls.SetItem(FreeKey, NumberToString(x));
    }

    /** `setTokenBalance(x)` followed by its persistence effect. */
    method SetTokenBalance(x: JsNumber)
      requires Persisted()
      modifies this, ls
      ensures tokenBalance == x && freeTokens == old(freeTokens) && signedIn == old(signedIn)
      ensures ls.items == old(ls.items)[BalanceKey := NumberToString(x)]
      ensures Persisted()
    {
      tokenBalance := x;
      ls.SetItem(BalanceKey, NumberToString(x));
    }

    /** The mount effect's session check: the user is whoever the stored
        session names, and the counters stay as they are. */
    method RestoreSession(hasUser: bool)
      requires Persisted()
      modifies this
      ensures signedIn == hasUser && freeTokens == old(freeTokens) && tokenBalance == old(tokenBalance)
      ensures Persisted()
    {
      signedIn := hasUser;
    }

    /** The `SIGNED_IN` event. */
    method SignedIn()
      requires Persisted()
      modifies this, ls
      ensures signedIn && freeTokens == AfterSignIn(old(freeTokens)) && tokenBalance == old(tokenBalance)
      ensures Persisted()
    {
      signedIn := true;
      SetFreeTokens(AfterSignIn(freeTokens));
    }

    /** The `SIGNED_OUT` event: no user and three free searches again. */
    method SignedOut()
      requires Persisted()
      modifies this, ls
      ensures !signedIn && freeTokens == Num(AnonymousFree) && tokenBalance == old(tokenBalance)
      ensures Persisted()
    {
      signedIn := false;
      SetFreeTokens(Num(AnonymousFree));
    }
  }
}
