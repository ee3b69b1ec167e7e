/** The seeding effect of src/providers/StocksProvider.tsx: when the watch
    list is empty and nothing is stored under `"stock_data"`, add every
    configured default symbol.

    The provider mounts the streaming store (FinnhubWebSocket) and declares
    its own effect after it. React runs the effects of one component in
    declaration order, so on mount the store's storage effect has already
    written the (empty) watch list when the seeding effect reads storage.
    `Mount` models that order; `MountSeedingFirstVisit` decides on the
    storage as it was before mounting, which is what the effect is for. */
module StocksProvider {
  import opened Wrappers
  import opened Records
  import opened StockTypes
  import opened Text
  import opened FinnhubWebSocket
  import opened Layout

  /** `(env || '').split(',').map(sym => sym.trim()).filter(sym => sym.length > 0)`:
      the pieces of Layout's list that are not empty, in order. */
  function ParseDefaultSymbols(env: Option<string>): (symbols: seq<Symbol>)
    ensures env.None? ==> symbols == []
    ensures forall x :: x in symbols <==> x in DefaultSymbols(env) && |x| > 0
    ensures forall i :: 0 <= i < |symbols| ==>
              |symbols[i]| > 0 && Trimmed(symbols[i]) && ',' !in symbols[i]
  {
    PiecesOfUnset(env);
    KeptPieces(DefaultSymbols(env));
    KeepNonEmpty(TrimAll(Split(env.GetOr(""), ',')))
  }

  /** An unset variable reads as `''`, which splits into one empty piece,
      and that piece is filtered out; a set one splits as in Layout. */
  lemma PiecesOfUnset(env: Option<string>)
    ensures TrimAll(Split(env.GetOr(""), ',')) == (if env.None? then [""] else DefaultSymbols(env))
    ensures KeepNonEmpty([""]) == []
  {
    if env.None? {
      assert Trim("") == "";
    }
    assert [""][1..] == [];
  }

  /** Filtering keeps the properties every piece has. */
  lemma KeptPieces(pieces: seq<Symbol>)
    requires forall i :: 0 <= i < |pieces| ==> Trimmed(pieces[i]) && ',' !in pieces[i]
    ensures var kept := KeepNonEmpty(pieces);
            forall i :: 0 <= i < |kept| ==> Trimmed(kept[i]) && ',' !in kept[i]
  {
    var kept := KeepNonEmpty(pieces);
    forall i | 0 <= i < |kept| ensures Trimmed(kept[i]) && ',' !in kept[i] {
      assert kept[i] in pieces;
      var j :| 0 <= j < |pieces| && pieces[j] == kept[i];
    }
  }

  /** The effect's condition: `Object.keys(stocks).length === 0` and
      `localStorage.getItem("stock_data") == null`. */
  predicate ShouldSeed(stocks: Stocks, storedItem: Option<Stocks>): (seed: bool)
    ensures seed && Wf(stocks) ==> stocks.entries == map[]
    ensures storedItem.Some? ==> !seed
  {
    |stocks.keys| == 0 && storedItem.None?
  }

  /** The `forEach` callback for the symbol at position `i`. */
  method OfferAt(store: StreamingStore, symbols: seq<Symbol>, i: nat, quote: Symbol -> Option<real>, now: int,
                 ghost state0: Stocks, ghost sent0: seq<Control>)
    requires i < |symbols| && store.Valid() && Wf(state0)
    requires store.stocks == ApplyAll(state0, AddActions(FirstNew(symbols[..i], state0.entries.Keys), quote), now)
    requires store.sent == sent0 + Subscriptions(FirstNew(symbols[..i], state0.entries.Keys))
    modifies store
    ensures store.Valid()
    ensures store.stocks == ApplyAll(state0, AddActions(FirstNew(symbols[..i + 1], state0.entries.Keys), quote), now)
    ensures store.sent == sent0 + Subscriptions(FirstNew(symbols[..i + 1], state0.entries.Keys))
  {
    PrefixSnoc(symbols, i);
    OfferNext(store, symbols[i], quote, now, state0, sent0, symbols[..i], symbols[..i + 1]);
  }

  lemma PrefixSnoc(symbols: seq<Symbol>, i: nat)
    requires i < |symbols|
    ensures symbols[..i + 1] == symbols[..i] + [symbols[i]]
  {
  }

  /** `defaultSymbols.forEach(symbol => addSymbol(symbol))`: each symbol is
      offered to the store with no alert and its fetched price; the store
      keeps its own guard, so the list grows by the symbols that are new, in
      order, each with a record holding no alert and its fetched price and
      one subscribe frame, and the records tracked before stay as they were. */
  method AddEach(store: StreamingStore, symbols: seq<Symbol>, quote: Symbol -> Option<real>, now: int)
    requires store.Valid()
    modifies store
    ensures store.Valid()
    ensures store.stocks == ApplyAll(old(store.stocks), AddActions(FirstNew(symbols, old(store.stocks.entries.Keys)), quote), now)
    ensures store.stocks.keys == old(store.stocks.keys) + FirstNew(symbols, old(store.stocks.entries.Keys))
    ensures forall k :: k in store.stocks.entries ==>
              store.stocks.entries[k] == (if k in old(store.stocks.entries) then old(store.stocks.entries)[k]
                                          else NewRecord(k, None, quote(k), now))
    ensures store.sent == old(store.sent) + Subscriptions(FirstNew(symbols, old(store.stocks.entries.Keys)))
  {
    ghost var state0 := store.stocks;
    ghost var sent0 := store.sent;
    assert AddActions([], quote) == [];
    var i := 0;
    while i < |symbols|
      invariant 0 <= i <= |symbols|
      invariant store.Valid()
      invariant store.stocks == ApplyAll(state0, AddActions(FirstNew(symbols[..i], state0.entries.Keys), quote), now)
      invariant store.sent == sent0 + Subscriptions(FirstNew(symbols[..i], state0.entries.Keys))
    {
      OfferAt(store, symbols, i, quote, now, state0, sent0);
      i := i + 1;
    }
    assert symbols[..i] == symbols;
    AddRunRecords(state0, symbols, quote, now);
  }

  /** The effect body, reading `storedItem` as what storage returns at the
      time it runs: it seeds exactly when `ShouldSeed` holds, and then the
      watch list becomes the distinct parsed defaults in order, each with no
      alert and its fetched price. */
  method SeedIfEmpty(store: StreamingStore, storedItem: Option<Stocks>, env: Option<string>,
                     quote: Symbol -> Option<real>, now: int)
    returns (seeded: bool)
    requires store.Valid()
    modifies store
    ensures store.Valid()
    ensures seeded == ShouldSeed(old(store.stocks), storedItem)
    ensures !seeded ==> store.stocks == old(store.stocks) && store.sent == old(store.sent)
    ensures seeded ==>
              && store.stocks.keys == FirstNew(ParseDefaultSymbols(env), {})
              && (forall k :: k in store.stocks.entries ==> store.stocks.entries[k] == NewRecord(k, None, quote(k), now))
              && store.sent == old(store.sent) + Subscriptions(store.stocks.keys)
  {
    if !ShouldSeed(store.stocks, storedItem) {
      return false;
    }
    assert store.stocks.entries.Keys == {};
    AddEach(store, ParseDefaultSymbols(env), quote, now);
    return true;
  }

  /** The provider as written: the store mounts and writes storage, then the
      effect reads storage. Whatever was stored and however many defaults
      are configured, nothing is seeded. */
  method Mount(stored: Option<Stocks>, env: Option<string>, quote: Symbol -> Option<real>, now: int)
    returns (store: StreamingStore, seeded: bool)
    requires stored.Some? ==> Wf(stored.value)
    ensures fresh(store) && store.Valid()
    ensures !seeded
    ensures store.stocks == GetInitialState(stored) && store.sent == []
  {
    store := new StreamingStore(stored);
    seeded := SeedIfEmpty(store, store.storage, env, quote, now);
  }

  /** The provider deciding on the storage as it was before mounting: on a
      first visit (nothing stored) the watch list becomes the distinct
      configured defaults, each with no alert and its fetched price and
      subscribed once; a returning visit keeps what was stored. */
  method MountSeedingFirstVisit(stored: Option<Stocks>, env: Option<string>, quote: Symbol -> Option<real>, now: int)
    returns (store: StreamingStore, seeded: bool)
    requires stored.Some? ==> Wf(stored.value)
    ensures fresh(store) && store.Valid()
    ensures seeded <==> stored.None?
    ensures stored.None? ==>
              && store.stocks.keys == FirstNew(ParseDefaultSymbols(env), {})
              && (forall k :: k in store.stocks.entries ==> store.stocks.entries[k] == NewRecord(k, None, quote(k), now))
              && store.sent == Subscriptions(store.stocks.keys)
    ensures stored.Some? ==> store.stocks == stored.value && store.sent == []
  {
    store := new StreamingStore(stored);
    seeded := SeedIfEmpty(store, stored, env, quote, now);
  }

  /** On a first visit every configured default ends up tracked, and
      nothing else. */
  lemma {:induction false} FirstVisitTracksDefaults(env: Option<string>, x: Symbol)
    ensures x in FirstNew(ParseDefaultSymbols(env), {}) <==> x in DefaultSymbols(env) && |x| > 0
  {
    FirstNewMembership(ParseDefaultSymbols(env), {}, x);
  }
}
