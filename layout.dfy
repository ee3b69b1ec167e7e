/** `handleAddDefaultStocks` of src/components/Layout/Layout.tsx: replace the
    watch list by the configured default symbols, first removing every
    tracked symbol that is not a default, then adding every default that was
    not tracked when the handler started.

    The configured list (`VITE_DEFAULT_STOCK_SYMBOLS`) is the parameter
    `env`, the price fetched for each added symbol is `quote`, and the clock
    is `now`. */
module Layout {
  import opened Wrappers
  import opened Records
  import opened StockTypes
  import opened Text
  import opened FinnhubWebSocket

  /** `env?.split(",").map(s => s.trim()) || []`: one entry per comma-separated
      piece, empty pieces kept, none at all when the variable is unset. */
  function DefaultSymbols(env: Option<string>): (defaults: seq<Symbol>)
    ensures env.None? ==> defaults == []
    ensures env.Some? ==> |defaults| == Occurrences(env.value, ',') + 1
    ensures forall i :: 0 <= i < |defaults| ==> Trimmed(defaults[i]) && ',' !in defaults[i]
    ensures env.Some? ==> forall i :: 0 <= i < |defaults| ==> defaults[i] == Trim(Split(env.value, ',')[i])
  {
    if env.None? then []
    else
      TrimAll(Split(env.value, ','))
  }

  /** A call the handler makes on the store. */
  datatype Call = Remove(symbol: Symbol) | Add(symbol: Symbol)

  /** The first loop's calls: `removeSymbol` for each key not among the
      defaults, in key order. */
  function Removals(keys: seq<Symbol>, defaults: seq<Symbol>): (calls: seq<Call>)
    ensures forall i :: 0 <= i < |calls| ==> calls[i].Remove?
  {
    if keys == [] then []
    else
      var last := keys[|keys| - 1];
      Removals(keys[..|keys| - 1], defaults) + (if last !in defaults then [Remove(last)] else [])
  }

  /** The second loop's calls: `addSymbol` for each default not tracked in
      the snapshot, in list order. */
  function Additions(defaults: seq<Symbol>, tracked: map<Symbol, StockInfo>): (calls: seq<Call>)
    ensures forall i :: 0 <= i < |calls| ==> calls[i].Add?
  {
    if defaults == [] then []
    else
      var last := defaults[|defaults| - 1];
      Additions(defaults[..|defaults| - 1], tracked) + (if last !in tracked then [Add(last)] else [])
  }

  /** All calls of one run, for the watch list as it was when it started:
      every removal is issued before any addition. */
  function Reconcile(snapshot: Stocks, defaults: seq<Symbol>): (calls: seq<Call>)
    ensures forall i, j :: 0 <= i < j < |calls| && calls[i].Add? ==> calls[j].Add?
  {
    Removals(snapshot.keys, defaults) + Additions(defaults, snapshot.entries)
  }

  lemma {:induction false} RemovalCounts(keys: seq<Symbol>, defaults: seq<Symbol>, x: Symbol)
    requires Distinct(keys)
    ensures multiset(Removals(keys, defaults))[Remove(x)] == (if x in keys && x !in defaults then 1 else 0)
    ensures multiset(Removals(keys, defaults))[Add(x)] == 0
  {
    if keys != [] {
      var init := keys[..|keys| - 1];
      assert Distinct(init);
      assert keys[|keys| - 1] !in init;
      assert x in keys <==> x in init || x == keys[|keys| - 1];
      RemovalCounts(init, defaults, x);
    }
  }

  lemma {:induction false} AdditionCounts(defaults: seq<Symbol>, tracked: map<Symbol, StockInfo>, x: Symbol)
    ensures multiset(Additions(defaults, tracked))[Add(x)] == (if x in tracked then 0 else multiset(defaults)[x])
    ensures multiset(Additions(defaults, tracked))[Remove(x)] == 0
  {
    if defaults != [] {
      var init := defaults[..|defaults| - 1];
      assert defaults == init + [defaults[|defaults| - 1]];
      AdditionCounts(init, tracked, x);
    }
  }

  /** Each tracked symbol that is not a default is removed exactly once; a
      tracked default is never removed, an untracked symbol never; each
      default absent from the snapshot is added once per occurrence in the
      list, and a tracked one is never added again. So no symbol is both
      removed and added. */
  lemma ReconcileCallCounts(snapshot: Stocks, defaults: seq<Symbol>, x: Symbol)
    requires Wf(snapshot)
    ensures var calls := Reconcile(snapshot, defaults);
            && multiset(calls)[Remove(x)] == (if x in snapshot.entries && x !in defaults then 1 else 0)
            && multiset(calls)[Add(x)] == (if x in snapshot.entries then 0 else multiset(defaults)[x])
            && !(Remove(x) in calls && Add(x) in calls)
  {
    RemovalCounts(snapshot.keys, defaults, x);
    AdditionCounts(defaults, snapshot.entries, x);
  }

  /** The keys among `keys` that are not defaults. */
  function NonDefaults(keys: seq<Symbol>, defaults: seq<Symbol>): set<Symbol> {
    if keys == [] then {}
    else
      var last := keys[|keys| - 1];
      NonDefaults(keys[..|keys| - 1], defaults) + (if last !in defaults then {last} else {})
  }

  lemma {:induction false} NonDefaultsMembership(keys: seq<Symbol>, defaults: seq<Symbol>, k: Symbol)
    ensures k in NonDefaults(keys, defaults) <==> k in keys && k !in defaults
  {
    if keys != [] {
      var init := keys[..|keys| - 1];
      assert keys == init + [keys[|keys| - 1]];
      NonDefaultsMembership(init, defaults, k);
    }
  }

  /** The keys among `keys` that are defaults, in order. */
  function Kept(keys: seq<Symbol>, defaults: seq<Symbol>): seq<Symbol> {
    if keys == [] then []
    else
      var last := keys[|keys| - 1];
      Kept(keys[..|keys| - 1], defaults) + (if last in defaults then [last] else [])
  }

  lemma {:induction false} KeptMembership(keys: seq<Symbol>, defaults: seq<Symbol>, k: Symbol)
    ensures k in Kept(keys, defaults) <==> k in keys && k in defaults
  {
    if keys != [] {
      var init := keys[..|keys| - 1];
      assert keys == init + [keys[|keys| - 1]];
      KeptMembership(init, defaults, k);
    }
  }

  /** The control frame each call sends when the store accepts it. */
  function Frames(calls: seq<Call>): (msgs: seq<Control>)
    ensures |msgs| == |calls|
    ensures forall i :: 0 <= i < |calls| ==>
              msgs[i] == (if calls[i].Remove? then Unsubscribe(calls[i].symbol) else Subscribe(calls[i].symbol))
  {
    seq(|calls|, i requires 0 <= i < |calls| =>
      if calls[i].Remove? then Unsubscribe(calls[i].symbol) else Subscribe(calls[i].symbol))
  }

  lemma FramesAppend(calls: seq<Call>, more: seq<Call>)
    ensures Frames(calls + more) == Frames(calls) + Frames(more)
  {
  }

  /** With no default named twice, the second loop's calls are exactly the
      additions a guarded run makes, so each call sends its frame. */
  lemma {:induction false} AdditionFrames(defaults: seq<Symbol>, tracked: map<Symbol, StockInfo>)
    requires Distinct(defaults)
    ensures Frames(Additions(defaults, tracked)) == Subscriptions(FirstNew(defaults, tracked.Keys))
  {
    if defaults != [] {
      var init := defaults[..|defaults| - 1];
      var last := defaults[|defaults| - 1];
      assert Distinct(init);
      assert last !in init;
      AdditionFrames(init, tracked);
      FramesAppend(Additions(init, tracked), [Add(last)]);
      SubscriptionsSnoc([], FirstNew(init, tracked.Keys), last);
    }
  }

  /** The watch list the first loop leaves: the defaults among the tracked
      keys, in their order, with their records. */
  ghost function Pruned(snapshot: Stocks, defaults: seq<Symbol>): Stocks {
    Record(Kept(snapshot.keys, defaults), snapshot.entries - NonDefaults(snapshot.keys, defaults))
  }

  lemma {:induction false} KeptDistinct(keys: seq<Symbol>, defaults: seq<Symbol>)
    requires Distinct(keys)
    ensures Distinct(Kept(keys, defaults))
  {
    if keys != [] {
      var init := keys[..|keys| - 1];
      assert Distinct(init);
      KeptDistinct(init, defaults);
      KeptMembership(init, defaults, keys[|keys| - 1]);
    }
  }

  /** Pruning keeps the watch list well formed, and what it keeps tracked
      is exactly the tracked defaults. */
  lemma PrunedWf(snapshot: Stocks, defaults: seq<Symbol>)
    requires Wf(snapshot)
    ensures Wf(Pruned(snapshot, defaults))
    ensures forall k :: k in Pruned(snapshot, defaults).entries <==> k in snapshot.entries && k in defaults
  {
    KeptDistinct(snapshot.keys, defaults);
    forall k ensures k in Pruned(snapshot, defaults).entries <==> k in Kept(snapshot.keys, defaults) {
      KeptMembership(snapshot.keys, defaults, k);
      NonDefaultsMembership(snapshot.keys, defaults, k);
    }
    forall k ensures k in Pruned(snapshot, defaults).entries <==> k in snapshot.entries && k in defaults {
      KeptMembership(snapshot.keys, defaults, k);
    }
  }

  /** The watch list the handler leaves: the pruned one, then an
      `ADD_SYMBOL` with no alert for each default not tracked at the start,
      once each, in list order. */
  ghost function Reconciled(snapshot: Stocks, defaults: seq<Symbol>, quote: Symbol -> Option<real>, now: int): Stocks {
    ApplyAll(Pruned(snapshot, defaults), AddActions(FirstNew(defaults, snapshot.entries.Keys), quote), now)
  }

  /** The watch list after the first loop has visited the first `i` keys of
      `snapshot`: the defaults among them, then the keys not yet visited,
      with the visited non-defaults deleted. */
  ghost function PartlyPruned(snapshot: Stocks, defaults: seq<Symbol>, i: nat): Stocks
    requires i <= |snapshot.keys|
  {
    Record(Kept(snapshot.keys[..i], defaults) + snapshot.keys[i..],
           snapshot.entries - NonDefaults(snapshot.keys[..i], defaults))
  }

  /** Before the first visit the watch list is the snapshot; after the
      last, the defaults remain in order. */
  lemma PartlyPrunedEnds(snapshot: Stocks, defaults: seq<Symbol>)
    ensures PartlyPruned(snapshot, defaults, 0) == snapshot
    ensures PartlyPruned(snapshot, defaults, |snapshot.keys|) == Pruned(snapshot, defaults)
  {
    assert snapshot.keys[..0] == [] && snapshot.keys[0..] == snapshot.keys;
    assert snapshot.entries - {} == snapshot.entries;
    assert snapshot.keys[..|snapshot.keys|] == snapshot.keys;
    assert snapshot.keys[|snapshot.keys|..] == [];
  }

  lemma KeptSnoc(keys: seq<Symbol>, defaults: seq<Symbol>, i: nat)
    requires i < |keys|
    ensures Kept(keys[..i + 1], defaults) == Kept(keys[..i], defaults) + (if keys[i] in defaults then [keys[i]] else [])
    ensures NonDefaults(keys[..i + 1], defaults) == NonDefaults(keys[..i], defaults) + (if keys[i] in defaults then {} else {keys[i]})
  {
    assert keys[..i + 1][..i] == keys[..i];
  }

  /** Deleting the visited non-default from the watch list. */
  lemma PruneDelete(cur: Stocks, kept: seq<Symbol>, rest: seq<Symbol>, symbol: Symbol, now: int)
    requires Wf(cur) && cur.keys == kept + [symbol] + rest
    ensures symbol in cur.entries
    ensures Reduce(cur, RemoveSymbol(symbol), now) == Record(kept + rest, cur.entries - {symbol})
  {
    assert cur.keys[|kept|] == symbol;
    WithoutAt(cur.keys, |kept|);
    assert cur.keys[..|kept|] == kept;
    assert cur.keys[|kept| + 1..] == rest;
  }

  /** Visiting a default leaves the watch list as it is. */
  lemma PruneKeep(snapshot: Stocks, defaults: seq<Symbol>, i: nat)
    requires i < |snapshot.keys| && snapshot.keys[i] in defaults
    ensures PartlyPruned(snapshot, defaults, i + 1) == PartlyPruned(snapshot, defaults, i)
  {
    var keys := snapshot.keys;
    KeptSnoc(keys, defaults, i);
    assert keys[i..] == [keys[i]] + keys[i + 1..];
    assert Kept(keys[..i + 1], defaults) + keys[i + 1..] == Kept(keys[..i], defaults) + keys[i..];
  }

  /** Visiting a non-default: it is tracked at that point, and its
      `REMOVE_SYMBOL` gives the next state. */
  lemma PruneRemove(snapshot: Stocks, defaults: seq<Symbol>, i: nat, now: int)
    requires i < |snapshot.keys| && snapshot.keys[i] !in defaults
    requires Wf(PartlyPruned(snapshot, defaults, i))
    ensures snapshot.keys[i] in PartlyPruned(snapshot, defaults, i).entries
    ensures PartlyPruned(snapshot, defaults, i + 1) == Reduce(PartlyPruned(snapshot, defaults, i), RemoveSymbol(snapshot.keys[i]), now)
  {
    var keys := snapshot.keys;
    var symbol := keys[i];
    var gone := NonDefaults(keys[..i], defaults);
    KeptSnoc(keys, defaults, i);
    assert keys[i..] == [symbol] + keys[i + 1..];
    assert Kept(keys[..i + 1], defaults) == Kept(keys[..i], defaults);
    PruneDelete(PartlyPruned(snapshot, defaults, i), Kept(keys[..i], defaults), keys[i + 1..], symbol, now);
    MinusOneMore(snapshot.entries, gone, symbol);
  }

  lemma MinusOneMore(m: map<Symbol, StockInfo>, gone: set<Symbol>, x: Symbol)
    ensures m - (gone + {x}) == (m - gone) - {x}
  {
  }

  /** The first loop's visit of key `i` of the snapshot. */
  method PruneNext(store: StreamingStore, snapshot: Stocks, defaults: seq<Symbol>, i: nat, now: int,
                   calls: seq<Call>, ghost sent0: seq<Control>)
    returns (calls': seq<Call>)
    requires i < |snapshot.keys|
    requires store.Valid() && store.stocks == PartlyPruned(snapshot, defaults, i)
    requires calls == Removals(snapshot.keys[..i], defaults) && store.sent == sent0 + Frames(calls)
    modifies store
    ensures store.Valid() && store.stocks == PartlyPruned(snapshot, defaults, i + 1)
    ensures calls' == Removals(snapshot.keys[..i + 1], defaults) && store.sent == sent0 + Frames(calls')
  {
    var symbol := snapshot.keys[i];
    RemovalsStep(snapshot.keys, i, defaults);
    calls' := calls;
    if symbol in defaults {
      PruneKeep(snapshot, defaults, i);
    } else {
      PruneRemove(snapshot, defaults, i, now);
      FramesAppend(calls, [Remove(symbol)]);
      calls' := calls + [Remove(symbol)];
      store.RemoveSymbol(symbol, now);
    }
  }

  /** The first loop's calls grow by one `removeSymbol` exactly for a key
      that is not a default. */
  lemma RemovalsStep(keys: seq<Symbol>, i: nat, defaults: seq<Symbol>)
    requires i < |keys|
    ensures Removals(keys[..i + 1], defaults) ==
            Removals(keys[..i], defaults) + (if keys[i] !in defaults then [Remove(keys[i])] else [])
  {
    assert keys[..i + 1][..i] == keys[..i];
  }

  /** The first loop: remove each key of the snapshot that is not a
      default. Each removal is of a tracked key, so each sends its
      unsubscribe frame; the defaults stay in order with their records. */
  method RemoveNonDefaults(store: StreamingStore, snapshot: Stocks, defaults: seq<Symbol>, now: int)
    returns (calls: seq<Call>)
    requires store.Valid() && store.stocks == snapshot
    modifies store
    ensures store.Valid()
    ensures calls == Removals(snapshot.keys, defaults)
    ensures store.stocks == Pruned(snapshot, defaults)
    ensures store.sent == old(store.sent) + Frames(calls)
  {
    ghost var sent0 := store.sent;
    calls := [];
    assert Frames([]) == [];
    PartlyPrunedEnds(snapshot, defaults);
    var i := 0;
    while i < |snapshot.keys|
      invariant 0 <= i <= |snapshot.keys|
      invariant store.Valid() && store.stocks == PartlyPruned(snapshot, defaults, i)
      invariant calls == Removals(snapshot.keys[..i], defaults) && store.sent == sent0 + Frames(calls)
    {
      calls := PruneNext(store, snapshot, defaults, i, now, calls, sent0);
      i := i + 1;
    }
    assert snapshot.keys[..i] == snapshot.keys;
  }

  /** The second loop's visit of default `j`: a default the snapshot
      tracks is skipped, and is tracked still; any other is offered to the
      store. */
  method AddMissingNext(store: StreamingStore, snapshot: Stocks, defaults: seq<Symbol>, j: nat,
                        quote: Symbol -> Option<real>, now: int,
                        calls: seq<Call>, ghost state0: Stocks, ghost sent0: seq<Control>)
    returns (calls': seq<Call>)
    requires j < |defaults| && Wf(state0)
    requires state0.entries == snapshot.entries - NonDefaults(snapshot.keys, defaults)
    requires store.Valid()
    requires calls == Additions(defaults[..j], snapshot.entries)
    requires store.stocks == ApplyAll(state0, AddActions(FirstNew(defaults[..j], state0.entries.Keys), quote), now)
    requires store.sent == sent0 + Subscriptions(FirstNew(defaults[..j], state0.entries.Keys))
    modifies store
    ensures store.Valid()
    ensures calls' == Additions(defaults[..j + 1], snapshot.entries)
    ensures store.stocks == ApplyAll(state0, AddActions(FirstNew(defaults[..j + 1], state0.entries.Keys), quote), now)
    ensures store.sent == sent0 + Subscriptions(FirstNew(defaults[..j + 1], state0.entries.Keys))
  {
    var symbol := defaults[j];
    AdditionsStep(defaults, j, snapshot.entries);
    calls' := calls;
    if symbol !in snapshot.entries {
      calls' := calls + [Add(symbol)];
      OfferNext(store, symbol, quote, now, state0, sent0, defaults[..j], defaults[..j + 1]);
    } else {
      SkipTracked(snapshot, defaults, j, state0);
    }
  }

  /** The second loop's calls grow by one `addSymbol` exactly for a default
      the snapshot does not track. */
  lemma AdditionsStep(defaults: seq<Symbol>, j: nat, tracked: map<Symbol, StockInfo>)
    requires j < |defaults|
    ensures defaults[..j + 1] == defaults[..j] + [defaults[j]]
    ensures Additions(defaults[..j + 1], tracked) ==
            Additions(defaults[..j], tracked) + (if defaults[j] !in tracked then [Add(defaults[j])] else [])
  {
    assert defaults[..j + 1][..j] == defaults[..j];
  }

  /** A default the snapshot tracks survived the first loop, so the run
      adds nothing for it. */
  lemma SkipTracked(snapshot: Stocks, defaults: seq<Symbol>, j: nat, state0: Stocks)
    requires j < |defaults| && defaults[j] in snapshot.entries
    requires state0.entries == snapshot.entries - NonDefaults(snapshot.keys, defaults)
    ensures FirstNew(defaults[..j + 1], state0.entries.Keys) == FirstNew(defaults[..j], state0.entries.Keys)
  {
    var symbol := defaults[j];
    assert defaults[..j + 1] == defaults[..j] + [symbol];
    NonDefaultsMembership(snapshot.keys, defaults, symbol);
    assert symbol in state0.entries;
    FirstNewSnoc(defaults[..j], state0.entries.Keys, symbol);
  }

  /** The second loop: call `addSymbol` for each default that the snapshot
      does not track. The defaults the snapshot tracks are still tracked, so
      the store's guard would refuse them anyway: the run adds the defaults
      not tracked, in order, once each. */
  method AddMissingDefaults(store: StreamingStore, snapshot: Stocks, defaults: seq<Symbol>,
                            quote: Symbol -> Option<real>, now: int)
    returns (calls: seq<Call>)
    requires store.Valid()
    requires store.stocks == Pruned(snapshot, defaults)
    modifies store
    ensures store.Valid()
    ensures calls == Additions(defaults, snapshot.entries)
    ensures store.stocks == ApplyAll(old(store.stocks), AddActions(FirstNew(defaults, old(store.stocks.entries.Keys)), quote), now)
    ensures store.sent == old(store.sent) + Subscriptions(FirstNew(defaults, old(store.stocks.entries.Keys)))
  {
    ghost var state0 := store.stocks;
    ghost var sent0 := store.sent;
    assert AddActions([], quote) == [];
    calls := [];
    var j := 0;
    while j < |defaults|
      invariant 0 <= j <= |defaults|
      invariant store.Valid()
      invariant calls == Additions(defaults[..j], snapshot.entries)
      invariant store.stocks == ApplyAll(state0, AddActions(FirstNew(defaults[..j], state0.entries.Keys), quote), now)
      invariant store.sent == sent0 + Subscriptions(FirstNew(defaults[..j], state0.entries.Keys))
    {
      calls := AddMissingNext(store, snapshot, defaults, j, quote, now, calls, state0, sent0);
      j := j + 1;
    }
    assert defaults[..j] == defaults;
  }

  /** The handler's outcome on a well-formed watch list: exactly the
      defaults are tracked; the defaults tracked before keep their place and
      their records, and the others follow once each, in list order, with
      no alert and their fetched price. */
  lemma ReconciledState(snapshot: Stocks, defaults: seq<Symbol>, quote: Symbol -> Option<real>, now: int, k: Symbol)
    requires Wf(snapshot)
    ensures var r := Reconciled(snapshot, defaults, quote, now);
            && Wf(r)
            && r.keys == Kept(snapshot.keys, defaults) + FirstNew(defaults, snapshot.entries.Keys)
            && (k in r.entries <==> k in defaults)
            && (k in r.entries ==>
                  r.entries[k] == (if k in snapshot.entries then snapshot.entries[k] else NewRecord(k, None, quote(k), now)))
  {
    var pruned := Pruned(snapshot, defaults);
    PrunedWf(snapshot, defaults);
    forall x | x in defaults ensures x in pruned.entries.Keys <==> x in snapshot.entries.Keys {
    }
    FirstNewAgree(defaults, pruned.entries.Keys, snapshot.entries.Keys);
    AddRunEffect(pruned, defaults, quote, now, k);
  }

  /** With no default named twice, every call of a run sends its frame. */
  lemma HandlerFrames(sent: seq<Control>, snapshot: Stocks, defaults: seq<Symbol>)
    ensures Distinct(defaults) ==>
              sent + Frames(Reconcile(snapshot, defaults))
              == sent + Frames(Removals(snapshot.keys, defaults)) + Subscriptions(FirstNew(defaults, snapshot.entries.Keys))
  {
    if Distinct(defaults) {
      AdditionFrames(defaults, snapshot.entries);
      FramesAppend(Removals(snapshot.keys, defaults), Additions(defaults, snapshot.entries));
    }
  }

  /** The two loops of the handler, for the default list `defaults`. Both
      read the watch list as it was when the handler started; the calls go
      to the store, whose own guards apply. The watch list becomes
      `Reconciled` (see `ReconciledState`); one unsubscribe frame goes out
      per removed key and one subscribe frame per added default. */
  method ReplaceByDefaults(store: StreamingStore, defaults: seq<Symbol>, quote: Symbol -> Option<real>, now: int)
    returns (calls: seq<Call>)
    requires store.Valid()
    modifies store
    ensures store.Valid()
    ensures calls == Reconcile(old(store.stocks), defaults)
    ensures store.stocks == Reconciled(old(store.stocks), defaults, quote, now)
    ensures store.sent == old(store.sent) + Frames(Removals(old(store.stocks.keys), defaults))
                          + Subscriptions(FirstNew(defaults, old(store.stocks.entries.Keys)))
    ensures Distinct(defaults) ==> store.sent == old(store.sent) + Frames(calls)
  {
    var snapshot := store.stocks;
    var removals := RemoveNonDefaults(store, snapshot, defaults, now);
    ghost var pruned := store.stocks;
    var additions := AddMissingDefaults(store, snapshot, defaults, quote, now);
    calls := removals + additions;
    PrunedWf(snapshot, defaults);
    forall x | x in defaults ensures x in pruned.entries.Keys <==> x in snapshot.entries.Keys {
    }
    FirstNewAgree(defaults, pruned.entries.Keys, snapshot.entries.Keys);
    HandlerFrames(old(store.sent), snapshot, defaults);
  }

  /** `handleAddDefaultStocks`: the configured list, then the two loops. */
  method HandleAddDefaultStocks(store: StreamingStore, env: Option<string>, quote: Symbol -> Option<real>, now: int)
    returns (calls: seq<Call>)
    requires store.Valid()
    modifies store
    ensures store.Valid()
    ensures calls == Reconcile(old(store.stocks), DefaultSymbols(env))
    ensures store.stocks == Reconciled(old(store.stocks), DefaultSymbols(env), quote, now)
    ensures store.sent == old(store.sent) + Frames(Removals(old(store.stocks.keys), DefaultSymbols(env)))
                          + Subscriptions(FirstNew(DefaultSymbols(env), old(store.stocks.entries.Keys)))
    ensures Distinct(DefaultSymbols(env)) ==> store.sent == old(store.sent) + Frames(calls)
  {
    calls := ReplaceByDefaults(store, DefaultSymbols(env), quote, now);
  }
}
