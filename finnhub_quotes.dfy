/** The polling variant of the store, src/hooks/useFinnhubQuotes.ts: its own
    reducer (with `INIT_FROM_STORAGE`, an unguarded `ADD_SYMBOL`, and an
    `UPDATE_PRICE` that stamps the current second), the storage gate, and
    one pass of the polling loop.

    The clock is the parameter `now`; the quote endpoint's answer for each
    symbol is the parameter `quote`. */
module FinnhubQuotes {
  import opened Wrappers
  import opened Records
  import opened StockTypes

  /** The record `UPDATE_PRICE` puts in place of a tracked one: one more
      point after the unchanged history, stamped with the current second;
      the price becomes the latest price and `lastUpdateTime` is left as it
      was. */
  function Polled(info: StockInfo, price: real, now: int): (info': StockInfo)
    ensures |info'.data| == |info.data| + 1 && info'.data[..|info.data|] == info.data
    ensures info'.data[|info.data|] == DataPoint(price, Seconds(now))
    ensures info'.latestPrice == Some(price)
    ensures info'.lastUpdateTime == info.lastUpdateTime
    ensures info'.symbol == info.symbol && info'.alertPrice == info.alertPrice
    ensures PriceConsistent(info')
  {
    info.(latestPrice := Some(price), data := info.data + [DataPoint(price, Seconds(now))])
  }

  /** `reducer`. */
  function Reduce(state: Stocks, action: Action, now: int): (r: Stocks)
    ensures action.InitFromStorage? ==> r == action.payload
    ensures Wf(state) && (action.InitFromStorage? ==> Wf(action.payload)) ==> Wf(r)
    ensures !action.InitFromStorage? ==>
              forall k :: k != action.symbol ==> Get(r, k) == Get(state, k)
    ensures !action.InitFromStorage? && KeyedBySymbol(state) ==> KeyedBySymbol(r)
    ensures !action.InitFromStorage? && (forall k :: k in state.entries ==> PriceConsistent(state.entries[k])) ==>
              (forall k :: k in r.entries ==> PriceConsistent(r.entries[k]))
  {
    match action
    case InitFromStorage(payload) =>
      payload
    case AddSymbol(symbol, alert, _) =>
      Put(state, symbol, StockInfo(symbol, alert, None, [], None))
    case RemoveSymbol(symbol) =>
      Delete(state, symbol)
    case UpdatePrice(symbol, price, _) =>
      if symbol !in state.entries then state
      else Put(state, symbol, Polled(state.entries[symbol], price, now))
  }

  /** `ADD_SYMBOL` always installs a fresh record with no price and no
      history, so adding a tracked symbol again wipes its history (the key
      keeps its place). */
  lemma AddInstallsFreshRecord(state: Stocks, symbol: Symbol, alert: Option<real>, price: Option<real>, now: int)
    requires Wf(state)
    ensures var r := Reduce(state, AddSymbol(symbol, alert, price), now);
            && Get(r, symbol) == Some(StockInfo(symbol, alert, None, [], None))
            && r.keys == (if symbol in state.entries then state.keys else state.keys + [symbol])
  {
  }

  /** `REMOVE_SYMBOL` deletes that key and only that key. */
  lemma RemoveDeletesOnlyThatKey(state: Stocks, symbol: Symbol, now: int)
    ensures Reduce(state, RemoveSymbol(symbol), now).entries == state.entries - {symbol}
  {
  }

  /** `UPDATE_PRICE` ignores an untracked symbol; for a tracked one it
      appends one point stamped with the current second, sets the latest
      price and changes nothing else (not even `lastUpdateTime`). A supplied
      timestamp makes no difference. */
  lemma UpdateAppendsCurrentSecond(state: Stocks, symbol: Symbol, price: real, timestamp: Option<int>, now: int)
    requires Wf(state)
    ensures var r := Reduce(state, UpdatePrice(symbol, price, timestamp), now);
            && (symbol !in state.entries ==> r == state)
            && (symbol in state.entries ==>
                  && r.keys == state.keys
                  && var before := state.entries[symbol];
                  && r.entries[symbol] == before.(latestPrice := Some(price),
                                                  data := before.data + [DataPoint(price, Seconds(now))]))
            && r == Reduce(state, UpdatePrice(symbol, price, None), now)
  {
  }

  /** Dispatching `actions` in order. */
  function ApplyAll(state: Stocks, actions: seq<Action>, now: int): Stocks
    decreases |actions|
  {
    if actions == [] then state
    else Reduce(ApplyAll(state, actions[..|actions| - 1], now), actions[|actions| - 1], now)
  }

  lemma ApplyAllSnoc(state: Stocks, actions: seq<Action>, a: Action, now: int)
    ensures ApplyAll(state, actions + [a], now) == Reduce(ApplyAll(state, actions, now), a, now)
  {
    assert (actions + [a])[..|actions|] == actions;
  }

  /** How a quote request ended: it threw (network error or a non-2xx
      status), or it answered with a status and a `c` field that is a
      number (`Some`) or is not (`None`). */
  datatype QuoteResponse = Threw | Response(status: int, c: Option<real>)

  /** Only a 200 answer whose `c` is a number yields an update: a request
      that threw, another status, or a `c` that is not a number yields none. */
  predicate Usable(res: QuoteResponse): (usable: bool)
    ensures usable ==> res.Response? && res.c.Some?
    ensures res.Threw? || (res.Response? && res.status != 200) ==> !usable
  {
    res.Response? && res.status == 200 && res.c.Some?
  }

  /** The updates one polling pass over `symbols` dispatches, in order. */
  function PollUpdates(symbols: seq<Symbol>, quote: Symbol -> QuoteResponse): (updates: seq<Action>)
    ensures |updates| <= |symbols|
  {
    if symbols == [] then []
    else
      var last := symbols[|symbols| - 1];
      PollUpdates(symbols[..|symbols| - 1], quote)
        + (if Usable(quote(last)) then [UpdatePrice(last, quote(last).c.value, None)] else [])
  }

  /** The symbols the price updates among `actions` are for, in order. */
  function Targets(actions: seq<Action>): seq<Symbol> {
    if actions == [] then []
    else
      var last := actions[|actions| - 1];
      Targets(actions[..|actions| - 1]) + (if last.UpdatePrice? then [last.symbol] else [])
  }

  /** `a` is an `UPDATE_PRICE` without timestamp for one of `symbols`,
      carrying the price of that symbol's usable answer. */
  ghost predicate IsPolledUpdate(a: Action, symbols: seq<Symbol>, quote: Symbol -> QuoteResponse) {
    && a.UpdatePrice?
    && a.symbol in symbols
    && Usable(quote(a.symbol))
    && a.price == quote(a.symbol).c.value
    && a.timestamp == None
  }

  /** Every update of a pass is a polled update for one of its symbols. */
  lemma {:induction false} PollUpdatesShape(symbols: seq<Symbol>, quote: Symbol -> QuoteResponse)
    ensures forall i :: 0 <= i < |PollUpdates(symbols, quote)| ==> IsPolledUpdate(PollUpdates(symbols, quote)[i], symbols, quote)
  {
    if symbols != [] {
      var init := symbols[..|symbols| - 1];
      var last := symbols[|symbols| - 1];
      PollUpdatesShape(init, quote);
      var before := PollUpdates(init, quote);
      var after := PollUpdates(symbols, quote);
      forall i | 0 <= i < |after| ensures IsPolledUpdate(after[i], symbols, quote) {
        if i < |before| {
          assert after[i] == before[i];
          assert IsPolledUpdate(before[i], init, quote);
        } else {
          assert Usable(quote(last));
          assert after[i] == UpdatePrice(last, quote(last).c.value, None);
        }
      }
    }
  }

  /** A pass dispatches only `UPDATE_PRICE`s, at most one per symbol and
      exactly one for each symbol whose answer is usable, carrying that
      answer's price; a failed request does not stop the others. */
  lemma {:induction false} PollUpdatesPerSymbol(symbols: seq<Symbol>, quote: Symbol -> QuoteResponse, k: Symbol)
    requires Distinct(symbols)
    ensures forall i :: 0 <= i < |PollUpdates(symbols, quote)| ==> IsPolledUpdate(PollUpdates(symbols, quote)[i], symbols, quote)
    ensures multiset(Targets(PollUpdates(symbols, quote)))[k] == (if k in symbols && Usable(quote(k)) then 1 else 0)
  {
    PollUpdatesShape(symbols, quote);
    if symbols != [] {
      var n := |symbols|;
      var init := symbols[..n - 1];
      var last := symbols[n - 1];
      assert Distinct(init);
      PollUpdatesPerSymbol(init, quote, k);
      var before := PollUpdates(init, quote);
      var after := PollUpdates(symbols, quote);
      assert last !in init;
      if Usable(quote(last)) {
        assert after[..|after| - 1] == before;
        assert Targets(after) == Targets(before) + [last];
      } else {
        assert after == before;
      }
      assert k in symbols <==> k in init || k == last;
    }
  }

  /** One polled update, seen from key `k`. */
  lemma PollStep(mid: Stocks, symbol: Symbol, price: real, now: int, k: Symbol)
    ensures var r := Reduce(mid, UpdatePrice(symbol, price, None), now);
            && r.keys == mid.keys
            && (k in r.entries <==> k in mid.entries)
            && (k in mid.entries ==>
                  r.entries[k] == (if symbol == k then Polled(mid.entries[k], price, now) else mid.entries[k]))
  {
  }

  /** The effect of a pass over distinct `symbols`: keys and their order
      stay, and each tracked symbol is polled once if it is among `symbols`
      and its answer is usable, and is otherwise left untouched. */
  lemma {:induction false} PollUpdatesEffect(state: Stocks, symbols: seq<Symbol>, quote: Symbol -> QuoteResponse, now: int, k: Symbol)
    requires Wf(state) && Distinct(symbols)
    ensures var r := ApplyAll(state, PollUpdates(symbols, quote), now);
            && r.keys == state.keys
            && (k in r.entries <==> k in state.entries)
            && (k in state.entries ==>
                  r.entries[k] == (if k in symbols && Usable(quote(k))
                                   then Polled(state.entries[k], quote(k).c.value, now)
                                   else state.entries[k]))
  {
    if symbols != [] {
      var n := |symbols|;
      var init := symbols[..n - 1];
      var last := symbols[n - 1];
      assert Distinct(init);
      assert last !in init;
      assert k in symbols <==> k in init || k == last;
      PollUpdatesEffect(state, init, quote, now, k);
      PollUpdatesEffect(state, init, quote, now, last);
      var mid := ApplyAll(state, PollUpdates(init, quote), now);
      if Usable(quote(last)) {
        ApplyAllSnoc(state, PollUpdates(init, quote), UpdatePrice(last, quote(last).c.value, None), now);
        PollStep(mid, last, quote(last).c.value, now, k);
      } else {
        assert PollUpdates(symbols, quote) == PollUpdates(init, quote);
      }
    }
  }

  /** A pass over the whole watch list: every tracked symbol with a usable
      answer gets exactly one new point, every other record is unchanged,
      and no symbol is added or removed. */
  lemma PollPassEffect(state: Stocks, quote: Symbol -> QuoteResponse, now: int, k: Symbol)
    requires Wf(state)
    ensures var r := ApplyAll(state, PollUpdates(state.keys, quote), now);
            && r.keys == state.keys
            && (k in r.entries <==> k in state.entries)
            && (k in state.entries ==>
                  r.entries[k] == (if Usable(quote(k))
                                   then Polled(state.entries[k], quote(k).c.value, now)
                                   else state.entries[k]))
  {
    PollUpdatesEffect(state, state.keys, quote, now, k);
  }

  /** The hook's state: the reducer state, the `"stock_data"` storage entry
      and the `stocksInitialized` ref. */
  class PollingStore {
    var stocks: Stocks
    var storage: Option<Stocks>
    var initialized: bool

    /** Storage follows the watch list once a stored value was loaded, and
        is never written otherwise. */
    ghost predicate Valid()
      reads this
    {
      && Wf(stocks)
      && (if initialized then storage == Some(stocks) else storage == None)
    }

    /** Mounting: the state starts as `{}`; a stored watch list is loaded
        with `INIT_FROM_STORAGE` and opens the storage gate. */
    constructor (stored: Option<Stocks>, now: int)
      requires stored.Some? ==> Wf(stored.value)
      ensures Valid()
      ensures initialized == stored.Some?
      ensures stocks == stored.GetOr(Empty())
    {
      stocks := Empty();
      storage := stored;
      initialized := false;
      new;
      if stored.Some? {
        stocks := Reduce(stocks, InitFromStorage(stored.value), now);
        initialized := true;
        storage := Some(stocks);
      }
    }

    /** `dispatch`, followed by the storage effect behind its gate. */
    method Dispatch(action: Action, now: int)
      requires Valid()
      requires action.InitFromStorage? ==> Wf(action.payload)
      modifies this
      ensures Valid() && initialized == old(initialized)
      ensures stocks == Reduce(old(stocks), action, now)
      ensures !initialized ==> storage == old(storage)
    {
      stocks := Reduce(stocks, action, now);
      if initialized {
        storage := Some(stocks);
      }
    }

    /** `addSymbol`: dispatches `ADD_SYMBOL` whether or not the symbol is tracked. */
    method AddSymbol(symbol: Symbol, alert: Option<real>, now: int)
      requires Valid()
      modifies this
      ensures Valid() && initialized == old(initialized)
      ensures stocks == Reduce(old(stocks), Action.AddSymbol(symbol, alert, None), now)
    {
      Dispatch(Action.AddSymbol(symbol, alert, None), now);
    }

    /** `removeSymbol`: dispatches `REMOVE_SYMBOL` unconditionally. */
    method RemoveSymbol(symbol: Symbol, now: int)
      requires Valid()
      modifies this
      ensures Valid() && initialized == old(initialized)
      ensures stocks == Reduce(old(stocks), Action.RemoveSymbol(symbol), now)
    {
      Dispatch(Action.RemoveSymbol(symbol), now);
    }

    /** `fetchAllQuotes`: one request per tracked symbol, in key order (none
        at all for an empty watch list), dispatching an update for each
        usable answer. */
    method FetchAllQuotes(quote: Symbol -> QuoteResponse, now: int) returns (requested: seq<Symbol>)
      requires Valid()
      modifies this
      ensures Valid() && initialized == old(initialized)
      ensures requested == old(stocks).keys
      ensures stocks == ApplyAll(old(stocks), PollUpdates(old(stocks).keys, quote), now)
    {
      var symbols := stocks.keys;
      requested := [];
      if |symbols| == 0 {
        return;
      }
      var i := 0;
      while i < |symbols|
        invariant 0 <= i <= |symbols|
        invariant Valid() && initialized == old(initialized)
        invariant requested == symbols[..i]
        invariant stocks == ApplyAll(old(stocks), PollUpdates(symbols[..i], quote), now)
      {
        var symbol := symbols[i];
        var res := quote(symbol);
        requested := requested + [symbol];
        ghost var done := PollUpdates(symbols[..i], quote);
        assert symbols[..i + 1][..i] == symbols[..i];
        if res.Response? && res.status == 200 && res.c.Some? {
          var update := UpdatePrice(symbol, res.c.value, None);
          assert PollUpdates(symbols[..i + 1], quote) == done + [update];
          ApplyAllSnoc(old(stocks), done, update, now);
          Dispatch(update, now);
        } else {
          assert PollUpdates(symbols[..i + 1], quote) == done;
        }
        i := i + 1;
      }
      assert symbols[..i] == symbols;
    }
  }
}
