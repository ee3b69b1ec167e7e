/** The streaming watch-list store of src/hooks/useFinnhubWebSocket.ts: a
    pure reducer over the watch list, and the hook around it that guards
    additions and removals, sends subscribe and unsubscribe control frames,
    resubscribes when the socket opens, turns inbound trade frames into price
    updates, and writes the watch list to storage after every change.

    The clock (`Date.now()`, in milliseconds) is the parameter `now`; the
    price fetched for a new symbol is a parameter of `AddSymbol`. */
module FinnhubWebSocket {
  import opened Wrappers
  import opened Records
  import opened StockTypes

  /** JavaScript truthiness of an optional price: `undefined` and `0` are falsy. */
  predicate Truthy(price: Option<real>) {
    price.Some? && price.value != 0.0
  }

  /** `getInitialState`: the stored watch list, or `{}` when nothing is stored. */
  function GetInitialState(stored: Option<Stocks>): (state: Stocks)
    ensures stored.Some? ==> state == stored.value
    ensures stored.None? ==> state.keys == [] && state.entries == map[]
    ensures (stored.Some? ==> Wf(stored.value)) ==> Wf(state)
  {
    stored.GetOr(Empty())
  }

  /** The record `ADD_SYMBOL` installs. */
  function NewRecord(symbol: Symbol, alert: Option<real>, price: Option<real>, now: int): (info: StockInfo)
    ensures info.symbol == symbol && info.alertPrice == alert && info.latestPrice == price
    ensures Truthy(price) ==> info.data == [DataPoint(price.value, Seconds(now))] && info.lastUpdateTime == Some(now)
    ensures !Truthy(price) ==> info.data == [] && info.lastUpdateTime == None
    ensures PriceConsistent(info)
  {
    StockInfo(symbol, alert, price,
              if Truthy(price) then [DataPoint(price.value, Seconds(now))] else [],
              if Truthy(price) then Some(now) else None)
  }

  /** The record `UPDATE_PRICE` puts in place of a tracked one: one more
      point after the unchanged history, stamped with the trade's time or
      else the current second; the price becomes the latest price. */
  function Updated(info: StockInfo, price: real, timestamp: Option<int>, now: int): (info': StockInfo)
    ensures |info'.data| == |info.data| + 1 && info'.data[..|info.data|] == info.data
    ensures info'.data[|info.data|].price == price
    ensures info'.data[|info.data|].timestamp == (if timestamp.Some? then timestamp.value else Seconds(now))
    ensures info'.latestPrice == Some(price) && info'.lastUpdateTime == Some(now)
    ensures info'.symbol == info.symbol && info'.alertPrice == info.alertPrice
    ensures PriceConsistent(info')
  {
    info.(latestPrice := Some(price),
          data := info.data + [DataPoint(price, timestamp.GetOr(Seconds(now)))],
          lastUpdateTime := Some(now))
  }

  /** `reducer`. `INIT_FROM_STORAGE` is not handled here and falls to the
      default case. */
  function Reduce(state: Stocks, action: Action, now: int): (r: Stocks)
    ensures Wf(state) ==> Wf(r)
    ensures action.InitFromStorage? ==> r == state
    ensures !action.InitFromStorage? ==>
              forall k :: k != action.symbol ==> Get(r, k) == Get(state, k)
    ensures KeyedBySymbol(state) ==> KeyedBySymbol(r)
    ensures (forall k :: k in state.entries ==> PriceConsistent(state.entries[k])) ==>
              (forall k :: k in r.entries ==> PriceConsistent(r.entries[k]))
  {
    match action
    case AddSymbol(symbol, alert, price) =>
      Put(state, symbol, NewRecord(symbol, alert, price, now))
    case RemoveSymbol(symbol) =>
      Delete(state, symbol)
    case UpdatePrice(symbol, price, timestamp) =>
      if symbol !in state.entries then state
      else Put(state, symbol, Updated(state.entries[symbol], price, timestamp, now))
    case InitFromStorage(_) =>
      state
  }

  /** `ADD_SYMBOL` files the new record under its symbol; a symbol not yet
      tracked enumerates last, one already tracked keeps its place. */
  lemma AddInstallsRecord(state: Stocks, symbol: Symbol, alert: Option<real>, price: Option<real>, now: int)
    requires Wf(state)
    ensures var r := Reduce(state, AddSymbol(symbol, alert, price), now);
            && Get(r, symbol) == Some(NewRecord(symbol, alert, price, now))
            && r.keys == (if symbol in state.entries then state.keys else state.keys + [symbol])
  {
  }

  /** `REMOVE_SYMBOL` drops exactly that key and closes its gap in the
      enumeration order; removing an untracked symbol changes nothing. */
  lemma RemoveDropsKey(state: Stocks, symbol: Symbol, now: int)
    requires Wf(state)
    ensures var r := Reduce(state, RemoveSymbol(symbol), now);
            && r.entries.Keys == state.entries.Keys - {symbol}
            && (symbol !in state.entries ==> r == state)
            && (forall i :: 0 <= i < |state.keys| && state.keys[i] == symbol ==>
                              r.keys == state.keys[..i] + state.keys[i + 1..])
  {
    var r := Reduce(state, RemoveSymbol(symbol), now);
    if symbol !in state.entries {
      WithoutAbsent(state.keys, symbol);
      assert r.entries == state.entries;
    }
    forall i | 0 <= i < |state.keys| && state.keys[i] == symbol
      ensures r.keys == state.keys[..i] + state.keys[i + 1..]
    {
      WithoutAt(state.keys, i);
    }
  }

  /** `UPDATE_PRICE` for a symbol that is not tracked returns the state as it is. */
  lemma UpdateUntrackedIsNoop(state: Stocks, symbol: Symbol, price: real, timestamp: Option<int>, now: int)
    requires symbol !in state.entries
    ensures Reduce(state, UpdatePrice(symbol, price, timestamp), now) == state
  {
  }

  /** `UPDATE_PRICE` for a tracked symbol appends exactly one point after the
      unchanged history, stamped with the given time or else the current
      second, and records the price and the update time; symbol, alert and
      key order stay as they were. */
  lemma UpdateTrackedAppends(state: Stocks, symbol: Symbol, price: real, timestamp: Option<int>, now: int)
    requires Wf(state) && symbol in state.entries
    ensures var r := Reduce(state, UpdatePrice(symbol, price, timestamp), now);
            var before := state.entries[symbol];
            && r.keys == state.keys
            && symbol in r.entries
            && var after := r.entries[symbol];
            && |after.data| == |before.data| + 1
            && after.data[..|before.data|] == before.data
            && after.data[|before.data|].price == price
            && after.data[|before.data|].timestamp ==
                 (if timestamp.Some? then timestamp.value else Seconds(now))
            && after.latestPrice == Some(price)
            && after.lastUpdateTime == Some(now)
            && after.symbol == before.symbol
            && after.alertPrice == before.alertPrice
  {
  }

  /** Dispatching `actions` in order. */
  function ApplyAll(state: Stocks, actions: seq<Action>, now: int): (r: Stocks)
    ensures Wf(state) ==> Wf(r)
    decreases |actions|
  {
    if actions == [] then state
    else Reduce(ApplyAll(state, actions[..|actions| - 1], now), actions[|actions| - 1], now)
  }

  /** An inbound trade: symbol `s`, price `p`, time `t` in milliseconds. */
  datatype Trade = Trade(s: Symbol, p: real, t: int)

  /** A parsed inbound frame: its `type` field, and its `data` field when
      that is an array. */
  datatype Frame = Frame(kind: string, data: Option<seq<Trade>>)

  /** One `UPDATE_PRICE` per trade, in array order, stamped in whole seconds. */
  function TradeUpdates(trades: seq<Trade>): (actions: seq<Action>)
    ensures |actions| == |trades|
    ensures forall i :: 0 <= i < |trades| ==>
              actions[i] == UpdatePrice(trades[i].s, trades[i].p, Some(Seconds(trades[i].t)))
  {
    seq(|trades|, i requires 0 <= i < |trades| =>
      UpdatePrice(trades[i].s, trades[i].p, Some(Seconds(trades[i].t))))
  }

  /** The updates a frame yields: only a `"trade"` frame whose `data` is an
      array yields any. */
  function FrameUpdates(frame: Frame): (actions: seq<Action>)
    ensures frame.kind != "trade" || frame.data.None? ==> actions == []
    ensures frame.kind == "trade" && frame.data.Some? ==> actions == TradeUpdates(frame.data.value)
  {
    if frame.kind == "trade" && frame.data.Some? then TradeUpdates(frame.data.value) else []
  }

  /** The points the trades of `trades` for symbol `k` contribute, in order. */
  function PointsFor(trades: seq<Trade>, k: Symbol): seq<DataPoint> {
    if trades == [] then []
    else
      var last := trades[|trades| - 1];
      PointsFor(trades[..|trades| - 1], k) + (if last.s == k then [DataPoint(last.p, Seconds(last.t))] else [])
  }

  /** A record after the points `pts` were appended one update at a time. */
  ghost function AfterPoints(info: StockInfo, pts: seq<DataPoint>, now: int): StockInfo {
    if pts == [] then info
    else info.(latestPrice := Some(pts[|pts| - 1].price),
               data := info.data + pts,
               lastUpdateTime := Some(now))
  }

  lemma AfterPointsSnoc(info: StockInfo, pts: seq<DataPoint>, p: DataPoint, now: int)
    ensures AfterPoints(info, pts + [p], now)
         == Updated(AfterPoints(info, pts, now), p.price, Some(p.timestamp), now)
  {
    assert info.data + pts + [p] == info.data + (pts + [p]);
  }

  /** One trade's update, seen from key `k`. */
  lemma TradeStep(mid: Stocks, trade: Trade, now: int, k: Symbol)
    requires Wf(mid)
    ensures var r := Reduce(mid, UpdatePrice(trade.s, trade.p, Some(Seconds(trade.t))), now);
            && r.keys == mid.keys
            && (k in r.entries <==> k in mid.entries)
            && (k in mid.entries ==>
                  r.entries[k] == (if trade.s == k
                                   then Updated(mid.entries[k], trade.p, Some(Seconds(trade.t)), now)
                                   else mid.entries[k]))
  {
  }

  /** A trade frame leaves the keys and their order alone, drops trades for
      untracked symbols (no symbol comes back), and appends to each tracked
      symbol's history exactly that symbol's trades, in arrival order. */
  lemma {:induction false} TradesAppendInOrder(state: Stocks, trades: seq<Trade>, now: int, k: Symbol)
    requires Wf(state)
    ensures var r := ApplyAll(state, TradeUpdates(trades), now);
            && r.keys == state.keys
            && (k in r.entries <==> k in state.entries)
            && (k in state.entries ==> r.entries[k] == AfterPoints(state.entries[k], PointsFor(trades, k), now))
  {
    if trades != [] {
      var n := |trades|;
      var init := trades[..n - 1];
      var last := trades[n - 1];
      assert TradeUpdates(trades)[..n - 1] == TradeUpdates(init);
      TradesAppendInOrder(state, init, now, k);
      var mid := ApplyAll(state, TradeUpdates(init), now);
      TradeStep(mid, last, now, k);
      if k in state.entries && last.s == k {
        AfterPointsSnoc(state.entries[k], PointsFor(init, k), DataPoint(last.p, Seconds(last.t)), now);
      }
    }
  }

  /** Outbound control frames, `{type: "subscribe" | "unsubscribe", symbol}`. */
  datatype Control = Subscribe(symbol: Symbol) | Unsubscribe(symbol: Symbol)

  /** One subscribe frame per symbol, in order. */
  function Subscriptions(symbols: seq<Symbol>): (msgs: seq<Control>)
    ensures |msgs| == |symbols|
    ensures forall i :: 0 <= i < |symbols| ==> msgs[i] == Subscribe(symbols[i])
  {
    seq(|symbols|, i requires 0 <= i < |symbols| => Subscribe(symbols[i]))
  }

  lemma {:induction false} SubscriptionsCount(symbols: seq<Symbol>, x: Symbol)
    requires Distinct(symbols)
    ensures multiset(Subscriptions(symbols))[Subscribe(x)] == (if x in symbols then 1 else 0)
    ensures multiset(Subscriptions(symbols))[Unsubscribe(x)] == 0
  {
    if symbols != [] {
      assert Subscriptions(symbols) == [Subscribe(symbols[0])] + Subscriptions(symbols[1..]);
      assert Distinct(symbols[1..]);
      SubscriptionsCount(symbols[1..], x);
      assert symbols[0] !in symbols[1..];
    }
  }

  /** On open, every tracked symbol gets exactly one subscribe frame, and
      nothing else is sent. */
  lemma ResubscribesEachTrackedOnce(stocks: Stocks, x: Symbol)
    requires Wf(stocks)
    ensures multiset(Subscriptions(stocks.keys))[Subscribe(x)] == (if x in stocks.entries then 1 else 0)
    ensures multiset(Subscriptions(stocks.keys))[Unsubscribe(x)] == 0
  {
    SubscriptionsCount(stocks.keys, x);
  }

  /** The hook's state: the reducer state, the frames handed to
      `sendMessage` so far, and the `"stock_data"` storage entry. */
  class StreamingStore {
    var stocks: Stocks
    var sent: seq<Control>
    var storage: Option<Stocks>

    /** The storage effect runs on mount and after every change, so storage
        always holds the current watch list. */
    ghost predicate Valid()
      reads this
    {
      Wf(stocks) && storage == Some(stocks)
    }

    /** Mounting the hook: load the stored watch list (or `{}`), then the
        storage effect writes it back. */
    constructor (stored: Option<Stocks>)
      requires stored.Some? ==> Wf(stored.value)
      ensures Valid()
      ensures stocks == GetInitialState(stored) && sent == []
    {
      var initial := GetInitialState(stored);
      stocks := initial;
      sent := [];
      storage := Some(initial);
    }

    /** `dispatch` followed by the storage effect. */
    method Dispatch(action: Action, now: int)
      requires Valid()
      modifies this
      ensures Valid()
      ensures stocks == Reduce(old(stocks), action, now) && sent == old(sent)
    {
      stocks := Reduce(stocks, action, now);
      storage := Some(stocks);
    }

    /** `addSymbol`: refuses a tracked symbol without dispatching or sending;
        otherwise dispatches one `ADD_SYMBOL` with the fetched price and sends
        one subscribe frame. */
    method AddSymbol(symbol: Symbol, alert: Option<real>, fetched: Option<real>, now: int) returns (added: bool)
      requires Valid()
      modifies this
      ensures Valid()
      ensures added <==> symbol !in old(stocks).entries
      ensures !added ==> stocks == old(stocks) && sent == old(sent)
      ensures added ==> && stocks == Reduce(old(stocks), Action.AddSymbol(symbol, alert, fetched), now)
                        && sent == old(sent) + [Subscribe(symbol)]
    {
      if symbol in stocks.entries {
        return false;
      }
      Dispatch(Action.AddSymbol(symbol, alert, fetched), now);
      sent := sent + [Subscribe(symbol)];
      return true;
    }

    /** `removeSymbol`: nothing for an untracked symbol; otherwise one
        `REMOVE_SYMBOL` and one unsubscribe frame. */
    method RemoveSymbol(symbol: Symbol, now: int)
      requires Valid()
      modifies this
      ensures Valid()
      ensures symbol !in old(stocks).entries ==> stocks == old(stocks) && sent == old(sent)
      ensures symbol in old(stocks).entries ==>
                && stocks == Reduce(old(stocks), Action.RemoveSymbol(symbol), now)
                && sent == old(sent) + [Unsubscribe(symbol)]
    {
      if symbol !in stocks.entries {
        return;
      }
      Dispatch(Action.RemoveSymbol(symbol), now);
      sent := sent + [Unsubscribe(symbol)];
    }

    /** `onOpen`: a subscribe frame for every tracked key, in key order. */
    method OnOpen()
      requires Valid()
      modifies this
      ensures Valid() && stocks == old(stocks)
      ensures sent == old(sent) + Subscriptions(stocks.keys)
    {
      var symbols := stocks.keys;
      var i := 0;
      while i < |symbols|
        invariant 0 <= i <= |symbols|
        invariant Valid() && stocks == old(stocks)
        invariant sent == old(sent) + Subscriptions(symbols[..i])
      {
        sent := sent + [Subscribe(symbols[i])];
        i := i + 1;
        assert Subscriptions(symbols[..i]) == Subscriptions(symbols[..i - 1]) + [Subscribe(symbols[i - 1])];
      }
      assert symbols[..i] == symbols;
    }

    /** The message effect: each trade of a trade frame is dispatched as an
        `UPDATE_PRICE`, in array order; any other frame is ignored. */
    method OnMessage(frame: Frame, now: int)
      requires Valid()
      modifies this
      ensures Valid() && sent == old(sent)
      ensures stocks == ApplyAll(old(stocks), FrameUpdates(frame), now)
    {
      if frame.kind == "trade" && frame.data.Some? {
        var trades := frame.data.value;
        var i := 0;
        while i < |trades|
          invariant 0 <= i <= |trades|
          invariant Valid() && sent == old(sent)
          invariant stocks == ApplyAll(old(stocks), TradeUpdates(trades)[..i], now)
        {
          var trade := trades[i];
          Dispatch(UpdatePrice(trade.s, trade.p, Some(Seconds(trade.t))), now);
          i := i + 1;
          assert TradeUpdates(trades)[..i][..i - 1] == TradeUpdates(trades)[..i - 1];
        }
        assert TradeUpdates(trades)[..i] == TradeUpdates(trades);
      }
    }
  }
  /* Runs of `addSymbol` calls with no alert, as the default-symbol
     handlers make them. */

  /** One `ADD_SYMBOL` with no alert and the fetched price for each of
      `symbols`, in order. */
  function AddActions(symbols: seq<Symbol>, quote: Symbol -> Option<real>): (actions: seq<Action>)
    ensures |actions| == |symbols|
    ensures forall i :: 0 <= i < |symbols| ==>
              actions[i] == Action.AddSymbol(symbols[i], None, quote(symbols[i]))
  {
    seq(|symbols|, i requires 0 <= i < |symbols| => Action.AddSymbol(symbols[i], None, quote(symbols[i])))
  }

  lemma ApplyAllSnoc(state: Stocks, actions: seq<Action>, a: Action, now: int)
    ensures ApplyAll(state, actions + [a], now) == Reduce(ApplyAll(state, actions, now), a, now)
  {
    assert (actions + [a])[..|actions|] == actions;
  }

  /** Adding distinct untracked symbols one after another: they enumerate
      after the old keys, in order, each with a record that has no alert and
      the fetched price, and every old record stays as it was. */
  lemma {:induction false} AddActionsEffect(state: Stocks, symbols: seq<Symbol>, quote: Symbol -> Option<real>,
                                            now: int, k: Symbol)
    requires Wf(state) && Distinct(symbols)
    requires forall s :: s in symbols ==> s !in state.entries
    ensures var r := ApplyAll(state, AddActions(symbols, quote), now);
            && r.keys == state.keys + symbols
            && (k in r.entries <==> k in state.entries || k in symbols)
            && (k in state.entries ==> r.entries[k] == state.entries[k])
            && (k in symbols ==> r.entries[k] == NewRecord(k, None, quote(k), now))
  {
    if symbols != [] {
      var n := |symbols|;
      var init := symbols[..n - 1];
      var last := symbols[n - 1];
      assert Distinct(init);
      assert last !in init;
      assert k in symbols <==> k in init || k == last;
      assert AddActions(symbols, quote) == AddActions(init, quote) + [Action.AddSymbol(last, None, quote(last))];
      ApplyAllSnoc(state, AddActions(init, quote), Action.AddSymbol(last, None, quote(last)), now);
      AddActionsEffect(state, init, quote, now, k);
      AddActionsEffect(state, init, quote, now, last);
      AddOneEffect(ApplyAll(state, AddActions(init, quote), now), last, quote, now, k);
    }
  }

  /** One `ADD_SYMBOL` with no alert for an untracked symbol, seen from key `k`. */
  lemma AddOneEffect(mid: Stocks, symbol: Symbol, quote: Symbol -> Option<real>, now: int, k: Symbol)
    requires Wf(mid) && symbol !in mid.entries
    ensures var r := Reduce(mid, Action.AddSymbol(symbol, None, quote(symbol)), now);
            && r.keys == mid.keys + [symbol]
            && (k in r.entries <==> k in mid.entries || k == symbol)
            && (k in mid.entries ==> r.entries[k] == mid.entries[k])
            && (k == symbol ==> r.entries[k] == NewRecord(k, None, quote(k), now))
  {
    assert Reduce(mid, Action.AddSymbol(symbol, None, quote(symbol)), now)
        == Put(mid, symbol, NewRecord(symbol, None, quote(symbol), now));
  }

  /** The symbols of `symbols` that are neither in `tracked` nor earlier in
      `symbols`: the ones a run of guarded `addSymbol` calls adds. */
  function FirstNew(symbols: seq<Symbol>, tracked: set<Symbol>): seq<Symbol> {
    if symbols == [] then []
    else
      var init := symbols[..|symbols| - 1];
      var last := symbols[|symbols| - 1];
      FirstNew(init, tracked) + (if last in tracked || last in init then [] else [last])
  }

  lemma {:induction false} FirstNewMembership(symbols: seq<Symbol>, tracked: set<Symbol>, x: Symbol)
    ensures x in FirstNew(symbols, tracked) <==> x in symbols && x !in tracked
  {
    if symbols != [] {
      var init := symbols[..|symbols| - 1];
      assert symbols == init + [symbols[|symbols| - 1]];
      FirstNewMembership(init, tracked, x);
    }
  }

  lemma FirstNewSnoc(symbols: seq<Symbol>, tracked: set<Symbol>, x: Symbol)
    ensures FirstNew(symbols + [x], tracked) ==
            FirstNew(symbols, tracked) + (if x in tracked || x in symbols then [] else [x])
  {
    assert (symbols + [x])[..|symbols|] == symbols;
  }

  /** Each symbol that is added is added once. */
  lemma {:induction false} FirstNewDistinct(symbols: seq<Symbol>, tracked: set<Symbol>)
    ensures Distinct(FirstNew(symbols, tracked))
  {
    if symbols != [] {
      var init := symbols[..|symbols| - 1];
      var last := symbols[|symbols| - 1];
      FirstNewDistinct(init, tracked);
      FirstNewMembership(init, tracked, last);
    }
  }

  /** Whether a symbol is added depends on `tracked` only through the
      offered symbols. */
  lemma {:induction false} FirstNewAgree(symbols: seq<Symbol>, tracked: set<Symbol>, tracked': set<Symbol>)
    requires forall x :: x in symbols ==> (x in tracked <==> x in tracked')
    ensures FirstNew(symbols, tracked) == FirstNew(symbols, tracked')
  {
    if symbols != [] {
      var init := symbols[..|symbols| - 1];
      assert forall x :: x in init ==> x in symbols;
      FirstNewAgree(init, tracked, tracked');
    }
  }

  /** A run of guarded `addSymbol(symbol)` calls with no alert: the symbols
      not yet tracked are appended in the order first offered, each with a
      record holding no alert and its fetched price, and every record
      tracked before stays as it was. */
  lemma AddRunEffect(state: Stocks, symbols: seq<Symbol>, quote: Symbol -> Option<real>, now: int, k: Symbol)
    requires Wf(state)
    ensures var added := FirstNew(symbols, state.entries.Keys);
            var r := ApplyAll(state, AddActions(added, quote), now);
            && r.keys == state.keys + added
            && (k in r.entries <==> k in state.entries || k in symbols)
            && (k in state.entries ==> r.entries[k] == state.entries[k])
            && (k in symbols && k !in state.entries ==> r.entries[k] == NewRecord(k, None, quote(k), now))
  {
    var added := FirstNew(symbols, state.entries.Keys);
    FirstNewDistinct(symbols, state.entries.Keys);
    forall s | s in added ensures s !in state.entries {
      FirstNewMembership(symbols, state.entries.Keys, s);
    }
    FirstNewMembership(symbols, state.entries.Keys, k);
    AddActionsEffect(state, added, quote, now, k);
  }

  /** The whole watch list after a run of `addSymbol` calls: the keys grow
      by the added symbols, and each record is the old one or, for an added
      symbol, the one built from its fetched price. */
  lemma AddRunRecords(state: Stocks, symbols: seq<Symbol>, quote: Symbol -> Option<real>, now: int)
    requires Wf(state)
    ensures var r := ApplyAll(state, AddActions(FirstNew(symbols, state.entries.Keys), quote), now);
            && r.keys == state.keys + FirstNew(symbols, state.entries.Keys)
            && forall k :: k in r.entries ==>
                 r.entries[k] == (if k in state.entries then state.entries[k] else NewRecord(k, None, quote(k), now))
  {
    var r := ApplyAll(state, AddActions(FirstNew(symbols, state.entries.Keys), quote), now);
    forall k | k in r.entries
      ensures r.entries[k] == (if k in state.entries then state.entries[k] else NewRecord(k, None, quote(k), now))
    {
      AddRunEffect(state, symbols, quote, now, k);
    }
    AddRunEffect(state, symbols, quote, now, "");
  }

  lemma SubscriptionsSnoc(sent: seq<Control>, symbols: seq<Symbol>, symbol: Symbol)
    ensures sent + Subscriptions(symbols + [symbol]) == sent + Subscriptions(symbols) + [Subscribe(symbol)]
  {
    assert Subscriptions(symbols + [symbol]) == Subscriptions(symbols) + [Subscribe(symbol)];
  }

  /** What one more offered symbol does to a run that started from
      `state0`: the guard refuses it exactly when it was tracked or offered
      before, and otherwise its `ADD_SYMBOL` extends the run. */
  lemma OfferStep(state0: Stocks, offered: seq<Symbol>, symbol: Symbol, quote: Symbol -> Option<real>, now: int)
    requires Wf(state0)
    ensures var tracked := state0.entries.Keys;
            var cur := ApplyAll(state0, AddActions(FirstNew(offered, tracked), quote), now);
            && (symbol in cur.entries <==> symbol in tracked || symbol in offered)
            && (symbol in cur.entries ==> FirstNew(offered + [symbol], tracked) == FirstNew(offered, tracked))
            && (symbol !in cur.entries ==>
                  && FirstNew(offered + [symbol], tracked) == FirstNew(offered, tracked) + [symbol]
                  && ApplyAll(state0, AddActions(FirstNew(offered + [symbol], tracked), quote), now)
                     == Reduce(cur, Action.AddSymbol(symbol, None, quote(symbol)), now))
  {
    var tracked := state0.entries.Keys;
    FirstNewSnoc(offered, tracked, symbol);
    FirstNewMembership(offered, tracked, symbol);
    AddRunEffect(state0, offered, quote, now, symbol);
    AddActionsSnoc(state0, FirstNew(offered, tracked), symbol, quote, now);
  }

  lemma AddActionsSnoc(state: Stocks, added: seq<Symbol>, symbol: Symbol, quote: Symbol -> Option<real>, now: int)
    ensures ApplyAll(state, AddActions(added + [symbol], quote), now)
         == Reduce(ApplyAll(state, AddActions(added, quote), now), Action.AddSymbol(symbol, None, quote(symbol)), now)
  {
    var a := Action.AddSymbol(symbol, None, quote(symbol));
    assert AddActions(added + [symbol], quote) == AddActions(added, quote) + [a];
    ApplyAllSnoc(state, AddActions(added, quote), a, now);
  }

  /** One `addSymbol(symbol)` call, with no alert and the fetched price, in
      a run that started from `state0` and has offered `offered` so far
      (`offered'` once this symbol is offered too): the run's state and
      frames follow `FirstNew`. */
  method OfferNext(store: StreamingStore, symbol: Symbol, quote: Symbol -> Option<real>, now: int,
                   ghost state0: Stocks, ghost sent0: seq<Control>, ghost offered: seq<Symbol>,
                   ghost offered': seq<Symbol>)
    requires store.Valid() && Wf(state0) && offered' == offered + [symbol]
    requires store.stocks == ApplyAll(state0, AddActions(FirstNew(offered, state0.entries.Keys), quote), now)
    requires store.sent == sent0 + Subscriptions(FirstNew(offered, state0.entries.Keys))
    modifies store
    ensures store.Valid()
    ensures store.stocks == ApplyAll(state0, AddActions(FirstNew(offered', state0.entries.Keys), quote), now)
    ensures store.sent == sent0 + Subscriptions(FirstNew(offered', state0.entries.Keys))
  {
    OfferStep(state0, offered, symbol, quote, now);
    SubscriptionsSnoc(sent0, FirstNew(offered, state0.entries.Keys), symbol);
    var added := store.AddSymbol(symbol, None, quote(symbol), now);
  }
}
