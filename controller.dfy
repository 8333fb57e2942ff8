/**
 * The bracket-order controller, `placeStopLimitOrder` (server.ts:32-141): resolve
 * the venue and its credentials, place a buy stop-limit entry, poll it every ten
 * seconds for at most five minutes, then either cancel it or, once it is
 * "closed", total its fees and place a take-profit limit order and a stop-loss
 * stop-limit order on the opposite side.
 */
module Controller {
  import opened Wrappers
  import opened Venues
  import opened Fees
  import opened Exchange

  const EntrySide: Side := Buy
  const Amount: real := 0.01
  const TimeLimit: int := 300 * 1000
  const PollInterval: nat := 10000
  const Closed: Status := "closed"
  const MaxPolls: nat := 30

  /** `side === "buy" ? "sell" : "buy"` */
  function Opposite(side: Side): (r: Side)
    ensures r != side
  {
    if side == Buy then Sell else Buy
  }

  /** The entry: a buy stop-limit order of 0.01 at the buy price, triggered at the stop price. */
  function EntryOrder(pair: string, buyPrice: real, stopPrice: real): (r: OrderRequest)
    ensures r == OrderRequest(pair, StopLimit, Buy, 0.01, buyPrice, Some(stopPrice))
  {
    OrderRequest(pair, StopLimit, EntrySide, Amount, buyPrice, Some(stopPrice))
  }

  /** The take-profit leg: a limit order on the other side of the entry, of the same size. */
  function TakeProfitOrder(pair: string, tpPrice: real): (r: OrderRequest)
    ensures r.side != EntryOrder(pair, 0.0, 0.0).side && r.amount == EntryOrder(pair, 0.0, 0.0).amount
    ensures r == OrderRequest(pair, Limit, Sell, 0.01, tpPrice, None)
  {
    OrderRequest(pair, Limit, Opposite(EntrySide), Amount, tpPrice, None)
  }

  /** The stop-loss leg: a stop-limit order on the other side of the entry, of the same size, triggered at its own price. */
  function StopLossOrder(pair: string, slPrice: real): (r: OrderRequest)
    ensures r.side != EntryOrder(pair, 0.0, 0.0).side && r.amount == EntryOrder(pair, 0.0, 0.0).amount
    ensures r == OrderRequest(pair, StopLimit, Sell, 0.01, slPrice, Some(slPrice))
  {
    OrderRequest(pair, StopLimit, Opposite(EntrySide), Amount, slPrice, Some(slPrice))
  }

  /** How the polling ends: a "closed" status, the time limit, or a failed call. */
  datatype Verdict = Filled | Expired | Faulted

  datatype PollEnd = PollEnd(state: State, verdict: Verdict, rounds: nat)

  /**
   * The polling loop: while less than the time limit has passed since `start`,
   * wait one interval and fetch the entry order's status once; only "closed"
   * stops the loop early.
   */
  function Poll(sc: Script, st: State, start: int, id: OrderId, pair: string): (r: PollEnd)
    ensures st.log <= r.state.log && r.state.clock >= st.clock
    ensures r.state.placed == st.placed
    ensures r.verdict == Expired ==> r.state.clock - start >= TimeLimit
    ensures r.verdict == Faulted ==> sc.faultAt.Some?
    decreases TimeLimit - (st.clock - start)
  {
    if st.clock - start >= TimeLimit then PollEnd(st, Expired, 0)
    else
      var f := FetchStep(sc, WaitStep(sc, st, PollInterval), id, pair);
      if f.reply.Fault? then PollEnd(f.state, Faulted, 1)
      else if f.reply.value == Closed then PollEnd(f.state, Filled, 1)
      else
        var p := Poll(sc, f.state, start, id, pair);
        p.(rounds := p.rounds + 1)
  }

  /** `k` polling rounds: each waits one interval, then queries the entry order once. */
  function Rounds(id: OrderId, pair: string, k: nat): seq<Call>
  {
    if k == 0 then [] else [Wait(PollInterval), FetchOrder(id, pair)] + Rounds(id, pair, k - 1)
  }

  /**
   * What a run ends in: a configuration error thrown to the caller, a gateway
   * error caught and logged, the entry cancelled after the time limit, or the
   * bracket placed, with the entry's fees.
   */
  datatype Outcome =
    | Thrown(error: ConfigError)
    | Swallowed
    | Canceled(entry: OrderId)
    | Bracketed(entry: OrderId, totalFee: real, feeCurrency: string, takeProfit: OrderId, stopLoss: OrderId)

  datatype RunEnd = RunEnd(state: State, outcome: Outcome)

  /** After the fill: fetch the trades, total the fees, place the take-profit leg, then the stop-loss leg. */
  function Bracket(sc: Script, st: State, id: OrderId, pair: string, tpPrice: real, slPrice: real): (r: RunEnd)
    ensures r.outcome.Bracketed? || r.outcome.Swallowed?
    ensures sc.faultAt.None? ==> r.outcome.Bracketed?
    ensures r.outcome.Bracketed? ==>
      r.outcome.entry == id && r.outcome.totalFee == TotalFee(sc.trades, id) && r.outcome.feeCurrency == FeeCurrency(sc.trades, id)
    ensures st.log <= r.state.log
  {
    var t := TradesStep(sc, st, pair);
    if t.reply.Fault? then RunEnd(t.state, Swallowed)
    else
      var fee, currency := TotalFee(t.reply.value, id), FeeCurrency(t.reply.value, id);
      var tp := CreateStep(sc, t.state, TakeProfitOrder(pair, tpPrice));
      if tp.reply.Fault? then RunEnd(tp.state, Swallowed)
      else
        var sl := CreateStep(sc, tp.state, StopLossOrder(pair, slPrice));
        if sl.reply.Fault? then RunEnd(sl.state, Swallowed)
        else RunEnd(sl.state, Bracketed(id, fee, currency, tp.reply.value, sl.reply.value))
  }

  /** The whole run, from the gateway state `st` before the call. */
  function Run(sc: Script, env: map<string, string>, st: State, name: string, pair: string,
               buyPrice: real, stopPrice: real, tpPrice: real, slPrice: real): (r: RunEnd)
    ensures r.outcome.Thrown? <==> Resolve(env, name).Failure?
    ensures r.outcome.Thrown? ==> r.state == st
    ensures st.log <= r.state.log
    ensures Resolve(env, name).Success? && sc.faultAt.None? ==> r.outcome.Bracketed? || r.outcome.Canceled?
  {
    match Resolve(env, name)
    case Failure(e) => RunEnd(st, Thrown(e))
    case Success(_) =>
      var entry := CreateStep(sc, st, EntryOrder(pair, buyPrice, stopPrice));
      if entry.reply.Fault? then RunEnd(entry.state, Swallowed)
      else
        var id := entry.reply.value;
        var p := Poll(sc, entry.state, entry.state.clock, id, pair);
        match p.verdict
        case Faulted => RunEnd(p.state, Swallowed)
        case Expired =>
          var c := CancelStep(sc, p.state, id, pair);
          RunEnd(c.state, if c.reply.Fault? then Swallowed else Canceled(id))
        case Filled => Bracket(sc, p.state, id, pair, tpPrice, slPrice)
  }

  /** The controller itself, over a gateway; every gateway error inside it is caught and only ends the run. */
  method PlaceStopLimitOrder(gw: Gateway, env: map<string, string>, name: string, pair: string,
                             buyPrice: real, stopPrice: real, tpPrice: real, slPrice: real)
    returns (outcome: Outcome)
    modifies gw
    ensures RunEnd(gw.Snapshot(), outcome) ==
            Run(gw.script, env, old(gw.Snapshot()), name, pair, buyPrice, stopPrice, tpPrice, slPrice)
  {
    var venue := Resolve(env, name);
    if venue.Failure? {
      return Thrown(venue.error);
    }

    var entry := gw.Create(EntryOrder(pair, buyPrice, stopPrice));
    if entry.Fault? {
      return Swallowed;
    }
    var id := entry.value;

    var start := gw.Now();
    ghost var target := Poll(gw.script, gw.Snapshot(), start, id, pair);
    var filled := false;
    while gw.Now() - start < TimeLimit
      invariant Poll(gw.script, gw.Snapshot(), start, id, pair).state == target.state
      invariant Poll(gw.script, gw.Snapshot(), start, id, pair).verdict == target.verdict
      decreases TimeLimit - (gw.clock - start)
    {
      ghost var before := gw.Snapshot();
      gw.Sleep(PollInterval);
      var status := gw.Fetch(id, pair);
      if status.Fault? {
        return Swallowed;
      }
      if status.value == Closed {
        assert Poll(gw.script, before, start, id, pair) == PollEnd(gw.Snapshot(), Filled, 1);
        filled := true;
        break;
      }
    }
    assert filled ==> target.state == gw.Snapshot() && target.verdict == Filled;
    assert !filled ==> target.state == gw.Snapshot() && target.verdict == Expired;

    if !filled {
      var canceled := gw.Cancel(id, pair);
      return if canceled.Fault? then Swallowed else Canceled(id);
    }

    var trades := gw.MyTrades(pair);
    if trades.Fault? {
      return Swallowed;
    }
    var totalFee := TotalFee(trades.value, id);
    var feeCurrency := FeeCurrency(trades.value, id);
    var tp := gw.Create(TakeProfitOrder(pair, tpPrice));
    if tp.Fault? {
      return Swallowed;
    }
    var sl := gw.Create(StopLossOrder(pair, slPrice));
    if sl.Fault? {
      return Swallowed;
    }
    outcome := Bracketed(id, totalFee, feeCurrency, tp.value, sl.value);
  }

  // Properties of the polling loop.

  /**
   * Polling makes `rounds` wait-then-query rounds and nothing else; every round
   * is one gateway call, and a failed call is the last one.
   */
  lemma {:induction false} PollTrace(sc: Script, st: State, start: int, id: OrderId, pair: string)
    ensures var p := Poll(sc, st, start, id, pair);
      p.state.log == st.log + Rounds(id, pair, p.rounds) &&
      p.state.made == st.made + p.rounds &&
      p.state.placed == st.placed &&
      p.state.polls == st.polls + p.rounds - (if p.verdict == Faulted then 1 else 0) &&
      (p.verdict == Faulted ==> p.rounds > 0 && sc.faultAt == Some(p.state.made - 1)) &&
      (sc.faultAt.Some? && st.made <= sc.faultAt.value < p.state.made ==> p.verdict == Faulted)
    decreases TimeLimit - (st.clock - start)
  {
    var p := Poll(sc, st, start, id, pair);
    if st.clock - start < TimeLimit {
      var f := FetchStep(sc, WaitStep(sc, st, PollInterval), id, pair);
      if f.reply.Ok? && f.reply.value != Closed {
        PollTrace(sc, f.state, start, id, pair);
        var q := Poll(sc, f.state, start, id, pair);
        assert p.rounds == q.rounds + 1;
        calc {
          p.state.log;
          f.state.log + Rounds(id, pair, q.rounds);
          (st.log + [Wait(PollInterval)] + [FetchOrder(id, pair)]) + Rounds(id, pair, q.rounds);
          { assert st.log + [Wait(PollInterval)] + [FetchOrder(id, pair)] == st.log + [Wait(PollInterval), FetchOrder(id, pair)]; }
          st.log + ([Wait(PollInterval), FetchOrder(id, pair)] + Rounds(id, pair, q.rounds));
        }
      } else {
        assert Rounds(id, pair, 1) == [Wait(PollInterval), FetchOrder(id, pair)];
      }
    }
  }

  /**
   * A round starts only while less than the time limit has passed, each round
   * waits at least one interval, and an expired loop has reached the limit; so
   * from `start` there are at most 300000 / 10000 = 30 status polls.
   */
  lemma {:induction false} PollTiming(sc: Script, st: State, start: int, id: OrderId, pair: string)
    ensures var p := Poll(sc, st, start, id, pair);
      (p.rounds == 0 <==> st.clock - start >= TimeLimit) &&
      (p.rounds > 0 ==> st.clock - start + PollInterval * (p.rounds - 1) < TimeLimit) &&
      (p.verdict == Expired ==> p.state.clock - start >= TimeLimit) &&
      p.state.clock >= st.clock
    decreases TimeLimit - (st.clock - start)
  {
    if st.clock - start < TimeLimit {
      var f := FetchStep(sc, WaitStep(sc, st, PollInterval), id, pair);
      if f.reply.Ok? && f.reply.value != Closed {
        PollTiming(sc, f.state, start, id, pair);
      }
    }
  }

  lemma PollAtMostThirtyRounds(sc: Script, st: State, id: OrderId, pair: string)
    ensures 1 <= Poll(sc, st, st.clock, id, pair).rounds <= MaxPolls
  {
    PollTiming(sc, st, st.clock, id, pair);
  }

  /**
   * The loop reports a fill exactly when the last status it read was "closed";
   * every status read before it, and every status read by a loop that did not
   * report a fill, was something else ("open", "canceled", "rejected", ...).
   */
  lemma {:induction false} PollStatuses(sc: Script, st: State, start: int, id: OrderId, pair: string)
    ensures var p := Poll(sc, st, start, id, pair);
      (p.verdict == Filled ==> p.state.polls > st.polls && StatusAt(sc, p.state.polls - 1) == Closed) &&
      (forall i :: st.polls <= i < p.state.polls - (if p.verdict == Filled then 1 else 0) ==> StatusAt(sc, i) != Closed) &&
      p.state.polls >= st.polls
    decreases TimeLimit - (st.clock - start)
  {
    if st.clock - start < TimeLimit {
      var f := FetchStep(sc, WaitStep(sc, st, PollInterval), id, pair);
      if f.reply.Ok? && f.reply.value != Closed {
        PollStatuses(sc, f.state, start, id, pair);
      }
    }
  }

  // Properties of a whole run.

  /** Both configuration errors are thrown before any gateway call, the venue check first. */
  lemma RunRejectsConfiguration(sc: Script, env: map<string, string>, st: State, name: string, pair: string,
                                buyPrice: real, stopPrice: real, tpPrice: real, slPrice: real)
    requires Resolve(env, name).Failure?
    ensures var r := Run(sc, env, st, name, pair, buyPrice, stopPrice, tpPrice, slPrice);
      r.state == st &&
      r.outcome == Thrown(if ToLower(name) in ExchangeIds.Keys then MissingCredentials else UnsupportedExchange(name))
  {
  }

  /**
   * Once the configuration resolves, nothing is thrown: the entry order is the
   * first call; a gateway failure ends the run right after the failing call, and
   * a run that does not end that way saw no failure.
   */
  lemma RunSwallowsGatewayErrors(sc: Script, env: map<string, string>, st: State, name: string, pair: string,
                                 buyPrice: real, stopPrice: real, tpPrice: real, slPrice: real)
    requires Resolve(env, name).Success?
    ensures var r := Run(sc, env, st, name, pair, buyPrice, stopPrice, tpPrice, slPrice);
      !r.outcome.Thrown? &&
      |r.state.log| > |st.log| && r.state.log[|st.log|] == CreateOrder(OrderRequest(pair, StopLimit, Buy, 0.01, buyPrice, Some(stopPrice))) &&
      (r.outcome.Swallowed? ==> st.made < r.state.made && sc.faultAt == Some(r.state.made - 1)) &&
      (!r.outcome.Swallowed? ==> !(sc.faultAt.Some? && st.made <= sc.faultAt.value < r.state.made))
  {
    var entry := CreateStep(sc, st, EntryOrder(pair, buyPrice, stopPrice));
    if entry.reply.Ok? {
      var id := entry.reply.value;
      PollTrace(sc, entry.state, entry.state.clock, id, pair);
      var p := Poll(sc, entry.state, entry.state.clock, id, pair);
      assert (st.log + [CreateOrder(EntryOrder(pair, buyPrice, stopPrice))] + Rounds(id, pair, p.rounds))[|st.log|]
          == CreateOrder(EntryOrder(pair, buyPrice, stopPrice));
    }
  }

  /**
   * A run that ends with the bracket placed made exactly these calls: the buy
   * stop-limit entry, between 1 and 30 polling rounds whose last status read was
   * "closed", the trade history, the sell limit take-profit at `tpPrice`, and
   * the sell stop-limit stop-loss at `slPrice` triggered at `slPrice`. It did
   * not cancel, and the fees are those of the entry order's trades.
   */
  lemma RunBracketed(sc: Script, env: map<string, string>, st: State, name: string, pair: string,
                     buyPrice: real, stopPrice: real, tpPrice: real, slPrice: real) returns (k: nat)
    requires Run(sc, env, st, name, pair, buyPrice, stopPrice, tpPrice, slPrice).outcome.Bracketed?
    ensures var r := Run(sc, env, st, name, pair, buyPrice, stopPrice, tpPrice, slPrice);
      var id := r.outcome.entry;
      1 <= k <= MaxPolls &&
      r.state.log == st.log + [CreateOrder(OrderRequest(pair, StopLimit, Buy, 0.01, buyPrice, Some(stopPrice)))]
                     + Rounds(id, pair, k)
                     + [FetchMyTrades(pair),
                        CreateOrder(OrderRequest(pair, Limit, Sell, 0.01, tpPrice, None)),
                        CreateOrder(OrderRequest(pair, StopLimit, Sell, 0.01, slPrice, Some(slPrice)))] &&
      id == IdAt(sc, st.placed) &&
      r.outcome.takeProfit == IdAt(sc, st.placed + 1) &&
      r.outcome.stopLoss == IdAt(sc, st.placed + 2) &&
      r.state.polls == st.polls + k &&
      StatusAt(sc, r.state.polls - 1) == Closed &&
      (forall i :: st.polls <= i < r.state.polls - 1 ==> StatusAt(sc, i) != Closed) &&
      r.outcome.totalFee == TotalFee(sc.trades, id) &&
      r.outcome.feeCurrency == FeeCurrency(sc.trades, id)
  {
    var entry := CreateStep(sc, st, EntryOrder(pair, buyPrice, stopPrice));
    var id := entry.reply.value;
    var p := Poll(sc, entry.state, entry.state.clock, id, pair);
    PollTrace(sc, entry.state, entry.state.clock, id, pair);
    PollStatuses(sc, entry.state, entry.state.clock, id, pair);
    PollAtMostThirtyRounds(sc, entry.state, id, pair);
    k := p.rounds;
    var t := TradesStep(sc, p.state, pair);
    var tp := CreateStep(sc, t.state, TakeProfitOrder(pair, tpPrice));
    var sl := CreateStep(sc, tp.state, StopLossOrder(pair, slPrice));
    assert sl.state.log == p.state.log + [FetchMyTrades(pair), CreateOrder(TakeProfitOrder(pair, tpPrice)), CreateOrder(StopLossOrder(pair, slPrice))];
  }

  /**
   * A run that ends with the entry cancelled made exactly these calls: the
   * entry, between 1 and 30 polling rounds none of which read "closed", ending
   * once the time limit had passed, and one cancellation of the entry order. It
   * fetched no trades and placed no other order.
   */
  lemma RunCanceled(sc: Script, env: map<string, string>, st: State, name: string, pair: string,
                    buyPrice: real, stopPrice: real, tpPrice: real, slPrice: real) returns (k: nat)
    requires Run(sc, env, st, name, pair, buyPrice, stopPrice, tpPrice, slPrice).outcome.Canceled?
    ensures var r := Run(sc, env, st, name, pair, buyPrice, stopPrice, tpPrice, slPrice);
      var id := r.outcome.entry;
      1 <= k <= MaxPolls &&
      r.state.log == st.log + [CreateOrder(OrderRequest(pair, StopLimit, Buy, 0.01, buyPrice, Some(stopPrice)))]
                     + Rounds(id, pair, k) + [CancelOrder(id, pair)] &&
      id == IdAt(sc, st.placed) &&
      r.state.polls == st.polls + k &&
      (forall i :: st.polls <= i < r.state.polls ==> StatusAt(sc, i) != Closed) &&
      r.state.clock - st.clock >= TimeLimit
  {
    var entry := CreateStep(sc, st, EntryOrder(pair, buyPrice, stopPrice));
    var id := entry.reply.value;
    var p := Poll(sc, entry.state, entry.state.clock, id, pair);
    PollTrace(sc, entry.state, entry.state.clock, id, pair);
    PollStatuses(sc, entry.state, entry.state.clock, id, pair);
    PollTiming(sc, entry.state, entry.state.clock, id, pair);
    PollAtMostThirtyRounds(sc, entry.state, id, pair);
    k := p.rounds;
  }

  /** Number of orders placed in a sequence of calls. */
  function Placements(calls: seq<Call>): nat
  {
    if calls == [] then 0 else (if calls[0].CreateOrder? then 1 else 0) + Placements(calls[1..])
  }

  /** Number of cancellations in a sequence of calls. */
  function Cancellations(calls: seq<Call>): nat
  {
    if calls == [] then 0 else (if calls[0].CancelOrder? then 1 else 0) + Cancellations(calls[1..])
  }

  /** Number of trade-history queries in a sequence of calls. */
  function TradeQueries(calls: seq<Call>): nat
  {
    if calls == [] then 0 else (if calls[0].FetchMyTrades? then 1 else 0) + TradeQueries(calls[1..])
  }

  /** Number of order-status queries in a sequence of calls. */
  function StatusQueries(calls: seq<Call>): nat
  {
    if calls == [] then 0 else (if calls[0].FetchOrder? then 1 else 0) + StatusQueries(calls[1..])
  }

  lemma {:induction false} CountsOfConcat(a: seq<Call>, b: seq<Call>)
    ensures Placements(a + b) == Placements(a) + Placements(b)
    ensures Cancellations(a + b) == Cancellations(a) + Cancellations(b)
    ensures TradeQueries(a + b) == TradeQueries(a) + TradeQueries(b)
    ensures StatusQueries(a + b) == StatusQueries(a) + StatusQueries(b)
    decreases |a|
  {
    if a == [] {
      assert a + b == b;
    } else {
      assert (a + b)[1..] == a[1..] + b;
      CountsOfConcat(a[1..], b);
    }
  }

  /** Polling rounds only query the status, once per round. */
  lemma {:induction false} CountsOfRounds(id: OrderId, pair: string, k: nat)
    ensures var calls := Rounds(id, pair, k);
      Placements(calls) == 0 && Cancellations(calls) == 0 && TradeQueries(calls) == 0 && StatusQueries(calls) == k
  {
    if k > 0 {
      CountsOfRounds(id, pair, k - 1);
      CountsOfConcat([Wait(PollInterval), FetchOrder(id, pair)], Rounds(id, pair, k - 1));
      assert [Wait(PollInterval), FetchOrder(id, pair)][1..] == [FetchOrder(id, pair)];
    }
  }

  /**
   * Counted over the calls of one run: with the bracket placed, three orders
   * (entry, take-profit, stop-loss), one trade-history query and no cancel; with
   * the entry cancelled, one order, exactly one cancel and no trade query. Either
   * way there are at most 30 status queries.
   */
  lemma RunCallCounts(sc: Script, env: map<string, string>, st: State, name: string, pair: string,
                      buyPrice: real, stopPrice: real, tpPrice: real, slPrice: real)
    requires Run(sc, env, st, name, pair, buyPrice, stopPrice, tpPrice, slPrice).outcome.Bracketed? ||
             Run(sc, env, st, name, pair, buyPrice, stopPrice, tpPrice, slPrice).outcome.Canceled?
    ensures |Run(sc, env, st, name, pair, buyPrice, stopPrice, tpPrice, slPrice).state.log| >= |st.log|
    ensures var r := Run(sc, env, st, name, pair, buyPrice, stopPrice, tpPrice, slPrice);
      var calls := r.state.log[|st.log|..];
      1 <= StatusQueries(calls) <= MaxPolls &&
      (r.outcome.Bracketed? ==> Placements(calls) == 3 && TradeQueries(calls) == 1 && Cancellations(calls) == 0) &&
      (r.outcome.Canceled? ==> Placements(calls) == 1 && TradeQueries(calls) == 0 && Cancellations(calls) == 1)
  {
    var r := Run(sc, env, st, name, pair, buyPrice, stopPrice, tpPrice, slPrice);
    var entry := CreateOrder(OrderRequest(pair, StopLimit, Buy, 0.01, buyPrice, Some(stopPrice)));
    var k: nat;
    var tail: seq<Call>;
    if r.outcome.Bracketed? {
      k := RunBracketed(sc, env, st, name, pair, buyPrice, stopPrice, tpPrice, slPrice);
      tail := [FetchMyTrades(pair),
               CreateOrder(OrderRequest(pair, Limit, Sell, 0.01, tpPrice, None)),
               CreateOrder(OrderRequest(pair, StopLimit, Sell, 0.01, slPrice, Some(slPrice)))];
      BracketTailCounts(tail);
    } else {
      k := RunCanceled(sc, env, st, name, pair, buyPrice, stopPrice, tpPrice, slPrice);
      tail := [CancelOrder(r.outcome.entry, pair)];
      CancelTailCounts(tail);
    }
    var calls := [entry] + Rounds(r.outcome.entry, pair, k) + tail;
    assert r.state.log[|st.log|..] == calls;
    TraceCounts(entry, r.outcome.entry, pair, k, tail);
  }

  /** The calls of a run: one placement, then `k` polling rounds, then `tail`. */
  lemma TraceCounts(entry: Call, id: OrderId, pair: string, k: nat, tail: seq<Call>)
    requires entry.CreateOrder?
    ensures var calls := [entry] + Rounds(id, pair, k) + tail;
      Placements(calls) == 1 + Placements(tail) && Cancellations(calls) == Cancellations(tail) &&
      TradeQueries(calls) == TradeQueries(tail) && StatusQueries(calls) == k + StatusQueries(tail)
  {
    assert [entry][1..] == [];
    CountsOfRounds(id, pair, k);
    CountsOfConcat([entry], Rounds(id, pair, k));
    CountsOfConcat([entry] + Rounds(id, pair, k), tail);
  }

  lemma BracketTailCounts(tail: seq<Call>)
    requires |tail| == 3 && tail[0].FetchMyTrades? && tail[1].CreateOrder? && tail[2].CreateOrder?
    ensures Placements(tail) == 2 && TradeQueries(tail) == 1 && Cancellations(tail) == 0 && StatusQueries(tail) == 0
  {
    var legs := tail[1..];
    assert legs[1..][1..] == [];
    assert Placements(legs[1..]) == 1 && TradeQueries(legs[1..]) == 0 && Cancellations(legs[1..]) == 0;
    assert StatusQueries(legs[1..]) == 0;
  }

  lemma CancelTailCounts(tail: seq<Call>)
    requires |tail| == 1 && tail[0].CancelOrder?
    ensures Placements(tail) == 0 && TradeQueries(tail) == 0 && Cancellations(tail) == 1 && StatusQueries(tail) == 0
  {
    assert tail[1..] == [];
  }

  /**
   * With waits that take exactly the interval, no failure and no "closed" status,
   * the loop polls exactly 30 times and then gives up.
   */
  lemma {:induction false} PollNeverClosed(sc: Script, st: State, start: int, id: OrderId, pair: string, j: nat)
    requires sc.faultAt == None && sc.delays == [] && Closed !in sc.statuses
    requires j <= MaxPolls && st.clock - start == PollInterval * j
    ensures Poll(sc, st, start, id, pair).verdict == Expired
    ensures Poll(sc, st, start, id, pair).rounds == MaxPolls - j
    decreases MaxPolls - j
  {
    if j < MaxPolls {
      var f := FetchStep(sc, WaitStep(sc, st, PollInterval), id, pair);
      assert f.reply.value == StatusAt(sc, st.polls);
      PollNeverClosed(sc, f.state, start, id, pair, j + 1);
    }
  }

  lemma RunNeverClosed(sc: Script, env: map<string, string>, st: State, name: string, pair: string,
                       buyPrice: real, stopPrice: real, tpPrice: real, slPrice: real)
    requires Resolve(env, name).Success?
    requires sc.faultAt == None && sc.delays == [] && Closed !in sc.statuses
    ensures var r := Run(sc, env, st, name, pair, buyPrice, stopPrice, tpPrice, slPrice);
      var id := IdAt(sc, st.placed);
      r.outcome == Canceled(id) &&
      r.state.log == st.log + [CreateOrder(OrderRequest(pair, StopLimit, Buy, 0.01, buyPrice, Some(stopPrice)))]
                     + Rounds(id, pair, MaxPolls) + [CancelOrder(id, pair)]
  {
    var entry := CreateStep(sc, st, EntryOrder(pair, buyPrice, stopPrice));
    PollNeverClosed(sc, entry.state, entry.state.clock, IdAt(sc, st.placed), pair, 0);
    PollTrace(sc, entry.state, entry.state.clock, IdAt(sc, st.placed), pair);
  }

  /** Credentials for the "coinbasepro" exchange in the environment. */
  const ExampleEnv: map<string, string> :=
    map["COINBASEPRO_API_KEY" := "k", "COINBASEPRO_API_SECRET" := "s", "COINBASEPRO_API_PASSPHRASE" := "p"]

  lemma ExampleEnvResolves(name: string)
    requires name == "coinbase" || name == "Coinbase"
    ensures Resolve(ExampleEnv, name) == Success(Venue("coinbasepro", Credentials("k", "s", "p")))
  {
    assert ToLower(name) == "coinbase";
    assert ToUpper("coinbasepro") == "COINBASEPRO";
    assert EnvName("coinbasepro", "API_KEY") == "COINBASEPRO_API_KEY";
    assert EnvName("coinbasepro", "API_SECRET") == "COINBASEPRO_API_SECRET";
    assert EnvName("coinbasepro", "API_PASSPHRASE") == "COINBASEPRO_API_PASSPHRASE";
  }

  /** The gateway state right after the example's entry order was placed at time 0. */
  function ExampleEntered(): State
  {
    State(0, 1, 0, 0, 1, [CreateOrder(EntryOrder("BTC/USD", 30500.0, 30000.0))])
  }

  /** One polling round that reads a status other than "closed" from the example state. */
  lemma ExampleRoundOpen(sc: Script, st: State)
    requires sc.faultAt == None && sc.delays == []
    requires st.clock < TimeLimit - PollInterval && 0 <= st.clock && StatusAt(sc, st.polls) != Closed
    ensures var next := st.(clock := st.clock + PollInterval, polls := st.polls + 1, waits := st.waits + 1, made := st.made + 1,
                            log := st.log + Rounds("E", "BTC/USD", 1));
      Poll(sc, st, 0, "E", "BTC/USD") == Poll(sc, next, 0, "E", "BTC/USD").(rounds := Poll(sc, next, 0, "E", "BTC/USD").rounds + 1)
  {
    assert Rounds("E", "BTC/USD", 1) == [Wait(PollInterval), FetchOrder("E", "BTC/USD")];
    assert st.log + [Wait(PollInterval)] + [FetchOrder("E", "BTC/USD")] == st.log + Rounds("E", "BTC/USD", 1);
  }

  lemma ExampleRoundClosed(sc: Script, st: State)
    requires sc.faultAt == None && sc.delays == []
    requires st.clock < TimeLimit && 0 <= st.clock && StatusAt(sc, st.polls) == Closed
    ensures var next := st.(clock := st.clock + PollInterval, polls := st.polls + 1, waits := st.waits + 1, made := st.made + 1,
                            log := st.log + Rounds("E", "BTC/USD", 1));
      Poll(sc, st, 0, "E", "BTC/USD") == PollEnd(next, Filled, 1)
  {
    assert Rounds("E", "BTC/USD", 1) == [Wait(PollInterval), FetchOrder("E", "BTC/USD")];
    assert st.log + [Wait(PollInterval)] + [FetchOrder("E", "BTC/USD")] == st.log + Rounds("E", "BTC/USD", 1);
  }

  const ExampleScript: Script :=
    Script(["E", "TP", "SL"], ["open", "open", "closed"], [],
           [Trade(Some("X"), Some(FeeInfo(Some(4.0), Some("EUR")))),
            Trade(Some("E"), Some(FeeInfo(Some(1.5), Some("USD"))))], None)

  /**
   * The prices of the example caller (example.ts) with the venue name
   * "coinbase" and a made-up reply script: BTC/USD, entry 30500 triggered at
   * 30000, take-profit 31000, stop-loss 29500; the order reads "open" twice and
   * "closed" on the third poll, and its one trade paid 1.5 USD (a trade of
   * another order, paid in EUR, is ignored).
   */
  lemma ExampleFilledOnThirdPoll()
    ensures var r := Run(ExampleScript, ExampleEnv, State(0, 0, 0, 0, 0, []), "coinbase", "BTC/USD",
                         30500.0, 30000.0, 31000.0, 29500.0);
      r.outcome == Bracketed("E", 1.5, "USD", "TP", "SL") &&
      r.state.log == [CreateOrder(OrderRequest("BTC/USD", StopLimit, Buy, 0.01, 30500.0, Some(30000.0)))]
                     + Rounds("E", "BTC/USD", 3)
                     + [FetchMyTrades("BTC/USD"),
                        CreateOrder(OrderRequest("BTC/USD", Limit, Sell, 0.01, 31000.0, None)),
                        CreateOrder(OrderRequest("BTC/USD", StopLimit, Sell, 0.01, 29500.0, Some(29500.0)))]
  {
    var sc := ExampleScript;
    ExampleEnvResolves("coinbase");
    var st1 := ExampleEntered();
    var st2 := st1.(clock := 10000, polls := 1, waits := 1, made := 2, log := st1.log + Rounds("E", "BTC/USD", 1));
    var st3 := st2.(clock := 20000, polls := 2, waits := 2, made := 3, log := st2.log + Rounds("E", "BTC/USD", 1));
    var st4 := st3.(clock := 30000, polls := 3, waits := 3, made := 4, log := st3.log + Rounds("E", "BTC/USD", 1));
    ExampleRoundOpen(sc, st1);
    ExampleRoundOpen(sc, st2);
    ExampleRoundClosed(sc, st3);
    assert Poll(sc, st1, 0, "E", "BTC/USD") == PollEnd(st4, Filled, 3);
    assert CreateStep(sc, State(0, 0, 0, 0, 0, []), EntryOrder("BTC/USD", 30500.0, 30000.0)) == Step(st1, Ok("E"));
    assert Bracket(sc, st4, "E", "BTC/USD", 31000.0, 29500.0).outcome.Bracketed?;
    var k := RunBracketed(sc, ExampleEnv, State(0, 0, 0, 0, 0, []), "coinbase", "BTC/USD", 30500.0, 30000.0, 31000.0, 29500.0);
    FeeCurrencyOfFirstMatch(sc.trades, "E", 1);
    OwnTradeAdds([sc.trades[0]], sc.trades[1], [], "E");
    NoMatchNoFee([sc.trades[0]], "E");
    assert [sc.trades[0]] + [sc.trades[1]] + [] == sc.trades;
    assert [sc.trades[0]] + [] == [sc.trades[0]];
    PollTrace(sc, st1, 0, "E", "BTC/USD");
  }

  /** A "canceled" status does not end the polling: a later "closed" still places the bracket. */
  lemma CanceledStatusKeepsPolling()
    ensures var sc := Script(["E", "TP", "SL"], ["canceled", "closed"], [], [], None);
      var r := Run(sc, ExampleEnv, State(0, 0, 0, 0, 0, []), "Coinbase", "BTC/USD", 30500.0, 30000.0, 31000.0, 29500.0);
      r.outcome == Bracketed("E", 0.0, "unknown", "TP", "SL") && r.state.polls == 2
  {
    var sc := Script(["E", "TP", "SL"], ["canceled", "closed"], [], [], None);
    ExampleEnvResolves("Coinbase");
    var st1 := ExampleEntered();
    var st2 := st1.(clock := 10000, polls := 1, waits := 1, made := 2, log := st1.log + Rounds("E", "BTC/USD", 1));
    var st3 := st2.(clock := 20000, polls := 2, waits := 2, made := 3, log := st2.log + Rounds("E", "BTC/USD", 1));
    ExampleRoundOpen(sc, st1);
    ExampleRoundClosed(sc, st2);
    assert Poll(sc, st1, 0, "E", "BTC/USD") == PollEnd(st3, Filled, 2);
    assert CreateStep(sc, State(0, 0, 0, 0, 0, []), EntryOrder("BTC/USD", 30500.0, 30000.0)) == Step(st1, Ok("E"));
    NoMatchNoFee([], "E");
  }

  /**
   * Every resolved run whose entry was placed, by how the polling ended: after a
   * failed status query nothing more is called; after the time limit exactly one
   * cancellation follows, whether or not it then fails, and no trades or legs;
   * after a fill the calls are a prefix of trades, take-profit, stop-loss, so a
   * failure there stops the rest (a failed stop-loss leaves the take-profit
   * placed) and no cancellation is ever made.
   */
  lemma RunAfterPoll(sc: Script, env: map<string, string>, st: State, name: string, pair: string,
                     buyPrice: real, stopPrice: real, tpPrice: real, slPrice: real)
    requires Resolve(env, name).Success?
    requires CreateStep(sc, st, EntryOrder(pair, buyPrice, stopPrice)).reply.Ok?
    ensures var e := CreateStep(sc, st, EntryOrder(pair, buyPrice, stopPrice));
      var id := e.reply.value;
      var p := Poll(sc, e.state, e.state.clock, id, pair);
      var r := Run(sc, env, st, name, pair, buyPrice, stopPrice, tpPrice, slPrice);
      e.state.log == st.log + [CreateOrder(OrderRequest(pair, StopLimit, Buy, 0.01, buyPrice, Some(stopPrice)))] &&
      p.state.log == e.state.log + Rounds(id, pair, p.rounds) &&
      (p.verdict == Faulted ==> r.state.log == p.state.log && r.outcome == Swallowed) &&
      (p.verdict == Expired ==> r.state.log == p.state.log + [CancelOrder(id, pair)] &&
                                (r.outcome == Canceled(id) || r.outcome == Swallowed)) &&
      (p.verdict == Filled ==> |p.state.log| <= |r.state.log| &&
                               r.state.log[|p.state.log|..] <=
                                 [FetchMyTrades(pair),
                                  CreateOrder(OrderRequest(pair, Limit, Sell, 0.01, tpPrice, None)),
                                  CreateOrder(OrderRequest(pair, StopLimit, Sell, 0.01, slPrice, Some(slPrice)))])
  {
    var e := CreateStep(sc, st, EntryOrder(pair, buyPrice, stopPrice));
    var id := e.reply.value;
    PollTrace(sc, e.state, e.state.clock, id, pair);
    var p := Poll(sc, e.state, e.state.clock, id, pair);
    if p.verdict == Filled {
      var t := TradesStep(sc, p.state, pair);
      var tp := CreateStep(sc, t.state, TakeProfitOrder(pair, tpPrice));
      var sl := CreateStep(sc, tp.state, StopLossOrder(pair, slPrice));
      var legs := [FetchMyTrades(pair), CreateOrder(TakeProfitOrder(pair, tpPrice)), CreateOrder(StopLossOrder(pair, slPrice))];
      assert t.state.log[|p.state.log|..] == legs[..1];
      assert tp.state.log[|p.state.log|..] == legs[..2];
      assert sl.state.log[|p.state.log|..] == legs;
    }
  }
}
