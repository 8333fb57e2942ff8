/**
 * The exchange as the controller sees it: order placement, order status,
 * cancellation and trade history for one trading pair, plus the wall clock and
 * the wait between polls. Replies come from a fixed script; every call is
 * recorded in a log so that contracts can speak of which calls were made, in
 * which order and with which arguments.
 */
module Exchange {
  import opened Wrappers
  import opened Fees

  datatype Side = Buy | Sell

  datatype OrderType = Limit | StopLimit

  /** The arguments of `createOrder(pair, type, side, amount, price, params)`; `stopPrice` is the only parameter used. */
  datatype OrderRequest = OrderRequest(
    pair: string, kind: OrderType, side: Side, amount: real, price: real, stopPrice: Option<real>)

  type Status = string

  datatype Call =
    | CreateOrder(request: OrderRequest)
    | FetchOrder(id: OrderId, pair: string)
    | CancelOrder(id: OrderId, pair: string)
    | FetchMyTrades(pair: string)
    | Wait(ms: nat)

  /**
   * The replies the exchange gives, in order: the identifiers of successive new
   * orders, the statuses of successive order queries (past the end the order
   * stays "open"), the extra delay of each wait beyond the requested time, the
   * trade history, and the gateway call, counted from 0, that fails, if any.
   */
  datatype Script = Script(
    ids: seq<OrderId>, statuses: seq<Status>, delays: seq<nat>, trades: seq<Trade>, faultAt: Option<nat>)

  /** Clock, counters of each kind of reply consumed, the number of gateway calls made, and the call log. */
  datatype State = State(clock: int, placed: nat, polls: nat, waits: nat, made: nat, log: seq<Call>)

  datatype Reply<+T> = Ok(value: T) | Fault

  datatype Step<+T> = Step(state: State, reply: Reply<T>)

  function IdAt(sc: Script, k: nat): OrderId
  {
    if k < |sc.ids| then sc.ids[k] else ""
  }

  function StatusAt(sc: Script, k: nat): Status
  {
    if k < |sc.statuses| then sc.statuses[k] else "open"
  }

  function DelayAt(sc: Script, k: nat): nat
  {
    if k < |sc.delays| then sc.delays[k] else 0
  }

  predicate FailsNext(sc: Script, st: State)
  {
    sc.faultAt == Some(st.made)
  }

  /** A gateway call is made and logged whether or not it then fails. */
  function Attempt(st: State, c: Call): State
  {
    st.(made := st.made + 1, log := st.log + [c])
  }

  function CreateStep(sc: Script, st: State, req: OrderRequest): Step<OrderId>
  {
    var s := Attempt(st, CreateOrder(req));
    if FailsNext(sc, st) then Step(s, Fault) else Step(s.(placed := st.placed + 1), Ok(IdAt(sc, st.placed)))
  }

  function FetchStep(sc: Script, st: State, id: OrderId, pair: string): Step<Status>
  {
    var s := Attempt(st, FetchOrder(id, pair));
    if FailsNext(sc, st) then Step(s, Fault) else Step(s.(polls := st.polls + 1), Ok(StatusAt(sc, st.polls)))
  }

  function CancelStep(sc: Script, st: State, id: OrderId, pair: string): Step<()>
  {
    var s := Attempt(st, CancelOrder(id, pair));
    if FailsNext(sc, st) then Step(s, Fault) else Step(s, Ok(()))
  }

  function TradesStep(sc: Script, st: State, pair: string): Step<seq<Trade>>
  {
    var s := Attempt(st, FetchMyTrades(pair));
    if FailsNext(sc, st) then Step(s, Fault) else Step(s, Ok(sc.trades))
  }

  /** A wait lasts at least the time asked for. */
  function WaitStep(sc: Script, st: State, ms: nat): (r: State)
    ensures r.clock >= st.clock + ms
  {
    st.(clock := st.clock + ms + DelayAt(sc, st.waits), waits := st.waits + 1, log := st.log + [Wait(ms)])
  }

  class Gateway {
    const script: Script
    var clock: int
    var placed: nat
    var polls: nat
    var waits: nat
    var made: nat
    ghost var log: seq<Call>

    ghost function Snapshot(): State
      reads this
    {
      State(clock, placed, polls, waits, made, log)
    }

    constructor (script: Script, clock: int)
      ensures this.script == script
      ensures Snapshot() == State(clock, 0, 0, 0, 0, [])
    {
      this.script := script;
      this.clock := clock;
      placed, polls, waits, made := 0, 0, 0, 0;
      log := [];
    }

    /** The current time in milliseconds. */
    function Now(): int
      reads this
    {
      clock
    }

    method Sleep(ms: nat)
      modifies this
      ensures Snapshot() == WaitStep(script, old(Snapshot()), ms)
    {
      clock := clock + ms + DelayAt(script, waits);
      waits := waits + 1;
      log := log + [Wait(ms)];
    }

    method Create(req: OrderRequest) returns (r: Reply<OrderId>)
      modifies this
      ensures Step(Snapshot(), r) == CreateStep(script, old(Snapshot()), req)
    {
      var fails := script.faultAt == Some(made);
      made := made + 1;
      log := log + [CreateOrder(req)];
      if fails {
        r := Fault;
      } else {
        r := Ok(IdAt(script, placed));
        placed := placed + 1;
      }
    }

    method Fetch(id: OrderId, pair: string) returns (r: Reply<Status>)
      modifies this
      ensures Step(Snapshot(), r) == FetchStep(script, old(Snapshot()), id, pair)
    {
      var fails := script.faultAt == Some(made);
      made := made + 1;
      log := log + [FetchOrder(id, pair)];
      if fails {
        r := Fault;
      } else {
        r := Ok(StatusAt(script, polls));
        polls := polls + 1;
      }
    }

    method Cancel(id: OrderId, pair: string) returns (r: Reply<()>)
      modifies this
      ensures Step(Snapshot(), r) == CancelStep(script, old(Snapshot()), id, pair)
    {
      var fails := script.faultAt == Some(made);
      made := made + 1;
      log := log + [CancelOrder(id, pair)];
      r := if fails then Fault else Ok(());
    }

    method MyTrades(pair: string) returns (r: Reply<seq<Trade>>)
      modifies this
      ensures Step(Snapshot(), r) == TradesStep(script, old(Snapshot()), pair)
    {
      var fails := script.faultAt == Some(made);
      made := made + 1;
      log := log + [FetchMyTrades(pair)];
      r := if fails then Fault else Ok(script.trades);
    }
  }
}
