/**
 * The fees of a filled entry order (server.ts:108-116): the trades of the pair
 * are filtered to those of the entry order, their fee costs are folded left to
 * right from 0, and the currency is read off the first of them.
 */
module Fees {
  import opened Wrappers

  type OrderId = string

  /** The optional fee of a trade; either part may be absent. */
  datatype FeeInfo = FeeInfo(cost: Option<real>, currency: Option<string>)

  /** One fill as the trade history reports it: the order it belongs to and its fee. */
  datatype Trade = Trade(order: Option<OrderId>, fee: Option<FeeInfo>)

  predicate BelongsTo(t: Trade, id: OrderId)
  {
    t.order == Some(id)
  }

  /** `trade.fee?.cost ?? 0` */
  function CostOf(t: Trade): (r: real)
    ensures t.fee.None? ==> r == 0.0
    ensures t.fee.Some? && t.fee.value.cost.None? ==> r == 0.0
    ensures t.fee.Some? && t.fee.value.cost.Some? ==> r == t.fee.value.cost.value
  {
    match t.fee
    case None => 0.0
    case Some(f) => match f.cost { case None => 0.0 case Some(c) => c }
  }

  /** `trade.fee?.currency || "unknown"`: an absent or empty currency reads "unknown". */
  function CurrencyOf(t: Trade): (r: string)
    ensures r != ""
    ensures r != "unknown" ==> t.fee.Some? && t.fee.value.currency == Some(r)
    ensures t.fee.Some? && t.fee.value.currency.Some? && t.fee.value.currency.value != "" ==> r == t.fee.value.currency.value
  {
    match t.fee
    case None => "unknown"
    case Some(f) =>
      match f.currency
      case None => "unknown"
      case Some(c) => if c == "" then "unknown" else c
  }

  /** The trades of one order, in the order the history lists them. */
  function Relevant(trades: seq<Trade>, id: OrderId): (r: seq<Trade>)
    ensures |r| <= |trades|
    ensures forall t :: t in r <==> t in trades && BelongsTo(t, id)
  {
    if trades == [] then []
    else if BelongsTo(trades[0], id) then [trades[0]] + Relevant(trades[1..], id)
    else Relevant(trades[1..], id)
  }

  /** Filtering distributes over concatenation, so it keeps the history order. */
  lemma {:induction false} RelevantAppend(a: seq<Trade>, b: seq<Trade>, id: OrderId)
    ensures Relevant(a + b, id) == Relevant(a, id) + Relevant(b, id)
    decreases |a|
  {
    if a == [] {
      assert a + b == b;
    } else {
      assert (a + b)[1..] == a[1..] + b;
      RelevantAppend(a[1..], b, id);
    }
  }

  /** Filtering keeps every trade of the order as often as it occurs, and no other trade. */
  lemma {:induction false} RelevantMultiplicity(trades: seq<Trade>, id: OrderId)
    ensures forall t :: multiset(Relevant(trades, id))[t] == if BelongsTo(t, id) then multiset(trades)[t] else 0
    decreases |trades|
  {
    if trades != [] {
      RelevantMultiplicity(trades[1..], id);
      assert trades == [trades[0]] + trades[1..];
    }
  }

  /** `reduce((acc, trade) => acc + cost, acc)`, a left fold. */
  function Reduce(acc: real, trades: seq<Trade>): (r: real)
    ensures (forall i :: 0 <= i < |trades| ==> CostOf(trades[i]) >= 0.0) ==> r >= acc
    ensures (forall i :: 0 <= i < |trades| ==> CostOf(trades[i]) == 0.0) ==> r == acc
    decreases |trades|
  {
    if trades == [] then acc else Reduce(acc + CostOf(trades[0]), trades[1..])
  }

  /** The fees of the order's trades; it is 0 when no trade belongs to the order. */
  function TotalFee(trades: seq<Trade>, id: OrderId): (r: real)
    ensures (forall i :: 0 <= i < |trades| ==> !BelongsTo(trades[i], id)) ==> r == 0.0
  {
    var rel := Relevant(trades, id);
    assert rel != [] ==> rel[0] in trades && BelongsTo(rel[0], id);
    Reduce(0.0, rel)
  }

  function FeeCurrency(trades: seq<Trade>, id: OrderId): (r: string)
    ensures r != ""
    ensures r != "unknown" ==>
      exists t :: t in trades && BelongsTo(t, id) && t.fee.Some? && t.fee.value.currency == Some(r)
  {
    var rel := Relevant(trades, id);
    if rel == [] then "unknown" else CurrencyOf(rel[0])
  }

  /** Reference definition: every trade adds its cost when it belongs to the order and nothing otherwise. */
  function MatchingSum(trades: seq<Trade>, id: OrderId): real
  {
    if trades == [] then 0.0
    else (if BelongsTo(trades[0], id) then CostOf(trades[0]) else 0.0) + MatchingSum(trades[1..], id)
  }

  lemma {:induction false} ReduceFromAcc(acc: real, trades: seq<Trade>)
    ensures Reduce(acc, trades) == acc + Reduce(0.0, trades)
    decreases |trades|
  {
    if trades != [] {
      var c := CostOf(trades[0]);
      ReduceFromAcc(acc + c, trades[1..]);
      ReduceFromAcc(c, trades[1..]);
    }
  }

  /** The filter-then-fold total equals the per-trade reference sum. */
  lemma {:induction false} TotalFeeIsMatchingSum(trades: seq<Trade>, id: OrderId)
    ensures TotalFee(trades, id) == MatchingSum(trades, id)
    decreases |trades|
  {
    if trades != [] {
      var rest := Relevant(trades[1..], id);
      TotalFeeIsMatchingSum(trades[1..], id);
      if BelongsTo(trades[0], id) {
        var rel := [trades[0]] + rest;
        assert rel[1..] == rest;
        ReduceFromAcc(CostOf(trades[0]), rest);
      }
    }
  }

  lemma {:induction false} MatchingSumAppend(a: seq<Trade>, b: seq<Trade>, id: OrderId)
    ensures MatchingSum(a + b, id) == MatchingSum(a, id) + MatchingSum(b, id)
    decreases |a|
  {
    if a == [] {
      assert a + b == b;
    } else {
      assert (a + b)[1..] == a[1..] + b;
      MatchingSumAppend(a[1..], b, id);
    }
  }

  /** Fees add up over concatenated trade histories. */
  lemma TotalFeeAppend(a: seq<Trade>, b: seq<Trade>, id: OrderId)
    ensures TotalFee(a + b, id) == TotalFee(a, id) + TotalFee(b, id)
  {
    TotalFeeIsMatchingSum(a + b, id);
    TotalFeeIsMatchingSum(a, id);
    TotalFeeIsMatchingSum(b, id);
    MatchingSumAppend(a, b, id);
  }

  /** A trade of another order, wherever it stands, does not change the total. */
  lemma ForeignTradeIgnored(a: seq<Trade>, t: Trade, b: seq<Trade>, id: OrderId)
    requires !BelongsTo(t, id)
    ensures TotalFee(a + [t] + b, id) == TotalFee(a + b, id)
  {
    TotalFeeAppend(a + [t], b, id);
    TotalFeeAppend(a, [t], id);
    TotalFeeAppend(a, b, id);
    assert Relevant([t], id) == [];
  }

  /** A trade of the order adds its cost (0 when it carries no fee or no cost). */
  lemma OwnTradeAdds(a: seq<Trade>, t: Trade, b: seq<Trade>, id: OrderId)
    requires BelongsTo(t, id)
    ensures TotalFee(a + [t] + b, id) == TotalFee(a + b, id) + CostOf(t)
  {
    TotalFeeAppend(a + [t], b, id);
    TotalFeeAppend(a, [t], id);
    TotalFeeAppend(a, b, id);
    assert [t][1..] == [];
    assert Relevant([t], id) == [t];
    assert Reduce(0.0 + CostOf(t), []) == CostOf(t);
  }

  /** With no trade of the order, in particular with no trades at all, the total is 0. */
  lemma {:induction false} NoMatchNoFee(trades: seq<Trade>, id: OrderId)
    requires forall i :: 0 <= i < |trades| ==> !BelongsTo(trades[i], id)
    ensures TotalFee(trades, id) == 0.0
    ensures FeeCurrency(trades, id) == "unknown"
    decreases |trades|
  {
    if trades != [] {
      NoMatchNoFee(trades[1..], id);
    }
  }

  lemma {:induction false} MatchingSumNonNegative(trades: seq<Trade>, id: OrderId)
    requires forall i :: 0 <= i < |trades| ==> CostOf(trades[i]) >= 0.0
    ensures MatchingSum(trades, id) >= 0.0
    decreases |trades|
  {
    if trades != [] {
      MatchingSumNonNegative(trades[1..], id);
    }
  }

  /** Non-negative fee costs give a non-negative total. */
  lemma TotalFeeNonNegative(trades: seq<Trade>, id: OrderId)
    requires forall i :: 0 <= i < |trades| ==> CostOf(trades[i]) >= 0.0
    ensures TotalFee(trades, id) >= 0.0
  {
    TotalFeeIsMatchingSum(trades, id);
    MatchingSumNonNegative(trades, id);
  }

  lemma {:induction false} FirstRelevant(trades: seq<Trade>, id: OrderId, k: nat)
    requires k < |trades| && BelongsTo(trades[k], id)
    requires forall j :: 0 <= j < k ==> !BelongsTo(trades[j], id)
    ensures Relevant(trades, id) != [] && Relevant(trades, id)[0] == trades[k]
    decreases k
  {
    if k > 0 {
      FirstRelevant(trades[1..], id, k - 1);
    }
  }

  /** The currency is that of the first trade of the order in the history. */
  lemma FeeCurrencyOfFirstMatch(trades: seq<Trade>, id: OrderId, k: nat)
    requires k < |trades| && BelongsTo(trades[k], id)
    requires forall j :: 0 <= j < k ==> !BelongsTo(trades[j], id)
    ensures FeeCurrency(trades, id) == CurrencyOf(trades[k])
  {
    FirstRelevant(trades, id, k);
  }
}
