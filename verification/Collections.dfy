/** How the position dictionary, the order queue and the running sums react to one entry coming, moving or going. */
module Collections {
  import opened Engine
  import opened Invariants

  // ---- Positions ----

  /** A new key goes last and overwrites nothing. */
  lemma {:induction false} PutFresh(ps: seq<Position>, p: Position)
    requires !Holds(ps, p.stockId)
    ensures Put(ps, p) == ps + [p]
  {
    if ps == [] {
    } else {
      assert ps[0] in ps;
      assert forall q :: q in ps[1..] ==> q in ps;
      PutFresh(ps[1..], p);
      assert [ps[0]] + (ps[1..] + [p]) == ps + [p];
    }
  }

  lemma {:induction false} WithoutAbsent(ps: seq<Position>, id: int)
    requires !Holds(ps, id)
    ensures Without(ps, id) == ps
  {
    if ps == [] {
    } else {
      assert ps[0] in ps;
      assert forall q :: q in ps[1..] ==> q in ps;
      WithoutAbsent(ps[1..], id);
    }
  }

  lemma {:induction false} PutFirst(ps: seq<Position>, j: nat)
    requires j + 1 < |ps|
    ensures [ps[0]] + (ps[1..][..j] + ps[1..][j + 1..]) == ps[..j + 1] + ps[j + 2..]
  {
    assert ps[1..][..j] == ps[1..j + 1] && ps[1..][j + 1..] == ps[j + 2..];
    assert [ps[0]] + ps[1..j + 1] == ps[..j + 1];
  }

  /** Removing the entry of a stock leaves everything before and after it in place. */
  lemma {:induction false} WithoutSplit(ps: seq<Position>, p: Position) returns (i: nat)
    requires DistinctPositions(ps) && p in ps
    ensures i < |ps| && ps[i] == p && Without(ps, p.stockId) == ps[..i] + ps[i + 1..]
  {
    if ps[0] == p {
      i := 0;
      assert !Holds(ps[1..], p.stockId);
      WithoutAbsent(ps[1..], p.stockId);
    } else {
      assert p in ps[1..];
      var j := WithoutSplit(ps[1..], p);
      i := j + 1;
      assert ps[0].stockId != p.stockId;
      PutFirst(ps, j);
    }
  }

  lemma {:induction false} SumPaidConcat(a: seq<Position>, b: seq<Position>)
    ensures SumPaid(a + b) == SumPaid(a) + SumPaid(b)
  {
    if b == [] {
      assert a + b == a;
    } else {
      SumPaidConcat(a, b[..|b| - 1]);
      assert (a + b)[..|a + b| - 1] == a + b[..|b| - 1];
    }
  }

  lemma {:induction false} MarketValueConcat(a: seq<Position>, b: seq<Position>)
    ensures MarketValue(a + b) == MarketValue(a) + MarketValue(b)
  {
    if b == [] {
      assert a + b == a;
    } else {
      MarketValueConcat(a, b[..|b| - 1]);
      assert (a + b)[..|a + b| - 1] == a + b[..|b| - 1];
    }
  }

  lemma {:induction false} SumsOfOne(p: Position)
    ensures SumPaid([p]) == p.cashPaid
    ensures MarketValue([p]) == p.shares as real * p.lastPrice
  {
    assert [p][..0] == [];
  }

  lemma {:induction false} SumsAround(a: seq<Position>, p: Position, b: seq<Position>)
    ensures SumPaid(a + ([p] + b)) == SumPaid(a + b) + p.cashPaid
    ensures MarketValue(a + ([p] + b)) == MarketValue(a + b) + p.shares as real * p.lastPrice
  {
    SumPaidConcat(a, [p] + b);
    SumPaidConcat([p], b);
    SumPaidConcat(a, b);
    MarketValueConcat(a, [p] + b);
    MarketValueConcat([p], b);
    MarketValueConcat(a, b);
    SumsOfOne(p);
  }

  lemma {:induction false} DistinctAround(a: seq<Position>, p: Position, b: seq<Position>)
    requires DistinctPositions(a + ([p] + b))
    ensures DistinctPositions(a + b)
  {
    var before, after := a + ([p] + b), a + b;
    assert forall i :: 0 <= i < |after| ==> after[i] == before[if i < |a| then i else i + 1];
  }

  /** Taking one position out of the book. */
  lemma {:induction false} PositionRemoved(ps: seq<Position>, p: Position)
    requires DistinctPositions(ps) && p in ps
    ensures var rest := Without(ps, p.stockId);
            && DistinctPositions(rest) && |rest| == |ps| - 1
            && SumPaid(rest) == SumPaid(ps) - p.cashPaid
            && MarketValue(rest) == MarketValue(ps) - p.shares as real * p.lastPrice
            && (forall id :: Holds(rest, id) <==> Holds(ps, id) && id != p.stockId)
  {
    var i := WithoutSplit(ps, p);
    var a, b := ps[..i], ps[i + 1..];
    assert ps == a + ([p] + b);
    SumsAround(a, p, b);
    DistinctAround(a, p, b);
  }

  /** A position that keeps its stock and its cost may be updated where it stands. */
  lemma {:induction false} PositionMoved(a: seq<Position>, p: Position, q: Position, b: seq<Position>)
    requires q.stockId == p.stockId && q.cashPaid == p.cashPaid && DistinctPositions(a + ([p] + b))
    ensures var before, after := a + ([p] + b), (a + [q]) + b;
            && DistinctPositions(after) && |after| == |before|
            && SumPaid(after) == SumPaid(before)
            && (forall id :: Holds(after, id) <==> Holds(before, id))
            && (forall x :: x in after ==> x == q || x in before)
  {
    var before, after := a + ([p] + b), (a + [q]) + b;
    assert after == a + ([q] + b);
    SumsAround(a, p, b);
    SumsAround(a, q, b);
    assert forall i :: 0 <= i < |after| ==> after[i].stockId == before[i].stockId;
    HoldsByIndex(before, after);
    HoldsByIndex(after, before);
  }

  lemma {:induction false} HoldsByIndex(a: seq<Position>, b: seq<Position>)
    requires |a| == |b| && forall i :: 0 <= i < |a| ==> a[i].stockId == b[i].stockId
    ensures forall id :: Holds(a, id) ==> Holds(b, id)
  {
    forall id | Holds(a, id) ensures Holds(b, id) {
      var i :| 0 <= i < |a| && a[i].stockId == id;
      assert b[i] in b;
    }
  }

  // ---- Orders ----

  lemma {:induction false} CountBuysConcat(a: seq<Order>, b: seq<Order>)
    ensures CountBuys(a + b) == CountBuys(a) + CountBuys(b)
  {
    if b == [] {
      assert a + b == a;
    } else {
      CountBuysConcat(a, b[..|b| - 1]);
      assert (a + b)[..|a + b| - 1] == a + b[..|b| - 1];
    }
  }

  lemma {:induction false} CountBuysOne(o: Order)
    ensures CountBuys([o]) == if o.side == Buy then 1 else 0
  {
    assert [o][..0] == [];
  }

  /** An order that keeps its stock and side may be replaced where it stands. */
  lemma {:induction false} OrderMoved(kept: seq<Order>, o: Order, o': Order, rest: seq<Order>)
    requires o'.stockId == o.stockId && o'.side == o.side
    requires DistinctOrders(kept + ([o] + rest))
    ensures var before, after := kept + ([o] + rest), (kept + [o']) + rest;
            && DistinctOrders(after)
            && CountBuys(after) == CountBuys(before)
            && IdsOn(Buy, after) == IdsOn(Buy, before)
            && IdsOn(Sell, after) == IdsOn(Sell, before)
            && forall x :: x in after ==> x == o' || x in before
  {
    var before, after := kept + ([o] + rest), (kept + [o']) + rest;
    CountBuysConcat(kept, [o] + rest);
    CountBuysConcat([o], rest);
    CountBuysConcat(kept + [o'], rest);
    CountBuysConcat(kept, [o']);
    CountBuysOne(o);
    CountBuysOne(o');
    assert forall i :: 0 <= i < |after| ==> after[i].stockId == before[i].stockId && after[i].side == before[i].side;
    SameIds(before, after, Buy);
    SameIds(before, after, Sell);
  }

  lemma {:induction false} SameIds(a: seq<Order>, b: seq<Order>, side: Side)
    requires |a| == |b|
    requires forall i :: 0 <= i < |a| ==> a[i].stockId == b[i].stockId && a[i].side == b[i].side
    ensures IdsOn(side, a) == IdsOn(side, b)
  {
    forall id | id in IdsOn(side, a) ensures id in IdsOn(side, b) {
      var i :| 0 <= i < |a| && a[i].side == side && a[i].stockId == id;
      assert b[i] in b;
    }
    forall id | id in IdsOn(side, b) ensures id in IdsOn(side, a) {
      var i :| 0 <= i < |b| && b[i].side == side && b[i].stockId == id;
      assert a[i] in a;
    }
  }

  lemma {:induction false} DroppedCount(kept: seq<Order>, o: Order, rest: seq<Order>)
    ensures CountBuys(kept + ([o] + rest)) == CountBuys(kept + rest) + (if o.side == Buy then 1 else 0)
  {
    CountBuysConcat(kept, [o] + rest);
    CountBuysConcat([o], rest);
    CountBuysConcat(kept, rest);
    CountBuysOne(o);
  }

  lemma {:induction false} DroppedDistinct(kept: seq<Order>, o: Order, rest: seq<Order>)
    requires DistinctOrders(kept + ([o] + rest))
    ensures DistinctOrders(kept + rest)
    ensures forall x :: x in kept + rest ==> !(x.side == o.side && x.stockId == o.stockId)
  {
    var before, after := kept + ([o] + rest), kept + rest;
    var n := |kept|;
    assert before[n] == o;
    assert forall i :: 0 <= i < |after| ==> after[i] == before[if i < n then i else i + 1];
  }

  lemma {:induction false} OrderDropped(kept: seq<Order>, o: Order, rest: seq<Order>)
    requires DistinctOrders(kept + ([o] + rest))
    ensures var before, after := kept + ([o] + rest), kept + rest;
            && DistinctOrders(after)
            && CountBuys(before) == CountBuys(after) + (if o.side == Buy then 1 else 0)
            && (forall x :: x in after <==> x in before && !(x.side == o.side && x.stockId == o.stockId))
  {
    DroppedCount(kept, o, rest);
    DroppedDistinct(kept, o, rest);
    assert forall x :: x in kept + ([o] + rest) <==> x in kept || x == o || x in rest;
    assert forall x :: x in kept + rest <==> x in kept || x in rest;
  }

  lemma {:induction false} OrderAdded(orders: seq<Order>, o: Order)
    requires DistinctOrders(orders) && o.stockId !in IdsOn(o.side, orders)
    ensures var after := orders + [o];
            && DistinctOrders(after)
            && CountBuys(after) == CountBuys(orders) + (if o.side == Buy then 1 else 0)
            && (forall side :: IdsOn(side, after)
                               == IdsOn(side, orders) + (if side == o.side then {o.stockId} else {}))
  {
    CountBuysConcat(orders, [o]);
    CountBuysOne(o);
    var after := orders + [o];
    forall i, j | 0 <= i < j < |after| && after[i].side == after[j].side
      ensures after[i].stockId != after[j].stockId
    {
      if j == |orders| {
        assert orders[i] in orders;
      }
    }
  }

  lemma {:induction false} SumNetAppend(trades: seq<Trade>, tr: Trade)
    ensures SumNet(trades + [tr]) == SumNet(trades) + tr.net
  {
    assert (trades + [tr])[..|trades|] == trades;
  }
}
