/**
 * `GET /orders/stats`: the number of orders, the revenue (sum of price times
 * quantity), the number of orders per status, and the average order value.
 * Prices are exact reals; the two-decimal rounding of the answer is not
 * modelled.
 */
module OrderStats {
  import opened Orders

  /** The value of one order line, `order['price'] * order['quantity']`. */
  function LineValue(o: Order): real {
    o.price * o.quantity as real
  }

  /** `sum(order['price'] * order['quantity'] for order in orders_db.values())`. */
  function Revenue(orders: seq<Order>): (total: real)
    ensures orders == [] ==> total == 0.0
    ensures (forall i :: 0 <= i < |orders| ==> LineValue(orders[i]) >= 0.0) ==> total >= 0.0
  {
    if orders == [] then 0.0 else LineValue(orders[0]) + Revenue(orders[1..])
  }

  /** Storing one more order adds exactly its line value to the revenue. */
  lemma {:induction false} RevenueAppend(orders: seq<Order>, o: Order)
    ensures Revenue(orders + [o]) == Revenue(orders) + LineValue(o)
  {
    if orders != [] {
      assert (orders + [o])[1..] == orders[1..] + [o];
      RevenueAppend(orders[1..], o);
    }
  }

  /** `status_count[status] = status_count.get(status, 0) + 1`. */
  function Bump(counts: map<string, nat>, status: string): (b: map<string, nat>)
    ensures forall k :: k in b <==> k in counts || k == status
    ensures b[status] == 1 + if status in counts then counts[status] else 0
    ensures forall k :: k in counts && k != status ==> b[k] == counts[k]
  {
    counts[status := (if status in counts then counts[status] else 0) + 1]
  }

  /** The `status_count` dictionary after the loop has visited every order of `orders`. */
  function Tally(orders: seq<Order>): map<string, nat> {
    if orders == [] then map[] else Bump(Tally(orders[..|orders| - 1]), orders[|orders| - 1].status)
  }

  /** A newly stored order is counted once, under its own status, and no other count moves. */
  lemma TallyAppend(orders: seq<Order>, o: Order)
    ensures Tally(orders + [o]) == Bump(Tally(orders), o.status)
    ensures Tally(orders + [o])[o.status] == (if o.status in Tally(orders) then Tally(orders)[o.status] else 0) + 1
  {
  }

  /** The statuses of the orders, one per order. */
  function Statuses(orders: seq<Order>): (s: seq<string>)
    ensures |s| == |orders|
    ensures forall i :: 0 <= i < |orders| ==> s[i] == orders[i].status
  {
    seq(|orders|, i requires 0 <= i < |orders| => orders[i].status)
  }

  /** The tally is empty only for an empty ledger, and every count is between 1 and the number of orders. */
  lemma {:induction false} TallyBounds(orders: seq<Order>)
    ensures orders == [] <==> Tally(orders) == map[]
    ensures forall st :: st in Tally(orders) ==> 1 <= Tally(orders)[st] <= |orders|
  {
    if orders != [] {
      TallyBounds(orders[..|orders| - 1]);
    }
  }

  /** Every count in the tally is the number of orders with that status, and no other status appears. */
  lemma {:induction false} TallyCountsStatuses(orders: seq<Order>, status: string)
    ensures status in Tally(orders) <==> status in multiset(Statuses(orders))
    ensures status in Tally(orders) ==> Tally(orders)[status] == multiset(Statuses(orders))[status]
  {
    if orders != [] {
      var init := orders[..|orders| - 1];
      TallyCountsStatuses(init, status);
      assert Statuses(orders) == Statuses(init) + [orders[|orders| - 1].status];
    }
  }

  /** The sum of the values of a count map. */
  ghost function MapSum(m: map<string, nat>): nat
    decreases |m|
  {
    if |m| == 0 then 0
    else
      var k := PickKey(m);
      m[k] + MapSum(m - {k})
  }

  ghost function PickKey(m: map<string, nat>): (k: string)
    requires |m| > 0
    ensures k in m
  {
    var k :| k in m.Keys; k
  }

  /** The sum does not depend on which key is taken out first. */
  lemma {:induction false} MapSumWithout(m: map<string, nat>, k: string)
    requires k in m
    ensures MapSum(m) == m[k] + MapSum(m - {k})
    decreases |m|
  {
    var j := PickKey(m);
    if j != k {
      MapSumWithout(m - {j}, k);
      MapSumWithout(m - {k}, j);
      assert m - {j} - {k} == m - {k} - {j};
    }
  }

  lemma MapSumBump(m: map<string, nat>, status: string)
    ensures MapSum(Bump(m, status)) == MapSum(m) + 1
  {
    var b := Bump(m, status);
    MapSumWithout(b, status);
    assert b - {status} == m - {status};
    if status in m {
      MapSumWithout(m, status);
    } else {
      assert m - {status} == m;
    }
  }

  /** The per-status counts add up to the number of orders. */
  lemma {:induction false} TallySumsToTotal(orders: seq<Order>)
    ensures MapSum(Tally(orders)) == |orders|
  {
    if orders != [] {
      TallySumsToTotal(orders[..|orders| - 1]);
      MapSumBump(Tally(orders[..|orders| - 1]), orders[|orders| - 1].status);
    }
  }

  /** `total_revenue / total_orders if total_orders > 0 else 0`. */
  function AverageOrderValue(revenue: real, total: nat): (avg: real)
    ensures total == 0 ==> avg == 0.0
    ensures total > 0 ==> avg * total as real == revenue
  {
    if total > 0 then revenue / total as real else 0.0
  }

  datatype Stats = Stats(totalOrders: nat, totalRevenue: real, byStatus: map<string, nat>, averageOrderValue: real)

  /**
   * `get_order_stats`. The per-status counts are built by the handler's
   * updating loop; the average is 0 for an empty ledger instead of a division
   * by zero.
   */
  method GetOrderStats(orders: seq<Order>) returns (stats: Stats)
    ensures stats.totalOrders == |orders|
    ensures stats.totalRevenue == Revenue(orders)
    ensures stats.byStatus == Tally(orders)
    ensures stats.totalOrders == 0 ==> stats.averageOrderValue == 0.0
    ensures stats.totalOrders > 0 ==> stats.averageOrderValue * stats.totalOrders as real == stats.totalRevenue
  {
    var total := |orders|;
    var revenue := Revenue(orders);
    var counts := CountByStatus(orders);
    stats := Stats(total, revenue, counts, AverageOrderValue(revenue, total));
  }

  /** The `status_count` loop of `get_order_stats`, one order at a time. */
  method CountByStatus(orders: seq<Order>) returns (counts: map<string, nat>)
    ensures counts == Tally(orders)
  {
    counts := map[];
    for i := 0 to |orders|
      invariant counts == Tally(orders[..i])
    {
      assert orders[..i + 1][..i] == orders[..i];
      var status := orders[i].status;
      counts := counts[status := (if status in counts then counts[status] else 0) + 1];
    }
    assert orders[..|orders|] == orders;
  }

  /** The seed ledger: revenue 1400, one order in each of the three statuses. */
  lemma SeedStats()
    ensures Revenue(SeedOrders()) == 1400.0
    ensures Tally(SeedOrders()) == map["completed" := 1, "pending" := 1, "shipped" := 1]
  {
    var s := SeedOrders();
    assert s[1..][1..][1..] == [];
    assert s[..1][..0] == [];
    assert Tally(s[..1]) == map["completed" := 1];
    assert s[..2][..1] == s[..1];
    assert Tally(s[..2]) == map["completed" := 1, "pending" := 1];
    assert s[..3][..2] == s[..2] && s[..3] == s;
  }
}
