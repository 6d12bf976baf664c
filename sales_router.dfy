/** The sales endpoints behind the dashboard: the analytics summary (revenue, order count,
    revenue per weekday) and the list of sales, newest first. */
module SalesRouter {
  import opened Common
  import opened Tables
  import opened Sorting
  import opened Models

  /** `SUM(sales.amount)`, with `or 0` for an empty table. */
  function Total(sales: seq<Sale>): real
    decreases |sales|
  {
    if sales == [] then 0.0 else Total(sales[..|sales| - 1]) + sales[|sales| - 1].amount
  }

  /** `SUM(sales.amount)` over the sales of one `day` value (NULL is a group of its own). */
  function DaySum(sales: seq<Sale>, day: Option<string>): real
    decreases |sales|
  {
    if sales == [] then 0.0
    else DaySum(sales[..|sales| - 1], day) + (if sales[|sales| - 1].day == day then sales[|sales| - 1].amount else 0.0)
  }

  /** One row of `GROUP BY sales.day`. */
  datatype DayTotal = DayTotal(day: Option<string>, amount: real)

  datatype Analytics = Analytics(totalRevenue: real, totalOrders: nat, salesByDay: seq<DayTotal>, message: string)

  function DayOf(e: DayTotal): Option<string> { e.day }

  /** Adds a sale of `amount` on `day` to the groups seen so far: to the group of that day
      when there is one, as a new group at the end otherwise. */
  function AddTo(groups: seq<DayTotal>, day: Option<string>, amount: real): (r: seq<DayTotal>)
  {
    match Find(groups, DayOf, day)
    case Some(i) => groups[i := groups[i].(amount := groups[i].amount + amount)]
    case None => groups + [DayTotal(day, amount)]
  }

  /** The groups in order of their first sale. */
  function ByDay(sales: seq<Sale>): seq<DayTotal>
    decreases |sales|
  {
    if sales == [] then []
    else AddTo(ByDay(sales[..|sales| - 1]), sales[|sales| - 1].day, sales[|sales| - 1].amount)
  }

  function SumOf(groups: seq<DayTotal>): real
    decreases |groups|
  {
    if groups == [] then 0.0 else groups[0].amount + SumOf(groups[1..])
  }

  /** `get_analytics`. */
  function GetAnalytics(sales: seq<Sale>, orders: seq<Order>): (r: Analytics)
    ensures r.totalOrders == |orders|
    ensures sales == [] ==> r.totalRevenue == 0.0 && r.salesByDay == []
  {
    Analytics(Total(sales), |orders|, ByDay(sales), "Analytics fetched successfully")
  }

  lemma {:induction false} SumOfAppend(groups: seq<DayTotal>, e: DayTotal)
    ensures SumOf(groups + [e]) == SumOf(groups) + e.amount
    decreases |groups|
  {
    if groups != [] {
      SumOfAppend(groups[1..], e);
      assert (groups + [e])[1..] == groups[1..] + [e];
    }
  }

  lemma {:induction false} SumOfUpdate(groups: seq<DayTotal>, i: nat, e: DayTotal)
    requires i < |groups|
    ensures SumOf(groups[i := e]) == SumOf(groups) - groups[i].amount + e.amount
    decreases |groups|
  {
    if i > 0 {
      SumOfUpdate(groups[1..], i - 1, e);
      assert groups[i := e][1..] == groups[1..][i - 1 := e];
    }
  }

  lemma AddToSum(groups: seq<DayTotal>, day: Option<string>, amount: real)
    ensures SumOf(AddTo(groups, day, amount)) == SumOf(groups) + amount
  {
    match Find(groups, DayOf, day)
    case Some(i) => SumOfUpdate(groups, i, groups[i].(amount := groups[i].amount + amount));
    case None => SumOfAppend(groups, DayTotal(day, amount));
  }

  /** The per-day amounts add up to the total revenue. */
  lemma {:induction false} ByDayAddsUp(sales: seq<Sale>)
    ensures SumOf(ByDay(sales)) == Total(sales)
    decreases |sales|
  {
    if sales != [] {
      var init, x := sales[..|sales| - 1], sales[|sales| - 1];
      ByDayAddsUp(init);
      AddToSum(ByDay(init), x.day, x.amount);
    }
  }

  /** What `AddTo` does to the groups: the group of `day` grows by `amount`, every other
      group keeps its amount, and a new group appears only for a day not seen before. */
  lemma AddToGroups(groups: seq<DayTotal>, day: Option<string>, amount: real)
    requires KeysDistinct(groups, DayOf)
    ensures var r := AddTo(groups, day, amount);
      && KeysDistinct(r, DayOf)
      && Keys(r, DayOf) == Keys(groups, DayOf) + {day}
      && (forall i :: 0 <= i < |groups| ==>
            r[i].amount == groups[i].amount + (if groups[i].day == day then amount else 0.0))
      && (day !in Keys(groups, DayOf) ==> |r| == |groups| + 1 && r[|groups|] == DayTotal(day, amount))
  {
    match Find(groups, DayOf, day)
    case Some(i) =>
      ReplaceKeepsDistinct(groups, DayOf, i, groups[i].(amount := groups[i].amount + amount));
    case None =>
      AppendFreshUnique(groups, DayOf, DayTotal(day, amount));
  }

  function SaleDay(s: Sale): Option<string> { s.day }

  /** `GROUP BY day` yields one group per distinct day, each group's amount is the sum of
      that day's sales, and every sale's day has a group. */
  lemma {:induction false} ByDayGroups(sales: seq<Sale>)
    ensures var g := ByDay(sales);
      && KeysDistinct(g, DayOf)
      && (forall i :: 0 <= i < |g| ==> g[i].amount == DaySum(sales, g[i].day))
      && Keys(g, DayOf) == Keys(sales, SaleDay)
    decreases |sales|
  {
    if sales != [] {
      var init, x := sales[..|sales| - 1], sales[|sales| - 1];
      ByDayGroups(init);
      AddToGroups(ByDay(init), x.day, x.amount);
      assert sales == init + [x];
      KeysAppend(init, SaleDay, x);
      if x.day !in Keys(init, SaleDay) {
        DaySumAbsent(init, x.day);
      }
    }
  }

  /** A day on which nothing was sold sums to 0. */
  lemma {:induction false} DaySumAbsent(sales: seq<Sale>, day: Option<string>)
    requires day !in Keys(sales, SaleDay)
    ensures DaySum(sales, day) == 0.0
    decreases |sales|
  {
    if sales != [] {
      var init, x := sales[..|sales| - 1], sales[|sales| - 1];
      assert sales == init + [x];
      KeysAppend(init, SaleDay, x);
      DaySumAbsent(init, day);
    }
  }

  /** `ORDER BY date DESC`. */
  function SoldLater(a: Sale, b: Sale): bool { a.date >= b.date }

  /** `get_all_sales`: every sale, newest first. */
  function AllSales(sales: seq<Sale>): (r: seq<Sale>)
    ensures multiset(r) == multiset(sales)
    ensures forall i, j :: 0 <= i < j < |r| ==> r[i].date >= r[j].date
  {
    assert IsTotalPreorder(SoldLater);
    SortBySorted(sales, SoldLater);
    SortBy(sales, SoldLater)
  }
}
