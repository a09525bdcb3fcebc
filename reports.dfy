/** The reports page: the sales and stock figures it derives from the sales
    and products tables. Timestamps are integer milliseconds; the calendar
    boundaries (the start of the week, month and year, and of each of the
    last six months) are inputs. */
module Reports {
  import opened Wrappers
  import opened Seqs
  import Sales

  /** The label under which sales whose product is gone are grouped. */
  const DeletedProductLabel: string := "منتج محذوف"

  /** Products below this quantity are listed as stock alerts. */
  const LowStockThreshold: int := 10

  /** How many products the top-selling list shows. */
  const TopCount: nat := 5

  /** How many months the monthly revenue covers. */
  const MonthCount: nat := 6

  const DayMs: int := 24 * 60 * 60 * 1000

  /** A row of the sales table as the report queries read it: quantity,
      total price (may be null), creation time and the name of the joined
      product (null when the product was deleted). */
  datatype SaleRecord = SaleRecord(quantity: int, totalPrice: Option<real>, createdAt: int,
                                   productName: Option<string>)

  /** `sale.total_price || 0`. */
  function PriceOr0(r: SaleRecord): real {
    if r.totalPrice.Some? then r.totalPrice.value else 0.0
  }

  /** `sales.reduce((sum, sale) => sum + (sale.total_price || 0), 0)`. */
  function Revenue(s: seq<SaleRecord>): (r: real)
    ensures (forall i :: 0 <= i < |s| ==> PriceOr0(s[i]) >= 0.0) ==> r >= 0.0
  {
    if s == [] then 0.0 else PriceOr0(s[0]) + Revenue(s[1..])
  }

  /** Revenue is additive over concatenation, so the order of the fold does
      not matter. */
  lemma {:induction false} RevenueOfConcat(a: seq<SaleRecord>, b: seq<SaleRecord>)
    ensures Revenue(a + b) == Revenue(a) + Revenue(b)
  {
    if a == [] {
      assert a + b == b;
    } else {
      assert (a + b)[0] == a[0];
      assert (a + b)[1..] == a[1..] + b;
      RevenueOfConcat(a[1..], b);
    }
  }

  // ---------------------------------------------------------------------------
  // The date range.

  datatype DateRange = All | Week | Month | Year

  /** `startDate`: seven days before now, the first of this month, or the
      first of this year. */
  function StartDate(range: DateRange, now: int, monthStart: int, yearStart: int): int
    requires range != All
  {
    match range
    case Week => now - 7 * DayMs
    case Month => monthStart
    case Year => yearStart
  }

  /** `filteredSales`: every sale for `all`, otherwise the sales created at
      or after the start date; a failed query (None) gives no sales. */
  function InRange(sales: Option<seq<SaleRecord>>, range: DateRange, start: int): seq<SaleRecord> {
    var s := if sales.Some? then sales.value else [];
    if range == All then s else Filter(s, (r: SaleRecord) => r.createdAt >= start)
  }

  /** The range keeps all sales, or exactly those from the start date on, in
      their order; its revenue never exceeds the revenue of all sales when
      no price is negative. */
  lemma {:induction false} InRangeKeepsExactlyTheRange(s: seq<SaleRecord>, range: DateRange, start: int)
    ensures range == All ==> InRange(Some(s), range, start) == s
    ensures range != All ==>
              forall r :: r in InRange(Some(s), range, start) <==> r in s && r.createdAt >= start
    ensures (forall i :: 0 <= i < |s| ==> PriceOr0(s[i]) >= 0.0) ==>
              Revenue(InRange(Some(s), range, start)) <= Revenue(s)
    ensures InRange(None, range, start) == []
  {
    if range != All && s != [] {
      InRangeKeepsExactlyTheRange(s[1..], range, start);
    }
  }

  // ---------------------------------------------------------------------------
  // Grouping the sales by product name.

  /** `sale.products?.name || label`: a missing or empty name falls back to
      the deleted-product label. */
  function GroupName(r: SaleRecord): string {
    if r.productName.Some? && r.productName.value != "" then r.productName.value else DeletedProductLabel
  }

  /** The keys of `productSales` in insertion order: each group name at its
      first sale. */
  function Names(s: seq<SaleRecord>): seq<string> {
    if s == [] then []
    else
      var before := Names(s[..|s| - 1]);
      var n := GroupName(s[|s| - 1]);
      if n in before then before else before + [n]
  }

  /** The summed quantity of the sales grouped under `n`. */
  function QuantityOf(s: seq<SaleRecord>, n: string): int {
    if s == [] then 0
    else QuantityOf(s[..|s| - 1], n) + (if GroupName(s[|s| - 1]) == n then s[|s| - 1].quantity else 0)
  }

  /** The summed total price of the sales grouped under `n`; a null price
      adds 0, as `+=` with null does. */
  function RevenueOf(s: seq<SaleRecord>, n: string): real {
    if s == [] then 0.0
    else RevenueOf(s[..|s| - 1], n) + (if GroupName(s[|s| - 1]) == n then PriceOr0(s[|s| - 1]) else 0.0)
  }

  /** The summed quantity of all sales. */
  function TotalQuantity(s: seq<SaleRecord>): int {
    if s == [] then 0 else TotalQuantity(s[..|s| - 1]) + s[|s| - 1].quantity
  }

  /** The groups are exactly the names some sale is grouped under. */
  lemma {:induction false} NamesAreTheGroups(s: seq<SaleRecord>, n: string)
    ensures n in Names(s) <==> exists i :: 0 <= i < |s| && GroupName(s[i]) == n
  {
    if s != [] {
      var t := s[..|s| - 1];
      NamesAreTheGroups(t, n);
      if n in Names(s) && n !in Names(t) {
        assert GroupName(s[|s| - 1]) == n;
      }
      if exists i :: 0 <= i < |t| && GroupName(t[i]) == n {
        var i :| 0 <= i < |t| && GroupName(t[i]) == n;
        assert GroupName(s[i]) == n;
      }
    }
  }

  predicate Distinct<T(==)>(xs: seq<T>) {
    forall i, j :: 0 <= i < j < |xs| ==> xs[i] != xs[j]
  }

  /** One group per name: no name is listed twice. */
  lemma {:induction false} NamesAreDistinct(s: seq<SaleRecord>)
    ensures Distinct(Names(s))
  {
    if s != [] {
      NamesAreDistinct(s[..|s| - 1]);
    }
  }

  /** A name no sale is grouped under has nothing in its group. */
  lemma {:induction false} AbsentGroupIsEmpty(s: seq<SaleRecord>, n: string)
    requires n !in Names(s)
    ensures QuantityOf(s, n) == 0 && RevenueOf(s, n) == 0.0
  {
    if s != [] {
      AbsentGroupIsEmpty(s[..|s| - 1], n);
    }
  }

  /** `productSales`: the grouping loop, filling a dictionary from name to
      quantity and revenue and remembering the order in which names were
      first added. */
  method GroupByProduct(sales: seq<SaleRecord>) returns (names: seq<string>, groups: map<string, Group>)
    ensures names == Names(sales)
    ensures forall n :: n in groups <==> n in names
    ensures forall n :: n in groups ==> groups[n] == Group(QuantityOf(sales, n), RevenueOf(sales, n))
  {
    names, groups := [], map[];
    for i := 0 to |sales|
      invariant names == Names(sales[..i])
      invariant forall n :: n in groups <==> n in names
      invariant forall n :: n in groups ==> groups[n] == Group(QuantityOf(sales[..i], n), RevenueOf(sales[..i], n))
    {
      assert sales[..i + 1][..i] == sales[..i];
      var sale := sales[i];
      var productName := GroupName(sale);
      if productName !in groups {
        AbsentGroupIsEmpty(sales[..i], productName);
        groups := groups[productName := Group(0, 0.0)];
        names := names + [productName];
      }
      groups := groups[productName := Group(groups[productName].quantity + sale.quantity,
                                            groups[productName].revenue + PriceOr0(sale))];
    }
    assert sales[..|sales|] == sales;
  }

  /** A group's accumulated quantity and revenue. */
  datatype Group = Group(quantity: int, revenue: real)

  /** An entry of the top-selling list: `{ name, ...data }`. */
  datatype TopEntry = TopEntry(name: string, quantity: int, revenue: real)

  /** The entries for the names `ns`, in that order. */
  function EntriesFor(s: seq<SaleRecord>, ns: seq<string>): (r: seq<TopEntry>)
    ensures |r| == |ns|
  {
    if ns == [] then []
    else
      var n := ns[|ns| - 1];
      EntriesFor(s, ns[..|ns| - 1]) + [TopEntry(n, QuantityOf(s, n), RevenueOf(s, n))]
  }

  /** Entry `k` is the group of name `k`, with its quantity and revenue. */
  lemma {:induction false} EntriesForListsTheGroups(s: seq<SaleRecord>, ns: seq<string>)
    ensures forall k :: 0 <= k < |ns| ==>
              EntriesFor(s, ns)[k] == TopEntry(ns[k], QuantityOf(s, ns[k]), RevenueOf(s, ns[k]))
  {
    if ns != [] {
      EntriesForListsTheGroups(s, ns[..|ns| - 1]);
    }
  }

  /** `Object.entries(productSales).map(...)`: one entry per group, in the
      order the groups were created. */
  function Entries(s: seq<SaleRecord>): seq<TopEntry> {
    EntriesFor(s, Names(s))
  }

  function SumQuantities(es: seq<TopEntry>): int {
    if es == [] then 0 else SumQuantities(es[..|es| - 1]) + es[|es| - 1].quantity
  }

  function SumRevenues(es: seq<TopEntry>): real {
    if es == [] then 0.0 else SumRevenues(es[..|es| - 1]) + es[|es| - 1].revenue
  }

  /** Adding a sale to the table adds its quantity and price to the sums
      over any list of distinct names that contains its group. */
  lemma {:induction false} SumsAfterOneMoreSale(s: seq<SaleRecord>, x: SaleRecord, ns: seq<string>)
    requires Distinct(ns)
    ensures SumQuantities(EntriesFor(s + [x], ns))
            == SumQuantities(EntriesFor(s, ns)) + (if GroupName(x) in ns then x.quantity else 0)
    ensures SumRevenues(EntriesFor(s + [x], ns))
            == SumRevenues(EntriesFor(s, ns)) + (if GroupName(x) in ns then PriceOr0(x) else 0.0)
  {
    if ns != [] {
      var init, n := ns[..|ns| - 1], ns[|ns| - 1];
      assert ns == init + [n];
      SumsAfterOneMoreSale(s, x, init);
      SumsOverOneMoreName(s + [x], init, n);
      SumsOverOneMoreName(s, init, n);
      assert (s + [x])[..|s|] == s;
    }
  }

  /** Listing one more name adds that name's group to the sums. */
  lemma SumsOverOneMoreName(s: seq<SaleRecord>, ns: seq<string>, n: string)
    ensures SumQuantities(EntriesFor(s, ns + [n])) == SumQuantities(EntriesFor(s, ns)) + QuantityOf(s, n)
    ensures SumRevenues(EntriesFor(s, ns + [n])) == SumRevenues(EntriesFor(s, ns)) + RevenueOf(s, n)
  {
    assert (ns + [n])[..|ns|] == ns;
    var e := EntriesFor(s, ns + [n]);
    assert e[..|ns|] == EntriesFor(s, ns);
  }

  /** A sale under a name not seen before opens a group holding just that
      sale. */
  lemma NewGroupSums(t: seq<SaleRecord>, x: SaleRecord)
    requires GroupName(x) !in Names(t)
    ensures SumQuantities(EntriesFor(t + [x], Names(t) + [GroupName(x)]))
            == SumQuantities(EntriesFor(t + [x], Names(t))) + x.quantity
    ensures SumRevenues(EntriesFor(t + [x], Names(t) + [GroupName(x)]))
            == SumRevenues(EntriesFor(t + [x], Names(t))) + PriceOr0(x)
  {
    AbsentGroupIsEmpty(t, GroupName(x));
    SumsOverOneMoreName(t + [x], Names(t), GroupName(x));
    assert (t + [x])[..|t|] == t;
  }

  /** One more sale keeps the groups' quantities adding up to the quantity
      of all sales. */
  lemma OneMoreSaleKeepsQuantities(t: seq<SaleRecord>, x: SaleRecord)
    requires SumQuantities(Entries(t)) == TotalQuantity(t)
    ensures SumQuantities(Entries(t + [x])) == TotalQuantity(t + [x])
  {
    NamesAreDistinct(t);
    SumsAfterOneMoreSale(t, x, Names(t));
    assert (t + [x])[..|t|] == t;
    if GroupName(x) !in Names(t) {
      NewGroupSums(t, x);
    }
  }

  /** One more sale keeps the groups' revenues adding up to the revenue of
      all sales. */
  lemma OneMoreSaleKeepsRevenues(t: seq<SaleRecord>, x: SaleRecord)
    requires SumRevenues(Entries(t)) == Revenue(t)
    ensures SumRevenues(Entries(t + [x])) == Revenue(t + [x])
  {
    NamesAreDistinct(t);
    SumsAfterOneMoreSale(t, x, Names(t));
    RevenueOfConcat(t, [x]);
    assert Revenue([x]) == PriceOr0(x) + Revenue([]);
    assert (t + [x])[..|t|] == t;
    if GroupName(x) !in Names(t) {
      NewGroupSums(t, x);
    }
  }

  /** Every sale is counted in exactly one group: the groups' quantities add
      up to the quantity of all sales, and their revenues to the revenue of
      all sales. */
  lemma {:induction false} GroupsAccountForEverySale(s: seq<SaleRecord>)
    ensures SumQuantities(Entries(s)) == TotalQuantity(s)
    ensures SumRevenues(Entries(s)) == Revenue(s)
  {
    if s != [] {
      var t, x := s[..|s| - 1], s[|s| - 1];
      GroupsAccountForEverySale(t);
      OneMoreSaleKeepsQuantities(t, x);
      OneMoreSaleKeepsRevenues(t, x);
      assert s == t + [x];
    }
  }

  // ---------------------------------------------------------------------------
  // The top-selling list.

  predicate SortedByQuantity(es: seq<TopEntry>) {
    forall i, j :: 0 <= i < j < |es| ==> es[i].quantity >= es[j].quantity
  }

  /** Places `e` before the first entry that sold no more than it. */
  function InsertByQuantity(e: TopEntry, t: seq<TopEntry>): (r: seq<TopEntry>)
    ensures |r| == |t| + 1
    ensures forall x :: x in r <==> x == e || x in t
  {
    if t == [] || t[0].quantity <= e.quantity then [e] + t
    else [t[0]] + InsertByQuantity(e, t[1..])
  }

  /** A sorted list under an entry that sold at least as much as each of its
      entries is sorted. */
  lemma SortedUnderHead(h: TopEntry, rest: seq<TopEntry>)
    requires SortedByQuantity(rest)
    requires forall x :: x in rest ==> x.quantity <= h.quantity
    ensures SortedByQuantity([h] + rest)
  {
    var s := [h] + rest;
    forall i, j | 0 <= i < j < |s|
      ensures s[i].quantity >= s[j].quantity
    {
      assert s[j] == rest[j - 1];
      if i > 0 {
        assert s[i] == rest[i - 1];
      }
    }
  }

  /** Inserting an entry adds exactly that entry. */
  lemma {:induction false} InsertIsPermutation(e: TopEntry, t: seq<TopEntry>)
    ensures multiset(InsertByQuantity(e, t)) == multiset(t) + multiset{e}
  {
    if t != [] && t[0].quantity > e.quantity {
      assert t == [t[0]] + t[1..];
      InsertIsPermutation(e, t[1..]);
    }
  }

  /** Inserting an entry into a sorted list keeps it sorted. */
  lemma {:induction false} InsertKeepsSorted(e: TopEntry, t: seq<TopEntry>)
    requires SortedByQuantity(t)
    ensures SortedByQuantity(InsertByQuantity(e, t))
  {
    if t == [] || t[0].quantity <= e.quantity {
      forall x | x in t
        ensures x.quantity <= e.quantity
      {
        var k :| 0 <= k < |t| && t[k] == x;
        assert t[0].quantity >= t[k].quantity;
      }
      SortedUnderHead(e, t);
    } else {
      var rest := InsertByQuantity(e, t[1..]);
      InsertKeepsSorted(e, t[1..]);
      forall x | x in rest
        ensures x.quantity <= t[0].quantity
      {
        if x != e {
          var k :| 0 <= k < |t| - 1 && t[1..][k] == x;
          assert t[k + 1] == x;
        }
      }
      SortedUnderHead(t[0], rest);
    }
  }

  /** `.sort((a, b) => b.quantity - a.quantity)`: a stable sort by
      descending quantity. */
  function SortByQuantity(es: seq<TopEntry>): (r: seq<TopEntry>)
    ensures multiset(r) == multiset(es)
    ensures |r| == |es| && forall x :: x in r <==> x in es
    ensures SortedByQuantity(r)
  {
    if es == [] then []
    else
      assert es == [es[0]] + es[1..];
      InsertIsPermutation(es[0], SortByQuantity(es[1..]));
      InsertKeepsSorted(es[0], SortByQuantity(es[1..]));
      InsertByQuantity(es[0], SortByQuantity(es[1..]))
  }

  /** `.slice(0, 5)` of the sorted entries. */
  function TopSelling(es: seq<TopEntry>): seq<TopEntry> {
    var sorted := SortByQuantity(es);
    if |sorted| <= TopCount then sorted else sorted[..TopCount]
  }

  /** The top-selling list holds min(5, n) entries, is a prefix of the sorted
      groups, is non-increasing in quantity and holds only groups. */
  lemma TopSellingIsSortedPrefix(es: seq<TopEntry>)
    ensures var r := TopSelling(es);
            && |r| == (if |es| <= TopCount then |es| else TopCount)
            && r == SortByQuantity(es)[..|r|]
            && SortedByQuantity(r)
            && (forall e :: e in r ==> e in es)
  {
  }

  /** No group left out of the top-selling list sold more than any group in
      it. */
  lemma NoLeftOutGroupSoldMore(es: seq<TopEntry>, e: TopEntry, t: TopEntry)
    requires e in es && e !in TopSelling(es) && t in TopSelling(es)
    ensures e.quantity <= t.quantity
  {
    var sorted := SortByQuantity(es);
    var r := TopSelling(es);
    assert e in multiset(sorted);
    var i :| 0 <= i < |sorted| && sorted[i] == e;
    var j :| 0 <= j < |r| && r[j] == t;
    assert sorted[j] == t;
  }

  // ---------------------------------------------------------------------------
  // The monthly revenue.

  /** The revenue of the sales made between `lo` and `hi`, both inclusive. */
  function WindowRevenue(s: seq<SaleRecord>, lo: int, hi: int): real {
    if s == [] then 0.0
    else (if lo <= s[0].createdAt <= hi then PriceOr0(s[0]) else 0.0) + WindowRevenue(s[1..], lo, hi)
  }

  /** The window revenue is what the source computes: `sales.filter(...)` on
      the window, then the revenue reduce. */
  lemma {:induction false} WindowRevenueIsRevenueOfFilter(s: seq<SaleRecord>, lo: int, hi: int)
    ensures WindowRevenue(s, lo, hi) == Revenue(Filter(s, (r: SaleRecord) => lo <= r.createdAt <= hi))
  {
    if s != [] {
      WindowRevenueIsRevenueOfFilter(s[1..], lo, hi);
      var rest := Filter(s[1..], (r: SaleRecord) => lo <= r.createdAt <= hi);
      assert ([s[0]] + rest)[0] == s[0] && ([s[0]] + rest)[1..] == rest;
    }
  }

  /** Two adjacent windows together hold what the window spanning both holds. */
  lemma {:induction false} AdjacentWindowsAdd(s: seq<SaleRecord>, a: int, b: int, c: int)
    requires a <= b <= c
    ensures WindowRevenue(s, a, b - 1) + WindowRevenue(s, b, c - 1) == WindowRevenue(s, a, c - 1)
  {
    if s != [] {
      AdjacentWindowsAdd(s[1..], a, b, c);
    }
  }

  /** An entry of `monthlyRevenue`: the month (by its first instant) and its
      revenue. */
  datatype MonthEntry = MonthEntry(start: int, revenue: real)

  /** The two instants the loop computes in one pass, for the month that
      pass visits: `monthStart`, midnight on its first day, and `monthEnd`,
      `new Date(y, m + 1, 0)`, midnight at the start of its last day. Which
      month a pass visits is `Calendar.VisitedMonths`; the instants depend on
      the time zone and are inputs. */
  datatype MonthBounds = MonthBounds(start: int, end: int)

  /** The six entries of `monthlyRevenue`, oldest first: entry `k` is the
      revenue of the sales between the two instants of pass `k`, both
      inclusive. */
  function MonthsOf(s: seq<SaleRecord>, bounds: seq<MonthBounds>): (r: seq<MonthEntry>)
    requires |bounds| == MonthCount
    ensures |r| == MonthCount
  {
    seq(MonthCount, k requires 0 <= k < MonthCount =>
      MonthEntry(bounds[k].start, WindowRevenue(s, bounds[k].start, bounds[k].end)))
  }

  /** The revenue loop: for i from 5 down to 0, push the month's first
      instant and the revenue of the sales between its two instants. */
  method MonthlyRevenue(sales: Option<seq<SaleRecord>>, bounds: seq<MonthBounds>) returns (months: seq<MonthEntry>)
    requires |bounds| == MonthCount
    ensures months == MonthsOf(if sales.Some? then sales.value else [], bounds)
  {
    var s := if sales.Some? then sales.value else [];
    months := [];
    var i := 5;
    while i >= 0
      invariant -1 <= i <= 5
      invariant |months| == 5 - i
      invariant forall k :: 0 <= k < |months| ==>
                  months[k] == MonthEntry(bounds[k].start, WindowRevenue(s, bounds[k].start, bounds[k].end))
    {
      var monthStart := bounds[5 - i].start;
      var monthEnd := bounds[5 - i].end;
      var monthRevenue := WindowRevenue(s, monthStart, monthEnd);
      months := months + [MonthEntry(monthStart, monthRevenue)];
      i := i - 1;
    }
  }

  /** On a regular calendar the six passes visit six consecutive months, and
      `starts[k]` is the first instant of the month of pass `k` (`starts[6]`
      that of next month); every month is at least a day long. */
  predicate MonthStarts(starts: seq<int>) {
    |starts| == MonthCount + 1 && forall k :: 0 <= k < MonthCount ==> starts[k] + DayMs <= starts[k + 1]
  }

  /** The bounds of six consecutive months when month `k` ends `gap`
      milliseconds before month `k + 1` begins. */
  function StartBounds(starts: seq<int>, gap: int): (r: seq<MonthBounds>)
    requires |starts| == MonthCount + 1
    ensures |r| == MonthCount
  {
    seq(MonthCount, k requires 0 <= k < MonthCount => MonthBounds(starts[k], starts[k + 1] - gap))
  }

  /** The six months of a regular calendar, oldest first. */
  function Months(s: seq<SaleRecord>, starts: seq<int>, gap: int): (r: seq<MonthEntry>)
    requires |starts| == MonthCount + 1
    ensures |r| == MonthCount
  {
    MonthsOf(s, StartBounds(starts, gap))
  }

  /** On a regular calendar, whose months' last days are 24 hours long, the
      loop's months each end one day before the next begins, and they are
      listed in order. */
  lemma RegularMonthsEndADayBeforeTheNext(s: seq<SaleRecord>, starts: seq<int>, k: int)
    requires MonthStarts(starts) && 0 <= k < MonthCount
    ensures Months(s, starts, DayMs)[k].revenue == WindowRevenue(s, starts[k], starts[k + 1] - DayMs)
    ensures k + 1 < MonthCount ==> Months(s, starts, DayMs)[k].start < Months(s, starts, DayMs)[k + 1].start
  {
  }

  function SumMonths(ms: seq<MonthEntry>): real {
    if ms == [] then 0.0 else SumMonths(ms[..|ms| - 1]) + ms[|ms| - 1].revenue
  }

  /** Later months start later. */
  lemma {:induction false} StartsIncrease(starts: seq<int>, i: int, j: int)
    requires MonthStarts(starts) && 0 <= i <= j <= MonthCount
    ensures starts[i] <= starts[j]
  {
    if i < j {
      StartsIncrease(starts, i, j - 1);
    }
  }

  /** A sale made during the last day of one of the six months lies in none
      of the six windows the revenue loop sums. */
  lemma LastDaySaleIsInNoMonth(starts: seq<int>, k: int, t: int)
    requires MonthStarts(starts) && 0 <= k < MonthCount
    requires starts[k + 1] - DayMs < t < starts[k + 1]
    ensures forall j :: 0 <= j < MonthCount ==> !(starts[j] <= t <= starts[j + 1] - DayMs)
  {
    forall j | 0 <= j < MonthCount
      ensures !(starts[j] <= t <= starts[j + 1] - DayMs)
    {
      if j < k {
        StartsIncrease(starts, j + 1, k);
      } else if j > k {
        StartsIncrease(starts, k + 1, j);
      }
    }
  }

  /** The window revenue of a single sale. */
  lemma WindowRevenueOfOne(x: SaleRecord, lo: int, hi: int)
    ensures WindowRevenue([x], lo, hi) == if lo <= x.createdAt <= hi then PriceOr0(x) else 0.0
  {
    assert [x][1..] == [];
  }

  /** Months that each earned nothing sum to nothing. */
  lemma {:induction false} SumOfEmptyMonths(ms: seq<MonthEntry>)
    requires forall k :: 0 <= k < |ms| ==> ms[k].revenue == 0.0
    ensures SumMonths(ms) == 0.0
  {
    if ms != [] {
      SumOfEmptyMonths(ms[..|ms| - 1]);
    }
  }

  /** A sale made during the last day of month `k` adds nothing to month `j`. */
  lemma LastDaySaleAddsToNoMonth(starts: seq<int>, k: int, x: SaleRecord, j: int)
    requires MonthStarts(starts) && 0 <= k < MonthCount && 0 <= j < MonthCount
    requires starts[k + 1] - DayMs < x.createdAt < starts[k + 1]
    ensures Months([x], starts, DayMs)[j].revenue == 0.0
  {
    LastDaySaleIsInNoMonth(starts, k, x.createdAt);
    WindowRevenueOfOne(x, starts[j], starts[j + 1] - DayMs);
  }

  /** A sale with a positive price made during the last day of one of the
      six months: the revenue loop reports nothing for all six months,
      though the sale falls between the first month's start and next
      month's start. */
  lemma MonthlyRevenueMissesLastDay(starts: seq<int>, k: int, x: SaleRecord)
    requires MonthStarts(starts) && 0 <= k < MonthCount
    requires starts[k + 1] - DayMs < x.createdAt < starts[k + 1] && PriceOr0(x) > 0.0
    ensures SumMonths(Months([x], starts, DayMs)) == 0.0
    ensures WindowRevenue([x], starts[0], starts[MonthCount] - 1) == PriceOr0(x)
  {
    var ms := Months([x], starts, DayMs);
    forall j | 0 <= j < MonthCount
      ensures ms[j].revenue == 0.0
    {
      LastDaySaleAddsToNoMonth(starts, k, x, j);
    }
    SumOfEmptyMonths(ms);
    StartsIncrease(starts, 0, k);
    StartsIncrease(starts, k + 1, MonthCount);
    WindowRevenueOfOne(x, starts[0], starts[MonthCount] - 1);
  }

  /** Month `k` holds the revenue of its own window. */
  lemma MonthIsItsWindow(s: seq<SaleRecord>, starts: seq<int>, gap: int, k: int)
    requires |starts| == MonthCount + 1 && 0 <= k < MonthCount
    ensures Months(s, starts, gap)[k].revenue == WindowRevenue(s, starts[k], starts[k + 1] - gap)
  {
  }

  /** The sum over the first `n` months is the sum over the first `n - 1`
      plus month `n - 1`. */
  lemma SumMonthsOfPrefix(ms: seq<MonthEntry>, n: int)
    requires 1 <= n <= |ms|
    ensures SumMonths(ms[..n]) == SumMonths(ms[..n - 1]) + ms[n - 1].revenue
    ensures n == 1 ==> SumMonths(ms[..n]) == ms[0].revenue
  {
    assert ms[..n][..n - 1] == ms[..n - 1];
  }

  /** The revenues of the windows from `starts[k]` to one millisecond before
      `starts[k + 1]`, for `k < n`, added up. */
  function WindowsSum(s: seq<SaleRecord>, starts: seq<int>, n: nat): real
    requires n < |starts|
  {
    if n == 0 then 0.0 else WindowsSum(s, starts, n - 1) + WindowRevenue(s, starts[n - 1], starts[n] - 1)
  }

  /** The first `n` half-open months are those windows. */
  lemma {:induction false} MonthsAreTheWindows(s: seq<SaleRecord>, starts: seq<int>, n: nat)
    requires |starts| == MonthCount + 1 && 1 <= n <= MonthCount
    ensures SumMonths(Months(s, starts, 1)[..n]) == WindowsSum(s, starts, n)
  {
    var ms := Months(s, starts, 1);
    SumMonthsOfPrefix(ms, n);
    MonthIsItsWindow(s, starts, 1, n - 1);
    if n > 1 {
      MonthsAreTheWindows(s, starts, n - 1);
    }
  }

  /** Consecutive windows add up to the window from the first start to one
      millisecond before start `n`. */
  lemma {:induction false} WindowsSumSpans(s: seq<SaleRecord>, starts: seq<int>, n: nat)
    requires MonthStarts(starts) && 1 <= n <= MonthCount
    ensures WindowsSum(s, starts, n) == WindowRevenue(s, starts[0], starts[n] - 1)
  {
    if n > 1 {
      WindowsSumSpans(s, starts, n - 1);
      StartsIncrease(starts, 0, n - 1);
      AdjacentWindowsAdd(s, starts[0], starts[n - 1], starts[n]);
    }
  }

  /** With each month ending one millisecond before the next begins, every
      sale of the six months is counted exactly once: the months add up to
      the revenue from the first month's start to next month's start. */
  lemma SixMonthsCoverTheWindow(s: seq<SaleRecord>, starts: seq<int>)
    requires MonthStarts(starts)
    ensures SumMonths(Months(s, starts, 1)) == WindowRevenue(s, starts[0], starts[MonthCount] - 1)
  {
    MonthsAreTheWindows(s, starts, MonthCount);
    WindowsSumSpans(s, starts, MonthCount);
    assert Months(s, starts, 1)[..MonthCount] == Months(s, starts, 1);
  }

  // ---------------------------------------------------------------------------
  // Month-over-month change.

  /** `getRevenueChange`: 0 with fewer than two months, 100 when last month
      earned nothing, else the change of this month over last month in
      percent. */
  function RevenueChange(ms: seq<MonthEntry>): real {
    if |ms| < 2 then 0.0
    else
      var current := ms[|ms| - 1].revenue;
      var previous := ms[|ms| - 2].revenue;
      if previous == 0.0 then 100.0 else (current - previous) / previous * 100.0
  }

  /** The change is a percentage of last month's revenue: applied to last
      month's revenue it gives back this month's, and with a positive last
      month it is positive, zero or negative exactly when revenue grew,
      stayed or fell. */
  lemma RevenueChangeIsGrowthInPercent(ms: seq<MonthEntry>)
    ensures |ms| < 2 ==> RevenueChange(ms) == 0.0
    ensures |ms| >= 2 && ms[|ms| - 2].revenue == 0.0 ==> RevenueChange(ms) == 100.0
    ensures |ms| >= 2 && ms[|ms| - 2].revenue != 0.0 ==>
              ms[|ms| - 1].revenue == ms[|ms| - 2].revenue + ms[|ms| - 2].revenue * RevenueChange(ms) / 100.0
    ensures |ms| >= 2 && ms[|ms| - 2].revenue > 0.0 ==>
              && (RevenueChange(ms) > 0.0 <==> ms[|ms| - 1].revenue > ms[|ms| - 2].revenue)
              && (RevenueChange(ms) == 0.0 <==> ms[|ms| - 1].revenue == ms[|ms| - 2].revenue)
  {
  }

  // ---------------------------------------------------------------------------
  // Stock alerts.

  /** An entry of `stockAlerts`. */
  datatype StockAlert = StockAlert(name: string, quantity: int, reference: Option<string>)

  /** The low-stock query: the products with quantity below 10. */
  function LowStock(products: seq<Sales.Product>): seq<Sales.Product> {
    Filter(products, (p: Sales.Product) => p.quantity < LowStockThreshold)
  }

  /** `lowStockProducts?.map(...) || []`. */
  function StockAlerts(rows: Option<seq<Sales.Product>>): (r: seq<StockAlert>) {
    if rows.None? then []
    else seq(|rows.value|, k requires 0 <= k < |rows.value| =>
                               StockAlert(rows.value[k].name, rows.value[k].quantity, rows.value[k].reference))
  }

  /** The alerts are exactly the products below the threshold, one per
      product, in the order of the low-stock rows. */
  lemma StockAlertsAreTheLowStockProducts(products: seq<Sales.Product>)
    ensures var r := StockAlerts(Some(LowStock(products)));
            && |r| == |LowStock(products)| <= |products|
            && (forall k :: 0 <= k < |r| ==>
                  var p := LowStock(products)[k];
                  r[k] == StockAlert(p.name, p.quantity, p.reference))
            && (forall k :: 0 <= k < |r| ==> r[k].quantity < LowStockThreshold)
            && (forall k :: 0 <= k < |r| ==>
                  exists p :: p in products && p.quantity < LowStockThreshold &&
                              r[k] == StockAlert(p.name, p.quantity, p.reference))
            && (forall p :: p in products && p.quantity < LowStockThreshold ==>
                             StockAlert(p.name, p.quantity, p.reference) in r)
  {
    var low := LowStock(products);
    var r := StockAlerts(Some(low));
    forall k | 0 <= k < |r|
      ensures r[k].quantity < LowStockThreshold
      ensures exists p :: p in products && p.quantity < LowStockThreshold &&
                          r[k] == StockAlert(p.name, p.quantity, p.reference)
    {
      assert low[k] in low;
    }
    forall p | p in products && p.quantity < LowStockThreshold
      ensures StockAlert(p.name, p.quantity, p.reference) in r
    {
      var k :| 0 <= k < |low| && low[k] == p;
      assert r[k] == StockAlert(p.name, p.quantity, p.reference);
    }
  }

  // ---------------------------------------------------------------------------
  // The page.

  /** `reports`: the figures the page shows. */
  datatype ReportData = ReportData(totalRevenue: real, totalSales: int, totalProducts: int,
                                   lowStockProducts: int, topSellingProducts: seq<TopEntry>,
                                   recentSales: seq<SaleRecord>, monthlyRevenue: seq<MonthEntry>,
                                   stockAlerts: seq<StockAlert>)

  /** The answers of the page's queries, None where a query failed: all
      sales, the product count, the low-stock products, all sales with their
      product, and the ten newest sales. */
  datatype Answers = Answers(sales: Option<seq<SaleRecord>>, productsCount: Option<int>,
                             lowStock: Option<seq<Sales.Product>>, topSelling: Option<seq<SaleRecord>>,
                             recentSales: Option<seq<SaleRecord>>)

  /** The instants the page reads from the clock: now, the first of this
      month, the first of this year, and the two instants of each pass of
      the revenue loop. */
  datatype Clock = Clock(now: int, monthStart: int, yearStart: int, bounds: seq<MonthBounds>)

  function OrEmpty<T>(o: Option<seq<T>>): seq<T> {
    if o.Some? then o.value else []
  }

  class ReportsPage {
    var reports: ReportData
    var dateRange: DateRange

    constructor ()
      ensures reports == ReportData(0.0, 0, 0, 0, [], [], [], []) && dateRange == All
    {
      reports := ReportData(0.0, 0, 0, 0, [], [], [], []);
      dateRange := All;
    }

    /** Choosing a date range; the page then fetches again. */
    method SetDateRange(range: DateRange)
      modifies this`dateRange
      ensures dateRange == range
    {
      dateRange := range;
    }

    /** The start date of the chosen range. */
    function Start(clock: Clock): int
      reads this
    {
      if dateRange == All then clock.now else StartDate(dateRange, clock.now, clock.monthStart, clock.yearStart)
    }

    /** `revenueChange`. */
    function Change(): real
      reads this
    {
      RevenueChange(reports.monthlyRevenue)
    }

    /** fetchReports: the figures from the query answers. */
    method FetchReports(answers: Answers, clock: Clock)
      requires |clock.bounds| == MonthCount
      modifies this`reports
      ensures var filtered := InRange(answers.sales, dateRange, Start(clock));
              && reports.totalRevenue == Revenue(filtered)
              && reports.totalSales == |filtered|
      ensures reports.totalProducts == if answers.productsCount.Some? then answers.productsCount.value else 0
      ensures reports.lowStockProducts == |OrEmpty(answers.lowStock)|
      ensures reports.topSellingProducts == TopSelling(Entries(OrEmpty(answers.topSelling)))
      ensures reports.recentSales == OrEmpty(answers.recentSales)
      ensures reports.monthlyRevenue == MonthsOf(OrEmpty(answers.sales), clock.bounds)
      ensures reports.stockAlerts == StockAlerts(answers.lowStock)
    {
      var filteredSales := InRange(answers.sales, dateRange, Start(clock));
      var totalRevenue := Revenue(filteredSales);
      var totalSales := |filteredSales|;
      var totalProducts := if answers.productsCount.Some? then answers.productsCount.value else 0;
      var names, productSales := GroupByProduct(OrEmpty(answers.topSelling));
      var entries := seq(|names|, k requires 0 <= k < |names| =>
                           TopEntry(names[k], productSales[names[k]].quantity, productSales[names[k]].revenue));
      EntriesForListsTheGroups(OrEmpty(answers.topSelling), names);
      assert entries == Entries(OrEmpty(answers.topSelling));
      var topSellingProducts := TopSelling(entries);
      var monthlyRevenue := MonthlyRevenue(answers.sales, clock.bounds);
      var stockAlerts := StockAlerts(answers.lowStock);
      reports := ReportData(totalRevenue, totalSales, totalProducts, |OrEmpty(answers.lowStock)|,
                            topSellingProducts, OrEmpty(answers.recentSales), monthlyRevenue, stockAlerts);
    }
  }
}
