/** The figures of the statistics panel in `src/components/Stats.tsx`: the
    monthly income/expense series built from the server's aggregation rows,
    the expense-category slices, and the balance, savings-rate and advice
    rules. Amounts are `real`. */
module Stats {
  import opened Js

  /** The `(year, month)` pair a monthly row is grouped under. The source keys
      its accumulator by the string `${year}-${month}`, which tells distinct
      integer pairs apart, so the pair itself serves as the key here. */
  datatype MonthKey = MonthKey(year: int, month: int)

  /** One element of `monthlyData`: `_id.category` is true for income rows. */
  datatype MonthlyRow = MonthlyRow(key: MonthKey, category: bool, total: real)

  /** One accumulator entry of the grouping step. */
  datatype Bucket = Bucket(year: int, month: int, income: real, expenses: real)

  /** One point of the bar and line charts; `name` is `undefined` (None) for a
      month outside 1..12. */
  datatype ChartPoint = ChartPoint(name: Option<string>, income: real, expenses: real, savings: real)

  /** One element of `expensesByCategory`. */
  datatype CategoryTotal = CategoryTotal(id: string, total: real)

  /** One slice of the pie chart. */
  datatype Slice = Slice(name: string, value: real)

  /** The statistics the server returns; absent fields are None. */
  datatype StatsData = StatsData(
    income: Option<real>,
    expenses: Option<real>,
    expensesByCategory: Option<seq<CategoryTotal>>,
    monthlyData: Option<seq<MonthlyRow>>)

  // ---------------------------------------------------------------------------
  // Grouping rows by month
  // ---------------------------------------------------------------------------

  function Key(b: Bucket): MonthKey {
    MonthKey(b.year, b.month)
  }

  /** The distinct `(year, month)` pairs of the rows. */
  function Keys(rows: seq<MonthlyRow>): set<MonthKey> {
    set r | r in rows :: r.key
  }

  /** The sum of `total` over the income rows of month `k`. */
  function IncomeOf(rows: seq<MonthlyRow>, k: MonthKey): (r: real)
    ensures (forall i :: 0 <= i < |rows| && rows[i].key == k ==> !rows[i].category) ==> r == 0.0
  {
    if rows == [] then 0.0
    else
      var last := rows[|rows| - 1];
      IncomeOf(rows[..|rows| - 1], k) + (if last.key == k && last.category then last.total else 0.0)
  }

  /** The sum of `|total|` over the expense rows of month `k`. */
  function ExpensesOf(rows: seq<MonthlyRow>, k: MonthKey): (e: real)
    ensures e >= 0.0
  {
    if rows == [] then 0.0
    else
      var last := rows[|rows| - 1];
      ExpensesOf(rows[..|rows| - 1], k) + (if last.key == k && !last.category then Abs(last.total) else 0.0)
  }

  /** A month without rows has no income and no expenses. */
  lemma {:induction false} AbsentMonthIsEmpty(rows: seq<MonthlyRow>, k: MonthKey)
    requires k !in Keys(rows)
    ensures IncomeOf(rows, k) == 0.0 && ExpensesOf(rows, k) == 0.0
  {
    if rows != [] {
      assert rows == rows[..|rows| - 1] + [rows[|rows| - 1]];
      AbsentMonthIsEmpty(rows[..|rows| - 1], k);
    }
  }

  /** The bucket month `k` ends up with once every row is accumulated. */
  function BucketFor(rows: seq<MonthlyRow>, k: MonthKey): (b: Bucket)
    ensures Key(b) == k && b.expenses >= 0.0
  {
    Bucket(k.year, k.month, IncomeOf(rows, k), ExpensesOf(rows, k))
  }

  /** Accumulating one more row changes only its own month's bucket: the
      income or the expenses, by its total or its absolute total. */
  lemma BucketForStep(init: seq<MonthlyRow>, r: MonthlyRow, k: MonthKey)
    ensures r.key != k ==> BucketFor(init + [r], k) == BucketFor(init, k)
    ensures r.key == k && r.category ==>
      BucketFor(init + [r], k) == BucketFor(init, k).(income := BucketFor(init, k).income + r.total)
    ensures r.key == k && !r.category ==>
      BucketFor(init + [r], k) == BucketFor(init, k).(expenses := BucketFor(init, k).expenses + Abs(r.total))
  {
    assert (init + [r])[..|init|] == init;
  }

  predicate NoRepeats<T(==)>(s: seq<T>) {
    forall i, j :: 0 <= i < j < |s| ==> s[i] != s[j]
  }

  /** The keys in order of first appearance: the order of `Object.values`. */
  function FirstSeenKeys(rows: seq<MonthlyRow>): (d: seq<MonthKey>)
    ensures NoRepeats(d)
    ensures forall k :: k in d <==> k in Keys(rows)
  {
    if rows == [] then []
    else
      var init := rows[..|rows| - 1];
      var d := FirstSeenKeys(init);
      assert rows == init + [rows[|rows| - 1]];
      if rows[|rows| - 1].key in d then d else d + [rows[|rows| - 1].key]
  }

  /** One more row adds its month to the keys, and to the first-seen order
      when it is new. */
  lemma KeysStep(init: seq<MonthlyRow>, r: MonthlyRow)
    ensures Keys(init + [r]) == Keys(init) + {r.key}
    ensures FirstSeenKeys(init + [r]) ==
      if r.key in FirstSeenKeys(init) then FirstSeenKeys(init) else FirstSeenKeys(init) + [r.key]
  {
    assert (init + [r])[..|init|] == init;
  }

  /** A sequence without repeats has as many elements as its set. */
  lemma {:induction false} NoRepeatsCardinality<T>(s: seq<T>)
    requires NoRepeats(s)
    ensures |set x | x in s| == |s|
  {
    if s != [] {
      var init := s[..|s| - 1];
      NoRepeatsCardinality(init);
      assert (set x | x in s) == (set x | x in init) + {s[|s| - 1]} by {
        assert s == init + [s[|s| - 1]];
      }
      assert s[|s| - 1] !in init;
    }
  }

  /** `Object.values(groupedData)`, bucket by bucket in key order. */
  function BucketsOf(rows: seq<MonthlyRow>, ks: seq<MonthKey>): (bs: seq<Bucket>)
    ensures |bs| == |ks|
    ensures forall j :: 0 <= j < |ks| ==> bs[j] == BucketFor(rows, ks[j])
    ensures NoRepeats(ks) ==> KeysDistinct(bs)
    ensures forall k :: k in ks ==> BucketFor(rows, k) in bs
  {
    var bs := seq(|ks|, j requires 0 <= j < |ks| => BucketFor(rows, ks[j]));
    assert forall k :: k in ks ==> BucketFor(rows, k) in bs by {
      forall k | k in ks
        ensures BucketFor(rows, k) in bs
      {
        var j :| 0 <= j < |ks| && ks[j] == k;
        assert bs[j] == BucketFor(rows, k);
      }
    }
    bs
  }

  // ---------------------------------------------------------------------------
  // Sorting by (year, month)
  // ---------------------------------------------------------------------------

  /** The comparator of lines 110-113 as written: the year difference, or the
      month difference within a year. */
  function Comparator(a: Bucket, b: Bucket): int {
    if a.year != b.year then a.year - b.year else a.month - b.month
  }

  /** `a` sorts before `b`: the comparator is negative, which makes a strict
      order on the months. */
  function Before(a: Bucket, b: Bucket): (r: bool)
    ensures r <==> Comparator(a, b) < 0
    ensures r ==> Key(a) != Key(b) && Comparator(b, a) > 0
  {
    a.year < b.year || (a.year == b.year && a.month < b.month)
  }

  predicate StrictlySorted(s: seq<Bucket>) {
    forall i, j :: 0 <= i < j < |s| ==> Before(s[i], s[j])
  }

  predicate KeysDistinct(s: seq<Bucket>) {
    forall i, j :: 0 <= i < j < |s| ==> Key(s[i]) != Key(s[j])
  }

  /** No bucket of `s` has the key of `b`. */
  predicate NewKey(b: Bucket, s: seq<Bucket>) {
    forall x :: x in s ==> Key(x) != Key(b)
  }

  function Insert(b: Bucket, s: seq<Bucket>): (r: seq<Bucket>)
    ensures multiset(r) == multiset(s) + multiset{b}
    ensures forall x :: x in r <==> x == b || x in s
  {
    if s == [] then [b]
    else if Before(b, s[0]) then [b] + s
    else
      assert s == [s[0]] + s[1..];
      [s[0]] + Insert(b, s[1..])
  }

  /** Inserting a bucket with a new month into a strictly sorted list keeps
      it strictly sorted. */
  lemma {:induction false} InsertKeepsSorted(b: Bucket, s: seq<Bucket>)
    requires StrictlySorted(s) && NewKey(b, s)
    ensures StrictlySorted(Insert(b, s))
  {
    if s != [] && !Before(b, s[0]) {
      var rest := Insert(b, s[1..]);
      assert s == [s[0]] + s[1..];
      assert StrictlySorted(s[1..]);
      InsertKeepsSorted(b, s[1..]);
      assert s[0] in s;
      assert Before(s[0], b);
      assert forall x :: x in rest ==> Before(s[0], x);
      assert forall j :: 0 < j < |[s[0]] + rest| ==> ([s[0]] + rest)[j] == rest[j - 1];
    }
  }

  /** `Array.prototype.sort` with the comparator of lines 110-113. */
  function SortByMonth(bs: seq<Bucket>): (r: seq<Bucket>)
    ensures multiset(r) == multiset(bs)
    ensures forall x :: x in r <==> x in bs
    ensures KeysDistinct(bs) ==> StrictlySorted(r)
  {
    if bs == [] then []
    else
      var rest := SortByMonth(bs[1..]);
      assert bs == [bs[0]] + bs[1..];
      assert KeysDistinct(bs) ==> StrictlySorted(Insert(bs[0], rest)) by {
        if KeysDistinct(bs) {
          assert KeysDistinct(bs[1..]);
          assert forall x :: x in bs[1..] ==> Key(x) != Key(bs[0]);
          InsertKeepsSorted(bs[0], rest);
        }
      }
      Insert(bs[0], rest)
  }

  /** The sorted buckets behind the monthly series: one per distinct month of
      the rows, in ascending (year, month) order, each holding that month's
      income and expense sums. */
  function MonthBuckets(rows: seq<MonthlyRow>): (mb: seq<Bucket>)
    ensures |mb| == |Keys(rows)|
    ensures StrictlySorted(mb)
    ensures forall b :: b in mb ==> Key(b) in Keys(rows) && b == BucketFor(rows, Key(b))
    ensures forall k :: k in Keys(rows) ==> BucketFor(rows, k) in mb
  {
    var ks := FirstSeenKeys(rows);
    var bs := BucketsOf(rows, ks);
    NoRepeatsCardinality(ks);
    assert (set x | x in ks) == Keys(rows);
    var mb := SortByMonth(bs);
    assert |mb| == |bs| by {
      assert |multiset(mb)| == |multiset(bs)|;
    }
    mb
  }

  // ---------------------------------------------------------------------------
  // formatMonthlyData and formatCategoryData
  // ---------------------------------------------------------------------------

  const Months: seq<string> := ["Jan", "Feb", "Mar", "Apr", "May", "Jun", "Jul", "Aug", "Sep", "Oct", "Nov", "Dec"]

  /** `months[month - 1]`, which is undefined outside 1..12. */
  function MonthName(month: int): (r: Option<string>)
    ensures r.Some? <==> 1 <= month <= 12
    ensures r.Some? ==> r.value == Months[month - 1]
  {
    if 1 <= month <= 12 then Some(Months[month - 1]) else None
  }

  /** The point a bucket contributes to the charts. */
  function Point(b: Bucket): (p: ChartPoint)
    ensures p.name == MonthName(b.month)
    ensures p.income == b.income && p.expenses == b.expenses
    ensures p.savings == p.income - p.expenses
  {
    ChartPoint(MonthName(b.month), b.income, b.expenses, b.income - b.expenses)
  }

  /** The `reduce` of lines 83-106: one accumulator entry per month, created
      empty on the month's first row, to which each row adds its total (income
      rows) or its absolute total (expense rows). `order` is the order in which
      the entries were created. */
  method GroupByMonth(rows: seq<MonthlyRow>) returns (groups: map<MonthKey, Bucket>, order: seq<MonthKey>)
    ensures order == FirstSeenKeys(rows)
    ensures forall k :: k in groups <==> k in Keys(rows)
    ensures forall k :: k in groups ==> groups[k] == BucketFor(rows, k)
  {
    groups := map[];
    order := [];
    var i := 0;
    while i < |rows|
      invariant 0 <= i <= |rows|
      invariant order == FirstSeenKeys(rows[..i])
      invariant forall k :: k in groups <==> k in order
      invariant forall k :: k in groups ==> groups[k] == BucketFor(rows[..i], k)
    {
      var item := rows[i];
      var created := item.key !in groups;
      if created {
        groups := groups[item.key := Bucket(item.key.year, item.key.month, 0.0, 0.0)];
        order := order + [item.key];
      }
      var acc := groups[item.key];
      if item.category {
        groups := groups[item.key := acc.(income := acc.income + item.total)];
      } else {
        groups := groups[item.key := acc.(expenses := acc.expenses + Abs(item.total))];
      }
      assert rows[..i + 1] == rows[..i] + [item];
      KeysStep(rows[..i], item);
      forall k | k in groups
        ensures groups[k] == BucketFor(rows[..i + 1], k)
      {
        BucketForStep(rows[..i], item, k);
        if k == item.key && created {
          AbsentMonthIsEmpty(rows[..i], k);
        }
      }
      i := i + 1;
    }
    assert rows[..i] == rows;
  }

  /** `formatMonthlyData`: group the rows by month, sort the groups by (year,
      month) and push one chart point per group. */
  method FormatMonthlyData(monthlyData: Option<seq<MonthlyRow>>) returns (formatted: seq<ChartPoint>)
    ensures monthlyData.None? ==> formatted == []
    ensures monthlyData.Some? ==>
      && |formatted| == |Keys(monthlyData.value)|
      && forall j :: 0 <= j < |formatted| ==> formatted[j] == Point(MonthBuckets(monthlyData.value)[j])
  {
    if monthlyData.None? {
      return [];
    }
    var rows := monthlyData.value;
    var groups, order := GroupByMonth(rows);
    var values := seq(|order|, j requires 0 <= j < |order| => groups[order[j]]);
    assert values == BucketsOf(rows, FirstSeenKeys(rows));
    var sorted := SortByMonth(values);
    assert sorted == MonthBuckets(rows);
    formatted := PushPoints(sorted);
  }

  /** The `forEach` of lines 114-121: push the point of each sorted bucket. */
  method PushPoints(sorted: seq<Bucket>) returns (formatted: seq<ChartPoint>)
    ensures |formatted| == |sorted|
    ensures forall j :: 0 <= j < |sorted| ==> formatted[j] == Point(sorted[j])
  {
    formatted := [];
    var j := 0;
    while j < |sorted|
      invariant 0 <= j <= |sorted|
      invariant |formatted| == j
      invariant forall t :: 0 <= t < j ==> formatted[t] == Point(sorted[t])
    {
      formatted := formatted + [Point(sorted[j])];
      j := j + 1;
    }
  }

  /** `formatCategoryData`: one slice per category, in the server's order,
      named by the category and sized by the absolute total. */
  function FormatCategoryData(expensesByCategory: Option<seq<CategoryTotal>>): (r: seq<Slice>)
    ensures expensesByCategory.None? ==> r == []
    ensures expensesByCategory.Some? ==> |r| == |expensesByCategory.value|
    ensures expensesByCategory.Some? ==>
      forall j :: 0 <= j < |r| ==>
        && r[j].name == expensesByCategory.value[j].id
        && r[j].value == Abs(expensesByCategory.value[j].total)
    ensures forall j :: 0 <= j < |r| ==> r[j].value >= 0.0
  {
    match expensesByCategory
    case None => []
    case Some(cs) => seq(|cs|, j requires 0 <= j < |cs| => Slice(cs[j].id, Abs(cs[j].total)))
  }

  // ---------------------------------------------------------------------------
  // Summary cards and advice
  // ---------------------------------------------------------------------------

  /** `x || 0` on an optional number. */
  function OrZero(x: Option<real>): real {
    if x.Some? then x.value else 0.0
  }

  /** The Total Balance card: income less the absolute expenses. */
  function TotalBalance(stats: Option<StatsData>): (r: real)
    ensures stats.None? ==> r == 0.0
    ensures stats.Some? ==> r == OrZero(stats.value.income) - Abs(OrZero(stats.value.expenses))
    ensures r <= OrZero(if stats.Some? then stats.value.income else None)
  {
    if stats.None? then 0.0 else OrZero(stats.value.income) - Abs(OrZero(stats.value.expenses))
  }

  /** `stats?.income` is truthy. */
  predicate HasIncome(stats: Option<StatsData>) {
    stats.Some? && stats.value.income.Some? && stats.value.income.value != 0.0
  }

  /** The Savings Rate card, before rounding: the share of income not spent,
      in percent; 0 without income, and NaN (None) when there is income but
      no `expenses`, since `Math.abs(undefined)` is NaN. */
  function SavingsRate(stats: Option<StatsData>): (r: Option<real>)
    ensures !HasIncome(stats) ==> r == Some(0.0)
    ensures HasIncome(stats) ==> (r.None? <==> stats.value.expenses.None?)
    ensures HasIncome(stats) && r.Some? ==>
      var income := stats.value.income.value;
      r.value * income == (income - Abs(stats.value.expenses.value)) * 100.0
  {
    if !HasIncome(stats) then Some(0.0)
    else if stats.value.expenses.None? then None
    else
      var income := stats.value.income.value;
      Some((income - Abs(stats.value.expenses.value)) / income * 100.0)
  }

  /** The insight panel of line 243 is rendered: income and expenses both
      present and non-zero. Its savings rate is then a number, and its praise
      agrees with the sign of the balance card. */
  function ShowsInsights(stats: Option<StatsData>): (b: bool)
    ensures b ==> SavingsRate(stats).Some?
    ensures b ==> stats.Some? && (IsSaving(stats.value) <==> TotalBalance(stats) > 0.0)
  {
    HasIncome(stats) && stats.value.expenses.Some? && stats.value.expenses.value != 0.0
  }

  /** `stats.income > Math.abs(stats.expenses)` (line 248): an absent field
      makes the comparison false. The user is praised exactly when the
      balance card is positive. */
  function IsSaving(s: StatsData): (b: bool)
    ensures s.income.Some? && s.expenses.Some? ==> (b <==> TotalBalance(Some(s)) > 0.0)
    ensures b ==> TotalBalance(Some(s)) > 0.0
    ensures s.income.None? || s.expenses.None? ==> !b
  {
    s.income.Some? && s.expenses.Some? && s.income.value > Abs(s.expenses.value)
  }

  /** `stats.income > Math.abs(stats.expenses) * 1.2` (line 271): the
      recommendation calls the savings rate healthy. */
  function IsHealthy(s: StatsData): (b: bool)
    ensures b ==> IsSaving(s)
  {
    s.income.Some? && s.expenses.Some? && s.income.value > Abs(s.expenses.value) * 1.2
  }

  /** Healthy savings come with a positive savings rate. */
  lemma HealthyImpliesSaving(stats: Option<StatsData>)
    requires stats.Some? && IsHealthy(stats.value)
    ensures IsSaving(stats.value)
    ensures HasIncome(stats) && SavingsRate(stats).Some? && SavingsRate(stats).value > 0.0
  {
    var income := stats.value.income.value;
    var r := SavingsRate(stats).value;
    assert r * income > 0.0;
  }

  /** With positive income the 1.2 threshold is a savings rate above 100/6
      percent (about 16.7%), not the 20% the advice text names; without
      expenses both sides are false. */
  lemma {:induction false} HealthyIffRateAboveOneSixth(stats: Option<StatsData>)
    requires HasIncome(stats) && stats.value.income.value > 0.0
    ensures IsHealthy(stats.value) <==> SavingsRate(stats).Some? && SavingsRate(stats).value * 6.0 > 100.0
  {
    if stats.value.expenses.Some? {
      var income := stats.value.income.value;
      var e := Abs(stats.value.expenses.value);
      var r := SavingsRate(stats).value;
      assert r * income == (income - e) * 100.0;
      assert (r * 6.0) * income == (income - e) * 600.0;
      ScaleByPositive(r * 6.0, 100.0, income);
      assert r * 6.0 > 100.0 <==> (income - e) * 600.0 > 100.0 * income;
      assert IsHealthy(stats.value) <==> income > e * 1.2;
    }
  }

  lemma ScaleByPositive(a: real, b: real, c: real)
    requires c > 0.0
    ensures a > b <==> a * c > b * c
  {
    if a > b {
      assert (a - b) * c > 0.0;
    } else {
      assert (b - a) * c >= 0.0;
    }
  }

  /** The "Top Expense Category" insight: the first category's name, its
      absolute total and its share of the absolute expenses in percent. */
  function TopCategory(s: StatsData): (r: Option<(string, real, real)>)
    requires s.expenses.Some? && s.expenses.value != 0.0
    ensures r.Some? <==> s.expensesByCategory.Some? && |s.expensesByCategory.value| > 0
    ensures r.Some? ==>
      var first := s.expensesByCategory.value[0];
      && r.value.0 == first.id && r.value.1 == Abs(first.total) && r.value.1 >= 0.0
      && r.value.2 * Abs(s.expenses.value) == r.value.1 * 100.0
  {
    if s.expensesByCategory.Some? && |s.expensesByCategory.value| > 0 then
      var first := s.expensesByCategory.value[0];
      Some((first.id, Abs(first.total), Abs(first.total) / Abs(s.expenses.value) * 100.0))
    else None
  }
}
