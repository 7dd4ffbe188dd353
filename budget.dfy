/** The budget dashboard: totals, per-category and per-day sums, the running total, the
    five most expensive activities and the radar scale, all derived from the itinerary. */
module Budget {
  import opened Wrappers
  import opened Strings
  import opened Seqs
  import opened Itinerary

  /** `act.cost?.estimatedAmount || 0`. */
  function AmountOf(a: Activity): int {
    if a.cost.Some? && a.cost.value.estimatedAmount.Some? then a.cost.value.estimatedAmount.value else 0
  }

  const DefaultCategory := "Default"

  /** `act.cost?.category || 'Default'`: a missing or empty category falls back to 'Default'. */
  function CategoryKey(a: Activity): (k: string)
    ensures k != ""
    ensures a.cost.Some? && a.cost.value.category.Some? && a.cost.value.category.value != "" ==> k == a.cost.value.category.value
  {
    if a.cost.Some? && a.cost.value.category.Some? && a.cost.value.category.value != "" then a.cost.value.category.value
    else DefaultCategory
  }

  /** totalCost: the sum of every activity's amount. */
  function TotalCost(acts: seq<Activity>): int {
    if acts == [] then 0 else TotalCost(acts[..|acts| - 1]) + AmountOf(acts[|acts| - 1])
  }

  lemma {:induction false} TotalCostConcat(a: seq<Activity>, b: seq<Activity>)
    ensures TotalCost(a + b) == TotalCost(a) + TotalCost(b)
    decreases |b|
  {
    if b == [] {
      assert a + b == a;
    } else {
      assert (a + b)[..|a + b| - 1] == a + b[..|b| - 1];
      TotalCostConcat(a, b[..|b| - 1]);
    }
  }

  /** The amounts of the activities whose category key is `c`. */
  function CategorySum(acts: seq<Activity>, c: string): int {
    if acts == [] then 0
    else CategorySum(acts[..|acts| - 1], c) + (if CategoryKey(acts[|acts| - 1]) == c then AmountOf(acts[|acts| - 1]) else 0)
  }

  /** The category keys in order of first occurrence, which is the order of `Object.values`. */
  function CategoryNames(acts: seq<Activity>): (r: seq<string>)
    ensures Distinct(r)
    ensures forall c :: c in r <==> exists a :: a in acts && CategoryKey(a) == c
  {
    if acts == [] then []
    else
      var init := acts[..|acts| - 1];
      var k := CategoryKey(acts[|acts| - 1]);
      var names := CategoryNames(init);
      assert forall a :: a in acts <==> a in init || a == acts[|acts| - 1] by {
        assert acts == init + [acts[|acts| - 1]];
      }
      if k in names then names else names + [k]
  }

  /** A key no activity has sums to nothing. */
  lemma {:induction false} CategorySumAbsent(acts: seq<Activity>, c: string)
    requires forall a :: a in acts ==> CategoryKey(a) != c
    ensures CategorySum(acts, c) == 0
    decreases |acts|
  {
    if acts != [] {
      CategorySumAbsent(acts[..|acts| - 1], c);
    }
  }

  /** One chart row: a label and a value. */
  datatype NamedValue = NamedValue(name: string, value: int)

  /** One `costsByCategory` entry; `size` feeds the treemap. */
  datatype CategoryCost = CategoryCost(name: string, value: int, size: int)

  /** The reduce of `costsByCategory`: each amount is added to the entry of its category
      key, created with zero on first sight; the entries come out in creation order. */
  method CostsByCategory(acts: seq<Activity>) returns (entries: seq<CategoryCost>)
    ensures |entries| == |CategoryNames(acts)|
    ensures forall i :: 0 <= i < |entries| ==>
      entries[i].name == CategoryNames(acts)[i]
      && entries[i].value == entries[i].size == CategorySum(acts, entries[i].name)
  {
    var names: seq<string> := [];
    var acc: map<string, CategoryCost> := map[];
    var i := 0;
    while i < |acts|
      invariant 0 <= i <= |acts|
      invariant Accumulated(acts[..i], names, acc)
    {
      assert acts[..i + 1] == acts[..i] + [acts[i]];
      names, acc := AddActivity(names, acc, acts[..i], acts[i]);
      i := i + 1;
    }
    assert acts[..i] == acts;
    entries := seq(|names|, k requires 0 <= k < |names| => acc[names[k]]);
  }

  /** The entry of key `c` after the activities `acts`. */
  function Entry(acts: seq<Activity>, c: string): CategoryCost {
    CategoryCost(c, CategorySum(acts, c), CategorySum(acts, c))
  }

  /** The accumulator after the activities `before`: the keys in creation order, each
      holding its category sum. */
  ghost predicate Accumulated(before: seq<Activity>, names: seq<string>, acc: map<string, CategoryCost>) {
    names == CategoryNames(before)
    && (forall c :: c in names <==> c in acc)
    && (forall c :: c in acc ==> acc[c] == Entry(before, c))
  }

  /** One step of the reduce: the accumulator, updated in place for one more activity;
      `names` is the order in which the object's keys were created. */
  method AddActivity(names: seq<string>, acc: map<string, CategoryCost>, ghost before: seq<Activity>, act: Activity)
    returns (names': seq<string>, next: map<string, CategoryCost>)
    requires Accumulated(before, names, acc)
    ensures Accumulated(before + [act], names', next)
  {
    var category := CategoryKey(act);
    var amount := AmountOf(act);
    ghost var after := before + [act];
    assert after[..|before|] == before && after[|before|] == act;
    next := acc;
    names' := names;
    if category !in next {
      CategorySumAbsent(before, category);
      next := next[category := CategoryCost(category, 0, 0)];
      names' := names + [category];
    }
    assert next[category] == Entry(before, category);
    next := next[category := CategoryCost(category, next[category].value + amount, next[category].size + amount)];
    assert names' == CategoryNames(after);
    forall c | c in next ensures next[c] == Entry(after, c) {
      assert CategorySum(after, c) == CategorySum(before, c) + (if category == c then amount else 0);
    }
  }

  /** The sum, over a list of keys, of each key's category sum. */
  function SumOver(names: seq<string>, acts: seq<Activity>): int {
    if names == [] then 0 else SumOver(names[..|names| - 1], acts) + CategorySum(acts, names[|names| - 1])
  }

  /** Adding one activity adds its amount under every listed key equal to its own. */
  lemma {:induction false} SumOverAppend(names: seq<string>, init: seq<Activity>, a: Activity)
    ensures SumOver(names, init + [a]) == SumOver(names, init) + AmountOf(a) * Count(names, CategoryKey(a))
    decreases |names|
  {
    if names != [] {
      var n := names[..|names| - 1];
      var last := names[|names| - 1];
      var k := CategoryKey(a);
      SumOverAppend(n, init, a);
      assert CategorySum(init + [a], last) == CategorySum(init, last) + (if k == last then AmountOf(a) else 0) by {
        assert (init + [a])[..|init|] == init;
      }
      assert AmountOf(a) * Count(names, k) == AmountOf(a) * Count(n, k) + (if k == last then AmountOf(a) else 0);
    }
  }

  function Count(names: seq<string>, c: string): nat {
    if names == [] then 0 else Count(names[..|names| - 1], c) + (if names[|names| - 1] == c then 1 else 0)
  }

  lemma {:induction false} CountAbsent(names: seq<string>, c: string)
    requires c !in names
    ensures Count(names, c) == 0
    decreases |names|
  {
    if names != [] {
      CountAbsent(names[..|names| - 1], c);
    }
  }

  lemma {:induction false} CountDistinct(names: seq<string>, c: string)
    requires Distinct(names) && c in names
    ensures Count(names, c) == 1
    decreases |names|
  {
    var n := names[..|names| - 1];
    assert Distinct(n);
    if names[|names| - 1] == c {
      assert c !in n;
      CountAbsent(n, c);
    } else {
      CountDistinct(n, c);
    }
  }

  /** A new key adds a term that is zero for the activities before it. */
  lemma SumOverNewKey(names: seq<string>, acts: seq<Activity>, k: string)
    requires forall a :: a in acts ==> CategoryKey(a) != k
    ensures SumOver(names + [k], acts) == SumOver(names, acts)
  {
    assert (names + [k])[..|names|] == names;
    CategorySumAbsent(acts, k);
  }

  /** The per-category values add up to totalCost. */
  lemma {:induction false} CategoriesSumToTotal(acts: seq<Activity>)
    ensures SumOver(CategoryNames(acts), acts) == TotalCost(acts)
    decreases |acts|
  {
    if acts != [] {
      var init := acts[..|acts| - 1];
      var a := acts[|acts| - 1];
      var names := CategoryNames(init);
      var names' := CategoryNames(acts);
      var k := CategoryKey(a);
      assert acts == init + [a];
      // The keys before the last activity sum, over those activities, to their total.
      assert SumOver(names', init) == TotalCost(init) by {
        CategoriesSumToTotal(init);
        if k !in names {
          assert names' == names + [k];
          SumOverNewKey(names, init, k);
        } else {
          assert names' == names;
        }
      }
      // The last activity's amount lands under its key, which is listed once.
      assert SumOver(names', acts) == SumOver(names', init) + AmountOf(a) by {
        assert k in names';
        CountDistinct(names', k);
        SumOverAppend(names', init, a);
      }
    }
  }

  /** The sum of the entries' values. */
  function SumValues(entries: seq<CategoryCost>): int {
    if entries == [] then 0 else SumValues(entries[..|entries| - 1]) + entries[|entries| - 1].value
  }

  /** Entries holding each listed key's category sum add up to the sum over those keys. */
  lemma {:induction false} SumValuesOver(entries: seq<CategoryCost>, names: seq<string>, acts: seq<Activity>)
    requires |entries| == |names|
    requires forall i :: 0 <= i < |entries| ==> entries[i].value == CategorySum(acts, names[i])
    ensures SumValues(entries) == SumOver(names, acts)
    decreases |entries|
  {
    if entries != [] {
      SumValuesOver(entries[..|entries| - 1], names[..|names| - 1], acts);
    }
  }

  /** One `costsByDay` row per itinerary day, in order: "Day N" and that day's sum. */
  function CostsByDay(days: seq<Day>): (r: seq<NamedValue>)
    ensures |r| == |days|
    ensures forall i :: 0 <= i < |days| ==>
      r[i] == NamedValue("Day " + IntToString(days[i].day), TotalCost(ActivitiesOf(days[i])))
  {
    seq(|days|, i requires 0 <= i < |days| => NamedValue("Day " + IntToString(days[i].day), TotalCost(ActivitiesOf(days[i]))))
  }

  function Values(rows: seq<NamedValue>): (r: seq<int>)
    ensures |r| == |rows| && forall i :: 0 <= i < |rows| ==> r[i] == rows[i].value
  {
    seq(|rows|, i requires 0 <= i < |rows| => rows[i].value)
  }

  /** The day sums add up to the total over the flattened itinerary. */
  lemma {:induction false} DaysSumToTotal(days: seq<Day>)
    requires AllHaveActivities(days)
    ensures Sum(Values(CostsByDay(days))) == TotalCost(FlattenDays(days).value)
    decreases |days|
  {
    if days != [] {
      var init := days[..|days| - 1];
      DaysSumToTotal(init);
      assert Values(CostsByDay(days))[..|init|] == Values(CostsByDay(init));
      TotalCostConcat(FlattenDays(init).value, days[|days| - 1].activities.value);
    }
  }

  /** `Math.max(...dayValues, 0)`. */
  function MaxDailySpend(values: seq<int>): (m: int)
    ensures m >= 0 && forall i :: 0 <= i < |values| ==> m >= values[i]
    ensures m == 0 || exists i :: 0 <= i < |values| && m == values[i]
  {
    if values == [] then 0
    else
      var rest := MaxDailySpend(values[..|values| - 1]);
      var last := values[|values| - 1];
      if last > rest then last else rest
  }

  /** One radar point per day, scaled to 1.1 times the largest day. */
  datatype RadarPoint = RadarPoint(subject: string, cost: int, fullMark: real)

  function Radar(byDay: seq<NamedValue>, maxDailySpend: int): (r: seq<RadarPoint>)
    ensures |r| == |byDay|
    ensures forall i :: 0 <= i < |byDay| ==> r[i].subject == byDay[i].name && r[i].cost == byDay[i].value
    ensures forall i :: 0 <= i < |byDay| ==> r[i].fullMark == (maxDailySpend as real) * 1.1
  {
    seq(|byDay|, i requires 0 <= i < |byDay| => RadarPoint(byDay[i].name, byDay[i].value, (maxDailySpend as real) * 1.1))
  }

  /** The comparator `(b, a) => amount(b) - amount(a)` as an order: costlier first. */
  predicate Costlier(a: Activity, b: Activity) {
    AmountOf(a) >= AmountOf(b)
  }

  lemma CostlierIsPreorder()
    ensures TotalPreorder(Costlier)
  {
  }

  /** `topExpensiveActivities`: a sorted copy, cut to five, mapped to name and amount. */
  function TopExpensive(acts: seq<Activity>): (r: seq<NamedValue>)
    ensures |r| <= 5 && |r| <= |acts|
    ensures |r| == if |acts| < 5 then |acts| else 5
    ensures forall i, j :: 0 <= i < j < |r| ==> r[i].value >= r[j].value
  {
    var sorted := SortBy(acts, Costlier);
    var top := Take(sorted, 5);
    assert SortedBy(sorted, Costlier) by {
      CostlierIsPreorder();
      SortBySorted(acts, Costlier);
    }
    assert |sorted| == |acts| by {
      assert |multiset(sorted)| == |multiset(acts)|;
    }
    seq(|top|, i requires 0 <= i < |top| => NamedValue(top[i].name, AmountOf(top[i])))
  }

  /** Every activity left out of the top five costs no more than each one kept in it. */
  lemma TopFiveAreLargest(acts: seq<Activity>)
    ensures var sorted := SortBy(acts, Costlier);
      var top := Take(sorted, 5);
      multiset(top) <= multiset(acts)
      && forall i, a :: 0 <= i < |top| && a in multiset(acts) - multiset(top) ==> AmountOf(top[i]) >= AmountOf(a)
  {
    var sorted := SortBy(acts, Costlier);
    var top := Take(sorted, 5);
    assert SortedBy(sorted, Costlier) by {
      CostlierIsPreorder();
      SortBySorted(acts, Costlier);
    }
    PrefixDominates(sorted, |top|, Costlier);
  }

  /** The running total: row i holds day i's label and the sum of the first i+1 days. */
  method CumulativeSpend(byDay: seq<NamedValue>) returns (r: seq<NamedValue>)
    ensures |r| == |byDay|
    ensures forall i :: 0 <= i < |byDay| ==> r[i] == NamedValue(byDay[i].name, Sum(Values(byDay[..i + 1])))
  {
    var cumulativeTotal := 0;
    r := [];
    var i := 0;
    while i < |byDay|
      invariant 0 <= i <= |byDay|
      invariant cumulativeTotal == Sum(Values(byDay[..i]))
      invariant RunningRows(r, byDay, i)
    {
      RunningExtend(r, byDay, i, cumulativeTotal);
      cumulativeTotal := cumulativeTotal + byDay[i].value;
      r := r + [NamedValue(byDay[i].name, cumulativeTotal)];
      i := i + 1;
    }
  }

  /** `rows` holds the first `i` running totals. */
  ghost predicate RunningRows(rows: seq<NamedValue>, byDay: seq<NamedValue>, i: nat)
    requires i <= |byDay|
  {
    |rows| == i && forall k :: 0 <= k < i ==> rows[k] == NamedValue(byDay[k].name, Sum(Values(byDay[..k + 1])))
  }

  /** Day `i` extends the running totals by its own. */
  lemma RunningExtend(rows: seq<NamedValue>, byDay: seq<NamedValue>, i: nat, total: int)
    requires i < |byDay| && RunningRows(rows, byDay, i) && total == Sum(Values(byDay[..i]))
    ensures RunningRows(rows + [NamedValue(byDay[i].name, total + byDay[i].value)], byDay, i + 1)
  {
    RunningSumStep(byDay, i);
    var next := rows + [NamedValue(byDay[i].name, total + byDay[i].value)];
    assert forall k :: 0 <= k < i ==> next[k] == rows[k];
  }

  /** Each day adds its own value to the running total. */
  lemma RunningSumStep(byDay: seq<NamedValue>, i: nat)
    requires i < |byDay|
    ensures Sum(Values(byDay[..i + 1])) == Sum(Values(byDay[..i])) + byDay[i].value
  {
    var vs := Values(byDay[..i + 1]);
    assert vs[..i] == Values(byDay[..i]);
  }

  /** The last running total is the sum of all days. */
  lemma CumulativeEndsAtTotal(byDay: seq<NamedValue>)
    requires |byDay| > 0
    ensures Sum(Values(byDay[..|byDay|])) == Sum(Values(byDay))
  {
    assert byDay[..|byDay|] == byDay;
  }

  datatype BudgetData = BudgetData(
    totalCost: int,
    costsByCategory: seq<CategoryCost>,
    costsByDay: seq<NamedValue>,
    radarData: seq<RadarPoint>,
    topExpensiveActivities: seq<NamedValue>,
    cumulativeSpend: seq<NamedValue>,
    currency: string)

  /** What the dashboard's data says about an itinerary (`days`, flattened to `all`): the
      total; the per-category entries, one per key in order of first use, summing to the
      total; one row per day whose totals sum to the total; the radar scaled to the largest
      day; the five costliest activities; the running totals ending at the total. */
  predicate Summarises(days: seq<Day>, all: seq<Activity>, data: BudgetData) {
    && data.totalCost == TotalCost(all)
    && SumValues(data.costsByCategory) == data.totalCost
    && |data.costsByCategory| == |CategoryNames(all)|
    && (forall i :: 0 <= i < |data.costsByCategory| ==>
          data.costsByCategory[i].name == CategoryNames(all)[i]
          && data.costsByCategory[i].value == data.costsByCategory[i].size == CategorySum(all, data.costsByCategory[i].name))
    && data.costsByDay == CostsByDay(days)
    && Sum(Values(data.costsByDay)) == data.totalCost
    && data.radarData == Radar(data.costsByDay, MaxDailySpend(Values(data.costsByDay)))
    && data.topExpensiveActivities == TopExpensive(all)
    && |data.cumulativeSpend| == |data.costsByDay|
    && (forall i :: 0 <= i < |data.costsByDay| ==>
          data.cumulativeSpend[i] == NamedValue(data.costsByDay[i].name, Sum(Values(data.costsByDay[..i + 1]))))
    && (|data.cumulativeSpend| > 0 ==> data.cumulativeSpend[|data.cumulativeSpend| - 1].value == data.totalCost)
    && data.currency == "SGD"
  }

  /** `fetchAndProcessData`: None when the fetch fails (`fetched` is None), the document
      has no itinerary or a day has no activities (each of which throws). */
  method ProcessBudget(fetched: Option<Document>) returns (budgetData: Option<BudgetData>)
    ensures budgetData.None? <==> fetched.None? || Flatten(fetched.value).None?
    ensures budgetData.Some? ==>
      Summarises(fetched.value.itinerary.value, Flatten(fetched.value).value, budgetData.value)
  {
    if fetched.None? {
      return None;
    }
    var flat := Flatten(fetched.value);
    if flat.None? {
      return None;
    }
    var allActivities := flat.value;
    var days := fetched.value.itinerary.value;
    var totalCost := TotalCost(allActivities);
    var costsByCategory := CostsByCategory(allActivities);
    CategoriesSumToTotal(allActivities);
    SumValuesOver(costsByCategory, CategoryNames(allActivities), allActivities);
    var costsByDay := CostsByDay(days);
    DaysSumToTotal(days);
    var maxDailySpend := MaxDailySpend(Values(costsByDay));
    var radarData := Radar(costsByDay, maxDailySpend);
    var topExpensiveActivities := TopExpensive(allActivities);
    var cumulativeSpend := CumulativeSpend(costsByDay);
    if |costsByDay| > 0 {
      CumulativeEndsAtTotal(costsByDay);
    }
    budgetData := Some(BudgetData(totalCost, costsByCategory, costsByDay, radarData,
                                  topExpensiveActivities, cumulativeSpend, "SGD"));
  }

  /** What the dashboard shows. */
  datatype Screen = Spinner | LoadError(message: string) | Dashboard(data: BudgetData)

  function Render(loading: bool, budgetData: Option<BudgetData>): (s: Screen)
    ensures s == Spinner <==> loading
    ensures s.LoadError? <==> !loading && budgetData.None?
    ensures s.LoadError? ==> s.message == "Could not load budget data."
    ensures s.Dashboard? ==> budgetData == Some(s.data)
  {
    if loading then Spinner
    else if budgetData.None? then LoadError("Could not load budget data.")
    else Dashboard(budgetData.value)
  }

  /** The component state the effect sets. */
  class Dashboard {
    var budgetData: Option<BudgetData>
    var loading: bool

    constructor ()
      ensures budgetData.None? && loading
    {
      budgetData := None;
      loading := true;
    }

    /** The effect: a failure keeps `budgetData` as it was; loading ends either way. */
    method Load(fetched: Option<Document>)
      modifies this
      ensures !loading
      ensures fetched.None? || Flatten(fetched.value).None? ==> budgetData == old(budgetData)
      ensures fetched.Some? && Flatten(fetched.value).Some? ==>
        budgetData.Some? && Summarises(fetched.value.itinerary.value, Flatten(fetched.value).value, budgetData.value)
    {
      loading := true;
      var processed := ProcessBudget(fetched);
      if processed.Some? {
        budgetData := processed;
      }
      loading := false;
    }
  }
}
