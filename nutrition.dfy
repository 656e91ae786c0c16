/** Food items, the four-meal diet chart, and the nutrient totals computed over them. */
module Nutrition {

  /** One line of a diet chart: a label and four nutrient amounts, rounded to integers
      where they were entered or looked up. */
  datatype FoodItem = FoodItem(text: string, calories: int, protein: int, carbs: int, fat: int)

  /** The four nutrient sums of a list of food items. */
  datatype Totals = Totals(calories: int, protein: int, carbs: int, fat: int)

  const Zero := Totals(0, 0, 0, 0)

  /** The reducer of `calculateTotals`: adds one item to the running totals. */
  function AddItem(acc: Totals, item: FoodItem): Totals {
    Totals(acc.calories + item.calories, acc.protein + item.protein,
           acc.carbs + item.carbs, acc.fat + item.fat)
  }

  function Plus(a: Totals, b: Totals): Totals {
    Totals(a.calories + b.calories, a.protein + b.protein, a.carbs + b.carbs, a.fat + b.fat)
  }

  function Plus4(w: Totals, x: Totals, y: Totals, z: Totals): Totals {
    Plus(Plus(Plus(w, x), y), z)
  }

  /** `calculateTotals`: `items.reduce(AddItem, Zero)`, a fold from the left. */
  function CalculateTotals(items: seq<FoodItem>): (t: Totals)
    ensures items == [] ==> t == Zero
  {
    if items == [] then Zero
    else AddItem(CalculateTotals(items[..|items| - 1]), items[|items| - 1])
  }

  /** Adding an item at the end of a list adds it to the totals. */
  lemma TotalsAppend(xs: seq<FoodItem>, x: FoodItem)
    ensures CalculateTotals(xs + [x]) == AddItem(CalculateTotals(xs), x)
  {
    assert (xs + [x])[..|xs|] == xs;
  }

  /** The totals of two concatenated lists are the sum of their totals. */
  lemma {:induction false} TotalsConcat(xs: seq<FoodItem>, ys: seq<FoodItem>)
    ensures CalculateTotals(xs + ys) == Plus(CalculateTotals(xs), CalculateTotals(ys))
    decreases |ys|
  {
    if ys == [] {
      assert xs + ys == xs;
    } else {
      var init, last := ys[..|ys| - 1], ys[|ys| - 1];
      calc {
        CalculateTotals(xs + ys);
        { assert xs + ys == (xs + init) + [last]; }
        CalculateTotals((xs + init) + [last]);
        { TotalsAppend(xs + init, last); }
        AddItem(CalculateTotals(xs + init), last);
        { TotalsConcat(xs, init); }
        Plus(CalculateTotals(xs), AddItem(CalculateTotals(init), last));
        { assert ys == init + [last]; TotalsAppend(init, last); }
        Plus(CalculateTotals(xs), CalculateTotals(ys));
      }
    }
  }

  /** Taking one item out of a list removes exactly that item from the totals. */
  lemma TotalsWithout(before: seq<FoodItem>, x: FoodItem, after: seq<FoodItem>)
    ensures CalculateTotals(before + [x] + after) == AddItem(CalculateTotals(before + after), x)
  {
    calc {
      CalculateTotals(before + [x] + after);
      { TotalsConcat(before + [x], after); }
      Plus(CalculateTotals(before + [x]), CalculateTotals(after));
      { TotalsAppend(before, x); }
      AddItem(Plus(CalculateTotals(before), CalculateTotals(after)), x);
      { TotalsConcat(before, after); }
      AddItem(CalculateTotals(before + after), x);
    }
  }

  /** Removing the item at position i removes one occurrence of it from the multiset. */
  lemma MultisetWithout(ys: seq<FoodItem>, i: nat)
    requires i < |ys|
    ensures multiset(ys[..i] + ys[i + 1..]) == multiset(ys) - multiset{ys[i]}
  {
    assert ys == ys[..i] + [ys[i]] + ys[i + 1..];
  }

  /** Finds in `ys` the last item of its permutation `xs`; what remains of both lists is
      again a permutation. */
  lemma MatchLast(xs: seq<FoodItem>, ys: seq<FoodItem>) returns (i: nat)
    requires multiset(xs) == multiset(ys) && xs != []
    ensures i < |ys| && ys[i] == xs[|xs| - 1]
    ensures multiset(xs[..|xs| - 1]) == multiset(ys[..i] + ys[i + 1..])
  {
    var n := |xs| - 1;
    assert xs[n] in multiset(ys);
    i :| 0 <= i < |ys| && ys[i] == xs[n];
    MultisetWithout(ys, i);
    MultisetWithout(xs, n);
    assert xs[..n] + xs[n + 1..] == xs[..n];
  }

  /** The order of the items does not matter: lists that are permutations of each other
      have the same totals. */
  lemma {:induction false} TotalsPermutation(xs: seq<FoodItem>, ys: seq<FoodItem>)
    requires multiset(xs) == multiset(ys)
    ensures CalculateTotals(xs) == CalculateTotals(ys)
    decreases |xs|
  {
    if xs == [] {
      assert |ys| == |multiset(ys)| == 0;
    } else {
      var n := |xs| - 1;
      var i := MatchLast(xs, ys);
      TotalsPermutation(xs[..n], ys[..i] + ys[i + 1..]);
      TotalsWithout(ys[..i], ys[i], ys[i + 1..]);
      assert ys == ys[..i] + [ys[i]] + ys[i + 1..];
      TotalsAppend(xs[..n], xs[n]);
      assert xs == xs[..n] + [xs[n]];
    }
  }

  /** A reference definition of the totals, summing from the right; `calculateTotals`
      agrees with it on every list. */
  function SumFromRight(items: seq<FoodItem>): Totals {
    if items == [] then Zero else AddItem(SumFromRight(items[1..]), items[0])
  }

  lemma {:induction false} TotalsMatchSumFromRight(items: seq<FoodItem>)
    ensures CalculateTotals(items) == SumFromRight(items)
  {
    if items != [] {
      TotalsMatchSumFromRight(items[1..]);
      assert items == [items[0]] + items[1..];
      TotalsConcat([items[0]], items[1..]);
    }
  }

  /** The four meals of a diet chart. No fifth meal is representable. */
  datatype Meal = Breakfast | Lunch | Snacks | Dinner

  /** The four meals in the order the chart object's keys are created, which is the order
      `Object.values` lists them. */
  const AllMeals: seq<Meal> := [Breakfast, Lunch, Snacks, Dinner]

  /** A diet chart: one food list per meal. */
  datatype DietChart = DietChart(breakfast: seq<FoodItem>, lunch: seq<FoodItem>,
                                 snacks: seq<FoodItem>, dinner: seq<FoodItem>)
  {
    function Items(meal: Meal): seq<FoodItem> {
      match meal
      case Breakfast => breakfast
      case Lunch => lunch
      case Snacks => snacks
      case Dinner => dinner
    }

    /** `{ ...chart, [meal]: items }`: the chart with one meal's list replaced. */
    function With(meal: Meal, items: seq<FoodItem>): (c: DietChart)
      ensures c.Items(meal) == items
      ensures forall m :: m != meal ==> c.Items(m) == Items(m)
    {
      match meal
      case Breakfast => this.(breakfast := items)
      case Lunch => this.(lunch := items)
      case Snacks => this.(snacks := items)
      case Dinner => this.(dinner := items)
    }

    /** `Object.values(chart).flat()`. */
    function AllItems(): (s: seq<FoodItem>)
      ensures |s| == |breakfast| + |lunch| + |snacks| + |dinner|
    {
      breakfast + lunch + snacks + dinner
    }

    predicate IsEmpty() {
      breakfast == [] && lunch == [] && snacks == [] && dinner == []
    }
  }

  const EmptyChart := DietChart([], [], [], [])

  /** A chart has no items at all exactly when each of its four meals is empty. */
  lemma EmptyChartHasNoItems(chart: DietChart)
    ensures chart.AllItems() == [] <==> chart.IsEmpty()
    ensures chart.IsEmpty() <==> chart == EmptyChart
  {
    if chart.AllItems() == [] {
      assert |chart.breakfast| + |chart.lunch| + |chart.snacks| + |chart.dinner| == 0;
    }
  }

  /** `grandTotals`: the totals of all items of the chart, flattened. They are the sum of
      the four per-meal totals. */
  function GrandTotals(chart: DietChart): (t: Totals)
    ensures t == Plus4(CalculateTotals(chart.breakfast), CalculateTotals(chart.lunch),
                       CalculateTotals(chart.snacks), CalculateTotals(chart.dinner))
  {
    TotalsConcat(chart.breakfast + chart.lunch + chart.snacks, chart.dinner);
    TotalsConcat(chart.breakfast + chart.lunch, chart.snacks);
    TotalsConcat(chart.breakfast, chart.lunch);
    CalculateTotals(chart.AllItems())
  }

  /** The totals of one meal's list. */
  function MealTotals(chart: DietChart, meal: Meal): Totals {
    CalculateTotals(chart.Items(meal))
  }

  /** The meals may be flattened in any order: the grand totals do not change. */
  lemma GrandTotalsAnyMealOrder(chart: DietChart, a: Meal, b: Meal, c: Meal, d: Meal)
    requires a != b && a != c && a != d && b != c && b != d && c != d
    ensures CalculateTotals(chart.Items(a) + chart.Items(b) + chart.Items(c) + chart.Items(d))
            == GrandTotals(chart)
  {
    var A, B, C, D := chart.Items(a), chart.Items(b), chart.Items(c), chart.Items(d);
    TotalsConcat(A + B + C, D);
    TotalsConcat(A + B, C);
    TotalsConcat(A, B);
    SumOverDistinctMeals(m => MealTotals(chart, m), a, b, c, d);
  }

  /** Summing a per-meal quantity over four distinct meals gives the same result in
      every order. */
  lemma SumOverDistinctMeals(f: Meal -> Totals, a: Meal, b: Meal, c: Meal, d: Meal)
    requires a != b && a != c && a != d && b != c && b != d && c != d
    ensures Plus4(f(a), f(b), f(c), f(d)) == Plus4(f(Breakfast), f(Lunch), f(Snacks), f(Dinner))
  {
  }

  /** Appending an item to one meal adds exactly that item to the grand totals. */
  lemma GrandTotalsAfterAppend(chart: DietChart, meal: Meal, item: FoodItem)
    ensures GrandTotals(chart.With(meal, chart.Items(meal) + [item]))
            == AddItem(GrandTotals(chart), item)
  {
    var items := chart.Items(meal);
    var after := chart.With(meal, items + [item]);
    TotalsAppend(items, item);
    var b, l, s, d := CalculateTotals(chart.breakfast), CalculateTotals(chart.lunch),
                      CalculateTotals(chart.snacks), CalculateTotals(chart.dinner);
    var added := AddItem(CalculateTotals(items), item);
    assert CalculateTotals(after.Items(meal)) == added;
    // The case split names the updated chart per meal; without it the solver does not
    // finish within its resource budget.
    match meal
    case Breakfast =>
      assert after == chart.(breakfast := items + [item]);
      assert GrandTotals(after) == Plus4(added, l, s, d);
    case Lunch =>
      assert after == chart.(lunch := items + [item]);
      assert GrandTotals(after) == Plus4(b, added, s, d);
    case Snacks =>
      assert after == chart.(snacks := items + [item]);
      assert GrandTotals(after) == Plus4(b, l, added, d);
    case Dinner =>
      assert after == chart.(dinner := items + [item]);
      assert GrandTotals(after) == Plus4(b, l, s, added);
  }
}
