/** The printable diet chart, as data: a letterhead, one table per non-empty meal with a
    subtotal row, and the grand totals. Markup and styling are not modelled. */
module ChartDocument {
  import opened JsValues
  import opened Nutrition

  /** The practitioner's letterhead record; it may be missing altogether, and each field
      may be missing. */
  datatype LetterheadSettings = LetterheadSettings(nutritionistName: Option<string>,
                                                   email: Option<string>,
                                                   phone: Option<string>)

  datatype Field = NameField | EmailField | PhoneField

  /** The letterhead as printed. */
  datatype Letterhead = Letterhead(name: string, email: string, phone: string) {
    function Shown(f: Field): string {
      match f
      case NameField => name
      case EmailField => email
      case PhoneField => phone
    }
  }

  /** One table row: a text cell and the four nutrient columns. */
  datatype Row = Row(text: string, calories: int, protein: int, carbs: int, fat: int)

  datatype MealTable = MealTable(title: string, body: seq<Row>, subtotal: Row)

  datatype Document = Document(letterhead: Letterhead, heading: string,
                               tables: seq<MealTable>, grandTotals: Totals)

  function Placeholder(f: Field): string {
    match f
    case NameField => "Your Nutritionist Name"
    case EmailField => "your.email@example.com"
    case PhoneField => "(123) 456-7890"
  }

  /** `letterheadSettings?.<field>`: undefined when there are no settings. */
  function Lookup(settings: Option<LetterheadSettings>, f: Field): Option<string> {
    if settings.None? then None
    else match f
      case NameField => settings.value.nutritionistName
      case EmailField => settings.value.email
      case PhoneField => settings.value.phone
  }

  /** The letterhead: each field shows the setting when it is present and non-empty, and
      its placeholder otherwise, so no field is ever blank. */
  function LetterheadOf(settings: Option<LetterheadSettings>): (h: Letterhead)
    ensures forall f :: h.Shown(f) != ""
    ensures forall f :: h.Shown(f) == Placeholder(f) || Lookup(settings, f) == Some(h.Shown(f))
    ensures forall f :: Lookup(settings, f).Some? && Lookup(settings, f).value != "" ==>
                          h.Shown(f) == Lookup(settings, f).value
    ensures settings.None? ==>
              h == Letterhead(Placeholder(NameField), Placeholder(EmailField), Placeholder(PhoneField))
  {
    var h := Letterhead(StringOr(Lookup(settings, NameField), Placeholder(NameField)),
                        StringOr(Lookup(settings, EmailField), Placeholder(EmailField)),
                        StringOr(Lookup(settings, PhoneField), Placeholder(PhoneField)));
    assert forall f :: h.Shown(f) == StringOr(Lookup(settings, f), Placeholder(f));
    h
  }

  function MealTitle(meal: Meal): string {
    match meal
    case Breakfast => "\U{1F373} Breakfast"
    case Lunch => "\U{1F957} Lunch"
    case Snacks => "\U{1F34E} Snacks"
    case Dinner => "\U{1F372} Dinner"
  }

  function ItemRow(item: FoodItem): Row {
    Row(item.text, item.calories, item.protein, item.carbs, item.fat)
  }

  function SubtotalRow(t: Totals): Row {
    Row("Subtotal", t.calories, t.protein, t.carbs, t.fat)
  }

  function RowTotals(r: Row): Totals {
    Totals(r.calories, r.protein, r.carbs, r.fat)
  }

  /** `items.map(...)` in the table body: one row per item, in list order. */
  function BodyRows(items: seq<FoodItem>): (rows: seq<Row>)
    ensures |rows| == |items|
    ensures forall i :: 0 <= i < |items| ==> rows[i] == ItemRow(items[i])
  {
    if items == [] then [] else [ItemRow(items[0])] + BodyRows(items[1..])
  }

  /** The column sums of a list of rows, as a reader of the table would add them up. */
  function ColumnSums(rows: seq<Row>): Totals {
    if rows == [] then Zero else Plus(RowTotals(rows[0]), ColumnSums(rows[1..]))
  }

  lemma {:induction false} ColumnSumsOfBody(items: seq<FoodItem>)
    ensures ColumnSums(BodyRows(items)) == CalculateTotals(items)
  {
    if items == [] {
    } else {
      ColumnSumsOfBody(items[1..]);
      assert BodyRows(items)[1..] == BodyRows(items[1..]);
      TotalsMatchSumFromRight(items);
      TotalsMatchSumFromRight(items[1..]);
    }
  }

  /** `renderMealTable`: nothing for an empty meal; otherwise the title, one body row per
      item in order, and a subtotal row holding the column sums of the body, which are the
      meal's totals. */
  function RenderMealTable(title: string, items: seq<FoodItem>): (r: Option<MealTable>)
    ensures r.None? <==> items == []
    ensures r.Some? ==> r.value.title == title && r.value.body == BodyRows(items)
    ensures r.Some? ==> r.value.subtotal.text == "Subtotal"
    ensures r.Some? ==> RowTotals(r.value.subtotal) == ColumnSums(r.value.body)
                        && RowTotals(r.value.subtotal) == CalculateTotals(items)
  {
    if |items| == 0 then None
    else
      ColumnSumsOfBody(items);
      Some(MealTable(title, BodyRows(items), SubtotalRow(CalculateTotals(items))))
  }

  /** The table printed for a meal that has items. */
  function TableFor(chart: DietChart, meal: Meal): (t: MealTable)
    requires chart.Items(meal) != []
    ensures t.title == MealTitle(meal) && t.body == BodyRows(chart.Items(meal))
    ensures t.subtotal.text == "Subtotal"
    ensures RowTotals(t.subtotal) == CalculateTotals(chart.Items(meal))
  {
    RenderMealTable(MealTitle(meal), chart.Items(meal)).value
  }

  /** The tables of the given meals, in the given order, skipping empty meals: at most one
      table per meal, and no table without item rows. */
  function Tables(chart: DietChart, meals: seq<Meal>): (ts: seq<MealTable>)
    ensures |ts| <= |meals|
    ensures forall k :: 0 <= k < |ts| ==> ts[k].body != []
  {
    if meals == [] then []
    else if chart.Items(meals[0]) == [] then Tables(chart, meals[1..])
    else [TableFor(chart, meals[0])] + Tables(chart, meals[1..])
  }

  function Rank(meal: Meal): nat {
    match meal
    case Breakfast => 0
    case Lunch => 1
    case Snacks => 2
    case Dinner => 3
  }

  ghost predicate InMealOrder(meals: seq<Meal>) {
    forall i, j :: 0 <= i < j < |meals| ==> Rank(meals[i]) < Rank(meals[j])
  }

  /** The meals, among the given ones, that have items; the order is kept. */
  function ShownMeals(chart: DietChart, meals: seq<Meal>): (shown: seq<Meal>)
    ensures forall m :: m in shown <==> m in meals && chart.Items(m) != []
    ensures forall m :: m in shown ==> chart.Items(m) != []
    ensures InMealOrder(meals) ==> InMealOrder(shown)
  {
    if meals == [] then []
    else if chart.Items(meals[0]) == [] then ShownMeals(chart, meals[1..])
    else
      var rest := ShownMeals(chart, meals[1..]);
      assert InMealOrder(meals) ==> forall m :: m in rest ==> Rank(meals[0]) < Rank(m);
      [meals[0]] + rest
  }

  /** Table k of the document is the table of the k-th meal that has items. */
  lemma {:induction false} TablesOfShownMeals(chart: DietChart, meals: seq<Meal>)
    ensures |Tables(chart, meals)| == |ShownMeals(chart, meals)|
    ensures forall k :: 0 <= k < |Tables(chart, meals)| ==>
              Tables(chart, meals)[k] == TableFor(chart, ShownMeals(chart, meals)[k])
  {
    if meals != [] {
      TablesOfShownMeals(chart, meals[1..]);
      if chart.Items(meals[0]) != [] {
        var tables, shown := Tables(chart, meals[1..]), ShownMeals(chart, meals[1..]);
        assert Tables(chart, meals) == [TableFor(chart, meals[0])] + tables;
        assert ShownMeals(chart, meals) == [meals[0]] + shown;
      }
    }
  }

  /** The items of the given meals, concatenated in order. */
  function ItemsOf(chart: DietChart, meals: seq<Meal>): seq<FoodItem> {
    if meals == [] then [] else chart.Items(meals[0]) + ItemsOf(chart, meals[1..])
  }

  /** The sum of the subtotal rows of a list of tables. */
  function SubtotalSum(tables: seq<MealTable>): Totals {
    if tables == [] then Zero else Plus(RowTotals(tables[0].subtotal), SubtotalSum(tables[1..]))
  }

  lemma {:induction false} SubtotalsSumToItems(chart: DietChart, meals: seq<Meal>)
    ensures SubtotalSum(Tables(chart, meals)) == CalculateTotals(ItemsOf(chart, meals))
  {
    if meals != [] {
      var first, rest := chart.Items(meals[0]), ItemsOf(chart, meals[1..]);
      SubtotalsSumToItems(chart, meals[1..]);
      TotalsConcat(first, rest);
      if first != [] {
        var tables := Tables(chart, meals[1..]);
        assert ([TableFor(chart, meals[0])] + tables)[1..] == tables;
        assert SubtotalSum(Tables(chart, meals))
            == Plus(CalculateTotals(first), SubtotalSum(tables));
      } else {
        assert first + rest == rest;
      }
    }
  }

  /** The whole printable chart for a patient: the letterhead of the settings, so no blank
      field, the heading naming the patient, at most four tables, none of them empty, and the
      totals of every item of the chart. `DocumentTables` and `DocumentGrandTotals`
      characterise the tables and the grand totals fully. */
  function Render(patientName: string, chart: DietChart, settings: Option<LetterheadSettings>)
    : (doc: Document)
    ensures doc.letterhead == LetterheadOf(settings)
    ensures forall f :: doc.letterhead.Shown(f) != ""
    ensures doc.heading == "Diet Chart for: " + patientName
    ensures |doc.tables| <= 4 && forall k :: 0 <= k < |doc.tables| ==> doc.tables[k].body != []
    ensures doc.grandTotals == CalculateTotals(chart.AllItems())
  {
    Document(LetterheadOf(settings), "Diet Chart for: " + patientName,
             Tables(chart, AllMeals), GrandTotals(chart))
  }

  /** The document has one table per meal that has items, in the order breakfast, lunch,
      snacks, dinner, and none for an empty meal. */
  lemma DocumentTables(patientName: string, chart: DietChart, settings: Option<LetterheadSettings>)
    ensures var doc := Render(patientName, chart, settings);
            var shown := ShownMeals(chart, AllMeals);
            && |doc.tables| == |shown|
            && InMealOrder(shown)
            && (forall m :: m in shown <==> chart.Items(m) != [])
            && (forall k :: 0 <= k < |shown| ==> doc.tables[k] == TableFor(chart, shown[k]))
  {
    TablesOfShownMeals(chart, AllMeals);
    AllMealsInOrder();
  }

  lemma AllMealsInOrder()
    ensures InMealOrder(AllMeals)
    ensures forall m :: m in AllMeals
  {
    assert forall i :: 0 <= i < |AllMeals| ==> Rank(AllMeals[i]) == i;
    forall m ensures m in AllMeals {
      assert AllMeals[Rank(m)] == m;
    }
  }

  /** The grand totals printed under the tables are the totals of all items of the chart,
      and also the sum of the tables' subtotal rows. */
  lemma DocumentGrandTotals(patientName: string, chart: DietChart, settings: Option<LetterheadSettings>)
    ensures var doc := Render(patientName, chart, settings);
            && doc.grandTotals == CalculateTotals(chart.AllItems())
            && doc.grandTotals == SubtotalSum(doc.tables)
  {
    SubtotalsSumToItems(chart, AllMeals);
    ItemsOfAllMeals(chart);
  }

  lemma ItemsOfAllMeals(chart: DietChart)
    ensures ItemsOf(chart, AllMeals) == chart.AllItems()
  {
    assert ItemsOf(chart, [Dinner]) == chart.dinner;
    assert ItemsOf(chart, [Snacks, Dinner]) == chart.snacks + chart.dinner;
    assert ItemsOf(chart, [Lunch, Snacks, Dinner]) == chart.lunch + chart.snacks + chart.dinner;
  }
}
