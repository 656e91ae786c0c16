/** The diet-chart editor: the chart being built for one patient, the food search and
    manual-entry fields, and saving the chart to the patient's stored diet charts. */
module ChartCreation {
  import opened JsValues
  import opened Nutrition

  const ApiFailedMessage := "API request failed. Please check your query and API key."
  const NoResultsMessage := "No results found. Try a different query or add manually."
  const ManualErrorMessage := "Please fill in all manual fields with valid numbers."
  const EmptyChartMessage := "Cannot save an empty diet chart."
  const SavedMessage := "Diet chart saved successfully!"
  const SaveFailedMessage := "Failed to save the diet chart."

  /** One entry of the nutrition service's `items` array. `servingSize` is the text the
      template literal renders for `serving_size_g`. */
  datatype ApiItem = ApiItem(servingSize: string, name: string, calories: real,
                             proteinG: real, carbohydratesTotalG: real, fatTotalG: real)

  /** What the nutrition lookup came back with: a response that is not OK, a thrown error
      (network or JSON) with its message, or a decoded body whose `items` may be empty. */
  datatype ApiResponse = NotOk | Thrown(message: string) | Body(items: seq<ApiItem>)

  /** A diet chart as written to the patient's `dietCharts` collection. */
  datatype SavedChart = SavedChart(chart: DietChart, totals: Totals, notes: string) {
    /** What every chart this editor writes satisfies: it is not empty and its stored
        totals are the grand totals of its items. */
    predicate WellFormed() {
      !chart.IsEmpty() && totals == GrandTotals(chart)
    }
  }

  /** The item built from one search result: "<serving size>g <name>", each nutrient
      rounded to the nearest integer. */
  function ToFoodItem(item: ApiItem): (f: FoodItem)
    ensures f.text == item.servingSize + "g " + item.name
    ensures f.calories as real - 0.5 <= item.calories < f.calories as real + 0.5
    ensures f.protein as real - 0.5 <= item.proteinG < f.protein as real + 0.5
    ensures f.carbs as real - 0.5 <= item.carbohydratesTotalG < f.carbs as real + 0.5
    ensures f.fat as real - 0.5 <= item.fatTotalG < f.fat as real + 0.5
  {
    FoodItem(item.servingSize + "g " + item.name, Round(item.calories), Round(item.proteinG),
             Round(item.carbohydratesTotalG), Round(item.fatTotalG))
  }

  /** `data.items.map(...)`: one food item per result, in the order of the results. */
  function ToFoodItems(items: seq<ApiItem>): (fs: seq<FoodItem>)
    ensures |fs| == |items|
    ensures forall i :: 0 <= i < |items| ==> fs[i] == ToFoodItem(items[i])
  {
    if items == [] then [] else [ToFoodItem(items[0])] + ToFoodItems(items[1..])
  }

  /** The item a manual entry makes from the name and the four converted numbers, or None
      when the name is empty or a number is NaN. */
  function ManualItem(name: string, cals: Num, protein: Num, carbs: Num, fat: Num)
    : (r: Option<FoodItem>)
    ensures r.None? <==> name == "" || cals.NaN? || protein.NaN? || carbs.NaN? || fat.NaN?
    ensures r.Some? ==> r.value.text == name
    ensures r.Some? ==> cals == Val(cals.value)
                        && r.value.calories as real - 0.5 <= cals.value < r.value.calories as real + 0.5
    ensures r.Some? ==> protein == Val(protein.value)
                        && r.value.protein as real - 0.5 <= protein.value < r.value.protein as real + 0.5
    ensures r.Some? ==> carbs == Val(carbs.value)
                        && r.value.carbs as real - 0.5 <= carbs.value < r.value.carbs as real + 0.5
    ensures r.Some? ==> fat == Val(fat.value)
                        && r.value.fat as real - 0.5 <= fat.value < r.value.fat as real + 0.5
  {
    if name == "" || cals.NaN? || protein.NaN? || carbs.NaN? || fat.NaN? then None
    else Some(FoodItem(name, Round(cals.value), Round(protein.value),
                       Round(carbs.value), Round(fat.value)))
  }

  /** Empty numeric fields are not rejected: they convert to 0, so a named entry with all
      four numbers left blank adds an item with zero nutrients. */
  lemma BlankNumbersAddZeroItem(name: string, toNumber: string -> Num)
    requires EmptyParsesToZero(toNumber) && name != ""
    ensures ManualItem(name, toNumber(""), toNumber(""), toNumber(""), toNumber(""))
            == Some(FoodItem(name, 0, 0, 0, 0))
  {
    assert Round(0.0) == 0;
  }

  class DietChartCreator {
    /** `Number(s)` on the text of an input field. */
    const toNumber: string -> Num

    var query: string
    var loading: bool
    var apiError: string
    var searchResults: seq<FoodItem>
    var manualFoodName: string
    var manualCals: string
    var manualProtein: string
    var manualCarbs: string
    var manualFat: string
    var manualError: string
    var dietChart: DietChart
    var saveSuccess: string
    var saveError: string
    var notes: string
    /** The diet charts this editor has written for its patient, oldest first. */
    var savedCharts: seq<SavedChart>

    ghost predicate Valid()
      reads this
    {
      && EmptyParsesToZero(toNumber)
      && forall i :: 0 <= i < |savedCharts| ==> savedCharts[i].WellFormed()
    }

    constructor (toNumber: string -> Num)
      requires EmptyParsesToZero(toNumber)
      ensures Valid() && this.toNumber == toNumber
      ensures query == "" && !loading && apiError == "" && searchResults == []
      ensures manualFoodName == manualCals == manualProtein == manualCarbs == manualFat == ""
      ensures manualError == "" && dietChart == EmptyChart
      ensures saveSuccess == saveError == notes == "" && savedCharts == []
    {
      this.toNumber := toNumber;
      query, loading, apiError, searchResults := "", false, "", [];
      manualFoodName, manualCals, manualProtein, manualCarbs, manualFat := "", "", "", "", "";
      manualError, dietChart := "", EmptyChart;
      saveSuccess, saveError, notes, savedCharts := "", "", "", [];
    }

    /** `addFoodToMeal`: appends the item to one meal and clears the search; its effect on
        the grand totals is `GrandTotalsAfterAppend`. */
    method AddFoodToMeal(meal: Meal, item: FoodItem)
      modifies this`dietChart, this`searchResults, this`query
      ensures dietChart.Items(meal) == old(dietChart.Items(meal)) + [item]
      ensures forall m :: m != meal ==> dietChart.Items(m) == old(dietChart.Items(m))
      ensures searchResults == [] && query == ""
    {
      dietChart := dietChart.With(meal, dietChart.Items(meal) + [item]);
      searchResults := [];
      query := "";
    }

    /** `handleApiSearch`, given what the lookup for the current query returned. An empty
        query does nothing. */
    method ApiSearch(response: ApiResponse)
      modifies this`loading, this`apiError, this`searchResults
      ensures query == "" ==> loading == old(loading) && apiError == old(apiError)
                              && searchResults == old(searchResults)
      ensures query != "" ==> !loading
      ensures query != "" && response.NotOk? ==> apiError == ApiFailedMessage && searchResults == []
      ensures query != "" && response.Thrown? ==> apiError == response.message && searchResults == []
      ensures query != "" && response.Body? && response.items == [] ==>
                apiError == NoResultsMessage && searchResults == []
      ensures query != "" && response.Body? && response.items != [] ==>
                apiError == "" && searchResults == ToFoodItems(response.items)
    {
      if query == "" {
        return;
      }
      loading := true;
      apiError := "";
      searchResults := [];
      match response {
        case NotOk =>
          apiError := ApiFailedMessage;
        case Thrown(message) =>
          apiError := message;
        case Body(items) =>
          if |items| > 0 {
            searchResults := ToFoodItems(items);
          } else {
            apiError := NoResultsMessage;
          }
      }
      loading := false;
    }

    /** The item the manual-entry inputs describe, or None when they are incomplete. */
    function PendingManualItem(): Option<FoodItem>
      reads this`manualFoodName, this`manualCals, this`manualProtein
      reads this`manualCarbs, this`manualFat
    {
      ManualItem(manualFoodName, toNumber(manualCals), toNumber(manualProtein),
                 toNumber(manualCarbs), toNumber(manualFat))
    }

    /** `handleManualAdd`: converts the four number fields; with an empty name or a NaN
        number it only reports the error, otherwise it adds the rounded item to the meal
        and clears the five manual fields. */
    method HandleManualAdd(meal: Meal)
      modifies this`manualError, this`manualFoodName, this`manualCals, this`manualProtein
      modifies this`manualCarbs, this`manualFat, this`dietChart, this`searchResults, this`query
      ensures old(PendingManualItem()).None? ==>
        && manualError == ManualErrorMessage
        && dietChart == old(dietChart)
        && manualFoodName == old(manualFoodName) && manualCals == old(manualCals)
        && manualProtein == old(manualProtein) && manualCarbs == old(manualCarbs)
        && manualFat == old(manualFat)
        && searchResults == old(searchResults) && query == old(query)
      ensures old(PendingManualItem()).Some? ==>
        && manualError == ""
        && dietChart.Items(meal) == old(dietChart.Items(meal)) + [old(PendingManualItem()).value]
        && (forall m :: m != meal ==> dietChart.Items(m) == old(dietChart.Items(m)))
        && manualFoodName == manualCals == manualProtein == manualCarbs == manualFat == ""
        && searchResults == [] && query == ""
    {
      manualError := "";
      var r := PendingManualItem();
      if r.None? {
        manualError := ManualErrorMessage;
        return;
      }
      AddFoodToMeal(meal, r.value);
      ClearManualFields();
    }

    /** Empties the five manual-entry inputs after a successful manual add. */
    method ClearManualFields()
      modifies this`manualFoodName, this`manualCals, this`manualProtein
      modifies this`manualCarbs, this`manualFat
      ensures manualFoodName == manualCals == manualProtein == manualCarbs == manualFat == ""
    {
      manualFoodName := "";
      manualCals := "";
      manualProtein := "";
      manualCarbs := "";
      manualFat := "";
    }

    /** `handleSaveChart`, given whether the write to the store succeeds. An empty chart is
        refused without a write; a successful write resets the chart and the notes; a failed
        one keeps them. Every chart written is well formed. */
    method HandleSaveChart(writeOk: bool)
      requires Valid()
      modifies this`saveError, this`saveSuccess, this`dietChart, this`notes, this`savedCharts
      ensures Valid()
      ensures old(dietChart.IsEmpty()) ==>
                && saveError == EmptyChartMessage && saveSuccess == ""
                && dietChart == old(dietChart) && notes == old(notes)
                && savedCharts == old(savedCharts)
      ensures !old(dietChart.IsEmpty()) && writeOk ==>
                && savedCharts == old(savedCharts)
                     + [SavedChart(old(dietChart), GrandTotals(old(dietChart)), old(notes))]
                && saveSuccess == SavedMessage && saveError == ""
                && dietChart == EmptyChart && notes == ""
      ensures !old(dietChart.IsEmpty()) && !writeOk ==>
                && saveError == SaveFailedMessage && saveSuccess == ""
                && dietChart == old(dietChart) && notes == old(notes)
                && savedCharts == old(savedCharts)
    {
      saveError := "";
      saveSuccess := "";
      EmptyChartHasNoItems(dietChart);
      if |dietChart.AllItems()| == 0 {
        saveError := EmptyChartMessage;
        return;
      }
      if writeOk {
        savedCharts := savedCharts + [SavedChart(dietChart, GrandTotals(dietChart), notes)];
        saveSuccess := SavedMessage;
        dietChart := EmptyChart;
        notes := "";
      } else {
        saveError := SaveFailedMessage;
      }
    }
  }
}
