# Nutritionist dashboard: diet charts, patient intake and progress

This project models the parts of the nutritionist dashboard that have logic of their own. The rest of the dashboard is screens and calls to a document store, a nutrition lookup service and a PDF exporter.

- **Diet-chart editor** (`ChartCreation`, over `Nutrition`):
  - The chart being built holds four food lists: breakfast, lunch, snacks and dinner.
  - Items come from a search result or from the manual-entry form, which rounds the numbers it is given.
  - The nutrient totals are a left fold over a list of items. The grand totals fold over all four lists, flattened.
  - Saving refuses an empty chart. A save that succeeds writes the chart with its totals and notes, then resets the chart.
- **Printable chart** (`ChartDocument`):
  - A pure projection of the chart and the practitioner's letterhead settings into a document: a letterhead, one table per non-empty meal in the fixed order breakfast, lunch, snacks, dinner, and the grand totals.
  - Each table has one row per item and a subtotal row.
  - Each letterhead field falls back to a placeholder when it is missing or empty.
- **Patient intake** (`PatientIntake`):
  - The body-mass index, with a zero-height guard.
  - The gender dispatch of the U.S. Navy body-fat estimate. `log10` is a parameter.
  - The required-field rule: hips are required only for `"Female"`.
  - Construction of the stored record: chest and hips default to 0. BMI and body fat are computed from the stored values.
  - The form reset after a successful write.
- **Progress tracking** (`Progress`):
  - A new measurement needs a date and a weight.
  - Circumferences that convert to 0 or NaN are stored as null.
  - After a write the fields are cleared and the date is kept.
  - The weight chart's two series have one point per measurement, in order. The chart is drawn from two measurements on.

`JsValues` holds the JavaScript semantics these rely on:

- `Number(s)` gives NaN or a value, and the empty string converts to 0.
- `Math.round` rounds halves up.
- `x || fallback` treats NaN, 0 and `""` as falsy.

Each component's `Number` is a constant function `toNumber` of its class. Its only assumed law is `toNumber("") == Val(0.0)`.

Two behaviours of the code are modelled as written:

- The manual-entry form accepts empty number fields as 0, although its error message asks for every field. `ChartCreation.BlankNumbersAddZeroItem` proves this.
- The progress form has no handler for a failed write, so a failed write leaves its fields as they were.

Food quantities are never checked to be non-negative (manual entry accepts negative numbers), so the model allows any integer.

Effects on the outside world become state. Each component keeps, as a sequence field, the records it has written:

- `savedCharts` in the chart editor;
- `patients` in the intake form;
- `written` in the progress view.

Whether a write succeeds is a `writeOk` parameter of the handler. The lookup service's answer is an `ApiResponse` parameter.

## Model

| member | source | states |
|---|---|---|
| JsValues.Round | components/DietChartCreator.tsx:110-113 | `Math.round`: the result is the integer within half a unit of the input, halves going up |
| JsValues.OrNull | components/PatientProgress.tsx:66-69 | `Number(x) \|\| null` is null exactly for NaN and 0, and the number itself otherwise |
| JsValues.OrZero | components/AddPatientForm.tsx:66-68 | `Number(x) \|\| 0` keeps every number and turns NaN into 0 |
| JsValues.StringOr | components/DietChartPDF.tsx:93-97 | `s \|\| fallback` gives a present non-empty string, and otherwise the fallback, so it is never empty unless the fallback is |
| Nutrition.CalculateTotals | components/DietChartCreator.tsx:123-130 | the totals of the empty list are all zero |
| Nutrition.TotalsAppend | components/DietChartCreator.tsx:124-129 | appending an item adds exactly its four nutrients to the totals |
| Nutrition.TotalsConcat | components/DietChartCreator.tsx:132-135 | the totals of two concatenated lists are the field-wise sum of their totals |
| Nutrition.TotalsWithout | components/DietChartCreator.tsx:123-130 | taking one item out of any position of a list takes exactly that item out of the totals |
| Nutrition.TotalsPermutation | components/DietChartCreator.tsx:123-130 | lists that are permutations of each other have equal totals |
| Nutrition.TotalsMatchSumFromRight | components/DietChartCreator.tsx:123-130 | the left fold agrees with an independent right-to-left sum on every list |
| Nutrition.DietChart.With | components/DietChartCreator.tsx:54-57 | replacing one meal's list sets that meal and leaves the other three as they were |
| Nutrition.DietChart.AllItems | components/DietChartCreator.tsx:133 | the flattened chart has as many items as the four lists together |
| Nutrition.EmptyChartHasNoItems | components/DietChartCreator.tsx:141 | the flattened chart is empty exactly when all four lists are empty, that is when the chart is the initial chart |
| Nutrition.GrandTotals | components/DietChartCreator.tsx:132-135 | the totals of the flattened chart are the sum of the four per-meal totals |
| Nutrition.GrandTotalsAnyMealOrder | components/DietChartCreator.tsx:133 | flattening the four meals in any order gives the same grand totals, so the key order of the chart object does not matter |
| Nutrition.GrandTotalsAfterAppend | components/DietChartCreator.tsx:53-57 | appending an item to any one meal adds exactly that item to the grand totals |
| ChartCreation.ToFoodItem | components/DietChartCreator.tsx:79-85 | a search result becomes "<serving size>g <name>" with each nutrient rounded to within half a unit |
| ChartCreation.ToFoodItems | components/DietChartCreator.tsx:79-86 | one item per search result, item i made from result i |
| ChartCreation.ManualItem | components/DietChartCreator.tsx:99-114 | refused exactly when the name is empty or a number is NaN; otherwise the item carries the name and each number rounded to within half a unit |
| ChartCreation.BlankNumbersAddZeroItem | components/DietChartCreator.tsx:100-104 | a named entry with all four numbers blank is accepted as an item with zero nutrients |
| ChartCreation.DietChartCreator.constructor | components/DietChartCreator.tsx:33-51 | the editor starts with empty inputs, no results, no messages and four empty meal lists |
| ChartCreation.DietChartCreator.AddFoodToMeal | components/DietChartCreator.tsx:53-60 | the item is appended to the end of its meal, the other meals are unchanged, and the search results and query are cleared |
| ChartCreation.DietChartCreator.ApiSearch | components/DietChartCreator.tsx:62-95 | an empty query does nothing; a failed or thrown lookup sets its error and no results; an empty answer sets the no-results error; otherwise the results are the mapped items; loading ends false |
| ChartCreation.DietChartCreator.HandleManualAdd | components/DietChartCreator.tsx:97-121 | an incomplete entry sets the error and changes neither the chart nor the fields; a complete one appends the rounded item to the meal and clears the five fields and the search |
| ChartCreation.DietChartCreator.ClearManualFields | components/DietChartCreator.tsx:116-120 | the five manual-entry fields become empty |
| ChartCreation.DietChartCreator.HandleSaveChart | components/DietChartCreator.tsx:138-160 | an empty chart is refused without a write; a successful write records chart, grand totals and notes and resets chart and notes; a failed write keeps them; every chart written is non-empty and carries its own grand totals |
| ChartDocument.LetterheadOf | components/DietChartPDF.tsx:93-97 | every letterhead field is non-empty: the setting when present and non-empty, otherwise its placeholder; no settings give all three placeholders |
| ChartDocument.BodyRows | components/DietChartPDF.tsx:64-71 | one body row per item, row i showing item i |
| ChartDocument.ColumnSumsOfBody | components/DietChartPDF.tsx:73-79 | the column sums of a table body are the totals of its items |
| ChartDocument.RenderMealTable | components/DietChartPDF.tsx:47-84 | no table exactly for an empty list; otherwise the title, the body rows, and a "Subtotal" row equal to both the body's column sums and the items' totals |
| ChartDocument.TableFor | components/DietChartPDF.tsx:105-108 | a meal with items gets its emoji title, its item rows and a "Subtotal" row holding its own totals |
| ChartDocument.Tables | components/DietChartPDF.tsx:104-109 | the meal tables in the given order, skipping empty meals: at most one per meal and none without item rows |
| ChartDocument.ShownMeals | components/DietChartPDF.tsx:105-108 | the meals that get a table are exactly those with items; when the given meals are in rank order, so are the shown ones |
| ChartDocument.TablesOfShownMeals | components/DietChartPDF.tsx:105-108 | table k is the table of the k-th meal that has items |
| ChartDocument.SubtotalsSumToItems | components/DietChartPDF.tsx:47-49 | the subtotals of the tables add up to the totals of the meals' items |
| ChartDocument.DocumentTables | components/DietChartPDF.tsx:104-109 | the document has one table per non-empty meal, none for an empty meal, in the order breakfast, lunch, snacks, dinner |
| ChartDocument.AllMealsInOrder | components/DietChartPDF.tsx:105-108 | the fixed meal order lists every meal, in ascending rank |
| ChartDocument.DocumentGrandTotals | components/DietChartPDF.tsx:112-134 | the printed grand totals are the totals of all items, and equal the sum of the tables' subtotal rows |
| ChartDocument.Render | components/DietChartPDF.tsx:86-137 | the printed chart: the letterhead is `LetterheadOf(settings)`, each field the setting when present and non-empty and its placeholder otherwise, so no field is blank; the heading is "Diet Chart for: " and the patient's name, there are at most four tables and none is empty, and the grand totals are the totals of every item; `DocumentTables` and `DocumentGrandTotals` state which tables appear, in which order, and how the totals relate to the subtotals |
| ChartDocument.ItemsOfAllMeals | components/DietChartPDF.tsx:44 | the items of the four meals in order are the flattened chart |
| PatientIntake.CalculateBMI | components/AddPatientForm.tsx:10-14 | a height that is not positive gives 0, whatever the weight |
| PatientIntake.BmiTimesSquaredHeight | components/AddPatientForm.tsx:12-13 | for a positive height, the index times the squared height in metres is the weight |
| PatientIntake.CalculateBFP | components/AddPatientForm.tsx:17-31 | any gender other than exactly "Male" or "Female" gives 0 |
| PatientIntake.BfpConstantTerms | components/AddPatientForm.tsx:21-30 | the two formulas are distinct: with a `log10` that is 0 everywhere, "Male" gives 36.76, "Female" gives -78.387, and "male" (the comparison is case-sensitive) gives 0 |
| PatientIntake.MaleBfpLogCoefficient | components/AddPatientForm.tsx:24 | the male result moves by exactly 86.010 times any change of `log10` at waist minus neck, the height term held fixed |
| PatientIntake.FemaleBfpLogCoefficient | components/AddPatientForm.tsx:28 | the female result moves by exactly 163.205 times any change of `log10` at waist plus hips minus neck, the height term held fixed |
| PatientIntake.MaleBfpIgnoresHips | components/AddPatientForm.tsx:24 | the male formula gives the same result for every hip measurement |
| PatientIntake.FemaleBfpUsesWaistPlusHips | components/AddPatientForm.tsx:28 | the female formula depends on waist and hips only through their sum |
| PatientIntake.BmiOf | components/AddPatientForm.tsx:73 | on converted values: a non-positive height gives 0; the result is NaN exactly for a NaN height or a NaN weight with positive height; otherwise it is the index |
| PatientIntake.BfpOf | components/AddPatientForm.tsx:74 | on converted values: an unrecognised gender gives 0; for "Male" and "Female" a NaN height, neck or waist gives NaN and otherwise the result is the formula's value; the NaN or ±Infinity that `Math.log10` gives for a negative or zero argument is not modelled (see Left out) |
| PatientIntake.MissingRequired | components/AddPatientForm.tsx:54-55 | for a gender other than "Female" the form is refused exactly when one of name, gender, age, weight, height, neck or waist is empty; for "Female" hips are required as well |
| PatientIntake.HipsRequiredOnlyForFemale | components/AddPatientForm.tsx:54-55 | with the seven always-required fields filled in, the form is refused exactly for a "Female" patient without hips |
| PatientIntake.BuildRecord | components/AddPatientForm.tsx:60-74 | name, gender, notes and the converted numbers are stored; chest and hips become 0 when NaN; BMI and body fat are those of the stored values |
| PatientIntake.EmptyChestAndHipsStoredAsZero | components/AddPatientForm.tsx:66-68 | chest and hips left empty are stored as 0 |
| PatientIntake.MaleRecordIgnoresHips | components/AddPatientForm.tsx:74 | a male patient's stored body fat does not depend on what was typed for hips |
| PatientIntake.AppendAdmissible | components/AddPatientForm.tsx:76-82 | adding an admissible record keeps every stored record admissible |
| PatientIntake.AddPatientForm.constructor | components/AddPatientForm.tsx:35-47 | the form starts with eleven empty fields, no messages and no records |
| PatientIntake.AddPatientForm.ResetForm | components/AddPatientForm.tsx:85-87 | all eleven fields become empty |
| PatientIntake.AddPatientForm.HandleAddPatient | components/AddPatientForm.tsx:49-93 | a missing required field sets the error, with no write and the fields kept; a successful write stores the built record, sets the success message and blanks all eleven fields; a failed write sets the error and keeps the fields; every stored record stays admissible |
| Progress.NewMeasurement | components/PatientProgress.tsx:63-71 | the measurement keeps date and converted weight; each circumference is null exactly when it converts to NaN or 0; no zero circumference is stored |
| Progress.EmptyCircumferencesStoredAsNull | components/PatientProgress.tsx:66-69 | circumferences left empty are stored as null |
| Progress.Labels | components/PatientProgress.tsx:83 | one label per measurement, label i being the date of measurement i |
| Progress.Weights | components/PatientProgress.tsx:87 | one data point per measurement, point i being the weight of measurement i |
| Progress.ChartDataOf | components/PatientProgress.tsx:81-93 | the two series have the length of the measurement list and point i of both comes from measurement i |
| Progress.ChartDataAppend | components/PatientProgress.tsx:81-93 | a measurement added at the end adds one point at the end of both series and keeps the earlier points |
| Progress.ShowChart | components/PatientProgress.tsx:99 | the chart is drawn exactly when it has at least two points |
| Progress.PatientProgress.constructor | components/PatientProgress.tsx:31-39 | the view starts with no measurements, the given date and every other field empty |
| Progress.PatientProgress.ApplySnapshot | components/PatientProgress.tsx:45-51 | the view shows the snapshot it is given |
| Progress.PatientProgress.HandleAddMeasurement | components/PatientProgress.tsx:55-78 | no date or no weight means no write and no change; a successful write records the new measurement and clears weight and circumferences while the date is kept; a failed write changes nothing; every written measurement has a date and no zero circumference |

## Left out

- Store I/O:
  - Writes are appends to a sequence field, and reads are the snapshot given to `ApplySnapshot`.
  - Server timestamps (`createdAt`), document ids given by the store, and the ordering by date the store applies to the measurement snapshot are not modelled.
- Network lookup:
  - The HTTP request, the API key, the status check and JSON decoding are outside the model. Their outcome is the `ApiResponse` parameter.
  - A body without `items` is taken as an empty `items` list.
  - The text a template literal produces for `serving_size_g` is taken as given (`ApiItem.servingSize`).
- PDF export through html2pdf, including the file name derived from the patient's name: it is a foreign library working on the page.
- Authentication, routing, the patient list, the settings page, JSX markup, styling and Chart.js registration: framework and service wiring with no local logic.
- The notes text is not part of the printed document, because the document component does not accept it.
- Concurrency:
  - Handlers are atomic steps.
  - Interleavings across `await`, double submission, and the `loading` flag observed mid-request are not modelled.
- Numbers:
  - JavaScript numbers are modelled as mathematical reals, with no rounding error, overflow, infinities or negative zero.
  - `Number(s)` is abstract apart from the empty string.
- PatientIntake.CalculateBFP: `Math.log10` is an uninterpreted function, so the numeric value of the body-fat formula is not modelled. `Math.log10` gives NaN for a negative argument and -Infinity for zero, so the body fat can be NaN or ±Infinity (waist equal to neck for "Male", or a height of 0); the model returns an ordinary number there. What is stated: other genders give 0, each of "Male" and "Female" has its own constant term (`BfpConstantTerms`), the coefficient of the waist term in each formula (`MaleBfpLogCoefficient`, `FemaleBfpLogCoefficient`), and which measurements each formula reads. The coefficient of the height term is not stated by any lemma.
- PatientIntake.BfpOf: `Math.log10` gives NaN for a negative argument and -Infinity for zero, so the body fat can be NaN or ±Infinity even when height, neck and waist are numbers; because `log10` is uninterpreted, the model does not capture this, and its result is NaN only for a NaN height, neck or waist.
- Nutrition.CalculateTotals: the fold is defined once, although the chart editor and the printable chart each define their own copy with the same body.
- `console.error(err)` in the two failure branches (components/DietChartCreator.tsx:157, components/AddPatientForm.tsx:90): logging to the console is an effect the model does not record.
- Input setters (`onChange` handlers) are plain field assignments and have no methods of their own.
- Progress.PatientProgress.HandleAddMeasurement: a failed write is modelled as the handler stopping before it clears anything, and no error state is recorded, because the code has no handler for the rejection.
