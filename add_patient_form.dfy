/** Patient intake: body-mass index, the gender dispatch of the body-fat estimate, and
    the intake form that validates its fields and stores a new patient record. */
module PatientIntake {
  import opened JsValues

  const RequiredFieldsMessage :=
    "Please fill in all required fields. Hips are required for female body fat calculation."
  const AddedMessage := "Patient added successfully!"
  const AddFailedMessage := "Failed to add patient. Please try again."

  /** `calculateBMI`: weight in kilograms over the square of height in metres, and 0 for a
      height that is not positive. */
  function CalculateBMI(weightKg: real, heightCm: real): (bmi: real)
    ensures heightCm <= 0.0 ==> bmi == 0.0
  {
    if heightCm <= 0.0 then 0.0
    else
      var heightM := heightCm / 100.0;
      weightKg / (heightM * heightM)
  }

  /** For a positive height the index is the weight per square metre: multiplied by the
      squared height in metres it gives the weight back. */
  lemma BmiTimesSquaredHeight(weightKg: real, heightCm: real)
    requires heightCm > 0.0
    ensures CalculateBMI(weightKg, heightCm) * ((heightCm / 100.0) * (heightCm / 100.0)) == weightKg
  {
    DivideBySquare(weightKg, heightCm / 100.0);
  }

  lemma DivideBySquare(x: real, y: real)
    requires y > 0.0
    ensures y * y > 0.0 && (x / (y * y)) * (y * y) == x
  {
    assert y * y > 0.0;
  }

  /** `calculateBFP`, the U.S. Navy circumference formula with `log10` given as a function.
      Only the exact strings "Male" and "Female" select a formula; any other gender gives 0. */
  function CalculateBFP(gender: string, heightCm: real, neckIn: real, waistIn: real,
                        hipsIn: real, log10: real -> real): (bfp: real)
    ensures gender != "Male" && gender != "Female" ==> bfp == 0.0
  {
    var heightIn := heightCm / 2.54;
    if gender == "Male" then
      86.010 * log10(waistIn - neckIn) - 70.041 * log10(heightIn) + 36.76
    else if gender == "Female" then
      163.205 * log10(waistIn + hipsIn - neckIn) - 97.684 * log10(heightIn) - 78.387
    else 0.0
  }

  /** The dispatch selects distinct formulas: with a `log10` that is 0 everywhere, only the
      constant terms remain, 36.76 for "Male" and -78.387 for "Female", while any other
      spelling, such as "male", gives 0. */
  lemma BfpConstantTerms(heightCm: real, neckIn: real, waistIn: real, hipsIn: real)
    ensures CalculateBFP("Male", heightCm, neckIn, waistIn, hipsIn, x => 0.0) == 36.76
    ensures CalculateBFP("Female", heightCm, neckIn, waistIn, hipsIn, x => 0.0) == -78.387
    ensures CalculateBFP("male", heightCm, neckIn, waistIn, hipsIn, x => 0.0) == 0.0
  {
  }

  /** The male formula weighs `log10(waist - neck)` by 86.010: two logarithms that agree on
      the height in inches give results that differ by exactly 86.010 times their difference
      at `waist - neck`. */
  lemma MaleBfpLogCoefficient(heightCm: real, neckIn: real, waistIn: real, hipsIn: real,
                              log1: real -> real, log2: real -> real)
    requires log1(heightCm / 2.54) == log2(heightCm / 2.54)
    ensures CalculateBFP("Male", heightCm, neckIn, waistIn, hipsIn, log2)
            - CalculateBFP("Male", heightCm, neckIn, waistIn, hipsIn, log1)
            == 86.010 * (log2(waistIn - neckIn) - log1(waistIn - neckIn))
  {
  }

  /** The female formula weighs `log10(waist + hips - neck)` by 163.205, in the same sense. */
  lemma FemaleBfpLogCoefficient(heightCm: real, neckIn: real, waistIn: real, hipsIn: real,
                                log1: real -> real, log2: real -> real)
    requires log1(heightCm / 2.54) == log2(heightCm / 2.54)
    ensures CalculateBFP("Female", heightCm, neckIn, waistIn, hipsIn, log2)
            - CalculateBFP("Female", heightCm, neckIn, waistIn, hipsIn, log1)
            == 163.205 * (log2(waistIn + hipsIn - neckIn) - log1(waistIn + hipsIn - neckIn))
  {
  }

  /** The male formula does not read the hip measurement. */
  lemma MaleBfpIgnoresHips(heightCm: real, neckIn: real, waistIn: real, hips1: real, hips2: real,
                           log10: real -> real)
    ensures CalculateBFP("Male", heightCm, neckIn, waistIn, hips1, log10)
            == CalculateBFP("Male", heightCm, neckIn, waistIn, hips2, log10)
  {
  }

  /** The female formula reads waist and hips only through their sum. */
  lemma FemaleBfpUsesWaistPlusHips(heightCm: real, neckIn: real, waist1: real, hips1: real,
                                   waist2: real, hips2: real, log10: real -> real)
    requires waist1 + hips1 == waist2 + hips2
    ensures CalculateBFP("Female", heightCm, neckIn, waist1, hips1, log10)
            == CalculateBFP("Female", heightCm, neckIn, waist2, hips2, log10)
  {
    assert waist1 + hips1 - neckIn == waist2 + hips2 - neckIn;
  }

  /** `calculateBMI` applied to converted form values: NaN compares false with 0, so a NaN
      height gives NaN, while a non-positive height gives 0 whatever the weight. */
  function BmiOf(weight: Num, height: Num): (r: Num)
    ensures height.Val? && height.value <= 0.0 ==> r == Val(0.0)
    ensures r.NaN? <==> height.NaN? || (height.value > 0.0 && weight.NaN?)
    ensures r.Val? && weight.Val? && height.Val? ==> r.value == CalculateBMI(weight.value, height.value)
  {
    if height.NaN? then NaN
    else if height.value <= 0.0 then Val(0.0)
    else if weight.NaN? then NaN
    else Val(CalculateBMI(weight.value, height.value))
  }

  /** `calculateBFP` applied to converted form values: a NaN among the measurements the
      selected formula reads makes the result NaN; an unrecognised gender gives 0. */
  function BfpOf(gender: string, height: Num, neck: Num, waist: Num, hips: real,
                 log10: real -> real): (r: Num)
    ensures gender != "Male" && gender != "Female" ==> r == Val(0.0)
    ensures (gender == "Male" || gender == "Female") ==>
              (r.NaN? <==> height.NaN? || neck.NaN? || waist.NaN?)
    ensures r.Val? && height.Val? && neck.Val? && waist.Val? ==>
              r.value == CalculateBFP(gender, height.value, neck.value, waist.value, hips, log10)
  {
    if gender != "Male" && gender != "Female" then Val(0.0)
    else if height.NaN? || neck.NaN? || waist.NaN? then NaN
    else Val(CalculateBFP(gender, height.value, neck.value, waist.value, hips, log10))
  }

  /** The eleven text fields of the intake form. */
  datatype PatientInputs = PatientInputs(name: string, gender: string, age: string,
                                         weight: string, height: string, neck: string,
                                         chest: string, waist: string, hips: string,
                                         conditions: string, allergies: string)

  const BlankInputs := PatientInputs("", "", "", "", "", "", "", "", "", "", "")

  /** The form's refusal condition: a required field is empty, hips being required only
      when the gender is exactly "Female". */
  function MissingRequired(inp: PatientInputs): (missing: bool)
    ensures inp.gender != "Female" ==>
              (missing <==> inp.name == "" || inp.gender == "" || inp.age == "" || inp.weight == ""
                            || inp.height == "" || inp.neck == "" || inp.waist == "")
    ensures inp.gender == "Female" ==>
              (missing <==> inp.name == "" || inp.age == "" || inp.weight == "" || inp.height == ""
                            || inp.neck == "" || inp.waist == "" || inp.hips == "")
  {
    || inp.name == "" || inp.gender == "" || inp.age == "" || inp.weight == ""
    || inp.height == "" || inp.neck == "" || inp.waist == ""
    || (inp.gender == "Female" && inp.hips == "")
  }

  /** Once the seven always-required fields are filled in, the form is refused exactly
      for a female patient without a hip measurement. */
  lemma HipsRequiredOnlyForFemale(inp: PatientInputs)
    requires inp.name != "" && inp.gender != "" && inp.age != "" && inp.weight != ""
    requires inp.height != "" && inp.neck != "" && inp.waist != ""
    ensures MissingRequired(inp) <==> inp.gender == "Female" && inp.hips == ""
  {
  }

  /** A patient as written to the `patients` collection. */
  datatype PatientRecord = PatientRecord(name: string, gender: string, age: Num,
                                         initialWeight: Num, height: Num, neck: Num,
                                         chest: real, waist: Num, hips: real,
                                         conditions: string, allergies: string,
                                         bmi: Num, bfp: Num)
  {
    /** The derived metrics are those of the record's own baseline measurements. */
    ghost predicate MetricsConsistent(log10: real -> real) {
      && bmi == BmiOf(initialWeight, height)
      && bfp == BfpOf(gender, height, neck, waist, hips, log10)
    }
  }

  /** The record built from the form: numbers converted, chest and hips defaulting to 0,
      and BMI and body fat computed from the stored values. */
  function BuildRecord(inp: PatientInputs, toNumber: string -> Num, log10: real -> real)
    : (r: PatientRecord)
    ensures r.name == inp.name && r.gender == inp.gender
    ensures r.conditions == inp.conditions && r.allergies == inp.allergies
    ensures r.age == toNumber(inp.age) && r.initialWeight == toNumber(inp.weight)
    ensures r.height == toNumber(inp.height) && r.neck == toNumber(inp.neck)
    ensures r.waist == toNumber(inp.waist)
    ensures toNumber(inp.chest).NaN? ==> r.chest == 0.0
    ensures toNumber(inp.chest).Val? ==> r.chest == toNumber(inp.chest).value
    ensures toNumber(inp.hips).NaN? ==> r.hips == 0.0
    ensures toNumber(inp.hips).Val? ==> r.hips == toNumber(inp.hips).value
    ensures r.MetricsConsistent(log10)
  {
    var weight, height := toNumber(inp.weight), toNumber(inp.height);
    var neck, waist := toNumber(inp.neck), toNumber(inp.waist);
    var hips := OrZero(toNumber(inp.hips));
    PatientRecord(inp.name, inp.gender, toNumber(inp.age), weight, height, neck,
                  OrZero(toNumber(inp.chest)), waist, hips, inp.conditions, inp.allergies,
                  BmiOf(weight, height), BfpOf(inp.gender, height, neck, waist, hips, log10))
  }

  /** Chest and hips left empty are stored as 0. */
  lemma EmptyChestAndHipsStoredAsZero(inp: PatientInputs, toNumber: string -> Num,
                                      log10: real -> real)
    requires EmptyParsesToZero(toNumber) && inp.chest == "" && inp.hips == ""
    ensures BuildRecord(inp, toNumber, log10).chest == 0.0
    ensures BuildRecord(inp, toNumber, log10).hips == 0.0
  {
  }

  /** A male patient's stored body fat does not depend on what was typed for hips. */
  lemma MaleRecordIgnoresHips(inp: PatientInputs, hips: string, toNumber: string -> Num,
                              log10: real -> real)
    requires inp.gender == "Male"
    ensures BuildRecord(inp, toNumber, log10).bfp
            == BuildRecord(inp.(hips := hips), toNumber, log10).bfp
  {
    var r1, r2 := BuildRecord(inp, toNumber, log10), BuildRecord(inp.(hips := hips), toNumber, log10);
    if r1.height.Val? && r1.neck.Val? && r1.waist.Val? {
      MaleBfpIgnoresHips(r1.height.value, r1.neck.value, r1.waist.value, r1.hips, r2.hips, log10);
    }
  }

  /** What every record the form writes satisfies: name and gender are present and the
      metrics are those of the record's baseline measurements. */
  ghost predicate Admissible(p: PatientRecord, log10: real -> real) {
    p.name != "" && p.gender != "" && p.MetricsConsistent(log10)
  }

  ghost predicate AllAdmissible(ps: seq<PatientRecord>, log10: real -> real) {
    forall i :: 0 <= i < |ps| ==> Admissible(ps[i], log10)
  }

  lemma AppendAdmissible(ps: seq<PatientRecord>, p: PatientRecord, log10: real -> real)
    requires AllAdmissible(ps, log10) && Admissible(p, log10)
    ensures AllAdmissible(ps + [p], log10)
  {
  }

  class AddPatientForm {
    /** `Number(s)` on the text of an input field. */
    const toNumber: string -> Num
    /** `Math.log10`. */
    const log10: real -> real

    var name: string
    var gender: string
    var age: string
    var weight: string
    var height: string
    var neck: string
    var chest: string
    var waist: string
    var hips: string
    var conditions: string
    var allergies: string
    var error: string
    var success: string
    /** The patient records this form has written, oldest first. */
    var patients: seq<PatientRecord>

    function Inputs(): PatientInputs
      reads this`name, this`gender, this`age, this`weight, this`height, this`neck
      reads this`chest, this`waist, this`hips, this`conditions, this`allergies
    {
      PatientInputs(name, gender, age, weight, height, neck, chest, waist, hips,
                    conditions, allergies)
    }

    /** Every stored patient passed validation and carries the metrics of its own
        baseline measurements. */
    ghost predicate Valid()
      reads this
    {
      && EmptyParsesToZero(toNumber)
      && AllAdmissible(patients, log10)
    }

    constructor (toNumber: string -> Num, log10: real -> real)
      requires EmptyParsesToZero(toNumber)
      ensures Valid() && this.toNumber == toNumber && this.log10 == log10
      ensures Inputs() == BlankInputs && error == "" && success == "" && patients == []
    {
      this.toNumber, this.log10 := toNumber, log10;
      name, gender, age, weight, height, neck := "", "", "", "", "", "";
      chest, waist, hips, conditions, allergies := "", "", "", "", "";
      error, success, patients := "", "", [];
    }

    /** Blanks the eleven input fields. */
    method ResetForm()
      modifies this`name, this`gender, this`age, this`weight, this`height, this`neck
      modifies this`chest, this`waist, this`hips, this`conditions, this`allergies
      ensures Inputs() == BlankInputs
    {
      name, gender, age, weight, height := "", "", "", "", "";
      neck, chest, waist, hips := "", "", "", "";
      conditions, allergies := "", "";
    }

    /** `handleAddPatient`, given whether the write to the store succeeds: a form with a
        missing required field is refused without a write; a successful write stores the
        record and blanks all eleven fields; a failed one keeps them. */
    method HandleAddPatient(writeOk: bool)
      requires Valid()
      modifies this
      ensures Valid()
      ensures MissingRequired(old(Inputs())) ==>
                && error == RequiredFieldsMessage && success == ""
                && Inputs() == old(Inputs()) && patients == old(patients)
      ensures !MissingRequired(old(Inputs())) && writeOk ==>
                && patients == old(patients) + [BuildRecord(old(Inputs()), toNumber, log10)]
                && success == AddedMessage && error == ""
                && Inputs() == BlankInputs
      ensures !MissingRequired(old(Inputs())) && !writeOk ==>
                && error == AddFailedMessage && success == ""
                && Inputs() == old(Inputs()) && patients == old(patients)
    {
      error := "";
      success := "";
      var inputs := Inputs();
      if MissingRequired(inputs) {
        error := RequiredFieldsMessage;
        assert Inputs() == inputs;
        return;
      }
      var record := BuildRecord(inputs, toNumber, log10);
      if writeOk {
        AppendAdmissible(patients, record, log10);
        patients := patients + [record];
        success := AddedMessage;
        ResetForm();
      } else {
        error := AddFailedMessage;
        assert Inputs() == inputs;
      }
    }
  }
}
