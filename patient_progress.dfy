/** Progress tracking: entering a dated measurement, and the weight series drawn from the
    patient's measurements. */
module Progress {
  import opened JsValues

  /** A measurement as written to the patient's `measurements` collection. A missing
      circumference is stored as null. */
  datatype MeasurementData = MeasurementData(date: string, weight: Num, neck: Option<real>,
                                             chest: Option<real>, waist: Option<real>,
                                             hips: Option<real>)
  {
    /** Circumferences are either absent or non-zero: a zero is never stored. */
    predicate NoZeroCircumference() {
      && (neck.Some? ==> neck.value != 0.0)
      && (chest.Some? ==> chest.value != 0.0)
      && (waist.Some? ==> waist.value != 0.0)
      && (hips.Some? ==> hips.value != 0.0)
    }
  }

  /** A measurement as read back from the store, with its document id. */
  datatype Measurement = Measurement(id: string, data: MeasurementData)

  /** How an optional field's text is stored: null when it converts to NaN or 0, the
      number otherwise. */
  ghost predicate StoredAs(text: string, stored: Option<real>, toNumber: string -> Num) {
    && (stored.None? <==> !toNumber(text).Truthy())
    && (stored.Some? ==> toNumber(text) == Val(stored.value) && stored.value != 0.0)
  }

  /** The measurement built from the form fields. */
  function NewMeasurement(date: string, weight: string, neck: string, chest: string,
                          waist: string, hips: string, toNumber: string -> Num)
    : (m: MeasurementData)
    ensures m.date == date && m.weight == toNumber(weight)
    ensures StoredAs(neck, m.neck, toNumber) && StoredAs(chest, m.chest, toNumber)
    ensures StoredAs(waist, m.waist, toNumber) && StoredAs(hips, m.hips, toNumber)
    ensures m.NoZeroCircumference()
  {
    MeasurementData(date, toNumber(weight), OrNull(toNumber(neck)), OrNull(toNumber(chest)),
                    OrNull(toNumber(waist)), OrNull(toNumber(hips)))
  }

  /** Circumferences left empty are stored as null. */
  lemma EmptyCircumferencesStoredAsNull(date: string, weight: string, toNumber: string -> Num)
    requires EmptyParsesToZero(toNumber)
    ensures var m := NewMeasurement(date, weight, "", "", "", "", toNumber);
            m.neck == m.chest == m.waist == m.hips == None
  {
  }

  /** The chart's x-axis: one date per measurement, in order. */
  function Labels(ms: seq<Measurement>): (labels: seq<string>)
    ensures |labels| == |ms|
    ensures forall i :: 0 <= i < |ms| ==> labels[i] == ms[i].data.date
  {
    if ms == [] then [] else [ms[0].data.date] + Labels(ms[1..])
  }

  /** The chart's one data series: one weight per measurement, in order. */
  function Weights(ms: seq<Measurement>): (weights: seq<Num>)
    ensures |weights| == |ms|
    ensures forall i :: 0 <= i < |ms| ==> weights[i] == ms[i].data.weight
  {
    if ms == [] then [] else [ms[0].data.weight] + Weights(ms[1..])
  }

  datatype ChartData = ChartData(labels: seq<string>, weights: seq<Num>)

  /** `chartData`: the labels and the weight series, point i of both taken from
      measurement i. */
  function ChartDataOf(ms: seq<Measurement>): (c: ChartData)
    ensures |c.labels| == |c.weights| == |ms|
    ensures forall i :: 0 <= i < |ms| ==>
              c.labels[i] == ms[i].data.date && c.weights[i] == ms[i].data.weight
  {
    ChartData(Labels(ms), Weights(ms))
  }

  /** A measurement added at the end of the list adds one point at the end of the chart
      and leaves the earlier points as they were. */
  lemma ChartDataAppend(ms: seq<Measurement>, m: Measurement)
    ensures ChartDataOf(ms + [m]).labels == ChartDataOf(ms).labels + [m.data.date]
    ensures ChartDataOf(ms + [m]).weights == ChartDataOf(ms).weights + [m.data.weight]
  {
    var before, after := ChartDataOf(ms), ChartDataOf(ms + [m]);
    assert after.labels == before.labels + [m.data.date];
    assert after.weights == before.weights + [m.data.weight];
  }

  /** The weight chart is drawn only when it has at least two points. */
  function ShowChart(ms: seq<Measurement>): (show: bool)
    ensures show <==> |ChartDataOf(ms).weights| >= 2
  {
    |ms| > 1
  }

  class PatientProgress {
    /** `Number(s)` on the text of an input field. */
    const toNumber: string -> Num

    /** The latest snapshot of the patient's measurements. */
    var measurements: seq<Measurement>
    var date: string
    var weight: string
    var neck: string
    var chest: string
    var waist: string
    var hips: string
    /** The measurements this view has written, oldest first. */
    var written: seq<MeasurementData>

    /** Every written measurement has a date and no zero circumference. */
    ghost predicate Valid()
      reads this
    {
      && EmptyParsesToZero(toNumber)
      && forall i :: 0 <= i < |written| ==>
           written[i].date != "" && written[i].NoZeroCircumference()
    }

    /** The form starts on the given date with every other field empty. */
    constructor (today: string, toNumber: string -> Num)
      requires EmptyParsesToZero(toNumber)
      ensures Valid() && this.toNumber == toNumber
      ensures measurements == [] && date == today && written == []
      ensures weight == neck == chest == waist == hips == ""
    {
      this.toNumber := toNumber;
      measurements, date, written := [], today, [];
      weight, neck, chest, waist, hips := "", "", "", "", "";
    }

    /** The subscription callback: the view shows the snapshot it is given. */
    method ApplySnapshot(snapshot: seq<Measurement>)
      modifies this`measurements
      ensures measurements == snapshot
    {
      measurements := snapshot;
    }

    /** `handleAddMeasurement`, given whether the write succeeds. Without a date or a
        weight nothing happens. After a successful write the weight and circumference
        fields are cleared and the date is kept; a failed write rejects the handler
        before it clears anything. */
    method HandleAddMeasurement(writeOk: bool)
      requires Valid()
      modifies this`weight, this`neck, this`chest, this`waist, this`hips, this`written
      ensures Valid()
      ensures old(date) == "" || old(weight) == "" || !writeOk ==>
                && written == old(written)
                && weight == old(weight) && neck == old(neck) && chest == old(chest)
                && waist == old(waist) && hips == old(hips)
      ensures old(date) != "" && old(weight) != "" && writeOk ==>
                && written == old(written) + [NewMeasurement(date, old(weight), old(neck),
                                                              old(chest), old(waist), old(hips),
                                                              toNumber)]
                && weight == neck == chest == waist == hips == ""
    {
      if date == "" || weight == "" {
        return;
      }
      var entry := NewMeasurement(date, weight, neck, chest, waist, hips, toNumber);
      if !writeOk {
        return;
      }
      written := written + [entry];
      weight := "";
      neck := "";
      chest := "";
      waist := "";
      hips := "";
    }
  }
}
