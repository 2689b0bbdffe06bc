/**
 * The heart-disease page: the form, the gate that refuses an unfinished
 * form, the 0/1 encoding of the three yes/no style choices, the feature
 * vector handed to the classifier, the row stored in
 * heart_disease_predictions, and the decoding the history view applies to
 * such a row.
 */
module Heart {
  import opened Wrappers

  /** The placeholder option that every selectbox of the page starts on. */
  const SelectText := "Select"

  /** A selectbox whose options are the placeholder followed by integers. */
  datatype Ordinal = Placeholder | Level(level: int)

  /**
   * What the form holds when the button is pressed, in declaration order.
   * A number input left empty is None; sex, fbs and exang are the text of
   * the chosen option.
   */
  datatype HeartForm = HeartForm(
    age: Option<int>, sex: string, cp: Ordinal, trestbps: Option<int>, chol: Option<int>,
    fbs: string, restecg: Ordinal, thalach: Option<int>, exang: string, oldpeak: Option<real>,
    slope: Ordinal, ca: Ordinal, thal: Ordinal)

  /** The same thirteen fields once every one of them has a value. */
  datatype HeartInput = HeartInput(
    age: int, sex: string, cp: int, trestbps: int, chol: int,
    fbs: string, restecg: int, thalach: int, exang: string, oldpeak: real,
    slope: int, ca: int, thal: int)

  /** A row of heart_disease_predictions, without its id. */
  datatype HeartRow = HeartRow(
    age: int, sex: int, cp: int, trestbps: int, chol: int,
    fbs: int, restecg: int, thalach: int, exang: int, oldpeak: real,
    slope: int, ca: int, thal: int, result: string)

  /** The record the history view shows for one row. */
  datatype HeartView = HeartView(
    age: int, sex: string, cp: int, trestbps: int, chol: int,
    fbs: string, restecg: int, thalach: int, exang: string, oldpeak: real,
    slope: int, ca: int, thal: int, result: string)

  /** The features of the heart-disease classifier. */
  datatype HeartFeature =
    | Age | Sex | ChestPain | RestingBP | Cholesterol | FastingSugar | RestingEcg
    | MaxHeartRate | ExerciseAngina | Oldpeak | Slope | Vessels | Thalassemia

  /** The frozen order in which the classifier expects its thirteen features. */
  const HeartOrder: seq<HeartFeature> :=
    [Age, Sex, ChestPain, RestingBP, Cholesterol, FastingSugar, RestingEcg,
     MaxHeartRate, ExerciseAngina, Oldpeak, Slope, Vessels, Thalassemia]

  // ---------------------------------------------------------------------
  // The gate
  // ---------------------------------------------------------------------

  /** Whether feature `f` of the form holds a value. */
  predicate Filled(form: HeartForm, f: HeartFeature) {
    match f
    case Age => form.age.Some?
    case Sex => form.sex != SelectText
    case ChestPain => form.cp.Level?
    case RestingBP => form.trestbps.Some?
    case Cholesterol => form.chol.Some?
    case FastingSugar => form.fbs != SelectText
    case RestingEcg => form.restecg.Level?
    case MaxHeartRate => form.thalach.Some?
    case ExerciseAngina => form.exang != SelectText
    case Oldpeak => form.oldpeak.Some?
    case Slope => form.slope.Level?
    case Vessels => form.ca.Level?
    case Thalassemia => form.thal.Level?
  }

  /** Every one of the thirteen features holds a value. */
  predicate Complete(form: HeartForm) {
    forall f: HeartFeature :: Filled(form, f)
  }

  /**
   * The gate's condition field by field: a form is complete exactly when no
   * number input is empty and no selectbox shows the placeholder.
   */
  lemma CompleteFields(form: HeartForm)
    ensures Complete(form) <==>
      && form.age.Some? && form.trestbps.Some? && form.chol.Some?
      && form.thalach.Some? && form.oldpeak.Some?
      && form.sex != SelectText && form.cp.Level? && form.fbs != SelectText
      && form.restecg.Level? && form.exang != SelectText && form.slope.Level?
      && form.ca.Level? && form.thal.Level?
  {
    if Complete(form) {
      assert Filled(form, Age) && Filled(form, RestingBP) && Filled(form, Cholesterol);
      assert Filled(form, MaxHeartRate) && Filled(form, Oldpeak) && Filled(form, Sex);
      assert Filled(form, ChestPain) && Filled(form, FastingSugar) && Filled(form, RestingEcg);
      assert Filled(form, ExerciseAngina) && Filled(form, Slope) && Filled(form, Vessels);
      assert Filled(form, Thalassemia);
    }
  }

  /** The form a completely filled-in input comes from. */
  function Entered(input: HeartInput): HeartForm {
    HeartForm(
      Some(input.age), input.sex, Level(input.cp), Some(input.trestbps), Some(input.chol),
      input.fbs, Level(input.restecg), Some(input.thalach), input.exang, Some(input.oldpeak),
      Level(input.slope), Level(input.ca), Level(input.thal))
  }

  /**
   * The check made when the button is pressed: the form is refused when a
   * number input is still empty or a selectbox still shows the placeholder;
   * otherwise its values are taken over unchanged.
   */
  function Accept(form: HeartForm): (r: Option<HeartInput>)
    ensures r.Some? <==> Complete(form)
    ensures r.Some? ==> Entered(r.value) == form
  {
    CompleteFields(form);
    if None in [form.age, form.trestbps, form.chol, form.thalach] || form.oldpeak == None
       || SelectText in [form.sex, form.fbs, form.exang]
       || Placeholder in [form.cp, form.restecg, form.slope, form.ca, form.thal]
    then None
    else
      Some(HeartInput(
        form.age.value, form.sex, form.cp.level, form.trestbps.value, form.chol.value,
        form.fbs, form.restecg.level, form.thalach.value, form.exang, form.oldpeak.value,
        form.slope.level, form.ca.level, form.thal.level))
  }

  // ---------------------------------------------------------------------
  // Encoding and decoding of the text choices
  // ---------------------------------------------------------------------

  function EncodeSex(sex: string): (b: int)
    ensures b == 0 || b == 1
    ensures b == 1 <==> sex == "Male"
  {
    if sex == "Male" then 1 else 0
  }

  /** Used for both fbs and exang. */
  function EncodeYesNo(answer: string): (b: int)
    ensures b == 0 || b == 1
    ensures b == 1 <==> answer == "Yes"
  {
    if answer == "Yes" then 1 else 0
  }

  function DecodeSex(b: int): (sex: string)
    ensures sex == "Male" || sex == "Female"
    ensures sex == "Male" <==> b == 1
  {
    if b == 1 then "Male" else "Female"
  }

  function DecodeYesNo(b: int): (answer: string)
    ensures answer == "Yes" || answer == "No"
    ensures answer == "Yes" <==> b == 1
  {
    if b == 1 then "Yes" else "No"
  }

  // ---------------------------------------------------------------------
  // Feature vector and stored row
  // ---------------------------------------------------------------------

  /** The value the classifier sees for feature `f`. */
  function Feature(input: HeartInput, f: HeartFeature): real {
    match f
    case Age => input.age as real
    case Sex => EncodeSex(input.sex) as real
    case ChestPain => input.cp as real
    case RestingBP => input.trestbps as real
    case Cholesterol => input.chol as real
    case FastingSugar => EncodeYesNo(input.fbs) as real
    case RestingEcg => input.restecg as real
    case MaxHeartRate => input.thalach as real
    case ExerciseAngina => EncodeYesNo(input.exang) as real
    case Oldpeak => input.oldpeak
    case Slope => input.slope as real
    case Vessels => input.ca as real
    case Thalassemia => input.thal as real
  }

  /** The one-row array passed to the classifier. */
  function Vector(input: HeartInput): (v: seq<real>)
    ensures |v| == |HeartOrder| == 13
    ensures forall i :: 0 <= i < |v| ==> v[i] == Feature(input, HeartOrder[i])
  {
    [input.age as real, EncodeSex(input.sex) as real, input.cp as real,
     input.trestbps as real, input.chol as real, EncodeYesNo(input.fbs) as real,
     input.restecg as real, input.thalach as real, EncodeYesNo(input.exang) as real,
     input.oldpeak, input.slope as real, input.ca as real, input.thal as real]
  }

  /** The thirteen feature columns of a row, in the table's column order. */
  function RowFeatures(row: HeartRow): seq<real> {
    [row.age as real, row.sex as real, row.cp as real, row.trestbps as real,
     row.chol as real, row.fbs as real, row.restecg as real, row.thalach as real,
     row.exang as real, row.oldpeak, row.slope as real, row.ca as real, row.thal as real]
  }

  /** The row inserted after a prediction: the encoded values and the verdict. */
  function Row(input: HeartInput, result: string): (row: HeartRow)
    ensures RowFeatures(row) == Vector(input)
    ensures row.result == result
  {
    HeartRow(
      input.age, EncodeSex(input.sex), input.cp, input.trestbps, input.chol,
      EncodeYesNo(input.fbs), input.restecg, input.thalach, EncodeYesNo(input.exang),
      input.oldpeak, input.slope, input.ca, input.thal, result)
  }

  /** What the history view shows for a stored row. */
  function Decode(row: HeartRow): HeartView {
    HeartView(
      row.age, DecodeSex(row.sex), row.cp, row.trestbps, row.chol,
      DecodeYesNo(row.fbs), row.restecg, row.thalach, DecodeYesNo(row.exang),
      row.oldpeak, row.slope, row.ca, row.thal, row.result)
  }

  // ---------------------------------------------------------------------
  // Widget domains and the round trip
  // ---------------------------------------------------------------------

  predicate LevelIn(o: Ordinal, lo: int, hi: int) {
    o.Placeholder? || lo <= o.level <= hi
  }

  predicate IntIn(o: Option<int>, lo: int, hi: int) {
    o.None? || lo <= o.value <= hi
  }

  /** The values the page's widgets can hand over: their options and ranges. */
  predicate WithinWidgets(form: HeartForm) {
    && IntIn(form.age, 1, 100)
    && form.sex in [SelectText, "Male", "Female"]
    && LevelIn(form.cp, 0, 3)
    && IntIn(form.trestbps, 50, 200)
    && IntIn(form.chol, 100, 500)
    && form.fbs in [SelectText, "Yes", "No"]
    && LevelIn(form.restecg, 0, 2)
    && IntIn(form.thalach, 50, 220)
    && form.exang in [SelectText, "Yes", "No"]
    && (form.oldpeak.None? || 0.0 <= form.oldpeak.value <= 10.0)
    && LevelIn(form.slope, 0, 2)
    && LevelIn(form.ca, 0, 3)
    && LevelIn(form.thal, 1, 3)
  }

  /**
   * Decoding the row stored for an accepted form shows the user exactly
   * what they entered, together with the verdict.
   */
  lemma RoundTrip(form: HeartForm, result: string)
    requires WithinWidgets(form)
    requires Complete(form)
    ensures var v := Decode(Row(Accept(form).value, result));
      && Some(v.age) == form.age && v.sex == form.sex && Level(v.cp) == form.cp
      && Some(v.trestbps) == form.trestbps && Some(v.chol) == form.chol
      && v.fbs == form.fbs && Level(v.restecg) == form.restecg
      && Some(v.thalach) == form.thalach && v.exang == form.exang
      && Some(v.oldpeak) == form.oldpeak && Level(v.slope) == form.slope
      && Level(v.ca) == form.ca && Level(v.thal) == form.thal && v.result == result
  {
  }

  /** A form outside the widget options does not survive the round trip. */
  lemma RoundTripNeedsWidgets()
    ensures var form := HeartForm(
        Some(50), "male", Level(0), Some(120), Some(200),
        "No", Level(0), Some(150), "No", Some(1.0), Level(1), Level(0), Level(2));
      && Accept(form).Some?
      && Decode(Row(Accept(form).value, "")).sex != form.sex
  {
  }

  /**
   * Every feature of an accepted form in the widgets' domain lies in the
   * widget's range; the three encoded features are 0 or 1.
   */
  lemma VectorBounds(form: HeartForm)
    requires WithinWidgets(form)
    requires Complete(form)
    ensures var v := Vector(Accept(form).value);
      && 1.0 <= v[0] <= 100.0 && 0.0 <= v[2] <= 3.0 && 50.0 <= v[3] <= 200.0
      && 100.0 <= v[4] <= 500.0 && 0.0 <= v[6] <= 2.0 && 50.0 <= v[7] <= 220.0
      && 0.0 <= v[9] <= 10.0 && 0.0 <= v[10] <= 2.0 && 0.0 <= v[11] <= 3.0
      && 1.0 <= v[12] <= 3.0
      && v[1] in {0.0, 1.0} && v[5] in {0.0, 1.0} && v[8] in {0.0, 1.0}
  {
  }
}
