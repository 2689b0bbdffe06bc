/**
 * The diabetes page: eight text fields, assembled into the classifier's
 * feature order, parsed all-or-nothing, and stored as the raw text the user
 * typed together with the verdict.
 */
module Diabetes {
  import opened Wrappers

  /** The eight text inputs, in the order the page declares them. */
  datatype DiabetesForm = DiabetesForm(
    pregnancies: string, skinThickness: string, pedigree: string, glucose: string,
    insulin: string, age: string, bloodPressure: string, bmi: string)

  /** A row of diabetes_predictions, without its id: the raw texts and the verdict. */
  datatype DiabetesRow = DiabetesRow(
    pregnancies: string, glucose: string, bloodPressure: string, skinThickness: string,
    insulin: string, bmi: string, dpf: string, age: string, result: string)

  /** The features of the diabetes classifier. */
  datatype DiabetesFeature =
    | Pregnancies | Glucose | BloodPressure | SkinThickness | Insulin | Bmi | Pedigree | Age

  /** The frozen order in which the scaler and classifier expect their eight features. */
  const DiabetesOrder: seq<DiabetesFeature> :=
    [Pregnancies, Glucose, BloodPressure, SkinThickness, Insulin, Bmi, Pedigree, Age]

  /** The text the user typed for feature `f`. */
  function TextOf(form: DiabetesForm, f: DiabetesFeature): string {
    match f
    case Pregnancies => form.pregnancies
    case Glucose => form.glucose
    case BloodPressure => form.bloodPressure
    case SkinThickness => form.skinThickness
    case Insulin => form.insulin
    case Bmi => form.bmi
    case Pedigree => form.pedigree
    case Age => form.age
  }

  /**
   * The texts of the one-row array, before conversion to float. Their
   * order is the classifier's, not the form's.
   */
  function Texts(form: DiabetesForm): (texts: seq<string>)
    ensures |texts| == |DiabetesOrder| == 8
    ensures forall i :: 0 <= i < 8 ==> texts[i] == TextOf(form, DiabetesOrder[i])
  {
    [form.pregnancies, form.glucose, form.bloodPressure, form.skinThickness,
     form.insulin, form.bmi, form.pedigree, form.age]
  }

  /**
   * Conversion of a whole row of texts to numbers: it fails as soon as one
   * text fails to parse, and otherwise parses every text in place.
   */
  function ParseAll(texts: seq<string>, parse: string -> Option<real>): (r: Option<seq<real>>)
    ensures r.Some? <==> forall i :: 0 <= i < |texts| ==> parse(texts[i]).Some?
    ensures r.Some? ==> |r.value| == |texts|
    ensures r.Some? ==> forall i :: 0 <= i < |texts| ==> r.value[i] == parse(texts[i]).value
  {
    if texts == [] then Some([])
    else
      match parse(texts[0])
      case None => None
      case Some(x) =>
        match ParseAll(texts[1..], parse)
        case None => None
        case Some(rest) => Some([x] + rest)
  }

  /** The feature vector of a form, or None when some field does not parse. */
  function Vector(form: DiabetesForm, parse: string -> Option<real>): Option<seq<real>> {
    ParseAll(Texts(form), parse)
  }

  /**
   * The form gives a vector exactly when all eight texts parse, and the
   * vector then holds the parsed values in the classifier's order.
   */
  lemma VectorFollowsOrder(form: DiabetesForm, parse: string -> Option<real>)
    ensures Vector(form, parse).Some? <==>
      forall f: DiabetesFeature :: parse(TextOf(form, f)).Some?
    ensures Vector(form, parse).Some? ==>
      var v := Vector(form, parse).value;
      && |v| == 8
      && forall i :: 0 <= i < 8 ==> v[i] == parse(TextOf(form, DiabetesOrder[i])).value
  {
    var texts := Texts(form);
    if forall i :: 0 <= i < 8 ==> parse(texts[i]).Some? {
      forall f: DiabetesFeature ensures parse(TextOf(form, f)).Some? {
        var i := match f
          case Pregnancies => 0 case Glucose => 1 case BloodPressure => 2
          case SkinThickness => 3 case Insulin => 4 case Bmi => 5
          case Pedigree => 6 case Age => 7;
        assert DiabetesOrder[i] == f;
      }
    } else {
      var i :| 0 <= i < 8 && parse(texts[i]).None?;
      assert parse(TextOf(form, DiabetesOrder[i])).None?;
    }
  }

  /** The row inserted after a prediction. */
  function Row(form: DiabetesForm, result: string): (row: DiabetesRow)
    ensures RowTexts(row) == Texts(form)
    ensures row.result == result
  {
    DiabetesRow(
      form.pregnancies, form.glucose, form.bloodPressure, form.skinThickness,
      form.insulin, form.bmi, form.pedigree, form.age, result)
  }

  /** The eight text columns of a row, in the table's column order. */
  function RowTexts(row: DiabetesRow): seq<string> {
    [row.pregnancies, row.glucose, row.bloodPressure, row.skinThickness,
     row.insulin, row.bmi, row.dpf, row.age]
  }
}
