/**
 * The three prediction pages and the history page. Each submission runs
 * its gate, builds the feature vector, calls the (opaque) scaler and
 * classifier, picks the verdict and, only then, inserts one row. A
 * rejected submission reaches neither the classifier nor the table.
 */
module App {
  import opened Wrappers
  import opened History
  import Verdicts
  import Heart
  import Diabetes
  import Parkinsons

  /** How a press of a page's prediction button ends. */
  datatype Outcome = Rejected | Predicted(verdict: string)

  /**
   * The diabetes button: a text that does not parse raises ValueError,
   * which is shown as an error; nothing is predicted or stored.
   */
  method SubmitDiabetes(form: Diabetes.DiabetesForm, parse: string -> Option<real>,
                        transform: seq<real> -> seq<real>, predict: seq<real> -> int,
                        table: Table<Diabetes.DiabetesRow>)
    returns (outcome: Outcome)
    requires table.Valid()
    modifies table
    ensures table.Valid()
    ensures outcome.Rejected? <==> Diabetes.Vector(form, parse).None?
    ensures outcome.Rejected? ==> table.rows == old(table.rows) && table.nextId == old(table.nextId)
    ensures outcome.Predicted? ==>
      && outcome.verdict == Verdicts.DiabetesVerdict(predict(transform(Diabetes.Vector(form, parse).value)))
      && table.rows == old(table.rows) + [Entry(old(table.nextId), Diabetes.Row(form, outcome.verdict))]
      && table.nextId == old(table.nextId) + 1
  {
    match Diabetes.Vector(form, parse)
    case None =>
      outcome := Rejected;
    case Some(inputData) =>
      var scaled := transform(inputData);
      var prediction := predict(scaled);
      var result := Verdicts.DiabetesVerdict(prediction);
      var _ := table.Insert(Diabetes.Row(form, result));
      outcome := Predicted(result);
  }

  /**
   * The heart-disease button: an incomplete form only raises a warning;
   * a complete one is classified on the unscaled vector and stored encoded.
   */
  method SubmitHeart(form: Heart.HeartForm, predict: seq<real> -> int,
                     table: Table<Heart.HeartRow>)
    returns (outcome: Outcome)
    requires table.Valid()
    modifies table
    ensures table.Valid()
    ensures outcome.Rejected? <==> !Heart.Complete(form)
    ensures outcome.Rejected? ==> table.rows == old(table.rows) && table.nextId == old(table.nextId)
    ensures outcome.Predicted? ==>
      var input := Heart.Accept(form).value;
      && outcome.verdict == Verdicts.HeartVerdict(predict(Heart.Vector(input)))
      && table.rows == old(table.rows) + [Entry(old(table.nextId), Heart.Row(input, outcome.verdict))]
      && table.nextId == old(table.nextId) + 1
  {
    match Heart.Accept(form)
    case None =>
      outcome := Rejected;
    case Some(input) =>
      var prediction := predict(Heart.Vector(input));
      var result := Verdicts.HeartVerdict(prediction);
      var _ := table.Insert(Heart.Row(input, result));
      outcome := Predicted(result);
  }

  /**
   * The Parkinson's page: the inputs are collected on every run of the
   * page; on the button press the collection is classified and stored only
   * if it is valid and holds 22 values.
   */
  method SubmitParkinsons(textInput: string -> string, parse: string -> Option<real>,
                          transform: seq<real> -> seq<real>, predict: seq<real> -> int,
                          table: Table<Parkinsons.ParkinsonsRow>)
    returns (outcome: Outcome)
    requires table.Valid()
    modifies table
    ensures table.Valid()
    ensures outcome.Rejected? <==> !Parkinsons.AllParse(Parkinsons.Labels, textInput, parse)
    ensures outcome.Rejected? ==> table.rows == old(table.rows) && table.nextId == old(table.nextId)
    ensures outcome.Predicted? ==>
      var inputs := Parkinsons.Successes(Parkinsons.Labels, textInput, parse);
      && |inputs| == Parkinsons.FeatureCount
      && outcome.verdict == Verdicts.ParkinsonsVerdict(predict(transform(inputs)))
      && table.rows == old(table.rows) + [Entry(old(table.nextId), Parkinsons.ParkinsonsRow(inputs, outcome.verdict))]
      && table.nextId == old(table.nextId) + 1
  {
    var inputs, inputValid := Parkinsons.CollectInputs(Parkinsons.Labels, textInput, parse);
    Parkinsons.ReadyIffAllParse(textInput, parse, inputs, inputValid);
    if inputValid && |inputs| == Parkinsons.FeatureCount {
      var scaled := transform(inputs);
      var prediction := predict(scaled);
      var result := Verdicts.ParkinsonsVerdict(prediction);
      var _ := table.Insert(Parkinsons.ParkinsonsRow(inputs, result));
      outcome := Predicted(result);
    } else {
      outcome := Rejected;
    }
  }

  /**
   * The history page: each table listed newest first; diabetes and
   * Parkinson's rows are shown as stored, heart rows decoded back to the
   * form's labels.
   */
  method ViewHistory(diabetes: Table<Diabetes.DiabetesRow>,
                     parkinsons: Table<Parkinsons.ParkinsonsRow>,
                     heart: Table<Heart.HeartRow>)
    returns (diabetesShown: seq<Diabetes.DiabetesRow>,
             parkinsonsShown: seq<Parkinsons.ParkinsonsRow>,
             heartShown: seq<Heart.HeartView>)
    requires diabetes.Valid() && parkinsons.Valid() && heart.Valid()
    ensures |diabetesShown| == |diabetes.rows| && |parkinsonsShown| == |parkinsons.rows|
    ensures |heartShown| == |heart.rows|
    ensures forall i :: 0 <= i < |diabetesShown| ==> diabetesShown[i] == diabetes.NewestFirst()[i].row
    ensures forall i :: 0 <= i < |parkinsonsShown| ==> parkinsonsShown[i] == parkinsons.NewestFirst()[i].row
    ensures forall i :: 0 <= i < |heartShown| ==> heartShown[i] == Heart.Decode(heart.NewestFirst()[i].row)
  {
    diabetesShown := Display(diabetes, (r: Diabetes.DiabetesRow) => r);
    parkinsonsShown := Display(parkinsons, (r: Parkinsons.ParkinsonsRow) => r);
    heartShown := Display(heart, Heart.Decode);
  }
}
