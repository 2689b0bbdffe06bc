/**
 * The Parkinson's page: one text input per voice measurement, read and
 * parsed in label order. Values that parse are collected; a single failure
 * clears the validity flag, and only a fully valid collection of 22 values
 * is handed to the scaler and classifier.
 */
module Parkinsons {
  import opened Wrappers

  /** The labels of the 22 text inputs, in the classifier's feature order. */
  const Labels: seq<string> := [
    "MDVP:Fo(Hz)", "MDVP:Fhi(Hz)", "MDVP:Flo(Hz)", "MDVP:Jitter(%)", "MDVP:Jitter(Abs)",
    "MDVP:RAP", "MDVP:PPQ", "Jitter:DDP", "MDVP:Shimmer", "MDVP:Shimmer(dB)",
    "Shimmer:APQ3", "Shimmer:APQ5", "MDVP:APQ", "Shimmer:DDA", "NHR",
    "HNR", "RPDE", "DFA", "spread1", "spread2", "D2", "PPE"
  ]

  /** The number of features the scaler and classifier expect. */
  const FeatureCount := 22

  /**
   * A row of parkinsons_predictions, without its id. The table keeps the
   * collected values as one text column; the model keeps the values.
   */
  datatype ParkinsonsRow = ParkinsonsRow(inputData: seq<real>, result: string)

  /** Whether the text entered under `name` parses. */
  predicate Parses(name: string, textInput: string -> string, parse: string -> Option<real>) {
    parse(textInput(name)).Some?
  }

  /** Every label's text parses. */
  predicate AllParse(labels: seq<string>, textInput: string -> string, parse: string -> Option<real>) {
    forall i :: 0 <= i < |labels| ==> Parses(labels[i], textInput, parse)
  }

  /** The values of the labels whose text parses, in label order. */
  function Successes(labels: seq<string>, textInput: string -> string,
                     parse: string -> Option<real>): seq<real>
  {
    if labels == [] then []
    else
      var last := labels[|labels| - 1];
      Successes(labels[..|labels| - 1], textInput, parse)
        + match parse(textInput(last)) case Some(x) => [x] case None => []
  }

  /**
   * The loop that reads the inputs: each text that parses is appended to
   * `inputs`, and any text that does not clears `inputValid`.
   */
  method CollectInputs(labels: seq<string>, textInput: string -> string,
                       parse: string -> Option<real>)
    returns (inputs: seq<real>, inputValid: bool)
    ensures inputs == Successes(labels, textInput, parse)
    ensures inputValid <==> AllParse(labels, textInput, parse)
  {
    inputs := [];
    inputValid := true;
    for k := 0 to |labels|
      invariant inputs == Successes(labels[..k], textInput, parse)
      invariant inputValid <==> AllParse(labels[..k], textInput, parse)
    {
      var value := textInput(labels[k]);
      assert labels[..k + 1][..k] == labels[..k];
      match parse(value)
      case Some(x) =>
        inputs := inputs + [x];
      case None =>
        inputValid := false;
    }
    assert labels[..|labels|] == labels;
  }

  /**
   * When every text parses, the collected values are all of them, one per
   * label and in label order.
   */
  lemma {:induction false} SuccessesWhenAllParse(labels: seq<string>, textInput: string -> string,
                                                 parse: string -> Option<real>)
    requires AllParse(labels, textInput, parse)
    ensures |Successes(labels, textInput, parse)| == |labels|
    ensures forall i :: 0 <= i < |labels| ==>
      Successes(labels, textInput, parse)[i] == parse(textInput(labels[i])).value
  {
    if labels != [] {
      var init := labels[..|labels| - 1];
      assert AllParse(init, textInput, parse) by {
        forall i | 0 <= i < |init| ensures Parses(init[i], textInput, parse) {
          assert init[i] == labels[i];
        }
      }
      SuccessesWhenAllParse(init, textInput, parse);
      assert Parses(labels[|labels| - 1], textInput, parse);
    }
  }

  /** Every collected value is one more success, so at most one per label. */
  lemma {:induction false} SuccessesBound(labels: seq<string>, textInput: string -> string,
                                          parse: string -> Option<real>)
    ensures |Successes(labels, textInput, parse)| <= |labels|
    ensures |Successes(labels, textInput, parse)| == |labels| ==> AllParse(labels, textInput, parse)
  {
    if labels != [] {
      var init := labels[..|labels| - 1];
      SuccessesBound(init, textInput, parse);
      if |Successes(labels, textInput, parse)| == |labels| {
        assert |Successes(init, textInput, parse)| == |init|;
        assert Parses(labels[|labels| - 1], textInput, parse);
        forall i | 0 <= i < |labels| ensures Parses(labels[i], textInput, parse) {
          if i < |init| {
            assert init[i] == labels[i];
          }
        }
      }
    }
  }

  /**
   * The page's condition for predicting, `inputValid and len(inputs) == 22`,
   * holds exactly when all 22 labels' texts parse; the length test adds
   * nothing to the flag for these labels.
   */
  lemma ReadyIffAllParse(textInput: string -> string, parse: string -> Option<real>,
                         inputs: seq<real>, inputValid: bool)
    requires inputs == Successes(Labels, textInput, parse)
    requires inputValid <==> AllParse(Labels, textInput, parse)
    ensures (inputValid && |inputs| == FeatureCount) <==> AllParse(Labels, textInput, parse)
    ensures (inputValid && |inputs| == FeatureCount) <==> inputValid
  {
    if inputValid {
      SuccessesWhenAllParse(Labels, textInput, parse);
    }
  }

  /** A single text that fails to parse leaves fewer than 22 collected values. */
  lemma OneFailureRejects(textInput: string -> string, parse: string -> Option<real>, j: int)
    requires 0 <= j < |Labels|
    requires !Parses(Labels[j], textInput, parse)
    ensures |Successes(Labels, textInput, parse)| < FeatureCount
    ensures !AllParse(Labels, textInput, parse)
  {
    SuccessesBound(Labels, textInput, parse);
  }
}
