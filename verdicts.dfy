/**
 * The verdict strings shown to the user and stored with each prediction.
 * Every disease maps classifier output 1 to its positive text and any other
 * output to its negative text.
 */
module Verdicts {
  const Diabetic := "The person is Diabetic"
  const NotDiabetic := "The person is not Diabetic"

  const HeartLikely := "The person is likely to have heart disease."
  const HeartUnlikely := "The person is unlikely to have heart disease."

  const ParkinsonsLikely := "The person is likely to have Parkinson's disease"
  const ParkinsonsUnlikely := "The person is not likely to have Parkinson's disease"

  /** Diabetes verdict, chosen by a conditional expression on `prediction[0] == 1`. */
  function DiabetesVerdict(prediction: int): (r: string)
    ensures r == Diabetic || r == NotDiabetic
    ensures r == Diabetic <==> prediction == 1
  {
    if prediction == 1 then Diabetic else NotDiabetic
  }

  /** Heart-disease verdict, chosen by an if/else on `prediction[0] == 1`. */
  function HeartVerdict(prediction: int): (r: string)
    ensures r == HeartLikely || r == HeartUnlikely
    ensures r == HeartLikely <==> prediction == 1
  {
    if prediction == 1 then HeartLikely else HeartUnlikely
  }

  /** Parkinson's verdict, chosen by an if/else on `prediction[0] == 1`. */
  function ParkinsonsVerdict(prediction: int): (r: string)
    ensures r == ParkinsonsLikely || r == ParkinsonsUnlikely
    ensures r == ParkinsonsLikely <==> prediction == 1
  {
    if prediction == 1 then ParkinsonsLikely else ParkinsonsUnlikely
  }
}
