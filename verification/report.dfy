/**
 The report page as a whole: which of its outcomes a stored response tuple
 and a classifier produce. The classifier (the fitted scaler followed by the
 random forest) is a parameter: it maps a feature row to class probabilities,
 or fails when an artifact cannot be loaded or prediction raises.
 */
module Report {
  import opened Wrappers
  import opened Responses
  import opened Comparison
  import opened Grading
  import opened Prediction

  /** Scaler plus classifier: class probabilities for a feature row, or None on failure. */
  type Classifier = seq<real> -> Option<seq<real>>

  /** How the page ends after the prediction section. */
  datatype Closing =
    | Sentence(likelihood: real, grade: GradeLabel)  // "the model predicts a ... likelihood that your grade will be ..."
    | Omitted                                        // no prediction, so no sentence
    | NameErrorRaised                                // the sentence reads a prediction that was never bound

  /** What the page shows. */
  datatype Page =
    | Incomplete   // no responses stored yet: the "complete the questionnaire" warning
    | Malformed    // the "Incorrect number of responses or malformed data" error, nothing else
    | Shown(radar: RadarChart, table: seq<DifferenceRow>, prediction: Option<TopPrediction>, closing: Closing)

  /** The prediction section: classify the feature row, then label it and pick the top band;
      any failure along the way is the single "prediction unavailable" outcome. */
  function Predict(rs: ResponseSet, classify: Classifier): (r: Option<TopPrediction>)
    ensures r.Some? <==>
      classify(FeatureVector(rs)).Some? && 0 < |classify(FeatureVector(rs)).value| <= BandCount
    ensures r.Some? ==> r == Top(classify(FeatureVector(rs)).value)
  {
    match classify(FeatureVector(rs))
    case None => None
    case Some(prob) => Top(prob)
  }

  /** The page as the code is written: when the prediction section fails, the closing
      sentence still reads the top probability and grade, which were never bound. */
  function RenderAsWritten(stored: Option<seq<real>>, classify: Classifier): (p: Page)
    ensures p.Incomplete? <==> stored.None? || |stored.value| == 0
    ensures p.Shown? <==> stored.Some? && |stored.value| == Arity
    ensures p.Shown? ==>
      && var rs := Unpack(stored.value).value;
      && p.radar == Radar(rs)
      && p.table == DifferenceTable(rs)
      && p.prediction == Predict(rs, classify)
    ensures p.Shown? ==> (p.closing.NameErrorRaised? <==> p.prediction.None?)
    ensures p.Shown? ==> !p.closing.Omitted?
    ensures p.Shown? && p.prediction.Some? ==>
      p.closing == Sentence(p.prediction.value.probability, p.prediction.value.grade)
  {
    if stored.None? || |stored.value| == 0 then Incomplete
    else
      match Unpack(stored.value)
      case None => Malformed
      case Some(rs) =>
        var prediction := Predict(rs, classify);
        var closing := if prediction.Some? then Sentence(prediction.value.probability, prediction.value.grade)
                       else NameErrorRaised;
        Shown(Radar(rs), DifferenceTable(rs), prediction, closing)
  }

  /** The page with the prediction section failing on its own: a failed prediction drops the
      closing sentence and leaves the comparison half intact.

      Nothing stored (or an empty list) is the questionnaire warning; any other length but
      twelve is the malformed-data error and nothing else; twelve answers show the radar and
      table of those answers and the prediction for their feature vector, and the closing
      sentence appears exactly when the prediction does. */
  function Render(stored: Option<seq<real>>, classify: Classifier): (p: Page)
    ensures p.Incomplete? <==> stored.None? || |stored.value| == 0
    ensures p.Malformed? <==> stored.Some? && |stored.value| != 0 && |stored.value| != Arity
    ensures p.Shown? ==>
      && stored.Some? && |stored.value| == Arity
      && var rs := Unpack(stored.value).value;
      && p.radar == Radar(rs)
      && p.table == DifferenceTable(rs)
      && (p.prediction.Some? <==>
            classify(FeatureVector(rs)).Some? && 0 < |classify(FeatureVector(rs)).value| <= BandCount)
      && (p.prediction.Some? ==> p.prediction == Top(classify(FeatureVector(rs)).value))
    ensures p.Shown? ==>
      && !p.closing.NameErrorRaised?
      && (p.closing.Sentence? <==> p.prediction.Some?)
      && (p.prediction.Some? ==> p.closing == Sentence(p.prediction.value.probability, p.prediction.value.grade))
  {
    if stored.None? || |stored.value| == 0 then Incomplete
    else
      match Unpack(stored.value)
      case None => Malformed
      case Some(rs) =>
        var prediction := Predict(rs, classify);
        var closing := if prediction.Some? then Sentence(prediction.value.probability, prediction.value.grade)
                       else Omitted;
        Shown(Radar(rs), DifferenceTable(rs), prediction, closing)
  }

  /** As written, any twelve-answer tuple whose prediction fails ends the page in a NameError:
      a classifier failure, no probabilities (no argmax) or more than five (no grade label). */
  lemma FailedPredictionRaisesNameError(s: seq<real>, classify: Classifier)
    requires |s| == Arity
    requires Predict(Unpack(s).value, classify).None?
    ensures RenderAsWritten(Some(s), classify).Shown?
    ensures RenderAsWritten(Some(s), classify).closing == NameErrorRaised
    ensures Render(Some(s), classify).closing == Omitted
  {
  }

  /** The concrete cases: well-formed answers with a classifier whose artifacts fail to load,
      and with one that answers six probabilities, one more than there are grade bands. */
  lemma MissingArtifactExample()
    ensures RenderAsWritten(Some([16.0, 0.0, 2.0, 10.0, 5.0, 0.0, 2.0, 1.0, 0.0, 0.0, 0.0, 5.0]),
                            (v: seq<real>) => None).closing == NameErrorRaised
    ensures RenderAsWritten(Some([16.0, 0.0, 2.0, 10.0, 5.0, 0.0, 2.0, 1.0, 0.0, 0.0, 0.0, 5.0]),
                            (v: seq<real>) => Some([0.5, 0.1, 0.1, 0.1, 0.1, 0.1])).closing == NameErrorRaised
  {
  }

  /** The correction touches only the failure path: whenever the code as written does not
      raise, the corrected page is the same page. */
  lemma RenderAgreesUnlessNameError(stored: Option<seq<real>>, classify: Classifier)
    ensures !(RenderAsWritten(stored, classify).Shown? && RenderAsWritten(stored, classify).closing.NameErrorRaised?)
            ==> Render(stored, classify) == RenderAsWritten(stored, classify)
  {
  }

  /** End to end: grade 5 becomes GPA 3.6 in the feature row, and a classifier answering
      [0.8, 0.1, 0.05, 0.03, 0.02] for that row yields a closing sentence with likelihood 0.8
      and the grade band 5.5-6. */
  lemma EndToEndScenario()
    ensures
      var s := [16.0, 0.0, 2.0, 10.0, 5.0, 0.0, 2.0, 1.0, 0.0, 0.0, 0.0, 5.0];
      var classify := (v: seq<real>) =>
        if |v| == FeatureCount && v[FeatureCount - 1] == 3.6 then Some([0.8, 0.1, 0.05, 0.03, 0.02]) else None;
      && FeatureVector(Unpack(s).value)[FeatureCount - 1] == 3.6
      && Render(Some(s), classify).Shown?
      && Render(Some(s), classify).closing == Sentence(0.8, Band("5.5-6"))
  {
  }
}
