/**
 * The facial path of the handler, from the classifier's answer on: the
 * argmax of its label-to-score map, the percentage heuristic that brings the
 * score into [0, 1], and the fallback to `dominant_emotion`.
 */
module Facial {
  import opened Signals
  import opened DictMax

  /** One analysis result: a dict with an optional `emotion` score map and an optional `dominant_emotion`, or a non-dict. */
  datatype Analysis =
    | AnalysisDict(emotion: Option<seq<(string, real)>>, dominantEmotion: Option<string>)
    | NotADict

  /** `DeepFace.analyze` returns one result or a list of results. */
  datatype Output = Single(result: Analysis) | Many(results: seq<Analysis>)

  /** Scores above 1.0 are read as percentages. */
  function Normalise(best: real): (c: real)
    ensures best > 1.0 ==> c * 100.0 == best
    ensures best <= 1.0 ==> c == best
  {
    if best > 1.0 then best / 100.0 else best
  }

  /** The facial signal of one analysis result. */
  function FromAnalysis(res: Analysis): Option<Signal> {
    match res
    case NotADict => None
    case AnalysisDict(emotion, dominant) =>
      if emotion.Some? && emotion.value != [] then
        // max(emotions_dict.values()) is the score of the argmax entry
        var (top, best) := ArgMax(emotion.value);
        Some(Signal(top, Normalise(best)))
      else if dominant.Some? then
        Some(Signal(dominant.value, 0.0))
      else
        None
  }

  /** The analysis result the image branch reads: the single result, or the first of a list. */
  function AnalysisOf(out: Option<Output>): Option<Analysis> {
    match out
    case None => None
    case Some(Single(res)) => Some(res)
    case Some(Many(results)) => if results == [] then None else Some(results[0])
  }

  /**
   * `facial_emotion` and `facial_confidence` after the image branch. `None`
   * stands for no image, DeepFace missing, an undecodable image or an
   * exception in the analysis; an empty result list raises IndexError, which
   * the branch catches.
   */
  function FacialSignal(out: Option<Output>): Option<Signal> {
    var a := AnalysisOf(out);
    if a.Some? then FromAnalysis(a.value) else None
  }

  /**
   * With a non-empty score map the facial label is the first maximal entry
   * and its confidence is the maximal score, divided by 100 when it exceeds 1.
   */
  lemma FacialIsFirstMaximum(scores: seq<(string, real)>, dominant: Option<string>)
    requires scores != []
    ensures var s := FromAnalysis(AnalysisDict(Some(scores), dominant));
      && s.Some?
      && IsFirstMax(scores, ArgMaxIndex(scores))
      && s.value.emotion == scores[ArgMaxIndex(scores)].0
      && (forall j :: 0 <= j < |scores| ==> scores[j].1 <= scores[ArgMaxIndex(scores)].1)
      && s.value.confidence == Normalise(scores[ArgMaxIndex(scores)].1)
  {
  }

  /** Without a usable score map the label falls back to `dominant_emotion`, with confidence 0. */
  lemma FallbackToDominant(scores: Option<seq<(string, real)>>, dominant: string)
    requires scores.None? || scores == Some([])
    ensures FromAnalysis(AnalysisDict(scores, Some(dominant))) == Some(Signal(dominant, 0.0))
  {
  }

  /** Raw scores on either scale, 0 to 1 or 0 to 100, give a confidence in [0, 1]. */
  lemma ConfidenceInUnitRange(out: Option<Output>)
    requires var a := AnalysisOf(out);
      a.Some? && a.value.AnalysisDict? && a.value.emotion.Some? ==>
        forall j :: 0 <= j < |a.value.emotion.value| ==> 0.0 <= a.value.emotion.value[j].1 <= 100.0
    ensures FacialSignal(out).Some? ==> 0.0 <= FacialSignal(out).value.confidence <= 1.0
  {
    var a := AnalysisOf(out);
    if a.Some? && a.value.AnalysisDict? && a.value.emotion.Some? && a.value.emotion.value != [] {
      var scores := a.value.emotion.value;
      assert 0.0 <= scores[ArgMaxIndex(scores)].1 <= 100.0;
    }
  }

  /** Multiplies every score by `c`. */
  function Scale(scores: seq<(string, real)>, c: real): (r: seq<(string, real)>)
    ensures |r| == |scores|
    ensures forall j :: 0 <= j < |r| ==> r[j].0 == scores[j].0 && r[j].1 == scores[j].1 * c
  {
    seq(|scores|, j requires 0 <= j < |scores| => (scores[j].0, scores[j].1 * c))
  }

  /**
   * The percentage heuristic makes the two scales agree: a map whose best
   * score lies in (0.01, 1] and the same map in percent give the same signal.
   */
  lemma PercentScaleAgrees(scores: seq<(string, real)>, dominant: Option<string>)
    requires scores != []
    requires 0.01 < ArgMax(scores).1 <= 1.0
    ensures FromAnalysis(AnalysisDict(Some(Scale(scores, 100.0)), dominant))
         == FromAnalysis(AnalysisDict(Some(scores), dominant))
  {
    var p := Scale(scores, 100.0);
    var i := ArgMaxIndex(scores);
    assert IsFirstMax(p, i);
    ArgMaxIndexIsFirstMax(p, i);
  }
}
