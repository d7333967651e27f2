/**
 * The fusion of the facial and the text signal: the more confident signal
 * wins, the facial one on a tie, and the method names which signal decided.
 */
module Fusion {
  import opened Signals

  datatype Method = Facial | Text | Combined {
    function Name(): string {
      match this
      case Facial => "facial"
      case Text => "text"
      case Combined => "combined"
    }
  }

  /** `final_emotion`, `confidence` and `final_method`. */
  datatype Decision = Decision(emotion: string, confidence: real, finalMethod: Method)

  /** The handler's if/elif chain; `None` is the "could not detect emotion" case. */
  function Fuse(facial: Option<Signal>, text: Option<Signal>): Option<Decision> {
    if Present(facial) && Present(text) then
      var f, t := facial.value, text.value;
      if f.confidence >= t.confidence then
        Some(Decision(f.emotion, f.confidence, if f.confidence > t.confidence then Facial else Combined))
      else
        Some(Decision(t.emotion, t.confidence, if t.confidence > f.confidence then Text else Combined))
    else if Present(facial) then
      Some(Decision(facial.value.emotion, facial.value.confidence, Facial))
    else if Present(text) then
      Some(Decision(text.value.emotion, text.value.confidence, Text))
    else
      None
  }

  /** Neither signal present: no decision. */
  lemma NoSignalNoDecision(facial: Option<Signal>, text: Option<Signal>)
    ensures Fuse(facial, text).None? <==> !Present(facial) && !Present(text)
  {
  }

  /** One signal present: it is returned as it is, under its own method name. */
  lemma OneSignalPassesThrough(facial: Option<Signal>, text: Option<Signal>)
    ensures Present(facial) && !Present(text) ==>
      Fuse(facial, text) == Some(Decision(facial.value.emotion, facial.value.confidence, Facial))
    ensures !Present(facial) && Present(text) ==>
      Fuse(facial, text) == Some(Decision(text.value.emotion, text.value.confidence, Text))
  {
  }

  /**
   * Both signals present: the decision has the larger confidence; facial wins
   * when its confidence is at least the text's; the method is `facial` when
   * the facial confidence is strictly greater, `combined` exactly on a tie,
   * and `text` exactly when the text confidence is strictly greater.
   */
  lemma BothSignalsArbitration(f: Signal, t: Signal)
    requires f.emotion != "" && t.emotion != ""
    ensures var d := Fuse(Some(f), Some(t));
      && d.Some?
      && d.value.confidence >= f.confidence && d.value.confidence >= t.confidence
      && (d.value.confidence == f.confidence || d.value.confidence == t.confidence)
      && d.value.emotion == (if f.confidence >= t.confidence then f.emotion else t.emotion)
      && (d.value.finalMethod == Facial <==> f.confidence > t.confidence)
      && (d.value.finalMethod == Combined <==> f.confidence == t.confidence)
      && (d.value.finalMethod == Text <==> t.confidence > f.confidence)
      && d.value.finalMethod.Name() == (if f.confidence > t.confidence then "facial"
                                        else if f.confidence == t.confidence then "combined" else "text")
  {
  }

  /** The `combined` of the text branch cannot be reached: when text wins, the method is `text`. */
  lemma TextBranchNeverCombined(f: Signal, t: Signal)
    requires f.emotion != "" && t.emotion != ""
    requires Fuse(Some(f), Some(t)).value.finalMethod == Combined
    ensures Fuse(Some(f), Some(t)).value.emotion == f.emotion
  {
  }
}
