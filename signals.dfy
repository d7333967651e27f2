/** Values shared by every stage of the emotion pipeline. */
module Signals {

  datatype Option<+T> = None | Some(value: T)

  datatype Result<+T, +E> = Ok(value: T) | Err(error: E)

  /** The two languages the handler distinguishes, `'en'` and `'hi'`. */
  datatype Language = En | Hi {
    function Code(): string {
      match this
      case En => "en"
      case Hi => "hi"
    }
  }

  /** One detection modality's answer: an emotion label and its confidence. */
  datatype Signal = Signal(emotion: string, confidence: real)

  /** Python truthiness of `facial_emotion` / `text_emotion`: `None` and `''` are both false. */
  predicate Present(s: Option<Signal>) {
    s.Some? && s.value.emotion != ""
  }

  function Min(a: real, b: real): (m: real)
    ensures m <= a && m <= b && (m == a || m == b)
  {
    if a <= b then a else b
  }

  /** `min(score / 5.0, 1.0)`: how a keyword count becomes a confidence. */
  function KeywordConfidence(score: nat): (c: real)
    ensures score > 0 ==> 0.0 < c <= 1.0
    ensures score >= 5 <==> c == 1.0
    ensures score < 5 ==> c * 5.0 == score as real
  {
    Min(score as real / 5.0, 1.0)
  }
}
