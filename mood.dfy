/** The `emotion_to_mood` table and its lookup with the `'chill'` default. */
module Mood {
  import opened Text

  /** `emotion_to_mood`. */
  const EmotionToMood: map<string, string> := map[
    "happy" := "happy",
    "sad" := "sad",
    "angry" := "energetic",
    "fear" := "calm",
    "surprise" := "excited",
    "neutral" := "chill",
    "disgust" := "dark",
    "joy" := "happy",
    "anticipation" := "excited",
    "trust" := "calm",
    "positive" := "happy",
    "negative" := "sad",
    "worry" := "calm",
    "love" := "romantic"
  ]

  /** The fourteen emotion labels the table knows. */
  const EmotionVocabulary: set<string> := {
    "happy", "sad", "angry", "fear", "surprise", "neutral", "disgust",
    "joy", "anticipation", "trust", "positive", "negative", "worry", "love"
  }

  /** The eight mood buckets. */
  const Moods: set<string> := {"happy", "sad", "energetic", "calm", "excited", "chill", "dark", "romantic"}

  /** The mood of a label: the table entry of its lower-cased form, or `chill` when there is none. */
  function MoodOf(emotion: string): (mood: string)
    ensures mood in Moods
  {
    var e := Lower(emotion);
    if e in EmotionToMood then EmotionToMood[e] else "chill"
  }

  /** The table is keyed by exactly the fourteen labels and reaches every one of the eight moods. */
  lemma TableCoversVocabularies()
    ensures EmotionToMood.Keys == EmotionVocabulary
    ensures EmotionToMood.Values == Moods
  {
    assert EmotionToMood["happy"] == "happy" && EmotionToMood["sad"] == "sad";
    assert EmotionToMood["angry"] == "energetic" && EmotionToMood["fear"] == "calm";
    assert EmotionToMood["surprise"] == "excited" && EmotionToMood["neutral"] == "chill";
    assert EmotionToMood["disgust"] == "dark" && EmotionToMood["love"] == "romantic";
  }

  /** A label outside the vocabulary (after lower-casing) maps to `chill`. */
  lemma UnknownIsChill(emotion: string)
    requires Lower(emotion) !in EmotionVocabulary
    ensures MoodOf(emotion) == "chill"
  {
    TableCoversVocabularies();
  }

  /** `chill` comes from `neutral` and from unknown labels, and from nothing else. */
  lemma ChillExactly(emotion: string)
    ensures MoodOf(emotion) == "chill" <==> Lower(emotion) == "neutral" || Lower(emotion) !in EmotionVocabulary
  {
    TableCoversVocabularies();
  }

  /** `romantic` comes from `love` only, `dark` from `disgust` only. */
  lemma SingleSourceMoods(emotion: string)
    ensures MoodOf(emotion) == "romantic" <==> Lower(emotion) == "love"
    ensures MoodOf(emotion) == "dark" <==> Lower(emotion) == "disgust"
  {
    TableCoversVocabularies();
  }

  /** The lookup ignores ASCII case: the label and its lower-cased form get the same mood. */
  lemma CaseInsensitive(emotion: string)
    ensures MoodOf(Lower(emotion)) == MoodOf(emotion)
  {
    LowerIdempotent(emotion);
  }
}
