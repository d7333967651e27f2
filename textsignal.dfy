/**
 * The text path of the handler: the keyword winner, and the policy that
 * picks between it and the external English classifier (text2emotion).
 */
module TextSignal {
  import opened Signals
  import opened DictMax
  import opened Keywords

  /** Why the text path returns its 400 response. */
  datatype TextError =
    | NoTextSignal    // neither the classifier nor the keywords gave anything
    | AnalysisFailed  // the classifier raised; caught by the handler's `except`

  /** Keyword counts read as the dict values `max` compares. */
  function AsReal(scores: seq<(string, nat)>): (r: seq<(string, real)>)
    ensures |r| == |scores|
    ensures forall j :: 0 <= j < |r| ==> r[j].0 == scores[j].0 && r[j].1 == scores[j].1 as real
  {
    seq(|scores|, j requires 0 <= j < |scores| => (scores[j].0, scores[j].1 as real))
  }

  /** The first kept label of maximal score, together with its score. */
  function KeywordBest(scores: seq<(string, nat)>): (e: (string, nat))
    requires |scores| > 0
    ensures e in scores
    ensures forall j :: 0 <= j < |scores| ==> scores[j].1 <= e.1
  {
    scores[ArgMaxIndex(AsReal(scores))]
  }

  /** The keyword winner as a signal, with confidence `min(score / 5.0, 1.0)`. */
  function KeywordSignal(scores: seq<(string, nat)>): Signal
    requires |scores| > 0
  {
    Signal(KeywordBest(scores).0, KeywordConfidence(KeywordBest(scores).1))
  }

  /** Some classifier score is non-zero (this also makes the answer non-empty). */
  predicate AnyNonZero(te: seq<(string, real)>) {
    exists j :: 0 <= j < |te| && te[j].1 != 0.0
  }

  /**
   * The text signal of the handler, from the language, the keyword scores
   * and the classifier's answer (`None` when `te.get_emotion` raised).
   * Hindi uses the keywords only; English prefers the classifier unless the
   * keywords are strong (score at least 2) or the classifier is weak (its
   * best score under 0.3), and falls back to the keywords when every
   * classifier score is zero.
   */
  function SelectText(lang: Language, scores: seq<(string, nat)>, te: Option<seq<(string, real)>>)
    : Result<Signal, TextError>
  {
    match lang
    case Hi =>
      if scores != [] then Ok(KeywordSignal(scores)) else Err(NoTextSignal)
    case En =>
      if te.None? then Err(AnalysisFailed)
      else if AnyNonZero(te.value) then
        var (teEmotion, teScore) := ArgMax(te.value);
        if scores != [] then
          var keywordScore := KeywordBest(scores).1;
          if keywordScore >= 2 || (keywordScore > 0 && teScore < 0.3) then Ok(KeywordSignal(scores))
          else Ok(Signal(teEmotion, teScore))
        else Ok(Signal(teEmotion, teScore))
      else if scores != [] then Ok(KeywordSignal(scores))
      else Err(NoTextSignal)
  }

  /** The keyword winner over any table with distinct labels: a first maximal row in table order. */
  lemma WinnerIsFirstMaximalRowIn(text: string, tbl: seq<(string, seq<string>)>, t: nat)
    requires DistinctLabels(tbl) && ScoresOf(text, tbl) != [] && t < |tbl|
    ensures var w := RowOf(KeywordBest(ScoresOf(text, tbl)).0, tbl);
      && w < |tbl|
      && KeywordBest(ScoresOf(text, tbl)).1 == Count(text, tbl[w].1)
      && Count(text, tbl[t].1) <= KeywordBest(ScoresOf(text, tbl)).1
      && (t < w ==> Count(text, tbl[t].1) < KeywordBest(ScoresOf(text, tbl)).1)
  {
    var r := ScoresOf(text, tbl);
    var o := Origin(text, tbl);
    OriginSpec(text, tbl);
    OriginRows(text, tbl);
    ScoresLabelsIn(text, tbl);
    var a := AsReal(r);
    var i := ArgMaxIndex(a);
    assert KeywordBest(r) == r[i];
    assert RowOf(r[i].0, tbl) == o[i];
    var c := Count(text, tbl[t].1);
    if c > 0 {
      var j :| 0 <= j < |o| && o[j] == t;
      assert r[j].1 == c;
      assert a[j].1 <= a[i].1;
      if t < o[i] {
        assert j < i;
        assert a[j].1 < a[i].1;
      }
    }
  }

  /**
   * Keyword winner: the winner's row has the largest count of the table, and
   * every earlier row (in the order happy, sad, angry, fear, surprise,
   * neutral) has a strictly smaller one.
   */
  lemma KeywordWinnerIsFirstMaximalRow(text: string, t: nat)
    requires KeywordScores(text) != [] && t < |Table|
    ensures var w := RowOf(KeywordBest(KeywordScores(text)).0, Table);
      && w < |Table|
      && KeywordBest(KeywordScores(text)).1 == Count(text, Table[w].1)
      && Count(text, Table[t].1) <= KeywordBest(KeywordScores(text)).1
      && (t < w ==> Count(text, Table[t].1) < KeywordBest(KeywordScores(text)).1)
  {
    TableWellFormed();
    WinnerIsFirstMaximalRowIn(text, Table, t);
  }

  /** The keyword winner's confidence is `min(score / 5, 1)` of a positive score, so it lies in (0, 1]. */
  lemma KeywordConfidenceInRange(text: string)
    requires KeywordScores(text) != []
    ensures var s := KeywordSignal(KeywordScores(text));
      && s.confidence == Min(KeywordBest(KeywordScores(text)).1 as real / 5.0, 1.0)
      && 0.0 < s.confidence <= 1.0
  {
    assert KeywordBest(KeywordScores(text)).1 > 0;
  }

  /**
   * Text-path error: the policy finds no signal exactly for Hindi text with no
   * keyword match, for English text whose classifier raised, and for English
   * text with an all-zero classifier answer and no keyword match.
   */
  lemma TextErrorCases(lang: Language, scores: seq<(string, nat)>, te: Option<seq<(string, real)>>)
    ensures SelectText(lang, scores, te) == Err(AnalysisFailed) <==> lang == En && te.None?
    ensures SelectText(lang, scores, te) == Err(NoTextSignal) <==>
      || (lang == Hi && scores == [])
      || (lang == En && te.Some? && !AnyNonZero(te.value) && scores == [])
  {
  }

  /** Hindi text uses the keywords only: the classifier's answer, even a failure, changes nothing. */
  lemma HindiUsesKeywordsOnly(scores: seq<(string, nat)>, te1: Option<seq<(string, real)>>, te2: Option<seq<(string, real)>>)
    ensures SelectText(Hi, scores, te1) == SelectText(Hi, scores, te2)
    ensures scores != [] ==> SelectText(Hi, scores, te1) == Ok(KeywordSignal(scores))
  {
  }

  /** English, classifier non-zero: strong keywords (score at least 2) or a weak classifier (under 0.3) select the keyword winner. */
  lemma KeywordsOverrideClassifier(scores: seq<(string, nat)>, te: seq<(string, real)>)
    requires AnyNonZero(te) && scores != []
    requires forall j :: 0 <= j < |scores| ==> scores[j].1 > 0
    requires KeywordBest(scores).1 >= 2 || ArgMax(te).1 < 0.3
    ensures SelectText(En, scores, Some(te)) == Ok(KeywordSignal(scores))
  {
  }

  /**
   * English, classifier non-zero, and either no keyword match or a single
   * keyword against a classifier score of at least 0.3: the classifier's
   * first maximal label wins, with its score as the confidence.
   */
  lemma ClassifierWins(scores: seq<(string, nat)>, te: seq<(string, real)>)
    requires AnyNonZero(te)
    requires scores == [] || (KeywordBest(scores).1 < 2 && ArgMax(te).1 >= 0.3)
    ensures SelectText(En, scores, Some(te)).Ok?
    ensures var s := SelectText(En, scores, Some(te)).value;
      && IsFirstMax(te, ArgMaxIndex(te))
      && s == Signal(te[ArgMaxIndex(te)].0, te[ArgMaxIndex(te)].1)
      && (forall j :: 0 <= j < |te| ==> te[j].1 <= s.confidence)
  {
  }

  /** English with an all-zero (or empty) classifier answer falls back to the keyword winner. */
  lemma AllZeroFallsBackToKeywords(scores: seq<(string, nat)>, te: seq<(string, real)>)
    requires !AnyNonZero(te) && scores != []
    ensures SelectText(En, scores, Some(te)) == Ok(KeywordSignal(scores))
  {
  }

  /**
   * When the classifier's scores lie in [0, 1], as text2emotion's do, and the
   * keyword counts are the positive counts the scorer keeps, every text signal
   * has a confidence in (0, 1].
   */
  lemma TextConfidenceInRange(lang: Language, scores: seq<(string, nat)>, te: Option<seq<(string, real)>>)
    requires forall j :: 0 <= j < |scores| ==> scores[j].1 > 0
    requires te.Some? ==> forall j :: 0 <= j < |te.value| ==> 0.0 <= te.value[j].1 <= 1.0
    requires SelectText(lang, scores, te).Ok?
    ensures 0.0 < SelectText(lang, scores, te).value.confidence <= 1.0
  {
    if lang == En && AnyNonZero(te.value) {
      var j :| 0 <= j < |te.value| && te.value[j].1 != 0.0;
      assert 0.0 < te.value[j].1 <= ArgMax(te.value).1;
    }
    if scores != [] {
      assert KeywordBest(scores).1 > 0;
    }
  }
}
