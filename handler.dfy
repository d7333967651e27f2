/**
 * The decision logic of the `/detect_emotion` handler: facial signal, text
 * signal, fusion, mood and playlists, with the handler's three outcomes.
 */
module Handler {
  import opened Signals
  import opened DictMax
  import opened Text
  import opened Keywords
  import opened TextSignal
  import opened Facial
  import opened Fusion
  import opened Mood
  import opened Playlists

  /**
   * What the decision logic sees of one request. `facial` is the facial
   * classifier's answer (`None`: no image, or the facial analysis was
   * unavailable or failed); `text` is `data['text']` when present;
   * `textEmotions` is text2emotion's answer for that text (`None`: it
   * raised); `catalogConfigured` says whether a catalog client exists.
   */
  datatype Request = Request(
    facial: Option<Output>,
    text: Option<string>,
    textEmotions: Option<seq<(string, real)>>,
    catalogConfigured: bool)

  datatype Response =
    | Detected(
        emotion: string, mood: string, language: Language, playlists: PlaylistSource,
        finalMethod: Method, confidence: real,
        facialSignal: Option<Signal>, textSignal: Option<Signal>)
    | BadRequest(error: string)
    | ServerError  // an exception the handler does not catch

  /** A keyword table: labels with their keyword lists, in table order. */
  type KeywordTable = seq<(string, seq<string>)>

  /** What get_spotify_playlists returns for a mood, a language and whether a catalog client exists. */
  type PlaylistProvider = (string, Language, bool) -> PlaylistSource

  const TextErrorMessage: string := "Could not detect emotion from text. Please provide more descriptive text about your feelings."
  const TextFailedMessage: string := "Text analysis failed. Please try again."
  const NoEmotionMessage: string := "Could not detect emotion. Please try again with clearer input."

  /** The request carries text that is not blank: whitespace-only text counts as no text. */
  predicate HasText(req: Request) {
    req.text.Some? && Strip(req.text.value) != ""
  }

  /** The text the keyword scorer reads: lower-cased, then stripped. */
  function Normalised(raw: string): string {
    Strip(Lower(raw))
  }

  /** From the fused decision on: lower-cased emotion, mood, playlists. */
  function Conclude(facial: Option<Signal>, text: Option<Signal>, language: Option<Language>,
                    playlists: PlaylistProvider, online: bool): Response {
    match Fuse(facial, text)
    case None => BadRequest(NoEmotionMessage)
    case Some(d) =>
      if language.None? then ServerError
      else
        var mood := MoodOf(d.emotion);
        Detected(Lower(d.emotion), mood, language.value, playlists(mood, language.value, online),
                 d.finalMethod, d.confidence, facial, text)
  }

  /**
   * The text branch on non-blank text: the text signal with the language of
   * the normalised text, or the reason for the 400 response.
   */
  function TextOutcome(raw: string, tbl: KeywordTable, te: Option<seq<(string, real)>>)
    : Result<(Signal, Language), TextError>
  {
    var text := Normalised(raw);
    var lang := DetectLanguage(text);
    match SelectText(lang, ScoresOf(text, tbl), te)
    case Err(e) => Err(e)
    case Ok(t) => Ok((t, lang))
  }

  /** The `error` field of the text branch's 400 responses. */
  function ErrorMessage(e: TextError): string {
    match e
    case NoTextSignal => TextErrorMessage
    case AnalysisFailed => TextFailedMessage
  }

  /**
   * The handler, given the keyword table, the playlist source and the
   * language it uses when the request carries no text: `None` means
   * `language` was never assigned, so the playlist call raises when a facial
   * emotion was found.
   */
  function Respond(req: Request, tbl: KeywordTable, playlists: PlaylistProvider,
                   noTextLanguage: Option<Language>): Response {
    var facial := FacialSignal(req.facial);
    if !HasText(req) then
      Conclude(facial, None, noTextLanguage, playlists, req.catalogConfigured)
    else
      match TextOutcome(req.text.value, tbl, req.textEmotions)
      case Err(e) => BadRequest(ErrorMessage(e))
      case Ok((t, lang)) => Conclude(facial, Some(t), Some(lang), playlists, req.catalogConfigured)
  }

  /** `detect_emotion` as written: `language` is only assigned in the text branch. */
  function DetectEmotion(req: Request): Response {
    Respond(req, Table, GetPlaylists, None)
  }

  /** `detect_emotion` with `language` defaulting to `'en'`, the default of get_spotify_playlists. */
  function DetectEmotionDefaultEnglish(req: Request): Response {
    Respond(req, Table, GetPlaylists, Some(En))
  }

  /**
   * The fused decision as a response: the generic 400 without a signal, an
   * exception without a language, and otherwise the lower-cased winning
   * label with its mood, the winner's confidence (at least that of each
   * present signal) and the playlists of that mood and language.
   */
  lemma ConcludeOutcomes(facial: Option<Signal>, text: Option<Signal>, language: Option<Language>,
                         playlists: PlaylistProvider, online: bool)
    ensures var r := Conclude(facial, text, language, playlists, online);
      && (r == BadRequest(NoEmotionMessage) <==> !Present(facial) && !Present(text))
      && (r == ServerError <==> (Present(facial) || Present(text)) && language.None?)
      && ((Present(facial) || Present(text)) && language.Some? ==> r.Detected?)
    ensures var r := Conclude(facial, text, language, playlists, online);
      r.Detected? ==>
        && language == Some(r.language)
        && r.mood in Moods && r.mood == MoodOf(r.emotion)
        && (forall k :: 0 <= k < |r.emotion| ==> !IsUpperAscii(r.emotion[k]))
        && (Present(facial) ==> r.confidence >= facial.value.confidence)
        && (Present(text) ==> r.confidence >= text.value.confidence)
        && (!Present(facial) ==> r.finalMethod == Text && r.emotion == Lower(text.value.emotion)
                                 && r.confidence == text.value.confidence)
        && (!Present(text) ==> r.finalMethod == Facial && r.emotion == Lower(facial.value.emotion)
                               && r.confidence == facial.value.confidence)
        && r.playlists == playlists(r.mood, r.language, online)
        && r.facialSignal == facial && r.textSignal == text
    ensures var r := Conclude(facial, text, language, playlists, online);
      r.Detected? ==>
        && Fuse(facial, text).Some?
        && r.finalMethod == Fuse(facial, text).value.finalMethod
        && r.emotion == Lower(Fuse(facial, text).value.emotion)
        && r.confidence == Fuse(facial, text).value.confidence
  {
    var r := Conclude(facial, text, language, playlists, online);
    if r.Detected? {
      CaseInsensitive(Fuse(facial, text).value.emotion);
    }
  }

  /** The text branch yields the language of the raw text and the signal the selection policy picks. */
  lemma TextOutcomeSpec(raw: string, tbl: KeywordTable, te: Option<seq<(string, real)>>)
    ensures var sel := SelectText(DetectLanguage(raw), ScoresOf(Normalised(raw), tbl), te);
      && (TextOutcome(raw, tbl, te).Ok? <==> sel.Ok?)
      && (sel.Ok? ==> TextOutcome(raw, tbl, te).value == (sel.value, DetectLanguage(raw)))
      && (sel.Err? ==> TextOutcome(raw, tbl, te).error == sel.error)
  {
    LanguageOfNormalisedText(raw);
  }

  /** How Respond splits into the text branch and the fusion step. */
  lemma RespondCases(req: Request, tbl: KeywordTable, playlists: PlaylistProvider, noTextLanguage: Option<Language>)
    ensures !HasText(req) ==>
      Respond(req, tbl, playlists, noTextLanguage)
        == Conclude(FacialSignal(req.facial), None, noTextLanguage, playlists, req.catalogConfigured)
    ensures HasText(req) ==>
      var o := TextOutcome(req.text.value, tbl, req.textEmotions);
      && (o.Err? ==> Respond(req, tbl, playlists, noTextLanguage) == BadRequest(ErrorMessage(o.error)))
      && (o.Ok? ==> Respond(req, tbl, playlists, noTextLanguage)
                      == Conclude(FacialSignal(req.facial), Some(o.value.0), Some(o.value.1), playlists, req.catalogConfigured))
  {
  }

  /** Whitespace-only text is treated exactly like a request without text. */
  lemma BlankTextIsNoText(req: Request)
    requires req.text.Some? && forall k :: 0 <= k < |req.text.value| ==> IsSpace(req.text.value[k])
    ensures DetectEmotion(req) == DetectEmotion(req.(text := None))
  {
  }

  /** A request with neither a facial signal nor text is rejected with the generic 400. */
  lemma EmptyRequestIsRejected(req: Request)
    requires !Present(FacialSignal(req.facial)) && !HasText(req)
    ensures DetectEmotion(req) == BadRequest(NoEmotionMessage)
  {
  }

  /**
   * Text-path error, for any keyword table and playlist source: non-blank
   * text that yields no text signal ends the request with the text 400
   * before fusion, even when a facial emotion was found.
   */
  lemma TextErrorPrecedesFusionIn(req: Request, tbl: KeywordTable, playlists: PlaylistProvider,
                                  noTextLanguage: Option<Language>)
    requires HasText(req)
    ensures var sel := SelectText(DetectLanguage(req.text.value), ScoresOf(Normalised(req.text.value), tbl), req.textEmotions);
      sel.Err? ==> Respond(req, tbl, playlists, noTextLanguage) == BadRequest(ErrorMessage(sel.error))
  {
    RespondCases(req, tbl, playlists, noTextLanguage);
    TextOutcomeSpec(req.text.value, tbl, req.textEmotions);
  }

  /**
   * The same for the app's tables, case by case: Hindi text without a
   * keyword match, and English text whose classifier answer is all zero
   * without a keyword match, get the "more descriptive text" 400; English
   * text whose classifier raised gets the "analysis failed" 400.
   */
  lemma TextErrorPrecedesFusion(req: Request)
    requires HasText(req)
    ensures var text := Normalised(req.text.value);
      DetectLanguage(req.text.value) == Hi && KeywordScores(text) == [] ==>
        DetectEmotion(req) == BadRequest(TextErrorMessage)
    ensures var text := Normalised(req.text.value);
      DetectLanguage(req.text.value) == En && req.textEmotions.Some? && !AnyNonZero(req.textEmotions.value)
        && KeywordScores(text) == [] ==>
        DetectEmotion(req) == BadRequest(TextErrorMessage)
    ensures DetectLanguage(req.text.value) == En && req.textEmotions.None? ==>
        DetectEmotion(req) == BadRequest(TextFailedMessage)
  {
    var text := Normalised(req.text.value);
    var sel := SelectText(DetectLanguage(req.text.value), KeywordScores(text), req.textEmotions);
    TextErrorCases(DetectLanguage(req.text.value), KeywordScores(text), req.textEmotions);
    assert KeywordScores(text) == ScoresOf(text, Table);
    TextErrorPrecedesFusionIn(req, Table, GetPlaylists, None);
    if sel.Err? {
      assert DetectEmotion(req) == BadRequest(ErrorMessage(sel.error));
      assert sel.error == NoTextSignal ==> DetectEmotion(req) == BadRequest(TextErrorMessage);
      assert sel.error == AnalysisFailed ==> DetectEmotion(req) == BadRequest(TextFailedMessage);
    }
  }

  /**
   * Text-path success, for any keyword table and playlist source: when the
   * selection policy picks a signal with a non-empty label, the request gets
   * a 200 response carrying that signal and the language of the text,
   * whatever the facial signal.
   */
  lemma TextSignalIsDetectedIn(req: Request, tbl: KeywordTable, playlists: PlaylistProvider,
                               noTextLanguage: Option<Language>)
    requires HasText(req)
    requires var sel := SelectText(DetectLanguage(req.text.value), ScoresOf(Normalised(req.text.value), tbl), req.textEmotions);
      sel.Ok? && sel.value.emotion != ""
    ensures var sel := SelectText(DetectLanguage(req.text.value), ScoresOf(Normalised(req.text.value), tbl), req.textEmotions);
      var r := Respond(req, tbl, playlists, noTextLanguage);
      && r.Detected?
      && r.textSignal == Some(sel.value)
      && r.facialSignal == FacialSignal(req.facial)
      && r.language == DetectLanguage(req.text.value)
      && r.mood == MoodOf(r.emotion)
  {
    RespondCases(req, tbl, playlists, noTextLanguage);
    TextOutcomeSpec(req.text.value, tbl, req.textEmotions);
    var o := TextOutcome(req.text.value, tbl, req.textEmotions);
    ConcludeOutcomes(FacialSignal(req.facial), Some(o.value.0), Some(o.value.1), playlists, req.catalogConfigured);
  }

  /**
   * For any keyword table and playlist source whose kept labels are
   * non-empty, Hindi text with a keyword match is answered in Hindi with the
   * keyword winner as its text signal.
   */
  lemma HindiKeywordMatchIsDetectedIn(req: Request, tbl: KeywordTable, playlists: PlaylistProvider)
    requires HasText(req) && HasDevanagari(req.text.value)
    requires ScoresOf(Normalised(req.text.value), tbl) != []
    requires forall j :: 0 <= j < |ScoresOf(Normalised(req.text.value), tbl)| ==> ScoresOf(Normalised(req.text.value), tbl)[j].0 != ""
    ensures var r := Respond(req, tbl, playlists, None);
      && r.Detected?
      && r.language == Hi
      && r.textSignal == Some(KeywordSignal(ScoresOf(Normalised(req.text.value), tbl)))
  {
    var raw := req.text.value;
    var scores := ScoresOf(Normalised(raw), tbl);
    assert DetectLanguage(raw) == Hi;
    HindiUsesKeywordsOnly(scores, req.textEmotions, req.textEmotions);
    assert SelectText(DetectLanguage(raw), scores, req.textEmotions) == Ok(KeywordSignal(scores));
    var j :| 0 <= j < |scores| && scores[j] == KeywordBest(scores);
    assert KeywordSignal(scores).emotion == scores[j].0;
    TextSignalIsDetectedIn(req, tbl, playlists, None);
  }

  /** Hindi text with a keyword match is answered in Hindi with the keyword winner as its text signal. */
  lemma HindiKeywordMatchIsDetected(req: Request)
    requires HasText(req) && HasDevanagari(req.text.value)
    requires KeywordScores(Normalised(req.text.value)) != []
    ensures var r := DetectEmotion(req);
      && r.Detected?
      && r.language == Hi
      && r.textSignal == Some(KeywordSignal(KeywordScores(Normalised(req.text.value))))
  {
    KeywordLabelsNonEmpty(Normalised(req.text.value));
    HindiKeywordMatchIsDetectedIn(req, Table, GetPlaylists);
  }

  /**
   * English text without a keyword match whose classifier answer is non-zero
   * with a non-empty top label is answered in English with the classifier's
   * first maximal label and score as its text signal.
   */
  lemma EnglishClassifierMatchIsDetected(req: Request)
    requires HasText(req) && !HasDevanagari(req.text.value)
    requires req.textEmotions.Some? && AnyNonZero(req.textEmotions.value)
    requires ArgMax(req.textEmotions.value).0 != ""
    requires KeywordScores(Normalised(req.text.value)) == []
    ensures var r := DetectEmotion(req);
      && r.Detected?
      && r.language == En
      && r.textSignal == Some(Signal(ArgMax(req.textEmotions.value).0, ArgMax(req.textEmotions.value).1))
  {
    var raw := req.text.value;
    var text := Normalised(raw);
    var te := req.textEmotions.value;
    assert ScoresOf(text, Table) == [];
    assert DetectLanguage(raw) == En;
    assert SelectText(En, [], Some(te)) == Ok(Signal(ArgMax(te).0, ArgMax(te).1));
    TextSignalIsDetectedIn(req, Table, GetPlaylists, None);
  }

  /**
   * For any keyword table and playlist source, Hindi text never consults
   * text2emotion: its answer, even a failure, changes nothing, and a
   * detected response is Hindi.
   */
  lemma HindiIgnoresClassifierIn(req: Request, tbl: KeywordTable, playlists: PlaylistProvider,
                                 noTextLanguage: Option<Language>, other: Option<seq<(string, real)>>)
    requires HasText(req) && HasDevanagari(req.text.value)
    ensures Respond(req, tbl, playlists, noTextLanguage) == Respond(req.(textEmotions := other), tbl, playlists, noTextLanguage)
    ensures Respond(req, tbl, playlists, noTextLanguage).Detected? ==> Respond(req, tbl, playlists, noTextLanguage).language == Hi
  {
    var raw := req.text.value;
    var req2 := req.(textEmotions := other);
    RespondCases(req, tbl, playlists, noTextLanguage);
    RespondCases(req2, tbl, playlists, noTextLanguage);
    TextOutcomeSpec(raw, tbl, req.textEmotions);
    TextOutcomeSpec(raw, tbl, other);
    HindiUsesKeywordsOnly(ScoresOf(Normalised(raw), tbl), req.textEmotions, other);
    var o := TextOutcome(raw, tbl, req.textEmotions);
    if o.Ok? {
      ConcludeOutcomes(FacialSignal(req.facial), Some(o.value.0), Some(o.value.1), playlists, req.catalogConfigured);
    }
  }

  /** The same for the app's tables. */
  lemma HindiIgnoresClassifier(req: Request, other: Option<seq<(string, real)>>)
    requires HasText(req) && HasDevanagari(req.text.value)
    ensures DetectEmotion(req) == DetectEmotion(req.(textEmotions := other))
    ensures DetectEmotion(req).Detected? ==> DetectEmotion(req).language == Hi
  {
    HindiIgnoresClassifierIn(req, Table, GetPlaylists, None, other);
  }

  /**
   * A detected response, for any keyword table and playlist source: it came
   * from non-blank text; its language is that of the text; its emotion is
   * lower-case and its mood is one of the eight moods; its confidence is at
   * least that of each present signal; its playlists are those of its mood
   * and language.
   */
  lemma DetectedResponseIn(req: Request, tbl: KeywordTable, playlists: PlaylistProvider)
    requires Respond(req, tbl, playlists, None).Detected?
    ensures HasText(req)
    ensures var r := Respond(req, tbl, playlists, None);
      && r.language == DetectLanguage(req.text.value)
      && r.language.Code() == (if HasDevanagari(req.text.value) then "hi" else "en")
      && r.mood in Moods
      && r.mood == MoodOf(r.emotion)
      && (forall k :: 0 <= k < |r.emotion| ==> !IsUpperAscii(r.emotion[k]))
      && r.textSignal.Some?
      && (Present(r.textSignal) ==> r.confidence >= r.textSignal.value.confidence)
      && (Present(r.facialSignal) ==> r.confidence >= r.facialSignal.value.confidence)
      && r.playlists == playlists(r.mood, r.language, req.catalogConfigured)
  {
    RespondCases(req, tbl, playlists, None);
    var f := FacialSignal(req.facial);
    if !HasText(req) {
      ConcludeOutcomes(f, None, None, playlists, req.catalogConfigured);
      assert false;
    }
    var o := TextOutcome(req.text.value, tbl, req.textEmotions);
    assert o.Ok?;
    TextOutcomeSpec(req.text.value, tbl, req.textEmotions);
    assert Respond(req, tbl, playlists, None) == Conclude(f, Some(o.value.0), Some(o.value.1), playlists, req.catalogConfigured);
    ConcludeOutcomes(f, Some(o.value.0), Some(o.value.1), playlists, req.catalogConfigured);
  }

  /** The same for the app's tables; offline the response carries three complete playlists. */
  lemma DetectedResponse(req: Request)
    requires DetectEmotion(req).Detected?
    ensures HasText(req)
    ensures var r := DetectEmotion(req);
      && r.language == DetectLanguage(req.text.value)
      && r.mood in Moods
      && r.mood == MoodOf(r.emotion)
      && (forall k :: 0 <= k < |r.emotion| ==> !IsUpperAscii(r.emotion[k]))
      && r.textSignal.Some?
      && (Present(r.textSignal) ==> r.confidence >= r.textSignal.value.confidence)
      && (Present(r.facialSignal) ==> r.confidence >= r.facialSignal.value.confidence)
      && (!req.catalogConfigured ==> r.playlists.Static? && WellFormedList(r.playlists.playlists))
  {
    DetectedResponseIn(req, Table, GetPlaylists);
    var r := DetectEmotion(req);
    OfflineAlwaysThree(r.mood, r.language);
  }

  /**
   * For any keyword table and playlist source, without a facial signal the
   * text signal decides, under the method `text`.
   */
  lemma TextOnlyUsesTextIn(req: Request, tbl: KeywordTable, playlists: PlaylistProvider,
                           noTextLanguage: Option<Language>)
    requires !Present(FacialSignal(req.facial))
    requires Respond(req, tbl, playlists, noTextLanguage).Detected?
    ensures var r := Respond(req, tbl, playlists, noTextLanguage);
      && r.finalMethod == Text
      && r.textSignal.Some?
      && r.confidence == r.textSignal.value.confidence
      && r.emotion == Lower(r.textSignal.value.emotion)
  {
    RespondCases(req, tbl, playlists, noTextLanguage);
    var f := FacialSignal(req.facial);
    if !HasText(req) {
      ConcludeOutcomes(f, None, noTextLanguage, playlists, req.catalogConfigured);
    } else {
      var o := TextOutcome(req.text.value, tbl, req.textEmotions);
      if o.Ok? {
        ConcludeOutcomes(f, Some(o.value.0), Some(o.value.1), playlists, req.catalogConfigured);
      }
    }
  }

  /** The same for the app's tables. */
  lemma TextOnlyUsesText(req: Request)
    requires !Present(FacialSignal(req.facial))
    requires DetectEmotion(req).Detected?
    ensures var r := DetectEmotion(req);
      && r.finalMethod == Text
      && r.textSignal.Some?
      && r.confidence == r.textSignal.value.confidence
      && r.emotion == Lower(r.textSignal.value.emotion)
  {
    TextOnlyUsesTextIn(req, Table, GetPlaylists, None);
  }

  /** As written, a request whose only signal is the face fails with an uncaught exception. */
  lemma ImageOnlyRequestFails(req: Request)
    requires Present(FacialSignal(req.facial)) && !HasText(req)
    ensures DetectEmotion(req) == ServerError
  {
  }

  /**
   * With `language` defaulting to `'en'`, the same request succeeds with the
   * lower-cased facial emotion, its confidence and the method `facial`.
   */
  lemma ImageOnlyRequestSucceedsWithDefault(req: Request)
    requires Present(FacialSignal(req.facial)) && !HasText(req)
    ensures var r := DetectEmotionDefaultEnglish(req);
      && r.Detected?
      && r.language == En
      && r.finalMethod == Facial
      && r.emotion == Lower(FacialSignal(req.facial).value.emotion)
      && r.confidence == FacialSignal(req.facial).value.confidence
  {
  }

  /** The two handlers differ only on requests without text. */
  lemma DefaultOnlyAffectsNoText(req: Request)
    requires HasText(req)
    ensures DetectEmotionDefaultEnglish(req) == DetectEmotion(req)
  {
  }
}
