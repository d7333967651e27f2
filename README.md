# Emotion-to-music decision logic

This project models the decision pipeline of the `/detect_emotion` endpoint of
the music-recommendation app (`music-recommendation/app.py`). The endpoint
takes an optional face image and an optional text. It derives one emotion
label from each, fuses the two into a single label with a confidence and a
method name (`facial`, `text` or `combined`), maps the label to one of eight
moods, and returns playlists for that mood and the text's language.

The model covers:

- **Facial signal** (`Facial`): the facial classifier's answer is an input.
  The model takes its first maximal label. It reads scores above 1.0 as
  percentages. Without a score map it falls back to `dominant_emotion`.
- **Text preparation** (`Text`): `lower()` (ASCII letters only), `strip()`
  (Python's whitespace set), substring containment, and
  the Devanagari test that yields the language.
- **Keyword scoring** (`Keywords`): the six-row keyword table, and the loop
  that fills `emotion_scores` in table order. It is modelled both as a method
  and as the function that specifies that method.
- **Text selection policy** (`TextSignal`): Hindi text uses the keywords
  only. English text weighs the text2emotion classifier's answer (an input)
  against the keyword winner. Both languages have error outcomes.
- **Fusion** (`Fusion`): the more confident signal wins; on a tie the facial
  one wins. The method name records which signal decided, and `combined`
  marks an exact tie.
- **Mood mapping** (`Mood`): the 14-entry `emotion_to_mood` table, with
  `chill` as the default.
- **Playlists** (`Playlists`): the static Hindi and English tables
  used when no catalog client is configured, and the search-term choice used
  when one is.
- **The handler** (`Handler`): the whole decision. Its outcomes are a 200
  response, each of the three 400 responses, or the uncaught exception an
  image-only request runs into.

Python's `max(d, key=d.get)` returns the first key of maximal value in
insertion order. Dicts are therefore modelled as sequences of (key, value)
pairs in insertion order. Scores and confidences are exact `real`s.

Some behaviour of the code is easy to misread, and the model follows the code:

- **Keyword table**: there is one keyword table, and every label's list
  mixes English and Devanagari keywords. The same table scores all text,
  whatever its language.
- **Keyword score**: a label's score is how many of its keywords occur at
  least once, not how often they occur (`Keywords.CountIsDistinctMatches`).
- **Online playlists**: with a catalog client, the search uses the mood's
  first term alone, so both languages get the same query
  (`Playlists.OnlineIgnoresLanguage`).
- **Image-only requests**: a request with a detected face and no text does
  not get a 400. It fails with an uncaught exception before any response is
  built (see Findings).

## Model

| member | source | states |
|---|---|---|
| Signals.KeywordConfidence | music-recommendation/app.py:135 | `min(score / 5, 1)` lies in (0, 1] for a positive score. It is 1 exactly when the score is at least 5, and score/5 below that |
| DictMax.ArgMaxIndex | music-recommendation/app.py:87 | `max(d, key=d.get)`: an index whose score is at least every score, and strictly greater than every earlier score |
| DictMax.ArgMax | music-recommendation/app.py:145-146 | the entry `max` returns is in the dict and its score bounds all scores |
| DictMax.FirstMaxUnique | music-recommendation/app.py:134 | at most one position is the first maximal one, so the tie-break is deterministic |
| DictMax.ArgMaxIndexIsFirstMax | music-recommendation/app.py:134 | a position is the first maximal one if and only if it is ArgMaxIndex |
| Text.Strip | music-recommendation/app.py:106-108 | `strip()` is a contiguous slice with only whitespace around it and no whitespace at either end. It is empty exactly when the text is whitespace only |
| Text.Lower | music-recommendation/app.py:108 | `lower()` keeps the length, turns each of A-Z into its small letter, keeps every other character, and so leaves no ASCII capital and keeps whitespace where it was |
| Text.LowerIdempotent | music-recommendation/app.py:203 | lower-casing an already lower-cased text changes nothing |
| Text.StripLowerBlank | music-recommendation/app.py:106-108 | the blank test on the raw text and the stripped, lower-cased text agree |
| Text.Occurs | music-recommendation/app.py:123 | `keyword in text` holds exactly when the keyword occurs at some position of the text |
| Text.HasDevanagari | music-recommendation/app.py:128 | the regular-expression search succeeds exactly when some character lies in U+0900..U+097F |
| Text.DetectLanguage | music-recommendation/app.py:128-129 | `hi` exactly when some character is Devanagari; `en` exactly when none is |
| Text.LanguageOfLower | music-recommendation/app.py:108-129 | lower-casing does not change the detected language |
| Text.LanguageOfStrip | music-recommendation/app.py:108-129 | stripping does not change the detected language |
| Text.LanguageOfNormalisedText | music-recommendation/app.py:108-129 | the language of the lower-cased, stripped text is the language of the raw text |
| Keywords.HappyKeywordsWellFormed | music-recommendation/app.py:112 | the happy list has no repeated and no empty keyword |
| Keywords.SadKeywordsWellFormed | music-recommendation/app.py:113 | the sad list has no repeated and no empty keyword |
| Keywords.AngryKeywordsWellFormed | music-recommendation/app.py:114 | the angry list has no repeated and no empty keyword |
| Keywords.OtherKeywordsWellFormed | music-recommendation/app.py:115-117 | the fear, surprise and neutral lists have no repeated and no empty keyword |
| Keywords.TableWellFormed | music-recommendation/app.py:111-118 | the table has six rows with distinct labels, and each row's list is free of repeats and empty keywords |
| Keywords.Count | music-recommendation/app.py:123 | the score is at most the list's length. It is 0 exactly when no keyword occurs, and the full length exactly when all occur |
| Keywords.CountIsDistinctMatches | music-recommendation/app.py:123 | on a list without repeats, the score is the number of distinct keywords that occur in the text |
| Keywords.ScoresOf | music-recommendation/app.py:121-125 | `emotion_scores` has at most one entry per row, and every entry has a positive score |
| Keywords.OriginRows | music-recommendation/app.py:121-125 | the kept entries come from table rows in strictly increasing row order, and every row with a positive score is kept |
| Keywords.OriginSpec | music-recommendation/app.py:121-125 | each kept entry is its row's label paired with its row's score |
| Keywords.ScoreKeywords | music-recommendation/app.py:121-125 | the scoring loop fills `emotion_scores` row by row and yields exactly ScoresOf of the table |
| Keywords.KeywordScoresSpec | music-recommendation/app.py:111-125 | a label is kept exactly when one of its keywords occurs. Its score is then the number of its distinct matching keywords, between 1 and its list's length |
| Keywords.ScoresLabelsIn | music-recommendation/app.py:121-125 | with distinct labels, each entry's label names the row it came from, and the entries follow table order |
| Keywords.KeywordScoresLabels | music-recommendation/app.py:121-125 | on the app's table every kept label is a table label, kept once, in table order |
| Keywords.KeywordLabelsNonEmpty | music-recommendation/app.py:111-125 | every label kept in `emotion_scores` is non-empty, so a keyword winner always takes part in fusion |
| Keywords.KeywordScores | music-recommendation/app.py:121-125 | `emotion_scores` for the app's table: the scoring of `Keywords.ScoresOf` applied to the six rows (see `Keywords.KeywordScoresSpec`) |
| TextSignal.KeywordBest | music-recommendation/app.py:134 | the keyword winner is a kept entry whose score is at least every kept score |
| TextSignal.KeywordSignal | music-recommendation/app.py:134-135 | the keyword winner's label with confidence `min(score / 5, 1)` (see `TextSignal.KeywordConfidenceInRange`) |
| TextSignal.WinnerIsFirstMaximalRowIn | music-recommendation/app.py:121-134 | for any table with distinct labels, the winner's row has the largest score, and every earlier row has a strictly smaller one |
| TextSignal.KeywordWinnerIsFirstMaximalRow | music-recommendation/app.py:111-134 | the same on the app's table: ties go to the earliest of happy, sad, angry, fear, surprise, neutral |
| TextSignal.KeywordConfidenceInRange | music-recommendation/app.py:135 | the keyword winner's confidence is `min(score / 5, 1)` and lies in (0, 1] |
| TextSignal.TextErrorCases | music-recommendation/app.py:131-171 | "analysis failed" occurs exactly for English text whose classifier raised. No signal occurs exactly for Hindi text without a keyword match, or English text with an all-zero classifier answer and no keyword match |
| TextSignal.HindiUsesKeywordsOnly | music-recommendation/app.py:131-138 | for Hindi text the classifier's answer changes nothing, and any keyword match selects the keyword winner |
| TextSignal.KeywordsOverrideClassifier | music-recommendation/app.py:144-152 | English with a non-zero classifier answer: a keyword score of at least 2, or a classifier score under 0.3, selects the keyword winner |
| TextSignal.ClassifierWins | music-recommendation/app.py:144-158 | English with a non-zero classifier answer, and either no keyword match or a keyword score under 2 against a classifier score of at least 0.3: the classifier's first maximal label wins, with its score |
| TextSignal.AllZeroFallsBackToKeywords | music-recommendation/app.py:160-163 | an all-zero or empty classifier answer falls back to the keyword winner |
| TextSignal.TextConfidenceInRange | music-recommendation/app.py:131-163 | with classifier scores in [0, 1], every selected text signal has a confidence in (0, 1] |
| TextSignal.SelectText | music-recommendation/app.py:131-165 | the text signal chosen by language, keyword scores and classifier answer, or the reason for the 400. Its cases are proved by `TextSignal.TextErrorCases`, `TextSignal.HindiUsesKeywordsOnly`, `TextSignal.KeywordsOverrideClassifier`, `TextSignal.ClassifierWins` and `TextSignal.AllZeroFallsBackToKeywords` |
| Facial.Normalise | music-recommendation/app.py:88 | a best score above 1 is read as a percentage and divided by 100; otherwise it is kept as it is |
| Facial.FacialIsFirstMaximum | music-recommendation/app.py:85-88 | with a non-empty score map, the label is the first maximal entry and the confidence is the normalised maximal score |
| Facial.FallbackToDominant | music-recommendation/app.py:89-92 | without a usable score map, the label is `dominant_emotion` and the confidence is 0 |
| Facial.ConfidenceInUnitRange | music-recommendation/app.py:77-92 | raw scores in [0, 100] give a facial confidence in [0, 1] |
| Facial.FacialSignal | music-recommendation/app.py:77-97 | the facial signal is read from the single result, or from the first result of a list; an empty list gives none. With scores in [0, 100] its confidence lies in [0, 1] (see `Facial.ConfidenceInUnitRange`) |
| Facial.FromAnalysis | music-recommendation/app.py:84-92 | one analysis result's signal: the first maximal label with its normalised score, else `dominant_emotion` with confidence 0, else none (see `Facial.FacialIsFirstMaximum`, `Facial.FallbackToDominant`) |
| Facial.PercentScaleAgrees | music-recommendation/app.py:88 | a map whose best score lies in (0.01, 1] and the same map in percent give the same signal |
| Fusion.NoSignalNoDecision | music-recommendation/app.py:183-202 | there is no decision exactly when neither label is present (non-empty) |
| Fusion.OneSignalPassesThrough | music-recommendation/app.py:193-200 | a lone signal is passed through with its label, its confidence and its own method |
| Fusion.BothSignalsArbitration | music-recommendation/app.py:183-192 | with both signals, the decision has the larger confidence and facial wins ties. The method is `facial`, `combined` or `text` exactly when the facial confidence is greater, equal or smaller, and the method's wire name is `facial`, `combined` or `text` accordingly |
| Fusion.TextBranchNeverCombined | music-recommendation/app.py:189-192 | `combined` always carries the facial label: the `combined` of the text branch is unreachable |
| Fusion.Fuse | music-recommendation/app.py:182-200 | the fused label, confidence and method, or none when neither label is truthy (see `Fusion.BothSignalsArbitration`, `Fusion.OneSignalPassesThrough`, `Fusion.NoSignalNoDecision`) |
| Mood.MoodOf | music-recommendation/app.py:203-204 | every mood is one of the eight buckets |
| Mood.TableCoversVocabularies | music-recommendation/app.py:28-43 | the table is keyed by exactly the fourteen labels, and its values are exactly the eight moods |
| Mood.UnknownIsChill | music-recommendation/app.py:204 | a label outside the table maps to `chill` |
| Mood.ChillExactly | music-recommendation/app.py:28-43 | `chill` comes exactly from `neutral` and from unknown labels |
| Mood.SingleSourceMoods | music-recommendation/app.py:28-43 | `romantic` comes only from `love`, and `dark` only from `disgust` |
| Mood.CaseInsensitive | music-recommendation/app.py:203-204 | a label and its lower-cased form get the same mood |
| Playlists.HindiListsWellFormed | music-recommendation/app.py:230-246 | each Hindi list has three entries, each with a name, an open.spotify.com playlist url and an image |
| Playlists.HindiTableShape | music-recommendation/app.py:230-246 | the Hindi table has three distinct, complete lists: happy, sad and chill |
| Playlists.EnglishListsWellFormed | music-recommendation/app.py:249-290 | every English list has three complete entries |
| Playlists.EnglishListsDistinct | music-recommendation/app.py:249-290 | no two moods share an English list |
| Playlists.EnglishTableShape | music-recommendation/app.py:249-290 | the English table has exactly the eight moods as keys, each with a complete list of its own |
| Playlists.OfflineAlwaysThree | music-recommendation/app.py:227-291 | the offline lookup always returns three complete entries, whatever the mood and the language |
| Playlists.HindiFallsBackToChill | music-recommendation/app.py:229-247 | for Hindi, happy and sad get their own lists and every other mood gets the chill list |
| Playlists.EnglishCoversEveryMood | music-recommendation/app.py:248-291 | for English, each of the eight moods gets its own list, distinct from chill's unless it is chill; any other mood gets the chill list |
| Playlists.QueryTermChoice | music-recommendation/app.py:295-306 | the search term is the mood itself, except `workout` for energetic and `party` for excited |
| Playlists.OnlineIgnoresLanguage | music-recommendation/app.py:293-307 | online, both languages search with the same term and the limit 5 |
| Playlists.OfflinePlaylists | music-recommendation/app.py:227-291 | the static list of the mood in the language's table, or that table's chill list (see `Playlists.OfflineAlwaysThree`, `Playlists.HindiFallsBackToChill`, `Playlists.EnglishCoversEveryMood`) |
| Playlists.QueryTerm | music-recommendation/app.py:306 | the mood's first search term, or the mood itself (see `Playlists.QueryTermChoice`) |
| Playlists.GetPlaylists | music-recommendation/app.py:226-307 | the static list without a catalog client, else the search the client would run (see `Playlists.OnlineIgnoresLanguage`) |
| Handler.Conclude | music-recommendation/app.py:202-224 | from the fused decision: the generic 400, the exception when no language is set, or the 200 response (see `Handler.ConcludeOutcomes`) |
| Handler.ConcludeOutcomes | music-recommendation/app.py:182-224 | covers the three outcomes after fusion. (1) The generic 400 comes exactly when no signal is present; the exception comes exactly when a signal is present and no language is set; a present signal with a set language always gives a 200 response. (2) Otherwise the response's emotion is lower-case, its mood is the emotion's mood, and its confidence is at least that of each present signal. (3) A lone signal decides under its own method, and the playlists are those of the mood and language. (4) A 200 response carries the method, the lower-cased label and the confidence of the fused decision, so `Fusion.BothSignalsArbitration` applies to it |
| Handler.HasText | music-recommendation/app.py:106 | the request has text that is not whitespace only; blank text is treated as no text (see `Handler.BlankTextIsNoText`) |
| Handler.Normalised | music-recommendation/app.py:108 | the text the scorer reads: lower-cased, then stripped; its language is that of the raw text (see `Text.LanguageOfNormalisedText`) |
| Handler.TextOutcome | music-recommendation/app.py:107-165 | the text branch on non-blank text: the selected signal with the language of the normalised text, or the text error (see `Handler.TextOutcomeSpec`) |
| Handler.TextOutcomeSpec | music-recommendation/app.py:108-165 | the text branch succeeds exactly when the selection policy does, and then reports the language of the raw text |
| Handler.ErrorMessage | music-recommendation/app.py:138-171 | the `error` text of the text branch's 400s: "more descriptive text" when no signal was found, "analysis failed" when the classifier raised (see `Handler.TextErrorPrecedesFusion`) |
| Handler.TextSignalIsDetectedIn | music-recommendation/app.py:131-221 | for any tables, when the selection policy picks a signal with a non-empty label, the response is a 200 carrying that signal, the facial signal and the text's language, whatever the facial signal |
| Handler.HindiKeywordMatchIsDetectedIn | music-recommendation/app.py:128-138 | for any tables whose kept labels are non-empty, Hindi text with a keyword match gets a 200 response in Hindi whose text signal is the keyword winner |
| Handler.HindiKeywordMatchIsDetected | music-recommendation/app.py:128-138 | Hindi text with a keyword match gets a 200 response in Hindi whose text signal is the keyword winner |
| Handler.EnglishClassifierMatchIsDetected | music-recommendation/app.py:141-159 | English text without keyword matches, whose classifier answer is non-zero with a non-empty top label, gets a 200 response in English whose text signal is the classifier's first maximal label and score |
| Handler.BlankTextIsNoText | music-recommendation/app.py:106 | whitespace-only text is handled exactly like a request without text |
| Handler.EmptyRequestIsRejected | music-recommendation/app.py:222-224 | with no facial label and no text, the response is the generic 400 |
| Handler.Respond | music-recommendation/app.py:50-224 | the handler for any keyword table, playlist source and no-text language: the facial and text signals, the text 400, fusion and the response (see the `Handler` lemmas) |
| Handler.DetectEmotion | music-recommendation/app.py:50-224 | the handler as written: the app's table and playlists, with no language when there is no text (see `Handler.DetectedResponse`, `Handler.ImageOnlyRequestFails`) |
| Handler.DetectEmotionDefaultEnglish | music-recommendation/app.py:205 | the corrected handler, in which `language` defaults to `en` (see `Handler.ImageOnlyRequestSucceedsWithDefault`, `Handler.DefaultOnlyAffectsNoText`) |
| Handler.TextErrorPrecedesFusionIn | music-recommendation/app.py:131-171 | for any keyword table, a failing text branch returns its 400 before fusion, even when a facial label was found |
| Handler.TextErrorPrecedesFusion | music-recommendation/app.py:131-171 | on the app's table the 400 text is "more descriptive text" for Hindi without matches and for English with an all-zero answer and no matches. It is "analysis failed" when the classifier raised |
| Handler.HindiIgnoresClassifierIn | music-recommendation/app.py:131-138 | for any keyword table, the classifier's answer never changes the response to Hindi text, and a detected response is Hindi |
| Handler.HindiIgnoresClassifier | music-recommendation/app.py:131-138 | the same on the app's table |
| Handler.DetectedResponseIn | music-recommendation/app.py:202-221 | for any tables, a 200 response came from non-blank text. Its language is the text's (wire code `hi` exactly when the text has a Devanagari character, else `en`), its emotion is lower-case with its mood, its confidence bounds each present signal, and its playlists are those of its mood and language |
| Handler.DetectedResponse | music-recommendation/app.py:202-221 | the same on the app's tables. Offline, the response carries three complete playlists |
| Handler.TextOnlyUsesTextIn | music-recommendation/app.py:197-200 | for any tables, with no facial label a 200 response is decided by the text signal under the method `text` |
| Handler.TextOnlyUsesText | music-recommendation/app.py:197-200 | the same on the app's tables |
| Handler.ImageOnlyRequestFails | music-recommendation/app.py:205 | as written, a request whose face gives a label and which has no text ends in the uncaught exception |
| Handler.ImageOnlyRequestSucceedsWithDefault | music-recommendation/app.py:205 | with `language` defaulting to `en`, the same request gets a 200 response. It carries the lower-cased facial label, its confidence and the method `facial` |
| Handler.DefaultOnlyAffectsNoText | music-recommendation/app.py:106-205 | the corrected handler differs from the written one only on requests without text |

## Left out

- Flask plumbing is not modelled: routing, `render_template`, JSON parsing of the body, `jsonify` and the debug `print`s (lines 14, 45-53, 101, 175, 207-208). A request is a value with an optional image answer, an optional text, the classifier's answer and a catalog flag. So a missing body (`'image' in None` raises) and a non-string `text` are not covered.
- Image decoding, the lazy DeepFace import and `DeepFace.analyze` (lines 60-77, 94-100) are foreign code. Their answer is an input; `None` stands for no image, DeepFace missing, an undecodable image, or an exception the branch catches.
- `te.get_emotion` (line 141) is a foreign classifier. Its answer is an input, and `None` stands for the exception that lines 166-171 catch.
- The `exception` and `trace` fields of the "analysis failed" 400 (line 171) are not modelled: they are diagnostics text.
- The response's `facial_confidence` and `text_confidence` fields are not carried separately. The response holds the two signals as options; an absent signal is reported as `None` with confidence 0.0.
- Creating the Spotify client from environment variables (lines 16-25) is reduced to the request's catalog flag.
- The live `sp.search` call, its result translation and the empty list on failure (lines 307-318) are network code. The model records the search term and the limit it would send.
- Floating point is modelled as exact `real` arithmetic, without IEEE rounding.
- Text.Lower: lower-cases ASCII letters only. Python's `str.lower()` also lower-cases other scripts (Devanagari has no case). Some non-ASCII characters even lower-case to ASCII letters: U+212A KELVIN SIGN becomes `k`. So the source counts a text such as `o` U+212A `ay` for `neutral` (through `okay`, line 123), and the model does not.
- Playlists.OnlineIgnoresLanguage: the online result is described by the query it would send, not the playlists it would return.
- Handler.DetectedResponse: the confidence bounds hold only for signals whose label is non-empty. An empty label is falsy in Python and takes no part in fusion.
- The `detection_method` variable (lines 55, 93, 136, 159, 163, 179) is not modelled. Its value is overwritten whenever a decision is made and is never read otherwise.

## Findings

| source | as written | input that shows it | evidently intended | confidence | as-written member | corrected member |
|---|---|---|---|---|---|---|
| music-recommendation/app.py:205 | `language` is assigned only inside the text branch (line 129), yet it is read when the playlists are fetched | a request with an image whose analysis yields a label (e.g. `happy`) and no `text`: `get_spotify_playlists(mood, language)` raises UnboundLocalError, and Flask answers 500 | `language` starts as `'en'`, the default of `get_spotify_playlists`, so image-only requests get playlists | not executed | Handler.ImageOnlyRequestFails | Handler.ImageOnlyRequestSucceedsWithDefault |
