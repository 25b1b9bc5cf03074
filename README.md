# Text analysis service: a Dafny model of its scoring and feedback core

The service takes free text and returns a lexicon-based analysis. The
analysis has five parts:

- an overall sentiment with a confidence;
- a threat level;
- a vulnerability level;
- per-emotion scores with a dominant emotion;
- metadata: word count, character count and a timestamp.

The service also accepts feedback about an analysis and keeps it in an
in-memory list. All the logic lives in `backend/server.js`, and this
project models that part:

- `analyzeText`, the scorer (`lexicon_analyzer.dfy`);
- `validateTextInput`, the ordered checks in front of it (`text_validation.dfy`);
- the `/feedback` payload checks, the stored entry with its `||`
  defaults, the `feedbackStorage` list and its `slice(-10)` listing
  (`feedback.dfy`).

Two supporting modules hold the JavaScript behaviour these rely on:

- `js_value.dfy`: a parsed JSON request body as a datatype, with
  JavaScript falsiness, `typeof`, `||` and property destructuring.
  `JsValue.Get` is the definition of `const { key } = req.body`
  (backend/server.js:115, 181-188): the property of an object body, and
  `undefined` otherwise. `JsValue.Or` is `||` (backend/server.js:208-213).
  What the stored entry holds as a result is stated by
  `Feedback.MakeEntry` and `Feedback.AcceptedEntryShape`.
- `text_scan.dfy`: `toLowerCase`, `split(/\s+/)`, `trim()`, and a global
  `match` of a literal word.

Scoring counts **non-overlapping literal substring matches**, scanning
left to right. It is not whole-word matching, so "mad" counts inside
"madrid" (`TextScan.SubstringMatchExamples`). The match positions are
proved sound, ordered and non-overlapping (`TextScan.MatchesFromSound`).
They are also proved complete: every occurrence that is not reported
overlaps a match found further left (`TextScan.MatchesFromComplete`).

`AnalyzeText` is a method because the server accumulates the positive and
negative counters in `forEach` loops. It is proved equal to the function
`Analysis`, and lemmas state what `Analysis` promises. The feedback list
is a class whose `Submit` and `Append` methods change it in place.

## Behaviour worth knowing

- **Dominant emotion under a tie.** The `reduce` keeps its accumulator
  only when it is strictly larger, so the **latest** of the tied emotions
  wins. Text without emotion words therefore gets "surprise"
  (`LexiconAnalyzer.DominantIsLastMax`, `LexiconAnalyzer.DominantTieExamples`).
- **Word count.** The word count is the number of pieces of
  `split(/\s+/)`. That is the number of whitespace runs plus one, and it
  includes the empty pieces produced by leading or trailing whitespace
  (`TextScan.SplitCount`).
- **Missing text.** `MISSING_TEXT` is given for any falsy `text`: an absent
  field, and also `null`, `false`, `0` and `""`.
- **Rating.** Any number in [1, 5] is accepted, for example 2.5. A `null`
  rating is refused, because `typeof null` is "object". A `null` rating is
  what the web form sends when no star is picked
  (`Feedback.NullRatingRefused`).
- **Zero word count.** The confidence division has no guard against a
  zero word count and needs none, because the word count is always at
  least 1.

## Model

| member | source | states |
|---|---|---|
| `LexiconAnalyzer.AnalyzeText` | backend/server.js:16-111 | the record built with the word-by-word counting loops is exactly `Analysis(text, analyzedAt)`, the specification of the whole scorer |
| `LexiconAnalyzer.Analysis` | backend/server.js:16-111 | the analysis record is consistent: the polarity is the comparison of the two sentiment scores, the confidence lies in [0, 100], each indicator is flagged iff its score is positive, the intensity is the dominant emotion's score and no emotion scores more, the word count is at least 1 and the character count is the text's length |
| `LexiconAnalyzer.CategoryScore` | backend/server.js:48-57 | a category's score is at least the match count of each of its trigger words |
| `LexiconAnalyzer.SentimentProperties` | backend/server.js:27-45 | the scores are the positive and negative lexicon counts of the lowercased text; the sentiment is positive iff positive > negative, negative iff negative > positive, and neutral iff they are equal (both 0 included); confidence lies in 0..100 |
| `LexiconAnalyzer.Overall` | backend/server.js:40-45 | positive, negative and neutral each hold exactly under their own comparison of the two counts |
| `LexiconAnalyzer.Confidence` | backend/server.js:86 | with a positive word count, the result lies in [0, 100]; it is 0 iff the counts are equal, and it is 100 iff their difference is at least the word count |
| `LexiconAnalyzer.LevelOf` | backend/server.js:52 | low iff the count is 0, medium iff it is 1 or 2, high iff it is above 2 |
| `LexiconAnalyzer.IndicatorOf` | backend/server.js:90-99 | the record carries the count as its score and the low/medium/high level of that count, and it is flagged as detected exactly when the count is positive, which is exactly when its level is not low |
| `LexiconAnalyzer.IndicatorProperties` | backend/server.js:48-59 | the threat and the vulnerability scores are each their own lexicon's count; each level follows the low/medium/high rule; each flag is set iff some word of that lexicon occurs in the lowercased text |
| `LexiconAnalyzer.CategoryScorePositiveIff` | backend/server.js:48-50 | a category's summed count is positive iff one of its trigger words occurs somewhere in the text, also inside a longer word |
| `LexiconAnalyzer.EmotionScoresOf` | backend/server.js:62-78 | each emotion scores the summed matches of its own lexicon, and it scores above zero iff one of that lexicon's words occurs in the text |
| `LexiconAnalyzer.Dominant` | backend/server.js:81 | no emotion scores more than the one the reduce picks |
| `LexiconAnalyzer.DominantIsLastMax` | backend/server.js:81 | the reduce picks an emotion with the maximal score, and every emotion listed after it scores strictly less |
| `LexiconAnalyzer.LastMaxIsDominant` | backend/server.js:81 | that rule picks exactly one emotion: any emotion that meets it is the reduce's result |
| `LexiconAnalyzer.DominantTieExamples` | backend/server.js:81 | equal anger and fear give fear; equal anger and surprise above the rest give surprise; all-zero scores give surprise with intensity 0; a strict maximum of anger gives anger, and one of joy gives joy |
| `LexiconAnalyzer.EmotionProperties` | backend/server.js:62-104 | the five scores are the emotion lexicon counts; the dominant emotion is the last maximum; the intensity is its score, and no emotion scores more |
| `LexiconAnalyzer.MetadataProperties` | backend/server.js:105-108 | the word count is the number of whitespace runs plus one; the character count is the untrimmed length; the timestamp is the supplied clock reading |
| `LexiconAnalyzer.AnalysisMetadata` | backend/server.js:105-106 | the word count in the analysis record is the number of whitespace runs plus one |
| `TextScan.Split` | backend/server.js:18 | splitting on whitespace runs always yields at least one piece, so the confidence division never divides by zero |
| `TextScan.SplitCount` | backend/server.js:18 | the number of pieces is the number of maximal whitespace runs plus one |
| `TextScan.SplitPiecesNoSpace` | backend/server.js:18 | no piece contains whitespace |
| `TextScan.SplitConcat` | backend/server.js:18 | the pieces joined are exactly the non-whitespace characters of the text, in order |
| `TextScan.Lower` | backend/server.js:24 | lowercasing keeps the length, turns each upper-case ASCII letter into its lower-case counterpart (code + 32), leaves no upper-case ASCII letter and changes no other character |
| `TextScan.MatchesFrom` | backend/server.js:31 | every reported match position lies at or after the starting index and leaves room for the whole word before the end of the text |
| `TextScan.Occurrences` | backend/server.js:31 | the match count times the word's length is at most the text's length |
| `TextScan.MatchesFromSound` | backend/server.js:31 | every match the global search reports is a real occurrence, and the matches are increasing and do not overlap |
| `TextScan.MatchesFromComplete` | backend/server.js:31 | every occurrence the search does not report overlaps a match it found further left |
| `TextScan.OccurrencesPositiveIff` | backend/server.js:31 | a word's match count is positive iff the word occurs in the text |
| `TextScan.MatchesFromBound` | backend/server.js:31 | matches do not overlap, so a word matches at most length-of-text / length-of-word times |
| `TextScan.EmbeddedWordCounts` | backend/server.js:31 | a trigger word embedded in any surrounding text is counted at least once |
| `TextScan.SubstringMatchExamples` | backend/server.js:31 | "mad" counts once in "madrid" and "joy" once in "joyful"; "aa" counts once in "aaa" and twice in "aaaa" |
| `TextScan.TrimStart` | backend/server.js:140 | the result is a suffix that does not start with whitespace, and everything removed is whitespace |
| `TextScan.TrimEnd` | backend/server.js:140 | the result is a prefix that does not end with whitespace, and everything removed is whitespace |
| `TextScan.Trim` | backend/server.js:140 | the result sits inside the text with only whitespace before and after it, and it neither starts nor ends with whitespace |
| `TextScan.TrimEmptyIffBlank` | backend/server.js:140 | the trimmed text is empty iff every character is whitespace |
| `TextValidation.ValidateTextInput` | backend/server.js:114-148 | the checks run in order: falsy gives MISSING_TEXT, then a non-string gives INVALID_TEXT_TYPE, then length > 10000 gives TEXT_TOO_LONG with limit and length, then blank text gives EMPTY_TEXT; otherwise the text passes unchanged. Each outcome is stated as an iff |
| `TextValidation.FalsyTextIsMissing` | backend/server.js:117-122 | undefined, null, 0, false and "" are all reported as MISSING_TEXT |
| `TextValidation.TypeCheckedBeforeLength` | backend/server.js:124-138 | a non-string, such as a number or an array longer than 10000 elements, is a type error and not a length error |
| `TextValidation.BlankTextIsEmpty` | backend/server.js:140-145 | any whitespace-only text within the length limit is refused as EMPTY_TEXT |
| `TextValidation.MaxLengthBoundary` | backend/server.js:131-138 | a non-blank text of exactly 10000 characters passes; at 10001 it is too long with maxLength 10000 and currentLength 10001 |
| `TextValidation.AnalyzeRequest` | backend/server.js:160-168 | a refused body yields the validator's error; an accepted one yields the analysis of the validated text |
| `JsValue.TypeOf` | backend/server.js:124 | `typeof` gives "object" exactly for null, arrays and objects, "string" exactly for strings and "number" exactly for numbers |
| `JsValue.Falsy` | backend/server.js:117 | `!v` is true exactly of undefined, null, false, 0 and "" |
| `JsValue.Or` | backend/server.js:208-213 | the logical or of two values is one of them, and it is falsy exactly when both are |
| `Feedback.CheckFeedback` | backend/server.js:191-203 | MISSING_FEEDBACK iff comment, rating and suggestions are all falsy; otherwise INVALID_RATING iff the rating is present and not a number in [1, 5]; the payload passes iff neither applies |
| `Feedback.RatingEdgeCases` | backend/server.js:191-203 | with a comment, a null, 0 or "5" rating is refused; `{rating: 6}` is refused; 2.5 passes; an all-falsy payload is reported as missing before its rating is looked at |
| `Feedback.NullRatingRefused` | backend/server.js:198 | a null rating is refused whatever the other fields hold |
| `Feedback.MakeEntry` | backend/server.js:205-214 | the entry carries the given id and time, and each of originalText, analysisResults, userFeedback, rating, suggestions and userEmail is the submitted value when truthy and otherwise "", {}, "", null, "" and null |
| `Feedback.AcceptedEntryShape` | backend/server.js:205-214 | an accepted entry carries the given id and time; its rating is null iff none was sent, and otherwise it is the submitted number in [1, 5]; at least one feedback field is truthy and stored as submitted; originalText, analysisResults, userFeedback, suggestions and userEmail that were not sent are stored as "", {}, "", "" and null |
| `Feedback.Slice` | backend/server.js:244 | `slice(start)` returns a suffix; a negative start keeps min(-start, length) elements |
| `Feedback.Recent` | backend/server.js:244 | the listing never holds more than ten entries, and it is the whole store while the store holds at most ten |
| `Feedback.RecentIsLastTen` | backend/server.js:244 | the listing holds the last min(10, count) entries in insertion order |
| `Feedback.RecentAfterAppend` | backend/server.js:216-244 | after a push, the listing is the previous listing plus the new entry, minus its oldest entry once ten are shown |
| `Feedback.FeedbackStore.constructor` | backend/server.js:13 | the store starts empty |
| `Feedback.FeedbackStore.Append` | backend/server.js:216 | a push adds exactly the given entry at the end |
| `Feedback.FeedbackStore.Submit` | backend/server.js:179-229 | a refused payload returns its error and leaves the store unchanged; an accepted one returns the id and appends exactly the entry built from the payload; earlier entries never change |
| `Feedback.FeedbackStore.Listing` | backend/server.js:240-246 | the count is the number of stored entries, and the listing is their last min(10, count) entries |

## Left out

- HTTP and process plumbing is not modelled: the Express app, CORS, JSON
  body parsing and its size limit, the `/health` route, the 404 and error
  middleware, `app.listen`, status codes and response envelopes, and
  console logging. The model returns plain results and error datatypes
  instead. Each error datatype carries the `code` and `error` strings.
- The `ANALYSIS_ERROR` and `FEEDBACK_ERROR` catch branches are not
  modelled. Every modelled operation is total, so nothing can throw.
- The clock and `Date.now()` are parameters (`analyzedAt`, `id`,
  `timestamp`). Id uniqueness is not claimed, because the code does not
  guarantee it.
- Confidence is computed in exact real arithmetic. Floating-point
  rounding is not modelled.
- `LexiconAnalyzer.Word`: a trigger word must be non-empty. The server's
  lexicons are such words, so this excludes nothing it uses.
- `TextScan.Lower` lowercases ASCII letters only. The trigger words are
  ASCII, so this matters only where full Unicode lowercasing would produce
  one of their letters. Two such cases are not captured: the Kelvin sign
  U+212A becomes "k", and U+0130 becomes two code units.
- Texts are taken to hold characters of the Basic Multilingual Plane only,
  so each `char` is one UTF-16 code unit, which is what `length` counts.
  A Dafny `char` above U+FFFF would be two code units in JavaScript; such
  characters (surrogate pairs) are not modelled.
- The regular-expression engine is not modelled. Matching is literal,
  which is equivalent here because no trigger word contains a
  metacharacter.
- `JsValue.Value` models a parsed number as an exact real. `JSON.parse`
  turns an overflowing literal such as `1e400` into `Infinity`, which has
  no `Value` here. Every modelled check would treat it like any number
  above 5: truthy, of type "number" and outside the rating range, so no
  outcome changes. Underflow to 0 (`1e-400`) is modelled by `Num(0.0)`.
  Duplicate object keys are not modelled.
- The stored list is a `seq`, not a JavaScript array object. Concurrent
  access is not modelled, because Node runs the handlers one at a time.
- The React and Expo clients are not modelled. They render results, hold
  form state and repeat some server checks on the client side.
  `expo/config.example.js` is also not modelled: it holds constants and a
  network connection test.
