/**
 * The `/feedback` routes: the two checks on a submitted payload, the entry
 * built from it with `||` defaults, the in-memory store entries are pushed
 * onto, and the listing of the count with the last ten entries. The id
 * (`Date.now()`) and the timestamp are parameters.
 */
module Feedback {
  import opened JsValue
  import opened Results

  datatype FeedbackError = MissingFeedback | InvalidRating {
    /** The `code` field of the 400 response. */
    function Code(): string {
      match this
      case MissingFeedback => "MISSING_FEEDBACK"
      case InvalidRating => "INVALID_RATING"
    }

    /** The `error` field of the 400 response. */
    function Message(): string {
      match this
      case MissingFeedback => "At least one feedback field (feedback, rating, or suggestions) is required"
      case InvalidRating => "Rating must be a number between 1 and 5"
    }
  }

  datatype Check = Pass | Fail(error: FeedbackError)

  /** A number from 1 to 5; fractions are allowed. */
  predicate RatingInRange(rating: Value) {
    rating.Num? && 1.0 <= rating.n <= 5.0
  }

  predicate NoFeedback(userFeedback: Value, rating: Value, suggestions: Value) {
    Falsy(userFeedback) && Falsy(rating) && Falsy(suggestions)
  }

  /** The checks on a submission: some feedback must be given, and a rating
      that is present at all (null included) must be a number in range. */
  function CheckFeedback(userFeedback: Value, rating: Value, suggestions: Value): (c: Check)
    ensures c == Fail(MissingFeedback) <==> NoFeedback(userFeedback, rating, suggestions)
    ensures c == Fail(InvalidRating) <==>
      !NoFeedback(userFeedback, rating, suggestions) && !rating.Undefined? && !RatingInRange(rating)
    ensures c == Pass <==>
      !NoFeedback(userFeedback, rating, suggestions) && (rating.Undefined? || RatingInRange(rating))
  {
    if Falsy(userFeedback) && Falsy(rating) && Falsy(suggestions) then Fail(MissingFeedback)
    else if !rating.Undefined? && (TypeOf(rating) != "number" || rating.n < 1.0 || rating.n > 5.0) then
      Fail(InvalidRating)
    else Pass
  }

  /** Where the two checks meet: a missing comment does not excuse a bad
      rating, and the absence of every field is reported before the rating.
      A null rating, which is what a client sends when no star was picked,
      is refused; so is 0 next to a comment, while 2.5 passes. */
  lemma RatingEdgeCases(comment: Value)
    requires !Falsy(comment)
    ensures CheckFeedback(comment, Null, Undefined) == Fail(InvalidRating)
    ensures CheckFeedback(comment, Num(0.0), Undefined) == Fail(InvalidRating)
    ensures CheckFeedback(comment, Str("5"), Undefined) == Fail(InvalidRating)
    ensures CheckFeedback(Undefined, Num(6.0), Undefined) == Fail(InvalidRating)
    ensures CheckFeedback(Undefined, Num(2.5), Undefined) == Pass
    ensures CheckFeedback(comment, Undefined, Undefined) == Pass
    ensures CheckFeedback(Undefined, Null, Undefined) == Fail(MissingFeedback)
    ensures CheckFeedback(Str(""), Num(0.0), Str("")) == Fail(MissingFeedback)
  {
  }

  /** A null rating is never accepted, whatever else the payload holds. */
  lemma NullRatingRefused(userFeedback: Value, suggestions: Value)
    ensures CheckFeedback(userFeedback, Null, suggestions).Fail?
  {
  }

  datatype FeedbackEntry = FeedbackEntry(
    id: int,
    timestamp: string,
    originalText: Value,
    analysisResults: Value,
    userFeedback: Value,
    rating: Value,
    suggestions: Value,
    userEmail: Value)

  /** The stored entry: each field as submitted when truthy, its default
      ("" for text, {} for the analysis, null for rating and e-mail)
      otherwise. */
  function MakeEntry(body: Value, id: int, timestamp: string): (e: FeedbackEntry)
    ensures e.id == id && e.timestamp == timestamp
    ensures var v := Get(body, "originalText");
      (!Falsy(v) ==> e.originalText == v) && (Falsy(v) ==> e.originalText == Str(""))
    ensures var v := Get(body, "analysisResults");
      (!Falsy(v) ==> e.analysisResults == v) && (Falsy(v) ==> e.analysisResults == Obj(map[]))
    ensures var v := Get(body, "userFeedback");
      (!Falsy(v) ==> e.userFeedback == v) && (Falsy(v) ==> e.userFeedback == Str(""))
    ensures var v := Get(body, "rating");
      (!Falsy(v) ==> e.rating == v) && (Falsy(v) ==> e.rating == Null)
    ensures var v := Get(body, "suggestions");
      (!Falsy(v) ==> e.suggestions == v) && (Falsy(v) ==> e.suggestions == Str(""))
    ensures var v := Get(body, "userEmail");
      (!Falsy(v) ==> e.userEmail == v) && (Falsy(v) ==> e.userEmail == Null)
  {
    FeedbackEntry(
      id,
      timestamp,
      Or(Get(body, "originalText"), Str("")),
      Or(Get(body, "analysisResults"), Obj(map[])),
      Or(Get(body, "userFeedback"), Str("")),
      Or(Get(body, "rating"), Null),
      Or(Get(body, "suggestions"), Str("")),
      Or(Get(body, "userEmail"), Null))
  }

  /** `key` is absent from the body, or the body is not an object. */
  predicate Missing(body: Value, key: string) {
    !(body.Obj? && key in body.fields)
  }

  function CheckBody(body: Value): Check {
    CheckFeedback(Get(body, "userFeedback"), Get(body, "rating"), Get(body, "suggestions"))
  }

  /** What an accepted entry holds: the given id and time; a rating that
      is null exactly when none was sent and otherwise the submitted number
      in 1..5; at least one truthy feedback field, kept as submitted; every
      field that was not sent stored as its default. */
  lemma AcceptedEntryShape(body: Value, id: int, timestamp: string)
    requires CheckBody(body) == Pass
    ensures var e := MakeEntry(body, id, timestamp);
      && e.id == id && e.timestamp == timestamp
      && (e.rating == Null <==> Get(body, "rating").Undefined?)
      && (e.rating != Null ==> e.rating == Get(body, "rating") && RatingInRange(e.rating))
      && ((!Falsy(e.userFeedback) && e.userFeedback == Get(body, "userFeedback"))
          || (!Falsy(e.rating) && e.rating == Get(body, "rating"))
          || (!Falsy(e.suggestions) && e.suggestions == Get(body, "suggestions")))
    ensures var e := MakeEntry(body, id, timestamp);
      && (Missing(body, "originalText") ==> e.originalText == Str(""))
      && (Missing(body, "analysisResults") ==> e.analysisResults == Obj(map[]))
      && (Missing(body, "userFeedback") ==> e.userFeedback == Str(""))
      && (Missing(body, "suggestions") ==> e.suggestions == Str(""))
      && (Missing(body, "userEmail") ==> e.userEmail == Null)
  {
  }

  // ---------------------------------------------------------------------
  // The listing

  const HistorySize: int := 10

  function Min(a: int, b: int): int {
    if a <= b then a else b
  }

  /** `s.slice(start)`: a negative start counts from the end, and either
      kind is clamped to the bounds of `s`. */
  function Slice<T>(s: seq<T>, start: int): (r: seq<T>)
    ensures |r| <= |s| && r == s[|s| - |r|..]
    ensures start < 0 ==> |r| == Min(-start, |s|)
    ensures start >= 0 ==> |r| == if start <= |s| then |s| - start else 0
  {
    var k := if start < 0 then (if |s| + start < 0 then 0 else |s| + start)
             else (if start > |s| then |s| else start);
    s[k..]
  }

  /** `feedbackStorage.slice(-10)`: never more than ten entries, and the
      whole store while it holds no more than ten. */
  function Recent(entries: seq<FeedbackEntry>): (r: seq<FeedbackEntry>)
    ensures |r| <= HistorySize
    ensures |entries| <= HistorySize ==> r == entries
  {
    Slice(entries, -HistorySize)
  }

  /** The listing holds the last min(10, count) entries in insertion order. */
  lemma RecentIsLastTen(entries: seq<FeedbackEntry>)
    ensures |Recent(entries)| == Min(HistorySize, |entries|)
    ensures forall i :: 0 <= i < |Recent(entries)| ==>
      Recent(entries)[i] == entries[|entries| - |Recent(entries)| + i]
  {
  }

  /** After one more entry the listing ends with it, and it drops its oldest
      entry once it is full. */
  lemma RecentAfterAppend(entries: seq<FeedbackEntry>, e: FeedbackEntry)
    ensures Recent(entries + [e]) ==
      (if |entries| < HistorySize then Recent(entries) else Recent(entries)[1..]) + [e]
  {
    var s := entries + [e];
    if |entries| < HistorySize {
      assert Recent(entries) == entries;
      assert Recent(s) == s;
    } else {
      var n := |entries|;
      assert Recent(s) == s[n + 1 - HistorySize..];
      assert Recent(entries)[1..] == entries[n - HistorySize + 1..];
      assert s[n + 1 - HistorySize..] == entries[n + 1 - HistorySize..] + [e];
    }
  }

  // ---------------------------------------------------------------------
  // The store

  /** `feedbackStorage`: an append-only list of entries. */
  class FeedbackStore {
    var entries: seq<FeedbackEntry>

    constructor ()
      ensures entries == []
    {
      entries := [];
    }

    /** `feedbackStorage.push(entry)`. */
    method Append(e: FeedbackEntry)
      modifies this
      ensures entries == old(entries) + [e]
      ensures |entries| == |old(entries)| + 1
    {
      entries := entries + [e];
    }

    /** `POST /feedback`: a refused payload leaves the store as it was; an
        accepted one appends exactly one entry, built from the payload, and
        answers with its id. Earlier entries are untouched. */
    method Submit(body: Value, id: int, timestamp: string) returns (r: Result<int, FeedbackError>)
      modifies this
      ensures CheckBody(body).Fail? ==> r == Err(CheckBody(body).error) && entries == old(entries)
      ensures CheckBody(body) == Pass ==>
        r == Ok(id) && entries == old(entries) + [MakeEntry(body, id, timestamp)]
      ensures entries[..|old(entries)|] == old(entries)
    {
      var userFeedback, rating, suggestions := Get(body, "userFeedback"), Get(body, "rating"), Get(body, "suggestions");
      var check := CheckFeedback(userFeedback, rating, suggestions);
      if check.Fail? {
        return Err(check.error);
      }
      var entry := MakeEntry(body, id, timestamp);
      Append(entry);
      return Ok(entry.id);
    }

    /** `GET /feedback`: the number of entries and the last ten of them. */
    method Listing() returns (count: nat, feedback: seq<FeedbackEntry>)
      ensures count == |entries|
      ensures |feedback| == Min(HistorySize, count)
      ensures feedback == entries[count - |feedback|..]
    {
      count := |entries|;
      feedback := Recent(entries);
    }
  }
}
