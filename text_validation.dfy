/**
 * `validateTextInput`: the checks that gate the analyser, in their fixed
 * order (missing, wrong type, too long, blank), and the `/analyze` request
 * that runs the analyser only on text that passed them.
 */
module TextValidation {
  import opened JsValue
  import opened TextScan
  import opened LexiconAnalyzer
  import opened Results

  const MaxTextLength: nat := 10000

  datatype TextError =
    | MissingText
    | InvalidTextType
    | TextTooLong(maxLength: nat, currentLength: nat)
    | EmptyText
  {
    /** The `code` field of the 400 response. */
    function Code(): string {
      match this
      case MissingText => "MISSING_TEXT"
      case InvalidTextType => "INVALID_TEXT_TYPE"
      case TextTooLong(_, _) => "TEXT_TOO_LONG"
      case EmptyText => "EMPTY_TEXT"
    }

    /** The `error` field of the 400 response. */
    function Message(): string {
      match this
      case MissingText => "Text input is required"
      case InvalidTextType => "Text must be a string"
      case TextTooLong(_, _) => "Text exceeds maximum length of 10,000 characters"
      case EmptyText => "Text cannot be empty or contain only whitespace"
    }
  }

  /** The checks on the request's `text` field. Each condition is tested
      only when all earlier ones passed; the text that passes is returned. */
  function ValidateTextInput(text: Value): (r: Result<string, TextError>)
    ensures r == Err(MissingText) <==> Falsy(text)
    ensures r == Err(InvalidTextType) <==> !Falsy(text) && TypeOf(text) != "string"
    ensures r.Err? && r.error.TextTooLong? <==> text.Str? && |text.s| > MaxTextLength
    ensures r.Err? && r.error.TextTooLong? ==> r.error == TextTooLong(MaxTextLength, |text.s|)
    ensures r == Err(EmptyText) <==> text.Str? && 0 < |text.s| <= MaxTextLength && AllSpace(text.s)
    ensures r.Ok? <==> text.Str? && |text.s| <= MaxTextLength && !AllSpace(text.s)
    ensures r.Ok? ==> r.value == text.s
  {
    if Falsy(text) then Err(MissingText)
    else if TypeOf(text) != "string" then Err(InvalidTextType)
    else if |text.s| > MaxTextLength then Err(TextTooLong(MaxTextLength, |text.s|))
    else if |Trim(text.s)| == 0 then (TrimEmptyIffBlank(text.s); Err(EmptyText))
    else (TrimEmptyIffBlank(text.s); Ok(text.s))
  }

  /** Every falsy value is reported as missing text, the empty string too. */
  lemma FalsyTextIsMissing()
    ensures ValidateTextInput(Undefined) == Err(MissingText)
    ensures ValidateTextInput(Null) == Err(MissingText)
    ensures ValidateTextInput(Num(0.0)) == Err(MissingText)
    ensures ValidateTextInput(Bool(false)) == Err(MissingText)
    ensures ValidateTextInput(Str("")) == Err(MissingText)
  {
  }

  /** The type is checked before the length: a non-string is a type error
      however long it is. */
  lemma TypeCheckedBeforeLength(items: seq<Value>)
    requires |items| > MaxTextLength
    ensures ValidateTextInput(Arr(items)) == Err(InvalidTextType)
    ensures ValidateTextInput(Num(42.0)) == Err(InvalidTextType)
  {
  }

  /** Text made only of whitespace is refused as empty. */
  lemma BlankTextIsEmpty(s: string)
    requires 0 < |s| <= MaxTextLength && AllSpace(s)
    ensures ValidateTextInput(Str(s)) == Err(EmptyText)
  {
  }

  /** A text of exactly 10000 characters that is not blank passes; one
      character more is too long, and the error carries both lengths. */
  lemma MaxLengthBoundary(s: string, c: char)
    requires |s| == MaxTextLength && !AllSpace(s)
    ensures ValidateTextInput(Str(s)) == Ok(s)
    ensures ValidateTextInput(Str(s + [c])) == Err(TextTooLong(10000, 10001))
  {
    var longer := s + [c];
    assert |longer| == MaxTextLength + 1;
    assert ValidateTextInput(Str(longer)).Err? && ValidateTextInput(Str(longer)).error.TextTooLong?;
    assert ValidateTextInput(Str(s)).Ok?;
  }

  /** The `/analyze` handler: validation first, and the analyser runs only
      on text that passed it. */
  method AnalyzeRequest(body: Value, analyzedAt: string) returns (r: Result<AnalysisResult, TextError>)
    ensures ValidateTextInput(Get(body, "text")).Err? ==>
      r == Err(ValidateTextInput(Get(body, "text")).error)
    ensures ValidateTextInput(Get(body, "text")).Ok? ==>
      r == Ok(Analysis(ValidateTextInput(Get(body, "text")).value, analyzedAt))
  {
    var checked := ValidateTextInput(Get(body, "text"));
    if checked.Err? {
      return Err(checked.error);
    }
    var analysis := AnalyzeText(checked.value, analyzedAt);
    return Ok(analysis);
  }
}
