/** The error contract of `execute`: what `getError` reports, the exact text of
    the exception thrown on a falsy transfer result, and a reading of that text
    back into its code and message. */
module CurlErrors {
  import opened Php

  /** The pair `getError` returns: `error_no` and `error`. */
  datatype ErrorInfo = ErrorInfo(code: int, message: string)

  /** What the client throws: "Curl not installed." at construction, an unknown
      option name met while assembling options, or a failed transfer. */
  datatype Failure = NotInstalled | UnknownOption(name: string) | TransferFailed(message: string)

  /** The engine's report of one `curl_exec` call: its return value and the
      error number and text it leaves on the handle. */
  datatype Transfer = Transfer(result: Value, errno: int, error: string)

  /** `getError`: the pair when the error number is positive, false otherwise;
      a handle that is not a live resource reports no error number at all. */
  function ErrorOf(live: bool, errno: int, error: string): (e: Option<ErrorInfo>)
    ensures e.Some? <==> live && errno > 0
    ensures e.Some? ==> e.value.code == errno && e.value.message == error && e.value.code > 0
  {
    if live && errno > 0 then Some(ErrorInfo(errno, error)) else None
  }

  const Prefix: string := "Error: "
  const Separator: string := " and the Error no is: "

  /** The exception text. When `getError` returned false, both reads of the
      report yield null, which interpolates as the empty string. */
  function ErrorMessage(e: Option<ErrorInfo>): string {
    match e
    case Some(info) => Prefix + info.message + Separator + IntToString(info.code) + " "
    case None => Prefix + Separator + " "
  }

  /** The exception text, spelled out: "Error: ", the message, " and the Error
      no is: ", the code in decimal and a final space; both parts are empty
      when there is no pair. */
  lemma ErrorMessageFormat(e: Option<ErrorInfo>)
    ensures "Error: " <= ErrorMessage(e) && ErrorMessage(e)[|ErrorMessage(e)| - 1] == ' '
    ensures e.Some? ==> ErrorMessage(e) == "Error: " + e.value.message + " and the Error no is: " + IntToString(e.value.code) + " "
    ensures e.None? ==> ErrorMessage(e) == "Error:  and the Error no is:  "
  {
  }

  /** Reads an exception text back: the message between the fixed words and
      the code from the digits before the final space. */
  function ParseErrorMessage(s: string): Option<ErrorInfo> {
    if |s| < |Prefix| + 1 || s[..|Prefix|] != Prefix || s[|s| - 1] != ' ' then None
    else ParseBody(s[|Prefix|..|s| - 1])
  }

  /** The part between "Error: " and the final space: the message, the
      separator, then the code's digits. */
  function ParseBody(body: string): Option<ErrorInfo> {
    var k := TrailingDigits(body);
    var rest := body[..|body| - k];
    if k == 0 || |rest| < |Separator| || rest[|rest| - |Separator|..] != Separator then None
    else Some(ErrorInfo(DecimalValue(body[|body| - k..]), rest[..|rest| - |Separator|]))
  }

  /** The exception text carries the pair `getError` reported, and the pair can
      be read back from it; with no pair there is nothing to read back. */
  lemma ErrorMessageRoundTrip(e: Option<ErrorInfo>)
    requires e.Some? ==> e.value.code >= 0
    ensures ParseErrorMessage(ErrorMessage(e)) == e
  {
    match e
    case None => ParseWithoutCode();
    case Some(info) =>
      assert IntToString(info.code) == Decimal(info.code);
      ParseWithCode(info.message, info.code);
  }

  lemma ParseWithoutCode()
    ensures ParseErrorMessage(ErrorMessage(None)) == None
  {
    ParseFraming(Separator);
    assert TrailingDigits(Separator) == 0;
  }

  lemma ParseFraming(body: string)
    ensures ParseErrorMessage(Prefix + body + " ") == ParseBody(body)
  {
    var s := Prefix + body + " ";
    assert s[..|Prefix|] == Prefix;
    assert s[|Prefix|..|s| - 1] == body;
  }

  lemma ParseWithCode(text: string, code: nat)
    ensures ParseErrorMessage(Prefix + text + Separator + Decimal(code) + " ") == Some(ErrorInfo(code, text))
  {
    var d := Decimal(code);
    var x := text + Separator;
    assert Prefix + text + Separator + d + " " == Prefix + (x + d) + " ";
    ParseFraming(x + d);
    ParseDigitsAfter(x, d);
    assert x[..|x| - |Separator|] == text;
    DecimalRoundTrip(code);
  }

  lemma ParseDigitsAfter(x: string, d: string)
    requires |x| >= |Separator| && x[|x| - |Separator|..] == Separator
    requires d != [] && AllDigits(d)
    ensures ParseBody(x + d) == Some(ErrorInfo(DecimalValue(d), x[..|x| - |Separator|]))
  {
    assert x[|x| - 1] == Separator[|Separator| - 1];
    SplitTrailingDigits(x, d);
  }

  lemma SplitTrailingDigits(x: string, d: string)
    requires x != [] && !IsDigit(x[|x| - 1])
    requires AllDigits(d)
    ensures TrailingDigits(x + d) == |d|
    ensures (x + d)[..|x + d| - |d|] == x && (x + d)[|x + d| - |d|..] == d
  {
    TrailingDigitsAfter(x, d);
    assert (x + d)[..|x|] == x;
  }

  /** Distinct error pairs give distinct exception texts. */
  lemma ErrorMessageInjective(e1: Option<ErrorInfo>, e2: Option<ErrorInfo>)
    requires e1.Some? ==> e1.value.code >= 0
    requires e2.Some? ==> e2.value.code >= 0
    requires ErrorMessage(e1) == ErrorMessage(e2)
    ensures e1 == e2
  {
    ErrorMessageRoundTrip(e1);
    ErrorMessageRoundTrip(e2);
  }

  /** What `execute` makes of the transfer result: it is returned unchanged
      when truthy; any falsy result (false, "", "0", ...) throws, whatever the
      error number, with the text built from `getError`'s report. */
  function ExecOutcome(result: Value, err: Option<ErrorInfo>): (r: Result<Value, Failure>)
    ensures r.Ok? <==> Truthy(result)
    ensures r.Ok? ==> r.value == result
    ensures r.Err? ==> r.error.TransferFailed?
    ensures r.Err? && (err.Some? ==> err.value.code >= 0) ==> ParseErrorMessage(r.error.message) == err
  {
    if Truthy(result) then Ok(result)
    else if err.Some? && err.value.code < 0 then Err(TransferFailed(ErrorMessage(err)))
    else
      ErrorMessageRoundTrip(err);
      Err(TransferFailed(ErrorMessage(err)))
  }

  /** An empty body, or the body "0", is reported as a failure even though the
      engine recorded no error: the text then carries neither message nor code. */
  lemma FalsyBodyFailsWithoutError(body: string)
    requires body == "" || body == "0"
    ensures ExecOutcome(Str(body), None) == Err(TransferFailed("Error:  and the Error no is:  "))
  {
    assert ErrorMessage(None) == "Error:  and the Error no is:  ";
  }
}
