/**
 * The ddddocr recogniser, which runs a Python script per call. Both the
 * availability check and the script run are oracles, indexed by the call.
 */
module OcrDdddocr {
  import opened Strings
  import opened Captcha

  /** The result of `execAsync(python3 <script> "<payload>")`: a rejected promise, or the two output streams. */
  datatype Exec = ExecFailed | Output(stdout: string, stderr: string)

  /** `checkDdddocrAvailable()` for the `k`-th call. */
  type Availability = nat -> bool
  /** The script run for the `k`-th call on a payload. */
  type Runner = (string, nat) -> Exec

  /**
   * `recognizeCaptcha(imageBase64)` as its `call`-th invocation: `''` without
   * running anything when ddddocr is unavailable; otherwise the script gets
   * the payload without its data-URI prefix, an `ERROR` on stderr or a failed
   * run gives `''`, and the result is stdout trimmed (no character filter).
   */
  function RecognizeCaptcha(image: string, available: Availability, run: Runner, call: nat): (text: string)
    ensures !available(call) ==> text == ""
    ensures available(call) && run(StripDataUri(image), call).ExecFailed? ==> text == ""
    ensures available(call) && run(StripDataUri(image), call).Output? ==>
      var out := run(StripDataUri(image), call);
      text == if Contains(out.stderr, "ERROR") then "" else Trim(out.stdout)
    ensures text == [] || (!IsSpace(text[0]) && !IsSpace(text[|text| - 1]))
  {
    if !available(call) then ""
    else
      match run(StripDataUri(image), call)
      case ExecFailed => ""
      case Output(stdout, stderr) => if Contains(stderr, "ERROR") then "" else Trim(stdout)
  }

  /** Unlike the Tesseract recogniser, punctuation inside the output survives. */
  lemma KeepsPunctuation(image: string, available: Availability, run: Runner, call: nat)
    requires available(call) && run(StripDataUri(image), call) == Output("a-b+\n", "")
    ensures RecognizeCaptcha(image, available, run, call) == "a-b+"
  {
    assert !Contains("", "ERROR");
    var s := "a-b+\n";
    assert LeadingSpaces(s) == 0;
    assert TrailingSpaces(s[..4]) == 0;
    assert TrailingSpaces(s) == 1;
  }

  /**
   * `recognizeWithRetry(imageBase64, maxAttempts)`: at most `maxAttempts`
   * calls, the first result of at least four characters, else `''`; after each
   * failed attempt it pauses one second, so `pauses` counts the failures.
   */
  method RecognizeWithRetry(image: string, maxAttempts: int, available: Availability, run: Runner)
    returns (result: string, calls: nat, pauses: nat)
    ensures Retried(result, calls) == Retry((j: nat) => RecognizeCaptcha(image, available, run, j), maxAttempts)
    ensures pauses == if result != "" then calls - 1 else calls
  {
    ghost var results := (j: nat) => RecognizeCaptcha(image, available, run, j);
    calls, pauses := 0, 0;
    for i := 0 to AttemptBound(maxAttempts)
      invariant calls == i && pauses == i
      invariant FirstAcceptable(results, AttemptBound(maxAttempts), 0) == FirstAcceptable(results, AttemptBound(maxAttempts), i)
    {
      var text := RecognizeCaptcha(image, available, run, i);
      calls := calls + 1;
      if Acceptable(text) {
        return text, calls, pauses;
      }
      pauses := pauses + 1;
    }
    return "", calls, pauses;
  }
}
