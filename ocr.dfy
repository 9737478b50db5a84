/**
 * The Tesseract recogniser. The engine is an oracle: for its `k`-th call on a
 * payload it yields the recognised text, or `None` when recognition throws.
 */
module Ocr {
  import opened Wrappers
  import opened Strings
  import opened Captcha

  type Engine = (string, nat) -> Option<string>

  predicate IsAlphanumeric(c: char) {
    'a' <= c <= 'z' || 'A' <= c <= 'Z' || '0' <= c <= '9'
  }

  /** `text.replace(/[^a-zA-Z0-9]/g, '')`: the ASCII letters and digits of `text`, in order. */
  function KeepAlphanumeric(text: string): (r: string)
    ensures |r| <= |text|
    ensures forall k :: 0 <= k < |r| ==> IsAlphanumeric(r[k])
  {
    if text == [] then []
    else (if IsAlphanumeric(text[0]) then [text[0]] else []) + KeepAlphanumeric(text[1..])
  }

  /** The filter works character by character: a letter or digit is kept, anything else dropped. */
  lemma KeepAlphanumericOne(c: char)
    ensures KeepAlphanumeric([c]) == if IsAlphanumeric(c) then [c] else []
  {
  }

  /** The filter distributes over concatenation, so the kept characters keep their order. */
  lemma {:induction false} KeepAlphanumericOfJoin(a: string, b: string)
    ensures KeepAlphanumeric(a + b) == KeepAlphanumeric(a) + KeepAlphanumeric(b)
  {
    if a == [] {
      assert a + b == b;
    } else {
      assert (a + b)[0] == a[0] && (a + b)[1..] == a[1..] + b;
      KeepAlphanumericOfJoin(a[1..], b);
    }
  }

  lemma {:induction false} KeepAlphanumericKeepsClean(text: string)
    requires forall k :: 0 <= k < |text| ==> IsAlphanumeric(text[k])
    ensures KeepAlphanumeric(text) == text
  {
    if text != [] {
      KeepAlphanumericKeepsClean(text[1..]);
    }
  }

  /** Cleaning is idempotent: a cleaned text is cleaned to itself. */
  lemma CleanTwice(text: string)
    ensures KeepAlphanumeric(KeepAlphanumeric(text)) == KeepAlphanumeric(text)
  {
    KeepAlphanumericKeepsClean(KeepAlphanumeric(text));
  }

  /** `.trim()` after the filter has nothing left to remove. */
  lemma TrimAfterFilterIsIdentity(text: string)
    ensures Trim(KeepAlphanumeric(text)) == KeepAlphanumeric(text)
  {
    TrimKeepsUnpadded(KeepAlphanumeric(text));
  }

  /**
   * `recognizeCaptcha(imageBase64)` as its `call`-th invocation: the engine
   * receives the payload without its data-URI prefix; a failure gives `''`.
   */
  function RecognizeCaptcha(image: string, engine: Engine, call: nat): (text: string)
    ensures forall k :: 0 <= k < |text| ==> IsAlphanumeric(text[k])
    ensures engine(StripDataUri(image), call).None? ==> text == ""
    ensures engine(StripDataUri(image), call).Some? ==> text == KeepAlphanumeric(engine(StripDataUri(image), call).value)
  {
    match engine(StripDataUri(image), call)
    case None => ""
    case Some(raw) =>
      TrimAfterFilterIsIdentity(raw);
      Trim(KeepAlphanumeric(raw))
  }

  /**
   * `recognizeWithRetry(imageBase64, maxAttempts)`: calls the recogniser at
   * most `maxAttempts` times and returns the first result of at least four
   * characters, else `''`. `calls` is the number of recogniser calls made.
   */
  method RecognizeWithRetry(image: string, maxAttempts: int, engine: Engine) returns (result: string, calls: nat)
    ensures Retried(result, calls) == Retry((j: nat) => RecognizeCaptcha(image, engine, j), maxAttempts)
  {
    ghost var results := (j: nat) => RecognizeCaptcha(image, engine, j);
    calls := 0;
    for i := 0 to AttemptBound(maxAttempts)
      invariant calls == i
      invariant FirstAcceptable(results, AttemptBound(maxAttempts), 0) == FirstAcceptable(results, AttemptBound(maxAttempts), i)
    {
      var text := RecognizeCaptcha(image, engine, i);
      calls := calls + 1;
      if Acceptable(text) {
        return text, calls;
      }
    }
    return "", calls;
  }
}
