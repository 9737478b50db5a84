/**
 * What the captcha recognisers share: the removal of a leading
 * `data:image/<word>;base64,` prefix, the acceptance test `result.length >= 4`
 * and the bound of a `for (let i = 0; i < maxAttempts; i++)` retry loop.
 */
module Captcha {
  import opened Strings

  /** The default `maxAttempts` of the retry loops. */
  const DefaultMaxAttempts: int := 3
  /** A recognised text is taken only when it has at least this many UTF-16 code units. */
  const MinLength: nat := 4

  /**
   * `result && result.length >= 4`: the empty string is falsy, and shorter
   * texts are retried. `length` counts UTF-16 code units.
   */
  predicate Acceptable(s: string) {
    Utf16Length(s) >= MinLength
  }

  /**
   * Three characters outside the Basic Multilingual Plane have length 6, so
   * they are accepted; three ASCII characters are not.
   */
  lemma AcceptableCountsCodeUnits()
    ensures Acceptable("\U{1D7D9}\U{1D7DA}\U{1D7DB}")
    ensures !Acceptable("abc")
  {
    SupplementaryLength("\U{1D7D9}\U{1D7DA}\U{1D7DB}");
    BmpLength("abc");
  }

  /** The number of passes of `for (let i = 0; i < maxAttempts; i++)`. */
  function AttemptBound(maxAttempts: int): (n: nat)
    ensures maxAttempts <= 0 ==> n == 0
    ensures maxAttempts > 0 ==> n == maxAttempts
  {
    if maxAttempts > 0 then maxAttempts else 0
  }

  /** The index of the first acceptable result among calls `i`, ..., `bound - 1`; `bound` when there is none. */
  function FirstAcceptable(results: nat -> string, bound: nat, i: nat): (k: nat)
    requires i <= bound
    ensures i <= k <= bound
    ensures forall j :: i <= j < k ==> !Acceptable(results(j))
    ensures k < bound ==> Acceptable(results(k))
    decreases bound - i
  {
    if i == bound then bound
    else if Acceptable(results(i)) then i
    else FirstAcceptable(results, bound, i + 1)
  }

  /** What a retry loop ends with: the text it returns and the number of recogniser calls it made. */
  datatype Retried = Retried(result: string, calls: nat)

  /**
   * The outcome of a retry loop whose `k`-th call yields `results(k)`: the
   * loop stops at the first acceptable result and returns it; when none of
   * its `maxAttempts` calls is acceptable it returns `''`.
   */
  function Retry(results: nat -> string, maxAttempts: int): (o: Retried)
    ensures o.calls <= AttemptBound(maxAttempts)
    ensures forall j :: 0 <= j < o.calls - 1 ==> !Acceptable(results(j))
    ensures o.result != "" ==> 1 <= o.calls && o.result == results(o.calls - 1) && Acceptable(o.result)
    ensures o.result == "" ==> o.calls == AttemptBound(maxAttempts) &&
                               forall j :: 0 <= j < o.calls ==> !Acceptable(results(j))
  {
    var bound := AttemptBound(maxAttempts);
    var k := FirstAcceptable(results, bound, 0);
    if k < bound then Retried(results(k), k + 1) else Retried("", bound)
  }

  /**
   * A recogniser that succeeds only on its third call: the default of three
   * attempts finds the text, two attempts do not.
   */
  lemma {:induction false} SucceedsOnThirdCall(results: nat -> string)
    requires !Acceptable(results(0)) && !Acceptable(results(1)) && Acceptable(results(2))
    ensures Retry(results, DefaultMaxAttempts) == Retried(results(2), 3)
    ensures Retry(results, 2) == Retried("", 2)
  {
    assert FirstAcceptable(results, 3, 0) == 2 by {
      assert FirstAcceptable(results, 3, 2) == 2;
      assert FirstAcceptable(results, 3, 1) == 2;
    }
    assert FirstAcceptable(results, 2, 0) == 2 by {
      assert FirstAcceptable(results, 2, 2) == 2;
      assert FirstAcceptable(results, 2, 1) == 2;
    }
  }

  /** A first call that is acceptable ends the loop at once, whatever the later calls would yield. */
  lemma FirstCallSuffices(results: nat -> string, maxAttempts: int)
    requires maxAttempts >= 1 && Acceptable(results(0))
    ensures Retry(results, maxAttempts) == Retried(results(0), 1)
  {
  }

  /** No attempts at all: nothing is called and nothing is found. */
  lemma NoAttempts(results: nat -> string, maxAttempts: int)
    requires maxAttempts <= 0
    ensures Retry(results, maxAttempts) == Retried("", 0)
  {
  }

  /** `\w`. */
  predicate IsWordChar(c: char) {
    'a' <= c <= 'z' || 'A' <= c <= 'Z' || '0' <= c <= '9' || c == '_'
  }

  function WordRun(s: string): (n: nat)
    ensures n <= |s|
    ensures forall k :: 0 <= k < n ==> IsWordChar(s[k])
    ensures n == |s| || !IsWordChar(s[n])
  {
    if s != [] && IsWordChar(s[0]) then 1 + WordRun(s[1..]) else 0
  }

  const DataImageHead: string := "data:image/"
  const Base64Mark: string := ";base64,"

  /**
   * `s.replace(/^data:image\/\w+;base64,/, '')`: a non-empty run of word
   * characters after `data:image/` must be followed by `;base64,`; since `;`
   * is not a word character, the greedy run cannot give back characters, so
   * only the maximal run is tried.
   */
  function StripDataUri(s: string): (r: string)
    ensures r == s || (|r| < |s| && r == s[|s| - |r|..])
  {
    if |s| >= |DataImageHead| && s[..|DataImageHead|] == DataImageHead then
      var rest := s[|DataImageHead|..];
      var n := WordRun(rest);
      var after := rest[n..];
      if n > 0 && |after| >= |Base64Mark| && after[..|Base64Mark|] == Base64Mark then
        assert after[|Base64Mark|..] == s[|DataImageHead| + n + |Base64Mark|..];
        after[|Base64Mark|..]
      else s
    else s
  }

  /** The `\w+` run ends where the first non-word character begins. */
  lemma {:induction false} WordRunStopsAt(w: string, t: string)
    requires forall k :: 0 <= k < |w| ==> IsWordChar(w[k])
    requires t == [] || !IsWordChar(t[0])
    ensures WordRun(w + t) == |w|
  {
    if w != [] {
      assert (w + t)[1..] == w[1..] + t;
      WordRunStopsAt(w[1..], t);
    } else {
      assert w + t == t;
    }
  }

  /** The prefix of a data URI is removed, leaving exactly the payload. */
  lemma StripDataUriPayload(kind: string, payload: string)
    requires kind != [] && forall k :: 0 <= k < |kind| ==> IsWordChar(kind[k])
    ensures StripDataUri(DataImageHead + kind + Base64Mark + payload) == payload
  {
    var s := DataImageHead + kind + Base64Mark + payload;
    assert s[..|DataImageHead|] == DataImageHead;
    assert s[|DataImageHead|..] == kind + Base64Mark + payload;
    assert (Base64Mark + payload)[0] == ';';
    WordRunStopsAt(kind, Base64Mark + payload);
    assert kind + Base64Mark + payload == kind + (Base64Mark + payload);
    var after := (kind + Base64Mark + payload)[|kind|..];
    assert after == Base64Mark + payload;
    assert after[..|Base64Mark|] == Base64Mark;
  }

  /**
   * A text that starts with `data:image/` but whose word run there is empty
   * or is not followed by `;base64,` does not match, and is left unchanged.
   * Every text that starts with `data:image/` splits uniquely into the head,
   * its word run `kind` and the `tail` after it.
   */
  lemma StripMalformedUnchanged(kind: string, tail: string)
    requires forall k :: 0 <= k < |kind| ==> IsWordChar(kind[k])
    requires tail == [] || !IsWordChar(tail[0])
    requires kind == [] || !(|tail| >= |Base64Mark| && tail[..|Base64Mark|] == Base64Mark)
    ensures StripDataUri(DataImageHead + kind + tail) == DataImageHead + kind + tail
  {
    var s := DataImageHead + kind + tail;
    assert s[..|DataImageHead|] == DataImageHead;
    assert s[|DataImageHead|..] == kind + tail;
    WordRunStopsAt(kind, tail);
    assert (kind + tail)[|kind|..] == tail;
  }

  /** Text that does not start with `data:image/` passes through, whatever it contains later. */
  lemma StripOnlyAtStart(s: string)
    requires !(|s| >= |DataImageHead| && s[..|DataImageHead|] == DataImageHead)
    ensures StripDataUri(s) == s
  {
  }
}
