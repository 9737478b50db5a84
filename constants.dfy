/**
 * The constants of the program that carry logic: the password length, the
 * password acceptance pattern and the user-agent list.
 */
module Constants {
  import Random

  /** `PASSWORD_LENGTH`. */
  const PasswordLength: nat := 10

  predicate IsLower(c: char) { 'a' <= c <= 'z' }
  predicate IsUpper(c: char) { 'A' <= c <= 'Z' }
  /** `\d` without the `u` flag: the ASCII digits only. */
  predicate IsDigit(c: char) { '0' <= c <= '9' }

  /** The characters the regular-expression `.` does not match. */
  predicate IsLineTerminator(c: char) {
    c == '\n' || c == '\r' || c == '\U{2028}' || c == '\U{2029}'
  }

  predicate HasLower(s: string) { exists i :: 0 <= i < |s| && IsLower(s[i]) }
  predicate HasUpper(s: string) { exists i :: 0 <= i < |s| && IsUpper(s[i]) }
  predicate HasDigit(s: string) { exists i :: 0 <= i < |s| && IsDigit(s[i]) }
  predicate SingleLine(s: string) { forall i :: 0 <= i < |s| ==> !IsLineTerminator(s[i]) }

  /** The text a lookahead `(?=.*X)` anchored at `^` can scan: everything before the first line terminator. */
  function FirstLine(s: string): (r: string)
    ensures r <= s && SingleLine(r)
    ensures r == s || IsLineTerminator(s[|r|])
  {
    if s == [] || IsLineTerminator(s[0]) then [] else [s[0]] + FirstLine(s[1..])
  }

  /**
   * `PASSWORD_PATTERN.test(s)` for `/^(?=.*[a-z])(?=.*[A-Z])(?=.*\d)/`: three
   * lookaheads from the start of the string, each scanning with `.*`, which
   * stops at a line terminator; nothing is required of the length.
   */
  predicate PasswordPattern(s: string) {
    var line := FirstLine(s);
    HasLower(line) && HasUpper(line) && HasDigit(line)
  }

  /** Every class the pattern asks for is present in the whole string. */
  lemma PatternRequiresAllClasses(s: string)
    requires PasswordPattern(s)
    ensures HasLower(s) && HasUpper(s) && HasDigit(s)
  {
    var line := FirstLine(s);
    var i :| 0 <= i < |line| && IsLower(line[i]);
    var j :| 0 <= j < |line| && IsUpper(line[j]);
    var k :| 0 <= k < |line| && IsDigit(line[k]);
    assert s[i] == line[i] && s[j] == line[j] && s[k] == line[k];
  }

  /** On text without line breaks the pattern is exactly "has a lowercase letter, an uppercase letter and a digit". */
  lemma PatternOnSingleLine(s: string)
    requires SingleLine(s)
    ensures PasswordPattern(s) <==> HasLower(s) && HasUpper(s) && HasDigit(s)
  {
    assert FirstLine(s) == s;
  }

  /** The pattern puts no bound on the length: three characters are enough. */
  lemma PatternAcceptsShortText()
    ensures PasswordPattern("aA0")
  {
    assert IsLower("aA0"[0]) && IsUpper("aA0"[1]) && IsDigit("aA0"[2]);
  }

  /** A class that appears only after a line break does not count. */
  lemma PatternStopsAtLineBreak()
    ensures !PasswordPattern("\naA0")
  {
  }

  /** `USER_AGENTS`. */
  const UserAgents: seq<string> := [
    "Mozilla/5.0 (Windows NT 10.0; Win64; x64) AppleWebKit/537.36 (KHTML, like Gecko) Chrome/114.0.0.0 Safari/537.36",
    "Mozilla/5.0 (Windows NT 10.0; WOW64) AppleWebKit/537.36 (KHTML, like Gecko) Chrome/114.0.0.0 Safari/537.36",
    "Mozilla/5.0 (Windows NT 10.0) AppleWebKit/537.36 (KHTML, like Gecko) Chrome/114.0.0.0 Safari/537.36",
    "Mozilla/5.0 (Macintosh; Intel Mac OS X 13_4_1) AppleWebKit/537.36 (KHTML, like Gecko) Chrome/114.0.0.0 Safari/537.36",
    "Mozilla/5.0 (X11; Linux x86_64) AppleWebKit/537.36 (KHTML, like Gecko) Chrome/114.0.0.0 Safari/537.36"
  ]

  /** `USER_AGENTS[Math.floor(Math.random() * USER_AGENTS.length)]`: always an element of the list. */
  function PickUserAgent(r: real): (ua: string)
    requires Random.IsUnitDraw(r)
    ensures ua in UserAgents
  {
    UserAgents[Random.ScaledIndex(r, |UserAgents|)]
  }
}
