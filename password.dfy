/**
 * `generatePassword`: rejection sampling of ten-character strings over a pool
 * in which every digit appears twice, until a candidate matches the password
 * pattern. The random source is an oracle: the sequence of values the calls to
 * `Math.random()` return, in order.
 */
module Password {
  import opened Wrappers
  import opened Constants
  import Random

  const Lowercase: string := "abcdefghijklmnopqrstuvwxyz"
  const Uppercase: string := "ABCDEFGHIJKLMNOPQRSTUVWXYZ"
  const Digits: string := "0123456789"
  /** `all`: the digits are appended twice, so a digit is drawn with weight 20/72. */
  const Pool: string := Lowercase + Uppercase + Digits + Digits

  /** The pool holds 72 characters, all of them letters or digits, and none a line terminator. */
  lemma PoolComposition()
    ensures |Pool| == 72
    ensures forall i :: 0 <= i < |Pool| ==> IsLower(Pool[i]) || IsUpper(Pool[i]) || IsDigit(Pool[i])
    ensures SingleLine(Pool)
    ensures forall k :: 0 <= k < 10 ==> Pool[52 + k] == Pool[62 + k] == Digits[k]
  {
    PoolPiecesAreRuns();
    forall i | 0 <= i < |Pool|
      ensures IsLower(Pool[i]) || IsUpper(Pool[i]) || IsDigit(Pool[i])
    {
      if i < 26 {
        assert Pool[i] == Lowercase[i];
      } else if i < 52 {
        assert Pool[i] == Uppercase[i - 26];
      } else if i < 62 {
        assert Pool[i] == Digits[i - 52];
      } else {
        assert Pool[i] == Digits[i - 62];
      }
    }
  }

  /** How often `c` occurs in `s`. */
  function Count(s: string, c: char): nat {
    if s == [] then 0 else (if s[0] == c then 1 else 0) + Count(s[1..], c)
  }

  /** `s` holds the consecutive code points `first`, `first + 1`, ... */
  predicate IsRun(s: string, first: int) {
    forall j :: 0 <= j < |s| ==> s[j] as int == first + j
  }

  lemma {:induction false} CountInRun(s: string, first: int, c: char)
    requires IsRun(s, first)
    ensures Count(s, c) == if first <= c as int < first + |s| then 1 else 0
  {
    if s != [] {
      assert IsRun(s[1..], first + 1);
      CountInRun(s[1..], first + 1, c);
    }
  }

  lemma {:induction false} CountOfJoin(a: string, b: string, c: char)
    ensures Count(a + b, c) == Count(a, c) + Count(b, c)
  {
    if a != [] {
      assert (a + b)[1..] == a[1..] + b;
      CountOfJoin(a[1..], b, c);
    } else {
      assert a + b == b;
    }
  }

  lemma {:induction false} CountIsMultiplicity(s: string, c: char)
    ensures multiset(s)[c] == Count(s, c)
  {
    if s != [] {
      assert s == [s[0]] + s[1..];
      CountIsMultiplicity(s[1..], c);
    }
  }

  lemma PoolPiecesAreRuns()
    ensures IsRun(Lowercase, 'a' as int) && IsRun(Uppercase, 'A' as int) && IsRun(Digits, '0' as int)
  {
  }

  lemma JoinWeights(lower: string, upper: string, digits: string, c: char)
    requires IsRun(lower, 'a' as int) && |lower| == 26
    requires IsRun(upper, 'A' as int) && |upper| == 26
    requires IsRun(digits, '0' as int) && |digits| == 10
    ensures IsDigit(c) ==> multiset(lower + upper + digits + digits)[c] == 2
    ensures IsLower(c) || IsUpper(c) ==> multiset(lower + upper + digits + digits)[c] == 1
    ensures !IsDigit(c) && !IsLower(c) && !IsUpper(c) ==> multiset(lower + upper + digits + digits)[c] == 0
  {
    CountInRun(lower, 'a' as int, c);
    CountInRun(upper, 'A' as int, c);
    CountInRun(digits, '0' as int, c);
    CountOfJoin(lower, upper, c);
    CountOfJoin(lower + upper, digits, c);
    CountOfJoin(lower + upper + digits, digits, c);
    CountIsMultiplicity(lower + upper + digits + digits, c);
  }

  /** Each digit occurs twice in the pool and each letter once, so a digit is twice as likely as a given letter. */
  lemma PoolWeights(c: char)
    ensures IsDigit(c) ==> multiset(Pool)[c] == 2
    ensures IsLower(c) || IsUpper(c) ==> multiset(Pool)[c] == 1
    ensures !IsDigit(c) && !IsLower(c) && !IsUpper(c) ==> multiset(Pool)[c] == 0
  {
    PoolPiecesAreRuns();
    JoinWeights(Lowercase, Uppercase, Digits, c);
  }

  predicate UnitDraws(draws: seq<real>) {
    forall i :: 0 <= i < |draws| ==> Random.IsUnitDraw(draws[i])
  }

  /** `all.charAt(Math.floor(r * all.length))`. */
  function PoolChar(r: real): (c: char)
    requires Random.IsUnitDraw(r)
    ensures c in Pool
  {
    Pool[Random.ScaledIndex(r, |Pool|)]
  }

  /** The string the inner loop builds from a block of draws, one character per draw, appended in order. */
  function Candidate(block: seq<real>): (s: string)
    requires UnitDraws(block)
    ensures |s| == |block|
  {
    if block == [] then [] else Candidate(block[..|block| - 1]) + [PoolChar(block[|block| - 1])]
  }

  lemma {:induction false} CandidateFromPool(block: seq<real>)
    requires UnitDraws(block)
    ensures forall i :: 0 <= i < |block| ==> Candidate(block)[i] in Pool
  {
    if block != [] {
      CandidateFromPool(block[..|block| - 1]);
    }
  }

  /**
   * What the do-while loop returns when the draws are `draws`: the first
   * block of `PASSWORD_LENGTH` draws whose candidate matches the pattern;
   * `None` when the draws run out before one does.
   */
  function Generated(draws: seq<real>): Option<string>
    requires UnitDraws(draws)
    decreases |draws|
  {
    if |draws| < PasswordLength then None
    else
      var candidate := Candidate(draws[..PasswordLength]);
      if PasswordPattern(candidate) then Some(candidate) else Generated(draws[PasswordLength..])
  }

  /** The random source eventually produces an accepted candidate (the loop terminates with probability 1). */
  predicate Yields(draws: seq<real>) {
    UnitDraws(draws) && Generated(draws).Some?
  }

  /** The complete blocks of `PASSWORD_LENGTH` draws, in the order the passes of the outer loop consume them. */
  function Blocks(draws: seq<real>): (bs: seq<seq<real>>)
    ensures forall k :: 0 <= k < |bs| ==> |bs[k]| == PasswordLength
    ensures UnitDraws(draws) ==> forall k :: 0 <= k < |bs| ==> UnitDraws(bs[k])
    decreases |draws|
  {
    if |draws| < PasswordLength then [] else [draws[..PasswordLength]] + Blocks(draws[PasswordLength..])
  }

  /** A generated password has length 10, matches the pattern, and is made of pool characters only. */
  lemma {:induction false} GeneratedShape(draws: seq<real>)
    requires UnitDraws(draws) && Generated(draws).Some?
    ensures var p := Generated(draws).value;
      |p| == PasswordLength && PasswordPattern(p) &&
      HasLower(p) && HasUpper(p) && HasDigit(p) &&
      forall i :: 0 <= i < |p| ==> p[i] in Pool
  {
    var candidate := Candidate(draws[..PasswordLength]);
    if PasswordPattern(candidate) {
      CandidateFromPool(draws[..PasswordLength]);
      PatternRequiresAllClasses(candidate);
    } else {
      GeneratedShape(draws[PasswordLength..]);
    }
  }

  /** Block `k` is the first of `bs` whose candidate the pattern accepts, and its candidate is `p`. */
  predicate FirstAccepted(bs: seq<seq<real>>, k: int, p: string)
    requires forall i :: 0 <= i < |bs| ==> UnitDraws(bs[i])
  {
    0 <= k < |bs| && p == Candidate(bs[k]) && PasswordPattern(p) &&
    forall j :: 0 <= j < k ==> !PasswordPattern(Candidate(bs[j]))
  }

  /**
   * The result is the candidate of some block of draws, and the candidate of
   * every earlier block was rejected: a rejected candidate is discarded whole
   * and the next one is built from fresh draws.
   */
  lemma {:induction false} GeneratedIsFirstAccepted(draws: seq<real>)
    requires UnitDraws(draws) && Generated(draws).Some?
    ensures exists k :: FirstAccepted(Blocks(draws), k, Generated(draws).value)
    decreases |draws|
  {
    var bs := Blocks(draws);
    var first := draws[..PasswordLength];
    var rest := draws[PasswordLength..];
    assert bs == [first] + Blocks(rest);
    if PasswordPattern(Candidate(first)) {
      assert FirstAccepted(bs, 0, Generated(draws).value);
    } else {
      assert Generated(draws) == Generated(rest);
      GeneratedIsFirstAccepted(rest);
      var k :| FirstAccepted(Blocks(rest), k, Generated(rest).value);
      assert FirstAccepted(bs, k + 1, Generated(draws).value) by {
        forall j | 0 <= j < k + 1
          ensures !PasswordPattern(Candidate(bs[j]))
        {
          if j > 0 {
            assert bs[j] == Blocks(rest)[j - 1];
          }
        }
      }
    }
  }

  /** Character `i` of a candidate is the pool character of draw `i`. */
  lemma {:induction false} CandidatePointwise(block: seq<real>)
    requires UnitDraws(block)
    ensures forall i :: 0 <= i < |block| ==> Candidate(block)[i] == PoolChar(block[i])
  {
    if block != [] {
      var init := block[..|block| - 1];
      CandidatePointwise(init);
      assert Candidate(block) == Candidate(init) + [PoolChar(block[|block| - 1])];
      forall i | 0 <= i < |block|
        ensures Candidate(block)[i] == PoolChar(block[i])
      {
        if i < |init| {
          assert init[i] == block[i];
        }
      }
    }
  }

  /** Ten zero draws: every one picks `a`. */
  const ZeroBlock: seq<real> := seq(10, _ => 0.0)
  /** Ten draws whose first three pick `a`, `B` and `2`: 0, 0.375, 0.75, then zeros. */
  const MixedBlock: seq<real> := seq(10, i => if i == 1 then 0.375 else if i == 2 then 0.75 else 0.0)

  /** The draws of the example blocks pick `a`, `B` and `2`. */
  lemma ExampleDraws()
    ensures PoolChar(0.0) == 'a' && PoolChar(0.375) == 'B' && PoolChar(0.75) == '2'
  {
    PoolPiecesAreRuns();
    assert Random.ScaledIndex(0.0, |Pool|) == 0;
    assert Random.ScaledIndex(0.375, |Pool|) == 27;
    assert Random.ScaledIndex(0.75, |Pool|) == 54;
    assert Pool[0] == Lowercase[0];
    assert Pool[27] == Uppercase[1];
    assert Pool[54] == Digits[2];
  }

  /** A candidate without an uppercase letter is rejected. */
  lemma RejectsWithoutUpper(s: string)
    requires forall i :: 0 <= i < |s| ==> !IsUpper(s[i])
    ensures !PasswordPattern(s)
  {
    var line := FirstLine(s);
    assert forall i :: 0 <= i < |line| ==> line[i] == s[i];
  }

  /** A pool-only candidate with a lowercase letter, an uppercase letter and a digit is accepted. */
  lemma AcceptsAllClasses(s: string, l: nat, u: nat, d: nat)
    requires forall i :: 0 <= i < |s| ==> s[i] in Pool
    requires l < |s| && u < |s| && d < |s| && IsLower(s[l]) && IsUpper(s[u]) && IsDigit(s[d])
    ensures PasswordPattern(s)
  {
    PoolComposition();
    forall i | 0 <= i < |s|
      ensures !IsLineTerminator(s[i])
    {
      var k :| 0 <= k < |Pool| && Pool[k] == s[i];
    }
    PatternOnSingleLine(s);
  }

  /**
   * A concrete draw stream: the first block, all zeros, draws `aaaaaaaaaa`,
   * which the pattern rejects; the second draws `a`, `B` and `2` first and is
   * accepted. So draw streams that yield a password exist, and the password
   * is built from the second block alone.
   */
  lemma RetryAfterRejection()
    ensures !PasswordPattern(Candidate(ZeroBlock))
    ensures Yields(ZeroBlock + MixedBlock)
    ensures Generated(ZeroBlock + MixedBlock) == Some(Candidate(MixedBlock))
    ensures Candidate(MixedBlock)[..3] == "aB2"
  {
    var draws := ZeroBlock + MixedBlock;
    assert draws[..PasswordLength] == ZeroBlock;
    assert draws[PasswordLength..] == MixedBlock;
    assert MixedBlock[..PasswordLength] == MixedBlock;
    ExampleCandidates();
    RejectsWithoutUpper(Candidate(ZeroBlock));
    CandidateFromPool(MixedBlock);
    AcceptsAllClasses(Candidate(MixedBlock), 0, 1, 2);
  }

  /** What the inner loop builds from the example blocks: only `a`s, and `aB2` at the start. */
  lemma ExampleCandidates()
    ensures forall i :: 0 <= i < |ZeroBlock| ==> Candidate(ZeroBlock)[i] == 'a'
    ensures Candidate(MixedBlock)[0] == 'a' && Candidate(MixedBlock)[1] == 'B' && Candidate(MixedBlock)[2] == '2'
  {
    ExampleDraws();
    CandidatePointwise(ZeroBlock);
    CandidatePointwise(MixedBlock);
  }

  /**
   * `generatePassword()`: rebuilds `password` from the empty string on every
   * pass of the outer loop, appending one pool character per draw, until the
   * pattern accepts it.
   */
  method GeneratePassword(draws: seq<real>) returns (password: string)
    requires Yields(draws)
    ensures Generated(draws) == Some(password)
    ensures |password| == PasswordLength && PasswordPattern(password)
    ensures forall i :: 0 <= i < |password| ==> password[i] in Pool
  {
    var pos := 0;
    while true
      invariant 0 <= pos <= |draws|
      invariant UnitDraws(draws[pos..]) && Generated(draws[pos..]) == Generated(draws)
      decreases |draws| - pos
    {
      var rest := draws[pos..];
      password := BuildCandidate(rest[..PasswordLength]);
      assert draws[pos + PasswordLength..] == rest[PasswordLength..];
      pos := pos + PasswordLength;
      if PasswordPattern(password) {
        GeneratedShape(draws);
        return;
      }
    }
  }

  /** One pass of the inner loop: one pool character per draw, appended in order. */
  method BuildCandidate(block: seq<real>) returns (candidate: string)
    requires UnitDraws(block)
    ensures candidate == Candidate(block)
  {
    candidate := "";
    for i := 0 to |block|
      invariant candidate == Candidate(block[..i])
    {
      assert block[..i + 1][..i] == block[..i];
      candidate := candidate + [PoolChar(block[i])];
    }
    assert block[..|block|] == block;
  }
}
