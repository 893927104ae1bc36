/** Interface-name patterns: the two-index backtracking matcher against the recursive meaning of `*` and `?`. */
module Glob {
  import opened Wrappers

  /** `pattern[i..]` matches `value[j..]`: `*` stands for any text, `?` for one character. */
  predicate MatchesFrom(pattern: string, value: string, i: nat, j: nat)
    requires i <= |pattern| && j <= |value|
    decreases |pattern| - i + |value| - j
  {
    if i == |pattern| then j == |value|
    else if pattern[i] == '*' then
      MatchesFrom(pattern, value, i + 1, j) || (j < |value| && MatchesFrom(pattern, value, i, j + 1))
    else
      j < |value| && (pattern[i] == '?' || pattern[i] == value[j]) && MatchesFrom(pattern, value, i + 1, j + 1)
  }

  predicate Matches(pattern: string, value: string) {
    MatchesFrom(pattern, value, 0, 0)
  }

  /** The positions the matcher keeps: the last `*` met and where to resume after it. */
  datatype Cursor = Cursor(pattern: nat, value: nat, star: Option<nat>, retry: nat)

  ghost predicate InRange(pattern: string, value: string, c: Cursor) {
    && c.pattern <= |pattern| && c.retry <= c.value <= |value|
    && (c.star.Some? ==> c.star.value < c.pattern)
    && (c.star.None? ==> c.retry == 0)
  }

  /** The matcher's answer from cursor `c` on.  A literal is tried before `*`, as in the source. */
  function Answer(pattern: string, value: string, c: Cursor): bool
    requires InRange(pattern, value, c)
    decreases |value| - c.retry, |pattern| - c.pattern
  {
    if c.value == |value| then
      forall k :: c.pattern <= k < |pattern| ==> pattern[k] == '*'
    else if c.pattern < |pattern| && (pattern[c.pattern] == '?' || pattern[c.pattern] == value[c.value]) then
      Answer(pattern, value, c.(pattern := c.pattern + 1, value := c.value + 1))
    else if c.pattern < |pattern| && pattern[c.pattern] == '*' then
      Answer(pattern, value, Cursor(c.pattern + 1, c.value, Some(c.pattern), c.value))
    else if c.star.Some? then
      Answer(pattern, value, Cursor(c.star.value + 1, c.retry + 1, c.star, c.retry + 1))
    else false
  }

  const START := Cursor(0, 0, None, 0)

  /** `glob_matches`: the loop over four indices, with no condition on its arguments. */
  method GlobMatches(pattern: string, value: string) returns (matched: bool)
    ensures matched == Answer(pattern, value, START)
    ensures '*' !in value ==> (matched <==> Matches(pattern, value))
  {
    var patternIndex: nat, valueIndex: nat := 0, 0;
    var star: Option<nat>, retryValue: nat := None, 0;
    while valueIndex < |value|
      invariant InRange(pattern, value, Cursor(patternIndex, valueIndex, star, retryValue))
      invariant Answer(pattern, value, START) ==
                Answer(pattern, value, Cursor(patternIndex, valueIndex, star, retryValue))
      decreases |value| - retryValue, |pattern| - patternIndex
    {
      if patternIndex < |pattern| && (pattern[patternIndex] == '?' || pattern[patternIndex] == value[valueIndex]) {
        patternIndex := patternIndex + 1;
        valueIndex := valueIndex + 1;
      } else if patternIndex < |pattern| && pattern[patternIndex] == '*' {
        star := Some(patternIndex);
        patternIndex := patternIndex + 1;
        retryValue := valueIndex;
      } else if star.Some? {
        patternIndex := star.value + 1;
        retryValue := retryValue + 1;
        valueIndex := retryValue;
      } else {
        AnswerIsMatch(pattern, value);
        return false;
      }
    }
    ghost var reached := patternIndex;
    while patternIndex < |pattern| && pattern[patternIndex] == '*'
      invariant reached <= patternIndex <= |pattern|
      invariant forall k :: reached <= k < patternIndex ==> pattern[k] == '*'
    {
      patternIndex := patternIndex + 1;
    }
    matched := patternIndex == |pattern|;
    AnswerIsMatch(pattern, value);
  }

  /** A pattern tail that begins with `*` also matches any longer text. */
  lemma {:induction false} StarAbsorbs(pattern: string, value: string, i: nat, j: nat, k: nat)
    requires i < |pattern| && pattern[i] == '*'
    requires j <= k <= |value|
    requires MatchesFrom(pattern, value, i, k)
    ensures MatchesFrom(pattern, value, i, j)
    decreases k - j
  {
    if j < k { StarAbsorbs(pattern, value, i, j + 1, k); }
  }

  /** The pattern between the last `*` and the cursor, which is free of `*`, fits the value text after `retry`. */
  ghost predicate SegmentFits(pattern: string, value: string, from: nat, to: nat, at: nat)
    requires from <= to <= |pattern| && at + to - from <= |value|
  {
    forall q :: from <= q < to ==>
      pattern[q] != '*' && (pattern[q] == '?' || pattern[q] == value[at + q - from])
  }

  /** Matching a star-free stretch of the pattern consumes exactly as many characters. */
  lemma {:induction false} MatchAfterSegment(pattern: string, value: string, from: nat, to: nat, at: nat)
    requires from <= to <= |pattern| && at <= |value|
    requires forall k :: from <= k < to ==> pattern[k] != '*'
    requires MatchesFrom(pattern, value, from, at)
    ensures at + to - from <= |value|
    ensures SegmentFits(pattern, value, from, to, at)
    ensures MatchesFrom(pattern, value, to, at + to - from)
    decreases |pattern| - from
  {
    if from < to {
      MatchAfterSegment(pattern, value, from + 1, to, at + 1);
    }
  }

  lemma {:induction false} SegmentThenMatch(pattern: string, value: string, from: nat, to: nat, at: nat)
    requires from <= to <= |pattern| && at + to - from <= |value|
    requires SegmentFits(pattern, value, from, to, at)
    requires MatchesFrom(pattern, value, to, at + to - from)
    ensures MatchesFrom(pattern, value, from, at)
    decreases |pattern| - from
  {
    if from < to {
      SegmentThenMatch(pattern, value, from + 1, to, at + 1);
    }
  }

  /** What the recursive meaning says about a cursor: with a `*` behind it, the text after `retry` may still be
      absorbed by that `*`. */
  ghost predicate Pending(pattern: string, value: string, c: Cursor)
    requires InRange(pattern, value, c)
  {
    if c.star.None? then MatchesFrom(pattern, value, c.pattern, c.value)
    else MatchesFrom(pattern, value, c.star.value, c.retry)
  }

  ghost predicate Consistent(pattern: string, value: string, c: Cursor) {
    && InRange(pattern, value, c)
    && (c.star.Some? ==>
          && pattern[c.star.value] == '*'
          && c.pattern - (c.star.value + 1) == c.value - c.retry
          && SegmentFits(pattern, value, c.star.value + 1, c.pattern, c.retry))
  }

  lemma {:induction false} AllStarsMatchEmpty(pattern: string, value: string, i: nat)
    requires i <= |pattern|
    ensures MatchesFrom(pattern, value, i, |value|) <==> forall k :: i <= k < |pattern| ==> pattern[k] == '*'
    decreases |pattern| - i
  {
    if i < |pattern| { AllStarsMatchEmpty(pattern, value, i + 1); }
  }

  /** Some later resumption point matches the text after the `*`. */
  lemma {:induction false} StarChoice(pattern: string, value: string, i: nat, j: nat) returns (k: nat)
    requires i < |pattern| && j <= |value| && pattern[i] == '*'
    requires MatchesFrom(pattern, value, i, j)
    ensures j <= k <= |value| && MatchesFrom(pattern, value, i + 1, k)
    decreases |value| - j
  {
    if MatchesFrom(pattern, value, i + 1, j) { k := j; } else { k := StarChoice(pattern, value, i, j + 1); }
  }

  /** Committing to the earliest fit of a stretch between two stars loses no match. */
  lemma {:induction false} EarliestFitSuffices(pattern: string, value: string, c: Cursor)
    requires Consistent(pattern, value, c)
    requires c.star.Some? && c.pattern < |pattern| && pattern[c.pattern] == '*'
    ensures Pending(pattern, value, c) <==> MatchesFrom(pattern, value, c.pattern, c.value)
  {
    var s := c.star.value;
    if Pending(pattern, value, c) {
      var k := StarChoice(pattern, value, s, c.retry);
      MatchAfterSegment(pattern, value, s + 1, c.pattern, k);
      StarAbsorbs(pattern, value, c.pattern, c.value, k + (c.pattern - (s + 1)));
    }
    if MatchesFrom(pattern, value, c.pattern, c.value) {
      SegmentThenMatch(pattern, value, s + 1, c.pattern, c.retry);
    }
  }

  /** When the stretch after the `*` cannot be continued, the `*` has to absorb one more character. */
  lemma {:induction false} RetryIsForced(pattern: string, value: string, c: Cursor)
    requires Consistent(pattern, value, c)
    requires c.star.Some? && c.value < |value|
    requires c.pattern == |pattern| ||
             (pattern[c.pattern] != '*' && pattern[c.pattern] != '?' && pattern[c.pattern] != value[c.value])
    ensures Pending(pattern, value, c) <==> MatchesFrom(pattern, value, c.star.value, c.retry + 1)
  {
    var s := c.star.value;
    if MatchesFrom(pattern, value, s + 1, c.retry) {
      MatchAfterSegment(pattern, value, s + 1, c.pattern, c.retry);
    }
  }

  lemma {:induction false} AnswerFromCursor(pattern: string, value: string, c: Cursor)
    requires '*' !in value
    requires Consistent(pattern, value, c)
    ensures Answer(pattern, value, c) <==> Pending(pattern, value, c)
    decreases |value| - c.retry, |pattern| - c.pattern
  {
    if c.value == |value| {
      AllStarsMatchEmpty(pattern, value, c.pattern);
      if c.star.Some? { EndOfValue(pattern, value, c); }
    } else if c.pattern < |pattern| && (pattern[c.pattern] == '?' || pattern[c.pattern] == value[c.value]) {
      var next := c.(pattern := c.pattern + 1, value := c.value + 1);
      assert pattern[c.pattern] != '*';
      if c.star.Some? {
        assert SegmentFits(pattern, value, c.star.value + 1, next.pattern, c.retry);
      }
      AnswerFromCursor(pattern, value, next);
    } else if c.pattern < |pattern| && pattern[c.pattern] == '*' {
      if c.star.Some? { EarliestFitSuffices(pattern, value, c); }
      AnswerFromCursor(pattern, value, Cursor(c.pattern + 1, c.value, Some(c.pattern), c.value));
    } else if c.star.Some? {
      RetryIsForced(pattern, value, c);
      AnswerFromCursor(pattern, value, Cursor(c.star.value + 1, c.retry + 1, c.star, c.retry + 1));
    }
  }

  /** At the end of the value the remaining pattern must be stars, wherever the last `*` resumed. */
  lemma {:induction false} EndOfValue(pattern: string, value: string, c: Cursor)
    requires Consistent(pattern, value, c)
    requires c.star.Some? && c.value == |value|
    ensures Pending(pattern, value, c) <==> MatchesFrom(pattern, value, c.pattern, |value|)
  {
    var s := c.star.value;
    if Pending(pattern, value, c) {
      var k := StarChoice(pattern, value, s, c.retry);
      MatchAfterSegment(pattern, value, s + 1, c.pattern, k);
    }
    if MatchesFrom(pattern, value, c.pattern, c.value) {
      SegmentThenMatch(pattern, value, s + 1, c.pattern, c.retry);
    }
  }

  /** The matcher computes the recursive meaning on every value without `*`; interface names have none. */
  lemma AnswerIsMatch(pattern: string, value: string)
    ensures '*' !in value ==> (Answer(pattern, value, START) <==> Matches(pattern, value))
  {
    if '*' !in value { AnswerFromCursor(pattern, value, START); }
  }

  /** A literal prefix shared by pattern and value is consumed one character at a time. */
  lemma {:induction false} CommonPrefix(pattern: string, value: string, i: nat, k: nat)
    requires i <= k <= |pattern| && k <= |value|
    requires forall q :: i <= q < k ==> pattern[q] == value[q] && pattern[q] != '*'
    ensures Answer(pattern, value, Cursor(i, i, None, 0)) == Answer(pattern, value, Cursor(k, k, None, 0))
    ensures MatchesFrom(pattern, value, k, k) ==> MatchesFrom(pattern, value, i, i)
    decreases k - i
  {
    if i < k { CommonPrefix(pattern, value, i + 1, k); }
  }

  function FirstStar(value: string): (k: nat)
    requires '*' in value
    ensures k < |value| && value[k] == '*' && '*' !in value[..k]
  {
    if value[0] == '*' then 0
    else
      assert value == [value[0]] + value[1..];
      var k := 1 + FirstStar(value[1..]);
      assert value[..k] == [value[0]] + value[1..][..k - 1];
      k
  }

  /** On any value that contains `*` some pattern is misjudged: the `*` of the pattern is taken literally. */
  lemma StarInValueMisjudged(value: string) returns (pattern: string)
    requires '*' in value
    ensures !Answer(pattern, value, START) && Matches(pattern, value)
  {
    var k := FirstStar(value);
    pattern := value[..k] + (if k + 1 < |value| then "*" else "*?");
    forall q | 0 <= q < k ensures pattern[q] == value[q] && pattern[q] != '*' {
      assert value[q] == value[..k][q];
    }
    CommonPrefix(pattern, value, 0, k);
    assert pattern[k] == '*' == value[k];
    if k + 1 < |value| {
      assert |pattern| == k + 1;
      assert MatchesFrom(pattern, value, k + 1, |value|);
      StarAbsorbs(pattern, value, k, k, |value|);
    } else {
      assert |pattern| == k + 2 && pattern[k + 1] == '?';
      assert MatchesFrom(pattern, value, k + 2, k + 1);
      assert MatchesFrom(pattern, value, k + 1, k);
    }
  }

  /** Exactly the values without `*` are judged correctly by every pattern. */
  lemma CorrectExactlyWithoutStar(value: string)
    ensures (forall pattern :: Answer(pattern, value, START) == Matches(pattern, value)) <==> '*' !in value
  {
    if '*' in value {
      var pattern := StarInValueMisjudged(value);
    } else {
      forall pattern ensures Answer(pattern, value, START) == Matches(pattern, value) {
        AnswerIsMatch(pattern, value);
      }
    }
  }
}
