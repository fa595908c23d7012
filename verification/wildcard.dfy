/** Wildcard matching of attribute and event names against patterns. Go strings are byte
    strings, and the only special byte is the star. */
module Wildcard {
  newtype Byte = x: int | 0 <= x < 256

  type Bytes = seq<Byte>

  const STAR: Byte := 42

  /** The glob language: a star stands for any byte string, every other byte for itself. */
  ghost predicate Glob(value: Bytes, pattern: Bytes)
    decreases |pattern|
  {
    if pattern == [] then value == []
    else if pattern[0] == STAR then exists k :: 0 <= k <= |value| && Glob(value[k..], pattern[1..])
    else value != [] && value[0] == pattern[0] && Glob(value[1..], pattern[1..])
  }

  /** A run of literal bytes matches exactly itself. */
  lemma {:induction false} LiteralPrefix(value: Bytes, pattern: Bytes, n: nat)
    requires n <= |pattern| && STAR !in pattern[..n]
    ensures Glob(value, pattern) <==> n <= |value| && value[..n] == pattern[..n] && Glob(value[n..], pattern[n..])
    decreases n
  {
    if n == 0 {
      assert value[0..] == value && pattern[0..] == pattern;
    } else {
      assert pattern[0] in pattern[..n];
      assert pattern[1..][..n - 1] == pattern[..n][1..];
      if value != [] {
        LiteralPrefix(value[1..], pattern[1..], n - 1);
        assert pattern[1..][n - 1..] == pattern[n..];
        if n <= |value| {
          assert value[1..][n - 1..] == value[n..];
          assert value[..n] == [value[0]] + value[1..][..n - 1];
          assert pattern[..n] == [pattern[0]] + pattern[1..][..n - 1];
        }
      }
    }
  }

  /** A leading star can absorb any prefix. */
  lemma StarAbsorbs(value: Bytes, pattern: Bytes, k: nat)
    requires pattern != [] && pattern[0] == STAR && k <= |value| && Glob(value[k..], pattern)
    ensures Glob(value, pattern)
  {
    var j :| 0 <= j <= |value[k..]| && Glob(value[k..][j..], pattern[1..]);
    assert value[k..][j..] == value[k + j..];
  }

  /** Any string followed by a star matches that string extended in any way, stars inside it included. */
  lemma {:induction false} PrefixThenStar(prefix: Bytes, rest: Bytes)
    ensures Glob(prefix + rest, prefix + [STAR])
    decreases |prefix|
  {
    var value, pattern := prefix + rest, prefix + [STAR];
    if prefix == [] {
      assert value[|value|..] == [] && pattern[1..] == [];
    } else {
      PrefixThenStar(prefix[1..], rest);
      assert value[1..] == prefix[1..] + rest && pattern[1..] == prefix[1..] + [STAR];
    }
  }

  lemma {:induction false} MatchesItself(value: Bytes)
    ensures Glob(value, value)
    decreases |value|
  {
    if value != [] {
      MatchesItself(value[1..]);
    }
  }

  /** Some resumption of the last star, at `from` or later, matches the rest of the pattern. */
  ghost predicate SomeResume(value: Bytes, from: nat, rest: Bytes) {
    exists k :: from <= k <= |value| && Glob(value[k..], rest)
  }

  lemma StarResumes(value: Bytes, from: nat, pattern: Bytes)
    requires from <= |value| && pattern != [] && pattern[0] == STAR
    ensures Glob(value[from..], pattern) <==> SomeResume(value, from, pattern[1..])
  {
    if k :| 0 <= k <= |value[from..]| && Glob(value[from..][k..], pattern[1..]) {
      assert value[from..][k..] == value[from + k..];
    }
    if k :| from <= k <= |value| && Glob(value[k..], pattern[1..]) {
      assert value[from..][k - from..] == value[k..];
    }
  }

  /** What is left to decide: with no star seen, the two suffixes; after a star, whether it can be resumed. */
  ghost predicate Undecided(value: Bytes, pattern: Bytes, vi: nat, pi: nat, star: int, from: int)
    requires vi <= |value| && pi <= |pattern|
  {
    if star == -1 then Glob(value, pattern) <==> Glob(value[vi..], pattern[pi..])
    else
      && 0 <= star < pi && 0 <= from <= vi
      && vi - from == pi - star - 1
      && value[from..vi] == pattern[star + 1..pi] && STAR !in pattern[star + 1..pi]
      && (Glob(value, pattern) <==> SomeResume(value, from, pattern[star + 1..]))
  }

  /** The current attempt is the last star's resumption at `from`. */
  lemma AttemptIsResume(value: Bytes, pattern: Bytes, vi: nat, pi: nat, star: int, from: int)
    requires vi <= |value| && pi <= |pattern| && Undecided(value, pattern, vi, pi, star, from) && star != -1
    ensures Glob(value[from..], pattern[star + 1..]) <==> Glob(value[vi..], pattern[pi..])
  {
    var n := pi - star - 1;
    var v, p := value[from..], pattern[star + 1..];
    assert p[..n] == pattern[star + 1..pi] && p[n..] == pattern[pi..];
    assert v[..n] == value[from..vi] && v[n..] == value[vi..];
    LiteralPrefix(v, p, n);
  }

  /** A resumption that starts later also ends later. */
  lemma LaterResumeEndsLater(value: Bytes, pattern: Bytes, vi: nat, pi: nat, star: int, from: int, k: nat)
    requires vi <= |value| && pi <= |pattern| && Undecided(value, pattern, vi, pi, star, from) && star != -1
    requires from <= k <= |value| && Glob(value[k..], pattern[star + 1..])
    ensures vi + (k - from) <= |value| && Glob(value[vi + (k - from)..], pattern[pi..])
  {
    var n := pi - star - 1;
    var v, p := value[k..], pattern[star + 1..];
    assert p[..n] == pattern[star + 1..pi] && p[n..] == pattern[pi..];
    LiteralPrefix(v, p, n);
    assert v[n..] == value[k + n..];
  }

  /** Meeting a star settles everything before it: earlier stars need never be resumed. */
  lemma StarSettles(value: Bytes, pattern: Bytes, vi: nat, pi: nat, star: int, from: int)
    requires vi <= |value| && pi < |pattern| && pattern[pi] == STAR && Undecided(value, pattern, vi, pi, star, from)
    ensures Undecided(value, pattern, vi, pi + 1, pi, vi)
  {
    StarResumes(value, vi, pattern[pi..]);
    if star != -1 {
      AttemptIsResume(value, pattern, vi, pi, star, from);
      if k :| from <= k <= |value| && Glob(value[k..], pattern[star + 1..]) {
        LaterResumeEndsLater(value, pattern, vi, pi, star, from, k);
        assert value[vi..][k - from..] == value[vi + (k - from)..];
        StarAbsorbs(value[vi..], pattern[pi..], k - from);
      }
    }
  }

  lemma LiteralSettles(value: Bytes, pattern: Bytes, vi: nat, pi: nat, star: int, from: int)
    requires vi < |value| && pi < |pattern| && Undecided(value, pattern, vi, pi, star, from)
    requires pattern[pi] == value[vi] && pattern[pi] != STAR
    ensures Undecided(value, pattern, vi + 1, pi + 1, star, from)
  {
    hide Glob, SomeResume;
    if star == -1 {
      LiteralStep(value, pattern, vi, pi);
    } else {
      assert value[from..vi + 1] == value[from..vi] + [value[vi]];
      assert pattern[star + 1..pi + 1] == pattern[star + 1..pi] + [pattern[pi]];
    }
  }

  lemma LiteralStep(value: Bytes, pattern: Bytes, vi: nat, pi: nat)
    requires vi < |value| && pi < |pattern| && pattern[pi] == value[vi] && pattern[pi] != STAR
    ensures Glob(value[vi..], pattern[pi..]) <==> Glob(value[vi + 1..], pattern[pi + 1..])
  {
    assert value[vi..][1..] == value[vi + 1..] && pattern[pi..][1..] == pattern[pi + 1..];
  }

  lemma Mismatch(value: Bytes, pattern: Bytes, vi: nat, pi: nat)
    requires vi < |value| && pi <= |pattern|
    requires pi < |pattern| ==> pattern[pi] != value[vi] && pattern[pi] != STAR
    ensures !Glob(value[vi..], pattern[pi..])
  {
    if pi < |pattern| {
      assert pattern[pi..][0] == pattern[pi] && value[vi..][0] == value[vi];
    }
  }

  lemma ResumeLater(value: Bytes, from: nat, rest: Bytes)
    requires from <= |value| && !Glob(value[from..], rest)
    ensures SomeResume(value, from, rest) <==> SomeResume(value, from + 1, rest)
  {
    hide Glob;
  }

  /** A mismatch rules out the current attempt, and nothing else. */
  lemma MismatchSettles(value: Bytes, pattern: Bytes, vi: nat, pi: nat, star: int, from: int)
    requires vi < |value| && pi <= |pattern| && Undecided(value, pattern, vi, pi, star, from)
    requires pi < |pattern| ==> pattern[pi] != value[vi] && pattern[pi] != STAR
    ensures star == -1 ==> !Glob(value, pattern)
    ensures star != -1 ==> Undecided(value, pattern, from + 1, star + 1, star, from + 1)
  {
    hide Glob, SomeResume;
    Mismatch(value, pattern, vi, pi);
    if star != -1 {
      AttemptIsResume(value, pattern, vi, pi, star, from);
      ResumeLater(value, from, pattern[star + 1..]);
    }
  }

  /** Whether what is left of the pattern matches the empty string: it is all stars. */
  ghost predicate EmptyFrom(pattern: Bytes, pi: nat)
    requires pi <= |pattern|
  {
    Glob([], pattern[pi..])
  }

  lemma EmptyFromStep(pattern: Bytes, pi: nat)
    requires pi <= |pattern|
    ensures EmptyFrom(pattern, pi) <==> pi == |pattern| || (pattern[pi] == STAR && EmptyFrom(pattern, pi + 1))
  {
    var none: Bytes := [];
    assert none[0..] == none;
    assert pi < |pattern| ==> pattern[pi..][1..] == pattern[pi + 1..];
  }

  /** With the value used up, the answer is that of the current attempt. */
  lemma ValueEnds(value: Bytes, pattern: Bytes, pi: nat, star: int, from: int)
    requires pi <= |pattern| && Undecided(value, pattern, |value|, pi, star, from)
    ensures Glob(value, pattern) <==> EmptyFrom(pattern, pi)
  {
    hide Glob;
    assert value[|value|..] == [];
    if star != -1 {
      AttemptIsResume(value, pattern, |value|, pi, star, from);
      OnlyFirstResume(value, pattern, pi, star, from);
    }
  }

  lemma OnlyFirstResume(value: Bytes, pattern: Bytes, pi: nat, star: int, from: int)
    requires pi <= |pattern| && Undecided(value, pattern, |value|, pi, star, from) && star != -1
    ensures SomeResume(value, from, pattern[star + 1..]) <==> Glob(value[from..], pattern[star + 1..])
  {
    hide Glob;
    if k :| from <= k <= |value| && Glob(value[k..], pattern[star + 1..]) {
      LaterResumeEndsLater(value, pattern, |value|, pi, star, from, k);
      assert k == from;
    }
  }

  lemma NothingDecided(value: Bytes, pattern: Bytes)
    ensures Undecided(value, pattern, 0, 0, -1, -1)
  {
    assert value[0..] == value && pattern[0..] == pattern;
  }

  lemma TrailingStar(value: Bytes, pattern: Bytes, vi: nat)
    requires vi <= |value| && pattern != [] && Undecided(value, pattern, vi, |pattern|, |pattern| - 1, vi)
    ensures Glob(value, pattern)
  {
    assert Glob(value[|value|..], pattern[|pattern|..]);
  }

  /** Past the end of the value only stars may be left. */
  method OnlyStars(pattern: Bytes, from: nat) returns (only: bool)
    requires from <= |pattern|
    ensures only <==> EmptyFrom(pattern, from)
  {
    hide EmptyFrom;
    var pi := from;
    while pi < |pattern| && pattern[pi] == STAR
      invariant pi <= |pattern|
      invariant EmptyFrom(pattern, from) <==> EmptyFrom(pattern, pi)
    {
      EmptyFromStep(pattern, pi);
      pi := pi + 1;
    }
    EmptyFromStep(pattern, pi);
    return pi == |pattern|;
  }

  /** The matcher: one loop that remembers only the last star. */
  method Parse(value: Bytes, pattern: Bytes) returns (matched: bool)
    ensures matched <==> Glob(value, pattern)
  {
    var vi, pi := 0, 0;
    var star, from := -1, -1;
    NothingDecided(value, pattern);
    hide Glob, Undecided, EmptyFrom;
    while true
      invariant 0 <= vi <= |value| && 0 <= pi <= |pattern|
      invariant Undecided(value, pattern, vi, pi, star, from)
      invariant -1 <= star < pi && -1 <= from <= vi && (star != -1 ==> 0 <= from)
      decreases |pattern| - star, |value| - from, |pattern| - pi
    {
      hide Glob, Undecided, EmptyFrom;
      if pi < |pattern| && pattern[pi] == STAR {
        StarSettles(value, pattern, vi, pi, star, from);
        star := pi;
        pi := pi + 1;
        from := vi;
        if pi == |pattern| {
          TrailingStar(value, pattern, vi);
          return true;
        }
      } else if vi < |value| && pi < |pattern| && pattern[pi] == value[vi] {
        LiteralSettles(value, pattern, vi, pi, star, from);
        vi := vi + 1;
        pi := pi + 1;
      } else if vi == |value| && pi == |pattern| {
        ValueEnds(value, pattern, pi, star, from);
        EmptyFromStep(pattern, pi);
        return true;
      } else if vi == |value| && pi < |pattern| {
        ValueEnds(value, pattern, pi, star, from);
        matched := OnlyStars(pattern, pi);
        return;
      } else if star != -1 {
        MismatchSettles(value, pattern, vi, pi, star, from);
        from := from + 1;
        if from > |value| {
          return false;
        }
        vi := from;
        pi := star + 1;
      } else {
        MismatchSettles(value, pattern, vi, pi, star, from);
        return false;
      }
    }
  }

  ghost predicate SomeGlobs(value: Bytes, patterns: seq<Bytes>) {
    exists i :: 0 <= i < |patterns| && Glob(value, patterns[i])
  }

  /** Pattern `i` is reached: the loop returns at the first empty pattern. */
  ghost predicate Reached(patterns: seq<Bytes>, i: nat) {
    i < |patterns| && [] !in patterns[..i]
  }

  ghost predicate SomeReachedGlobs(value: Bytes, patterns: seq<Bytes>) {
    exists i: nat :: Reached(patterns, i) && Glob(value, patterns[i])
  }

  method Match(value: Bytes, patterns: seq<Bytes>) returns (matched: bool)
    ensures matched <==> SomeReachedGlobs(value, patterns)
  {
    for i := 0 to |patterns|
      invariant [] !in patterns[..i]
      invariant forall j :: 0 <= j < i ==> !Glob(value, patterns[j])
    {
      var pattern := patterns[i];
      assert Reached(patterns, i);
      if pattern == value {
        MatchesItself(value);
        return true;
      }
      if pattern == [STAR] {
        PrefixThenStar([], value);
        assert [] + value == value && [] + [STAR] == pattern;
        return true;
      }
      if |pattern| == 0 {
        assert forall j: nat :: Reached(patterns, j) && j > i ==> patterns[i] in patterns[..j];
        return value == [];
      }
      if pattern[|pattern| - 1] == STAR && pattern[..|pattern| - 1] <= value {
        PrefixThenStar(pattern[..|pattern| - 1], value[|pattern| - 1..]);
        assert pattern[..|pattern| - 1] + value[|pattern| - 1..] == value;
        assert pattern[..|pattern| - 1] + [STAR] == pattern;
        return true;
      }
      var parsed := Parse(value, pattern);
      if parsed {
        return true;
      }
    }
    return false;
  }

  /** An empty pattern hides the patterns after it: the answer is wrong exactly when the value
      is not empty, no pattern before some empty one globs it, and one after that does. */
  lemma EmptyPatternHides(value: Bytes, patterns: seq<Bytes>)
    ensures (SomeReachedGlobs(value, patterns) <==> SomeGlobs(value, patterns))
            <==> !(exists n: nat :: HidesMatch(value, patterns, n))
  {
    if n: nat :| HidesMatch(value, patterns, n) {
      var i :| 0 <= i < |patterns[n + 1..]| && Glob(value, patterns[n + 1..][i]);
      assert Glob(value, patterns[n + 1 + i]);
      assert forall i: nat :: Reached(patterns, i) && i > n ==> patterns[n] in patterns[..i];
      assert forall i: nat :: i < n ==> patterns[..n][i] == patterns[i];
    } else if j :| 0 <= j < |patterns| && Glob(value, patterns[j]) {
      FirstGlobIsReached(value, patterns, j);
    }
  }

  ghost predicate HidesMatch(value: Bytes, patterns: seq<Bytes>, n: nat) {
    && value != [] && n < |patterns| && patterns[n] == []
    && !SomeGlobs(value, patterns[..n]) && SomeGlobs(value, patterns[n + 1..])
  }

  lemma {:induction false} FirstGlobIsReached(value: Bytes, patterns: seq<Bytes>, j: nat)
    requires j < |patterns| && Glob(value, patterns[j]) && !(exists n: nat :: HidesMatch(value, patterns, n))
    ensures SomeReachedGlobs(value, patterns)
    decreases j
  {
    if k :| 0 <= k < j && Glob(value, patterns[k]) {
      FirstGlobIsReached(value, patterns, k);
    } else if n :| 0 <= n < j && patterns[n] == [] {
      assert Glob([], []);
      assert patterns[n + 1..][j - n - 1] == patterns[j];
      assert HidesMatch(value, patterns, n);
    } else {
      assert Reached(patterns, j);
    }
  }

  /** Without an empty pattern before the last, matching is globbing by some pattern. */
  lemma MatchIsGlob(value: Bytes, patterns: seq<Bytes>)
    requires patterns != [] ==> [] !in patterns[..|patterns| - 1]
    ensures SomeReachedGlobs(value, patterns) <==> SomeGlobs(value, patterns)
  {
    forall n: nat
      ensures !HidesMatch(value, patterns, n)
    {
      if n < |patterns| - 1 {
        assert patterns[n] in patterns[..|patterns| - 1];
      }
    }
    EmptyPatternHides(value, patterns);
  }

  /** The value "a" against the patterns "" and "a": the second pattern globs it, the answer is no. */
  lemma EmptyPatternExample()
    ensures SomeGlobs([97], [[], [97]]) && !SomeReachedGlobs([97], [[], [97]])
  {
    var value: Bytes := [97];
    MatchesItself(value);
    assert [[], value][1] == value;
    assert HidesMatch(value, [[], value], 0) by {
      assert [[], value][1..][0] == value;
    }
    EmptyPatternHides(value, [[], value]);
  }

  // ----- the glob language as fillings -----

  function Stars(pattern: Bytes): nat {
    if pattern == [] then 0 else (if pattern[0] == STAR then 1 else 0) + Stars(pattern[1..])
  }

  /** The pattern with its stars replaced by the given strings. */
  function Fill(pattern: Bytes, fills: seq<Bytes>): Bytes
    requires |fills| == Stars(pattern)
  {
    if pattern == [] then []
    else if pattern[0] == STAR then fills[0] + Fill(pattern[1..], fills[1..])
    else [pattern[0]] + Fill(pattern[1..], fills)
  }

  ghost predicate IsFilling(value: Bytes, pattern: Bytes, fills: seq<Bytes>) {
    |fills| == Stars(pattern) && Fill(pattern, fills) == value
  }

  /** A pattern globs exactly the values it becomes when each star is replaced by some string, the
      empty one included. */
  lemma {:induction false} GlobIsFilling(value: Bytes, pattern: Bytes)
    ensures Glob(value, pattern) <==> exists fills :: IsFilling(value, pattern, fills)
    decreases |pattern|
  {
    if pattern == [] {
      if value == [] {
        assert IsFilling(value, pattern, []);
      }
    } else if pattern[0] == STAR {
      StarIsFilled(value, pattern);
    } else {
      if value != [] {
        GlobIsFilling(value[1..], pattern[1..]);
      }
      if Glob(value, pattern) {
        var fills :| IsFilling(value[1..], pattern[1..], fills);
        assert IsFilling(value, pattern, fills);
      }
      if fills :| IsFilling(value, pattern, fills) {
        assert value == [pattern[0]] + Fill(pattern[1..], fills);
        assert IsFilling(value[1..], pattern[1..], fills);
      }
    }
  }

  lemma {:induction false} StarIsFilled(value: Bytes, pattern: Bytes)
    requires pattern != [] && pattern[0] == STAR
    ensures Glob(value, pattern) <==> exists fills :: IsFilling(value, pattern, fills)
    decreases |pattern|, 0
  {
    if Glob(value, pattern) {
      var k :| 0 <= k <= |value| && Glob(value[k..], pattern[1..]);
      GlobIsFilling(value[k..], pattern[1..]);
      var fills :| IsFilling(value[k..], pattern[1..], fills);
      var all := [value[..k]] + fills;
      assert all[1..] == fills && value[..k] + value[k..] == value;
      assert IsFilling(value, pattern, all);
    }
    if fills :| IsFilling(value, pattern, fills) {
      var k := |fills[0]|;
      assert value[k..] == Fill(pattern[1..], fills[1..]);
      assert IsFilling(value[k..], pattern[1..], fills[1..]);
      GlobIsFilling(value[k..], pattern[1..]);
    }
  }
}
