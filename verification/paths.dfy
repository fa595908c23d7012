/** Qualified names, as absolute clean slash paths: the sequence of their components. */
module Paths {
  type Name = string

  /** `[]` is "/", and `["m", "a"]` is "/m/a". */
  type Path = seq<Name>

  /** path.Dir: the parent, with "/" its own parent. */
  function Dir(p: Path): Path {
    if p == [] then [] else p[..|p| - 1]
  }

  /** `a` is `b` or one of the paths above it. */
  predicate AtOrAbove(a: Path, b: Path) {
    |a| <= |b| && a == b[..|a|]
  }

  predicate IsAncestor(current: Path, target: Path) {
    |current| < |target| && current == target[..|current|]
  }

  /** The source's loop: climb from the target's parent until the root is reached. */
  method ClimbToAncestor(current: Path, target: Path) returns (found: bool)
    ensures found == IsAncestor(current, target)
  {
    if current == target {
      return false;
    }
    if current == [] {
      return true;
    }
    var parent := Dir(target);
    while parent != []
      invariant AtOrAbove(parent, target)
      invariant IsAncestor(current, target) ==> AtOrAbove(current, parent)
      decreases |parent|
    {
      if parent == current {
        return true;
      }
      parent := Dir(parent);
    }
    return false;
  }

  /** Lowest common ancestor, case by case as the source decides it. */
  function LCA(a: Path, b: Path): Path
    decreases |a| + |b|
  {
    if a == b then Dir(a)
    else if Dir(a) == Dir(b) then Dir(a)
    else if IsAncestor(a, b) then a
    else if IsAncestor(b, a) then b
    else LCA(Dir(a), Dir(b))
  }

  ghost predicate LongestCommonPrefix(l: Path, a: Path, b: Path) {
    && AtOrAbove(l, a)
    && AtOrAbove(l, b)
    && forall c: Path :: AtOrAbove(c, a) && AtOrAbove(c, b) ==> AtOrAbove(c, l)
  }

  /** Distinct paths have their longest common prefix as lowest common ancestor;
      a path and itself have the parent. */
  lemma {:induction false} LCAIsLongestCommonPrefix(a: Path, b: Path)
    ensures a == b ==> LCA(a, b) == Dir(a)
    ensures a != b ==> LongestCommonPrefix(LCA(a, b), a, b)
    decreases |a| + |b|
  {
    if a != b {
      if Dir(a) == Dir(b) {
        forall c: Path | AtOrAbove(c, a) && AtOrAbove(c, b) ensures AtOrAbove(c, Dir(a)) {
        }
      } else if IsAncestor(a, b) || IsAncestor(b, a) {
      } else {
        LCAIsLongestCommonPrefix(Dir(a), Dir(b));
        forall c: Path | AtOrAbove(c, a) && AtOrAbove(c, b)
          ensures AtOrAbove(c, LCA(a, b))
        {
          assert c != a && c != b;
          assert AtOrAbove(c, Dir(a)) && AtOrAbove(c, Dir(b));
        }
      }
    }
  }

  /** The paths strictly below depth `low` on the way down to `p`, outermost first. */
  function Chain(low: nat, p: Path): (c: seq<Path>)
    ensures |c| == if |p| <= low then 0 else |p| - low
    decreases |p|
  {
    if |p| <= low then [] else Chain(low, Dir(p)) + [p]
  }

  lemma {:induction false} ChainElements(low: nat, p: Path)
    ensures forall i :: 0 <= i < |Chain(low, p)| ==> Chain(low, p)[i] == p[..low + 1 + i]
    decreases |p|
  {
    if |p| > low {
      ChainElements(low, Dir(p));
      forall i | 0 <= i < |p| - low ensures Chain(low, p)[i] == p[..low + 1 + i] {
        if i < |p| - low - 1 {
          assert Dir(p)[..low + 1 + i] == p[..low + 1 + i];
        } else {
          assert p[..low + 1 + i] == p;
        }
      }
    }
  }

  /** A chain splits at any path on it. */
  lemma {:induction false} ChainSplits(low: nat, mid: Path, p: Path)
    requires AtOrAbove(mid, p) && low <= |mid|
    ensures Chain(low, p) == Chain(low, mid) + Chain(|mid|, p)
    decreases |p|
  {
    if |p| == |mid| {
      assert mid == p;
    } else {
      assert AtOrAbove(mid, Dir(p));
      ChainSplits(low, mid, Dir(p));
    }
  }

  function Reverse<T>(s: seq<T>): (r: seq<T>)
    ensures |r| == |s|
  {
    if s == [] then [] else [s[|s| - 1]] + Reverse(s[..|s| - 1])
  }
}
