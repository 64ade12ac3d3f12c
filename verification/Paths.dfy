/** Slash-separated path keys, and the prefix relation that plays the part of
    "is inside this directory" everywhere in the synchronisation code. */
module Paths {

  type Path = string

  /** p lies strictly inside directory d. */
  predicate Under(d: Path, p: Path) {
    d + "/" <= p
  }

  predicate AtOrUnder(d: Path, p: Path) {
    p == d || Under(d, p)
  }

  /** Every directory on the way to p. */
  function Parents(p: Path): set<Path> {
    set i | 0 <= i < |p| && p[i] == '/' :: p[..i]
  }

  /** Number of separators, the sort key of the planner's directory phases. */
  function Depth(p: Path): nat {
    if p == "" then 0 else Depth(p[..|p| - 1]) + (if p[|p| - 1] == '/' then 1 else 0)
  }

  lemma UnderAt(d: Path, p: Path)
    ensures Under(d, p) <==> |d| < |p| && p[..|d|] == d && p[|d|] == '/'
  {
    if |d| < |p| && p[..|d|] == d && p[|d|] == '/' {
      assert p[..|d| + 1] == d + "/";
    }
    if Under(d, p) {
      assert p[..|d| + 1] == d + "/";
      assert p[|d|] == (d + "/")[|d|];
      assert p[..|d|] == (d + "/")[..|d|] == d;
    }
  }

  lemma ParentsAreAncestors(p: Path)
    ensures forall d :: d in Parents(p) <==> Under(d, p)
  {
    forall d ensures d in Parents(p) <==> Under(d, p) {
      UnderAt(d, p);
      if Under(d, p) {
        assert p[..|d|] in Parents(p);
      }
    }
  }

  lemma UnderTransitive(a: Path, b: Path, c: Path)
    requires Under(a, b) && Under(b, c)
    ensures Under(a, c)
  {
    UnderAt(a, b);
    UnderAt(b, c);
    assert c[..|a|] == b[..|a|];
    assert c[|a|] == b[|a|];
    UnderAt(a, c);
  }

  lemma {:induction false} DepthMonotone(p: Path, i: nat)
    requires i <= |p|
    ensures Depth(p[..i]) <= Depth(p)
    decreases |p|
  {
    if i < |p| {
      DepthMonotone(p[..|p| - 1], i);
      assert p[..|p| - 1][..i] == p[..i];
    } else {
      assert p[..i] == p;
    }
  }

  /** A path is strictly deeper than any directory holding it, so sorting by
      depth puts parents before children and the reverse puts them after. */
  lemma UnderIsDeeper(d: Path, p: Path)
    requires Under(d, p)
    ensures Depth(d) < Depth(p)
  {
    UnderAt(d, p);
    var q := p[..|d| + 1];
    assert q[..|q| - 1] == d;
    DepthMonotone(p, |d| + 1);
  }

  lemma UnderIrreflexive(p: Path)
    ensures !Under(p, p)
  {
    UnderAt(p, p);
  }

  /** Two directories on the way to one path lie one inside the other. */
  lemma AncestorsNest(a: Path, b: Path, q: Path)
    requires Under(a, q) && Under(b, q)
    ensures a == b || Under(a, b) || Under(b, a)
  {
    UnderAt(a, q);
    UnderAt(b, q);
    if |a| < |b| {
      assert b[..|a|] == q[..|a|] && b[|a|] == q[|a|];
      UnderAt(a, b);
    } else if |b| < |a| {
      assert a[..|b|] == q[..|b|] && a[|b|] == q[|b|];
      UnderAt(b, a);
    }
  }
}
