/** Ordered maps: iteration in key order, and the lower-bound lookup that decides
    whether a directory still holds something locally. */
module Keys {
  import opened Paths

  /** Lexicographic order of keys. */
  predicate Leq(a: Path, b: Path) {
    if a == "" then true
    else if b == "" then false
    else if a[0] != b[0] then a[0] < b[0]
    else Leq(a[1..], b[1..])
  }

  lemma {:induction false} LeqTotal(a: Path, b: Path)
    ensures Leq(a, b) || Leq(b, a)
    ensures Leq(a, b) && Leq(b, a) ==> a == b
  {
    if a != "" && b != "" && a[0] == b[0] {
      LeqTotal(a[1..], b[1..]);
      assert a == [a[0]] + a[1..] && b == [b[0]] + b[1..];
    }
  }

  lemma {:induction false} LeqTransitive(a: Path, b: Path, c: Path)
    requires Leq(a, b) && Leq(b, c)
    ensures Leq(a, c)
  {
    if a != "" && a[0] == b[0] && b[0] == c[0] {
      LeqTransitive(a[1..], b[1..], c[1..]);
    }
  }

  lemma {:induction false} PrefixLeq(p: Path, q: Path)
    requires p <= q
    ensures Leq(p, q)
  {
    if p != "" {
      PrefixLeq(p[1..], q[1..]);
    }
  }

  /** Keys with a given prefix form an interval that starts at the prefix. */
  lemma {:induction false} PrefixInterval(p: Path, x: Path, q: Path)
    requires Leq(p, x) && Leq(x, q) && p <= q
    ensures p <= x
  {
    if p != "" {
      assert p[0] == q[0];
      PrefixInterval(p[1..], x[1..], q[1..]);
      assert p == [p[0]] + p[1..] && x == [x[0]] + x[1..];
    }
  }

  ghost predicate Sorted(ks: seq<Path>) {
    forall m, n :: 0 <= m < n < |ks| ==> Leq(ks[m], ks[n]) && ks[m] != ks[n]
  }

  ghost predicate Lists(ks: seq<Path>, s: set<Path>) {
    Sorted(ks) && forall k :: k in ks <==> k in s
  }

  lemma InsertAt(ks: seq<Path>, j: nat, k: Path)
    requires Sorted(ks) && j <= |ks| && k !in ks
    requires j > 0 ==> Leq(ks[j - 1], k)
    requires j < |ks| ==> Leq(k, ks[j])
    ensures Sorted(ks[..j] + [k] + ks[j..])
  {
    forall m | 0 <= m < j ensures Leq(ks[m], k) {
      if m < j - 1 { LeqTransitive(ks[m], ks[j - 1], k); }
    }
    forall m | j <= m < |ks| ensures Leq(k, ks[m]) {
      if j < m { LeqTransitive(k, ks[j], ks[m]); }
    }
  }

  /** First position whose key is not below p. */
  method LowerBound(ks: seq<Path>, p: Path) returns (j: nat)
    requires Sorted(ks)
    ensures j <= |ks|
    ensures forall m :: 0 <= m < j ==> !Leq(p, ks[m])
    ensures j < |ks| ==> Leq(p, ks[j])
  {
    j := 0;
    while j < |ks| && !Leq(p, ks[j])
      invariant j <= |ks|
      invariant forall m :: 0 <= m < j ==> !Leq(p, ks[m])
    {
      j := j + 1;
    }
  }

  /** The keys of an ordered set, in iteration order. */
  method InOrderOf(s: set<Path>) returns (ks: seq<Path>)
    ensures Lists(ks, s)
  {
    ks := [];
    var rest := s;
    while rest != {}
      invariant rest <= s && Lists(ks, s - rest)
      decreases |rest|
    {
      var k :| k in rest;
      var j := LowerBound(ks, k);
      if j > 0 { LeqTotal(ks[j - 1], k); }
      InsertAt(ks, j, k);
      var old' := ks;
      ks := ks[..j] + [k] + ks[j..];
      rest := rest - {k};
      assert old' == old'[..j] + old'[j..];
      assert forall x :: x in ks <==> x in old' || x == k;
    }
  }

  /** Does any key lie inside directory d? One lookup at d + "/" settles it. */
  method AnyUnder(ks: seq<Path>, d: Path) returns (found: bool)
    requires Sorted(ks)
    ensures found <==> exists k :: k in ks && Under(d, k)
  {
    var p := d + "/";
    var j := LowerBound(ks, p);
    found := j < |ks| && p <= ks[j];
    if !found {
      forall m | 0 <= m < |ks| ensures !Under(d, ks[m]) {
        if p <= ks[m] {
          PrefixLeq(p, ks[m]);
          if j < m { PrefixInterval(p, ks[j], ks[m]); }
        }
      }
    } else {
      assert ks[j] in ks && Under(d, ks[j]);
    }
  }
}
