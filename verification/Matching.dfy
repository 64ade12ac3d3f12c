/** Rename detection: a content that disappears from one remote path and appears
    at a new local path is a move. */
module Matching {
  import opened Trees

  /** removed[source] and new[target] hold the same content. */
  datatype Pair = Pair(source: nat, target: nat)

  ghost predicate Matched(pairs: seq<Pair>, removed: seq<Content>, news: seq<Content>) {
    && (forall x :: 0 <= x < |pairs| ==>
          pairs[x].source < |removed| && pairs[x].target < |news| && removed[pairs[x].source] == news[pairs[x].target])
    && (forall x, y :: 0 <= x < y < |pairs| ==>
          pairs[x].source != pairs[y].source && pairs[x].target != pairs[y].target)
  }

  ghost predicate UsesSource(pairs: seq<Pair>, s: nat) {
    exists x :: 0 <= x < |pairs| && pairs[x].source == s
  }

  ghost predicate UsesTarget(pairs: seq<Pair>, t: nat) {
    exists x :: 0 <= x < |pairs| && pairs[x].target == t
  }

  /** No further match is possible. */
  ghost predicate Maximal(pairs: seq<Pair>, removed: seq<Content>, news: seq<Content>) {
    forall s: nat, t: nat :: s < |removed| && t < |news| && removed[s] == news[t]
                             ==> UsesSource(pairs, s) || UsesTarget(pairs, t)
  }

  ghost predicate AllHold(removed: seq<Content>, bucket: seq<nat>, h: Content) {
    forall s :: s in bucket ==> s < |removed| && removed[s] == h
  }

  method ByHash(removed: seq<Content>) returns (m: map<Content, seq<nat>>)
    ensures forall s: nat :: s < |removed| ==> removed[s] in m && s in m[removed[s]]
    ensures forall h :: h in m ==> AllHold(removed, m[h], h)
  {
    m := map[];
    for n := 0 to |removed|
      invariant forall s: nat :: s < n ==> removed[s] in m && s in m[removed[s]]
      invariant forall h :: h in m ==> AllHold(removed, m[h], h)
    {
      var h := removed[n];
      m := m[h := (if h in m then m[h] else []) + [n]];
    }
  }

  method FirstFree(candidates: seq<nat>, consumed: seq<bool>) returns (r: Option<nat>)
    requires forall c :: c in candidates ==> c < |consumed|
    ensures r.None? ==> forall c :: c in candidates ==> consumed[c]
    ensures r.Some? ==> r.value in candidates && !consumed[r.value]
  {
    assert forall m :: 0 <= m < |candidates| ==> candidates[m] in candidates;
    for n := 0 to |candidates|
      invariant forall m :: 0 <= m < n ==> consumed[candidates[m]]
    {
      if !consumed[candidates[n]] { return Some(candidates[n]); }
    }
    r := None;
  }

  method Match(removed: seq<Content>, news: seq<Content>)
    returns (pairs: seq<Pair>, removedConsumed: seq<bool>, newConsumed: seq<bool>)
    ensures Matched(pairs, removed, news) && Maximal(pairs, removed, news)
    ensures |removedConsumed| == |removed| && |newConsumed| == |news|
    ensures forall s: nat :: s < |removed| ==> (removedConsumed[s] <==> UsesSource(pairs, s))
    ensures forall t: nat :: t < |news| ==> (newConsumed[t] <==> UsesTarget(pairs, t))
  {
    var byHash := ByHash(removed);
    removedConsumed := seq(|removed|, _ => false);
    newConsumed := seq(|news|, _ => false);
    pairs := [];
    for n := 0 to |news|
      invariant Matched(pairs, removed, news)
      invariant forall x :: 0 <= x < |pairs| ==> pairs[x].target < n
      invariant |removedConsumed| == |removed| && |newConsumed| == |news|
      invariant forall s: nat :: s < |removed| ==> (removedConsumed[s] <==> UsesSource(pairs, s))
      invariant forall t: nat :: t < |news| ==> (newConsumed[t] <==> UsesTarget(pairs, t))
      invariant forall s: nat, t: nat :: s < |removed| && t < n && removed[s] == news[t]
                                         ==> removedConsumed[s] || newConsumed[t]
    {
      if news[n] in byHash {
        var source := FirstFree(byHash[news[n]], removedConsumed);
        if source.Some? {
          removedConsumed := removedConsumed[source.value := true];
          newConsumed := newConsumed[n := true];
          Extended(pairs, Pair(source.value, n));
          pairs := pairs + [Pair(source.value, n)];
        }
      }
    }
  }

  lemma Extended(pairs: seq<Pair>, p: Pair)
    ensures forall s :: UsesSource(pairs + [p], s) <==> UsesSource(pairs, s) || s == p.source
    ensures forall t :: UsesTarget(pairs + [p], t) <==> UsesTarget(pairs, t) || t == p.target
  {
    assert (pairs + [p])[|pairs|] == p;
    forall s | UsesSource(pairs, s) ensures UsesSource(pairs + [p], s) {
      var x :| 0 <= x < |pairs| && pairs[x].source == s;
      assert (pairs + [p])[x].source == s;
    }
    forall t | UsesTarget(pairs, t) ensures UsesTarget(pairs + [p], t) {
      var x :| 0 <= x < |pairs| && pairs[x].target == t;
      assert (pairs + [p])[x].target == t;
    }
  }

  // --- how many moves per content ------------------------------------------------------------

  function Holding(c: seq<Content>, h: Content): set<nat> {
    set i: nat | i < |c| && c[i] == h
  }

  ghost function SourcesOf(pairs: seq<Pair>, removed: seq<Content>, h: Content): set<nat> {
    set s: nat | s < |removed| && UsesSource(pairs, s) && removed[s] == h
  }

  ghost function TargetsOf(pairs: seq<Pair>, news: seq<Content>, h: Content): set<nat> {
    set t: nat | t < |news| && UsesTarget(pairs, t) && news[t] == h
  }

  lemma OnePairMore(pairs: seq<Pair>, p: Pair, removed: seq<Content>, news: seq<Content>, h: Content)
    requires Matched(pairs + [p], removed, news) && p.source < |removed| && p.target < |news|
    ensures SourcesOf(pairs + [p], removed, h) == SourcesOf(pairs, removed, h) + (if removed[p.source] == h then {p.source} else {})
    ensures TargetsOf(pairs + [p], news, h) == TargetsOf(pairs, news, h) + (if news[p.target] == h then {p.target} else {})
    ensures !UsesSource(pairs, p.source) && !UsesTarget(pairs, p.target) && removed[p.source] == news[p.target]
  {
    Extended(pairs, p);
    assert (pairs + [p])[|pairs|] == p;
    forall x | 0 <= x < |pairs| ensures pairs[x].source != p.source && pairs[x].target != p.target {
      assert (pairs + [p])[x] == pairs[x];
    }
  }

  lemma PrefixMatched(pairs: seq<Pair>, removed: seq<Content>, news: seq<Content>)
    requires Matched(pairs, removed, news) && pairs != []
    ensures Matched(pairs[..|pairs| - 1], removed, news)
  {
  }

  lemma {:induction false} AsManySourcesAsTargets(pairs: seq<Pair>, removed: seq<Content>, news: seq<Content>, h: Content)
    requires Matched(pairs, removed, news)
    ensures |SourcesOf(pairs, removed, h)| == |TargetsOf(pairs, news, h)|
    decreases |pairs|
  {
    if pairs != [] {
      var r, p := pairs[..|pairs| - 1], pairs[|pairs| - 1];
      PrefixMatched(pairs, removed, news);
      AsManySourcesAsTargets(r, removed, news, h);
      assert pairs == r + [p];
      OnePairMore(r, p, removed, news, h);
    } else {
      assert SourcesOf(pairs, removed, h) == {};
      assert TargetsOf(pairs, news, h) == {};
    }
  }

  lemma SmallerSet(a: set<nat>, b: set<nat>)
    requires a <= b
    ensures |a| <= |b| && (a != b ==> |a| < |b|)
  {
    assert b == a + (b - a);
  }

  /** Per content, the number of moves is the smaller of the number of new local
      files and the number of removed remote files. */
  lemma MovesPerContent(pairs: seq<Pair>, removed: seq<Content>, news: seq<Content>, h: Content)
    requires Matched(pairs, removed, news) && Maximal(pairs, removed, news)
    ensures var a, b := |Holding(removed, h)|, |Holding(news, h)|;
            |TargetsOf(pairs, news, h)| == if a <= b then a else b
  {
    AsManySourcesAsTargets(pairs, removed, news, h);
    var s, t := SourcesOf(pairs, removed, h), TargetsOf(pairs, news, h);
    SmallerSet(s, Holding(removed, h));
    SmallerSet(t, Holding(news, h));
    assert s == Holding(removed, h) || t == Holding(news, h);
  }
}
