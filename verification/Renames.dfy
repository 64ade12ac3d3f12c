/** The rename scheduler: Kahn's algorithm over "j vacates the path i wants". */
module Renames {
  import opened Induction
  import opened Paths
  import opened Trees

  datatype Rename = Rename(from: Path, to: Path)

  ghost predicate DistinctEnds(ms: seq<Rename>) {
    forall i, j :: 0 <= i < j < |ms| ==> ms[i].from != ms[j].from && ms[i].to != ms[j].to
  }

  /** Rename j must run before rename i. */
  predicate Blocks(ms: seq<Rename>, j: int, i: int) {
    0 <= j < |ms| && 0 <= i < |ms| && j != i && ms[j].from == ms[i].to
  }

  ghost predicate Indices(ms: seq<Rename>, s: seq<nat>) {
    NoDup(s) && forall i :: i in s ==> i < |ms|
  }

  /** Everything a scheduled rename waits for comes before it. */
  ghost predicate Respects(ms: seq<Rename>, order: seq<nat>) {
    forall x, j :: 0 <= x < |order| && Blocks(ms, j, order[x]) ==> j in order[..x]
  }

  ghost predicate Waiting(ms: seq<Rename>, order: seq<nat>, i: nat) {
    exists j :: Blocks(ms, j, i) && j !in order
  }

  /** Whatever is not emitted waits for something else that is not. */
  ghost predicate RestWaits(ms: seq<Rename>, order: seq<nat>) {
    forall i: nat {:trigger Waiting(ms, order, i)} :: i < |ms| && i !in order ==> Waiting(ms, order, i)
  }

  method BySource(ms: seq<Rename>) returns (m: map<Path, nat>)
    requires DistinctEnds(ms)
    ensures forall i :: 0 <= i < |ms| ==> ms[i].from in m && m[ms[i].from] == i
    ensures forall p :: p in m ==> m[p] < |ms| && ms[m[p]].from == p
  {
    m := map[];
    for n := 0 to |ms|
      invariant forall i :: 0 <= i < n ==> ms[i].from in m && m[ms[i].from] == i
      invariant forall p :: p in m ==> m[p] < n && ms[m[p]].from == p
    {
      m := m[ms[n].from := n];
    }
  }

  /** Edges of the "frees the path" graph, and how many each node waits for. */
  method Graph(ms: seq<Rename>) returns (successors: seq<seq<nat>>, indegree: seq<nat>)
    requires DistinctEnds(ms)
    ensures |successors| == |ms| && |indegree| == |ms|
    ensures forall j :: 0 <= j < |ms| ==> NoDup(successors[j]) && forall i: nat :: i in successors[j] <==> Blocks(ms, j, i)
    ensures forall i :: 0 <= i < |ms| ==> indegree[i] == if Waiting(ms, [], i) then 1 else 0
  {
    var bySource := BySource(ms);
    successors := seq(|ms|, _ => []);
    indegree := seq(|ms|, _ => 0);
    for n := 0 to |ms|
      invariant |successors| == |ms| && |indegree| == |ms|
      invariant forall j :: 0 <= j < |ms| ==>
        NoDup(successors[j]) && forall i: nat :: i in successors[j] <==> i < n && Blocks(ms, j, i)
      invariant forall i :: 0 <= i < n ==> indegree[i] == if Waiting(ms, [], i) then 1 else 0
      invariant forall i :: n <= i < |ms| ==> indegree[i] == 0
    {
      if ms[n].to in bySource && bySource[ms[n].to] != n {
        var j := bySource[ms[n].to];
        assert Blocks(ms, j, n);
        successors := successors[j := successors[j] + [n]];
        indegree := indegree[n := indegree[n] + 1];
      }
      assert forall j :: Blocks(ms, j, n) ==> ms[n].to in bySource && bySource[ms[n].to] == j;
    }
  }

  ghost predicate Progressing(ms: seq<Rename>, order: seq<nat>, ready: seq<nat>, indegree: seq<nat>) {
    && Indices(ms, order) && Indices(ms, ready) && Respects(ms, order)
    && |indegree| == |ms|
    && (forall i :: i in ready ==> i !in order)
    && (forall i: nat :: i < |ms| ==> indegree[i] == if Waiting(ms, order, i) then 1 else 0)
    && (forall i: nat :: i < |ms| ==> (indegree[i] == 0 <==> i in order || i in ready))
  }

  /** Emits renames whose destination is free, until none is left. */
  method Schedule(ms: seq<Rename>) returns (order: seq<nat>, emitted: seq<bool>)
    requires DistinctEnds(ms)
    ensures Indices(ms, order) && Respects(ms, order)
    ensures |emitted| == |ms| && forall i: nat :: i < |ms| ==> (emitted[i] <==> i in order)
    ensures RestWaits(ms, order)
  {
    var successors, indegree := Graph(ms);
    var ready: seq<nat> := [];
    for n := 0 to |ms|
      invariant Indices(ms, ready)
      invariant forall i: nat :: i in ready <==> i < n && indegree[i] == 0
    {
      if indegree[n] == 0 { ready := ready + [n]; }
    }
    order := [];
    emitted := seq(|ms|, _ => false);
    ghost var left := set i: nat | i < |ms| && i !in order;
    while ready != []
      invariant Progressing(ms, order, ready, indegree)
      invariant |emitted| == |ms| && forall i: nat :: i < |ms| ==> (emitted[i] <==> i in order)
      invariant left == set i: nat | i < |ms| && i !in order
      decreases |left|
    {
      var node := ready[|ready| - 1];
      assert node in ready;
      left := left - {node};
      indegree, ready, order := EmitNext(ms, successors, indegree, ready, order);
      emitted := emitted[node := true];
    }
  }

  /** One round: take the last ready node and release the one waiting for it. */
  method EmitNext(ms: seq<Rename>, successors: seq<seq<nat>>, indegree: seq<nat>, ready: seq<nat>, order: seq<nat>)
    returns (indegree': seq<nat>, ready': seq<nat>, order': seq<nat>)
    requires DistinctEnds(ms) && Progressing(ms, order, ready, indegree) && ready != []
    requires |successors| == |ms|
    requires forall j :: 0 <= j < |ms| ==> NoDup(successors[j]) && forall i: nat :: i in successors[j] <==> Blocks(ms, j, i)
    ensures order' == order + [ready[|ready| - 1]]
    ensures Progressing(ms, order', ready', indegree')
  {
    var node := ready[|ready| - 1];
    assert node in ready;
    order' := order + [node];
    ready' := ready[..|ready| - 1];
    indegree' := indegree;
    RespectsMore(ms, order, ready, indegree, node);
    var next := successors[node];
    Released(ms, indegree, ready, order, next);
    assert next[0..] == next;
    for n := 0 to |next|
      invariant Indices(ms, ready') && |indegree'| == |ms|
      invariant forall i :: i in ready' ==> i !in order'
      invariant forall m :: n <= m < |next| ==> indegree'[next[m]] == 1 && next[m] !in ready' && next[m] !in order'
      invariant forall i: nat :: i < |ms| && i !in next[n..] ==> indegree'[i] == if Waiting(ms, order', i) then 1 else 0
      invariant forall i: nat :: i < |ms| ==> (indegree'[i] == 0 <==> i in order' || i in ready')
    {
      var i := next[n];
      assert next[n..] == [i] + next[n + 1..];
      OnlyBlocker(ms, order', node, i);
      indegree' := indegree'[i := indegree'[i] - 1];
      if indegree'[i] == 0 { ready' := ready' + [i]; }
    }
  }

  /** State after taking the last ready node, before its successors are released. */
  lemma Released(ms: seq<Rename>, indegree: seq<nat>, ready: seq<nat>, order: seq<nat>, next: seq<nat>)
    requires DistinctEnds(ms) && Progressing(ms, order, ready, indegree) && ready != []
    requires forall i: nat :: i in next <==> Blocks(ms, ready[|ready| - 1], i)
    ensures var node, rest := ready[|ready| - 1], ready[..|ready| - 1];
            var order' := order + [node];
            && Indices(ms, rest) && (forall i :: i in rest ==> i !in order')
            && (forall m :: 0 <= m < |next| ==> Blocks(ms, node, next[m]))
            && (forall m :: 0 <= m < |next| ==> indegree[next[m]] == 1 && next[m] !in rest && next[m] !in order')
            && (forall i: nat :: i < |ms| && i !in next ==> indegree[i] == if Waiting(ms, order', i) then 1 else 0)
            && (forall i: nat :: i < |ms| ==> (indegree[i] == 0 <==> i in order' || i in rest))
  {
    var node, rest := ready[|ready| - 1], ready[..|ready| - 1];
    assert ready == rest + [node];
    assert node in ready;
    assert forall i :: i in ready <==> i in rest || i == node;
    forall m | 0 <= m < |next| ensures Blocks(ms, node, next[m]) && indegree[next[m]] == 1 {
      assert next[m] in next && Blocks(ms, node, next[m]);
      assert Waiting(ms, order, next[m]);
    }
    forall i: nat | i < |ms| && i !in next ensures Waiting(ms, order, i) <==> Waiting(ms, order + [node], i) {
    }
  }

  lemma OnlyBlocker(ms: seq<Rename>, order: seq<nat>, node: nat, i: nat)
    requires DistinctEnds(ms) && Blocks(ms, node, i) && node in order
    ensures !Waiting(ms, order, i)
  {
  }

  lemma RespectsMore(ms: seq<Rename>, order: seq<nat>, ready: seq<nat>, indegree: seq<nat>, node: nat)
    requires Progressing(ms, order, ready, indegree) && node in ready
    ensures Indices(ms, order + [node]) && Respects(ms, order + [node])
  {
    var order' := order + [node];
    forall x, j | 0 <= x < |order'| && Blocks(ms, j, order'[x]) ensures j in order'[..x] {
      if x < |order| {
        assert order'[..x] == order[..x];
      } else {
        assert order'[..x] == order;
        assert !Waiting(ms, order, node);
      }
    }
  }

  // --- what is left over -------------------------------------------------------------------

  ghost predicate Walk(ms: seq<Rename>, c: seq<nat>) {
    c != [] && forall x :: 0 <= x < |c| - 1 ==> Blocks(ms, c[x + 1], c[x])
  }

  /** Rename i waits, through others, for itself. */
  ghost predicate OnCycle(ms: seq<Rename>, i: nat) {
    exists c :: Walk(ms, c) && |c| >= 2 && c[0] == i && c[|c| - 1] == i
  }

  lemma {:induction false} WalkGoesBack(ms: seq<Rename>, order: seq<nat>, c: seq<nat>, p: nat, x: nat)
    requires Respects(ms, order) && Walk(ms, c) && p < |order| && order[p] == c[0] && 1 <= x < |c|
    ensures c[x] in order[..p]
  {
    if x == 1 {
      assert Blocks(ms, c[1], order[p]);
    } else {
      WalkGoesBack(ms, order, c, p, x - 1);
      var q :| 0 <= q < p && order[q] == c[x - 1];
      assert Blocks(ms, c[x - 1 + 1], order[q]);
      assert c[x] in order[..q];
      assert order[..q] <= order[..p];
    }
  }

  lemma {:induction false} CountBelow(n: nat) returns (s: set<nat>)
    ensures |s| == n && forall i: nat :: i in s <==> i < n
  {
    if n == 0 {
      s := {};
    } else {
      var r := CountBelow(n - 1);
      s := r + {n - 1};
    }
  }

  function Members(s: seq<nat>): set<nat> {
    set i | i in s
  }

  lemma {:induction false} DistinctCount(s: seq<nat>)
    requires NoDup(s)
    ensures |Members(s)| == |s|
  {
    if s != [] {
      var r, x := s[..|s| - 1], s[|s| - 1];
      DistinctCount(r);
      assert Members(s) == Members(r) + {x};
    }
  }

  lemma SubsetCount(a: set<nat>, b: set<nat>)
    requires a <= b
    ensures |a| <= |b|
  {
    assert b == a + (b - a);
  }

  lemma Pigeonhole(s: seq<nat>, n: nat)
    requires NoDup(s) && forall i :: i in s ==> i < n
    ensures |s| <= n
  {
    var all := CountBelow(n);
    DistinctCount(s);
    SubsetCount(Members(s), all);
  }

  /** Among renames that all wait for one another, walks can be made as long as wished. */
  lemma {:induction false} LongWalk(ms: seq<Rename>, order: seq<nat>, i: nat, n: nat) returns (c: seq<nat>)
    requires i < |ms| && i !in order
    requires RestWaits(ms, order)
    ensures Walk(ms, c) && |c| == n + 1 && c[0] == i
    ensures forall x :: 0 <= x < |c| ==> c[x] < |ms| && c[x] !in order
  {
    if n == 0 {
      c := [i];
    } else {
      var b := LongWalk(ms, order, i, n - 1);
      assert Waiting(ms, order, b[n - 1]);
      var j :| Blocks(ms, j, b[n - 1]) && j !in order;
      c := b + [j];
    }
  }

  lemma {:induction false} ShiftBack(ms: seq<Rename>, c: seq<nat>, a: nat, b: nat)
    requires DistinctEnds(ms) && Walk(ms, c) && a < b < |c| && c[a] == c[b]
    ensures c[0] == c[b - a]
  {
    if a > 0 {
      assert Blocks(ms, c[a - 1 + 1], c[a - 1]) && Blocks(ms, c[b - 1 + 1], c[b - 1]);
      ShiftBack(ms, c, a - 1, b - 1);
    }
  }

  lemma Repetition(c: seq<nat>, n: nat) returns (a: nat, b: nat)
    requires |c| > n && forall x :: 0 <= x < |c| ==> c[x] < n
    ensures a < b < |c| && c[a] == c[b]
  {
    if NoDup(c) { Pigeonhole(c, n); }
    a, b :| 0 <= a < b < |c| && c[a] == c[b];
  }

  lemma Closed(ms: seq<Rename>, c: seq<nat>, n: nat)
    requires Walk(ms, c) && 1 <= n < |c| && c[0] == c[n]
    ensures OnCycle(ms, c[0])
  {
    var d := c[..n + 1];
    forall x | 0 <= x < |d| - 1 ensures Blocks(ms, d[x + 1], d[x]) {
      assert Blocks(ms, c[x + 1], c[x]);
    }
    assert Walk(ms, d) && |d| >= 2 && d[0] == c[0] && d[|d| - 1] == c[0];
  }

  lemma LeftoverOnCycle(ms: seq<Rename>, order: seq<nat>, i: nat)
    requires DistinctEnds(ms) && i < |ms| && i !in order
    requires RestWaits(ms, order)
    ensures OnCycle(ms, i)
  {
    var c := LongWalk(ms, order, i, |ms|);
    var a, b := Repetition(c, |ms|);
    ShiftBack(ms, c, a, b);
    Closed(ms, c, b - a);
  }

  lemma CycleNotEmitted(ms: seq<Rename>, order: seq<nat>, i: nat)
    requires Indices(ms, order) && Respects(ms, order) && OnCycle(ms, i)
    ensures i !in order
  {
    var c :| Walk(ms, c) && |c| >= 2 && c[0] == i && c[|c| - 1] == i;
    forall p | 0 <= p < |order| ensures order[p] != i {
      if order[p] == i {
        WalkGoesBack(ms, order, c, p, |c| - 1);
      }
    }
  }

  /** The scheduler leaves over exactly the renames that lie on cycles. */
  lemma LeftoverIsCycles(ms: seq<Rename>, order: seq<nat>, i: nat)
    requires DistinctEnds(ms) && Indices(ms, order) && Respects(ms, order) && i < |ms|
    requires RestWaits(ms, order)
    ensures i !in order <==> OnCycle(ms, i)
  {
    if i !in order {
      LeftoverOnCycle(ms, order, i);
    } else if OnCycle(ms, i) {
      CycleNotEmitted(ms, order, i);
    }
  }

  /** Without edges everything is emitted. */
  lemma NoEdgesNoLeftover(ms: seq<Rename>, order: seq<nat>, i: nat)
    requires i < |ms| && RestWaits(ms, order)
    requires forall j, k :: !Blocks(ms, j, k)
    ensures i in order
  {
    assert !Waiting(ms, order, i);
  }

  // --- one at a time equals all at once ---------------------------------------------------------

  function Pick(ms: seq<Rename>, order: seq<nat>): (rs: seq<Rename>)
    requires forall i :: i in order ==> i < |ms|
    ensures |rs| == |order| && forall x :: 0 <= x < |rs| ==> order[x] in order && rs[x] == ms[order[x]]
  {
    seq(|order|, x requires 0 <= x < |order| => assert order[x] in order; ms[order[x]])
  }

  function MoveOne(t: Tree, m: Rename): Tree {
    if m.from in t then t[m.to := t[m.from]] - {m.from} else t
  }

  function MoveEach(t: Tree, rs: seq<Rename>, n: nat): Tree
    requires n <= |rs|
  {
    if n == 0 then t else MoveOne(MoveEach(t, rs, n - 1), rs[n - 1])
  }

  ghost predicate Lands(rs: seq<Rename>, n: nat, k: Path) {
    exists x :: 0 <= x < n <= |rs| && rs[x].to == k
  }

  ghost predicate Leaves(rs: seq<Rename>, n: nat, k: Path) {
    exists x :: 0 <= x < n <= |rs| && rs[x].from == k
  }

  /** The first n renames of rs applied to t at the same instant. */
  ghost predicate AllAtOnce(t: Tree, rs: seq<Rename>, n: nat, t': Tree) {
    && n <= |rs|
    && (forall x {:trigger Arrived(t, rs, t', x)} :: 0 <= x < n ==> Arrived(t, rs, t', x))
    && (forall k {:trigger Otherwise(t, rs, n, t', k)} :: Otherwise(t, rs, n, t', k))
  }

  predicate Arrived(t: Tree, rs: seq<Rename>, t': Tree, x: nat)
    requires x < |rs|
  {
    Get(t', rs[x].to) == Get(t, rs[x].from)
  }

  /** What happens to a path on which nothing lands. */
  ghost predicate Otherwise(t: Tree, rs: seq<Rename>, n: nat, t': Tree, k: Path) {
    !Lands(rs, n, k) ==> Get(t', k) == if Leaves(rs, n, k) then None else Get(t, k)
  }

  /** Sources exist, nothing is renamed onto itself, and an occupied destination
      is itself about to be vacated. */
  ghost predicate Possible(t: Tree, ms: seq<Rename>) {
    && (forall i :: 0 <= i < |ms| ==> ms[i].from in t && ms[i].from != ms[i].to)
    && (forall i :: 0 <= i < |ms| && ms[i].to in t ==> exists j :: Blocks(ms, j, i))
  }

  /** An order in which an occupied destination has been vacated before. */
  ghost predicate Feasible(t: Tree, rs: seq<Rename>) {
    && DistinctEnds(rs)
    && (forall x :: 0 <= x < |rs| ==> rs[x].from in t && rs[x].from != rs[x].to)
    && (forall x {:trigger Vacated(t, rs, x)} :: 0 <= x < |rs| ==> Vacated(t, rs, x))
  }

  ghost predicate Vacated(t: Tree, rs: seq<Rename>, x: nat)
    requires x < |rs|
  {
    rs[x].to in t ==> Leaves(rs, x, rs[x].to)
  }

  lemma ScheduleIsFeasible(t: Tree, ms: seq<Rename>, order: seq<nat>)
    requires DistinctEnds(ms) && Possible(t, ms) && Indices(ms, order) && Respects(ms, order)
    ensures Feasible(t, Pick(ms, order))
  {
    var rs := Pick(ms, order);
    assert forall x :: 0 <= x < |order| ==> order[x] in order;
    forall x | 0 <= x < |rs| ensures Vacated(t, rs, x) {
      if rs[x].to in t {
        var j :| Blocks(ms, j, order[x]);
        assert j in order[..x];
        var y :| 0 <= y < x && order[y] == j;
        assert rs[y].from == rs[x].to;
      }
    }
  }

  lemma NeverIntoPendingSource(t: Tree, rs: seq<Rename>, x: nat, y: nat)
    requires Feasible(t, rs) && x < y < |rs|
    ensures rs[x].to != rs[y].from
  {
    assert Vacated(t, rs, x);
    if rs[x].to in t {
      var z :| 0 <= z < x && rs[z].from == rs[x].to;
    }
  }

  /** Each rename in turn finds its destination vacated and its source intact. */
  lemma LandsOnFreePath(t: Tree, rs: seq<Rename>, n: nat, t': Tree)
    requires Feasible(t, rs) && n < |rs| && AllAtOnce(t, rs, n, t')
    ensures rs[n].to !in t' && Get(t', rs[n].from) == Get(t, rs[n].from)
  {
    assert !Lands(rs, n, rs[n].to) && Vacated(t, rs, n);
    forall x | 0 <= x < n ensures rs[x].to != rs[n].from {
      NeverIntoPendingSource(t, rs, x, n);
    }
    assert !Lands(rs, n, rs[n].from) && !Leaves(rs, n, rs[n].from);
    assert Otherwise(t, rs, n, t', rs[n].to) && Otherwise(t, rs, n, t', rs[n].from);
  }

  lemma NewestLands(t: Tree, rs: seq<Rename>, n: nat, t': Tree)
    requires Feasible(t, rs) && n < |rs| && AllAtOnce(t, rs, n, t')
    ensures Get(MoveOne(t', rs[n]), rs[n].to) == Get(t, rs[n].from)
  {
    LandsOnFreePath(t, rs, n, t');
    assert rs[n].from in t && rs[n].from != rs[n].to;
  }

  lemma EarlierStays(t: Tree, rs: seq<Rename>, n: nat, t': Tree, x: nat)
    requires Feasible(t, rs) && x < n < |rs|
    ensures Get(MoveOne(t', rs[n]), rs[x].to) == Get(t', rs[x].to)
  {
    NeverIntoPendingSource(t, rs, x, n);
    assert rs[x].to != rs[n].to;
    OtherPathStays(t', rs[n], rs[x].to);
  }

  lemma OtherPathStays(t: Tree, m: Rename, k: Path)
    requires k != m.from && k != m.to
    ensures Get(MoveOne(t, m), k) == Get(t, k)
  {
  }

  lemma OneMoreElsewhere(t: Tree, rs: seq<Rename>, n: nat, t': Tree, k: Path)
    requires Feasible(t, rs) && n < |rs| && AllAtOnce(t, rs, n, t') && !Lands(rs, n + 1, k)
    ensures Get(MoveOne(t', rs[n]), k) == if Leaves(rs, n + 1, k) then None else Get(t, k)
  {
    LandsOnFreePath(t, rs, n, t');
    assert rs[n].to != k && !Lands(rs, n, k) && Otherwise(t, rs, n, t', k);
    assert Leaves(rs, n + 1, k) <==> Leaves(rs, n, k) || rs[n].from == k;
  }

  lemma OneMore(t: Tree, rs: seq<Rename>, n: nat, t': Tree)
    requires Feasible(t, rs) && n < |rs| && AllAtOnce(t, rs, n, t')
    ensures AllAtOnce(t, rs, n + 1, MoveOne(t', rs[n]))
  {
    var t'' := MoveOne(t', rs[n]);
    forall x | 0 <= x < n + 1 ensures Arrived(t, rs, t'', x) {
      if x == n {
        NewestLands(t, rs, n, t');
      } else {
        EarlierStays(t, rs, n, t', x);
        assert Arrived(t, rs, t', x);
      }
    }
    var m := n + 1;
    forall k ensures Otherwise(t, rs, m, t'', k) {
      if !Lands(rs, m, k) { OneMoreElsewhere(t, rs, n, t', k); }
    }
  }

  ghost predicate SoFar(t: Tree, rs: seq<Rename>, n: nat) {
    n <= |rs| && AllAtOnce(t, rs, n, MoveEach(t, rs, n))
  }

  lemma OneByOneNext(t: Tree, rs: seq<Rename>, n: nat)
    requires Feasible(t, rs) && n < |rs| && SoFar(t, rs, n)
    ensures SoFar(t, rs, n + 1)
  {
    OneMore(t, rs, n, MoveEach(t, rs, n));
  }

  /** An order of this kind, run one rename at a time, is the simultaneous renaming. */
  lemma OneByOneIsAllAtOnce(t: Tree, rs: seq<Rename>, n: nat)
    requires Feasible(t, rs) && n <= |rs|
    ensures SoFar(t, rs, n)
  {
    var holds := (m: nat) => SoFar(t, rs, m);
    forall m: nat | m < n && holds(m) ensures holds(m + 1) {
      OneByOneNext(t, rs, m);
    }
    Throughout(holds, 0, n);
  }

  /** The scheduler taken alone: whatever it emits can be run in that order, never
      lands on a path that is still occupied, and equals renaming all at once. */
  lemma EmittedOrderIsSimultaneous(t: Tree, ms: seq<Rename>, order: seq<nat>)
    requires DistinctEnds(ms) && Possible(t, ms) && Indices(ms, order) && Respects(ms, order)
    ensures AllAtOnce(t, Pick(ms, order), |order|, MoveEach(t, Pick(ms, order), |order|))
    ensures forall n :: 0 <= n < |order| ==> Pick(ms, order)[n].to !in MoveEach(t, Pick(ms, order), n)
  {
    var rs := Pick(ms, order);
    ScheduleIsFeasible(t, ms, order);
    OneByOneIsAllAtOnce(t, rs, |order|);
    forall n | 0 <= n < |order| ensures rs[n].to !in MoveEach(t, rs, n) {
      OneByOneIsAllAtOnce(t, rs, n);
      LandsOnFreePath(t, rs, n, MoveEach(t, rs, n));
    }
  }
}
