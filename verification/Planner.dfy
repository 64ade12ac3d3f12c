/** compute_sync_plan: classification, rename detection and ordering, the copy
    optimisation, and the concatenation of the eight phases. */
module Planner {
  import opened Paths
  import opened Trees
  import opened Plans
  import opened Keys
  import opened Renames
  import opened Matching
  import opened Classifier

  // --- rename detection ------------------------------------------------------------------------

  ghost predicate MovedTo(ms: seq<Rename>, k: Path) {
    exists x :: 0 <= x < |ms| && ms[x].to == k
  }

  ghost predicate MovedFrom(ms: seq<Rename>, k: Path) {
    exists x :: 0 <= x < |ms| && ms[x].from == k
  }

  ghost predicate GoodMove(i: Inputs, m: Rename) {
    Act(i, m.from) == RemovedRemote && Act(i, m.to) == NewLocal && i.R(m.from) == i.L(m.to)
  }

  ghost predicate AreMoves(i: Inputs, ms: seq<Rename>) {
    DistinctEnds(ms) && forall x :: 0 <= x < |ms| ==> GoodMove(i, ms[x])
  }

  ghost predicate Detected(i: Inputs, ms: seq<Rename>, newLeft: seq<Path>, removedLeft: seq<Path>) {
    && AreMoves(i, ms)
    && NoDup(newLeft) && NoDup(removedLeft)
    && (forall k :: k in newLeft <==> Act(i, k) == NewLocal && !MovedTo(ms, k))
    && (forall k :: k in removedLeft <==> Act(i, k) == RemovedRemote && !MovedFrom(ms, k))
  }

  /** Two lists cannot both be left with the same content. */
  ghost predicate NoMissedMove(i: Inputs, newLeft: seq<Path>, removedLeft: seq<Path>) {
    forall k, f :: k in newLeft && f in removedLeft ==> i.L(k) != i.R(f)
  }

  function ContentsAt(t: Tree, ks: seq<Path>): (cs: seq<Content>)
    requires forall k :: k in ks ==> IsFile(Get(t, k))
    ensures |cs| == |ks| && forall x :: 0 <= x < |ks| ==> ks[x] in ks && Get(t, ks[x]) == Some(File(cs[x]))
  {
    if ks == [] then [] else
      assert ks[0] in ks && IsFile(Get(t, ks[0]));
      [t[ks[0]].content] + ContentsAt(t, ks[1..])
  }

  /** The keys whose mark is not set, in order. */
  method Unmarked(ks: seq<Path>, marks: seq<bool>) returns (r: seq<Path>)
    requires |ks| == |marks| && NoDup(ks)
    ensures NoDup(r)
    ensures forall k :: k in r <==> exists x :: 0 <= x < |ks| && ks[x] == k && !marks[x]
  {
    r := [];
    for n := 0 to |ks|
      invariant NoDup(r)
      invariant forall k :: k in r <==> exists x :: 0 <= x < n && ks[x] == k && !marks[x]
    {
      assert ks[n] !in r;
      if !marks[n] { r := r + [ks[n]]; }
    }
  }

  method DetectMoves(i: Inputs, news: seq<Path>, removed: seq<Path>)
    returns (ms: seq<Rename>, newLeft: seq<Path>, removedLeft: seq<Path>)
    requires Listed(i, News, news, i.Keys()) && Listed(i, Removed, removed, i.Keys())
    ensures Detected(i, ms, newLeft, removedLeft) && NoMissedMove(i, newLeft, removedLeft)
  {
    var removedHash, newHash := ContentsAt(i.remote, removed), ContentsAt(i.local, news);
    var pairs, removedConsumed, newConsumed := Match(removedHash, newHash);
    ms := seq(|pairs|, x requires 0 <= x < |pairs| && pairs[x].source < |removed| && pairs[x].target < |news| =>
      Rename(removed[pairs[x].source], news[pairs[x].target]));
    newLeft := Unmarked(news, newConsumed);
    removedLeft := Unmarked(removed, removedConsumed);
    PairsAreMoves(i, news, removed, removedHash, newHash, pairs, ms);
    LeftAfter(i, news, removed, removedHash, newHash, pairs, ms, newLeft, removedLeft);
  }

  lemma PairsAreMoves(i: Inputs, news: seq<Path>, removed: seq<Path>, removedHash: seq<Content>, newHash: seq<Content>,
                      pairs: seq<Pair>, ms: seq<Rename>)
    requires Listed(i, News, news, i.Keys()) && Listed(i, Removed, removed, i.Keys())
    requires |removedHash| == |removed| && forall x :: 0 <= x < |removed| ==> i.R(removed[x]) == Some(File(removedHash[x]))
    requires |newHash| == |news| && forall x :: 0 <= x < |news| ==> i.L(news[x]) == Some(File(newHash[x]))
    requires Matched(pairs, removedHash, newHash) && |ms| == |pairs|
    requires forall x :: 0 <= x < |ms| ==> ms[x] == Rename(removed[pairs[x].source], news[pairs[x].target])
    ensures AreMoves(i, ms)
  {
    forall x | 0 <= x < |ms| ensures GoodMove(i, ms[x]) {
      assert removed[pairs[x].source] in removed && news[pairs[x].target] in news;
    }
    forall x, y | 0 <= x < y < |ms| ensures ms[x].from != ms[y].from && ms[x].to != ms[y].to {
      assert pairs[x].source != pairs[y].source && pairs[x].target != pairs[y].target;
    }
  }

  lemma LeftAfter(i: Inputs, news: seq<Path>, removed: seq<Path>, removedHash: seq<Content>, newHash: seq<Content>,
                  pairs: seq<Pair>, ms: seq<Rename>, newLeft: seq<Path>, removedLeft: seq<Path>)
    requires Listed(i, News, news, i.Keys()) && Listed(i, Removed, removed, i.Keys())
    requires |removedHash| == |removed| && forall x :: 0 <= x < |removed| ==> i.R(removed[x]) == Some(File(removedHash[x]))
    requires |newHash| == |news| && forall x :: 0 <= x < |news| ==> i.L(news[x]) == Some(File(newHash[x]))
    requires Matched(pairs, removedHash, newHash) && Maximal(pairs, removedHash, newHash) && |ms| == |pairs|
    requires forall x :: 0 <= x < |ms| ==> ms[x] == Rename(removed[pairs[x].source], news[pairs[x].target])
    requires forall k :: k in newLeft <==> exists x :: 0 <= x < |news| && news[x] == k && !UsesTarget(pairs, x)
    requires forall k :: k in removedLeft <==> exists x :: 0 <= x < |removed| && removed[x] == k && !UsesSource(pairs, x)
    ensures forall k :: k in newLeft <==> Act(i, k) == NewLocal && !MovedTo(ms, k)
    ensures forall k :: k in removedLeft <==> Act(i, k) == RemovedRemote && !MovedFrom(ms, k)
    ensures NoMissedMove(i, newLeft, removedLeft)
  {
    forall x: nat | x < |news| ensures UsesTarget(pairs, x) <==> MovedTo(ms, news[x]) {
      TargetUsed(news, pairs, ms, removed, x);
    }
    forall x: nat | x < |removed| ensures UsesSource(pairs, x) <==> MovedFrom(ms, removed[x]) {
      SourceUsed(news, pairs, ms, removed, x);
    }
    forall k ensures k in news <==> Act(i, k) == NewLocal { }
    forall k ensures k in removed <==> Act(i, k) == RemovedRemote { }
    forall k, f | k in newLeft && f in removedLeft ensures i.L(k) != i.R(f) {
      var t :| 0 <= t < |news| && news[t] == k && !UsesTarget(pairs, t);
      var s :| 0 <= s < |removed| && removed[s] == f && !UsesSource(pairs, s);
    }
  }

  lemma TargetUsed(news: seq<Path>, pairs: seq<Pair>, ms: seq<Rename>, removed: seq<Path>, x: nat)
    requires NoDup(news) && |ms| == |pairs| && x < |news|
    requires forall y :: 0 <= y < |pairs| ==> pairs[y].source < |removed| && pairs[y].target < |news|
    requires forall y :: 0 <= y < |ms| ==> ms[y] == Rename(removed[pairs[y].source], news[pairs[y].target])
    ensures UsesTarget(pairs, x) <==> MovedTo(ms, news[x])
  {
    if UsesTarget(pairs, x) {
      var y :| 0 <= y < |pairs| && pairs[y].target == x;
      assert ms[y].to == news[x];
    }
    if MovedTo(ms, news[x]) {
      var y :| 0 <= y < |ms| && ms[y].to == news[x];
      assert pairs[y].target == x;
    }
  }

  lemma SourceUsed(news: seq<Path>, pairs: seq<Pair>, ms: seq<Rename>, removed: seq<Path>, x: nat)
    requires NoDup(removed) && |ms| == |pairs| && x < |removed|
    requires forall y :: 0 <= y < |pairs| ==> pairs[y].source < |removed| && pairs[y].target < |news|
    requires forall y :: 0 <= y < |ms| ==> ms[y] == Rename(removed[pairs[y].source], news[pairs[y].target])
    ensures UsesSource(pairs, x) <==> MovedFrom(ms, removed[x])
  {
    if UsesSource(pairs, x) {
      var y :| 0 <= y < |pairs| && pairs[y].source == x;
      assert ms[y].from == removed[x];
    }
    if MovedFrom(ms, removed[x]) {
      var y :| 0 <= y < |ms| && ms[y].from == removed[x];
      assert pairs[y].source == x;
    }
  }

  // --- rename ordering ---------------------------------------------------------------------------

  /** Destinations are unknown to the server and sources are known to it, so no
      rename ever waits for another. */
  lemma NoEdges(i: Inputs, ms: seq<Rename>)
    requires AreMoves(i, ms)
    ensures forall j, k :: !Blocks(ms, j, k)
  {
    forall j, k ensures !Blocks(ms, j, k) {
      if 0 <= j < |ms| && 0 <= k < |ms| {
        assert GoodMove(i, ms[j]) && GoodMove(i, ms[k]);
      }
    }
  }

  lemma AllEmitted(ms: seq<Rename>, order: seq<nat>)
    requires Indices(ms, order) && RestWaits(ms, order) && forall j, k :: !Blocks(ms, j, k)
    ensures forall x: nat :: x < |ms| ==> x in order
    ensures forall m :: m in ms ==> m in Pick(ms, order)
  {
    forall x: nat | x < |ms| ensures x in order && ms[x] in Pick(ms, order) {
      NoEdgesNoLeftover(ms, order, x);
      var y :| 0 <= y < |order| && order[y] == x;
      assert Pick(ms, order)[y] == ms[x];
    }
  }

  lemma EmittedOrStuck(ms: seq<Rename>, order: seq<nat>, emitted: seq<bool>, stuck: seq<Rename>)
    requires Indices(ms, order) && |emitted| == |ms| && forall x: nat :: x < |ms| ==> (emitted[x] <==> x in order)
    requires forall x: nat :: x < |ms| ==> (ms[x] in stuck <==> !emitted[x])
    requires forall m :: m in stuck ==> m in ms
    ensures forall m :: m in Pick(ms, order) || m in stuck <==> m in ms
  {
    var rs := Pick(ms, order);
    forall m | m in rs ensures m in ms {
      var y :| 0 <= y < |rs| && rs[y] == m;
      assert order[y] in order;
    }
    forall m | m in ms ensures m in rs || m in stuck {
      var x: nat :| x < |ms| && ms[x] == m;
      if emitted[x] {
        var y :| 0 <= y < |order| && order[y] == x;
        assert rs[y] == m;
      }
    }
  }

  /** Emitted renames in order, and the ones left over for delete plus upload. */
  method OrderMoves(ms: seq<Rename>) returns (ordered: seq<Rename>, stuck: seq<Rename>, ghost order: seq<nat>)
    requires DistinctEnds(ms)
    ensures Indices(ms, order) && Respects(ms, order) && ordered == Pick(ms, order)
    ensures forall x: nat :: x < |ms| ==> (ms[x] in stuck <==> OnCycle(ms, x)) && (x !in order <==> OnCycle(ms, x))
    ensures DistinctEnds(ordered)
    ensures forall m :: m in ordered || m in stuck <==> m in ms
    ensures (forall j, k :: !Blocks(ms, j, k)) ==> stuck == [] && forall m :: m in ms ==> m in ordered
  {
    var sequence, emitted := Schedule(ms);
    order := sequence;
    ordered := Pick(ms, sequence);
    stuck := [];
    if forall j, k :: !Blocks(ms, j, k) {
      AllEmitted(ms, order);
    }
    for n := 0 to |ms|
      invariant (forall x :: 0 <= x < |emitted| ==> emitted[x]) ==> stuck == []
      invariant forall m :: m in stuck ==> m in ms
      invariant forall x: nat :: x < |ms| ==> (ms[x] in stuck <==> x < n && !emitted[x])
    {
      assert forall x: nat :: x < n ==> ms[x] != ms[n];
      assert forall x: nat :: n < x < |ms| ==> ms[x] != ms[n];
      if !emitted[n] { stuck := stuck + [ms[n]]; }
    }
    forall x: nat | x < |ms| ensures x !in order <==> OnCycle(ms, x) {
      LeftoverIsCycles(ms, order, x);
    }
    EmittedOrStuck(ms, order, emitted, stuck);
  }

  // --- copy optimisation ------------------------------------------------------------------------------

  /** By the time copies run, remote path f will hold content h. */
  ghost predicate WillHold(i: Inputs, ms: seq<Rename>, transfers: seq<Op>, uploads: seq<Path>, f: Path, h: Content) {
    || (Kept(i, f) && i.R(f) == Some(File(h)))
    || (i.L(f) == Some(File(h)) && (Upload(f) in transfers || f in uploads || MovedTo(ms, f)))
  }

  ghost predicate TableOf(i: Inputs, ms: seq<Rename>, transfers: seq<Op>, uploads: seq<Path>, m: map<Content, Path>) {
    forall h :: h in m ==> WillHold(i, ms, transfers, uploads, m[h], h)
  }

  predicate Known(m: map<Content, Path>, n: Option<Node>) {
    IsFile(n) && n.value.content in m
  }

  method KeptSources(i: Inputs) returns (m: map<Content, Path>)
    ensures TableOf(i, [], [], [], m)
    ensures forall f :: Kept(i, f) ==> Known(m, i.R(f))
  {
    m := map[];
    var ks := InOrderOf(i.remote.Keys);
    for n := 0 to |ks|
      invariant TableOf(i, [], [], [], m)
      invariant forall f :: f in ks[..n] && Kept(i, f) ==> Known(m, i.R(f))
    {
      var k := ks[n];
      assert ks[..n + 1] == ks[..n] + [k];
      if Kept(i, k) && i.remote[k].content !in m {
        m := m[i.remote[k].content := k];
      }
    }
    assert ks[..|ks|] == ks;
  }

  method MovedSources(i: Inputs, ms: seq<Rename>, m0: map<Content, Path>) returns (m: map<Content, Path>)
    requires AreMoves(i, ms) && TableOf(i, [], [], [], m0)
    ensures TableOf(i, ms, [], [], m)
    ensures m0.Keys <= m.Keys && forall x :: 0 <= x < |ms| ==> Known(m, i.L(ms[x].to))
  {
    m := m0;
    assert forall x :: 0 <= x < |ms| ==> GoodMove(i, ms[x]);
    for n := 0 to |ms|
      invariant m0.Keys <= m.Keys && forall x :: 0 <= x < n ==> Known(m, i.L(ms[x].to))
      invariant TableOf(i, ms, [], [], m)
    {
      var h := i.local[ms[n].to].content;
      assert MovedTo(ms, ms[n].to);
      m := m[h := ms[n].to];
    }
  }

  method UploadedSources(i: Inputs, ms: seq<Rename>, transfers: seq<Op>, m0: map<Content, Path>) returns (m: map<Content, Path>)
    requires TableOf(i, ms, [], [], m0)
    requires forall o :: o in transfers && o.Upload? ==> IsFile(i.L(o.key))
    ensures TableOf(i, ms, transfers, [], m)
    ensures m0.Keys <= m.Keys && forall o :: o in transfers && o.Upload? ==> Known(m, i.L(o.key))
  {
    m := m0;
    for n := 0 to |transfers|
      invariant m0.Keys <= m.Keys && forall x :: 0 <= x < n && transfers[x].Upload? ==> Known(m, i.L(transfers[x].key))
      invariant TableOf(i, ms, transfers, [], m)
    {
      var o := transfers[n];
      assert o in transfers;
      if o.Upload? && i.local[o.key].content !in m {
        m := m[i.local[o.key].content := o.key];
      }
    }
  }

  /** Everything of known content is copied; of the rest each content is uploaded once. */
  ghost predicate Shared(i: Inputs, ms: seq<Rename>, transfers: seq<Op>, newLeft: seq<Path>, uploads: seq<Path>, copies: seq<Rename>) {
    && NoDup(uploads)
    && (forall x, y :: 0 <= x < y < |copies| ==> copies[x].to != copies[y].to)
    && (forall k :: k in uploads ==> k in newLeft && !MovedTo(copies, k))
    && (forall x :: 0 <= x < |copies| ==> copies[x].to in newLeft && IsFile(i.L(copies[x].to))
                                          && WillHold(i, ms, transfers, uploads, copies[x].from, i.L(copies[x].to).value.content))
    && (forall k :: k in newLeft ==> k in uploads || MovedTo(copies, k))
  }

  /** No upload of a new file sends content that is kept, moved or uploaded anyway. */
  ghost predicate Frugal(i: Inputs, ms: seq<Rename>, transfers: seq<Op>, uploads: seq<Path>) {
    && (forall u, f :: u in uploads && Kept(i, f) ==> i.R(f) != i.L(u))
    && (forall u, x :: u in uploads && 0 <= x < |ms| ==> i.L(ms[x].to) != i.L(u))
    && (forall u, o :: u in uploads && o in transfers && o.Upload? ==> i.L(o.key) != i.L(u))
    && (forall u, v :: u in uploads && v in uploads && u != v ==> i.L(u) != i.L(v))
  }

  lemma SharedUpload(i: Inputs, ms: seq<Rename>, transfers: seq<Op>, done: seq<Path>, uploads: seq<Path>, copies: seq<Rename>, k: Path)
    requires Shared(i, ms, transfers, done, uploads, copies) && k !in done
    ensures Shared(i, ms, transfers, done + [k], uploads + [k], copies)
  {
    assert !MovedTo(copies, k);
  }

  lemma SharedCopy(i: Inputs, ms: seq<Rename>, transfers: seq<Op>, done: seq<Path>, uploads: seq<Path>, copies: seq<Rename>, c: Rename)
    requires Shared(i, ms, transfers, done, uploads, copies) && c.to !in done && IsFile(i.L(c.to))
    requires WillHold(i, ms, transfers, uploads, c.from, i.L(c.to).value.content)
    ensures Shared(i, ms, transfers, done + [c.to], uploads, copies + [c])
  {
    var cs := copies + [c];
    assert cs[|copies|] == c;
    assert forall k :: MovedTo(cs, k) ==> MovedTo(copies, k) || k == c.to;
    forall k | MovedTo(copies, k) ensures MovedTo(cs, k) {
      var x :| 0 <= x < |copies| && copies[x].to == k;
      assert cs[x].to == k;
    }
    assert MovedTo(cs, c.to);
  }

  method ShareNew(i: Inputs, ms: seq<Rename>, transfers: seq<Op>, newLeft: seq<Path>, m0: map<Content, Path>)
    returns (uploads: seq<Path>, copies: seq<Rename>)
    requires TableOf(i, ms, transfers, [], m0) && NoDup(newLeft)
    requires forall k :: k in newLeft ==> IsFile(i.L(k))
    ensures Shared(i, ms, transfers, newLeft, uploads, copies)
    ensures forall u :: u in uploads ==> !Known(m0, i.L(u))
    ensures forall u, v :: u in uploads && v in uploads && u != v ==> i.L(u) != i.L(v)
  {
    uploads, copies := [], [];
    var m := m0;
    for n := 0 to |newLeft|
      invariant Shared(i, ms, transfers, newLeft[..n], uploads, copies)
      invariant TableOf(i, ms, transfers, uploads, m) && m0.Keys <= m.Keys
      invariant forall u :: u in uploads ==> !Known(m0, i.L(u)) && Known(m, i.L(u))
      invariant forall u, v :: u in uploads && v in uploads && u != v ==> i.L(u) != i.L(v)
    {
      var k := newLeft[n];
      assert k in newLeft && k !in newLeft[..n];
      assert newLeft[..n + 1] == newLeft[..n] + [k];
      var h := i.local[k].content;
      if h in m {
        SharedCopy(i, ms, transfers, newLeft[..n], uploads, copies, Rename(m[h], k));
        copies := copies + [Rename(m[h], k)];
      } else {
        SharedUpload(i, ms, transfers, newLeft[..n], uploads, copies, k);
        uploads := uploads + [k];
        m := m[h := k];
      }
    }
    assert newLeft[..|newLeft|] == newLeft;
  }

  method PlanCopies(i: Inputs, ms: seq<Rename>, transfers: seq<Op>, newLeft: seq<Path>)
    returns (uploads: seq<Path>, copies: seq<Rename>)
    requires AreMoves(i, ms) && NoDup(newLeft)
    requires forall o :: o in transfers && o.Upload? ==> IsFile(i.L(o.key))
    requires forall k :: k in newLeft ==> IsFile(i.L(k))
    ensures Shared(i, ms, transfers, newLeft, uploads, copies)
    ensures Frugal(i, ms, transfers, uploads)
  {
    var m1 := KeptSources(i);
    var m2 := MovedSources(i, ms, m1);
    var m3 := UploadedSources(i, ms, transfers, m2);
    uploads, copies := ShareNew(i, ms, transfers, newLeft, m3);
  }
}
