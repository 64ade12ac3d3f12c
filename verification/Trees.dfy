/** The three pictures of a synchronised folder (local scan, remote listing,
    recorded baseline) and the merge that SYNC is meant to compute on them. */
module Trees {
  import opened Paths

  newtype Byte = b: int | 0 <= b < 256

  /** File contents. The planner only ever compares hashes, so equal hashes
      stand for equal contents throughout. */
  type Content = seq<Byte>

  datatype Option<+T> = None | Some(value: T)

  ghost predicate NoDup<T(!new)>(s: seq<T>) {
    forall x, y :: 0 <= x < y < |s| ==> s[x] != s[y]
  }

  datatype Node = Dir | File(content: Content)

  type Tree = map<Path, Node>

  function Get(t: Tree, k: Path): (n: Option<Node>)
    ensures n.Some? <==> k in t
  {
    if k in t then Some(t[k]) else None
  }

  predicate IsDir(n: Option<Node>) {
    n == Some(Dir)
  }

  predicate IsFile(n: Option<Node>) {
    n.Some? && n.value.File?
  }

  /** What a real directory scan looks like: everything on the way to an entry
      is itself an entry, and it is a directory. */
  ghost predicate TreeShaped(t: Tree) {
    forall k, d :: k in t && Under(d, k) ==> Get(t, d) == Some(Dir)
  }

  /** Specification of SYNC for one path: a three-way merge in which a local
      directory always stays, a local file beats a remote directory, and
      otherwise a side that did not change yields to the side that did. When both
      changed, the local version wins the path, unless it was deleted locally. */
  function Merge(l: Option<Node>, r: Option<Node>, b: Option<Node>): Option<Node> {
    if IsDir(l) then l
    else if IsFile(l) && IsDir(r) then l
    else if l == b then r
    else if r == b then l
    else if l.None? then r
    else l
  }

  datatype Inputs = Inputs(local: Tree, remote: Tree, base: Tree) {
    function L(k: Path): Option<Node> { Get(local, k) }
    function R(k: Path): Option<Node> { Get(remote, k) }
    function B(k: Path): Option<Node> { Get(base, k) }

    function Keys(): set<Path> { local.Keys + remote.Keys + base.Keys }

    function Merged(k: Path): Option<Node> { Merge(L(k), R(k), B(k)) }

    /** Both scans came from real directories; the baseline may be anything. */
    ghost predicate Scanned() { TreeShaped(local) && TreeShaped(remote) }
  }

  // --- filesystem primitives shared by both sides ---------------------------

  /** create_directories and everything built on it gives up when some entry on
      the way is a file. */
  predicate Reachable(t: Tree, k: Path) {
    forall d :: d in Parents(k) ==> Get(t, d) != None ==> Get(t, d) == Some(Dir)
  }

  function WithParents(t: Tree, k: Path): Tree {
    t + map d | d in Parents(k) :: Dir
  }

  function Without(t: Tree, k: Path): Tree {
    map p | p in t && !AtOrUnder(k, p) :: t[p]
  }

  /** move_path(..., overwrite = true): clears the destination, makes its parents,
      and silently does nothing when a parent cannot be made. */
  function Place(t: Tree, k: Path, n: Node): Tree {
    if Reachable(t, k) then WithParents(Without(t, k), k)[k := n] else t
  }

  lemma PlacePlain(t: Tree, k: Path, n: Node)
    requires TreeShaped(t) && k !in t
    requires forall d :: Under(d, k) ==> Get(t, d) == Some(Dir)
    ensures Place(t, k, n) == t[k := n]
    ensures Reachable(t, k)
  {
    ParentsAreAncestors(k);
    assert Without(t, k) == t;
    assert WithParents(t, k) == t;
  }
}
