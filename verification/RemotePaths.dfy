/** The remote path of an entry: how the client builds it, and what the server
    takes it for. */
module RemotePaths {
  import opened Paths

  function Trimmed(dir: string): string {
    if dir != "" && dir[|dir| - 1] == '/' then Trimmed(dir[..|dir| - 1]) else dir
  }

  function Base(dir: string): string {
    if Trimmed(dir) == "." then "" else Trimmed(dir)
  }

  function Join(dir: string, key: Path): Path {
    if Base(dir) == "" then key else if key == "" then Base(dir) else Base(dir) + "/" + key
  }

  method JoinRemote(dir: string, key: Path) returns (p: Path)
    ensures p == Join(dir, key)
  {
    var base := dir;
    while base != "" && base[|base| - 1] == '/'
      invariant Trimmed(base) == Trimmed(dir)
      decreases |base|
    {
      base := base[..|base| - 1];
    }
    if base == "." { base := ""; }
    if base == "" { return key; }
    if key == "" { return base; }
    return base + "/" + key;
  }

  /** Different entries have different remote paths, and what lies below what is
      unchanged. */
  lemma JoinFaithful(dir: string, a: Path, b: Path)
    ensures Join(dir, a) == Join(dir, b) <==> a == b
    ensures a != "" && b != "" ==> (Under(Join(dir, a), Join(dir, b)) <==> Under(a, b))
  {
    var base := Base(dir);
    if base != "" && a != "" && b != "" {
      assert (base + "/" + a)[|base| + 1..] == a && (base + "/" + b)[|base| + 1..] == b;
      AtKeepsUnder(base, a, b);
    }
  }

  /** The entry key below directory dir, "" being the root. */
  function At(dir: Path, key: Path): Path {
    if dir == "" then key else dir + "/" + key
  }

  lemma AtKeepsUnder(dir: Path, a: Path, b: Path)
    ensures Under(At(dir, a), At(dir, b)) <==> Under(a, b)
  {
    if dir != "" {
      PrefixCancels(dir + "/", a + "/", b);
      assert At(dir, a) + "/" == dir + "/" + (a + "/");
    }
  }

  lemma PrefixCancels(p: string, a: string, b: string)
    ensures p + a <= p + b <==> a <= b
  {
    assert (p + b)[|p|..] == b;
    if p + a <= p + b {
      assert (p + b)[..|p + a|] == p + a;
      assert b[..|a|] == (p + a)[|p|..] == a;
    }
    if a <= b {
      assert (p + b)[..|p + a|] == p + b[..|a|];
    }
  }

  // --- what the server makes of it -----------------------------------------------------------------

  type Name = string

  /** Text between the separators. */
  function Pieces(p: string): (r: seq<string>)
    ensures |r| > 0
  {
    if p == "" then [""]
    else
      Grown(Pieces(p[..|p| - 1]), p[|p| - 1])
  }

  function Significant(ps: seq<string>): seq<Name> {
    if ps == [] then []
    else Significant(ps[..|ps| - 1]) + (if ps[|ps| - 1] == "" || ps[|ps| - 1] == "." then [] else [ps[|ps| - 1]])
  }

  function Names(p: string): seq<Name> {
    Significant(Pieces(p))
  }

  function Walk(at: seq<Name>, names: seq<Name>): seq<Name> {
    if names == [] then at
    else
      var w, n := Walk(at, names[..|names| - 1]), names[|names| - 1];
      if n != ".." then w + [n] else if w == [] then [] else w[..|w| - 1]
  }

  predicate Absolute(p: string) {
    p != "" && p[0] == '/'
  }

  /** resolve_path: an absolute argument starts at the user's directory, any other at
      the session's current one. */
  function Resolve(home: seq<Name>, cwd: seq<Name>, p: string): seq<Name> {
    Walk(if Absolute(p) then home else cwd, Names(p))
  }

  function Grown(r: seq<string>, c: char): seq<string>
    requires |r| > 0
  {
    if c == '/' then r + [""] else r[..|r| - 1] + [r[|r| - 1] + [c]]
  }

  lemma GrownAppend(a: seq<string>, r: seq<string>, c: char)
    requires |r| > 0
    ensures Grown(a + r, c) == a + Grown(r, c)
  {
    assert (a + r)[..|a + r| - 1] == a + r[..|r| - 1];
  }

  lemma {:induction false} PiecesOfJoin(a: string, b: string)
    ensures Pieces(a + "/" + b) == Pieces(a) + Pieces(b)
    decreases |b|
  {
    var p := a + "/" + b;
    if b == "" {
      assert p[..|p| - 1] == a;
    } else {
      var init := b[..|b| - 1];
      assert p[..|p| - 1] == a + "/" + init;
      PiecesOfJoin(a, init);
      GrownAppend(Pieces(a), Pieces(init), b[|b| - 1]);
    }
  }

  lemma AppendCancels(a: seq<Name>, b: seq<Name>, c: seq<Name>)
    ensures a + c == b + c <==> a == b
  {
    if a + c == b + c {
      assert |a + c| == |a| + |c|;
      assert a == (a + c)[..|a|];
      assert b == (b + c)[..|b|];
    }
  }

  lemma {:induction false} SignificantAppend(a: seq<string>, b: seq<string>)
    ensures Significant(a + b) == Significant(a) + Significant(b)
    decreases |b|
  {
    if b == [] {
      assert a + b == a;
    } else {
      assert (a + b)[..|a + b| - 1] == a + b[..|b| - 1];
      SignificantAppend(a, b[..|b| - 1]);
    }
  }

  lemma {:induction false} WalkAppend(at: seq<Name>, a: seq<Name>, b: seq<Name>)
    ensures Walk(at, a + b) == Walk(Walk(at, a), b)
    decreases |b|
  {
    if b == [] {
      assert a + b == a;
    } else {
      assert (a + b)[..|a + b| - 1] == a + b[..|b| - 1];
      WalkAppend(at, a, b[..|b| - 1]);
    }
  }

  lemma SlashAddsNoName(p: string)
    ensures Names(p + "/") == Names(p)
  {
    assert p + "/" == p + "/" + "";
    PiecesOfJoin(p, "");
    SignificantAppend(Pieces(p), Pieces(""));
    assert Significant([""]) == Significant([]) + [];
  }

  lemma {:induction false} TrimmedNames(dir: string)
    ensures Names(Trimmed(dir)) == Names(dir)
  {
    if dir != "" && dir[|dir| - 1] == '/' {
      var init := dir[..|dir| - 1];
      TrimmedNames(init);
      assert dir == init + "/";
      SlashAddsNoName(init);
    }
  }

  lemma {:induction false} TrimmedStart(dir: string)
    ensures Trimmed(dir) != "" ==> (Absolute(Trimmed(dir)) <==> Absolute(dir))
    ensures Trimmed(dir) == "" ==> (Absolute(dir) <==> dir != "")
  {
    if dir != "" && dir[|dir| - 1] == '/' {
      TrimmedStart(dir[..|dir| - 1]);
    }
  }

  lemma NamesOfNothing()
    ensures Names("") == []
  {
    assert Names("") == Significant([]) + [];
  }

  lemma NamesOfDot()
    ensures Names(".") == []
  {
    assert "."[..0] == "";
    assert "" + ['.'] == ".";
    assert Pieces(".") == Grown([""], '.') == ["."];
    assert Significant(["."]) == Significant([]) + [];
  }

  lemma {:induction false} WalkDown(at: seq<Name>, names: seq<Name>)
    requires ".." !in names
    ensures Walk(at, names) == at + names
  {
    if names != [] {
      var init := names[..|names| - 1];
      WalkDown(at, init);
      assert names == init + [names[|names| - 1]];
    } else {
      assert at + names == at;
    }
  }

  lemma {:induction false} NoSlashOnePiece(name: string)
    requires '/' !in name
    ensures Pieces(name) == [name]
  {
    if name != "" {
      NoSlashOnePiece(name[..|name| - 1]);
      assert name == name[..|name| - 1] + [name[|name| - 1]];
    }
  }

  /** One more name leads down, and ".." after it leads back. */
  lemma DownAndUp(home: seq<Name>, cwd: seq<Name>, p: string, name: Name)
    requires p != "" && '/' !in name && name != "" && name != "." && name != ".."
    ensures Resolve(home, cwd, p + "/" + name) == Resolve(home, cwd, p) + [name]
    ensures Resolve(home, cwd, p + "/" + name + "/" + "..") == Resolve(home, cwd, p)
  {
    var at, q := if Absolute(p) then home else cwd, p + "/" + name;
    OneMoreName(p, name);
    OneMoreName(q, "..");
    assert Absolute(q) == Absolute(p) && Absolute(q + "/" + "..") == Absolute(p);
    WalkAppend(at, Names(p), [name]);
    WalkAppend(at, Names(q), [".."]);
    OneStep(Walk(at, Names(p)), name);
    OneStep(Walk(at, Names(q)), "..");
  }

  lemma OneStep(at: seq<Name>, n: Name)
    ensures Walk(at, [n]) == if n != ".." then at + [n] else if at == [] then [] else at[..|at| - 1]
  {
    assert Walk(at, [n][..0]) == at;
  }

  lemma OneMoreName(p: string, name: Name)
    requires '/' !in name && name != "" && name != "."
    ensures Names(p + "/" + name) == Names(p) + [name]
  {
    NoSlashOnePiece(name);
    PiecesOfJoin(p, name);
    SignificantAppend(Pieces(p), [name]);
    assert Significant([name]) == Significant([]) + [name];
  }

  /** The server finds entry key at its place below the directory that SYNC listed,
      if and only if dir is not made of slashes alone or the session is at the
      user's directory: "/" is trimmed away, and what is left is relative. */
  lemma JoinResolvesExactlyWhen(home: seq<Name>, cwd: seq<Name>, dir: string, key: Path)
    requires key != "" && !Absolute(key) && ".." !in Names(key)
    ensures Resolve(home, cwd, Join(dir, key)) == Resolve(home, cwd, dir) + Names(key)
       <==> Trimmed(dir) != "" || dir == "" || cwd == home
  {
    TrimmedNames(dir);
    TrimmedStart(dir);
    NamesOfNothing();
    NamesOfDot();
    WalkDown(Resolve(home, cwd, dir), Names(key));
    var base := Base(dir);
    if base == "" {
      WalkDown(cwd, Names(key));
      if Trimmed(dir) == "" && dir != "" {
        assert Resolve(home, cwd, dir) == home;
        AppendCancels(cwd, home, Names(key));
      }
    } else {
      PiecesOfJoin(base, key);
      SignificantAppend(Pieces(base), Pieces(key));
      WalkAppend(if Absolute(dir) then home else cwd, Names(base), Names(key));
      assert Absolute(base + "/" + key) == Absolute(base);
    }
  }
}
