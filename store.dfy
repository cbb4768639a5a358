/**
 * The filesystem under the Vault's data directory, as a tree of named
 * directories and files, with the three operations the handlers use:
 * looking a location up (`os.path.exists`, `open` for reading),
 * `os.makedirs(dir, exist_ok=True)`, and `open(path, "wb")` followed by a
 * write of the whole upload.
 */
module Store {
  import opened Wrappers
  import opened Strings
  import opened Paths

  type Bytes = seq<bv8>

  /** A directory's children are listed in the order `iterdir`/`listdir` return them. */
  datatype Entry = File(name: string, data: Bytes) | Dir(name: string, children: seq<Entry>)

  /** The child called `n`, if there is one. */
  function FindChild(cs: seq<Entry>, n: string): (r: Option<Entry>)
    ensures r.Some? ==> r.value in cs && r.value.name == n
    ensures r.None? <==> forall i :: 0 <= i < |cs| ==> cs[i].name != n
    decreases |cs|
  {
    if cs == [] then None
    else if cs[0].name == n then Some(cs[0])
    else FindChild(cs[1..], n)
  }

  /** Replaces the child with `c`'s name by `c`, or adds `c` at the end. */
  function SetChild(cs: seq<Entry>, c: Entry): seq<Entry>
    decreases |cs|
  {
    if cs == [] then [c]
    else if cs[0].name == c.name then [c] + cs[1..]
    else [cs[0]] + SetChild(cs[1..], c)
  }

  lemma {:induction false} FindSetChild(cs: seq<Entry>, c: Entry, n: string)
    ensures FindChild(SetChild(cs, c), n) == if n == c.name then Some(c) else FindChild(cs, n)
    decreases |cs|
  {
    if cs != [] && cs[0].name != c.name {
      FindSetChild(cs[1..], c, n);
    }
  }

  /** `os.listdir`: the names of a directory's entries, in their stored order. */
  function Names(cs: seq<Entry>): (r: seq<string>)
    ensures |r| == |cs| && forall i :: 0 <= i < |cs| ==> r[i] == cs[i].name
  {
    seq(|cs|, i requires 0 <= i < |cs| => cs[i].name)
  }

  /** What a resolved location holds, walking down from `e`. */
  function Lookup(e: Entry, p: Path): Option<Entry>
    decreases |p|
  {
    if p == [] then Some(e)
    else match e
      case File(_, _) => None
      case Dir(_, cs) =>
        match FindChild(cs, p[0])
        case None => None
        case Some(c) => Lookup(c, p[1..])
  }

  predicate IsDirAt(e: Entry, p: Path) {
    Lookup(e, p).Some? && Lookup(e, p).value.Dir?
  }

  predicate IsFileAt(e: Entry, p: Path) {
    Lookup(e, p).Some? && Lookup(e, p).value.File?
  }

  /** The bytes of the file at `p`, if `p` is a file. */
  function FileAt(e: Entry, p: Path): Option<Bytes> {
    match Lookup(e, p)
    case Some(File(_, data)) => Some(data)
    case _ => None
  }

  /**
   * `os.makedirs(p, exist_ok=True)`: creates the missing directories along
   * `p`; fails (`None`) when a location along it is a file.
   */
  function MakeDirs(e: Entry, p: Path): (r: Option<Entry>)
    ensures r.Some? ==> r.value.Dir? && r.value.name == e.name
    decreases |p|
  {
    if e.File? then None
    else if p == [] then Some(e)
    else
      var sub := match FindChild(e.children, p[0]) case Some(c) => c case None => Dir(p[0], []);
      match MakeDirs(sub, p[1..])
      case None => None
      case Some(sub') => Some(Dir(e.name, SetChild(e.children, sub')))
  }

  /**
   * `open(p, "wb").write(data)`: replaces or creates the file at `p`. Fails
   * when the parent is missing or is a file, when `p` is a directory, and
   * for the root itself.
   */
  function WriteFile(e: Entry, p: Path, data: Bytes): (r: Option<Entry>)
    ensures r.Some? ==> r.value.Dir? && r.value.name == e.name
    decreases |p|
  {
    if e.File? || p == [] then None
    else
      var found := FindChild(e.children, p[0]);
      if |p| == 1 then
        if found.Some? && found.value.Dir? then None
        else Some(Dir(e.name, SetChild(e.children, File(p[0], data))))
      else if found.None? then None
      else
        match WriteFile(found.value, p[1..], data)
        case None => None
        case Some(c) => Some(Dir(e.name, SetChild(e.children, c)))
  }

  // ---------------------------------------------------------------
  // Facts about lookups
  // ---------------------------------------------------------------

  /** Walking into a child is walking the rest of the path from that child. */
  lemma LookupChild(e: Entry, p: Path, k: nat)
    requires e.Dir? && 0 < k <= |p|
    ensures Lookup(e, p[..k]) == match FindChild(e.children, p[0]) case None => None case Some(c) => Lookup(c, p[1..][..k - 1])
  {
    assert p[..k][0] == p[0] && p[..k][1..] == p[1..][..k - 1];
  }

  /** A location below a missing one is missing too. */
  lemma {:induction false} LookupInEmpty(n: string, p: Path)
    requires p != []
    ensures Lookup(Dir(n, []), p) == None
  {
  }

  /** Walking `p + q` is walking `p`, then `q` from where `p` leads. */
  lemma {:induction false} LookupConcat(e: Entry, p: Path, q: Path)
    ensures Lookup(e, p + q) == match Lookup(e, p) case None => None case Some(x) => Lookup(x, q)
    decreases |p|
  {
    if p == [] {
      assert p + q == q;
    } else if e.Dir? {
      assert (p + q)[0] == p[0] && (p + q)[1..] == p[1..] + q;
      match FindChild(e.children, p[0])
      case None =>
      case Some(c) => LookupConcat(c, p[1..], q);
    }
  }

  // ---------------------------------------------------------------
  // os.makedirs
  // ---------------------------------------------------------------

  /** `os.makedirs(exist_ok=True)` fails exactly when some location along the path is a file. */
  lemma {:induction false} MakeDirsSucceedsIff(e: Entry, p: Path)
    ensures MakeDirs(e, p).Some? <==> forall k :: 0 <= k <= |p| ==> !IsFileAt(e, p[..k])
    decreases |p|
  {
    assert p[..0] == [];
    if e.Dir? && p != [] {
      var found := FindChild(e.children, p[0]);
      var sub := match found case Some(c) => c case None => Dir(p[0], []);
      MakeDirsSucceedsIff(sub, p[1..]);
      forall k | 0 < k <= |p| ensures IsFileAt(e, p[..k]) <==> found.Some? && IsFileAt(sub, p[1..][..k - 1]) {
        LookupChild(e, p, k);
      }
      if found.None? {
        forall j | 0 <= j < |p| ensures !IsFileAt(sub, p[1..][..j]) {
          if j > 0 { LookupInEmpty(p[0], p[1..][..j]); }
        }
      }
      if MakeDirs(e, p).Some? {
        forall k | 0 <= k <= |p| ensures !IsFileAt(e, p[..k]) {
          if k > 0 { assert 0 <= k - 1 <= |p[1..]|; }
        }
      } else {
        var k :| 0 <= k <= |p[1..]| && IsFileAt(sub, p[1..][..k]);
        assert IsFileAt(e, p[..k + 1]);
      }
    }
  }

  /** After `os.makedirs(p)` succeeds, `p` is a directory. */
  lemma {:induction false} MakeDirsMakesDir(e: Entry, p: Path)
    requires MakeDirs(e, p).Some?
    ensures IsDirAt(MakeDirs(e, p).value, p)
    decreases |p|
  {
    if p != [] {
      var sub := match FindChild(e.children, p[0]) case Some(c) => c case None => Dir(p[0], []);
      MakeDirsMakesDir(sub, p[1..]);
      var sub' := MakeDirs(sub, p[1..]).value;
      FindSetChild(e.children, sub', p[0]);
    }
  }

  /** `os.makedirs` leaves every file where it was, with the same contents. */
  lemma {:induction false} MakeDirsKeepsFiles(e: Entry, p: Path, q: Path)
    requires MakeDirs(e, p).Some?
    ensures FileAt(MakeDirs(e, p).value, q) == FileAt(e, q)
    decreases |p|
  {
    if p != [] && q != [] {
      var found := FindChild(e.children, p[0]);
      var sub := match found case Some(c) => c case None => Dir(p[0], []);
      var sub' := MakeDirs(sub, p[1..]).value;
      FindSetChild(e.children, sub', q[0]);
      if q[0] == p[0] {
        MakeDirsKeepsFiles(sub, p[1..], q[1..]);
        if found.None? && q[1..] != [] {
          LookupInEmpty(p[0], q[1..]);
        }
      }
    }
  }

  // ---------------------------------------------------------------
  // open(p, "wb")
  // ---------------------------------------------------------------

  function Parent(p: Path): Path
    requires p != []
  {
    p[..|p| - 1]
  }

  /** Writing a file succeeds exactly when its parent is a directory and it is not one itself. */
  lemma {:induction false} WriteFileSucceedsIff(e: Entry, p: Path, data: Bytes)
    ensures WriteFile(e, p, data).Some? <==> p != [] && IsDirAt(e, Parent(p)) && !IsDirAt(e, p)
    decreases |p|
  {
    if e.Dir? && |p| == 1 {
      var found := FindChild(e.children, p[0]);
      assert Parent(p) == [];
      assert p[1..] == [];
      assert Lookup(e, p) == match found case None => None case Some(c) => Lookup(c, []);
    } else if e.Dir? && |p| > 1 {
      var found := FindChild(e.children, p[0]);
      LookupChild(e, p, |p| - 1);
      LookupChild(e, p, |p|);
      assert p[..|p|] == p;
      assert Parent(p) == p[..|p| - 1];
      if found.Some? {
        WriteFileSucceedsIff(found.value, p[1..], data);
        assert Parent(p[1..]) == p[1..][..|p| - 2];
        assert p[1..][..|p| - 1] == p[1..];
      }
    } else if e.File? && p != [] {
      assert Parent(p) == [] ==> IsDirAt(e, Parent(p)) == false;
      if Parent(p) != [] {
        assert Lookup(e, Parent(p)) == None;
      }
    }
  }

  /** After a successful write the file holds exactly the bytes written. */
  lemma {:induction false} WriteThenRead(e: Entry, p: Path, data: Bytes)
    requires WriteFile(e, p, data).Some?
    ensures FileAt(WriteFile(e, p, data).value, p) == Some(data)
    decreases |p|
  {
    var found := FindChild(e.children, p[0]);
    var r := WriteFile(e, p, data).value;
    if |p| == 1 {
      FindSetChild(e.children, File(p[0], data), p[0]);
      assert p[1..] == [];
      assert Lookup(r, p) == Lookup(File(p[0], data), []);
    } else {
      var c := WriteFile(found.value, p[1..], data).value;
      WriteThenRead(found.value, p[1..], data);
      FindSetChild(e.children, c, p[0]);
      assert Lookup(r, p) == Lookup(c, p[1..]);
    }
  }

  /** A write of a file directly in `e` changes no other location's file. */
  lemma WriteHereKeepsOthers(e: Entry, p: Path, data: Bytes, q: Path)
    requires |p| == 1 && WriteFile(e, p, data).Some? && q != p && q != []
    ensures FileAt(WriteFile(e, p, data).value, q) == FileAt(e, q)
  {
    var r := WriteFile(e, p, data).value;
    var found := FindChild(e.children, p[0]);
    FindSetChild(e.children, File(p[0], data), q[0]);
    if q[0] == p[0] {
      assert q[1..] != [] by { assert p == [p[0]]; assert q == [q[0]] + q[1..]; }
      assert Lookup(r, q) == Lookup(File(p[0], data), q[1..]) == None;
      assert found.None? || found.value.File?;
      assert Lookup(e, q) == None;
    } else {
      assert Lookup(r, q) == Lookup(e, q);
    }
  }

  /** A write changes no file other than the one written. */
  lemma {:induction false} WriteFileKeepsOthers(e: Entry, p: Path, data: Bytes, q: Path)
    requires WriteFile(e, p, data).Some? && q != p
    ensures FileAt(WriteFile(e, p, data).value, q) == FileAt(e, q)
    decreases |p|
  {
    var r := WriteFile(e, p, data).value;
    if q != [] {
      var found := FindChild(e.children, p[0]);
      if |p| == 1 {
        WriteHereKeepsOthers(e, p, data, q);
      } else {
        var c := WriteFile(found.value, p[1..], data).value;
        FindSetChild(e.children, c, q[0]);
        if q[0] == p[0] {
          assert q[1..] != p[1..] by { assert q == [q[0]] + q[1..]; assert p == [p[0]] + p[1..]; }
          WriteFileKeepsOthers(found.value, p[1..], data, q[1..]);
          assert Lookup(r, q) == Lookup(c, q[1..]);
          assert Lookup(e, q) == Lookup(found.value, q[1..]);
        } else {
          assert Lookup(r, q) == Lookup(e, q);
        }
      }
    }
  }

  // ---------------------------------------------------------------
  // Well-formed trees
  // ---------------------------------------------------------------

  predicate UniqueNames(cs: seq<Entry>) {
    forall i, j :: 0 <= i < j < |cs| ==> cs[i].name != cs[j].name
  }

  /** Every directory's children have distinct names that can stand in a path. */
  predicate WellFormed(e: Entry)
    decreases e
  {
    e.Dir? ==>
      && UniqueNames(e.children)
      && (forall i :: 0 <= i < |e.children| ==> Plain(e.children[i].name))
      && (forall i :: 0 <= i < |e.children| ==> WellFormed(e.children[i]))
  }

  lemma {:induction false} SetChildShape(cs: seq<Entry>, c: Entry)
    ensures forall x :: x in SetChild(cs, c) ==> x == c || x in cs
    ensures c in SetChild(cs, c)
    ensures UniqueNames(cs) ==> UniqueNames(SetChild(cs, c))
    decreases |cs|
  {
    if cs != [] && cs[0].name != c.name {
      SetChildShape(cs[1..], c);
      var r := SetChild(cs, c);
      if UniqueNames(cs) {
        forall i, j | 0 <= i < j < |r| ensures r[i].name != r[j].name {
          if i == 0 {
            assert r[j] in SetChild(cs[1..], c);
            if r[j] != c {
              assert r[j] in cs[1..];
              var m :| 0 <= m < |cs[1..]| && cs[1..][m] == r[j];
              assert cs[m + 1] == r[j];
            }
          }
        }
      }
    } else if cs != [] {
      var r := SetChild(cs, c);
      if UniqueNames(cs) {
        forall i, j | 0 <= i < j < |r| ensures r[i].name != r[j].name {
          if i == 0 {
            assert r[j] == cs[j];
          }
        }
      }
    }
  }

  lemma SetChildWellFormed(e: Entry, c: Entry)
    requires e.Dir? && WellFormed(e) && WellFormed(c) && Plain(c.name)
    ensures WellFormed(Dir(e.name, SetChild(e.children, c)))
  {
    SetChildShape(e.children, c);
    var r := SetChild(e.children, c);
    forall i | 0 <= i < |r| ensures Plain(r[i].name) && WellFormed(r[i]) {
      assert r[i] in r;
      if r[i] != c {
        var m :| 0 <= m < |e.children| && e.children[m] == r[i];
      }
    }
  }

  /** `os.makedirs` along a resolved path keeps the tree well formed. */
  lemma {:induction false} MakeDirsWellFormed(e: Entry, p: Path)
    requires WellFormed(e) && AllPlain(p) && MakeDirs(e, p).Some?
    ensures WellFormed(MakeDirs(e, p).value)
    decreases |p|
  {
    if p != [] {
      var found := FindChild(e.children, p[0]);
      var sub := match found case Some(c) => c case None => Dir(p[0], []);
      if found.Some? {
        var m :| 0 <= m < |e.children| && e.children[m] == found.value;
      }
      assert AllPlain(p[1..]) by { assert forall i :: 0 <= i < |p[1..]| ==> p[1..][i] == p[i + 1]; }
      MakeDirsWellFormed(sub, p[1..]);
      SetChildWellFormed(e, MakeDirs(sub, p[1..]).value);
    }
  }

  /** Writing a file at a resolved path keeps the tree well formed. */
  lemma {:induction false} WriteFileWellFormed(e: Entry, p: Path, data: Bytes)
    requires WellFormed(e) && AllPlain(p) && WriteFile(e, p, data).Some?
    ensures WellFormed(WriteFile(e, p, data).value)
    decreases |p|
  {
    var found := FindChild(e.children, p[0]);
    if |p| == 1 {
      SetChildWellFormed(e, File(p[0], data));
    } else {
      var m :| 0 <= m < |e.children| && e.children[m] == found.value;
      assert AllPlain(p[1..]) by { assert forall i :: 0 <= i < |p[1..]| ==> p[1..][i] == p[i + 1]; }
      WriteFileWellFormed(found.value, p[1..], data);
      SetChildWellFormed(e, WriteFile(found.value, p[1..], data).value);
    }
  }

  /** In a directory with distinct names, looking a child's name up finds that child. */
  lemma {:induction false} FindChildUnique(cs: seq<Entry>, c: Entry)
    requires UniqueNames(cs) && c in cs
    ensures FindChild(cs, c.name) == Some(c)
    decreases |cs|
  {
    if cs[0] != c {
      assert UniqueNames(cs[1..]) by {
        forall i, j | 0 <= i < j < |cs| - 1 ensures cs[1..][i].name != cs[1..][j].name {
          assert cs[1..][i] == cs[i + 1] && cs[1..][j] == cs[j + 1];
        }
      }
      var k :| 0 <= k < |cs| && cs[k] == c;
      assert cs[0].name != c.name;
      FindChildUnique(cs[1..], c);
    }
  }

  /** Every entry of a well-formed tree is well-formed. */
  lemma {:induction false} LookupWellFormed(e: Entry, p: Path)
    requires WellFormed(e) && Lookup(e, p).Some?
    ensures WellFormed(Lookup(e, p).value)
    decreases |p|
  {
    if p != [] {
      var c := FindChild(e.children, p[0]).value;
      var i :| 0 <= i < |e.children| && e.children[i] == c;
      LookupWellFormed(c, p[1..]);
    }
  }

  // ---------------------------------------------------------------
  // The kernel's walk: os.path.exists, and open for reading
  // ---------------------------------------------------------------

  /**
   * Whether `stat` gets through the pieces `ps` (empty ones included) of a
   * path string, starting at the location `at`: every name has to be
   * there, and an empty piece (a doubled or trailing '/'), "." and ".." are
   * only allowed where the walk stands on a directory (ENOENT and ENOTDIR
   * otherwise).
   */
  predicate Reaches(e: Entry, at: Path, ps: seq<string>)
    decreases |ps|
  {
    ps == [] ||
    ((if Plain(ps[0]) then Lookup(e, at + [ps[0]]).Some? else IsDirAt(e, at))
     && Reaches(e, Step(at, ps[0]), ps[1..]))
  }

  /**
   * `os.path.exists(s)`, and what opening `s` then reaches. The walk starts
   * at the root; the empty string names nothing.
   */
  function Find(e: Entry, s: string): Option<Entry> {
    if s != "" && Reaches(e, [], Split(s)) then Lookup(e, Resolve(s)) else None
  }

  /** A location that has something below it is a directory. */
  lemma LookupPrefix(e: Entry, p: Path, q: Path)
    requires Lookup(e, p + q).Some?
    ensures Lookup(e, p).Some?
    ensures q != [] ==> IsDirAt(e, p)
  {
    LookupConcat(e, p, q);
  }

  /** Where the walk gets through, resolution leads to an entry. */
  lemma {:induction false} ReachesFinds(e: Entry, at: Path, ps: seq<string>)
    requires AllPlain(at) && forall i :: 0 <= i < |ps| ==> '/' !in ps[i]
    requires Lookup(e, at).Some? && Reaches(e, at, ps)
    ensures Lookup(e, Normalize(at, ps)).Some?
    decreases |ps|
  {
    if ps != [] {
      var p := ps[0];
      if p == ".." && at != [] {
        assert at == Parent(at) + [at[|at| - 1]];
        LookupPrefix(e, Parent(at), [at[|at| - 1]]);
      }
      ReachesFinds(e, Step(at, p), ps[1..]);
    }
  }

  /** `os.path.exists` holds exactly when the walk gets through a non-empty path. */
  lemma FindExists(e: Entry, s: string)
    ensures Find(e, s).Some? <==> s != "" && Reaches(e, [], Split(s))
    ensures Find(e, s).Some? ==> Find(e, s) == Lookup(e, Resolve(s))
  {
    if s != "" && Reaches(e, [], Split(s)) {
      ReachesFinds(e, [], Split(s));
      ResolveBySplit(s);
    }
  }

  /** Walking `x + y` is walking `x`, then `y` from where `x` resolves. */
  lemma {:induction false} ReachesConcat(e: Entry, at: Path, x: seq<string>, y: seq<string>)
    requires AllPlain(at) && forall i :: 0 <= i < |x| ==> '/' !in x[i]
    ensures Reaches(e, at, x + y) <==> Reaches(e, at, x) && Reaches(e, Normalize(at, x), y)
    decreases |x|
  {
    if x == [] {
      assert x + y == y;
    } else {
      assert (x + y)[0] == x[0] && (x + y)[1..] == x[1..] + y;
      ReachesConcat(e, Step(at, x[0]), x[1..], y);
    }
  }

  /** Along plain names the walk gets through exactly when the location at their end exists. */
  lemma {:induction false} ReachesPlain(e: Entry, at: Path, names: seq<string>)
    requires AllPlain(at) && AllPlain(names) && names != []
    ensures Reaches(e, at, names) <==> Lookup(e, at + names).Some?
    decreases |names|
  {
    var n := names[0];
    assert at + names == at + [n] + names[1..];
    if |names| > 1 {
      assert AllPlain(names[1..]) by {
        forall i | 0 <= i < |names| - 1 ensures Plain(names[1..][i]) {
          assert names[1..][i] == names[i + 1];
        }
      }
      ReachesPlain(e, at + [n], names[1..]);
      if Lookup(e, at + names).Some? {
        LookupPrefix(e, at + [n], names[1..]);
      }
    } else {
      assert names == [n] && names[1..] == [];
    }
  }

  /**
   * Without "..", and ending in a name, the walk gets through exactly when
   * resolution leads to an entry: "." and empty pieces stand on locations
   * that something below is looked up in anyway.
   */
  lemma {:induction false} ReachesLexical(e: Entry, at: Path, ps: seq<string>)
    requires AllPlain(at) && ps != [] && forall i :: 0 <= i < |ps| ==> '/' !in ps[i] && ps[i] != ".."
    requires Plain(ps[|ps| - 1])
    ensures Reaches(e, at, ps) <==> Lookup(e, Normalize(at, ps)).Some?
    decreases |ps|
  {
    var p, rest := ps[0], ps[1..];
    if rest == [] {
      assert Normalize(at, ps) == Normalize(at + [p], rest);
    } else {
      assert rest[|rest| - 1] == ps[|ps| - 1];
      ReachesLexical(e, Step(at, p), rest);
      NormalizeBelow(Step(at, p), rest);
      NormalizeLastName(Step(at, p), rest);
      NormalizeLastName([], rest);
      if Lookup(e, Normalize(at, ps)).Some? {
        LookupPrefix(e, Step(at, p), Normalize([], rest));
      }
    }
  }

  /**
   * A path whose last piece is a name and which has no ".." piece is found
   * exactly where resolution leads.
   */
  lemma FindLexical(e: Entry, s: string)
    requires ".." !in Split(s) && Plain(Split(s)[|Split(s)| - 1])
    ensures Find(e, s) == Lookup(e, Resolve(s))
  {
    var ps := Split(s);
    forall i | 0 <= i < |ps| ensures '/' !in ps[i] && ps[i] != ".." {
      assert ps[i] in ps;
    }
    ReachesLexical(e, [], ps);
    ResolveBySplit(s);
  }

  /** A trailing '/' is only got through on a directory (`stat` reports ENOTDIR after a file). */
  lemma FindTrailingSlash(e: Entry, s: string)
    requires s != ""
    ensures Find(e, s + "/") == if Find(e, s).Some? && Find(e, s).value.Dir? then Find(e, s) else None
  {
    var x := Split(s);
    assert s + "/" == s + "/" + "";
    SplitAtSlash(s, "");
    assert Split(s + "/") == x + [""];
    ReachesConcat(e, [], x, [""]);
    assert [""][1..] == [];
    ResolveBySplit(s);
    PiecesAtSlash(s, "");
    ResolveByPieces(s + "/", s);
    FindExists(e, s);
  }

  /** So is a trailing "/.". */
  lemma FindTrailingDot(e: Entry, s: string)
    requires s != ""
    ensures Find(e, s + "/.") == if Find(e, s).Some? && Find(e, s).value.Dir? then Find(e, s) else None
  {
    var x := Split(s);
    assert s + "/." == s + "/" + ".";
    SplitAtSlash(s, ".");
    PiecesOfName(".");
    assert Split(s + "/.") == x + ["."];
    ReachesConcat(e, [], x, ["."]);
    assert ["."][1..] == [];
    ResolveBySplit(s);
    PiecesAtSlash(s, ".");
    NormalizeConcat([], Pieces(s), ["."]);
    FindExists(e, s);
  }

  /**
   * Joining a relative path onto a directory that exists is walking that
   * path from the directory.
   */
  lemma FindJoin(e: Entry, base: string, r: string)
    requires Find(e, base).Some? && Find(e, base).value.Dir? && r != "" && !StartsWith(r, "/")
    ensures Find(e, Join(base, r))
            == if Reaches(e, Resolve(base), Split(r)) then Lookup(e, Normalize(Resolve(base), Pieces(r))) else None
  {
    FindExists(e, base);
    var b0 := if EndsWith(base, "/") then base[..|base| - 1] else base;
    assert Join(base, r) == b0 + "/" + r;
    SplitAtSlash(b0, r);
    PiecesAtSlash(b0, r);
    if EndsWith(base, "/") {
      assert base == b0 + "/" + "";
      SplitAtSlash(b0, "");
      ReachesConcat(e, [], Split(b0), [""]);
      PiecesAtSlash(b0, "");
      ResolveByPieces(base, b0);
    }
    ResolveBySplit(b0);
    ReachesConcat(e, [], Split(b0), Split(r));
    NormalizeConcat([], Pieces(b0), Pieces(r));
    FindExists(e, Join(base, r));
  }

  /** A relative path of plain names below a directory that exists is found where those names lead from it. */
  lemma FindBelow(e: Entry, base: string, root: Entry, parts: seq<string>)
    requires Find(e, base) == Some(root) && root.Dir? && parts != [] && AllPlain(parts)
    ensures Find(e, Join(base, Slashed(parts))) == Lookup(root, parts)
  {
    SlashedStart(parts);
    FindJoin(e, base, Slashed(parts));
    FindExists(e, base);
    SplitOfSlashedParts(parts);
    PiecesOfSlashedParts(parts);
    NormalizePlain(Resolve(base), parts);
    ReachesPlain(e, Resolve(base), parts);
    LookupConcat(e, Resolve(base), parts);
  }
}
