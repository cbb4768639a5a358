/**
 * Path strings and how the filesystem resolves them.
 *
 * A path string is split at '/' into pieces. Resolution drops empty pieces
 * and ".", lets ".." remove the piece before it (staying at the root), and
 * yields the sequence of names from the root. Relative strings are resolved
 * from the root as well. `Join` is Python's `os.path.join` on POSIX, and
 * `Basename` is `os.path.basename`.
 */
module Paths {
  import opened Strings

  /** A resolved location: the names of the directories and file from the root. */
  type Path = seq<string>

  /** A name that can stand in a resolved path. */
  predicate Plain(n: string) {
    n != "" && n != "." && n != ".." && '/' !in n
  }

  predicate AllPlain(p: Path) {
    forall i :: 0 <= i < |p| ==> Plain(p[i])
  }

  // ---------------------------------------------------------------
  // Splitting at '/'
  // ---------------------------------------------------------------

  /** The pieces between the slashes of `s`, empty ones included (`s.split("/")`). */
  function Split(s: string): (r: seq<string>)
    ensures |r| >= 1
    ensures forall i :: 0 <= i < |r| ==> '/' !in r[i]
    decreases |s|
  {
    if |s| == 0 then [""]
    else if s[0] == '/' then [""] + Split(s[1..])
    else
      var rest := Split(s[1..]);
      [[s[0]] + rest[0]] + rest[1..]
  }

  function NonEmpty(ps: seq<string>): (r: seq<string>)
    ensures forall i :: 0 <= i < |r| ==> r[i] != "" && r[i] in ps
  {
    if ps == [] then []
    else if ps[0] == "" then NonEmpty(ps[1..])
    else [ps[0]] + NonEmpty(ps[1..])
  }

  /** The non-empty pieces of `s`. */
  function Pieces(s: string): (r: seq<string>)
    ensures forall i :: 0 <= i < |r| ==> r[i] != "" && '/' !in r[i]
  {
    NonEmpty(Split(s))
  }

  lemma {:induction false} SplitAtSlash(a: string, b: string)
    ensures Split(a + "/" + b) == Split(a) + Split(b)
    decreases |a|
  {
    if |a| == 0 {
      assert a + "/" + b == "/" + b;
      assert ("/" + b)[1..] == b;
    } else {
      assert (a + "/" + b)[0] == a[0];
      assert (a + "/" + b)[1..] == a[1..] + "/" + b;
      SplitAtSlash(a[1..], b);
    }
  }

  lemma {:induction false} NonEmptyConcat(x: seq<string>, y: seq<string>)
    ensures NonEmpty(x + y) == NonEmpty(x) + NonEmpty(y)
    decreases |x|
  {
    if x == [] {
      assert x + y == y;
    } else {
      assert (x + y)[1..] == x[1..] + y;
      NonEmptyConcat(x[1..], y);
    }
  }

  lemma PiecesAtSlash(a: string, b: string)
    ensures Pieces(a + "/" + b) == Pieces(a) + Pieces(b)
  {
    SplitAtSlash(a, b);
    NonEmptyConcat(Split(a), Split(b));
  }

  lemma PiecesOfEmpty()
    ensures Pieces("") == []
  {
  }

  /** A string without '/' is a single piece (none, when it is empty). */
  lemma {:induction false} PiecesOfName(n: string)
    requires '/' !in n
    ensures Split(n) == [n]
    ensures Pieces(n) == if n == "" then [] else [n]
    decreases |n|
  {
    if |n| > 0 {
      PiecesOfName(n[1..]);
      assert n == [n[0]] + n[1..];
    }
  }

  // ---------------------------------------------------------------
  // os.path.join and os.path.basename
  // ---------------------------------------------------------------

  /**
   * `os.path.join(a, b)` on POSIX: an absolute `b` replaces `a`; otherwise
   * `b` is appended, with a '/' in between unless `a` is empty or already
   * ends in one.
   */
  function Join(a: string, b: string): string {
    if StartsWith(b, "/") then b
    else if a == "" || EndsWith(a, "/") then a + b
    else a + "/" + b
  }

  /** `os.path.join(a, *parts)`: the two-argument join applied left to right. */
  function JoinAll(a: string, parts: seq<string>): string
    decreases |parts|
  {
    if parts == [] then a else JoinAll(Join(a, parts[0]), parts[1..])
  }

  /** Joining a relative part adds exactly that part's pieces. */
  lemma PiecesOfJoin(a: string, b: string)
    requires !StartsWith(b, "/")
    ensures Pieces(Join(a, b)) == Pieces(a) + Pieces(b)
  {
    if a == "" {
      assert a + b == b;
    } else if EndsWith(a, "/") {
      var a' := a[..|a| - 1];
      assert a == a' + "/" + "";
      assert a + b == a' + "/" + b;
      PiecesAtSlash(a', b);
      PiecesAtSlash(a', "");
    } else {
      PiecesAtSlash(a, b);
    }
  }

  /**
   * `os.path.join(a, *parts)` starts afresh at an absolute part: everything
   * before it, `a` included, is discarded.
   */
  lemma {:induction false} JoinAllAbsolute(a: string, parts: seq<string>, i: nat)
    requires i < |parts| && StartsWith(parts[i], "/")
    ensures JoinAll(a, parts) == JoinAll(parts[i], parts[i + 1..])
    decreases i
  {
    if i > 0 {
      JoinAllAbsolute(Join(a, parts[0]), parts[1..], i - 1);
      assert parts[1..][i - 1] == parts[i] && parts[1..][i..] == parts[i + 1..];
    }
  }

  /** A '/' appended to a non-empty part is appended to the join. */
  lemma JoinTrailingSlash(a: string, b: string)
    requires b != ""
    ensures Join(a, b + "/") == Join(a, b) + "/"
  {
    assert (b + "/")[..1] == b[..1];
  }

  lemma {:induction false} JoinAllSnoc(a: string, parts: seq<string>, b: string)
    ensures JoinAll(a, parts + [b]) == Join(JoinAll(a, parts), b)
    decreases |parts|
  {
    if parts != [] {
      assert (parts + [b])[0] == parts[0] && (parts + [b])[1..] == parts[1..] + [b];
      JoinAllSnoc(Join(a, parts[0]), parts[1..], b);
    } else {
      assert parts + [b] == [b];
    }
  }

  /** `os.path.join(a, x, y, z)` is three two-argument joins. */
  lemma JoinAllThree(a: string, x: string, y: string, z: string)
    ensures JoinAll(a, [x, y, z]) == Join(Join(Join(a, x), y), z)
  {
    var j1, j2 := Join(a, x), Join(Join(a, x), y);
    assert [x, y, z][1..] == [y, z];
    assert JoinAll(a, [x, y, z]) == JoinAll(j1, [y, z]);
    assert [y, z][1..] == [z];
    assert JoinAll(j1, [y, z]) == JoinAll(j2, [z]);
    assert [z][1..] == [];
    assert JoinAll(j2, [z]) == JoinAll(Join(j2, z), []);
  }

  /** A file path joined from a directory of three relative parts and a relative name has all their pieces. */
  lemma PiecesOfFilePath(a: string, x: string, y: string, z: string, n: string)
    requires !StartsWith(x, "/") && !StartsWith(y, "/") && !StartsWith(z, "/") && !StartsWith(n, "/")
    ensures Pieces(Join(JoinAll(a, [x, y, z]), n)) == Pieces(a) + Pieces(x) + Pieces(y) + Pieces(z) + Pieces(n)
  {
    JoinAllThree(a, x, y, z);
    PiecesOfJoin(a, x);
    PiecesOfJoin(Join(a, x), y);
    PiecesOfJoin(Join(Join(a, x), y), z);
    PiecesOfJoin(JoinAll(a, [x, y, z]), n);
  }

  /** The pieces of `a/x/y/z/n`, written with explicit slashes. */
  lemma PiecesOfSlashed(a: string, x: string, y: string, z: string, n: string)
    ensures Pieces(a + "/" + x + "/" + y + "/" + z + "/" + n)
            == Pieces(a) + Pieces(x) + Pieces(y) + Pieces(z) + Pieces(n)
  {
    PiecesAtSlash(a, x);
    PiecesAtSlash(a + "/" + x, y);
    PiecesAtSlash(a + "/" + x + "/" + y, z);
    PiecesAtSlash(a + "/" + x + "/" + y + "/" + z, n);
  }

  /** `os.path.basename(s)`: the text after the last '/'. */
  function Basename(s: string): (r: string)
    ensures '/' !in r
    decreases |s|
  {
    if |s| == 0 || s[|s| - 1] == '/' then ""
    else Basename(s[..|s| - 1]) + [s[|s| - 1]]
  }

  lemma {:induction false} BasenameAfterSlash(x: string, n: string)
    requires '/' !in n
    ensures Basename(x + "/" + n) == n
    decreases |n|
  {
    var s := x + "/" + n;
    if |n| > 0 {
      assert s[..|s| - 1] == x + "/" + n[..|n| - 1];
      BasenameAfterSlash(x, n[..|n| - 1]);
      assert n == n[..|n| - 1] + [n[|n| - 1]];
    }
  }

  lemma {:induction false} BasenameOfName(n: string)
    requires '/' !in n
    ensures Basename(n) == n
    decreases |n|
  {
    if |n| > 0 {
      BasenameOfName(n[..|n| - 1]);
      assert n == n[..|n| - 1] + [n[|n| - 1]];
    }
  }

  /** Joining a non-empty name without '/' gives a path whose basename is that name. */
  lemma BasenameOfJoin(a: string, n: string)
    requires n != "" && '/' !in n
    ensures Basename(Join(a, n)) == n
  {
    assert n[0] in n;
    if a == "" {
      assert a + n == n;
      BasenameOfName(n);
    } else if EndsWith(a, "/") {
      var a' := a[..|a| - 1];
      assert a == a' + "/";
      assert a + n == a' + "/" + n;
      BasenameAfterSlash(a', n);
    } else {
      BasenameAfterSlash(a, n);
    }
  }

  /** `"/".join(parts)`, the string form of a relative `Path`. */
  function Slashed(parts: seq<string>): string
    decreases |parts|
  {
    if parts == [] then ""
    else if |parts| == 1 then parts[0]
    else parts[0] + "/" + Slashed(parts[1..])
  }

  /** The parts of a relative path come back as its pieces. */
  lemma {:induction false} PiecesOfSlashedParts(parts: seq<string>)
    requires AllPlain(parts)
    ensures Pieces(Slashed(parts)) == parts
    decreases |parts|
  {
    if parts != [] {
      assert parts[0][0] in parts[0];
      PiecesOfName(parts[0]);
      if |parts| > 1 {
        assert AllPlain(parts[1..]) by {
          forall i | 0 <= i < |parts| - 1 ensures Plain(parts[1..][i]) {
            assert parts[1..][i] == parts[i + 1];
          }
        }
        PiecesOfSlashedParts(parts[1..]);
        PiecesAtSlash(parts[0], Slashed(parts[1..]));
        assert parts == [parts[0]] + parts[1..];
      }
    }
  }

  /** Splitting a relative path of plain parts at '/' gives the parts back. */
  lemma {:induction false} SplitOfSlashedParts(parts: seq<string>)
    requires parts != [] && AllPlain(parts)
    ensures Split(Slashed(parts)) == parts
    decreases |parts|
  {
    PiecesOfName(parts[0]);
    if |parts| > 1 {
      assert AllPlain(parts[1..]) by {
        forall i | 0 <= i < |parts| - 1 ensures Plain(parts[1..][i]) {
          assert parts[1..][i] == parts[i + 1];
        }
      }
      SplitOfSlashedParts(parts[1..]);
      SplitAtSlash(parts[0], Slashed(parts[1..]));
      assert parts == [parts[0]] + parts[1..];
    }
  }

  lemma SlashedStart(parts: seq<string>)
    requires parts != [] && Plain(parts[0])
    ensures Slashed(parts) != "" && Slashed(parts)[0] == parts[0][0] && !StartsWith(Slashed(parts), "/")
  {
    assert parts[0][0] in parts[0];
  }

  /** A relative path of plain names, joined to a directory string, names that many levels below it. */
  lemma ResolveBelow(base: string, parts: seq<string>)
    requires parts != [] && AllPlain(parts)
    ensures Resolve(Join(base, Slashed(parts))) == Resolve(base) + parts
  {
    SlashedStart(parts);
    PiecesOfJoin(base, Slashed(parts));
    PiecesOfSlashedParts(parts);
    NormalizeConcat([], Pieces(base), parts);
    NormalizePlain(Resolve(base), parts);
  }

  /** Splits off the last part of a relative path. */
  lemma {:induction false} SlashedSnoc(parts: seq<string>)
    requires |parts| >= 2
    ensures Slashed(parts) == Slashed(parts[..|parts| - 1]) + "/" + parts[|parts| - 1]
    decreases |parts|
  {
    if |parts| > 2 {
      var rest := parts[1..];
      SlashedSnoc(rest);
      assert rest[..|rest| - 1] == parts[1..|parts| - 1];
      assert parts[..|parts| - 1][1..] == parts[1..|parts| - 1];
    } else {
      assert parts[..1] == [parts[0]];
      assert parts[1..] == [parts[1]];
    }
  }

  /** Joining `a/n` is joining `a`, then appending "/n". */
  lemma JoinThenSlash(base: string, a: string, n: string)
    requires a != "" && !StartsWith(a, "/")
    ensures Join(base, a + "/" + n) == Join(base, a) + "/" + n
  {
    var b := a + "/" + n;
    assert b[..1] == a[..1];
    assert !StartsWith(b, "/");
    if base == "" || EndsWith(base, "/") {
      assert base + b == base + a + "/" + n;
    } else {
      assert base + "/" + b == base + "/" + a + "/" + n;
    }
  }

  /** A relative path is its leading parts, a '/', and its last part. */
  lemma SlashedLast(parts: seq<string>)
    requires |parts| >= 2 && AllPlain(parts)
    ensures var init := parts[..|parts| - 1];
      && init != [] && AllPlain(init) && Slashed(init) != "" && !StartsWith(Slashed(init), "/")
      && Slashed(parts) == Slashed(init) + "/" + parts[|parts| - 1]
  {
    var init := parts[..|parts| - 1];
    SlashedSnoc(parts);
    assert AllPlain(init) by {
      forall i | 0 <= i < |init| ensures Plain(init[i]) {
        assert init[i] == parts[i];
      }
    }
    SlashedStart(init);
  }

  /** The basename of a relative path, alone or joined to a directory string, is its last part. */
  lemma BasenameOfSlashed(base: string, parts: seq<string>)
    requires parts != [] && AllPlain(parts)
    ensures var last := parts[|parts| - 1];
      && Basename(Slashed(parts)) == last
      && Basename(Join(base, Slashed(parts))) == last
      && EndsWith(Slashed(parts), last)
  {
    if |parts| == 1 {
      assert Slashed(parts) == parts[0];
      BasenameOfPlain(base, parts[0]);
    } else {
      SlashedLast(parts);
      BasenameAfterPrefix(base, Slashed(parts[..|parts| - 1]), parts[|parts| - 1]);
    }
  }

  /** A single name is its own basename, alone or joined to a directory string. */
  lemma BasenameOfPlain(base: string, n: string)
    requires Plain(n)
    ensures Basename(n) == n && Basename(Join(base, n)) == n && EndsWith(n, n)
  {
    BasenameOfName(n);
    BasenameOfJoin(base, n);
    assert n[|n| - |n|..] == n;
  }

  /** The name after a relative prefix and a slash is the basename, alone or joined to a directory string. */
  lemma BasenameAfterPrefix(base: string, s: string, last: string)
    requires s != "" && !StartsWith(s, "/") && '/' !in last
    ensures Basename(s + "/" + last) == last && EndsWith(s + "/" + last, last)
    ensures Basename(Join(base, s + "/" + last)) == last
  {
    BasenameAfterSlash(s, last);
    EndsWithConcat(s + "/", last);
    JoinThenSlash(base, s, last);
    BasenameAfterSlash(Join(base, s), last);
  }

  // ---------------------------------------------------------------
  // Resolution
  // ---------------------------------------------------------------

  /** One piece of resolution: "" and "." stay, ".." goes up, a name goes down. */
  function Step(at: Path, piece: string): Path {
    if piece == "" || piece == "." then at
    else if piece == ".." then (if at == [] then [] else at[..|at| - 1])
    else at + [piece]
  }

  function Normalize(at: Path, pieces: seq<string>): (r: Path)
    requires AllPlain(at)
    requires forall i :: 0 <= i < |pieces| ==> '/' !in pieces[i]
    ensures AllPlain(r)
    decreases |pieces|
  {
    if pieces == [] then at else Normalize(Step(at, pieces[0]), pieces[1..])
  }

  /** The location a path string names. */
  function Resolve(s: string): (r: Path)
    ensures AllPlain(r)
  {
    Normalize([], Pieces(s))
  }

  lemma {:induction false} NormalizeConcat(at: Path, x: seq<string>, y: seq<string>)
    requires AllPlain(at)
    requires forall i :: 0 <= i < |x| ==> '/' !in x[i]
    requires forall i :: 0 <= i < |y| ==> '/' !in y[i]
    ensures Normalize(at, x + y) == Normalize(Normalize(at, x), y)
    decreases |x|
  {
    if x == [] {
      assert x + y == y;
    } else {
      assert (x + y)[0] == x[0] && (x + y)[1..] == x[1..] + y;
      NormalizeConcat(Step(at, x[0]), x[1..], y);
    }
  }

  lemma {:induction false} NormalizePlain(at: Path, names: seq<string>)
    requires AllPlain(at) && AllPlain(names)
    ensures Normalize(at, names) == at + names
    decreases |names|
  {
    if names != [] {
      NormalizePlain(at + [names[0]], names[1..]);
      assert at + [names[0]] + names[1..] == at + names;
    }
  }

  /** Empty pieces do not move resolution. */
  lemma {:induction false} NormalizeNonEmpty(at: Path, ps: seq<string>)
    requires AllPlain(at) && forall i :: 0 <= i < |ps| ==> '/' !in ps[i]
    ensures Normalize(at, NonEmpty(ps)) == Normalize(at, ps)
    decreases |ps|
  {
    if ps != [] {
      NormalizeNonEmpty(Step(at, ps[0]), ps[1..]);
    }
  }

  /** Resolution of the pieces `split("/")` gives, empty ones included. */
  lemma ResolveBySplit(s: string)
    ensures Resolve(s) == Normalize([], Split(s))
  {
    NormalizeNonEmpty([], Split(s));
  }

  /** Without "..", resolution from `at` only adds names below `at`. */
  lemma NormalizeBelow(at: Path, ps: seq<string>)
    requires AllPlain(at) && forall i :: 0 <= i < |ps| ==> '/' !in ps[i] && ps[i] != ".."
    ensures Normalize(at, ps) == at + Normalize([], ps)
  {
    assert at + [] == at;
    NormalizeUnder(at, [], ps);
  }

  /** Without "..", resolution from `at + q` never climbs back into `at`. */
  lemma {:induction false} NormalizeUnder(at: Path, q: Path, ps: seq<string>)
    requires AllPlain(at) && AllPlain(q) && forall i :: 0 <= i < |ps| ==> '/' !in ps[i] && ps[i] != ".."
    ensures AllPlain(at + q) && Normalize(at + q, ps) == at + Normalize(q, ps)
    decreases |ps|
  {
    assert AllPlain(at + q);
    if ps != [] {
      var p, rest := ps[0], ps[1..];
      if Plain(p) {
        var q' := q + [p];
        assert AllPlain(q');
        assert Step(at + q, p) == at + q' && Step(q, p) == q';
        NormalizeUnder(at, q', rest);
      } else {
        assert Step(at + q, p) == at + q && Step(q, p) == q;
        NormalizeUnder(at, q, rest);
      }
    }
  }

  /** Resolution ends in the last piece when that is a name. */
  lemma NormalizeLastName(at: Path, ps: seq<string>)
    requires AllPlain(at) && ps != [] && forall i :: 0 <= i < |ps| ==> '/' !in ps[i]
    requires Plain(ps[|ps| - 1])
    ensures Normalize(at, ps) != []
  {
    var init := ps[..|ps| - 1];
    assert ps == init + [ps[|ps| - 1]];
    NormalizeConcat(at, init, [ps[|ps| - 1]]);
  }

  /** `os.path.join(a, x, y, z, n)` with single plain names goes four levels down from `a`. */
  lemma ResolveFilePath(a: string, x: string, y: string, z: string, n: string)
    requires Plain(x) && Plain(y) && Plain(z) && Plain(n)
    ensures Resolve(Join(JoinAll(a, [x, y, z]), n)) == Resolve(a) + [x, y, z, n]
  {
    JoinAllThree(a, x, y, z);
    ResolveChild(a, x);
    ResolveChild(Join(a, x), y);
    ResolveChild(Join(Join(a, x), y), z);
    ResolveChild(JoinAll(a, [x, y, z]), n);
  }

  /** Two strings with the same pieces name the same location. */
  lemma ResolveByPieces(s: string, t: string)
    requires Pieces(s) == Pieces(t)
    ensures Resolve(s) == Resolve(t)
  {
  }

  /** Appending a plain name to a path string goes one level down from its location. */
  lemma ResolveChild(dir: string, n: string)
    requires Plain(n)
    ensures Resolve(Join(dir, n)) == Resolve(dir) + [n]
  {
    assert n[0] in n;
    PiecesOfJoin(dir, n);
    PiecesOfName(n);
    NormalizeConcat([], Pieces(dir), [n]);
    NormalizePlain(Resolve(dir), [n]);
  }
}
