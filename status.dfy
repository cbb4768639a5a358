/**
 * The `/status` page (app.py:252-368): every user directory in name order,
 * each user's day directories newest first, and below each day the tree
 * of its folders and files, each directory's sub-directories before its
 * files, both in name order, every file with the links for its kind.
 */
module Status {
  import opened Wrappers
  import opened Strings
  import opened Paths
  import opened Store
  import opened Dates
  import opened Vault

  // ---------------------------------------------------------------
  // sorted(...) over the entries of one directory
  // ---------------------------------------------------------------

  /** Places `x` before the first entry whose name is not smaller. */
  function InsertByName(x: Entry, s: seq<Entry>): (r: seq<Entry>)
    ensures multiset(r) == multiset(s) + multiset{x}
    ensures forall e :: e in r <==> e in s || e == x
    decreases |s|
  {
    if s == [] then [x]
    else if Less(s[0].name, x.name) then
      assert s == [s[0]] + s[1..];
      [s[0]] + InsertByName(x, s[1..])
    else [x] + s
  }

  /**
   * `sorted` on the `Path` objects of one directory: they share their
   * parent, so they compare by name.
   */
  function SortByName(cs: seq<Entry>): (r: seq<Entry>)
    ensures multiset(r) == multiset(cs)
    ensures forall e :: e in r <==> e in cs
    decreases |cs|
  {
    if cs == [] then []
    else
      assert cs == [cs[0]] + cs[1..];
      InsertByName(cs[0], SortByName(cs[1..]))
  }

  predicate NamesAscending(s: seq<Entry>) {
    forall i, j :: 0 <= i < j < |s| ==> LessEq(s[i].name, s[j].name)
  }

  lemma NamesAscendingTail(s: seq<Entry>)
    requires s != [] && NamesAscending(s)
    ensures NamesAscending(s[1..])
  {
    forall i, j | 0 <= i < j < |s| - 1 ensures LessEq(s[1..][i].name, s[1..][j].name) {
      assert s[1..][i] == s[i + 1] && s[1..][j] == s[j + 1];
    }
  }

  /** An entry no later than every entry of an ascending list can go in front of it. */
  lemma ConsAscending(h: Entry, t: seq<Entry>)
    requires NamesAscending(t) && forall j :: 0 <= j < |t| ==> LessEq(h.name, t[j].name)
    ensures NamesAscending([h] + t)
  {
    forall i, j | 0 <= i < j < |[h] + t| ensures LessEq(([h] + t)[i].name, ([h] + t)[j].name) {
      assert ([h] + t)[j] == t[j - 1];
      if i > 0 {
        assert ([h] + t)[i] == t[i - 1];
      }
    }
  }

  lemma {:induction false} InsertByNameAscending(x: Entry, s: seq<Entry>)
    requires NamesAscending(s)
    ensures NamesAscending(InsertByName(x, s))
    decreases |s|
  {
    if s != [] {
      if Less(s[0].name, x.name) {
        var t := InsertByName(x, s[1..]);
        NamesAscendingTail(s);
        InsertByNameAscending(x, s[1..]);
        forall j | 0 <= j < |t| ensures LessEq(s[0].name, t[j].name) {
          assert t[j] in t;
          if t[j] != x {
            var k :| 0 <= k < |s| - 1 && s[1..][k] == t[j];
            assert s[k + 1] == t[j];
          }
        }
        ConsAscending(s[0], t);
      } else {
        LessTotal(x.name, s[0].name);
        forall j | 0 <= j < |s| ensures LessEq(x.name, s[j].name) {
          if j > 0 {
            LessEqTransitive(x.name, s[0].name, s[j].name);
          }
        }
        ConsAscending(x, s);
      }
    }
  }

  /** The entries come out in name order. */
  lemma {:induction false} SortByNameAscending(cs: seq<Entry>)
    ensures NamesAscending(SortByName(cs))
    decreases |cs|
  {
    if cs != [] {
      SortByNameAscending(cs[1..]);
      InsertByNameAscending(cs[0], SortByName(cs[1..]));
    }
  }

  /** `[p for p in path.iterdir() if p.is_dir()]` */
  function DirsOf(cs: seq<Entry>): (r: seq<Entry>)
    ensures forall e :: e in r <==> e in cs && e.Dir?
    decreases |cs|
  {
    if cs == [] then []
    else if cs[0].Dir? then [cs[0]] + DirsOf(cs[1..])
    else DirsOf(cs[1..])
  }

  /** `[p for p in path.iterdir() if p.is_file()]` */
  function FilesOf(cs: seq<Entry>): (r: seq<Entry>)
    ensures forall e :: e in r <==> e in cs && e.File?
    decreases |cs|
  {
    if cs == [] then []
    else if cs[0].File? then [cs[0]] + FilesOf(cs[1..])
    else FilesOf(cs[1..])
  }

  // ---------------------------------------------------------------
  // The lines of the page
  // ---------------------------------------------------------------

  /** A file's links: download for ".wav", view and download for ".json", download otherwise. */
  datatype LinkKind = AudioDownload | JsonViewAndDownload | PlainDownload

  function LinkFor(name: string): LinkKind {
    if EndsWith(name, ".wav") then AudioDownload
    else if EndsWith(name, ".json") then JsonViewAndDownload
    else PlainDownload
  }

  /**
   * One line of the listing. A file line carries the parts of its path
   * relative to `BASE_DIR`; its links pass `"/".join(parts)` as `file_path`.
   */
  datatype Line =
    | UserLine(name: string)
    | DateLine(name: string)
    | DirLine(level: nat, name: string)
    | FileLine(level: nat, name: string, parts: seq<string>, link: LinkKind)
    | Blank

  /** The page: the "no data folder" notice, the listing, or an unhandled error (500). */
  datatype Page = NoDataFolder | Listing(lines: seq<Line>) | ServerError

  /** `_walk_dir_with_links(path, base, lvl, lines)`: the lines it appends for the directory `dir` at `rel`. */
  function WalkLines(dir: Entry, rel: seq<string>, lvl: nat): seq<Line>
    requires dir.Dir?
    decreases dir, 1
  {
    SubdirLines(dir, SortByName(DirsOf(dir.children)), rel, lvl)
    + FileLines(SortByName(FilesOf(dir.children)), rel, lvl)
  }

  /** The first loop: each sub-directory's line, then its own walk one level deeper. */
  function SubdirLines(parent: Entry, ds: seq<Entry>, rel: seq<string>, lvl: nat): seq<Line>
    requires parent.Dir? && forall d :: d in ds ==> d.Dir? && d in parent.children
    decreases parent, 0, |ds|
  {
    if ds == [] then []
    else
      assert ds[0] in parent.children;
      [DirLine(lvl, ds[0].name)] + WalkLines(ds[0], rel + [ds[0].name], lvl + 1)
      + SubdirLines(parent, ds[1..], rel, lvl)
  }

  /** The second loop: one line per file. */
  function FileLines(files: seq<Entry>, rel: seq<string>, lvl: nat): seq<Line>
    decreases |files|
  {
    if files == [] then []
    else [FileLine(lvl, files[0].name, rel + [files[0].name], LinkFor(files[0].name))] + FileLines(files[1..], rel, lvl)
  }

  /** The walk of the day directory `date` of `user`, at indentation level 2. */
  function DayLines(user: Entry, date: string): seq<Line>
    requires user.Dir?
  {
    match FindChild(user.children, date)
    case Some(day) => if day.Dir? then WalkLines(day, [user.name, date], 2) else []
    case None => []
  }

  /** For each day: its line, its walk, and an empty line. */
  function DateLines(user: Entry, dates: seq<string>): seq<Line>
    requires user.Dir?
    decreases |dates|
  {
    if dates == [] then []
    else [DateLine(dates[0])] + DayLines(user, dates[0]) + [Blank] + DateLines(user, dates[1..])
  }

  /** The day directories of a user, in the order `_sort_dates` gives. */
  function DatesOf(user: Entry): seq<string>
    requires user.Dir?
  {
    SortDates(Names(DirsOf(user.children)))
  }

  /** For each user: its line, then its days. */
  function UserLines(users: seq<Entry>): seq<Line>
    requires forall u :: u in users ==> u.Dir?
    decreases |users|
  {
    if users == [] then []
    else [UserLine(users[0].name)] + DateLines(users[0], DatesOf(users[0])) + UserLines(users[1..])
  }

  /** The whole page for the store `fs` and the data directory `base`, once `os.path.exists(BASE_DIR)` has been asked. */
  function StatusPage(fs: Entry, base: string): Page {
    match Find(fs, base)
    case None => NoDataFolder
    case Some(File(_, _)) => ServerError
    case Some(Dir(_, users)) => Listing(UserLines(SortByName(DirsOf(users))))
  }

  // ---------------------------------------------------------------
  // Building the page
  // ---------------------------------------------------------------

  /** The list of lines `_walk_dir_with_links` appends to, and `status_all` joins. */
  class LineBuffer {
    var lines: seq<Line>

    constructor ()
      ensures lines == []
    {
      lines := [];
    }

    method Append(line: Line)
      modifies this
      ensures lines == old(lines) + [line]
    {
      lines := lines + [line];
    }
  }

  /** Moving the lines just appended from the pending part to the buffer. */
  lemma Regroup(done: seq<Line>, step: seq<Line>, rest: seq<Line>, total: seq<Line>)
    requires done + (step + rest) == total
    ensures (done + step) + rest == total
  {
    assert (done + step) + rest == done + (step + rest);
  }

  lemma Assoc(a: seq<Line>, b: seq<Line>, c: seq<Line>)
    ensures (a + b) + c == a + (b + c)
  {
  }

  lemma SubdirLinesStep(parent: Entry, ds: seq<Entry>, i: nat, rel: seq<string>, lvl: nat)
    requires parent.Dir? && forall d :: d in ds ==> d.Dir? && d in parent.children
    requires i < |ds|
    ensures ds[i] in parent.children
    ensures SubdirLines(parent, ds[i..], rel, lvl)
      == ([DirLine(lvl, ds[i].name)] + WalkLines(ds[i], rel + [ds[i].name], lvl + 1))
         + SubdirLines(parent, ds[i + 1..], rel, lvl)
  {
    assert ds[i..][0] == ds[i] && ds[i..][1..] == ds[i + 1..];
  }

  lemma FileLinesStep(files: seq<Entry>, k: nat, rel: seq<string>, lvl: nat)
    requires k < |files|
    ensures FileLines(files[k..], rel, lvl)
      == [FileLine(lvl, files[k].name, rel + [files[k].name], LinkFor(files[k].name))] + FileLines(files[k + 1..], rel, lvl)
  {
    assert files[k..][0] == files[k] && files[k..][1..] == files[k + 1..];
  }

  lemma DateLinesStep(user: Entry, dates: seq<string>, k: nat)
    requires user.Dir? && k < |dates|
    ensures DateLines(user, dates[k..])
      == ([DateLine(dates[k])] + DayLines(user, dates[k]) + [Blank]) + DateLines(user, dates[k + 1..])
  {
    assert dates[k..][0] == dates[k] && dates[k..][1..] == dates[k + 1..];
  }

  lemma UserLinesStep(users: seq<Entry>, i: nat)
    requires (forall u :: u in users ==> u.Dir?) && i < |users|
    ensures users[i].Dir?
    ensures UserLines(users[i..])
      == ([UserLine(users[i].name)] + DateLines(users[i], DatesOf(users[i]))) + UserLines(users[i + 1..])
  {
    assert users[i..][0] == users[i] && users[i..][1..] == users[i + 1..];
  }

  /** `_walk_dir_with_links`: appends the lines of the directory tree below `dir`. */
  method Walk(dir: Entry, rel: seq<string>, lvl: nat, buf: LineBuffer)
    requires dir.Dir?
    modifies buf
    ensures buf.lines == old(buf.lines) + WalkLines(dir, rel, lvl)
    decreases dir, 1
  {
    ghost var start := buf.lines;
    var ds := SortByName(DirsOf(dir.children));
    var files := SortByName(FilesOf(dir.children));
    WalkSubdirs(dir, ds, rel, lvl, buf);
    ghost var mid := buf.lines;
    WalkFiles(files, rel, lvl, buf);
    Assoc(start, SubdirLines(dir, ds, rel, lvl), FileLines(files, rel, lvl));
  }

  /** The walk's first loop, over the sorted sub-directories. */
  method WalkSubdirs(parent: Entry, ds: seq<Entry>, rel: seq<string>, lvl: nat, buf: LineBuffer)
    requires parent.Dir? && forall d :: d in ds ==> d.Dir? && d in parent.children
    modifies buf
    ensures buf.lines == old(buf.lines) + SubdirLines(parent, ds, rel, lvl)
    decreases parent, 0
  {
    var i := 0;
    while i < |ds|
      invariant 0 <= i <= |ds|
      invariant buf.lines + SubdirLines(parent, ds[i..], rel, lvl) == old(buf.lines) + SubdirLines(parent, ds, rel, lvl)
    {
      var d := ds[i];
      SubdirLinesStep(parent, ds, i, rel, lvl);
      Regroup(buf.lines, [DirLine(lvl, d.name)] + WalkLines(d, rel + [d.name], lvl + 1),
        SubdirLines(parent, ds[i + 1..], rel, lvl), old(buf.lines) + SubdirLines(parent, ds, rel, lvl));
      ghost var before := buf.lines;
      buf.Append(DirLine(lvl, d.name));
      Walk(d, rel + [d.name], lvl + 1, buf);
      Assoc(before, [DirLine(lvl, d.name)], WalkLines(d, rel + [d.name], lvl + 1));
      i := i + 1;
    }
  }

  /** The walk's second loop, over the sorted files. */
  method WalkFiles(files: seq<Entry>, rel: seq<string>, lvl: nat, buf: LineBuffer)
    modifies buf
    ensures buf.lines == old(buf.lines) + FileLines(files, rel, lvl)
  {
    var k := 0;
    while k < |files|
      invariant 0 <= k <= |files|
      invariant buf.lines + FileLines(files[k..], rel, lvl) == old(buf.lines) + FileLines(files, rel, lvl)
    {
      var f := files[k];
      FileLinesStep(files, k, rel, lvl);
      buf.Append(FileLine(lvl, f.name, rel + [f.name], LinkFor(f.name)));
      k := k + 1;
    }
  }

  /** One day: the walk of its directory, if `user` has a directory of that name. */
  method WalkDay(user: Entry, date: string, buf: LineBuffer)
    requires user.Dir?
    modifies buf
    ensures buf.lines == old(buf.lines) + DayLines(user, date)
  {
    var day := FindChild(user.children, date);
    if day.Some? && day.value.Dir? {
      Walk(day.value, [user.name, date], 2, buf);
    } else {
      assert buf.lines == buf.lines + [];
    }
  }

  /** The loop over one user's days. */
  method WalkDates(user: Entry, dates: seq<string>, buf: LineBuffer)
    requires user.Dir?
    modifies buf
    ensures buf.lines == old(buf.lines) + DateLines(user, dates)
  {
    var k := 0;
    while k < |dates|
      invariant 0 <= k <= |dates|
      invariant buf.lines + DateLines(user, dates[k..]) == old(buf.lines) + DateLines(user, dates)
    {
      var date := dates[k];
      DateLinesStep(user, dates, k);
      Regroup(buf.lines, [DateLine(date)] + DayLines(user, date) + [Blank],
        DateLines(user, dates[k + 1..]), old(buf.lines) + DateLines(user, dates));
      ghost var before := buf.lines;
      buf.Append(DateLine(date));
      WalkDay(user, date, buf);
      buf.Append(Blank);
      Assoc(before, [DateLine(date)], DayLines(user, date));
      Assoc(before, [DateLine(date)] + DayLines(user, date), [Blank]);
      k := k + 1;
    }
  }

  /** `status_all`: the page for the store `fs` with the data directory `base`. */
  method StatusAll(fs: Entry, base: string) returns (page: Page)
    ensures page == StatusPage(fs, base)
  {
    var found := Find(fs, base);
    if found.None? {
      return NoDataFolder;
    }
    if found.value.File? {
      return ServerError;
    }
    var buf := new LineBuffer();
    var users := SortByName(DirsOf(found.value.children));
    var i := 0;
    while i < |users|
      invariant 0 <= i <= |users|
      invariant fresh(buf)
      invariant buf.lines + UserLines(users[i..]) == UserLines(users)
    {
      var user := users[i];
      UserLinesStep(users, i);
      Regroup(buf.lines, [UserLine(user.name)] + DateLines(user, DatesOf(user)),
        UserLines(users[i + 1..]), UserLines(users));
      ghost var before := buf.lines;
      buf.Append(UserLine(user.name));
      WalkDates(user, DatesOf(user), buf);
      Assoc(before, [UserLine(user.name)], DateLines(user, DatesOf(user)));
      i := i + 1;
    }
    assert users[i..] == [];
    page := Listing(buf.lines);
  }

  // ---------------------------------------------------------------
  // What the page promises
  // ---------------------------------------------------------------

  /**
   * A file line's links work: its parts are plain names ending in the
   * file's own name, they lead from the data directory `root` to that
   * file, and its link kind is the one its name calls for.
   */
  predicate LinkWorks(root: Entry, l: Line) {
    l.FileLine? ==>
      && l.parts != [] && AllPlain(l.parts) && l.parts[|l.parts| - 1] == l.name
      && l.link == LinkFor(l.name)
      && Lookup(root, l.parts).Some? && Lookup(root, l.parts).value.File?
      && Lookup(root, l.parts).value.name == l.name
  }

  predicate AllLinksWork(root: Entry, lines: seq<Line>) {
    forall k :: 0 <= k < |lines| ==> LinkWorks(root, lines[k])
  }

  lemma AllLinksWorkConcat(root: Entry, a: seq<Line>, b: seq<Line>)
    requires AllLinksWork(root, a) && AllLinksWork(root, b)
    ensures AllLinksWork(root, a + b)
  {
    forall k | 0 <= k < |a + b| ensures LinkWorks(root, (a + b)[k]) {
      if k >= |a| {
        assert (a + b)[k] == b[k - |a|];
      }
    }
  }

  /** A child of a well-formed directory at `rel` is found at `rel` and its name. */
  lemma ChildLookup(root: Entry, rel: seq<string>, parent: Entry, c: Entry)
    requires parent.Dir? && WellFormed(parent) && c in parent.children
    requires Lookup(root, rel) == Some(parent)
    ensures Lookup(root, rel + [c.name]) == Some(c)
    ensures Plain(c.name) && WellFormed(c)
  {
    var k :| 0 <= k < |parent.children| && parent.children[k] == c;
    FindChildUnique(parent.children, c);
    LookupConcat(root, rel, [c.name]);
    assert [c.name][1..] == [];
  }

  lemma AllPlainSnoc(rel: seq<string>, n: string)
    requires AllPlain(rel) && Plain(n)
    ensures AllPlain(rel + [n])
  {
    assert forall i :: 0 <= i < |rel| ==> (rel + [n])[i] == rel[i];
  }

  lemma {:induction false} FileLinksWork(root: Entry, parent: Entry, files: seq<Entry>, rel: seq<string>, lvl: nat)
    requires parent.Dir? && WellFormed(parent) && AllPlain(rel) && Lookup(root, rel) == Some(parent)
    requires forall f :: f in files ==> f.File? && f in parent.children
    ensures AllLinksWork(root, FileLines(files, rel, lvl))
    decreases |files|
  {
    if files != [] {
      var f := files[0];
      assert f in files;
      ChildLookup(root, rel, parent, f);
      AllPlainSnoc(rel, f.name);
      assert forall g :: g in files[1..] ==> g in files;
      FileLinksWork(root, parent, files[1..], rel, lvl);
      AllLinksWorkConcat(root, [FileLine(lvl, f.name, rel + [f.name], LinkFor(f.name))], FileLines(files[1..], rel, lvl));
    }
  }

  /** Every file line of a walk leads to its file. */
  lemma {:induction false} WalkLinksWork(root: Entry, dir: Entry, rel: seq<string>, lvl: nat)
    requires dir.Dir? && WellFormed(dir) && AllPlain(rel) && Lookup(root, rel) == Some(dir)
    ensures AllLinksWork(root, WalkLines(dir, rel, lvl))
    decreases dir, 1
  {
    var ds := SortByName(DirsOf(dir.children));
    var files := SortByName(FilesOf(dir.children));
    SubdirLinksWork(root, dir, ds, rel, lvl);
    FileLinksWork(root, dir, files, rel, lvl);
    AllLinksWorkConcat(root, SubdirLines(dir, ds, rel, lvl), FileLines(files, rel, lvl));
  }

  lemma {:induction false} SubdirLinksWork(root: Entry, parent: Entry, ds: seq<Entry>, rel: seq<string>, lvl: nat)
    requires parent.Dir? && WellFormed(parent) && AllPlain(rel) && Lookup(root, rel) == Some(parent)
    requires forall d :: d in ds ==> d.Dir? && d in parent.children
    ensures AllLinksWork(root, SubdirLines(parent, ds, rel, lvl))
    decreases parent, 0, |ds|
  {
    if ds != [] {
      var d := ds[0];
      assert d in ds;
      ChildLookup(root, rel, parent, d);
      AllPlainSnoc(rel, d.name);
      WalkLinksWork(root, d, rel + [d.name], lvl + 1);
      assert forall e :: e in ds[1..] ==> e in ds;
      SubdirLinksWork(root, parent, ds[1..], rel, lvl);
      AllLinksWorkConcat(root, [DirLine(lvl, d.name)], WalkLines(d, rel + [d.name], lvl + 1));
      AllLinksWorkConcat(root, [DirLine(lvl, d.name)] + WalkLines(d, rel + [d.name], lvl + 1), SubdirLines(parent, ds[1..], rel, lvl));
    }
  }

  lemma DayLinksWork(root: Entry, user: Entry, date: string)
    requires root.Dir? && WellFormed(root) && user.Dir? && user in root.children
    ensures AllLinksWork(root, DayLines(user, date))
  {
    match FindChild(user.children, date)
    case None =>
    case Some(day) =>
      if day.Dir? {
        DayDirLinksWork(root, user, day);
      }
  }

  /** The walk of a day directory of a user directory of the root links to files that exist. */
  lemma DayDirLinksWork(root: Entry, user: Entry, day: Entry)
    requires root.Dir? && WellFormed(root) && user.Dir? && user in root.children
    requires day.Dir? && day in user.children
    ensures AllLinksWork(root, WalkLines(day, [user.name, day.name], 2))
  {
    ChildLookup(root, [], root, user);
    ChildLookup(root, [user.name], user, day);
    var rel := [user.name] + [day.name];
    assert rel == [user.name, day.name];
    assert AllPlain(rel);
    WalkLinksWork(root, day, rel, 2);
  }

  lemma {:induction false} DateLinksWork(root: Entry, user: Entry, dates: seq<string>)
    requires root.Dir? && WellFormed(root) && user.Dir? && user in root.children
    ensures AllLinksWork(root, DateLines(user, dates))
    decreases |dates|
  {
    if dates != [] {
      DayLinksWork(root, user, dates[0]);
      DateLinksWork(root, user, dates[1..]);
      AllLinksWorkConcat(root, [DateLine(dates[0])], DayLines(user, dates[0]));
      AllLinksWorkConcat(root, [DateLine(dates[0])] + DayLines(user, dates[0]), [Blank]);
      AllLinksWorkConcat(root, [DateLine(dates[0])] + DayLines(user, dates[0]) + [Blank], DateLines(user, dates[1..]));
    }
  }

  lemma {:induction false} UserLinksWork(root: Entry, users: seq<Entry>)
    requires root.Dir? && WellFormed(root)
    requires forall u :: u in users ==> u.Dir? && u in root.children
    ensures AllLinksWork(root, UserLines(users))
    decreases |users|
  {
    if users != [] {
      var u := users[0];
      assert u in users;
      DateLinksWork(root, u, DatesOf(u));
      assert forall v :: v in users[1..] ==> v in users;
      UserLinksWork(root, users[1..]);
      AllLinksWorkConcat(root, [UserLine(u.name)], DateLines(u, DatesOf(u)));
      AllLinksWorkConcat(root, [UserLine(u.name)] + DateLines(u, DatesOf(u)), UserLines(users[1..]));
    }
  }

  /** `/download-file` serves a file found under a path whose last part is `name`. */
  lemma DownloadFound(fs: Entry, base: string, filePath: string, name: string, f: Entry)
    requires Basename(Join(base, filePath)) == name && f.File?
    requires Find(fs, Join(base, filePath)) == Some(f)
    ensures DownloadByPath(fs, base, filePath) == FileBody(MediaTypeFor(name), name, f.data)
  {
  }

  /** `/view-file` shows a file found under a ".json" path whose last part is `name`. */
  lemma ViewFound(fs: Entry, base: string, filePath: string, name: string, f: Entry)
    requires Basename(filePath) == name && EndsWith(filePath, ".json") && f.File?
    requires Find(fs, Join(base, filePath)) == Some(f)
    ensures ViewFile(fs, base, filePath) == JsonPage(name, f.data)
  {
  }

  /** A path of plain parts below the data directory `base`, joined to `base`, reaches what the parts reach from there. */
  lemma LinkTarget(fs: Entry, base: string, root: Entry, parts: seq<string>, name: string)
    requires Find(fs, base) == Some(root) && root.Dir? && parts != [] && AllPlain(parts) && parts[|parts| - 1] == name
    ensures Lookup(fs, Resolve(base) + parts) == Lookup(root, parts)
    ensures Find(fs, Join(base, Slashed(parts))) == Lookup(root, parts)
    ensures Basename(Join(base, Slashed(parts))) == name && Basename(Slashed(parts)) == name
    ensures EndsWith(Slashed(parts), name)
  {
    FindExists(fs, base);
    LookupConcat(fs, Resolve(base), parts);
    FindBelow(fs, base, root, parts);
    BasenameOfSlashed(base, parts);
  }

  /** The download link of a working file line, relative to the data directory `base`. */
  lemma DownloadLinkServes(fs: Entry, base: string, root: Entry, l: Line)
    requires Find(fs, base) == Some(root) && root.Dir? && l.FileLine? && LinkWorks(root, l)
    ensures Lookup(fs, Resolve(base) + l.parts) == Lookup(root, l.parts)
    ensures DownloadByPath(fs, base, Slashed(l.parts)) == FileBody(MediaTypeFor(l.name), l.name, Lookup(root, l.parts).value.data)
  {
    LinkTarget(fs, base, root, l.parts, l.name);
    DownloadFound(fs, base, Slashed(l.parts), l.name, Lookup(root, l.parts).value);
  }

  /** The view link of a working JSON file line. */
  lemma ViewLinkShows(fs: Entry, base: string, root: Entry, l: Line)
    requires Find(fs, base) == Some(root) && root.Dir? && l.FileLine? && LinkWorks(root, l)
    requires l.link == JsonViewAndDownload
    ensures ViewFile(fs, base, Slashed(l.parts)) == JsonPage(l.name, Lookup(root, l.parts).value.data)
  {
    LinkTarget(fs, base, root, l.parts, l.name);
    EndsWithTransitive(Slashed(l.parts), l.name, ".json");
    ViewFound(fs, base, Slashed(l.parts), l.name, Lookup(root, l.parts).value);
  }

  /** On a well-formed store every line of the page works from the data directory. */
  lemma PageLinksWork(fs: Entry, base: string)
    requires WellFormed(fs) && StatusPage(fs, base).Listing?
    ensures Find(fs, base).Some? && Find(fs, base).value.Dir?
    ensures AllLinksWork(Find(fs, base).value, StatusPage(fs, base).lines)
  {
    var root := Find(fs, base).value;
    FindExists(fs, base);
    LookupWellFormed(fs, Resolve(base));
    UserLinksWork(root, SortByName(DirsOf(root.children)));
  }

  /**
   * On a store whose directories have distinct, plain names, every file
   * line's download link serves that very file with the media type of its
   * name, which is the kind of link the page shows, and the view link of a
   * JSON file shows that file's page.
   */
  lemma StatusLinksWork(fs: Entry, base: string, k: nat)
    requires WellFormed(fs) && StatusPage(fs, base).Listing?
    requires k < |StatusPage(fs, base).lines| && StatusPage(fs, base).lines[k].FileLine?
    ensures var l := StatusPage(fs, base).lines[k];
      var target := Lookup(fs, Resolve(base) + l.parts);
      && target.Some? && target.value.File? && target.value.name == l.name
      && DownloadByPath(fs, base, Slashed(l.parts)) == FileBody(MediaTypeFor(l.name), l.name, target.value.data)
      && (l.link == AudioDownload <==> MediaTypeFor(l.name) == AudioWav)
      && (l.link == JsonViewAndDownload <==> MediaTypeFor(l.name) == ApplicationJson)
      && (l.link == JsonViewAndDownload ==> ViewFile(fs, base, Slashed(l.parts)) == JsonPage(l.name, target.value.data))
  {
    PageLinksWork(fs, base);
    FindExists(fs, base);
    var root := Find(fs, base).value;
    var l := StatusPage(fs, base).lines[k];
    assert LinkWorks(root, l);
    DownloadLinkServes(fs, base, root, l);
    if l.link == JsonViewAndDownload {
      ViewLinkShows(fs, base, root, l);
    }
  }

  /**
   * A line of the walk of a directory at `rel`, indented by `lvl`: a folder
   * or file line indented at least that far, a file line one level deeper
   * for each directory between it and that directory.
   */
  predicate Placed(l: Line, rel: seq<string>, lvl: nat) {
    && (l.DirLine? || l.FileLine?)
    && l.level >= lvl
    && (l.FileLine? ==> |l.parts| == |rel| + 1 + (l.level - lvl))
  }

  predicate AllPlaced(lines: seq<Line>, rel: seq<string>, lvl: nat) {
    forall k :: 0 <= k < |lines| ==> Placed(lines[k], rel, lvl)
  }

  /** No file line of `lines` sits at level `lvl`. */
  predicate NoFileAt(lines: seq<Line>, lvl: nat) {
    forall k :: 0 <= k < |lines| ==> lines[k].FileLine? ==> lines[k].level > lvl
  }

  lemma PlacedConcat(a: seq<Line>, b: seq<Line>, rel: seq<string>, lvl: nat)
    requires AllPlaced(a, rel, lvl) && AllPlaced(b, rel, lvl)
    ensures AllPlaced(a + b, rel, lvl)
  {
    forall k | 0 <= k < |a + b| ensures Placed((a + b)[k], rel, lvl) {
      if k >= |a| {
        assert (a + b)[k] == b[k - |a|];
      } else {
        assert (a + b)[k] == a[k];
      }
    }
  }

  lemma NoFileAtConcat(a: seq<Line>, b: seq<Line>, lvl: nat)
    requires NoFileAt(a, lvl) && NoFileAt(b, lvl)
    ensures NoFileAt(a + b, lvl)
  {
    forall k | 0 <= k < |a + b| ensures (a + b)[k].FileLine? ==> (a + b)[k].level > lvl {
      if k >= |a| {
        assert (a + b)[k] == b[k - |a|];
      } else {
        assert (a + b)[k] == a[k];
      }
    }
  }

  /** A walk one level deeper, below the child `name`, is placed for the parent too, with no file at the parent's level. */
  lemma PlacedDeeper(lines: seq<Line>, rel: seq<string>, name: string, lvl: nat)
    requires AllPlaced(lines, rel + [name], lvl + 1)
    ensures AllPlaced(lines, rel, lvl) && NoFileAt(lines, lvl)
  {
    assert |rel + [name]| == |rel| + 1;
    forall k | 0 <= k < |lines| ensures Placed(lines[k], rel, lvl) {
      assert Placed(lines[k], rel + [name], lvl + 1);
    }
    forall k | 0 <= k < |lines| ensures lines[k].FileLine? ==> lines[k].level > lvl {
      assert Placed(lines[k], rel + [name], lvl + 1);
    }
  }

  lemma {:induction false} FileLinesAt(files: seq<Entry>, rel: seq<string>, lvl: nat)
    ensures |FileLines(files, rel, lvl)| == |files|
    ensures forall k :: 0 <= k < |files| ==>
      FileLines(files, rel, lvl)[k] == FileLine(lvl, files[k].name, rel + [files[k].name], LinkFor(files[k].name))
    decreases |files|
  {
    if files != [] {
      FileLinesAt(files[1..], rel, lvl);
    }
  }

  lemma FileLinesPlaced(files: seq<Entry>, rel: seq<string>, lvl: nat)
    ensures AllPlaced(FileLines(files, rel, lvl), rel, lvl)
  {
    FileLinesAt(files, rel, lvl);
  }

  /** Every line of a walk is a folder or file line, placed as deep as it lies. */
  lemma {:induction false} WalkPlaced(dir: Entry, rel: seq<string>, lvl: nat)
    requires dir.Dir?
    ensures AllPlaced(WalkLines(dir, rel, lvl), rel, lvl)
    decreases dir, 1
  {
    var ds := SortByName(DirsOf(dir.children));
    var files := SortByName(FilesOf(dir.children));
    SubdirPlaced(dir, ds, rel, lvl);
    FileLinesPlaced(files, rel, lvl);
    PlacedConcat(SubdirLines(dir, ds, rel, lvl), FileLines(files, rel, lvl), rel, lvl);
  }

  /** The sub-directory part of a walk holds no file line at the walk's own level. */
  lemma {:induction false} SubdirPlaced(parent: Entry, ds: seq<Entry>, rel: seq<string>, lvl: nat)
    requires parent.Dir? && forall d :: d in ds ==> d.Dir? && d in parent.children
    ensures AllPlaced(SubdirLines(parent, ds, rel, lvl), rel, lvl)
    ensures NoFileAt(SubdirLines(parent, ds, rel, lvl), lvl)
    decreases parent, 0, |ds|
  {
    if ds != [] {
      var d := ds[0];
      assert d in ds;
      var h, w := [DirLine(lvl, d.name)], WalkLines(d, rel + [d.name], lvl + 1);
      WalkPlaced(d, rel + [d.name], lvl + 1);
      PlacedDeeper(w, rel, d.name, lvl);
      assert forall e :: e in ds[1..] ==> e in ds;
      SubdirPlaced(parent, ds[1..], rel, lvl);
      var t := SubdirLines(parent, ds[1..], rel, lvl);
      assert AllPlaced(h, rel, lvl) && NoFileAt(h, lvl);
      PlacedConcat(h, w, rel, lvl);
      PlacedConcat(h + w, t, rel, lvl);
      NoFileAtConcat(h, w, lvl);
      NoFileAtConcat(h + w, t, lvl);
    }
  }

  /** Only file lines at level `lvl`, in ascending name order. */
  predicate OwnFilesAscending(lines: seq<Line>, lvl: nat) {
    && (forall k :: 0 <= k < |lines| ==> lines[k].FileLine? && lines[k].level == lvl)
    && (forall k1, k2 :: 0 <= k1 < k2 < |lines| ==> LessEq(lines[k1].name, lines[k2].name))
  }

  lemma FileLinesOwnAscending(files: seq<Entry>, rel: seq<string>, lvl: nat)
    requires NamesAscending(files)
    ensures OwnFilesAscending(FileLines(files, rel, lvl), lvl)
  {
    FileLinesAt(files, rel, lvl);
  }

  /** Lines with no file at `lvl`, then own files in order: after an own file line only own files follow, in order. */
  lemma FilesAfter(a: seq<Line>, b: seq<Line>, lvl: nat, i: nat, j: nat)
    requires NoFileAt(a, lvl) && OwnFilesAscending(b, lvl)
    requires i < j < |a + b| && (a + b)[i].FileLine? && (a + b)[i].level == lvl
    ensures (a + b)[j].FileLine? && (a + b)[j].level == lvl && LessEq((a + b)[i].name, (a + b)[j].name)
  {
    assert i >= |a|;
    assert (a + b)[i] == b[i - |a|] && (a + b)[j] == b[j - |a|];
  }

  /**
   * In the walk of a directory, once its first own file line appears,
   * only its own file lines follow, in ascending name order: sub-directories
   * (with their contents) come first, files after them.
   */
  lemma DirsBeforeFiles(dir: Entry, rel: seq<string>, lvl: nat, i: nat, j: nat)
    requires dir.Dir?
    requires i < j < |WalkLines(dir, rel, lvl)|
    requires WalkLines(dir, rel, lvl)[i].FileLine? && WalkLines(dir, rel, lvl)[i].level == lvl
    ensures WalkLines(dir, rel, lvl)[j].FileLine? && WalkLines(dir, rel, lvl)[j].level == lvl
    ensures LessEq(WalkLines(dir, rel, lvl)[i].name, WalkLines(dir, rel, lvl)[j].name)
  {
    var ds := SortByName(DirsOf(dir.children));
    var files := SortByName(FilesOf(dir.children));
    SubdirPlaced(dir, ds, rel, lvl);
    SortByNameAscending(FilesOf(dir.children));
    FileLinesOwnAscending(files, rel, lvl);
    FilesAfter(SubdirLines(dir, ds, rel, lvl), FileLines(files, rel, lvl), lvl, i, j);
  }

  lemma DayPlaced(user: Entry, date: string)
    requires user.Dir?
    ensures var d := DayLines(user, date);
      forall k :: 0 <= k < |d| ==> d[k].FileLine? ==> d[k].level + 1 == |d[k].parts|
  {
    match FindChild(user.children, date)
    case None =>
    case Some(day) =>
      if day.Dir? {
        WalkPlaced(day, [user.name, date], 2);
        assert DayLines(user, date) == WalkLines(day, [user.name, date], 2);
        assert |[user.name, date]| == 2;
      }
  }

  predicate FileLineDepths(lines: seq<Line>) {
    forall k :: 0 <= k < |lines| ==> lines[k].FileLine? ==> lines[k].level + 1 == |lines[k].parts|
  }

  lemma FileLineDepthsConcat(a: seq<Line>, b: seq<Line>)
    requires FileLineDepths(a) && FileLineDepths(b)
    ensures FileLineDepths(a + b)
  {
    forall k | 0 <= k < |a + b| ensures (a + b)[k].FileLine? ==> (a + b)[k].level + 1 == |(a + b)[k].parts| {
      if k >= |a| {
        assert (a + b)[k] == b[k - |a|];
      }
    }
  }

  lemma {:induction false} DatePlaced(user: Entry, dates: seq<string>)
    requires user.Dir?
    ensures FileLineDepths(DateLines(user, dates))
    decreases |dates|
  {
    if dates != [] {
      DayPlaced(user, dates[0]);
      DatePlaced(user, dates[1..]);
      FileLineDepthsConcat([DateLine(dates[0])], DayLines(user, dates[0]));
      FileLineDepthsConcat([DateLine(dates[0])] + DayLines(user, dates[0]), [Blank]);
      FileLineDepthsConcat([DateLine(dates[0])] + DayLines(user, dates[0]) + [Blank], DateLines(user, dates[1..]));
    }
  }

  lemma {:induction false} UserPlaced(users: seq<Entry>)
    requires forall u :: u in users ==> u.Dir?
    ensures FileLineDepths(UserLines(users))
    decreases |users|
  {
    if users != [] {
      assert users[0] in users;
      DatePlaced(users[0], DatesOf(users[0]));
      assert forall v :: v in users[1..] ==> v in users;
      UserPlaced(users[1..]);
      FileLineDepthsConcat([UserLine(users[0].name)], DateLines(users[0], DatesOf(users[0])));
      FileLineDepthsConcat([UserLine(users[0].name)] + DateLines(users[0], DatesOf(users[0])), UserLines(users[1..]));
    }
  }

  /**
   * On the page, a file is indented once for each directory between the
   * data directory and it, counting the user's and the day's own level.
   */
  lemma PageIndentation(fs: Entry, base: string)
    requires StatusPage(fs, base).Listing?
    ensures FileLineDepths(StatusPage(fs, base).lines)
  {
    UserPlaced(SortByName(DirsOf(Find(fs, base).value.children)));
  }

  /** Every user directory below the data directory gets its line. */
  lemma UserListed(fs: Entry, base: string, user: Entry)
    requires Find(fs, base).Some? && Find(fs, base).value.Dir?
    requires user.Dir? && user in Find(fs, base).value.children
    ensures StatusPage(fs, base).Listing? && UserLine(user.name) in StatusPage(fs, base).lines
  {
    var users := SortByName(DirsOf(Find(fs, base).value.children));
    var i :| 0 <= i < |users| && users[i] == user;
    UserLineFound(users, i);
  }

  lemma {:induction false} UserLineFound(users: seq<Entry>, i: nat)
    requires (forall u :: u in users ==> u.Dir?) && i < |users|
    ensures UserLine(users[i].name) in UserLines(users)
    decreases |users|
  {
    var head := [UserLine(users[0].name)] + DateLines(users[0], DatesOf(users[0]));
    assert forall u :: u in users[1..] ==> u in users;
    assert UserLines(users) == head + UserLines(users[1..]);
    if i == 0 {
      assert head[0] == UserLine(users[0].name);
    } else {
      UserLineFound(users[1..], i - 1);
      assert users[1..][i - 1] == users[i];
    }
  }

  // ---------------------------------------------------------------
  // Folder order, and every entry listed
  // ---------------------------------------------------------------

  /** The names of the folder lines at level `lvl`, in page order. */
  function DirNamesAt(lines: seq<Line>, lvl: nat): seq<string>
    decreases |lines|
  {
    if lines == [] then [] else DirNameOf(lines[0], lvl) + DirNamesAt(lines[1..], lvl)
  }

  function DirNameOf(l: Line, lvl: nat): seq<string> {
    if l.DirLine? && l.level == lvl then [l.name] else []
  }

  lemma {:induction false} DirNamesAtConcat(a: seq<Line>, b: seq<Line>, lvl: nat)
    ensures DirNamesAt(a + b, lvl) == DirNamesAt(a, lvl) + DirNamesAt(b, lvl)
    decreases |a|
  {
    if a == [] {
      assert a + b == b;
    } else {
      assert (a + b)[0] == a[0] && (a + b)[1..] == a[1..] + b;
      DirNamesAtConcat(a[1..], b, lvl);
    }
  }

  /** Lines placed below level `lvl` hold no folder line at `lvl`. */
  lemma {:induction false} DirNamesAtDeeper(lines: seq<Line>, rel: seq<string>, lvl: nat)
    requires AllPlaced(lines, rel, lvl + 1)
    ensures DirNamesAt(lines, lvl) == []
    decreases |lines|
  {
    if lines != [] {
      assert Placed(lines[0], rel, lvl + 1);
      forall k | 0 <= k < |lines| - 1 ensures Placed(lines[1..][k], rel, lvl + 1) {
        assert lines[1..][k] == lines[k + 1];
      }
      DirNamesAtDeeper(lines[1..], rel, lvl);
    }
  }

  lemma {:induction false} FileLinesNoDirs(files: seq<Entry>, rel: seq<string>, lvl: nat)
    ensures DirNamesAt(FileLines(files, rel, lvl), lvl) == []
    decreases |files|
  {
    if files != [] {
      FileLinesNoDirs(files[1..], rel, lvl);
    }
  }

  /** A walk one level deeper writes no folder line at `lvl`. */
  lemma WalkNoDirNames(d: Entry, rel: seq<string>, lvl: nat)
    requires d.Dir?
    ensures DirNamesAt(WalkLines(d, rel, lvl + 1), lvl) == []
  {
    WalkPlaced(d, rel, lvl + 1);
    DirNamesAtDeeper(WalkLines(d, rel, lvl + 1), rel, lvl);
  }

  lemma DirNamesAtThree(n: string, w: seq<Line>, t: seq<Line>, lvl: nat)
    requires DirNamesAt(w, lvl) == []
    ensures DirNamesAt([DirLine(lvl, n)] + w + t, lvl) == [n] + DirNamesAt(t, lvl)
  {
    var h := [DirLine(lvl, n)];
    DirNamesAtConcat(h, w, lvl);
    DirNamesAtConcat(h + w, t, lvl);
    assert DirNamesAt(h, lvl) == [n] by {
      assert h[1..] == [];
    }
  }

  /** The first loop writes, at its own level, one folder line per sub-directory, in the order given. */
  lemma {:induction false} SubdirDirNames(parent: Entry, ds: seq<Entry>, rel: seq<string>, lvl: nat)
    requires parent.Dir? && forall d :: d in ds ==> d.Dir? && d in parent.children
    ensures DirNamesAt(SubdirLines(parent, ds, rel, lvl), lvl) == Names(ds)
    decreases |ds|
  {
    if ds != [] {
      var d := ds[0];
      assert d in ds;
      WalkNoDirNames(d, rel + [d.name], lvl);
      assert forall e :: e in ds[1..] ==> e in ds;
      SubdirDirNames(parent, ds[1..], rel, lvl);
      DirNamesAtThree(d.name, WalkLines(d, rel + [d.name], lvl + 1), SubdirLines(parent, ds[1..], rel, lvl), lvl);
      assert Names(ds) == [d.name] + Names(ds[1..]);
    }
  }

  /** A name is among the sorted sub-directories exactly when some sub-directory has it. */
  lemma SortedDirNames(cs: seq<Entry>, n: string)
    ensures n in Names(SortByName(DirsOf(cs))) <==> exists d :: d in cs && d.Dir? && d.name == n
  {
    var ds := SortByName(DirsOf(cs));
    if n in Names(ds) {
      var i :| 0 <= i < |ds| && Names(ds)[i] == n;
      assert ds[i] in ds;
    }
    if exists d :: d in cs && d.Dir? && d.name == n {
      var d :| d in cs && d.Dir? && d.name == n;
      assert d in ds;
      var i :| 0 <= i < |ds| && ds[i] == d;
      assert Names(ds)[i] == n;
    }
  }

  /**
   * The folder lines a walk writes at its own level name the directory's
   * sub-directories: each of them, nothing else, one line apiece, in
   * ascending name order.
   */
  lemma WalkFolders(dir: Entry, rel: seq<string>, lvl: nat)
    requires dir.Dir?
    ensures var names := DirNamesAt(WalkLines(dir, rel, lvl), lvl);
      && |names| == |DirsOf(dir.children)|
      && (forall i, j :: 0 <= i < j < |names| ==> LessEq(names[i], names[j]))
      && (forall n :: n in names <==> exists d :: d in dir.children && d.Dir? && d.name == n)
  {
    var ds := SortByName(DirsOf(dir.children));
    var files := SortByName(FilesOf(dir.children));
    SubdirDirNames(dir, ds, rel, lvl);
    FileLinesNoDirs(files, rel, lvl);
    DirNamesAtConcat(SubdirLines(dir, ds, rel, lvl), FileLines(files, rel, lvl), lvl);
    var names := DirNamesAt(WalkLines(dir, rel, lvl), lvl);
    assert names == Names(ds);
    assert |multiset(ds)| == |multiset(DirsOf(dir.children))|;
    SortByNameAscending(DirsOf(dir.children));
    forall n ensures n in names <==> exists d :: d in dir.children && d.Dir? && d.name == n {
      SortedDirNames(dir.children, n);
    }
  }

  lemma {:induction false} FileLineFound(files: seq<Entry>, rel: seq<string>, lvl: nat, f: Entry)
    requires f in files
    ensures FileLine(lvl, f.name, rel + [f.name], LinkFor(f.name)) in FileLines(files, rel, lvl)
    decreases |files|
  {
    if files[0] != f {
      FileLineFound(files[1..], rel, lvl, f);
    }
  }

  /** The first loop writes the folder line and the whole walk of each sub-directory it is given. */
  lemma {:induction false} SubdirFound(parent: Entry, ds: seq<Entry>, rel: seq<string>, lvl: nat, d: Entry)
    requires parent.Dir? && (forall e :: e in ds ==> e.Dir? && e in parent.children) && d in ds
    ensures DirLine(lvl, d.name) in SubdirLines(parent, ds, rel, lvl)
    ensures forall l :: l in WalkLines(d, rel + [d.name], lvl + 1) ==> l in SubdirLines(parent, ds, rel, lvl)
    decreases |ds|
  {
    if ds[0] != d {
      assert forall e :: e in ds[1..] ==> e in ds;
      SubdirFound(parent, ds[1..], rel, lvl, d);
    }
  }

  /** A walk holds the folder line of each sub-directory and the line of each file. */
  lemma WalkHoldsChild(dir: Entry, rel: seq<string>, lvl: nat, c: Entry)
    requires dir.Dir? && c in dir.children
    ensures EntryLine(c, lvl, rel + [c.name]) in WalkLines(dir, rel, lvl)
  {
    var ds := SortByName(DirsOf(dir.children));
    var files := SortByName(FilesOf(dir.children));
    if c.Dir? {
      assert c in ds;
      SubdirFound(dir, ds, rel, lvl, c);
    } else {
      assert c in files;
      FileLineFound(files, rel, lvl, c);
    }
  }

  /** A walk holds the whole walk of each sub-directory. */
  lemma WalkHoldsSubwalk(dir: Entry, rel: seq<string>, lvl: nat, c: Entry, l: Line)
    requires dir.Dir? && c in dir.children && c.Dir? && l in WalkLines(c, rel + [c.name], lvl + 1)
    ensures l in WalkLines(dir, rel, lvl)
  {
    var ds := SortByName(DirsOf(dir.children));
    assert c in ds;
    SubdirFound(dir, ds, rel, lvl, c);
  }

  /** The line the walk gives the entry `e` at `level`, whose path from the data directory is `parts`. */
  function EntryLine(e: Entry, level: nat, parts: seq<string>): Line {
    if e.Dir? then DirLine(level, e.name) else FileLine(level, e.name, parts, LinkFor(e.name))
  }

  /** One step of `Lookup` below a directory. */
  lemma LookupStep(dir: Entry, parts: seq<string>)
    requires dir.Dir? && parts != [] && Lookup(dir, parts).Some?
    ensures FindChild(dir.children, parts[0]).Some?
    ensures FindChild(dir.children, parts[0]).value in dir.children
    ensures Lookup(dir, parts) == Lookup(FindChild(dir.children, parts[0]).value, parts[1..])
    ensures |parts| > 1 ==> FindChild(dir.children, parts[0]).value.Dir?
  {
  }

  /**
   * Every entry below a walked directory gets its line, indented once more
   * for each directory between: a folder line for a directory, and for a
   * file a line carrying its whole path and the links its name calls for.
   */
  lemma {:induction false} WalkComplete(dir: Entry, rel: seq<string>, lvl: nat, parts: seq<string>, e: Entry,
                                       depth: nat, path: seq<string>)
    requires dir.Dir? && parts != [] && Lookup(dir, parts) == Some(e)
    requires depth == lvl + |parts| - 1 && path == rel + parts
    ensures EntryLine(e, depth, path) in WalkLines(dir, rel, lvl)
    decreases |parts|, 1
  {
    LookupStep(dir, parts);
    var c := FindChild(dir.children, parts[0]).value;
    if |parts| == 1 {
      assert parts[1..] == [] && e == c;
      assert parts == [c.name];
      assert depth == lvl && path == rel + [c.name];
      WalkHoldsChild(dir, rel, lvl, c);
      assert EntryLine(e, depth, path) == EntryLine(c, lvl, rel + [c.name]);
    } else {
      assert parts == [c.name] + parts[1..];
      WalkCompleteBelow(dir, rel, lvl, c, parts[1..], e, depth, path);
    }
  }

  /** The step of WalkComplete through the child directory `c`. */
  lemma {:induction false} WalkCompleteBelow(dir: Entry, rel: seq<string>, lvl: nat, c: Entry, parts: seq<string>,
                                            e: Entry, depth: nat, path: seq<string>)
    requires dir.Dir? && c in dir.children && c.Dir? && parts != [] && Lookup(c, parts) == Some(e)
    requires depth == lvl + |parts| && path == rel + [c.name] + parts
    ensures EntryLine(e, depth, path) in WalkLines(dir, rel, lvl)
    decreases |parts| + 1, 0
  {
    WalkComplete(c, rel + [c.name], lvl + 1, parts, e, depth, path);
    WalkHoldsSubwalk(dir, rel, lvl, c, EntryLine(e, depth, path));
  }

  lemma {:induction false} DateBlockFound(user: Entry, dates: seq<string>, k: nat)
    requires user.Dir? && k < |dates|
    ensures DateLine(dates[k]) in DateLines(user, dates)
    ensures forall l :: l in DayLines(user, dates[k]) ==> l in DateLines(user, dates)
    decreases |dates|
  {
    if k > 0 {
      DateBlockFound(user, dates[1..], k - 1);
    }
  }

  lemma {:induction false} UserBlockFound(users: seq<Entry>, i: nat)
    requires (forall u :: u in users ==> u.Dir?) && i < |users|
    ensures UserLine(users[i].name) in UserLines(users)
    ensures forall l :: l in DateLines(users[i], DatesOf(users[i])) ==> l in UserLines(users)
    decreases |users|
  {
    if i > 0 {
      assert forall u :: u in users[1..] ==> u in users;
      UserBlockFound(users[1..], i - 1);
    }
  }

  /** Every day directory of a user gets its line, followed by its walk. */
  lemma DayListed(user: Entry, day: Entry)
    requires user.Dir? && day in user.children && day.Dir?
    ensures DateLine(day.name) in DateLines(user, DatesOf(user))
    ensures forall l :: l in DayLines(user, day.name) ==> l in DateLines(user, DatesOf(user))
  {
    var dirs := DirsOf(user.children);
    assert day in dirs;
    var i :| 0 <= i < |dirs| && dirs[i] == day;
    assert Names(dirs)[i] == day.name;
    SortDatesPermutation(Names(dirs));
    assert day.name in multiset(DatesOf(user));
    var k :| 0 <= k < |DatesOf(user)| && DatesOf(user)[k] == day.name;
    DateBlockFound(user, DatesOf(user), k);
  }

  /** Each user directory gets its line on the page, followed by all its days. */
  lemma UserOnPage(fs: Entry, base: string, u: Entry)
    requires Find(fs, base).Some? && Find(fs, base).value.Dir?
    requires u in Find(fs, base).value.children && u.Dir?
    ensures StatusPage(fs, base).Listing?
    ensures UserLine(u.name) in StatusPage(fs, base).lines
    ensures forall l :: l in DateLines(u, DatesOf(u)) ==> l in StatusPage(fs, base).lines
  {
    var users := SortByName(DirsOf(Find(fs, base).value.children));
    assert u in users;
    var i :| 0 <= i < |users| && users[i] == u;
    UserBlockFound(users, i);
  }

  /**
   * The page lists everything below the data directory: a user directory
   * gets its user line, a day directory its date line, and every folder and
   * file at least three levels down the line the walk of its day gives it,
   * indented once per level below the data directory after the first.
   */
  lemma PageComplete(fs: Entry, base: string, parts: seq<string>)
    requires Find(fs, base).Some? && Find(fs, base).value.Dir?
    requires parts != [] && Lookup(Find(fs, base).value, parts).Some?
    ensures StatusPage(fs, base).Listing?
    ensures var lines := StatusPage(fs, base).lines;
      var e := Lookup(Find(fs, base).value, parts).value;
      && (|parts| == 1 && e.Dir? ==> UserLine(e.name) in lines)
      && (|parts| == 2 && e.Dir? ==> DateLine(e.name) in lines)
      && (|parts| >= 3 ==> EntryLine(e, |parts| - 1, parts) in lines)
  {
    var root := Find(fs, base).value;
    LookupStep(root, parts);
    var u := FindChild(root.children, parts[0]).value;
    if |parts| == 1 {
      assert parts[1..] == [];
      if u.Dir? {
        UserOnPage(fs, base, u);
      }
    } else {
      assert u.Dir?;
      UserOnPage(fs, base, u);
      LookupStep(u, parts[1..]);
      var day := FindChild(u.children, parts[1]).value;
      assert parts[1..][1..] == parts[2..];
      if |parts| == 2 {
        assert parts[2..] == [];
        if day.Dir? {
          DayListed(u, day);
        }
      } else {
        assert day.Dir?;
        DayListed(u, day);
        DayWalkHolds(u, day, parts);
      }
    }
  }

  /** A path of at least two pieces is its first two pieces followed by the rest. */
  lemma FirstTwo(parts: seq<string>, a: string, b: string)
    requires |parts| >= 2 && parts[0] == a && parts[1] == b
    ensures [a, b] + parts[2..] == parts
  {
    assert parts == parts[..2] + parts[2..] && parts[..2] == [a, b];
  }

  /** The walk of a day holds the line of every entry below that day. */
  lemma DayWalkHolds(u: Entry, day: Entry, parts: seq<string>)
    requires u.Dir? && day.Dir? && |parts| >= 3 && u.name == parts[0] && day.name == parts[1]
    requires FindChild(u.children, parts[1]) == Some(day) && Lookup(day, parts[2..]).Some?
    ensures EntryLine(Lookup(day, parts[2..]).value, |parts| - 1, parts) in DayLines(u, day.name)
  {
    FirstTwo(parts, u.name, day.name);
    WalkComplete(day, [u.name, day.name], 2, parts[2..], Lookup(day, parts[2..]).value, |parts| - 1, parts);
  }
}
