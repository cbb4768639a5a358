/**
 * The OpenSMILE slot listing (`/api/users/{user_id}/logs/{date}/opensmile`,
 * app.py:599-629): the ".json" files of a day's `opensmile` folder, the
 * merged `vault_features_timeline.json` aside, named without ".json" and
 * sorted with `list.sort()`.
 */
module Listing {
  import opened Wrappers
  import opened Strings
  import opened Paths
  import opened Store
  import opened Vault

  /** In Python's string order, smallest first. */
  predicate Ascending(s: seq<string>) {
    forall i, j :: 0 <= i < j < |s| ==> LessEq(s[i], s[j])
  }

  predicate AdjacentAscending(s: seq<string>) {
    forall k :: 0 < k < |s| ==> LessEq(s[k - 1], s[k])
  }

  lemma {:induction false} AdjacentIsAscending(s: seq<string>)
    requires AdjacentAscending(s)
    ensures Ascending(s)
    decreases |s|
  {
    if |s| > 1 {
      var t := s[..|s| - 1];
      assert AdjacentAscending(t) by {
        forall k | 0 < k < |t| ensures LessEq(t[k - 1], t[k]) {
          assert t[k - 1] == s[k - 1] && t[k] == s[k];
        }
      }
      AdjacentIsAscending(t);
      forall i, j | 0 <= i < j < |s| ensures LessEq(s[i], s[j]) {
        if j == |s| - 1 && i < j - 1 {
          assert LessEq(t[i], t[j - 1]);
          LessEqTransitive(s[i], s[j - 1], s[j]);
        } else if j < |s| - 1 {
          assert LessEq(t[i], t[j]);
        }
      }
    }
  }

  lemma LessEqAntisymmetric(a: string, b: string)
    requires LessEq(a, b) && LessEq(b, a)
    ensures a == b
  {
    if a != b {
      LessAsymmetric(a, b);
    }
  }

  /** The first name of an ascending list is at most every name in it. */
  lemma AscendingFirstIsLeast(a: seq<string>, x: string)
    requires Ascending(a) && x in multiset(a)
    ensures LessEq(a[0], x)
  {
    var j :| 0 <= j < |a| && a[j] == x;
    if j > 0 {
      assert LessEq(a[0], a[j]);
    }
  }

  lemma MultisetTail(a: seq<string>, b: seq<string>)
    requires a != [] && b != [] && a[0] == b[0] && multiset(a) == multiset(b)
    ensures multiset(a[1..]) == multiset(b[1..])
  {
    assert a == [a[0]] + a[1..] && b == [b[0]] + b[1..];
    assert multiset(a) == multiset([a[0]]) + multiset(a[1..]);
    assert multiset(b) == multiset([b[0]]) + multiset(b[1..]);
    assert multiset(a[1..]) == multiset(a) - multiset([a[0]]);
    assert multiset(b[1..]) == multiset(b) - multiset([b[0]]);
  }

  lemma AscendingTail(a: seq<string>)
    requires a != [] && Ascending(a)
    ensures Ascending(a[1..])
  {
    forall i, j | 0 <= i < j < |a| - 1 ensures LessEq(a[1..][i], a[1..][j]) {
      assert a[1..][i] == a[i + 1] && a[1..][j] == a[j + 1];
    }
  }

  /** A multiset of names has exactly one ascending arrangement. */
  lemma {:induction false} AscendingUnique(a: seq<string>, b: seq<string>)
    requires Ascending(a) && Ascending(b) && multiset(a) == multiset(b)
    ensures a == b
    decreases |a|
  {
    assert |b| == |a| by { assert |multiset(a)| == |multiset(b)|; }
    if a != [] {
      assert a[0] in multiset(a) && b[0] in multiset(b);
      AscendingFirstIsLeast(a, b[0]);
      AscendingFirstIsLeast(b, a[0]);
      LessEqAntisymmetric(a[0], b[0]);
      MultisetTail(a, b);
      AscendingTail(a);
      AscendingTail(b);
      AscendingUnique(a[1..], b[1..]);
      assert a == [a[0]] + a[1..] && b == [b[0]] + b[1..];
    }
  }

  /** `time_slots.sort()`: an insertion sort in place. */
  method SortSlots(a: array<string>)
    modifies a
    ensures Ascending(a[..])
    ensures multiset(a[..]) == multiset(old(a[..]))
  {
    var i := 0;
    while i < a.Length
      invariant 0 <= i <= a.Length
      invariant OrderedBelow(a[..], i)
      invariant multiset(a[..]) == multiset(old(a[..]))
    {
      InsertInto(a, i);
      i := i + 1;
    }
    assert AdjacentAscending(a[..]) by {
      assert OrderedBelow(a[..], a.Length);
    }
    AdjacentIsAscending(a[..]);
  }

  /** Each of the neighbouring pairs ending before `n` is in order. */
  predicate OrderedBelow(s: seq<string>, n: int)
    requires n <= |s|
  {
    forall k :: 0 < k < n ==> LessEq(s[k - 1], s[k])
  }

  /** Each neighbouring pair up to `n` is in order, except perhaps the pair ending at `j`. */
  predicate OrderedExcept(s: seq<string>, n: int, j: int)
    requires n < |s|
  {
    && (forall k :: 0 < k <= n && k != j ==> LessEq(s[k - 1], s[k]))
    && (0 < j < n ==> LessEq(s[j - 1], s[j + 1]))
  }

  /** Swapping an out-of-order pair moves the exception one place left and keeps the names. */
  lemma SwapStep(s: seq<string>, n: int, j: int)
    requires 0 < j <= n < |s| && OrderedExcept(s, n, j) && Less(s[j], s[j - 1])
    ensures OrderedExcept(s[j := s[j - 1]][j - 1 := s[j]], n, j - 1)
    ensures multiset(s[j := s[j - 1]][j - 1 := s[j]]) == multiset(s)
  {
    var t := s[j := s[j - 1]][j - 1 := s[j]];
    forall k | 0 < k <= n && k != j - 1 ensures LessEq(t[k - 1], t[k]) {
      if k == j {
        assert LessEq(t[j - 1], t[j]);
      } else if k == j + 1 {
        assert t[k - 1] == s[j - 1] && t[k] == s[j + 1];
      } else {
        assert t[k - 1] == s[k - 1] && t[k] == s[k];
      }
    }
    if 1 < j {
      assert LessEq(s[j - 2], s[j - 1]);
    }
  }

  /** Moves `a[i]` left past the larger names before it, so that `a[..i + 1]` is in order. */
  method InsertInto(a: array<string>, i: int)
    requires 0 <= i < a.Length && OrderedBelow(a[..], i)
    modifies a
    ensures OrderedBelow(a[..], i + 1)
    ensures multiset(a[..]) == multiset(old(a[..]))
  {
    var j := i;
    assert OrderedExcept(a[..], i, j);
    while j > 0 && Less(a[j], a[j - 1])
      invariant 0 <= j <= i
      invariant OrderedExcept(a[..], i, j)
      invariant multiset(a[..]) == multiset(old(a[..]))
    {
      ghost var before := a[..];
      SwapStep(before, i, j);
      a[j], a[j - 1] := a[j - 1], a[j];
      assert a[..] == before[j := before[j - 1]][j - 1 := before[j]];
      j := j - 1;
    }
    if j > 0 {
      LessTotal(a[j - 1], a[j]);
    }
    InsertedInOrder(a[..], i, j);
  }

  /** Once the exception at `j` is itself in order, every pair up to `n` is. */
  lemma InsertedInOrder(s: seq<string>, n: int, j: int)
    requires 0 <= j <= n < |s| && OrderedExcept(s, n, j)
    requires j > 0 ==> LessEq(s[j - 1], s[j])
    ensures OrderedBelow(s, n + 1)
  {
  }

  /** The names a listing keeps as time slots: ".json" names other than the merged file. */
  predicate IsSlotFile(name: string) {
    EndsWith(name, ".json") && name != OpensmileSummaryFile
  }

  /** The time slots of a list of names: the slot files, in order, with every ".json" removed. */
  function TimeSlots(names: seq<string>): seq<string>
    decreases |names|
  {
    if names == [] then []
    else if IsSlotFile(names[0]) then [RemoveAll(names[0], ".json")] + TimeSlots(names[1..])
    else TimeSlots(names[1..])
  }

  /**
   * The slot listing. A missing folder gives the empty listing (without
   * `directory`); listing a file raises, which is answered with 500.
   */
  method ListOpensmileFeatures(fs: Entry, base: string, user: string, date: string) returns (r: Response)
    ensures var dir := JoinAll(base, [user, date, "opensmile"]);
      match Lookup(fs, Resolve(dir))
      case None => r == SlotList([], 0, false, None)
      case Some(File(_, _)) => r == Error(500)
      case Some(Dir(_, cs)) =>
        && r.SlotList?
        && Ascending(r.availableSlots)
        && multiset(r.availableSlots) == multiset(TimeSlots(Names(cs)))
        && r.count == |r.availableSlots|
        && (r.hasSummary <==> OpensmileSummaryFile in Names(cs))
        && r.directory == Some(dir)
  {
    var dir := JoinAll(base, [user, date, "opensmile"]);
    var found := Lookup(fs, Resolve(dir));
    if found.None? {
      return SlotList([], 0, false, None);
    }
    if found.value.File? {
      return Error(500);
    }
    var names := Names(found.value.children);
    var slots := TimeSlots(names);
    var a := new string[|slots|](i requires 0 <= i < |slots| => slots[i]);
    assert a[..] == slots;
    SortSlots(a);
    r := SlotList(a[..], a.Length, OpensmileSummaryFile in names, Some(dir));
  }

  // ---------------------------------------------------------------
  // Facts about the listing
  // ---------------------------------------------------------------

  lemma {:induction false} TimeSlotsConcat(x: seq<string>, y: seq<string>)
    ensures TimeSlots(x + y) == TimeSlots(x) + TimeSlots(y)
    decreases |x|
  {
    if x == [] {
      assert x + y == y;
    } else {
      assert (x + y)[0] == x[0] && (x + y)[1..] == x[1..] + y;
      TimeSlotsConcat(x[1..], y);
    }
  }

  /** Taking the first name off one list and a matching name off the other keeps equal multisets. */
  lemma RemoveMatching(n1: seq<string>, n2: seq<string>, k: int)
    requires n1 != [] && multiset(n1) == multiset(n2) && 0 <= k < |n2| && n2[k] == n1[0]
    ensures multiset(n1[1..]) == multiset(n2[..k] + n2[k + 1..])
  {
    var h := n1[0];
    assert n1 == [h] + n1[1..];
    assert n2 == n2[..k] + [h] + n2[k + 1..];
    assert multiset(n1[1..]) == multiset(n1) - multiset([h]);
    assert multiset(n2[..k] + n2[k + 1..]) == multiset(n2[..k]) + multiset(n2[k + 1..]);
  }

  /** The slots of three lists put together. */
  lemma TimeSlotsConcat3(x: seq<string>, m: seq<string>, y: seq<string>)
    ensures TimeSlots(x + m + y) == TimeSlots(x) + TimeSlots(m) + TimeSlots(y)
  {
    TimeSlotsConcat(x + m, y);
    TimeSlotsConcat(x, m);
  }

  /** Reordering the directory's names does not change which time slots there are. */
  lemma {:induction false} TimeSlotsPermutation(n1: seq<string>, n2: seq<string>)
    requires multiset(n1) == multiset(n2)
    ensures multiset(TimeSlots(n1)) == multiset(TimeSlots(n2))
    decreases |n1|
  {
    if n1 == [] {
      assert |n2| == 0 by { assert |multiset(n2)| == 0; }
    } else {
      var h := n1[0];
      assert h in multiset(n2) by { assert h in multiset(n1); }
      var k :| 0 <= k < |n2| && n2[k] == h;
      var pre, post := n2[..k], n2[k + 1..];
      RemoveMatching(n1, n2, k);
      TimeSlotsPermutation(n1[1..], pre + post);
      assert n2 == pre + [h] + post;
      TimeSlotsConcat3(pre, [h], post);
      TimeSlotsConcat(pre, post);
      assert n1 == [h] + n1[1..];
      TimeSlotsConcat([h], n1[1..]);
    }
  }

  /**
   * The listing does not depend on the order `os.listdir` returns: two
   * directories with the same names give the same sorted list of slots.
   */
  lemma ListingIgnoresDirectoryOrder(names1: seq<string>, names2: seq<string>, slots1: seq<string>, slots2: seq<string>)
    requires multiset(names1) == multiset(names2)
    requires Ascending(slots1) && multiset(slots1) == multiset(TimeSlots(names1))
    requires Ascending(slots2) && multiset(slots2) == multiset(TimeSlots(names2))
    ensures slots1 == slots2
  {
    TimeSlotsPermutation(names1, names2);
    AscendingUnique(slots1, slots2);
  }

  /** A slot file named `slot + ".json"` is listed as `slot` when `slot` has no '.'. */
  lemma {:induction false} TimeSlotsContains(names: seq<string>, slot: string)
    requires '.' !in slot && slot + ".json" in names && slot + ".json" != OpensmileSummaryFile
    ensures slot in TimeSlots(names)
    decreases |names|
  {
    if names[0] == slot + ".json" {
      EndsWithConcat(slot, ".json");
      RemoveAllTrailing(slot, ".json");
    } else {
      TimeSlotsContains(names[1..], slot);
    }
  }

  lemma LookupFileParent(e: Entry, dir: Path, name: string)
    requires FileAt(e, dir + [name]).Some?
    ensures Lookup(e, dir).Some? && Lookup(e, dir).value.Dir? && name in Names(Lookup(e, dir).value.children)
  {
    LookupConcat(e, dir, [name]);
    var d := Lookup(e, dir).value;
    var c := FindChild(d.children, name).value;
    var i :| 0 <= i < |d.children| && d.children[i] == c;
    assert Names(d.children)[i] == name;
  }

  /** After a successful upload, the file is one of the names listed in its folder. */
  lemma SavedFileListed(fs: Entry, base: string, user: string, date: string, c: Category, slot: string,
                        upload: Upload)
    requires Plain(FileName(c, slot))
    ensures var o := SaveArtifact(fs, base, user, date, c, slot, upload, "ok");
      var at := Resolve(SaveDir(base, user, date, c));
      o.response.Saved? ==>
        Lookup(o.fs, at).Some? && Lookup(o.fs, at).value.Dir? && FileName(c, slot) in Names(Lookup(o.fs, at).value.children)
  {
    var o := SaveArtifact(fs, base, user, date, c, slot, upload, "ok");
    if o.response.Saved? {
      ResolveChild(SaveDir(base, user, date, c), FileName(c, slot));
      SaveArtifactStores(fs, base, user, date, c, slot, upload, "ok", []);
      LookupFileParent(o.fs, Resolve(SaveDir(base, user, date, c)), FileName(c, slot));
    }
  }

  /** The stored name of a features upload is the merged file's exactly for the slot "vault_features_timeline". */
  lemma FeaturesFileName(timeSlot: string)
    ensures FileName(Opensmile, timeSlot) == timeSlot + ".json"
    ensures timeSlot + ".json" == OpensmileSummaryFile <==> timeSlot == "vault_features_timeline"
  {
    var name := timeSlot + ".json";
    if name == OpensmileSummaryFile {
      assert timeSlot == name[..|name| - 5];
    }
  }

  /** The stored name of a features upload for a slot without '/' is a plain name. */
  lemma PlainFeaturesFile(timeSlot: string)
    requires '/' !in timeSlot
    ensures Plain(FileName(Opensmile, timeSlot))
  {
    FeaturesFileName(timeSlot);
    var name := timeSlot + ".json";
    assert '/' !in ".json";
    assert |name| == |timeSlot| + 5;
  }

  /** A directory holding the features file of a slot without '.' lists that slot, or has the merged file. */
  lemma SlotFileListed(names: seq<string>, timeSlot: string)
    requires '.' !in timeSlot && FileName(Opensmile, timeSlot) in names
    ensures timeSlot != "vault_features_timeline" ==> timeSlot in TimeSlots(names)
    ensures timeSlot == "vault_features_timeline" ==> OpensmileSummaryFile in names
  {
    FeaturesFileName(timeSlot);
    if timeSlot + ".json" != OpensmileSummaryFile {
      TimeSlotsContains(names, timeSlot);
    }
  }

  /**
   * After a successful features upload for a slot without '.' or '/', the
   * listing of that day shows the slot (the merged file, uploaded under the
   * slot "vault_features_timeline", shows as `has_summary` instead).
   */
  lemma UploadThenListed(fs: Entry, base: string, user: string, date: string, timeSlot: string, upload: Upload)
    requires '/' !in timeSlot && '.' !in timeSlot
    ensures var o := UploadOpensmileFeatures(fs, base, user, date, timeSlot, upload);
      var at := Resolve(JoinAll(base, [user, date, "opensmile"]));
      o.response.Saved? ==>
        && Lookup(o.fs, at).Some? && Lookup(o.fs, at).value.Dir?
        && (timeSlot != "vault_features_timeline" ==> timeSlot in TimeSlots(Names(Lookup(o.fs, at).value.children)))
        && (timeSlot == "vault_features_timeline" ==> OpensmileSummaryFile in Names(Lookup(o.fs, at).value.children))
  {
    PlainFeaturesFile(timeSlot);
    SavedFileListed(fs, base, user, date, Opensmile, timeSlot, upload);
    assert SaveDir(base, user, date, Opensmile) == JoinAll(base, [user, date, "opensmile"]);
    var o := SaveArtifact(fs, base, user, date, Opensmile, timeSlot, upload, "ok");
    var at := Resolve(SaveDir(base, user, date, Opensmile));
    if o.response.Saved? {
      SlotFileListed(Names(Lookup(o.fs, at).value.children), timeSlot);
    }
  }
}
