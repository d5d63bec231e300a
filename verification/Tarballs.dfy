/**
 Environment tarballs in a shared directory, in both implementations: the functions of
 `docker/utils.py` and the mixin of `docker/sync_manager.py`. A directory is its list of file
 names in the order a directory read yields. Lower-casing is ASCII's.
 */
module Tarballs {
  import opened Wrappers
  import opened Text

  type Listing = seq<(nat, string)>

  function LowerChar(c: char): char {
    if 'A' <= c <= 'Z' then (c as int + 32) as char else c
  }

  function Lower(s: string): (r: string)
    ensures |r| == |s|
    ensures forall i :: 0 <= i < |s| ==> r[i] == LowerChar(s[i])
  {
    if s == [] then [] else [LowerChar(s[0])] + Lower(s[1..])
  }

  /** The pattern `^name-(\d+)\.tar$` on a file name: the number in it. */
  function Match(name: string, file: string): Option<nat> {
    if && |file| > |name| + 5
       && file[..|name|] == name && file[|name|] == '-'
       && file[|file| - 4..] == ".tar"
       && AllDigits(file[|name| + 1..|file| - 4])
    then Some(Value(file[|name| + 1..|file| - 4]))
    else None
  }

  function FileName(name: string, timestamp: nat): string {
    name + "-" + Digits(timestamp) + ".tar"
  }

  ghost predicate NoRepeats(files: seq<string>) {
    forall i, j :: 0 <= i < j < |files| ==> files[i] != files[j]
  }

  // ---------------------------------------------------------------------------
  // Specifications

  function Matches(files: seq<string>, name: string): Listing {
    if files == [] then []
    else
      var before := Matches(files[..|files| - 1], name);
      var file := files[|files| - 1];
      match Match(name, file)
      case Some(t) => before + [(t, file)]
      case None => before
  }

  /** Stable insertion, newest first: goes behind equal timestamps. */
  function Insert(e: (nat, string), s: Listing): Listing {
    if s == [] then [e]
    else if s[|s| - 1].0 >= e.0 then s + [e]
    else Insert(e, s[..|s| - 1]) + [s[|s| - 1]]
  }

  function SortNewestFirst(s: Listing): Listing {
    if s == [] then [] else Insert(s[|s| - 1], SortNewestFirst(s[..|s| - 1]))
  }

  /** What both implementations list for an environment name. */
  function Listed(files: seq<string>, name: string): Listing {
    SortNewestFirst(Matches(files, Lower(name)))
  }

  function Decide(local: Option<int>, listing: Listing): (bool, Option<string>) {
    if listing == [] then (false, None)
    else if local.None? || listing[0].0 > local.value then (true, Some(listing[0].1))
    else (false, None)
  }

  function Without(files: seq<string>, gone: set<string>): seq<string> {
    if files == [] then []
    else if files[0] in gone then Without(files[1..], gone)
    else [files[0]] + Without(files[1..], gone)
  }

  function With(files: seq<string>, file: string): seq<string> {
    if file in files then files else files + [file]
  }

  function Older(files: seq<string>, name: string, timestamp: nat): set<string> {
    set f | f in files && Match(name, f).Some? && Match(name, f).value < timestamp
  }

  /** After writing `file` and removing what is older than `timestamp`, except what resists. */
  function AfterCreate(files: seq<string>, file: string, name: string, timestamp: nat, locked: set<string>): seq<string> {
    Without(With(files, file), Older(With(files, file), Lower(name), timestamp) - locked)
  }

  // ---------------------------------------------------------------------------
  // Facts about the specifications

  lemma {:induction false} MatchesAre(files: seq<string>, name: string)
    ensures forall t, f :: (t, f) in Matches(files, name) <==> f in files && Match(name, f) == Some(t)
  {
    if files != [] {
      MatchesAre(files[..|files| - 1], name);
      assert files == files[..|files| - 1] + [files[|files| - 1]];
    }
  }

  lemma {:induction false} InsertMultiset(e: (nat, string), s: Listing)
    ensures multiset(Insert(e, s)) == multiset(s) + multiset{e}
  {
    if s != [] && s[|s| - 1].0 < e.0 {
      InsertMultiset(e, s[..|s| - 1]);
      assert s == s[..|s| - 1] + [s[|s| - 1]];
    }
  }

  ghost predicate AtLeast(s: Listing, t: nat) {
    forall j :: 0 <= j < |s| ==> s[j].0 >= t
  }

  lemma {:induction false} InsertAtLeast(e: (nat, string), s: Listing, t: nat)
    requires AtLeast(s, t) && e.0 >= t
    ensures AtLeast(Insert(e, s), t)
  {
    if s != [] && s[|s| - 1].0 < e.0 {
      InsertAtLeast(e, s[..|s| - 1], t);
    }
  }

  lemma {:induction false} InsertSorted(e: (nat, string), s: Listing)
    requires NewestFirst(s)
    ensures NewestFirst(Insert(e, s))
  {
    if s != [] && s[|s| - 1].0 < e.0 {
      InsertSorted(e, s[..|s| - 1]);
      InsertAtLeast(e, s[..|s| - 1], s[|s| - 1].0);
    }
  }

  ghost predicate NewestFirst(s: Listing) {
    forall i, j :: 0 <= i < j < |s| ==> s[i].0 >= s[j].0
  }

  lemma {:induction false} SortMultiset(s: Listing)
    ensures multiset(SortNewestFirst(s)) == multiset(s)
  {
    if s != [] {
      var front, last := s[..|s| - 1], s[|s| - 1];
      SortMultiset(front);
      InsertMultiset(last, SortNewestFirst(front));
      assert multiset(s) == multiset(front) + multiset{last} by { assert s == front + [last]; }
    }
  }

  /** Sorting orders by timestamp, newest first, and loses or adds nothing. */
  lemma {:induction false} SortKeeps(s: Listing)
    ensures NewestFirst(SortNewestFirst(s))
    ensures multiset(SortNewestFirst(s)) == multiset(s)
  {
    SortMultiset(s);
    if s != [] {
      SortKeeps(s[..|s| - 1]);
      InsertSorted(s[|s| - 1], SortNewestFirst(s[..|s| - 1]));
    }
  }

  /** The listing holds exactly the matching files with their numbers, newest first. */
  lemma ListedAre(files: seq<string>, name: string)
    ensures NewestFirst(Listed(files, name))
    ensures forall t, f :: (t, f) in Listed(files, name) <==> f in files && Match(Lower(name), f) == Some(t)
  {
    var m := Matches(files, Lower(name));
    SortKeeps(m);
    MatchesAre(files, Lower(name));
    forall t, f
      ensures (t, f) in Listed(files, name) <==> (t, f) in m
    {
      assert (t, f) in Listed(files, name) <==> (t, f) in multiset(Listed(files, name));
      assert (t, f) in m <==> (t, f) in multiset(m);
    }
  }

  lemma {:induction false} WithoutAre(files: seq<string>, gone: set<string>)
    ensures forall f :: f in Without(files, gone) <==> f in files && f !in gone
  {
    if files != [] {
      WithoutAre(files[1..], gone);
    }
  }

  lemma {:induction false} WithoutTwice(files: seq<string>, gone: set<string>, more: set<string>)
    ensures Without(Without(files, gone), more) == Without(files, gone + more)
  {
    if files != [] {
      WithoutTwice(files[1..], gone, more);
      if files[0] !in gone {
        var w := [files[0]] + Without(files[1..], gone);
        assert w[1..] == Without(files[1..], gone);
      }
    }
  }

  lemma {:induction false} WithoutNothing(files: seq<string>)
    ensures Without(files, {}) == files
  {
    if files != [] {
      WithoutNothing(files[1..]);
    }
  }

  // ---------------------------------------------------------------------------
  // The directory and the operations

  /**
   How far a creation got; `SaveFailed` may leave the file behind unfinished. After saving, the
   clean-up may find the directory unreadable, and cannot remove the files in `locked`.
   */
  datatype CreateEnv = SourceMissing | CommitFailed | SaveFailed(leftBehind: bool) | Saved(listable: bool, locked: set<string>)

  class TarDirectory {
    var present: bool
    var files: seq<string>

    ghost predicate Valid()
      reads this
    {
      NoRepeats(files) && (!present ==> files == [])
    }

    constructor ()
      ensures Valid() && files == [] && !present
    {
      present := false;
      files := [];
    }

    /** `list_shared_container_tars`: an unreadable directory lists nothing. */
    method ListSharedContainerTars(name: string, readable: bool) returns (tars: Listing)
      requires Valid()
      ensures tars == if readable then Listed(files, name) else []
    {
      tars := [];
      if !present || !readable {
        return;
      }
      tars := Collect(Lower(name));
      tars := SortTars(tars);
    }

    /** `list_shared_tarballs`: the same, but an unreadable directory raises. */
    method ListSharedTarballs(name: string, readable: bool) returns (tars: Option<Listing>)
      requires Valid()
      ensures tars == if readable || !present then Some(Listed(files, name)) else None
    {
      if !present {
        return Some([]);
      }
      if !readable {
        return None;
      }
      var found := Collect(Lower(name));
      found := SortTars(found);
      return Some(found);
    }

    method Collect(lowered: string) returns (tars: Listing)
      ensures tars == Matches(files, lowered)
    {
      tars := [];
      for i := 0 to |files|
        invariant tars == Matches(files[..i], lowered)
      {
        assert files[..i + 1][..i] == files[..i];
        var m := Match(lowered, files[i]);
        if m.Some? {
          tars := tars + [(m.value, files[i])];
        }
      }
      assert files[..|files|] == files;
    }

    /** `needs_sync` of `utils.py`; `local` is the local image's timestamp. */
    method NeedsSync(name: string, local: Option<int>, readable: bool) returns (needed: bool, latest: Option<string>)
      requires Valid()
      ensures (needed, latest) == Decide(local, if readable then Listed(files, name) else [])
    {
      var tars := ListSharedContainerTars(name, readable);
      if tars == [] {
        return false, None;
      }
      if local.None? {
        return true, Some(tars[0].1);
      }
      if tars[0].0 > local.value {
        return true, Some(tars[0].1);
      }
      return false, None;
    }

    /** `SyncManagerMixin.needs_sync`: agrees with the other wherever the directory can be read. */
    method NeedsSyncMixin(name: string, local: Option<int>, readable: bool) returns (r: Option<(bool, Option<string>)>)
      requires Valid()
      ensures r == if readable || !present then Some(Decide(local, Listed(files, name))) else None
    {
      var tars := ListSharedTarballs(name, readable);
      if tars == None {
        return None;
      }
      if tars.value == [] {
        return Some((false, None));
      }
      if local.None? || tars.value[0].0 > local.value {
        return Some((true, Some(tars.value[0].1)));
      }
      return Some((false, None));
    }

    method WriteFile(file: string)
      requires Valid()
      modifies this
      ensures Valid() && present && files == With(old(files), file)
    {
      present := true;
      if file !in files {
        files := files + [file];
      }
    }

    method RemoveFile(file: string)
      requires Valid()
      modifies this`files
      ensures Valid() && files == Without(old(files), {file})
    {
      WithoutKeepsNoRepeats(files, {file});
      files := Without(files, {file});
    }

    /** The removing loop of both implementations; files in `locked` cannot be removed. */
    method RemoveOlder(tars: Listing, timestamp: nat, locked: set<string>)
      requires Valid()
      modifies this`files
      ensures Valid() && files == Without(old(files), RemovedFrom(tars, timestamp) - locked)
    {
      ghost var gone: set<string> := {};
      WithoutNothing(files);
      for i := 0 to |tars|
        invariant Valid()
        invariant files == Without(old(files), gone)
        invariant gone == RemovedFrom(tars[..i], timestamp) - locked
      {
        assert tars[..i + 1] == tars[..i] + [tars[i]];
        if tars[i].0 < timestamp && tars[i].1 !in locked {
          WithoutTwice(old(files), gone, {tars[i].1});
          RemoveFile(tars[i].1);
          gone := gone + {tars[i].1};
        }
      }
      assert tars[..|tars|] == tars;
    }

    /** `_cleanup_old_tarballs`: an unreadable directory is left as it is. */
    method CleanupOldTarballs(name: string, timestamp: nat, listable: bool, locked: set<string>)
      requires Valid() && present
      modifies this`files
      ensures Valid()
      ensures files == if listable then Without(old(files), Older(old(files), Lower(name), timestamp) - locked)
                       else old(files)
    {
      var tars := ListSharedContainerTars(name, listable);
      RemoveOlder(tars, timestamp, locked);
      RemovedIsOlder(old(files), name, timestamp);
      WithoutNothing(old(files));
      assert RemovedFrom([], timestamp) - locked == {};
    }

    /** The steps up to the saved file. */
    method Save(file: string, env: CreateEnv) returns (saved: bool)
      requires Valid()
      modifies this
      ensures Valid() && saved == env.Saved?
      ensures saved ==> present && files == With(old(files), file)
      ensures !saved ==> files in {old(files), With(old(files), file)}
    {
      match env
      case SourceMissing =>
        return false;
      case CommitFailed =>
        return false;
      case SaveFailed(leftBehind) =>
        if leftBehind {
          WriteFile(file);
        }
        return false;
      case Saved(_, _) =>
        WriteFile(file);
        return true;
    }

    /** `create_container_tar`: the file name is lower-cased; a clean-up that cannot list is skipped. */
    method CreateContainerTar(name: string, timestamp: nat, env: CreateEnv) returns (created: Option<string>)
      requires Valid()
      modifies this
      ensures Valid()
      ensures env.Saved? ==>
                var file := FileName(Lower(name), timestamp);
                && created == Some(file) && (NoCapitals(name) ==> file == name + "-" + Digits(timestamp) + ".tar")
                && files == if env.listable then AfterCreate(old(files), file, name, timestamp, env.locked)
                            else With(old(files), file)
      ensures !env.Saved? ==>
                && created == None
                && files in {old(files), With(old(files), FileName(Lower(name), timestamp))}
    {
      LowerLeavesNoCapitals(name);
      var file := FileName(Lower(name), timestamp);
      var saved := Save(file, env);
      if !saved {
        return None;
      }
      CleanupOldTarballs(name, timestamp, env.listable, env.locked);
      return Some(file);
    }

    /**
     `create_container_tarball`: the file name keeps the case of the environment name; a clean-up
     that cannot list makes the creation fail, though the file is there.
     */
    method CreateContainerTarball(name: string, timestamp: nat, env: CreateEnv) returns (created: Option<string>)
      requires Valid()
      modifies this
      ensures Valid()
      ensures env.Saved? && env.listable ==>
                && created == Some(FileName(name, timestamp))
                && files == AfterCreate(old(files), FileName(name, timestamp), name, timestamp, env.locked)
      ensures env.Saved? && !env.listable ==>
                created == None && files == With(old(files), FileName(name, timestamp))
      ensures !env.Saved? ==>
                created == None && files in {old(files), With(old(files), FileName(name, timestamp))}
    {
      var file := FileName(name, timestamp);
      var saved := Save(file, env);
      if !saved {
        return None;
      }
      ghost var found := files;
      var tars := ListSharedTarballs(name, env.listable);
      if tars == None {
        return None;
      }
      RemoveOlder(tars.value, timestamp, env.locked);
      RemovedIsOlder(found, name, timestamp);
      return Some(file);
    }
  }

  /** `tar_files.sort(key=timestamp, reverse=True)`, which keeps the order of equal timestamps. */
  method SortTars(s: Listing) returns (r: Listing)
    ensures r == SortNewestFirst(s)
    ensures NewestFirst(r) && multiset(r) == multiset(s)
  {
    r := [];
    for i := 0 to |s|
      invariant r == SortNewestFirst(s[..i])
    {
      assert s[..i + 1][..i] == s[..i];
      r := Insert(s[i], r);
    }
    assert s[..|s|] == s;
    SortKeeps(s);
  }

  ghost function RemovedFrom(tars: Listing, timestamp: nat): set<string> {
    set e | e in tars && e.0 < timestamp :: e.1
  }

  lemma RemovedIsOlder(files: seq<string>, name: string, timestamp: nat)
    ensures RemovedFrom(Listed(files, name), timestamp) == Older(files, Lower(name), timestamp)
  {
    ListedAre(files, name);
    forall f | f in Older(files, Lower(name), timestamp)
      ensures f in RemovedFrom(Listed(files, name), timestamp)
    {
      assert (Match(Lower(name), f).value, f) in Listed(files, name);
    }
  }

  lemma {:induction false} WithoutKeepsNoRepeats(files: seq<string>, gone: set<string>)
    requires NoRepeats(files)
    ensures NoRepeats(Without(files, gone))
  {
    if files != [] {
      WithoutKeepsNoRepeats(files[1..], gone);
      WithoutAre(files[1..], gone);
      forall j | 0 <= j < |Without(files[1..], gone)|
        ensures Without(files[1..], gone)[j] != files[0]
      {
        assert Without(files[1..], gone)[j] in files[1..];
      }
    }
  }

  // ---------------------------------------------------------------------------
  // Properties

  ghost predicate NoCapitals(s: string) {
    forall c <- s :: !('A' <= c <= 'Z')
  }

  /** The same character, or the same letter in the other case. */
  predicate SameLetter(a: char, b: char) {
    || a == b
    || ('A' <= a <= 'Z' && b as int == a as int + ('a' as int - 'A' as int))
    || ('A' <= b <= 'Z' && a as int == b as int + ('a' as int - 'A' as int))
  }

  ghost predicate SpelledAlike(s: string, u: string) {
    |s| == |u| && forall i :: 0 <= i < |s| ==> SameLetter(s[i], u[i])
  }

  lemma LowerCharMeans(a: char, b: char)
    ensures !('A' <= LowerChar(a) <= 'Z') && SameLetter(LowerChar(a), a)
    ensures !('A' <= a <= 'Z') ==> LowerChar(a) == a
    ensures LowerChar(a) == LowerChar(b) <==> SameLetter(a, b)
  {
  }

  /** Lower-casing leaves no capital, changes nothing but case, and nothing at all without capitals. */
  lemma LowerLeavesNoCapitals(s: string)
    ensures NoCapitals(Lower(s)) && SpelledAlike(Lower(s), s)
    ensures NoCapitals(s) ==> Lower(s) == s
  {
    forall i: nat | i < |s|
      ensures !('A' <= Lower(s)[i] <= 'Z') && SameLetter(Lower(s)[i], s[i])
      ensures NoCapitals(s) ==> Lower(s)[i] == s[i]
    {
      LowerCharMeans(s[i], s[i]);
      assert s[i] in s;
    }
  }

  /** Two texts have the same lower case exactly when they differ only in case. */
  lemma LowerEqualIff(s: string, u: string)
    ensures Lower(s) == Lower(u) <==> SpelledAlike(s, u)
  {
    if |s| == |u| {
      forall i: nat | i < |s|
        ensures Lower(s)[i] == Lower(u)[i] <==> SameLetter(s[i], u[i])
      {
        LowerCharMeans(s[i], u[i]);
      }
    }
  }

  /**
   A file is one of an environment's exactly when it is the name, a dash, some digits - leading
   zeros or not - and ".tar"; the digits are its timestamp.
   */
  lemma MatchMeans(name: string, file: string, timestamp: nat)
    ensures Match(name, file) == Some(timestamp) <==>
            exists digits: string :: file == name + "-" + digits + ".tar" && ParseNat(digits) == Some(timestamp)
  {
    if Match(name, file) == Some(timestamp) {
      var digits := file[|name| + 1..|file| - 4];
      assert file == file[..|name|] + [file[|name|]] + digits + file[|file| - 4..];
      assert file == name + "-" + digits + ".tar";
    }
    forall digits: string | file == name + "-" + digits + ".tar" && ParseNat(digits) == Some(timestamp)
      ensures Match(name, file) == Some(timestamp)
    {
      assert file[..|name|] == name && file[|name|] == '-';
      assert file[|name| + 1..|file| - 4] == digits;
      assert file[|file| - 4..] == ".tar";
    }
  }

  /**
   `create_container_tar` under any spelling of a name: the file is called by the spelling
   without capitals, and it is listed under every spelling.
   */
  lemma CreatedUnderAnySpelling(files: seq<string>, name: string, given: string, asked: string,
                                timestamp: nat, locked: set<string>)
    requires NoCapitals(name) && SpelledAlike(given, name) && SpelledAlike(asked, name)
    ensures var file := name + "-" + Digits(timestamp) + ".tar";
            && FileName(Lower(given), timestamp) == file
            && (timestamp, file) in Listed(AfterCreate(files, file, given, timestamp, locked), asked)
  {
    LowerEqualIff(given, name);
    LowerEqualIff(asked, name);
    LowerLeavesNoCapitals(name);
    CreatedIsNewest(files, given, timestamp, locked);
  }

  // ---------------------------------------------------------------------------
  // The order of equal timestamps

  /** The entries with this timestamp, in order. */
  function Dated(s: Listing, t: nat): Listing {
    if s == [] then []
    else Dated(s[..|s| - 1], t) + if s[|s| - 1].0 == t then [s[|s| - 1]] else []
  }

  lemma {:induction false} InsertGoesBehind(e: (nat, string), s: Listing, t: nat)
    requires NewestFirst(s)
    ensures Dated(Insert(e, s), t) == Dated(s, t) + if e.0 == t then [e] else []
  {
    if s == [] {
      assert [e][..0] == [];
    } else {
      var front, last := s[..|s| - 1], s[|s| - 1];
      if last.0 >= e.0 {
        assert (s + [e])[..|s|] == s;
      } else {
        InsertGoesBehind(e, front, t);
        assert (Insert(e, front) + [last])[..|Insert(e, front) + [last]| - 1] == Insert(e, front);
      }
    }
  }

  /** Sorting keeps the order of entries with equal timestamps. */
  lemma {:induction false} SortIsStable(s: Listing, t: nat)
    ensures Dated(SortNewestFirst(s), t) == Dated(s, t)
  {
    if s != [] {
      SortKeeps(s[..|s| - 1]);
      SortIsStable(s[..|s| - 1], t);
      InsertGoesBehind(s[|s| - 1], SortNewestFirst(s[..|s| - 1]), t);
    }
  }

  // ---------------------------------------------------------------------------
  // Names, files and environments

  /** A file name belongs to at most one environment name. */
  lemma MatchUnique(a: string, b: string, file: string)
    requires Match(a, file).Some? && Match(b, file).Some?
    ensures a == b
  {
    if |a| < |b| {
      LongerNameFails(a, b, file);
    } else if |b| < |a| {
      LongerNameFails(b, a, file);
    }
  }

  /** The dash after the longer name would have to be one of the digits after the shorter. */
  lemma LongerNameFails(a: string, b: string, file: string)
    requires |a| < |b| && Match(a, file).Some?
    ensures Match(b, file).None?
  {
    var digits := file[|a| + 1..|file| - 4];
    if |file| > |b| + 5 {
      assert file[|b|] == digits[|b| - |a| - 1];
      assert IsDigit(file[|b|]);
    }
  }

  /** A created file carries its name and timestamp. */
  lemma FileNameMatches(name: string, timestamp: nat)
    ensures Match(name, FileName(name, timestamp)) == Some(timestamp)
  {
    DigitsRoundTrip(timestamp);
    var file := FileName(name, timestamp);
    assert file[|name| + 1..|file| - 4] == Digits(timestamp);
    assert file[..|name|] == name;
    assert file[|file| - 4..] == ".tar";
  }

  lemma AfterCreateAre(files: seq<string>, file: string, name: string, timestamp: nat, locked: set<string>)
    ensures forall f :: f in AfterCreate(files, file, name, timestamp, locked) <==>
              && (f in files || f == file)
              && (Match(Lower(name), f).Some? && Match(Lower(name), f).value < timestamp ==> f in locked)
  {
    WithoutAre(With(files, file), Older(With(files, file), Lower(name), timestamp) - locked);
  }

  /**
   After a successful `create_container_tar` the new file is listed with its timestamp; every
   listed file that could be removed is at least as new; and files of other environments, or of
   none, are exactly as before.
   */
  lemma CreatedIsNewest(files: seq<string>, name: string, timestamp: nat, locked: set<string>)
    ensures var after := AfterCreate(files, FileName(Lower(name), timestamp), name, timestamp, locked);
            && (timestamp, FileName(Lower(name), timestamp)) in Listed(after, name)
            && (forall t, f :: (t, f) in Listed(after, name) ==> t >= timestamp || f in locked)
            && (forall f :: Match(Lower(name), f).None? ==> (f in after <==> f in files))
            && (forall t, f :: t >= timestamp && (t, f) in Listed(files, name) ==> (t, f) in Listed(after, name))
  {
    var file := FileName(Lower(name), timestamp);
    var after := AfterCreate(files, file, name, timestamp, locked);
    FileNameMatches(Lower(name), timestamp);
    AfterCreateAre(files, file, name, timestamp, locked);
    ListedAre(after, name);
    ListedAre(files, name);
  }

  lemma OtherEnvironmentsUntouched(files: seq<string>, name: string, other: string, timestamp: nat, locked: set<string>)
    requires Lower(other) != Lower(name)
    ensures var after := AfterCreate(files, FileName(Lower(name), timestamp), name, timestamp, locked);
            forall t, f :: (t, f) in Listed(after, other) <==> (t, f) in Listed(files, other)
  {
    var file := FileName(Lower(name), timestamp);
    var after := AfterCreate(files, file, name, timestamp, locked);
    AfterCreateAre(files, file, name, timestamp, locked);
    FileNameMatches(Lower(name), timestamp);
    ListedAre(after, other);
    ListedAre(files, other);
    forall f | Match(Lower(other), f).Some?
      ensures f in after <==> f in files
    {
      if Match(Lower(name), f).Some? {
        MatchUnique(Lower(name), Lower(other), f);
      }
    }
  }

  /**
   A sync is needed iff some tarball of the environment is strictly newer than the local image,
   or there is one and no local image; the file chosen then has the greatest timestamp of all.
   */
  lemma NeedsSyncMeans(files: seq<string>, name: string, local: Option<int>)
    ensures var (needed, latest) := Decide(local, Listed(files, name));
            && (needed <==> exists f <- files :: Match(Lower(name), f).Some?
                                                 && (local.None? || Match(Lower(name), f).value > local.value))
            && (needed <==> latest.Some?)
            && (needed ==> latest.value in files && Match(Lower(name), latest.value).Some?
                           && forall f <- files | Match(Lower(name), f).Some? ::
                                Match(Lower(name), f).value <= Match(Lower(name), latest.value).value)
  {
    ListedAre(files, name);
    var listing := Listed(files, name);
    forall f <- files | Match(Lower(name), f).Some?
      ensures listing != [] && Match(Lower(name), f).value <= listing[0].0
    {
      var e := (Match(Lower(name), f).value, f);
      assert e in listing;
      var i :| 0 <= i < |listing| && listing[i] == e;
    }
    if listing != [] {
      assert (listing[0].0, listing[0].1) in listing;
    }
  }

  /**
   The second implementation does not lower-case the file it writes, so what it wrote is listed
   exactly when the environment name was lower-case already.
   */
  lemma TarballListedIffLowercase(files: seq<string>, name: string, timestamp: nat, locked: set<string>)
    ensures var after := AfterCreate(files, FileName(name, timestamp), name, timestamp, locked);
            (exists t :: (t, FileName(name, timestamp)) in Listed(after, name)) <==> NoCapitals(name)
  {
    var file := FileName(name, timestamp);
    var after := AfterCreate(files, file, name, timestamp, locked);
    LowerLeavesNoCapitals(name);
    FileNameMatches(name, timestamp);
    AfterCreateAre(files, file, name, timestamp, locked);
    ListedAre(after, name);
    if t :| (t, file) in Listed(after, name) {
      MatchUnique(name, Lower(name), file);
    }
    if Lower(name) == name {
      assert (timestamp, file) in Listed(after, name);
    }
  }

  /**
   Worse, it still removes the older lower-case files: with a name that is not lower-case and a
   timestamp newer than all there were, the environment's listing is empty afterwards. This is
   about the directory code alone: a Docker daemon that refuses such a repository name ends
   the creation at the commit.
   */
  lemma MixedCaseLosesEnvironment(files: seq<string>, name: string, timestamp: nat)
    requires !NoCapitals(name)
    requires forall t, f :: (t, f) in Listed(files, name) ==> t < timestamp
    ensures Listed(AfterCreate(files, FileName(name, timestamp), name, timestamp, {}), name) == []
  {
    var file := FileName(name, timestamp);
    var after := AfterCreate(files, file, name, timestamp, {});
    LowerLeavesNoCapitals(name);
    FileNameMatches(name, timestamp);
    AfterCreateAre(files, file, name, timestamp, {});
    ListedAre(after, name);
    ListedAre(files, name);
    if Listed(after, name) != [] {
      var (t, f) := Listed(after, name)[0];
      assert (t, f) in Listed(after, name);
      assert (t, f) in Listed(files, name) || f == file;
      MatchUnique(name, Lower(name), file);
    }
  }
}
