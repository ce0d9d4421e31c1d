/**
 Modification times given to source files that are compiled on top of a reused
 checkpoint: a file looks unchanged exactly when its content is unchanged.
 */
module Stamps {
  import opened Counting
  import opened Options

  const BASE := 946684800

  type Path = string
  type Hash = nat

  datatype File = File(path: Path, hash: Hash, size: nat)

  predicate UniquePaths(files: seq<File>) { forall i, j :: 0 <= i < j < |files| ==> files[i].path != files[j].path }

  predicate Tex(path: Path) { |path| >= 4 && path[|path| - 4..] == ".tex" }

  function PathSet(files: seq<File>): set<Path> { set i | 0 <= i < |files| :: files[i].path }

  /** Both lists name the same paths once each, and only TeX sources differ. */
  ghost predicate Compatible(previous: seq<File>, current: seq<File>) {
    UniquePaths(previous) && UniquePaths(current) && PathSet(previous) == PathSet(current) &&
    forall f, g :: f in previous && g in current && f.path == g.path && !Tex(g.path) ==> f.hash == g.hash && f.size == g.size
  }

  /** Every path of the list is a key, with the last file of that path. */
  ghost predicate Maps(files: seq<File>, index: map<Path, File>) {
    index.Keys == PathSet(files) &&
    forall p :: p in index ==> index[p].path == p && index[p] in files
  }

  lemma PathSetAppend(files: seq<File>, n: nat)
    requires n < |files|
    ensures PathSet(files[..n + 1]) == PathSet(files[..n]) + {files[n].path}
  {
    forall p | p in PathSet(files[..n + 1]) ensures p in PathSet(files[..n]) + {files[n].path} {
      var i :| 0 <= i < n + 1 && files[..n + 1][i].path == p;
      assert i < n ==> files[..n][i].path == p;
    }
    forall p | p in PathSet(files[..n]) + {files[n].path} ensures p in PathSet(files[..n + 1]) {
      if p == files[n].path {
        assert files[..n + 1][n].path == p;
      } else {
        var i :| 0 <= i < n && files[..n][i].path == p;
        assert files[..n + 1][i].path == p;
      }
    }
  }

  /** As many paths as files means that no path repeats, and the other way round. */
  lemma {:induction false} UniqueCount(files: seq<File>)
    ensures |PathSet(files)| <= |files|
    ensures |PathSet(files)| == |files| <==> UniquePaths(files)
  {
    hide PathSet, UniquePaths;
    if files == [] {
      NothingYet(files);
      assert files[..0] == files;
    } else {
      var n := |files| - 1;
      UniqueCount(files[..n]);
      PathSetAppend(files, n);
      UniqueAppend(files, n);
      assert files[..n + 1] == files;
    }
  }

  /** One more file keeps the paths unique if its own is new. */
  lemma UniqueAppend(files: seq<File>, n: nat)
    requires n < |files|
    ensures UniquePaths(files[..n + 1]) <==> UniquePaths(files[..n]) && files[n].path !in PathSet(files[..n])
  {
    if UniquePaths(files[..n]) && files[n].path !in PathSet(files[..n]) {
      UniqueOneMore(files, n);
    } else if files[n].path in PathSet(files[..n]) {
      var i :| 0 <= i < n && files[..n][i].path == files[n].path;
      assert files[..n + 1][i].path == files[..n + 1][n].path;
    } else {
      var i, j :| 0 <= i < j < n && files[..n][i].path == files[..n][j].path;
      assert files[..n + 1][i].path == files[..n + 1][j].path;
    }
  }

  method CompatibleCacheInputs(previous: seq<File>, current: seq<File>) returns (ok: bool)
    ensures ok <==> Compatible(previous, current)
  {
    UniqueCount(previous);
    UniqueCount(current);
    if |previous| != |current| {
      return false;
    }
    var index: map<Path, File> := map[];
    for i := 0 to |previous|
      invariant Maps(previous[..i], index)
    {
      PathSetAppend(previous, i);
      index := IndexOne(previous, i, index);
    }
    assert previous[..|previous|] == previous;
    if |index| != |current| {
      return false;
    }
    assert |index| == |index.Keys|;
    ok := Match(previous, current, index);
  }

  method IndexOne(files: seq<File>, n: nat, index: map<Path, File>) returns (index': map<Path, File>)
    requires n < |files| && Maps(files[..n], index)
    ensures Maps(files[..n + 1], index')
  {
    PathSetAppend(files, n);
    index' := index[files[n].path := files[n]];
    assert files[..n + 1] == files[..n] + [files[n]];
  }

  /** Each current file takes its own entry out of the index. */
  method Match(previous: seq<File>, current: seq<File>, index: map<Path, File>) returns (ok: bool)
    requires UniquePaths(previous) && Maps(previous, index) && |previous| == |current|
    ensures ok <==> Compatible(previous, current)
  {
    hide Compatible, UniquePaths, Maps, PathSet;
    var left := index;
    MapsKeys(previous, index);
    NothingYet(current);
    for j := 0 to |current|
      invariant left.Keys == PathSet(previous) - PathSet(current[..j])
      invariant forall p :: p in left ==> left[p] == index[p]
      invariant PathSet(current[..j]) <= PathSet(previous) && UniquePaths(current[..j])
      invariant forall k :: 0 <= k < j ==> Same(index, current[k])
    {
      var file := current[j];
      PathSetAppend(current, j);
      if file.path !in left {
        Absent(previous, current, j);
        return false;
      }
      var prior := left[file.path];
      if !Tex(file.path) && (prior.hash != file.hash || prior.size != file.size) {
        Differs(previous, current, index, j);
        return false;
      }
      UniqueOneMore(current, j);
      left := left - {file.path};
    }
    assert current[..|current|] == current;
    AllSame(previous, current, index);
    return true;
  }

  lemma MapsKeys(files: seq<File>, index: map<Path, File>)
    requires Maps(files, index)
    ensures index.Keys == PathSet(files)
  {
  }

  lemma NothingYet(files: seq<File>)
    ensures PathSet(files[..0]) == {} && UniquePaths(files[..0])
  {
  }

  lemma UniqueOneMore(files: seq<File>, j: nat)
    requires j < |files| && UniquePaths(files[..j]) && files[j].path !in PathSet(files[..j])
    ensures UniquePaths(files[..j + 1])
  {
    forall k | 0 <= k < j ensures files[k].path != files[j].path {
      assert files[..j][k].path in PathSet(files[..j]);
    }
    assert forall k :: 0 <= k < j ==> files[..j + 1][k] == files[..j][k];
  }

  lemma Differs(previous: seq<File>, current: seq<File>, index: map<Path, File>, j: nat)
    requires Maps(previous, index) && j < |current| && current[j].path in index && !Tex(current[j].path)
    requires index[current[j].path].hash != current[j].hash || index[current[j].path].size != current[j].size
    ensures !Compatible(previous, current)
  {
    assert index[current[j].path] in previous && current[j] in current;
  }

  lemma AllSame(previous: seq<File>, current: seq<File>, index: map<Path, File>)
    requires UniquePaths(previous) && UniquePaths(current) && Maps(previous, index) && |previous| == |current|
    requires PathSet(current) <= PathSet(previous) && forall k :: 0 <= k < |current| ==> Same(index, current[k])
    ensures Compatible(previous, current)
  {
    UniqueCount(previous);
    UniqueCount(current);
    SameSize(PathSet(current), PathSet(previous));
    forall f, g | f in previous && g in current && f.path == g.path && !Tex(g.path)
      ensures f.hash == g.hash && f.size == g.size
    {
      assert Same(index, g);
      EntryOf(previous, index, f);
    }
  }

  /** The entry of the file's path is the same file, unless it is a TeX source. */
  predicate Same(index: map<Path, File>, file: File) {
    file.path in index && (Tex(file.path) || (index[file.path].hash == file.hash && index[file.path].size == file.size))
  }

  lemma EntryOf(files: seq<File>, index: map<Path, File>, file: File)
    requires Maps(files, index) && UniquePaths(files) && file in files
    ensures file.path in index && index[file.path] == file
  {
    assert file.path in PathSet(files);
    assert index[file.path] in files;
  }

  lemma Absent(previous: seq<File>, current: seq<File>, j: nat)
    requires j < |current| && current[j].path !in PathSet(previous) - PathSet(current[..j])
    ensures !Compatible(previous, current)
  {
    if current[j].path in PathSet(current[..j]) {
      var k :| 0 <= k < j && current[..j][k].path == current[j].path;
      assert current[k].path == current[j].path;
    } else {
      assert current[j].path in PathSet(current);
    }
  }

  lemma SameSize(a: set<Path>, b: set<Path>)
    requires a <= b && |a| == |b|
    ensures a == b
  {
    if a != b {
      var x :| x in b && x !in a;
      SubsetSize(a, b - {x});
    }
  }

  // ----- Stamps -----

  /** The isolated workspace's checkpoint, as the session remembers it. */
  class SessionCache {
    var cachePath: bool
    var cacheInputs: seq<File>
    var cacheStamps: map<Path, int>
    var cacheHashes: map<Path, Hash>
    ghost var storedAt: nat   // the revision whose workspace is kept

    ghost predicate Valid()
      reads this
    {
      cachePath ==>
        UniquePaths(cacheInputs) && cacheStamps.Keys == PathSet(cacheInputs) == cacheHashes.Keys &&
        forall p :: p in cacheStamps ==> cacheStamps[p] <= BASE + storedAt
    }

    constructor ()
      ensures Valid() && !cachePath && cacheInputs == [] && cacheStamps == map[] && cacheHashes == map[]
    {
      cachePath, cacheInputs, cacheStamps, cacheHashes, storedAt := false, [], map[], map[], 0;
    }

    /**
     The stamps of one attempt.  On a reused checkpoint every file keeps its
     stamp exactly when its content is unchanged, and a changed file is newer
     than it was.
     */
    method Execute(revision: nat, files: seq<File>, force: bool, live: bool) returns (stamps: map<Path, int>, reused: bool)
      requires Valid() && UniquePaths(files) && (cachePath ==> storedAt < revision)
      ensures reused <==> cachePath && live && !force && Compatible(cacheInputs, files)
      ensures stamps.Keys == PathSet(files)
      ensures forall p :: p in stamps ==> stamps[p] <= BASE + revision
      ensures !reused ==> forall p :: p in stamps ==> stamps[p] == BASE + revision
      ensures reused ==> forall i :: 0 <= i < |files| ==>
        var p := files[i].path;
        p in cacheStamps && p in cacheHashes &&
        (stamps[p] == cacheStamps[p] <==> files[i].hash == cacheHashes[p]) &&
        (files[i].hash != cacheHashes[p] ==> stamps[p] == BASE + revision > cacheStamps[p])
    {
      var compatible := CompatibleCacheInputs(cacheInputs, files);
      reused := live && !force && cachePath && compatible;
      assert reused ==> cacheStamps.Keys == PathSet(files) == cacheHashes.Keys;
      hide Compatible;
      stamps := map[];
      for i := 0 to |files|
        invariant stamps.Keys == PathSet(files[..i])
        invariant forall k :: 0 <= k < i ==> files[k].path in stamps && stamps[files[k].path] == Stamp(files[k], revision, reused)
        invariant forall p :: p in stamps ==> stamps[p] <= BASE + revision && (!reused ==> stamps[p] == BASE + revision)
      {
        PathSetAppend(files, i);
        stamps := stamps[files[i].path := Stamp(files[i], revision, reused)];
      }
      assert files[..|files|] == files;
      forall i | 0 <= i < |files| ensures files[i].path in PathSet(files) {}
    }

    function Stamp(file: File, revision: nat, reused: bool): int
      reads this
    {
      if reused && file.path in cacheHashes && file.path in cacheStamps && cacheHashes[file.path] == file.hash
      then cacheStamps[file.path] else BASE + revision
    }

    /** A successful attempt leaves its workspace as the next checkpoint. */
    method Publish(revision: nat, files: seq<File>, stamps: map<Path, int>)
      requires UniquePaths(files) && stamps.Keys == PathSet(files)
      requires forall p :: p in stamps ==> stamps[p] <= BASE + revision
      modifies this
      ensures Valid() && cachePath && storedAt == revision && cacheInputs == files && cacheStamps == stamps
      ensures forall i :: 0 <= i < |files| ==> files[i].path in cacheHashes && cacheHashes[files[i].path] == files[i].hash
    {
      NothingYet(files);
      hide PathSet;
      cachePath, cacheInputs, cacheStamps, storedAt := true, files, stamps, revision;
      cacheHashes := map[];
      for i := 0 to |files|
        invariant cachePath && cacheInputs == files && cacheStamps == stamps && storedAt == revision
        invariant cacheHashes.Keys == PathSet(files[..i])
        invariant forall k :: 0 <= k < i ==> files[k].path in cacheHashes && cacheHashes[files[k].path] == files[k].hash
      {
        PathSetAppend(files, i);
        cacheHashes := cacheHashes[files[i].path := files[i].hash];
      }
      assert files[..|files|] == files;
    }

    method Clear()
      modifies this
      ensures Valid() && !cachePath && cacheInputs == [] && cacheStamps == map[] && cacheHashes == map[]
    {
      cachePath, cacheInputs, cacheStamps, cacheHashes := false, [], map[], map[];
    }
  }

  // ----- A session's attempts -----

  /** One attempt, whether its workspace is published afterwards, and whether the checkpoint is then given up. */
  datatype Attempt = Attempt(revision: nat, files: seq<File>, force: bool, live: bool, publishes: bool, clears: bool)

  /** Attempts of one session run in the order of their revisions. */
  predicate Ordered(attempts: seq<Attempt>) {
    (forall m :: 0 <= m < |attempts| ==> UniquePaths(attempts[m].files)) &&
    forall n, m :: 0 <= n < m < |attempts| ==> attempts[n].revision < attempts[m].revision
  }

  /** A checkpoint that was published with these files and stamps. */
  ghost predicate Stored(cache: SessionCache, a: Attempt, stamps: map<Path, int>)
    reads cache
  {
    cache.cacheInputs == a.files && cache.cacheStamps == stamps && cache.storedAt == a.revision &&
    forall i :: 0 <= i < |a.files| ==>
      a.files[i].path in cache.cacheHashes && cache.cacheHashes[a.files[i].path] == a.files[i].hash
  }

  /** On top of the checkpoint a file keeps its stamp exactly when its content is unchanged, and else is newer. */
  ghost predicate Builds(a: Attempt, stamps: map<Path, int>, b: Attempt, stamps': map<Path, int>) {
    a.publishes && Compatible(a.files, b.files) &&
    forall f, g :: f in a.files && g in b.files && f.path == g.path ==>
      g.path in stamps && g.path in stamps' &&
      (stamps'[g.path] == stamps[g.path] <==> g.hash == f.hash) && (g.hash != f.hash ==> stamps'[g.path] == BASE + b.revision > stamps[g.path])
  }

  /** The stamp names an attempt, this one or an earlier one, that compiled the same content. */
  ghost predicate Origin(attempts: seq<Attempt>, m: nat, stamp: int, file: File) {
    exists k, f :: 0 <= k <= m < |attempts| && stamp == BASE + attempts[k].revision && f in attempts[k].files &&
                   f.path == file.path && f.hash == file.hash
  }

  ghost predicate Original(attempts: seq<Attempt>, m: nat, stamps: map<Path, int>) {
    m < |attempts| && stamps.Keys == PathSet(attempts[m].files) &&
    forall f :: f in attempts[m].files ==> f.path in stamps && Origin(attempts, m, stamps[f.path], f)
  }

  /** The stamps of attempt m: as on top of that checkpoint, or all of its own revision. */
  ghost predicate BuiltOn(attempts: seq<Attempt>, stamps: seq<map<Path, int>>, m: nat, base: Option<nat>)
    requires m < |attempts| && m < |stamps|
  {
    match base
    case Some(n) => n < m && Builds(attempts[n], stamps[n], attempts[m], stamps[m])
    case None => forall p :: p in stamps[m] ==> stamps[m][p] == BASE + attempts[m].revision
  }

  lemma BuiltOnLater(attempts: seq<Attempt>, stamps: seq<map<Path, int>>, now: map<Path, int>, m: nat, base: Option<nat>)
    requires m < |stamps| && |stamps| < |attempts| && BuiltOn(attempts, stamps, m, base)
    ensures BuiltOn(attempts, stamps + [now], m, base)
  {
    hide Builds;
  }

  lemma BuiltOnNow(attempts: seq<Attempt>, stamps: seq<map<Path, int>>, now: map<Path, int>, base: Option<nat>)
    requires |stamps| < |attempts|
    requires if base.Some? then base.value < |stamps| && Builds(attempts[base.value], stamps[base.value], attempts[|stamps|], now)
             else forall p :: p in now ==> now[p] == BASE + attempts[|stamps|].revision
    ensures BuiltOn(attempts, stamps + [now], |stamps|, base)
  {
    hide Builds;
  }

  /** The attempt whose checkpoint the session keeps when attempt m begins: the last one published, unless given up since. */
  function KeptAt(attempts: seq<Attempt>, m: nat): (kept: Option<nat>)
    requires m <= |attempts|
    ensures kept.Some? ==> kept.value < m && attempts[kept.value].publishes && !attempts[kept.value].clears
    ensures kept.Some? ==> forall k :: kept.value < k < m ==> !attempts[k].publishes && !attempts[k].clears
    ensures kept.None? ==> forall n :: 0 <= n < m && attempts[n].publishes ==> exists k :: n <= k < m && attempts[k].clears
  {
    if m == 0 || attempts[m - 1].clears then None
    else if attempts[m - 1].publishes then Some(m - 1)
    else KeptAt(attempts, m - 1)
  }

  /** What attempt m is built on: the kept checkpoint, if it has not expired, fits, and no clean compile is forced. */
  ghost function BaseOf(attempts: seq<Attempt>, m: nat): Option<nat>
    requires m < |attempts|
  {
    var kept := KeptAt(attempts, m);
    if kept.Some? && attempts[m].live && !attempts[m].force && Compatible(attempts[kept.value].files, attempts[m].files)
    then kept else None
  }

  /** All attempts of a session, and for each the attempt whose checkpoint it was built on. */
  method History(attempts: seq<Attempt>) returns (stamps: seq<map<Path, int>>, bases: seq<Option<nat>>)
    requires Ordered(attempts)
    ensures |stamps| == |bases| == |attempts|
    ensures forall m :: 0 <= m < |attempts| ==> Original(attempts, m, stamps[m]) && bases[m] == BaseOf(attempts, m)
    ensures forall m :: 0 <= m < |attempts| ==> BuiltOn(attempts, stamps, m, bases[m])
  {
    hide Compatible, UniquePaths, Original, Origin, PathSet, Builds, BuiltOn, SessionCache.Valid;
    var cache := new SessionCache();
    stamps, bases := [], [];
    var kept: nat := 0;
    for i := 0 to |attempts|
      invariant fresh(cache) && cache.Valid() && |stamps| == |bases| == i
      invariant KeptAt(attempts, i) == if cache.cachePath then Some(kept) else None
      invariant cache.cachePath ==> Stored(cache, attempts[kept], stamps[kept])
      invariant forall m :: 0 <= m < i ==> Original(attempts, m, stamps[m]) && bases[m] == BaseOf(attempts, m)
      invariant forall m :: 0 <= m < i ==> BuiltOn(attempts, stamps, m, bases[m])
    {
      var a := attempts[i];
      var now, reused := cache.Execute(a.revision, a.files, a.force, a.live);
      if reused {
        Rebuilt(cache, attempts[kept], stamps[kept], a, now);
        Inherits(attempts, kept, stamps[kept], i, now);
      } else {
        Clean(attempts, i, now);
      }
      var base := if reused then Some(kept) else None;
      forall m | 0 <= m < i ensures BuiltOn(attempts, stamps + [now], m, bases[m]) {
        BuiltOnLater(attempts, stamps, now, m, bases[m]);
      }
      BuiltOnNow(attempts, stamps, now, base);
      stamps := stamps + [now];
      bases := bases + [base];
      if a.publishes {
        cache.Publish(a.revision, a.files, now);
        kept := i;
      }
      if a.clears {
        cache.Clear();
      }
    }
  }

  /** What Execute promises about a reused checkpoint, in terms of the two attempts. */
  lemma Rebuilt(cache: SessionCache, a: Attempt, stamps: map<Path, int>, b: Attempt, stamps': map<Path, int>)
    requires a.publishes && Stored(cache, a, stamps) && Compatible(cache.cacheInputs, b.files)
    requires stamps'.Keys == PathSet(b.files)
    requires forall i :: 0 <= i < |b.files| ==>
      var p := b.files[i].path;
      p in cache.cacheStamps && p in cache.cacheHashes &&
      (stamps'[p] == cache.cacheStamps[p] <==> b.files[i].hash == cache.cacheHashes[p]) &&
      (b.files[i].hash != cache.cacheHashes[p] ==> stamps'[p] == BASE + b.revision > cache.cacheStamps[p])
    ensures Builds(a, stamps, b, stamps')
  {
    hide Compatible;
  }

  lemma Clean(attempts: seq<Attempt>, i: nat, stamps: map<Path, int>)
    requires i < |attempts| && stamps.Keys == PathSet(attempts[i].files)
    requires forall p :: p in stamps ==> stamps[p] == BASE + attempts[i].revision
    ensures Original(attempts, i, stamps)
  {
    forall f | f in attempts[i].files ensures f.path in stamps && Origin(attempts, i, stamps[f.path], f) {
      assert f.path in PathSet(attempts[i].files);
    }
  }

  lemma Inherits(attempts: seq<Attempt>, n: nat, stamps: map<Path, int>, m: nat, stamps': map<Path, int>)
    requires n < m < |attempts| && Original(attempts, n, stamps) && stamps'.Keys == PathSet(attempts[m].files)
    requires Builds(attempts[n], stamps, attempts[m], stamps')
    ensures Original(attempts, m, stamps')
  {
    hide Origin, PathSet, Original, Builds, Compatible;
    forall g | g in attempts[m].files ensures g.path in stamps' && Origin(attempts, m, stamps'[g.path], g) {
      var f := Predecessor(attempts[n], stamps, attempts[m], stamps', g);
      OriginOf(attempts, n, stamps, f);
      if f.hash == g.hash {
        OriginLater(attempts, n, m, stamps[f.path], f, g);
      } else {
        OriginHere(attempts, m, g);
      }
    }
    OriginalAll(attempts, m, stamps');
  }

  lemma OriginOf(attempts: seq<Attempt>, n: nat, stamps: map<Path, int>, f: File)
    requires Original(attempts, n, stamps) && f in attempts[n].files
    ensures f.path in stamps && Origin(attempts, n, stamps[f.path], f)
  {
    hide Origin, PathSet;
  }

  lemma OriginalAll(attempts: seq<Attempt>, m: nat, stamps: map<Path, int>)
    requires m < |attempts| && stamps.Keys == PathSet(attempts[m].files)
    requires forall f :: f in attempts[m].files ==> f.path in stamps && Origin(attempts, m, stamps[f.path], f)
    ensures Original(attempts, m, stamps)
  {
    hide Origin, PathSet;
  }

  /** The file of the same path in the checkpoint that the attempt was built on. */
  lemma Predecessor(a: Attempt, stamps: map<Path, int>, b: Attempt, stamps': map<Path, int>, g: File) returns (f: File)
    requires Builds(a, stamps, b, stamps') && g in b.files
    ensures f in a.files && f.path == g.path && g.path in stamps && g.path in stamps'
    ensures stamps'[g.path] == if g.hash == f.hash then stamps[g.path] else BASE + b.revision
  {
    assert g.path in PathSet(b.files);
    assert g.path in PathSet(a.files);
    var i :| 0 <= i < |a.files| && a.files[i].path == g.path;
    f := a.files[i];
  }

  lemma OriginLater(attempts: seq<Attempt>, n: nat, m: nat, stamp: int, f: File, g: File)
    requires n <= m < |attempts| && Origin(attempts, n, stamp, f) && f.path == g.path && f.hash == g.hash
    ensures Origin(attempts, m, stamp, g)
  {
  }

  lemma OriginHere(attempts: seq<Attempt>, m: nat, g: File)
    requires m < |attempts| && g in attempts[m].files
    ensures Origin(attempts, m, BASE + attempts[m].revision, g)
  {
  }

  /**
   Over the whole life of a session, two attempts that give a file the same
   stamp compile the same content of it, however many attempts lie between them.
   */
  lemma SameStampSameContent(attempts: seq<Attempt>, stamps: seq<map<Path, int>>, n: nat, m: nat, f: File, g: File)
    requires Ordered(attempts) && n < |attempts| && m < |attempts| && |stamps| == |attempts|
    requires forall i :: 0 <= i < |attempts| ==> Original(attempts, i, stamps[i])
    requires f in attempts[n].files && g in attempts[m].files && f.path == g.path
    ensures f.path in stamps[n] && f.path in stamps[m] && (stamps[n][f.path] == stamps[m][f.path] ==> f.hash == g.hash)
  {
    hide Origin;
    assert Original(attempts, n, stamps[n]) && Original(attempts, m, stamps[m]);
    if stamps[n][f.path] == stamps[m][f.path] {
      OneOrigin(attempts, n, m, stamps[n][f.path], f, g);
    }
  }

  lemma OneOrigin(attempts: seq<Attempt>, n: nat, m: nat, stamp: int, f: File, g: File)
    requires Ordered(attempts) && f.path == g.path && Origin(attempts, n, stamp, f) && Origin(attempts, m, stamp, g)
    ensures f.hash == g.hash
  {
    var k, x :| 0 <= k <= n < |attempts| && stamp == BASE + attempts[k].revision && x in attempts[k].files &&
                x.path == f.path && x.hash == f.hash;
    var l, y :| 0 <= l <= m < |attempts| && stamp == BASE + attempts[l].revision && y in attempts[l].files &&
                y.path == g.path && y.hash == g.hash;
    assert k == l;
    var a :| 0 <= a < |attempts[k].files| && attempts[k].files[a] == x;
    var b :| 0 <= b < |attempts[k].files| && attempts[k].files[b] == y;
    assert a == b;
  }
}
