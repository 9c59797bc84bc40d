/**
  The size-bounded cache directory: after a write, when the `.json` files
  together exceed the budget, the oldest are unlinked until the running
  total is back under it. The directory listing is a field; a failed `stat`
  is an entry without attributes and a failed `unlink` is a set of names.
*/
module CacheManager {
  import opened Wrappers

  /** The budget: one gibibyte. */
  const MaxCacheSize: int := 1024 * 1024 * 1024

  /** What `fs.stat` reports of a file. */
  datatype Stat = Stat(mtime: int, size: nat)

  /** A directory entry; `stat` is `None` when `fs.stat` throws for it. */
  datatype DirEntry = DirEntry(name: string, stat: Option<Stat>)

  /** A candidate for eviction: its name, modification time and size. */
  datatype FileStat = FileStat(name: string, mtime: int, size: nat)

  predicate EndsWith(s: string, suffix: string)
  {
    |suffix| <= |s| && s[|s| - |suffix|..] == suffix
  }

  predicate IsCacheFile(e: DirEntry)
  {
    EndsWith(e.name, ".json") && e.stat.Some?
  }

  function StatOf(e: DirEntry): FileStat
    requires e.stat.Some?
  {
    FileStat(e.name, e.stat.value.mtime, e.stat.value.size)
  }

  /** The first loop: the `.json` entries whose `stat` succeeded, in listing order. */
  function Stats(dir: seq<DirEntry>): (r: seq<FileStat>)
    ensures forall f :: f in r ==> EndsWith(f.name, ".json")
    ensures forall f :: f in r <==> exists i :: 0 <= i < |dir| && IsCacheFile(dir[i]) && StatOf(dir[i]) == f
  {
    if dir == [] then []
    else
      var front := dir[..|dir| - 1];
      var e := dir[|dir| - 1];
      assert forall i :: 0 <= i < |front| ==> front[i] == dir[i];
      Stats(front) + (if IsCacheFile(e) then [StatOf(e)] else [])
  }

  /** The first loop keeps listing order: two runs of entries are filtered each in turn. */
  lemma {:induction false} StatsAppend(a: seq<DirEntry>, b: seq<DirEntry>)
    ensures Stats(a + b) == Stats(a) + Stats(b)
    decreases |b|
  {
    if b == [] {
      assert a + b == a;
    } else {
      var front := b[..|b| - 1];
      assert (a + b)[..|a + b| - 1] == a + front;
      assert (a + b)[|a + b| - 1] == b[|b| - 1];
      StatsAppend(a, front);
    }
  }

  /** A single entry contributes its stat exactly when it is a counted `.json` file. */
  lemma StatsOne(e: DirEntry)
    ensures Stats([e]) == if IsCacheFile(e) then [StatOf(e)] else []
  {
    assert [e][..0] == [];
  }

  /** The sum of the sizes. */
  function Total(fs: seq<FileStat>): nat
  {
    if fs == [] then 0 else fs[0].size + Total(fs[1..])
  }

  lemma {:induction false} TotalAppend(a: seq<FileStat>, b: seq<FileStat>)
    ensures Total(a + b) == Total(a) + Total(b)
  {
    if a == [] {
      assert a + b == b;
    } else {
      assert (a + b)[1..] == a[1..] + b;
      TotalAppend(a[1..], b);
    }
  }

  lemma TotalCons(f: FileStat, a: seq<FileStat>)
    ensures Total([f] + a) == f.size + Total(a)
  {
    assert ([f] + a)[1..] == a;
  }

  lemma TotalOfPush(a: seq<FileStat>, f: FileStat)
    ensures Total(a + [f]) == Total(a) + f.size
  {
    TotalAppend(a, [f]);
    assert Total([f]) == f.size + Total([]);
  }

  // ------------------------------------------------------------ oldest first

  predicate SortedByMtime(fs: seq<FileStat>)
  {
    forall i, j :: 0 <= i < j < |fs| ==> fs[i].mtime <= fs[j].mtime
  }

  /** Every entry is at least as recent as `m`. */
  predicate NotOlderThan(m: int, fs: seq<FileStat>)
  {
    forall k :: 0 <= k < |fs| ==> m <= fs[k].mtime
  }

  /** Insert before the first entry that is not older, keeping earlier equals first. */
  function Insert(f: FileStat, fs: seq<FileStat>): (r: seq<FileStat>)
    ensures multiset(r) == multiset(fs) + multiset{f}
    ensures |r| == |fs| + 1
  {
    if fs == [] then [f]
    else if f.mtime <= fs[0].mtime then [f] + fs
    else
      assert fs == [fs[0]] + fs[1..];
      [fs[0]] + Insert(f, fs[1..])
  }

  lemma {:induction false} InsertNotOlder(m: int, f: FileStat, fs: seq<FileStat>)
    requires m <= f.mtime && NotOlderThan(m, fs)
    ensures NotOlderThan(m, Insert(f, fs))
  {
    if fs != [] && f.mtime > fs[0].mtime {
      InsertNotOlder(m, f, fs[1..]);
    }
  }

  lemma {:induction false} InsertSorted(f: FileStat, fs: seq<FileStat>)
    requires SortedByMtime(fs)
    ensures SortedByMtime(Insert(f, fs))
  {
    if fs != [] {
      if f.mtime <= fs[0].mtime {
        var r := [f] + fs;
        forall i, j | 0 <= i < j < |r| ensures r[i].mtime <= r[j].mtime {
          if i == 0 && j > 1 {
            assert fs[0].mtime <= fs[j - 1].mtime;
          }
        }
      } else {
        var rest := Insert(f, fs[1..]);
        InsertSorted(f, fs[1..]);
        InsertNotOlder(fs[0].mtime, f, fs[1..]);
        var r := [fs[0]] + rest;
        forall i, j | 0 <= i < j < |r| ensures r[i].mtime <= r[j].mtime {
          if i > 0 {
            assert r[i] == rest[i - 1] && r[j] == rest[j - 1];
          } else {
            assert r[j] == rest[j - 1];
          }
        }
      }
    }
  }

  /**
    `fileStats.sort((a, b) => a.mtime - b.mtime)`: oldest first, a
    permutation of the candidates. Insertion sort keeps entries of equal
    time in listing order, as the language's stable sort does.
  */
  function SortByMtime(fs: seq<FileStat>): (r: seq<FileStat>)
    ensures SortedByMtime(r)
    ensures multiset(r) == multiset(fs)
    ensures |r| == |fs|
  {
    if fs == [] then []
    else
      assert fs == [fs[0]] + fs[1..];
      var rest := SortByMtime(fs[1..]);
      InsertSorted(fs[0], rest);
      Insert(fs[0], rest)
  }

  lemma {:induction false} TotalPermutation(a: seq<FileStat>, b: seq<FileStat>)
    requires multiset(a) == multiset(b)
    ensures Total(a) == Total(b)
    decreases |a|
  {
    if a != [] {
      var x := a[0];
      assert x in multiset(b);
      var k :| 0 <= k < |b| && b[k] == x;
      var b' := b[..k] + b[k + 1..];
      MultisetRemove(b, k);
      assert multiset(a[1..]) == multiset(a) - multiset{x} by {
        assert a == [x] + a[1..];
      }
      TotalPermutation(a[1..], b');
      TotalRemove(b, k);
    }
  }

  lemma MultisetRemove(b: seq<FileStat>, k: nat)
    requires k < |b|
    ensures multiset(b[..k] + b[k + 1..]) == multiset(b) - multiset{b[k]}
  {
    assert b == b[..k] + [b[k]] + b[k + 1..];
  }

  lemma TotalRemove(b: seq<FileStat>, k: nat)
    requires k < |b|
    ensures Total(b) == b[k].size + Total(b[..k] + b[k + 1..])
  {
    SplitAt(b, k);
    TotalSplit(b[..k], b[k], b[k + 1..]);
  }

  lemma SplitAt(b: seq<FileStat>, k: nat)
    requires k < |b|
    ensures b == (b[..k] + [b[k]]) + b[k + 1..]
  {
  }

  lemma TotalSplit(p: seq<FileStat>, x: FileStat, q: seq<FileStat>)
    ensures Total((p + [x]) + q) == x.size + Total(p + q)
  {
    TotalAppend(p + [x], q);
    TotalOfPush(p, x);
    TotalAppend(p, q);
  }

  // ------------------------------------------------------------ eviction

  /**
    The second loop, from a running size `current`: stop once it is within
    budget; a file whose unlink throws is skipped without being counted.
  */
  function Evict(fs: seq<FileStat>, current: int, maxSize: int, failing: set<string>): (r: seq<FileStat>)
    ensures |r| <= |fs|
    ensures forall i :: 0 <= i < |r| ==> r[i] in fs && r[i].name !in failing
    ensures current <= maxSize ==> r == []
  {
    if fs == [] || current <= maxSize then []
    else
      var rest := if fs[0].name in failing then Evict(fs[1..], current, maxSize, failing)
                  else [fs[0]] + Evict(fs[1..], current - fs[0].size, maxSize, failing);
      assert forall x :: x in fs[1..] ==> x in fs;
      rest
  }

  /** `checkSizeAndCleanup` over a listing: the files it unlinks. */
  function Cleanup(dir: seq<DirEntry>, maxSize: int, failing: set<string>): seq<FileStat>
  {
    var stats := Stats(dir);
    if Total(stats) > maxSize then Evict(SortByMtime(stats), Total(stats), maxSize, failing) else []
  }

  /** Nothing is unlinked while the cache files fit the budget. */
  lemma WithinBudgetKeepsAll(dir: seq<DirEntry>, maxSize: int, failing: set<string>)
    requires Total(Stats(dir)) <= maxSize
    ensures Cleanup(dir, maxSize, failing) == []
  {
  }

  /** Only `.json` cache files are ever unlinked, and never one whose unlink fails. */
  lemma CleanupOnlyCacheFiles(dir: seq<DirEntry>, maxSize: int, failing: set<string>)
    ensures forall f :: f in Cleanup(dir, maxSize, failing) ==>
              EndsWith(f.name, ".json") && f.name !in failing && f in Stats(dir)
  {
    var stats := Stats(dir);
    var sorted := SortByMtime(stats);
    forall f | f in Cleanup(dir, maxSize, failing)
      ensures EndsWith(f.name, ".json") && f.name !in failing && f in stats
    {
      assert f in sorted;
      assert f in multiset(sorted);
    }
  }

  /** One step of the eviction loop while still over budget. */
  lemma EvictStep(fs: seq<FileStat>, current: int, maxSize: int, failing: set<string>)
    requires fs != [] && current > maxSize
    ensures fs[0].name in failing ==>
              Evict(fs, current, maxSize, failing) == Evict(fs[1..], current, maxSize, failing)
    ensures fs[0].name !in failing ==>
              Evict(fs, current, maxSize, failing) == [fs[0]] + Evict(fs[1..], current - fs[0].size, maxSize, failing)
  {
  }

  /** The loop's view of one step: what is already unlinked followed by what the rest of the list unlinks. */
  lemma EvictAfter(done: seq<FileStat>, fs: seq<FileStat>, current: int, maxSize: int, failing: set<string>)
    requires fs != [] && current > maxSize
    ensures fs[0].name in failing ==>
              done + Evict(fs[1..], current, maxSize, failing) == done + Evict(fs, current, maxSize, failing)
    ensures fs[0].name !in failing ==>
              (done + [fs[0]]) + Evict(fs[1..], current - fs[0].size, maxSize, failing)
              == done + Evict(fs, current, maxSize, failing)
  {
    EvictStep(fs, current, maxSize, failing);
    var later := Evict(fs[1..], current - fs[0].size, maxSize, failing);
    assert (done + [fs[0]]) + later == done + ([fs[0]] + later);
  }

  /** The loop's step at index `j` of the whole list. */
  lemma EvictAdvance(done: seq<FileStat>, sorted: seq<FileStat>, j: nat, current: int, maxSize: int, failing: set<string>)
    requires j < |sorted| && current > maxSize
    ensures sorted[j].name in failing ==>
              done + Evict(sorted[j + 1..], current, maxSize, failing) == done + Evict(sorted[j..], current, maxSize, failing)
    ensures sorted[j].name !in failing ==>
              (done + [sorted[j]]) + Evict(sorted[j + 1..], current - sorted[j].size, maxSize, failing)
              == done + Evict(sorted[j..], current, maxSize, failing)
  {
    assert sorted[j..][1..] == sorted[j + 1..];
    EvictAfter(done, sorted[j..], current, maxSize, failing);
  }

  /** The loop's exit: nothing left to evict. */
  lemma EvictDone(done: seq<FileStat>, fs: seq<FileStat>, current: int, maxSize: int, failing: set<string>)
    requires fs == [] || current <= maxSize
    ensures done + Evict(fs, current, maxSize, failing) == done
  {
    assert done + [] == done;
  }

  /** Without unlink failures, the evicted files are a prefix of the list. */
  lemma {:induction false} EvictPrefix(fs: seq<FileStat>, current: int, maxSize: int)
    ensures var r := Evict(fs, current, maxSize, {});
            r == fs[..|r|]
  {
    if fs != [] && current > maxSize {
      var rest := Evict(fs[1..], current - fs[0].size, maxSize, {});
      EvictStep(fs, current, maxSize, {});
      EvictPrefix(fs[1..], current - fs[0].size, maxSize);
      assert fs[..|rest| + 1] == [fs[0]] + fs[1..][..|rest|];
    }
  }

  /** Without unlink failures, eviction ends within budget unless every file went. */
  lemma EvictFits(fs: seq<FileStat>, current: int, maxSize: int)
    ensures var r := Evict(fs, current, maxSize, {});
            current - Total(r) <= maxSize || r == fs
  {
    var r := Evict(fs, current, maxSize, {});
    EvictFitsCount(fs, current, maxSize);
    EvictPrefix(fs, current, maxSize);
    if |r| == |fs| {
      assert fs[..|fs|] == fs;
    }
  }

  /** `EvictFits` counted in files: within budget, or as many files unlinked as listed. */
  lemma {:induction false} EvictFitsCount(fs: seq<FileStat>, current: int, maxSize: int)
    ensures var r := Evict(fs, current, maxSize, {});
            current - Total(r) <= maxSize || |r| == |fs|
  {
    if fs != [] && current > maxSize {
      var rest := Evict(fs[1..], current - fs[0].size, maxSize, {});
      EvictFitsCount(fs[1..], current - fs[0].size, maxSize);
      EvictStep(fs, current, maxSize, {});
      TotalCons(fs[0], rest);
    }
  }

  /** Without unlink failures, the last file evicted was still needed: the size before it was over budget. */
  lemma {:induction false} EvictLastNeeded(fs: seq<FileStat>, current: int, maxSize: int)
    ensures var r := Evict(fs, current, maxSize, {});
            |r| <= |fs| && (|r| > 0 ==> current - Total(fs[..|r| - 1]) > maxSize)
  {
    if fs != [] && current > maxSize {
      var rest := Evict(fs[1..], current - fs[0].size, maxSize, {});
      EvictStep(fs, current, maxSize, {});
      EvictLastNeeded(fs[1..], current - fs[0].size, maxSize);
      if |rest| > 0 {
        var p := fs[..|rest|];
        assert p == [fs[0]] + fs[1..][..|rest| - 1];
        assert p[1..] == fs[1..][..|rest| - 1];
      } else {
        assert fs[..0] == [];
      }
    }
  }

  /** In a sorted list, every entry of a prefix is at least as old as every entry after it. */
  lemma SortedPrefixOlder(sorted: seq<FileStat>, n: nat)
    requires SortedByMtime(sorted) && n <= |sorted|
    ensures forall d, k :: d in sorted[..n] && k in sorted[n..] ==> d.mtime <= k.mtime
  {
    forall d, k | d in sorted[..n] && k in sorted[n..] ensures d.mtime <= k.mtime {
      var a :| 0 <= a < n && sorted[..n][a] == d;
      var b :| 0 <= b < |sorted| - n && sorted[n..][b] == k;
      assert sorted[a] == d && sorted[n + b] == k;
    }
  }

  /**
    Without unlink failures the cache ends within budget, and every evicted
    file is at least as old as every file kept.
  */
  lemma CleanupEndsWithinBudget(dir: seq<DirEntry>, maxSize: int)
    requires 0 <= maxSize
    ensures var stats := Stats(dir);
            var gone := Cleanup(dir, maxSize, {});
            |gone| <= |stats|
            && Total(stats) - Total(gone) <= maxSize
            && gone == SortByMtime(stats)[..|gone|]
            && forall d, k :: d in gone && k in SortByMtime(stats)[|gone|..] ==> d.mtime <= k.mtime
  {
    var stats := Stats(dir);
    var sorted := SortByMtime(stats);
    var gone := Cleanup(dir, maxSize, {});
    if Total(stats) > maxSize {
      EvictPrefix(sorted, Total(stats), maxSize);
      EvictFits(sorted, Total(stats), maxSize);
      TotalPermutation(sorted, stats);
      assert gone == sorted[..|gone|];
      SortedPrefixOlder(sorted, |gone|);
    } else {
      assert gone == [];
      SortedPrefixOlder(sorted, 0);
    }
  }

  /** The listing without the unlinked files. */
  function Remaining(dir: seq<DirEntry>, gone: seq<FileStat>): (r: seq<DirEntry>)
    ensures forall e :: e in r <==> e in dir && forall f :: f in gone ==> f.name != e.name
  {
    if dir == [] then []
    else
      var rest := Remaining(dir[1..], gone);
      assert forall e :: e in dir <==> e == dir[0] || e in dir[1..];
      if forall f :: f in gone ==> f.name != dir[0].name then [dir[0]] + rest else rest
  }

  /** The cache directory and its budget. */
  class Cache {
    const maxSize: int
    var dir: seq<DirEntry>

    constructor (listing: seq<DirEntry>)
      ensures maxSize == MaxCacheSize && dir == listing
    {
      maxSize := MaxCacheSize;
      dir := listing;
    }

    /**
      `checkSizeAndCleanup()`: `failing` names the files whose unlink throws.
      Returns the unlinked files and the running size at the end.
    */
    method CheckSizeAndCleanup(failing: set<string>) returns (deleted: seq<FileStat>, currentSize: int)
      modifies this
      ensures deleted == Cleanup(old(dir), maxSize, failing)
      ensures currentSize == Total(Stats(old(dir))) - Total(deleted)
      ensures dir == Remaining(old(dir), deleted)
    {
      var fileStats, totalSize := CollectStats(dir);
      deleted := [];
      currentSize := totalSize;
      if totalSize > maxSize {
        var sorted := SortByMtime(fileStats);
        deleted, currentSize := EvictOldest(sorted, totalSize, maxSize, failing);
      }
      dir := Remaining(dir, deleted);
    }
  }

  /** The first loop of `checkSizeAndCleanup`: the candidates and their total size. */
  method CollectStats(dir: seq<DirEntry>) returns (fileStats: seq<FileStat>, totalSize: nat)
    ensures fileStats == Stats(dir)
    ensures totalSize == Total(fileStats)
  {
    totalSize := 0;
    fileStats := [];
    var i := 0;
    while i < |dir|
      invariant 0 <= i <= |dir|
      invariant fileStats == Stats(dir[..i])
      invariant totalSize == Total(fileStats)
    {
      var e := dir[i];
      assert dir[..i + 1][..i] == dir[..i];
      if EndsWith(e.name, ".json") && e.stat.Some? {
        TotalAppend(fileStats, [StatOf(e)]);
        totalSize := totalSize + e.stat.value.size;
        fileStats := fileStats + [StatOf(e)];
      }
      i := i + 1;
    }
    assert dir[..i] == dir;
  }

  /** The second loop: unlink oldest first until the running size fits; failed unlinks are skipped. */
  method EvictOldest(sorted: seq<FileStat>, totalSize: int, maxSize: int, failing: set<string>)
    returns (deleted: seq<FileStat>, currentSize: int)
    ensures deleted == Evict(sorted, totalSize, maxSize, failing)
    ensures currentSize == totalSize - Total(deleted)
  {
    deleted := [];
    currentSize := totalSize;
    var j := 0;
    while j < |sorted| && currentSize > maxSize
      invariant 0 <= j <= |sorted|
      invariant deleted + Evict(sorted[j..], currentSize, maxSize, failing) == Evict(sorted, totalSize, maxSize, failing)
      invariant currentSize == totalSize - Total(deleted)
    {
      var f := sorted[j];
      EvictAdvance(deleted, sorted, j, currentSize, maxSize, failing);
      if f.name !in failing {
        TotalOfPush(deleted, f);
        deleted := deleted + [f];
        currentSize := currentSize - f.size;
      }
      j := j + 1;
    }
    EvictDone(deleted, sorted[j..], currentSize, maxSize, failing);
  }
}
