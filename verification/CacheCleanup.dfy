/** `_cleanup_cache_directory` of app/clients/tts/gpt_sovits.py: the unleased files of the cache are removed
    when they are too old and, oldest first, while the cache is too big. */
module CacheCleanup {

  type Path = string

  datatype FileKind = Regular | Symlink | Other
  datatype File = File(kind: FileKind, size: nat, modified: int)
  datatype Entry = Entry(path: Path, size: nat, modified: int)

  // ----- Sorting -----

  predicate ByAge(entries: seq<Entry>) {
    forall i, j :: 0 <= i < j < |entries| ==> entries[i].modified <= entries[j].modified
  }

  /** `e` goes before the entries that are as old: it stood before them. */
  function Insert(e: Entry, entries: seq<Entry>): seq<Entry> {
    if entries == [] || e.modified <= entries[0].modified then [e] + entries else [entries[0]] + Insert(e, entries[1..])
  }

  /** Python's `sorted` with the age as the key. */
  function SortedByAge(entries: seq<Entry>): seq<Entry> {
    if entries == [] then [] else Insert(entries[0], SortedByAge(entries[1..]))
  }

  lemma {:induction false} InsertCounts(e: Entry, entries: seq<Entry>)
    ensures multiset(Insert(e, entries)) == multiset{e} + multiset(entries)
  {
    if entries != [] && e.modified > entries[0].modified {
      InsertCounts(e, entries[1..]);
      assert entries == [entries[0]] + entries[1..];
    }
  }

  lemma InsertContains(e: Entry, entries: seq<Entry>, i: nat)
    requires i < |Insert(e, entries)|
    ensures Insert(e, entries)[i] == e || Insert(e, entries)[i] in entries
  {
    InsertCounts(e, entries);
    assert Insert(e, entries)[i] in multiset(Insert(e, entries));
  }

  lemma {:induction false} InsertSorts(e: Entry, entries: seq<Entry>)
    requires ByAge(entries)
    ensures ByAge(Insert(e, entries))
  {
    if entries != [] && e.modified > entries[0].modified {
      InsertSorts(e, entries[1..]);
      var rest := Insert(e, entries[1..]);
      forall i | 0 <= i < |rest| ensures entries[0].modified <= rest[i].modified {
        InsertContains(e, entries[1..], i);
      }
    }
  }

  lemma {:induction false} SortSorts(entries: seq<Entry>)
    ensures ByAge(SortedByAge(entries)) && multiset(SortedByAge(entries)) == multiset(entries)
  {
    if entries != [] {
      SortSorts(entries[1..]);
      InsertSorts(entries[0], SortedByAge(entries[1..]));
      InsertCounts(entries[0], SortedByAge(entries[1..]));
      assert entries == [entries[0]] + entries[1..];
    }
  }

  // ----- Sizes -----

  function TotalSize(entries: seq<Entry>): nat {
    if entries == [] then 0 else TotalSize(entries[..|entries| - 1]) + entries[|entries| - 1].size
  }

  lemma TotalAppend(entries: seq<Entry>, e: Entry)
    ensures TotalSize(entries + [e]) == TotalSize(entries) + e.size
  {
    assert (entries + [e])[..|entries|] == entries;
  }

  function Paths(entries: seq<Entry>): set<Path> {
    set e | e in entries :: e.path
  }

  /** The entries that capacity may evict, in their order. */
  function Evictable(entries: seq<Entry>, leased: set<Path>, stuck: set<Path>): seq<Entry> {
    if entries == [] then []
    else
      var before, last := Evictable(entries[..|entries| - 1], leased, stuck), entries[|entries| - 1];
      if last.path in leased || last.path in stuck then before else before + [last]
  }

  lemma EvictableStep(entries: seq<Entry>, i: nat, leased: set<Path>, stuck: set<Path>)
    requires i < |entries|
    ensures Evictable(entries[..i + 1], leased, stuck) ==
            if entries[i].path in leased || entries[i].path in stuck then Evictable(entries[..i], leased, stuck)
            else Evictable(entries[..i], leased, stuck) + [entries[i]]
  {
    assert entries[..i + 1][..i] == entries[..i];
  }

  lemma {:induction false} EvictableExactly(entries: seq<Entry>, leased: set<Path>, stuck: set<Path>, e: Entry)
    ensures e in Evictable(entries, leased, stuck) <==> e in entries && e.path !in leased && e.path !in stuck
  {
    if entries != [] {
      EvictableExactly(entries[..|entries| - 1], leased, stuck, e);
      assert entries == entries[..|entries| - 1] + [entries[|entries| - 1]];
    }
  }

  lemma {:induction false} EvictablePrefix(entries: seq<Entry>, i: nat, leased: set<Path>, stuck: set<Path>)
    requires i <= |entries|
    ensures Evictable(entries[..i], leased, stuck) <= Evictable(entries, leased, stuck)
    decreases |entries| - i
  {
    if i < |entries| {
      EvictableStep(entries, i, leased, stuck);
      EvictablePrefix(entries, i + 1, leased, stuck);
    } else {
      assert entries[..i] == entries;
    }
  }

  /** `evicted` is the shortest prefix of `order` without which the rest fits, or all of it when nothing fits. */
  ghost predicate ShortestFit(order: seq<Entry>, evicted: seq<Entry>, total: nat, maxBytes: nat) {
    && evicted <= order
    && (evicted == order || total - TotalSize(evicted) <= maxBytes)
    && NoneTooMany(evicted, total, maxBytes)
  }

  /** Before each of these evictions the rest did not fit. */
  ghost predicate NoneTooMany(evicted: seq<Entry>, total: nat, maxBytes: nat) {
    forall k: nat :: k < |evicted| ==> total - TotalSize(evicted[..k]) > maxBytes
  }

  lemma OneMore(evicted: seq<Entry>, e: Entry, total: nat, maxBytes: nat)
    requires NoneTooMany(evicted, total, maxBytes) && total - TotalSize(evicted) > maxBytes
    ensures NoneTooMany(evicted + [e], total, maxBytes) && TotalSize(evicted + [e]) == TotalSize(evicted) + e.size
    ensures Paths(evicted + [e]) == Paths(evicted) + {e.path}
  {
    TotalAppend(evicted, e);
    var more := evicted + [e];
    forall k: nat | k < |more| ensures total - TotalSize(more[..k]) > maxBytes {
      assert more[..k] == if k < |evicted| then evicted[..k] else evicted;
    }
  }

  // ----- What remains -----

  predicate Distinct(entries: seq<Entry>) {
    forall i, j :: 0 <= i < j < |entries| ==> entries[i].path != entries[j].path
  }

  function Remaining(entries: seq<Entry>, gone: set<Path>): seq<Entry> {
    if entries == [] then []
    else
      var before, last := Remaining(entries[..|entries| - 1], gone), entries[|entries| - 1];
      if last.path in gone then before else before + [last]
  }

  lemma {:induction false} RemainingExactly(entries: seq<Entry>, gone: set<Path>, e: Entry)
    ensures e in Remaining(entries, gone) <==> e in entries && e.path !in gone
  {
    if entries != [] {
      RemainingExactly(entries[..|entries| - 1], gone, e);
      assert entries == entries[..|entries| - 1] + [entries[|entries| - 1]];
    }
  }

  lemma {:induction false} RemainingDistinct(entries: seq<Entry>, gone: set<Path>)
    requires Distinct(entries)
    ensures Distinct(Remaining(entries, gone))
  {
    if entries != [] {
      var before, last := entries[..|entries| - 1], entries[|entries| - 1];
      RemainingDistinct(before, gone);
      forall e | e in Remaining(before, gone) ensures e.path != last.path {
        RemainingExactly(before, gone, e);
      }
    }
  }

  lemma {:induction false} EvictableDistinct(entries: seq<Entry>, leased: set<Path>, stuck: set<Path>)
    requires Distinct(entries)
    ensures Distinct(Evictable(entries, leased, stuck))
  {
    if entries != [] {
      var before, last := entries[..|entries| - 1], entries[|entries| - 1];
      EvictableDistinct(before, leased, stuck);
      forall e | e in Evictable(before, leased, stuck) ensures e.path != last.path {
        EvictableExactly(before, leased, stuck, e);
      }
    }
  }

  lemma {:induction false} CountDistinct(entries: seq<Entry>, e: Entry)
    requires Distinct(entries)
    ensures multiset(entries)[e] == if e in entries then 1 else 0
  {
    if entries != [] {
      var before, last := entries[..|entries| - 1], entries[|entries| - 1];
      CountDistinct(before, e);
      assert entries == before + [last];
    }
  }

  /** Two sequences with the same elements have the same total size. */
  lemma {:induction false} SameTotal(a: seq<Entry>, b: seq<Entry>)
    requires multiset(a) == multiset(b)
    ensures TotalSize(a) == TotalSize(b)
  {
    if a == [] {
      assert |multiset(b)| == |b|;
    } else {
      var before, last := a[..|a| - 1], a[|a| - 1];
      assert a == before + [last];
      assert last in multiset(a);
      assert last in multiset(b);
      var i :| 0 <= i < |b| && b[i] == last;
      RemoveAt(b, i);
      assert multiset(before) == multiset(a) - multiset{last};
      SameTotal(before, b[..i] + b[i + 1..]);
    }
  }

  lemma RemoveAt(b: seq<Entry>, i: nat)
    requires i < |b|
    ensures var rest := b[..i] + b[i + 1..];
            multiset(rest) == multiset(b) - multiset{b[i]} && TotalSize(b) == TotalSize(rest) + b[i].size
  {
    var front, back := b[..i], b[i + 1..];
    assert b == front + ([b[i]] + back);
    TotalConcat(front, back);
    TotalConcat(front, [b[i]] + back);
    TotalConcat([b[i]], back);
    assert TotalSize([b[i]]) == b[i].size;
    assert multiset(b) == multiset(front) + (multiset{b[i]} + multiset(back));
  }

  lemma {:induction false} TotalConcat(a: seq<Entry>, b: seq<Entry>)
    ensures TotalSize(a + b) == TotalSize(a) + TotalSize(b)
  {
    if b == [] {
      assert a + b == a;
    } else {
      assert (a + b)[..|a + b| - 1] == a + b[..|b| - 1];
      TotalConcat(a, b[..|b| - 1]);
    }
  }

  lemma SortedDistinct(entries: seq<Entry>)
    requires Distinct(entries)
    ensures Distinct(SortedByAge(entries))
  {
    SortSorts(entries);
    var sorted := SortedByAge(entries);
    forall i, j | 0 <= i < j < |sorted| ensures sorted[i].path != sorted[j].path {
      CountDistinct(entries, sorted[i]);
      TwoOccurrences(sorted, i, j);
      assert sorted[i] in multiset(sorted) && sorted[j] in multiset(sorted);
      assert sorted[i] in entries && sorted[j] in entries;
    }
  }

  lemma TwoOccurrences(entries: seq<Entry>, i: nat, j: nat)
    requires i < j < |entries|
    ensures entries[i] == entries[j] ==> multiset(entries)[entries[i]] >= 2
  {
    assert entries == entries[..i] + [entries[i]] + entries[i + 1..j] + [entries[j]] + entries[j + 1..];
  }

  /** The evicted entries and the remaining ones share the total size. */
  lemma SizesAddUp(entries: seq<Entry>, evicted: seq<Entry>)
    requires Distinct(entries) && Distinct(evicted) && forall e :: e in evicted ==> e in entries
    ensures TotalSize(entries) == TotalSize(Remaining(entries, Paths(evicted))) + TotalSize(evicted)
  {
    var kept := Remaining(entries, Paths(evicted));
    RemainingDistinct(entries, Paths(evicted));
    forall e: Entry ensures multiset(entries)[e] == multiset(kept + evicted)[e] {
      CountDistinct(entries, e);
      CountDistinct(kept, e);
      CountDistinct(evicted, e);
      RemainingExactly(entries, Paths(evicted), e);
      assert multiset(kept + evicted) == multiset(kept) + multiset(evicted);
      assert e in evicted ==> e.path in Paths(evicted);
    }
    SameTotal(entries, kept + evicted);
    TotalConcat(kept, evicted);
  }

  /** Once the evictions are done, what remains fits, or nothing that may be evicted is left. */
  lemma FitsOrNothingLeft(entries: seq<Entry>, evicted: seq<Entry>, maxBytes: nat, leased: set<Path>, stuck: set<Path>)
    requires Distinct(entries)
    requires ShortestFit(Evictable(SortedByAge(entries), leased, stuck), evicted, TotalSize(entries), maxBytes)
    ensures var left := Remaining(entries, Paths(evicted));
            TotalSize(left) <= maxBytes || forall e :: e in left ==> e.path in leased || e.path in stuck
    ensures forall e :: e in evicted ==> e in entries && e.path !in leased
  {
    var sorted, left := SortedByAge(entries), Remaining(entries, Paths(evicted));
    var order := Evictable(sorted, leased, stuck);
    SortSorts(entries);
    SortedDistinct(entries);
    EvictableDistinct(sorted, leased, stuck);
    forall e ensures e in order <==> e in entries && e.path !in leased && e.path !in stuck {
      EvictableExactly(sorted, leased, stuck, e);
      assert e in sorted <==> e in multiset(sorted);
      assert e in entries <==> e in multiset(entries);
    }
    forall e | e in evicted ensures e in entries && e.path !in leased {
      assert e in order;
    }
    SizesAddUp(entries, evicted);
    forall e | e in left && evicted == order ensures e.path in leased || e.path in stuck {
      RemainingExactly(entries, Paths(evicted), e);
      assert e in evicted ==> e.path in Paths(evicted);
    }
  }

  // ----- The directory -----

  /** What the run finds: which files cannot be inspected, and which cannot be removed. */
  datatype Faults = Faults(unreadable: set<Path>, stuck: set<Path>)

  class CacheDirectory {
    var files: map<Path, File>

    predicate Expired(path: Path, leased: set<Path>, now: int, ttl: int)
      reads this
    {
      path in files && files[path].kind == Regular && path !in leased && now - files[path].modified > ttl
    }

    /** The first pass removes these: links, and regular files that nobody leases and that are too old. */
    predicate Swept(path: Path, leased: set<Path>, now: int, ttl: int, faults: Faults)
      reads this
    {
      && path in files && path !in faults.unreadable && path !in faults.stuck
      && (files[path].kind == Symlink || Expired(path, leased, now, ttl))
    }

    /** The first pass keeps these as cache entries. */
    predicate Counted(path: Path, leased: set<Path>, now: int, ttl: int, faults: Faults)
      reads this
    {
      && path in files && path !in faults.unreadable && files[path].kind == Regular && !Expired(path, leased, now, ttl)
    }

    method Unlink(path: Path)
      modifies this
      ensures files == old(files) - {path}
    {
      files := files - {path};
    }

    method Sweep(candidates: seq<Path>, ttl: int, now: int, leased: set<Path>, faults: Faults)
      returns (entries: seq<Entry>)
      requires forall i :: 0 <= i < |candidates| ==> candidates[i] in files
      requires forall i, j :: 0 <= i < j < |candidates| ==> candidates[i] != candidates[j]
      modifies this
      ensures forall p :: p in files <==> p in old(files) && !(p in candidates && old(Swept(p, leased, now, ttl, faults)))
      ensures forall p :: p in files ==> files[p] == old(files)[p]
      ensures forall e :: e in entries ==>
        e.path in candidates && old(Counted(e.path, leased, now, ttl, faults))
        && e.path in files && e == Entry(e.path, files[e.path].size, files[e.path].modified)
      ensures forall p :: p in candidates && old(Counted(p, leased, now, ttl, faults)) ==> p in Paths(entries)
      ensures Distinct(entries)
    {
      entries := [];
      for i := 0 to |candidates|
        invariant forall p :: p in files <==>
          p in old(files) && !(p in candidates[..i] && old(Swept(p, leased, now, ttl, faults)))
        invariant forall p :: p in files ==> files[p] == old(files)[p]
        invariant forall e :: e in entries ==>
          e.path in candidates[..i] && old(Counted(e.path, leased, now, ttl, faults))
          && e.path in files && e == Entry(e.path, files[e.path].size, files[e.path].modified)
        invariant forall p :: p in candidates[..i] && old(Counted(p, leased, now, ttl, faults)) ==> p in Paths(entries)
        invariant Distinct(entries)
      {
        var path := candidates[i];
        assert candidates[..i + 1] == candidates[..i] + [path];
        assert path !in candidates[..i];
        if path in faults.unreadable {
          continue;
        }
        if files[path].kind == Symlink {
          if path !in faults.stuck {
            Unlink(path);
          }
          continue;
        }
        if files[path].kind != Regular {
          continue;
        }
        if path !in leased && now - files[path].modified > ttl {
          if path !in faults.stuck {
            Unlink(path);
          }
          continue;
        }
        ghost var fewer := entries;
        entries := entries + [Entry(path, files[path].size, files[path].modified)];
        assert Paths(entries) == Paths(fewer) + {path};
      }
      assert candidates[..|candidates|] == candidates;
    }

    /** Evicts unleased entries, oldest first, until the rest fits. */
    method Evict(entries: seq<Entry>, maxBytes: nat, leased: set<Path>, stuck: set<Path>)
      returns (ghost evicted: seq<Entry>)
      requires forall e :: e in entries ==> e.path in files
      modifies this
      ensures ShortestFit(Evictable(SortedByAge(entries), leased, stuck), evicted, TotalSize(entries), maxBytes)
      ensures files == old(files) - Paths(evicted)
    {
      hide SortedByAge, Evictable, NoneTooMany, Paths, TotalSize;
      evicted := [];
      NothingEvicted(TotalSize(entries), maxBytes);
      var total := Sum(entries);
      var sorted := SortedByAge(entries);
      EvictableStart(sorted, leased, stuck);
      if total <= maxBytes {
        return;
      }
      for i := 0 to |sorted|
        invariant evicted == Evictable(sorted[..i], leased, stuck)
        invariant total == TotalSize(entries) - TotalSize(evicted) && total > maxBytes
        invariant files == old(files) - Paths(evicted)
        invariant NoneTooMany(evicted, TotalSize(entries), maxBytes)
      {
        EvictableStep(sorted, i, leased, stuck);
        var path := sorted[i].path;
        if path in leased || path in stuck {
          continue;
        }
        Unlink(path);
        OneMore(evicted, sorted[i], TotalSize(entries), maxBytes);
        evicted := evicted + [sorted[i]];
        total := total - sorted[i].size;
        if total <= maxBytes {
          EvictablePrefix(sorted, i + 1, leased, stuck);
          return;
        }
      }
      assert sorted[..|sorted|] == sorted;
    }

    lemma NothingEvicted(total: nat, maxBytes: nat)
      ensures NoneTooMany([], total, maxBytes) && TotalSize([]) == 0 && files - Paths([]) == files
    {
    }

    lemma EvictableStart(sorted: seq<Entry>, leased: set<Path>, stuck: set<Path>)
      ensures Evictable(sorted[..0], leased, stuck) == [] && [] <= Evictable(sorted, leased, stuck)
    {
    }

    /** One clean-up of the directory. */
    method Cleanup(candidates: seq<Path>, maxBytes: nat, ttl: int, now: int, leased: set<Path>, faults: Faults)
      returns (ghost entries: seq<Entry>, ghost evicted: seq<Entry>)
      requires forall i :: 0 <= i < |candidates| ==> candidates[i] in files
      requires forall i, j :: 0 <= i < j < |candidates| ==> candidates[i] != candidates[j]
      modifies this
      // The entries are the regular files that are leased or young enough.
      ensures Distinct(entries)
      ensures forall p :: p in Paths(entries) <==> p in candidates && old(Counted(p, leased, now, ttl, faults))
      ensures forall e :: e in entries ==>
        e.path in old(files) && e == Entry(e.path, old(files)[e.path].size, old(files)[e.path].modified)
      // Capacity evicts the shortest oldest-first prefix of the evictable ones that makes the rest fit.
      ensures ShortestFit(Evictable(SortedByAge(entries), leased, faults.stuck), evicted, TotalSize(entries), maxBytes)
      // Nothing else goes, and what stays is unchanged.
      ensures forall p :: p in files <==>
        p in old(files) && p !in Paths(evicted) && !(p in candidates && old(Swept(p, leased, now, ttl, faults)))
      ensures forall p :: p in files ==> files[p] == old(files)[p]
      // Leased regular files are never removed.
      ensures forall p :: p in leased && p in old(files) && old(files)[p].kind == Regular ==> p in files
      // Without faults what remains fits, or is all leased.
      ensures var left := Remaining(entries, Paths(evicted));
              TotalSize(left) <= maxBytes || forall e :: e in left ==> e.path in leased || e.path in faults.stuck
    {
      hide Evictable, SortedByAge, TotalSize, ShortestFit, Remaining;
      entries := [];
      var found := Sweep(candidates, ttl, now, leased, faults);
      entries := found;
      evicted := Evict(found, maxBytes, leased, faults.stuck);
      FitsOrNothingLeft(entries, evicted, maxBytes, leased, faults.stuck);
    }

    static method Sum(entries: seq<Entry>) returns (total: int)
      ensures total == TotalSize(entries)
    {
      total := 0;
      for i := 0 to |entries|
        invariant total == TotalSize(entries[..i])
      {
        assert entries[..i + 1][..i] == entries[..i];
        total := total + entries[i].size;
      }
      assert entries[..|entries|] == entries;
    }
  }
}
