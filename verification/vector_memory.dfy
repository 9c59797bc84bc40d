/**
  The per-group conversation memory: each group keeps a list of remembered
  messages with their embedding vectors, loaded lazily from one file per
  group, capped at the 500 most recent, and searched by similarity to a
  query. The embedding service and the similarity measure are parameters:
  `vector` is what the embedding call returned (`None` when it failed) and
  `sim` scores a query vector against a stored one.
*/
module VectorMemory {
  import opened Wrappers
  import opened Js
  import Text

  type Vector = seq<real>

  /** One remembered message. */
  datatype Memory = Memory(text: string, role: string, vector: Vector, timestamp: int)

  /** What a group's file holds: missing, blank, not parseable, or a stored list. */
  datatype StoredFile = Blank | Garbled | Stored(entries: seq<Memory>)

  /** The most entries a group keeps. */
  const Capacity: nat := 500

  /** Messages shorter than this many UTF-16 code units (`text.length`) are not remembered. */
  const MinLength: nat := 5

  /** The relevance threshold of a search. */
  const Threshold: real := 0.4

  /** The file of a group: its id as text, so `1` and `"1"` share a file. */
  function FileName(g: Scalar): (r: string)
    ensures |r| >= 5 && r[|r| - 5..] == ".json"
  {
    var r := ScalarText(g) + ".json";
    assert r[|r| - 5..] == ".json";
    r
  }

  /** What reading a group's file yields: its list, or empty when it is missing, blank or unparsable. */
  function FromFile(files: map<string, StoredFile>, g: Scalar): (r: seq<Memory>)
    ensures r != [] ==> FileName(g) in files && files[FileName(g)] == Stored(r)
  {
    var name := FileName(g);
    if name !in files then []
    else match files[name]
      case Stored(es) => es
      case _ => []
  }

  /** `loadGroupMemory` as a value: the cached list if there is one, else the file's. */
  function Cached(memories: map<Scalar, seq<Memory>>, files: map<string, StoredFile>, g: Scalar): (r: seq<Memory>)
    ensures g in memories ==> r == memories[g]
    ensures g !in memories ==> r == FromFile(files, g)
  {
    if g in memories then memories[g] else FromFile(files, g)
  }

  // ------------------------------------------------------------ the bounded list

  /** Append `e`, then drop the oldest entry if the list is over capacity. */
  function Appended(list: seq<Memory>, e: Memory): (r: seq<Memory>)
    ensures |r| >= 1 && r[|r| - 1] == e
    ensures |r| <= |list| + 1 && r == (list + [e])[|list| + 1 - |r|..]
    ensures |list| <= Capacity ==> |r| <= Capacity
    ensures |list| < Capacity ==> r == list + [e]
  {
    var grown := list + [e];
    if |grown| > Capacity then grown[1..] else grown
  }

  /** The newest `Capacity` entries of a list. */
  function Window(s: seq<Memory>): (r: seq<Memory>)
  {
    if |s| <= Capacity then s else s[|s| - Capacity..]
  }

  /** Adding several entries one by one, oldest first. */
  function AddAll(list: seq<Memory>, es: seq<Memory>): seq<Memory>
  {
    if es == [] then list else Appended(AddAll(list, es[..|es| - 1]), es[|es| - 1])
  }

  /**
    From a list within capacity, any sequence of adds leaves exactly the
    `Capacity` newest entries, in order: a sliding window over the history.
  */
  lemma {:induction false} AddAllIsWindow(list: seq<Memory>, es: seq<Memory>)
    requires |list| <= Capacity
    ensures AddAll(list, es) == Window(list + es)
  {
    if es == [] {
      assert list + es == list;
    } else {
      var p := es[..|es| - 1];
      var e := es[|es| - 1];
      AddAllIsWindow(list, p);
      var w := Window(list + p);
      assert list + es == (list + p) + [e];
      if |list + p| < Capacity {
        assert Appended(w, e) == (list + p) + [e];
      } else {
        var all := list + es;
        assert |w| == Capacity;
        assert w[1..] + [e] == all[|all| - Capacity..];
      }
    }
  }

  // ------------------------------------------------------------ search

  /** A scored entry. */
  datatype Hit = Hit(text: string, role: string, timestamp: int, score: real)

  /** Every entry with its similarity to the query vector. */
  function Scored(memory: seq<Memory>, query: Vector, sim: (Vector, Vector) -> real): (r: seq<Hit>)
    ensures |r| == |memory|
    ensures forall i :: 0 <= i < |r| ==>
              r[i] == Hit(memory[i].text, memory[i].role, memory[i].timestamp, sim(query, memory[i].vector))
  {
    if memory == [] then []
    else [Hit(memory[0].text, memory[0].role, memory[0].timestamp, sim(query, memory[0].vector))]
         + Scored(memory[1..], query, sim)
  }

  predicate Relevant(h: Hit, queryText: string)
  {
    h.score > Threshold && h.text != queryText
  }

  /** The entries above the threshold that do not repeat the query, in order. */
  function Filtered(hits: seq<Hit>, queryText: string): (r: seq<Hit>)
    ensures |r| <= |hits|
    ensures forall h :: h in r <==> h in hits && Relevant(h, queryText)
  {
    if hits == [] then []
    else
      var rest := Filtered(hits[1..], queryText);
      assert forall h :: h in hits <==> h == hits[0] || h in hits[1..];
      if Relevant(hits[0], queryText) then [hits[0]] + rest else rest
  }

  predicate SortedDesc(hs: seq<Hit>)
  {
    forall i, j :: 0 <= i < j < |hs| ==> hs[i].score >= hs[j].score
  }

  /** Every entry scores at most `m`. */
  predicate NotAbove(m: real, hs: seq<Hit>)
  {
    forall k :: 0 <= k < |hs| ==> hs[k].score <= m
  }

  /** Insert before the first entry that does not score higher, so earlier equals stay first. */
  function InsertDesc(h: Hit, hs: seq<Hit>): (r: seq<Hit>)
    ensures multiset(r) == multiset(hs) + multiset{h}
    ensures |r| == |hs| + 1
  {
    if hs == [] then [h]
    else if hs[0].score <= h.score then [h] + hs
    else
      assert hs == [hs[0]] + hs[1..];
      [hs[0]] + InsertDesc(h, hs[1..])
  }

  lemma {:induction false} InsertDescNotAbove(m: real, h: Hit, hs: seq<Hit>)
    requires h.score <= m && NotAbove(m, hs)
    ensures NotAbove(m, InsertDesc(h, hs))
  {
    if hs != [] && hs[0].score > h.score {
      InsertDescNotAbove(m, h, hs[1..]);
    }
  }

  lemma {:induction false} InsertDescSorted(h: Hit, hs: seq<Hit>)
    requires SortedDesc(hs)
    ensures SortedDesc(InsertDesc(h, hs))
  {
    if hs != [] {
      if hs[0].score <= h.score {
        var r := [h] + hs;
        forall i, j | 0 <= i < j < |r| ensures r[i].score >= r[j].score {
          if i == 0 && j > 1 {
            assert hs[0].score >= hs[j - 1].score;
          }
        }
      } else {
        var rest := InsertDesc(h, hs[1..]);
        InsertDescSorted(h, hs[1..]);
        InsertDescNotAbove(hs[0].score, h, hs[1..]);
        var r := [hs[0]] + rest;
        forall i, j | 0 <= i < j < |r| ensures r[i].score >= r[j].score {
          if i > 0 {
            assert r[i] == rest[i - 1] && r[j] == rest[j - 1];
          } else {
            assert r[j] == rest[j - 1];
          }
        }
      }
    }
  }

  /** `sort((a, b) => b.score - a.score)`: highest score first, a permutation of the input. */
  function SortByScore(hs: seq<Hit>): (r: seq<Hit>)
    ensures SortedDesc(r)
    ensures multiset(r) == multiset(hs)
    ensures |r| == |hs|
  {
    if hs == [] then []
    else
      assert hs == [hs[0]] + hs[1..];
      var rest := SortByScore(hs[1..]);
      InsertDescSorted(hs[0], rest);
      InsertDesc(hs[0], rest)
  }

  /** How many entries `slice(0, limit)` keeps of `n`: a negative limit counts from the end. */
  function SliceLength(n: nat, limit: int): (r: nat)
    ensures r <= n
    ensures 0 <= limit ==> r == if limit < n then limit else n
    ensures limit < 0 ==> r == if n + limit > 0 then n + limit else 0
  {
    if limit >= 0 then (if limit < n then limit else n)
    else if n + limit > 0 then n + limit else 0
  }

  /** The ranking of `search` over a loaded list. */
  function Rank(memory: seq<Memory>, queryText: string, query: Vector, limit: int,
                sim: (Vector, Vector) -> real): (r: seq<Hit>)
    ensures memory == [] ==> r == []
  {
    if memory == [] then []
    else
      var sorted := SortByScore(Filtered(Scored(memory, query, sim), queryText));
      sorted[..SliceLength(|sorted|, limit)]
  }

  /** Every result is a stored entry scored against the query, above the threshold and not the query itself. */
  lemma RankSound(memory: seq<Memory>, queryText: string, query: Vector, limit: int,
                  sim: (Vector, Vector) -> real)
    ensures forall h :: h in Rank(memory, queryText, query, limit, sim) ==>
              h.score > Threshold && h.text != queryText
              && exists m :: m in memory && h == Hit(m.text, m.role, m.timestamp, sim(query, m.vector))
  {
    if memory != [] {
      var scored := Scored(memory, query, sim);
      var sorted := SortByScore(Filtered(scored, queryText));
      forall h | h in Rank(memory, queryText, query, limit, sim)
        ensures h.score > Threshold && h.text != queryText
        ensures exists m :: m in memory && h == Hit(m.text, m.role, m.timestamp, sim(query, m.vector))
      {
        assert h in sorted;
        assert h in multiset(sorted);
        assert h in scored;
        var i :| 0 <= i < |scored| && scored[i] == h;
        assert memory[i] in memory;
      }
    }
  }

  /** The results come highest score first and number at most `limit`. */
  lemma RankOrderedAndBounded(memory: seq<Memory>, queryText: string, query: Vector, limit: int,
                              sim: (Vector, Vector) -> real)
    ensures var r := Rank(memory, queryText, query, limit, sim);
            SortedDesc(r) && (0 <= limit ==> |r| <= limit)
  {
  }

  /** In a sorted list, every entry of a prefix scores at least as high as every entry after it. */
  lemma SortedPrefixHigher(sorted: seq<Hit>, n: nat)
    requires SortedDesc(sorted) && n <= |sorted|
    ensures forall a, b :: a in sorted[..n] && b in sorted[n..] ==> a.score >= b.score
  {
    forall a, b | a in sorted[..n] && b in sorted[n..] ensures a.score >= b.score {
      var i :| 0 <= i < n && sorted[..n][i] == a;
      var j :| 0 <= j < |sorted| - n && sorted[n..][j] == b;
      assert sorted[i] == a && sorted[n + j] == b;
    }
  }

  /**
    The results are the best relevant entries: any relevant entry that did not
    make the cut scores no higher than any that did, and when the limit is no
    smaller than the number of relevant entries every one of them is returned.
  */
  lemma RankTop(memory: seq<Memory>, queryText: string, query: Vector, limit: int,
                sim: (Vector, Vector) -> real)
    requires memory != []
    ensures var relevant := Filtered(Scored(memory, query, sim), queryText);
            var sorted := SortByScore(relevant);
            var r := Rank(memory, queryText, query, limit, sim);
            r == sorted[..|r|]
            && (forall a, b :: a in r && b in sorted[|r|..] ==> a.score >= b.score)
            && (limit >= |relevant| ==> multiset(r) == multiset(relevant))
  {
    var relevant := Filtered(Scored(memory, query, sim), queryText);
    var sorted := SortByScore(relevant);
    var n := SliceLength(|sorted|, limit);
    SortedPrefixHigher(sorted, n);
    if limit >= |relevant| {
      assert sorted[..n] == sorted;
    }
  }

  // ------------------------------------------------------------ the service

  class MemoryStore {
    /** The loaded lists, by group. */
    var memories: map<Scalar, seq<Memory>>
    /** The group files, by file name. */
    var files: map<string, StoredFile>

    constructor (onDisk: map<string, StoredFile>)
      ensures memories == map[] && files == onDisk
    {
      memories := map[];
      files := onDisk;
    }

    /** `loadGroupMemory`: the cached list, or the file's list, which is then cached. */
    method LoadGroupMemory(g: Scalar) returns (memory: seq<Memory>)
      modifies this
      ensures memory == Cached(old(memories), old(files), g)
      ensures memories == old(memories)[g := memory]
      ensures files == old(files)
    {
      if g in memories {
        memory := memories[g];
        return;
      }
      memory := FromFile(files, g);
      memories := memories[g := memory];
    }

    /** `saveGroupMemory`: write the group's list to its file, if it has one loaded. */
    method SaveGroupMemory(g: Scalar)
      modifies this
      ensures memories == old(memories)
      ensures g in memories ==> files == old(files)[FileName(g) := Stored(memories[g])]
      ensures g !in memories ==> files == old(files)
    {
      if g in memories {
        files := files[FileName(g) := Stored(memories[g])];
      }
    }

    /**
      `addMemory`: a message shorter than five UTF-16 code units, or one without an
      embedding, changes nothing; otherwise it is appended to the group's list,
      the oldest entry is dropped beyond capacity, and the list is saved.
    */
    method AddMemory(g: Scalar, text: string, role: string, vector: Option<Vector>, now: int)
      modifies this
      ensures Text.Utf16Length(text) < MinLength || vector.None? ==> memories == old(memories) && files == old(files)
      ensures Text.Utf16Length(text) >= MinLength && vector.Some? ==>
                var list := Appended(Cached(old(memories), old(files), g), Memory(text, role, vector.value, now));
                memories == old(memories)[g := list]
                && files == old(files)[FileName(g) := Stored(list)]
    {
      if Text.Utf16Length(text) < MinLength {
        return;
      }
      if vector.None? {
        return;
      }
      ghost var before := Cached(memories, files, g);
      var entry := Memory(text, role, vector.value, now);
      var memory := LoadGroupMemory(g);
      memory := memory + [entry];
      if |memory| > Capacity {
        memory := memory[1..];
      }
      assert memory == Appended(before, entry);
      memories := memories[g := memory];
      SaveGroupMemory(g);
    }

    /**
      `search`: nothing without a query vector (and nothing is loaded then);
      otherwise the group's list is loaded and ranked.
    */
    method Search(g: Scalar, queryText: string, query: Option<Vector>, limit: int,
                  sim: (Vector, Vector) -> real) returns (r: seq<Hit>)
      modifies this
      ensures query.None? ==> r == [] && memories == old(memories)
      ensures query.Some? ==>
                r == Rank(Cached(old(memories), old(files), g), queryText, query.value, limit, sim)
                && memories == old(memories)[g := Cached(old(memories), old(files), g)]
      ensures files == old(files)
    {
      if query.None? {
        return [];
      }
      var memory := LoadGroupMemory(g);
      if |memory| == 0 {
        return [];
      }
      r := Rank(memory, queryText, query.value, limit, sim);
    }
  }

  /** What was saved is what a later load reads back, for the same group id or any with the same text. */
  lemma SaveThenLoad(files: map<string, StoredFile>, g: Scalar, h: Scalar, list: seq<Memory>)
    requires ScalarText(g) == ScalarText(h)
    ensures FromFile(files[FileName(g) := Stored(list)], h) == list
  {
  }

  /** A group whose list stays within capacity keeps within it after an add. */
  lemma AddKeepsCapacity(memories: map<Scalar, seq<Memory>>, files: map<string, StoredFile>, g: Scalar, e: Memory)
    requires |Cached(memories, files, g)| <= Capacity
    ensures |Appended(Cached(memories, files, g), e)| <= Capacity
    ensures Appended(Cached(memories, files, g), e)[|Appended(Cached(memories, files, g), e)| - 1] == e
  {
  }
}
