/**
 * Generic helpers of the media server's utility header: ranking the distinct
 * elements of a range by how often they occur, and clamping a value to a
 * closed interval.
 */
module Utils {

  /** One entry of the occurrence table: an element and how often it was seen. */
  datatype Occurrence<T> = Occurrence(elem: T, count: nat)

  /** The distinct elements of a sequence. */
  function Elements<T>(s: seq<T>): set<T>
  {
    set x | x in s
  }

  /** No element of `s` appears twice. */
  predicate NoDuplicates<T(==)>(s: seq<T>)
  {
    forall i, j :: 0 <= i < j < |s| ==> s[i] != s[j]
  }

  /** The elements of an occurrence table, in table order. */
  function ElemsOf<T>(items: seq<Occurrence<T>>): (r: seq<T>)
    ensures |r| == |items|
    ensures forall i :: 0 <= i < |items| ==> r[i] == items[i].elem
  {
    if items == [] then [] else [items[0].elem] + ElemsOf(items[1..])
  }

  /** Entries are in non-increasing order of their count. */
  ghost predicate SortedByCount<T>(items: seq<Occurrence<T>>)
  {
    forall i, j :: 0 <= i < j < |items| ==> items[i].count >= items[j].count
  }

  /** Every entry records the count the table `counts` holds for its element. */
  ghost predicate AgreesWith<T>(items: seq<Occurrence<T>>, counts: map<T, nat>)
  {
    forall i :: 0 <= i < |items| ==> items[i].elem in counts && items[i].count == counts[items[i].elem]
  }

  /**
   * What uniqueAndSortedByOccurence writes for the range `s`: every distinct
   * element of the range exactly once, nothing else, most frequent first.
   * The order among elements of equal count is left open.
   */
  ghost predicate UniqueByOccurrence<T>(s: seq<T>, out: seq<T>)
  {
    && Elements(out) == Elements(s)
    && NoDuplicates(out)
    && |out| == |Elements(s)|
    && forall i, j :: 0 <= i < j < |out| ==> multiset(s)[out[i]] >= multiset(s)[out[j]]
  }

  /**
   * First loop: a table from each element of the range to its number of
   * occurrences. An element is entered with 0 the first time it is met and
   * incremented on every visit.
   */
  method CountOccurrences<T>(s: seq<T>) returns (counts: map<T, nat>)
    ensures counts.Keys == Elements(s)
    ensures forall x :: x in counts ==> counts[x] == multiset(s)[x]
  {
    counts := map[];
    var i := 0;
    while i < |s|
      invariant 0 <= i <= |s|
      invariant counts.Keys == Elements(s[..i])
      invariant forall x :: x in counts ==> counts[x] == multiset(s[..i])[x]
    {
      assert s[..i + 1] == s[..i] + [s[i]];
      if s[i] !in counts {
        counts := counts[s[i] := 0];
      }
      counts := counts[s[i] := counts[s[i]] + 1];
      i := i + 1;
    }
    assert s[..i] == s;
  }

  /**
   * Second loop: the entries of the table, one per key. The table is walked
   * key by key; which key comes next is left open.
   */
  method CollectOccurrences<T>(counts: map<T, nat>) returns (items: seq<Occurrence<T>>)
    ensures Elements(ElemsOf(items)) == counts.Keys
    ensures NoDuplicates(ElemsOf(items))
    ensures AgreesWith(items, counts)
  {
    items := [];
    var remaining := counts.Keys;
    while remaining != {}
      invariant remaining <= counts.Keys
      invariant Elements(ElemsOf(items)) == counts.Keys - remaining
      invariant NoDuplicates(ElemsOf(items))
      invariant AgreesWith(items, counts)
      decreases remaining
    {
      var k :| k in remaining;
      ghost var before := ElemsOf(items);
      items := items + [Occurrence(k, counts[k])];
      assert ElemsOf(items) == before + [k];
      assert Elements(before + [k]) == Elements(before) + {k};
      remaining := remaining - {k};
    }
  }

  /** Sorts the table in place by count, largest first. Not stable. */
  method SortByCountDescending<T>(a: array<Occurrence<T>>)
    modifies a
    ensures SortedByCount(a[..])
    ensures multiset(a[..]) == old(multiset(a[..]))
  {
    var i := 0;
    while i < a.Length
      invariant 0 <= i <= a.Length
      invariant SortedByCount(a[..i])
      invariant multiset(a[..]) == old(multiset(a[..]))
    {
      InsertIntoSortedPrefix(a, i);
      i := i + 1;
    }
    assert a[..i] == a[..];
  }

  /** Moves `a[i]` left into the sorted prefix `a[..i]`. */
  method InsertIntoSortedPrefix<T>(a: array<Occurrence<T>>, i: nat)
    requires i < a.Length
    requires SortedByCount(a[..i])
    modifies a
    ensures SortedByCount(a[..i + 1])
    ensures multiset(a[..]) == old(multiset(a[..]))
    ensures multiset(a[..i + 1]) == old(multiset(a[..i + 1]))
    ensures a[i + 1..] == old(a[i + 1..])
  {
    ghost var before := a[..];
    var j := SiftLeft(a, i);
    ghost var after := a[..];
    InsertionStopsSorted(after, i, j);
    SameSuffixSamePrefixMultiset(after, before, i + 1);
  }

  /** The insertion loop: moves `a[i]` left while it beats the entry before it. */
  method SiftLeft<T>(a: array<Occurrence<T>>, i: nat) returns (j: nat)
    requires i < a.Length
    requires SortedByCount(a[..i])
    modifies a
    ensures Inserting(a[..], i, j)
    ensures j > 0 ==> a[j - 1].count >= a[j].count
    ensures multiset(a[..]) == old(multiset(a[..]))
    ensures a[i + 1..] == old(a[i + 1..])
  {
    ghost var before := a[..];
    j := i;
    while j > 0 && a[j - 1].count < a[j].count
      invariant Inserting(a[..], i, j)
      invariant multiset(a[..]) == multiset(before)
      invariant a[i + 1..] == before[i + 1..]
    {
      InsertionStep(a[..], i, j);
      SwapAdjacent(a, j);
      j := j - 1;
    }
  }

  /** `s` with its entries at `j - 1` and `j` exchanged. */
  function Swapped<E>(s: seq<E>, j: nat): seq<E>
    requires 0 < j < |s|
  {
    s[j - 1 := s[j]][j := s[j - 1]]
  }

  /**
   * An insertion that has moved the entry starting at `i` down to `j`: the
   * other entries up to `i` are sorted, those before `j` beat those after
   * it, and the moved entry beats every entry after it.
   */
  ghost predicate Inserting<T>(s: seq<Occurrence<T>>, i: nat, j: nat)
  {
    && j <= i < |s|
    && (forall k, l :: 0 <= k < l <= i && k != j && l != j ==> s[k].count >= s[l].count)
    && (forall k, l :: 0 <= k < j < l <= i ==> s[k].count >= s[l].count)
    && (forall l :: j < l <= i ==> s[j].count > s[l].count)
  }

  /**
   * Exchanging the moved entry with a smaller one before it moves the
   * insertion one step left, keeps the entries, and touches nothing after `i`.
   */
  lemma InsertionStep<T>(s: seq<Occurrence<T>>, i: nat, j: nat)
    requires Inserting(s, i, j)
    requires 0 < j && s[j - 1].count < s[j].count
    ensures Inserting(Swapped(s, j), i, j - 1)
    ensures multiset(Swapped(s, j)) == multiset(s)
    ensures Swapped(s, j)[i + 1..] == s[i + 1..]
  {
  }

  /**
   * Where the insertion stops, at `j`, the prefix up to `i` is sorted: the
   * moved entry does not beat the one before it.
   */
  lemma InsertionStopsSorted<T>(s: seq<Occurrence<T>>, i: nat, j: nat)
    requires Inserting(s, i, j)
    requires j > 0 ==> s[j - 1].count >= s[j].count
    ensures SortedByCount(s[..i + 1])
  {
  }

  /** Two permutations of each other that agree from `n` on are permutations of each other up to `n`. */
  lemma SameSuffixSamePrefixMultiset<E>(x: seq<E>, y: seq<E>, n: nat)
    requires n <= |x| == |y|
    requires multiset(x) == multiset(y)
    requires x[n..] == y[n..]
    ensures multiset(x[..n]) == multiset(y[..n])
  {
    assert x == x[..n] + x[n..];
    assert y == y[..n] + y[n..];
    forall e
      ensures multiset(x[..n])[e] == multiset(y[..n])[e]
    {
      assert (multiset(x[..n]) + multiset(x[n..]))[e] == (multiset(y[..n]) + multiset(y[n..]))[e];
    }
  }

  /** Exchanges `a[j - 1]` and `a[j]`. */
  method SwapAdjacent<T>(a: array<Occurrence<T>>, j: nat)
    requires 0 < j < a.Length
    modifies a
    ensures a[..] == Swapped(old(a[..]), j)
  {
    a[j - 1], a[j] := a[j], a[j - 1];
  }

  /**
   * uniqueAndSortedByOccurence: counts the occurrences of each element of the
   * range `s`, collects the (element, count) entries, sorts them by count
   * (largest first) and writes each element once to the output.
   */
  method UniqueAndSortedByOccurrence<T(==)>(s: seq<T>) returns (out: seq<T>)
    ensures UniqueByOccurrence(s, out)
    ensures s == [] ==> out == []
  {
    var counts := CountOccurrences(s);
    var items := CollectOccurrences(counts);
    var a := TableToArray(items);
    SortByCountDescending(a);
    ghost var sorted := a[..];
    assert UniqueByOccurrence(s, ElemsOf(sorted)) by {
      PermutationKeepsEntries(items, sorted, counts);
      RankingFromSortedTable(s, counts, sorted);
    }
    out := WriteElements(a);
  }

  /** The vector the entries are collected into. */
  method TableToArray<T>(items: seq<Occurrence<T>>) returns (a: array<Occurrence<T>>)
    ensures fresh(a) && a[..] == items
  {
    a := new Occurrence<T>[|items|](k requires 0 <= k < |items| => items[k]);
  }

  /** Third loop: writes the element of each entry through the output iterator. */
  method WriteElements<T>(a: array<Occurrence<T>>) returns (out: seq<T>)
    ensures out == ElemsOf(a[..])
  {
    out := [];
    var i := 0;
    while i < a.Length
      invariant 0 <= i <= a.Length
      invariant out == ElemsOf(a[..i])
    {
      assert a[..i + 1] == a[..i] + [a[i]];
      ElemsOfAppend(a[..i], a[i]);
      out := out + [a[i].elem];
      i := i + 1;
    }
    assert a[..i] == a[..];
  }

  /**
   * A table that lists each element of `s` once with its number of
   * occurrences, sorted by count, yields the ranking of `s`.
   */
  lemma RankingFromSortedTable<T>(s: seq<T>, counts: map<T, nat>, sorted: seq<Occurrence<T>>)
    requires counts.Keys == Elements(s)
    requires forall x :: x in counts ==> counts[x] == multiset(s)[x]
    requires Elements(ElemsOf(sorted)) == counts.Keys
    requires NoDuplicates(ElemsOf(sorted))
    requires AgreesWith(sorted, counts)
    requires SortedByCount(sorted)
    ensures UniqueByOccurrence(s, ElemsOf(sorted))
  {
    var out := ElemsOf(sorted);
    DistinctCardinality(out);
    forall k, l | 0 <= k < l < |out|
      ensures multiset(s)[out[k]] >= multiset(s)[out[l]]
    {
      assert sorted[k].count >= sorted[l].count;
    }
  }

  lemma ElemsOfAppend<T>(items: seq<Occurrence<T>>, it: Occurrence<T>)
    ensures ElemsOf(items + [it]) == ElemsOf(items) + [it.elem]
  {
  }

  /**
   * Sorting the table keeps its entries: the sorted table still lists each key
   * of `counts` exactly once, with the count recorded for it.
   */
  lemma PermutationKeepsEntries<T>(items: seq<Occurrence<T>>, sorted: seq<Occurrence<T>>, counts: map<T, nat>)
    requires multiset(sorted) == multiset(items)
    requires Elements(ElemsOf(items)) == counts.Keys
    requires NoDuplicates(ElemsOf(items))
    requires AgreesWith(items, counts)
    ensures Elements(ElemsOf(sorted)) == counts.Keys
    ensures NoDuplicates(ElemsOf(sorted))
    ensures AgreesWith(sorted, counts)
  {
    SameMembers(items, sorted);
    PermutationKeepsElements(items, sorted);
    assert AgreesWith(sorted, counts) by {
      forall i | 0 <= i < |sorted|
        ensures sorted[i].elem in counts && sorted[i].count == counts[sorted[i].elem]
      {
        var j :| 0 <= j < |items| && items[j] == sorted[i];
      }
    }
    // Each element determines its entry, so distinct elements follow from distinct entries.
    assert NoDuplicates(items) by {
      forall i, j | 0 <= i < j < |items| ensures items[i] != items[j] {
        assert ElemsOf(items)[i] != ElemsOf(items)[j];
      }
    }
    PermutationKeepsNoDuplicates(items, sorted);
    forall i, j | 0 <= i < j < |sorted|
      ensures ElemsOf(sorted)[i] != ElemsOf(sorted)[j]
    {
      assert sorted[i] != sorted[j];
      assert sorted[i].count == counts[sorted[i].elem] && sorted[j].count == counts[sorted[j].elem];
    }
  }

  /** A sequence and a permutation of it hold the same members. */
  lemma SameMembers<E>(s: seq<E>, t: seq<E>)
    requires multiset(s) == multiset(t)
    ensures forall i :: 0 <= i < |t| ==> t[i] in s
    ensures forall j :: 0 <= j < |s| ==> s[j] in t
  {
    forall i | 0 <= i < |t|
      ensures t[i] in s
    {
      assert t[i] in multiset(t);
    }
    forall j | 0 <= j < |s|
      ensures s[j] in t
    {
      assert s[j] in multiset(s);
    }
  }

  /** A permutation of a table lists the same elements. */
  lemma PermutationKeepsElements<T>(items: seq<Occurrence<T>>, sorted: seq<Occurrence<T>>)
    requires forall i :: 0 <= i < |sorted| ==> sorted[i] in items
    requires forall j :: 0 <= j < |items| ==> items[j] in sorted
    ensures Elements(ElemsOf(sorted)) == Elements(ElemsOf(items))
  {
  }

  /** A permutation of a sequence without duplicates has none either. */
  lemma PermutationKeepsNoDuplicates<T>(s: seq<T>, t: seq<T>)
    requires multiset(s) == multiset(t)
    requires NoDuplicates(s)
    ensures NoDuplicates(t)
  {
    forall i, j | 0 <= i < j < |t|
      ensures t[i] != t[j]
    {
      if t[i] == t[j] {
        TwiceMeansMultiplicityTwo(t, i, j);
        AtMostOnce(s, t[i]);
        assert false;
      }
    }
  }

  /** An element found at two indices occurs at least twice. */
  lemma TwiceMeansMultiplicityTwo<T>(s: seq<T>, i: nat, j: nat)
    requires i < j < |s| && s[i] == s[j]
    ensures multiset(s)[s[i]] >= 2
  {
    assert s == s[..j] + [s[j]] + s[j + 1..];
    assert s[i] in s[..j];
    assert multiset(s) == multiset(s[..j]) + multiset{s[j]} + multiset(s[j + 1..]);
  }

  /** In a sequence without duplicates every value occurs at most once. */
  lemma {:induction false} AtMostOnce<T>(s: seq<T>, x: T)
    requires NoDuplicates(s)
    ensures multiset(s)[x] <= 1
  {
    if s != [] {
      assert s == [s[0]] + s[1..];
      assert NoDuplicates(s[1..]);
      AtMostOnce(s[1..], x);
      if x == s[0] {
        assert x !in s[1..];
      }
    }
  }

  /** A sequence without duplicates has as many distinct elements as entries. */
  lemma {:induction false} DistinctCardinality<T>(s: seq<T>)
    requires NoDuplicates(s)
    ensures |Elements(s)| == |s|
  {
    if s != [] {
      assert NoDuplicates(s[1..]);
      DistinctCardinality(s[1..]);
      assert Elements(s) == {s[0]} + Elements(s[1..]);
      assert s[0] !in Elements(s[1..]);
    }
  }

  /** The first element written is a most frequent one of the range. */
  lemma MostFrequentFirst<T>(s: seq<T>, out: seq<T>, x: T)
    requires UniqueByOccurrence(s, out)
    requires x in s
    ensures out != [] && multiset(s)[x] <= multiset(s)[out[0]]
  {
    assert x in Elements(s);
    var j :| 0 <= j < |out| && out[j] == x;
    if j > 0 {
      assert multiset(s)[out[0]] >= multiset(s)[out[j]];
    }
  }

  /**
   * Two outputs for the same range hold the same elements: only the order
   * among equally frequent elements may differ.
   */
  lemma OutputsArePermutations<T>(s: seq<T>, out1: seq<T>, out2: seq<T>)
    requires UniqueByOccurrence(s, out1)
    requires UniqueByOccurrence(s, out2)
    ensures multiset(out1) == multiset(out2)
  {
    forall x
      ensures multiset(out1)[x] == multiset(out2)[x]
    {
      AtMostOnce(out1, x);
      AtMostOnce(out2, x);
      assert x in Elements(out1) <==> x in Elements(out2);
    }
  }

  /**
   * clamp: `lo` when `v` comes before `lo`, `hi` when `hi` comes before `v`,
   * otherwise `v` itself, for a comparison `less` that is a strict order and
   * bounds that are not reversed. Returned by value.
   */
  function Clamp<T(!new)>(v: T, lo: T, hi: T, less: (T, T) -> bool): (r: T)
    requires !less(hi, lo)
    requires forall x :: !less(x, x)
    ensures !less(r, lo) && !less(hi, r)
    ensures r == v || r == lo || r == hi
    ensures !less(v, lo) && !less(hi, v) ==> r == v
    ensures less(v, lo) ==> r == lo
    ensures !less(v, lo) && less(hi, v) ==> r == hi
  {
    if less(v, lo) then lo else if less(hi, v) then hi else v
  }

  /** clamp with its default comparison, `<` on integers. */
  function ClampInt(v: int, lo: int, hi: int): (r: int)
    requires lo <= hi
    ensures lo <= r <= hi
    ensures v < lo ==> r == lo
    ensures v > hi ==> r == hi
    ensures lo <= v <= hi ==> r == v
  {
    Clamp(v, lo, hi, (x: int, y: int) => x < y)
  }

  /** Clamping an already clamped value with the same bounds changes nothing. */
  lemma ClampIdempotent<T(!new)>(v: T, lo: T, hi: T, less: (T, T) -> bool)
    requires !less(hi, lo)
    requires forall x :: !less(x, x)
    ensures Clamp(Clamp(v, lo, hi, less), lo, hi, less) == Clamp(v, lo, hi, less)
  {
  }
}
