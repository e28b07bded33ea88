/**
 * The order in which `for...in` visits the own keys of a plain object
 * (OrdinaryOwnPropertyKeys, section 10.1.11.1 of ECMA-262): first every key
 * that is an array index, in ascending numeric order, then the remaining
 * string keys in the order they were created.
 */
module KeyOrder {

  predicate IsDigit(c: char)
  {
    '0' <= c <= '9'
  }

  predicate AllDigits(s: string)
  {
    forall i :: 0 <= i < |s| ==> IsDigit(s[i])
  }

  /** The number a string of decimal digits denotes. */
  function DecimalValue(s: string): nat
    requires AllDigits(s)
  {
    if s == [] then 0 else DecimalValue(s[..|s| - 1]) * 10 + (s[|s| - 1] as int - '0' as int)
  }

  /** The largest array index, 2^32 - 2. */
  const MaxArrayIndex: nat := 4294967294

  /**
   * A key that is an array index: the canonical decimal numeral (no sign,
   * no leading zero) of a number no larger than 2^32 - 2.
   */
  predicate IsArrayIndex(k: string)
  {
    |k| > 0 && AllDigits(k) && (k[0] != '0' || |k| == 1) && DecimalValue(k) <= MaxArrayIndex
  }

  /** The numeric position of an array-index key (other keys are not ranked). */
  function Rank(k: string): nat
  {
    if IsArrayIndex(k) then DecimalValue(k) else 0
  }

  predicate SortedByRank(s: seq<string>)
  {
    forall i, j :: 0 <= i < j < |s| ==> Rank(s[i]) <= Rank(s[j])
  }

  /** The array-index keys, in creation order. */
  function IndexKeys(order: seq<string>): (r: seq<string>)
    ensures forall i :: 0 <= i < |r| ==> IsArrayIndex(r[i])
  {
    if order == [] then []
    else (if IsArrayIndex(order[0]) then [order[0]] else []) + IndexKeys(order[1..])
  }

  /** The other keys, in creation order. */
  function NamedKeys(order: seq<string>): (r: seq<string>)
    ensures forall i :: 0 <= i < |r| ==> !IsArrayIndex(r[i])
  {
    if order == [] then []
    else (if IsArrayIndex(order[0]) then [] else [order[0]]) + NamedKeys(order[1..])
  }

  lemma {:induction false} SplitKeys(order: seq<string>)
    ensures multiset(IndexKeys(order)) + multiset(NamedKeys(order)) == multiset(order)
  {
    if order != [] {
      SplitKeys(order[1..]);
      assert order == [order[0]] + order[1..];
    }
  }

  /** Insertion of one key into a sequence sorted by rank. */
  function Insert(k: string, s: seq<string>): (r: seq<string>)
    ensures multiset(r) == multiset(s) + multiset{k}
  {
    if s == [] || Rank(k) <= Rank(s[0]) then [k] + s
    else
      assert s == [s[0]] + s[1..];
      [s[0]] + Insert(k, s[1..])
  }

  /** A bound below the key and every element of `s` stays below every element after insertion. */
  lemma {:induction false} InsertAbove(k: string, s: seq<string>, bound: nat)
    requires bound <= Rank(k)
    requires forall i :: 0 <= i < |s| ==> bound <= Rank(s[i])
    ensures forall i :: 0 <= i < |Insert(k, s)| ==> bound <= Rank(Insert(k, s)[i])
  {
    if s != [] && Rank(k) > Rank(s[0]) {
      InsertAbove(k, s[1..], bound);
      var r := Insert(k, s);
      forall i | 0 <= i < |r| ensures bound <= Rank(r[i]) {
        if i > 0 {
          assert r[i] == Insert(k, s[1..])[i - 1];
        }
      }
    }
  }

  /** The tail of a sorted sequence is sorted, and bounded below by its head. */
  lemma SortedTail(s: seq<string>)
    requires s != [] && SortedByRank(s)
    ensures SortedByRank(s[1..])
    ensures forall i :: 0 <= i < |s[1..]| ==> Rank(s[0]) <= Rank(s[1..][i])
  {
    forall i | 0 <= i < |s[1..]| ensures Rank(s[0]) <= Rank(s[1..][i]) {
      assert s[1..][i] == s[i + 1];
    }
    forall i, j | 0 <= i < j < |s[1..]| ensures Rank(s[1..][i]) <= Rank(s[1..][j]) {
      assert s[1..][i] == s[i + 1] && s[1..][j] == s[j + 1];
    }
  }

  /** A key no higher than every element of a sorted sequence can head it. */
  lemma ConsSorted(x: string, rest: seq<string>)
    requires SortedByRank(rest)
    requires forall i :: 0 <= i < |rest| ==> Rank(x) <= Rank(rest[i])
    ensures SortedByRank([x] + rest)
  {
    var r := [x] + rest;
    forall i, j | 0 <= i < j < |r| ensures Rank(r[i]) <= Rank(r[j]) {
      assert r[j] == rest[j - 1];
      if i > 0 {
        assert r[i] == rest[i - 1];
      }
    }
  }

  lemma {:induction false} InsertSorted(k: string, s: seq<string>)
    requires SortedByRank(s)
    ensures SortedByRank(Insert(k, s))
  {
    if s != [] && Rank(k) > Rank(s[0]) {
      SortedTail(s);
      InsertSorted(k, s[1..]);
      InsertAbove(k, s[1..], Rank(s[0]));
      ConsSorted(s[0], Insert(k, s[1..]));
    } else {
      ConsSorted(k, s);
    }
  }

  /** Insertion sort by rank. */
  function Sort(s: seq<string>): (r: seq<string>)
    ensures multiset(r) == multiset(s)
  {
    if s == [] then []
    else
      assert s == [s[0]] + s[1..];
      Insert(s[0], Sort(s[1..]))
  }

  lemma {:induction false} SortSorted(s: seq<string>)
    ensures SortedByRank(Sort(s))
  {
    if s != [] {
      SortSorted(s[1..]);
      InsertSorted(s[0], Sort(s[1..]));
    }
  }

  /** The `for...in` visiting order of the keys created in the order `order`. */
  function ScanOrder(order: seq<string>): (r: seq<string>)
    ensures multiset(r) == multiset(order)
  {
    SplitKeys(order);
    Sort(IndexKeys(order)) + NamedKeys(order)
  }

  /** The scan visits exactly the keys created. */
  lemma ScanSameKeys(order: seq<string>)
    ensures forall k :: k in ScanOrder(order) <==> k in order
  {
    forall k ensures k in ScanOrder(order) <==> k in order {
      assert k in ScanOrder(order) <==> k in multiset(ScanOrder(order));
      assert k in order <==> k in multiset(order);
    }
  }

  lemma NamedKeysAppend(a: seq<string>, b: seq<string>)
    ensures NamedKeys(a + b) == NamedKeys(a) + NamedKeys(b)
    decreases |a|
  {
    if a == [] {
      assert a + b == b;
    } else {
      assert (a + b)[1..] == a[1..] + b;
      NamedKeysAppend(a[1..], b);
    }
  }

  lemma {:induction false} NamedKeysOfIndices(s: seq<string>)
    requires forall i :: 0 <= i < |s| ==> IsArrayIndex(s[i])
    ensures NamedKeys(s) == []
  {
    if s != [] {
      NamedKeysOfIndices(s[1..]);
    }
  }

  lemma {:induction false} NamedKeysOfNamed(s: seq<string>)
    requires forall i :: 0 <= i < |s| ==> !IsArrayIndex(s[i])
    ensures NamedKeys(s) == s
  {
    if s != [] {
      NamedKeysOfNamed(s[1..]);
      assert s == [s[0]] + s[1..];
    }
  }

  lemma {:induction false} IndexKeysOfNamed(s: seq<string>)
    requires forall i :: 0 <= i < |s| ==> !IsArrayIndex(s[i])
    ensures IndexKeys(s) == []
  {
    if s != [] {
      IndexKeysOfNamed(s[1..]);
    }
  }

  /**
   * Array-index keys come first, in ascending numeric order: no key is
   * visited before an array index unless it is a smaller array index.
   */
  lemma ScanVisitsIndicesFirst(order: seq<string>)
    ensures var r := ScanOrder(order);
      forall i, j :: 0 <= i < j < |r| && IsArrayIndex(r[j]) ==> IsArrayIndex(r[i]) && Rank(r[i]) <= Rank(r[j])
  {
    var sorted := Sort(IndexKeys(order));
    var named := NamedKeys(order);
    var r := ScanOrder(order);
    SortSorted(IndexKeys(order));
    assert r == sorted + named;
    forall x | x in sorted ensures IsArrayIndex(x) {
      assert x in multiset(sorted);
      assert x in multiset(IndexKeys(order));
      var j :| 0 <= j < |IndexKeys(order)| && IndexKeys(order)[j] == x;
    }
    forall i, j | 0 <= i < j < |r| && IsArrayIndex(r[j]) ensures IsArrayIndex(r[i]) && Rank(r[i]) <= Rank(r[j]) {
      assert j < |sorted|;
      assert r[i] == sorted[i] && r[j] == sorted[j];
      assert sorted[i] in sorted;
    }
  }

  /** The other keys keep their creation order. */
  lemma ScanKeepsNamedOrder(order: seq<string>)
    ensures NamedKeys(ScanOrder(order)) == NamedKeys(order)
  {
    var sorted := Sort(IndexKeys(order));
    forall i | 0 <= i < |sorted| ensures IsArrayIndex(sorted[i]) {
      assert sorted[i] in multiset(sorted);
      assert sorted[i] in multiset(IndexKeys(order));
    }
    NamedKeysAppend(sorted, NamedKeys(order));
    NamedKeysOfIndices(sorted);
    NamedKeysOfNamed(NamedKeys(order));
  }

  /** Without array-index keys the visiting order is the creation order. */
  lemma ScanOfNamedKeys(order: seq<string>)
    requires forall i :: 0 <= i < |order| ==> !IsArrayIndex(order[i])
    ensures ScanOrder(order) == order
  {
    IndexKeysOfNamed(order);
    NamedKeysOfNamed(order);
  }

  /** A single key is visited alone. */
  lemma ScanOfOne(k: string)
    ensures ScanOrder([k]) == [k]
  {
    var r := ScanOrder([k]);
    assert |multiset(r)| == 1;
    assert r[0] in multiset(r);
  }

  /** Of two keys, an array index created after a named key is visited first. */
  lemma IndexOvertakesNamed(named: string, index: string)
    requires !IsArrayIndex(named) && IsArrayIndex(index)
    ensures ScanOrder([named, index]) == [index, named]
  {
    var order := [named, index];
    assert order[1..] == [index] && [index][1..] == [];
    assert IndexKeys([index]) == [index] && NamedKeys([index]) == [];
    assert IndexKeys(order) == [index];
    assert NamedKeys(order) == [named];
    assert Sort([index]) == Insert(index, Sort([])) == [index];
  }

  /** "7" is a canonical array index. */
  lemma SevenIsIndex()
    ensures IsArrayIndex("7")
  {
    assert "7"[..0] == [];
    assert DecimalValue("7") == 7;
  }

  /** A key created later but numeric is visited first: "7" before "abc". */
  lemma NumericKeyVisitedFirst()
    ensures ScanOrder(["abc", "7"]) == ["7", "abc"]
  {
    assert !IsDigit("abc"[0]);
    SevenIsIndex();
    IndexOvertakesNamed("abc", "7");
  }
}
