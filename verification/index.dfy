/**
 * The two index shapes built once over each loaded collection: an id -> record map and a
 * parent-id -> children multimap. Both are left folds over the collection in load order,
 * mirroring the single pass of the source's index builder.
 */
module Index {
  import opened Seqs

  /** `i` is the last position in `xs` whose record has the key `key(xs[i])`. */
  ghost predicate IsLastWithKey<T>(xs: seq<T>, key: T -> int, i: int)
  {
    0 <= i < |xs| && forall j :: i < j < |xs| ==> key(xs[j]) != key(xs[i])
  }

  /** No two records of `xs` share a key. */
  ghost predicate UniqueKeys<T>(xs: seq<T>, key: T -> int)
  {
    forall i, j :: 0 <= i < j < |xs| ==> key(xs[i]) != key(xs[j])
  }

  /**
   * The id map: each record, in load order, is stored under its key, overwriting any
   * earlier record with the same key.
   */
  function BuildIdMap<T>(xs: seq<T>, key: T -> int): (m: map<int, T>)
    ensures m.Keys == set x | x in xs :: key(x)
    ensures forall k :: k in m ==> m[k] in xs && key(m[k]) == k
  {
    if |xs| == 0 then map[]
    else
      var init, last := xs[..|xs| - 1], xs[|xs| - 1];
      assert xs == init + [last];
      BuildIdMap(init, key)[key(last) := last]
  }

  /** When several records share a key, the map holds the last of them. */
  lemma {:induction false} IdMapLastWins<T>(xs: seq<T>, key: T -> int, i: int)
    requires IsLastWithKey(xs, key, i)
    ensures key(xs[i]) in BuildIdMap(xs, key)
    ensures BuildIdMap(xs, key)[key(xs[i])] == xs[i]
  {
    var init := xs[..|xs| - 1];
    if i < |xs| - 1 {
      assert IsLastWithKey(init, key, i);
      IdMapLastWins(init, key, i);
    }
  }

  /** With unique keys, looking up the key of any record finds exactly that record. */
  lemma IdMapUnique<T>(xs: seq<T>, key: T -> int, zero: T)
    requires UniqueKeys(xs, key)
    ensures forall i :: 0 <= i < |xs| ==> Find(BuildIdMap(xs, key), key(xs[i]), zero) == (xs[i], true)
  {
    forall i | 0 <= i < |xs|
      ensures Find(BuildIdMap(xs, key), key(xs[i]), zero) == (xs[i], true)
    {
      IdMapLastWins(xs, key, i);
    }
  }

  /** A point lookup in the Go comma-ok style: the stored record and `true`, or `zero` and `false`. */
  function Find<T>(m: map<int, T>, k: int, zero: T): (r: (T, bool))
    ensures r.1 <==> k in m
    ensures r.1 ==> r.0 == m[k]
    ensures !r.1 ==> r.0 == zero
  {
    if k in m then (m[k], true) else (zero, false)
  }

  /**
   * A point lookup in a built id map agrees with the collection: it succeeds exactly when
   * some record has the key, and then returns the last such record; otherwise `zero`.
   */
  lemma FindInIdMap<T>(xs: seq<T>, key: T -> int, k: int, zero: T)
    ensures Find(BuildIdMap(xs, key), k, zero).1 <==> exists i :: 0 <= i < |xs| && key(xs[i]) == k
    ensures Find(BuildIdMap(xs, key), k, zero).1 ==>
      exists i :: IsLastWithKey(xs, key, i) && key(xs[i]) == k && Find(BuildIdMap(xs, key), k, zero).0 == xs[i]
    ensures !Find(BuildIdMap(xs, key), k, zero).1 ==> Find(BuildIdMap(xs, key), k, zero).0 == zero
  {
    var m := BuildIdMap(xs, key);
    if exists i :: 0 <= i < |xs| && key(xs[i]) == k {
      var i := LastIndexWithKey(xs, key, k);
      IdMapLastWins(xs, key, i);
    } else {
      assert forall x :: x in xs ==> key(x) != k;
    }
  }

  /** The position of the last record of `xs` with key `k`. */
  ghost function LastIndexWithKey<T>(xs: seq<T>, key: T -> int, k: int): (i: int)
    requires exists i :: 0 <= i < |xs| && key(xs[i]) == k
    ensures IsLastWithKey(xs, key, i) && key(xs[i]) == k
  {
    if key(xs[|xs| - 1]) == k then |xs| - 1
    else
      var init := xs[..|xs| - 1];
      assert exists i :: 0 <= i < |init| && key(init[i]) == k by {
        var i :| 0 <= i < |xs| && key(xs[i]) == k;
        assert i < |init| && init[i] == xs[i];
      }
      LastIndexWithKey(init, key, k)
  }

  /** The children list of parent `k`; a parent with no entry has an empty list. */
  function Lookup<T>(m: map<int, seq<T>>, k: int): seq<T>
  {
    if k in m then m[k] else []
  }

  /**
   * The children multimap: each record, in load order, is appended to the list of its
   * parent, creating the list on its first child.
   */
  function BuildChildren<T>(xs: seq<T>, parent: T -> int): (m: map<int, seq<T>>)
    ensures m.Keys == set x | x in xs :: parent(x)
    ensures forall k :: k in m ==> |m[k]| > 0
  {
    if |xs| == 0 then map[]
    else
      var init, last := xs[..|xs| - 1], xs[|xs| - 1];
      assert xs == init + [last];
      var m := BuildChildren(init, parent);
      m[parent(last) := Lookup(m, parent(last)) + [last]]
  }

  /**
   * The key property of the index: the children list of any parent is the collection
   * filtered by that parent id, in load order; a parent with no children reads as empty.
   */
  lemma {:induction false} ChildrenAreFilter<T>(xs: seq<T>, parent: T -> int, k: int)
    ensures Lookup(BuildChildren(xs, parent), k) == FilterBy(xs, parent, k)
  {
    if |xs| > 0 {
      ChildrenAreFilter(xs[..|xs| - 1], parent, k);
    }
  }

  /** Every record sits in the list of its own parent, with all its copies, and in no other. */
  lemma ChildrenListsPartition<T>(xs: seq<T>, parent: T -> int, k: int)
    ensures forall x :: x in xs ==>
      multiset(Lookup(BuildChildren(xs, parent), k))[x] == if parent(x) == k then multiset(xs)[x] else 0
    ensures forall x :: x in Lookup(BuildChildren(xs, parent), k) ==> x in xs && parent(x) == k
  {
    ChildrenAreFilter(xs, parent, k);
    var r := FilterBy(xs, parent, k);
    forall x | x in r ensures x in xs && parent(x) == k {
      assert multiset(r)[x] > 0;
    }
  }

  /** No key of `ks` appears twice. */
  predicate Distinct(ks: seq<int>)
  {
    forall i, j :: 0 <= i < j < |ks| ==> ks[i] != ks[j]
  }

  /** The total length of the children lists of the parents listed in `ks`. */
  function SumLengths<T>(m: map<int, seq<T>>, ks: seq<int>): nat
  {
    if |ks| == 0 then 0 else |Lookup(m, ks[0])| + SumLengths(m, ks[1..])
  }

  /** Adding one record to the collection adds one to the total over any parent set holding its parent. */
  lemma {:induction false} SumLengthsStep<T>(xs: seq<T>, parent: T -> int, ks: seq<int>)
    requires |xs| > 0 && Distinct(ks)
    ensures SumLengths(BuildChildren(xs, parent), ks)
         == SumLengths(BuildChildren(xs[..|xs| - 1], parent), ks) + (if parent(xs[|xs| - 1]) in ks then 1 else 0)
  {
    if |ks| > 0 {
      assert Distinct(ks[1..]) by {
        forall i, j | 0 <= i < j < |ks[1..]| ensures ks[1..][i] != ks[1..][j] {
          assert ks[1..][i] == ks[i + 1] && ks[1..][j] == ks[j + 1];
        }
      }
      SumLengthsStep(xs, parent, ks[1..]);
      var p := parent(xs[|xs| - 1]);
      assert p in ks <==> p == ks[0] || p in ks[1..] by {
        assert ks == [ks[0]] + ks[1..];
      }
      assert p == ks[0] ==> p !in ks[1..];
    }
  }

  /**
   * The children lists partition the collection: over any repetition-free list of parents
   * covering every record's parent (such as an enumeration of the multimap's keys), the
   * list lengths add up to the collection length.
   */
  lemma {:induction false} ChildrenLengthsSum<T>(xs: seq<T>, parent: T -> int, ks: seq<int>)
    requires Distinct(ks)
    requires forall i :: 0 <= i < |xs| ==> parent(xs[i]) in ks
    ensures SumLengths(BuildChildren(xs, parent), ks) == |xs|
  {
    if |xs| == 0 {
      SumLengthsOfEmpty(BuildChildren(xs, parent), ks);
    } else {
      SumLengthsStep(xs, parent, ks);
      ChildrenLengthsSum(xs[..|xs| - 1], parent, ks);
    }
  }

  /** Over an empty multimap every total is zero. */
  lemma {:induction false} SumLengthsOfEmpty<T>(m: map<int, seq<T>>, ks: seq<int>)
    requires m == map[]
    ensures SumLengths(m, ks) == 0
  {
    if |ks| > 0 {
      SumLengthsOfEmpty(m, ks[1..]);
    }
  }
}
