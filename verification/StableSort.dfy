// sort.SliceStable, as an order-preserving insertion sort on an integer key.
module StableSort {
  function InsertByKey<T>(s: seq<T>, x: T, key: T -> int): seq<T> {
    if s == [] then [x]
    else if key(s[|s| - 1]) <= key(x) then s + [x]
    else InsertByKey(s[..|s| - 1], x, key) + [s[|s| - 1]]
  }

  function Sorted<T>(s: seq<T>, key: T -> int): seq<T> {
    if s == [] then [] else InsertByKey(Sorted(s[..|s| - 1], key), s[|s| - 1], key)
  }

  ghost predicate Ascending<T>(s: seq<T>, key: T -> int) {
    forall i, j | 0 <= i < j < |s| :: key(s[i]) <= key(s[j])
  }

  // The elements of s that carry key k, in their order of appearance.
  ghost function WithKey<T>(s: seq<T>, key: T -> int, k: int): seq<T> {
    if s == [] then []
    else WithKey(s[..|s| - 1], key, k) + (if key(s[|s| - 1]) == k then [s[|s| - 1]] else [])
  }

  lemma SamePlusOne<T>(a: seq<T>, b: seq<T>, x: T)
    requires multiset(a) == multiset(b)
    ensures multiset(a + [x]) == multiset(b + [x])
  {
  }

  lemma SplitLast<T>(s: seq<T>)
    requires s != []
    ensures s == s[..|s| - 1] + [s[|s| - 1]]
  {
  }

  // A new element ends up before or after the last one.
  lemma SwapLast<T>(init: seq<T>, last: T, x: T)
    ensures multiset(init + [x] + [last]) == multiset(init + [last] + [x])
  {
  }

  lemma {:induction false} InsertPermutes<T>(s: seq<T>, x: T, key: T -> int)
    ensures multiset(InsertByKey(s, x, key)) == multiset(s + [x])
  {
    if s != [] && key(s[|s| - 1]) > key(x) {
      var n := |s| - 1;
      InsertPermutes(s[..n], x, key);
      SamePlusOne(InsertByKey(s[..n], x, key), s[..n] + [x], s[n]);
      SwapLast(s[..n], s[n], x);
      SplitLast(s);
    }
  }

  // `top` bounds every key of the result.
  lemma {:induction false} InsertAscending<T>(s: seq<T>, x: T, key: T -> int, top: int)
    requires Ascending(s, key) && key(x) <= top
    requires s != [] ==> key(s[|s| - 1]) <= top
    ensures Ascending(InsertByKey(s, x, key), key)
    ensures forall i | 0 <= i < |InsertByKey(s, x, key)| :: key(InsertByKey(s, x, key)[i]) <= top
  {
    if s != [] {
      var n := |s| - 1;
      if key(s[n]) > key(x) {
        if n > 0 {
          assert key(s[n - 1]) <= key(s[n]);
        }
        InsertAscending(s[..n], x, key, key(s[n]));
      }
    }
  }

  lemma {:induction false} InsertKeepsOrder<T>(s: seq<T>, x: T, key: T -> int, k: int)
    requires Ascending(s, key)
    ensures WithKey(InsertByKey(s, x, key), key, k) == WithKey(s, key, k) + (if key(x) == k then [x] else [])
  {
    if s == [] {
      assert [x][..0] == [];
    } else {
      var n := |s| - 1;
      if key(s[n]) <= key(x) {
        assert (s + [x])[..|s|] == s;
      } else {
        InsertKeepsOrder(s[..n], x, key, k);
        var r := InsertByKey(s[..n], x, key);
        assert (r + [s[n]])[..|r|] == r;
        if key(x) == k {
          WithKeyAbsent(s, key, k, n);
        }
      }
    }
  }

  lemma WithKeyAbsent<T>(s: seq<T>, key: T -> int, k: int, n: nat)
    requires n == |s| - 1 && key(s[n]) > k
    ensures WithKey(s, key, k) == WithKey(s[..n], key, k)
  {
  }

  lemma {:induction false} SortedAscending<T>(s: seq<T>, key: T -> int)
    ensures Ascending(Sorted(s, key), key)
  {
    if s != [] {
      var n := |s| - 1;
      var rest := Sorted(s[..n], key);
      SortedAscending(s[..n], key);
      InsertAscending(rest, s[n], key,
                      if rest == [] || key(rest[|rest| - 1]) < key(s[n]) then key(s[n]) else key(rest[|rest| - 1]));
    }
  }

  lemma {:induction false} SortedPermutes<T>(s: seq<T>, key: T -> int)
    ensures multiset(Sorted(s, key)) == multiset(s)
  {
    if s != [] {
      var n := |s| - 1;
      SortedPermutes(s[..n], key);
      InsertPermutes(Sorted(s[..n], key), s[n], key);
      SamePlusOne(Sorted(s[..n], key), s[..n], s[n]);
      SplitLast(s);
    }
  }

  // Elements with equal keys keep their order, which makes the result unique.
  lemma {:induction false} SortedStable<T>(s: seq<T>, key: T -> int, k: int)
    ensures WithKey(Sorted(s, key), key, k) == WithKey(s, key, k)
  {
    if s != [] {
      var n := |s| - 1;
      SortedStable(s[..n], key, k);
      SortedAscending(s[..n], key);
      InsertKeepsOrder(Sorted(s[..n], key), s[n], key, k);
    }
  }

  lemma SortedMembers<T>(s: seq<T>, key: T -> int)
    ensures forall x :: x in Sorted(s, key) <==> x in s
  {
    SortedPermutes(s, key);
    forall x ensures x in Sorted(s, key) <==> x in s {
      assert x in multiset(Sorted(s, key)) <==> x in multiset(s);
    }
  }

  // Sorting a list that is already in order changes nothing.
  lemma {:induction false} SortedIdentity<T>(s: seq<T>, key: T -> int)
    requires Ascending(s, key)
    ensures Sorted(s, key) == s
  {
    if s != [] {
      var n := |s| - 1;
      SortedIdentity(s[..n], key);
      assert s == s[..n] + [s[n]];
    }
  }
}
