// The JavaScript built-ins the components rely on: a value that may be
// `undefined`, and the array operations `filter(e => e !== x)`,
// `sort(comparator)` (stable since ES2019) and `reverse()` on a copy, as
// functions on sequences.
module Js {

  /** A value, or `undefined`. */
  datatype Option<T> = None | Some(value: T)

  /** Every element of `s` differs from every other. */
  predicate Distinct<T(==,!new)>(s: seq<T>) {
    forall i, j :: 0 <= i < j < |s| ==> s[i] != s[j]
  }

  /** `s` is in non-decreasing order of `key`. */
  predicate SortedBy<T(!new)>(s: seq<T>, key: T -> real) {
    forall i, j :: 0 <= i < j < |s| ==> key(s[i]) <= key(s[j])
  }

  /** `s` is in strictly increasing order of `key`. */
  predicate StrictlySortedBy<T(!new)>(s: seq<T>, key: T -> real) {
    forall i, j :: 0 <= i < j < |s| ==> key(s[i]) < key(s[j])
  }

  /** `s.filter(e => e !== x)`: every occurrence of `x` is dropped. */
  function Without<T(==,!new)>(s: seq<T>, x: T): (r: seq<T>)
    ensures multiset(r) == multiset(s)[x := 0]
    ensures forall y :: y in r <==> y in s && y != x
    ensures |r| <= |s|
  {
    if s == [] then []
    else
      assert s == [s[0]] + s[1..];
      (if s[0] == x then [] else [s[0]]) + Without(s[1..], x)
  }

  /** Insertion of `x` into a `key`-sorted sequence after every element whose key
      is not larger: the step a stable sort takes for a later element. */
  function InsertBy<T(!new)>(x: T, s: seq<T>, key: T -> real): (r: seq<T>)
    requires SortedBy(s, key)
    ensures SortedBy(r, key)
    ensures multiset(r) == multiset(s) + multiset{x}
    ensures forall y :: y in r <==> y in s || y == x
    ensures |r| == |s| + 1
  {
    if s == [] then [x]
    else
      SortedTail(s, key);
      assert s == [s[0]] + s[1..];
      if key(x) < key(s[0]) then
        SortedCons(x, s, key);
        [x] + s
      else
        var rest := InsertBy(x, s[1..], key);
        assert forall y | y in rest :: key(s[0]) <= key(y) by {
          forall y | y in rest ensures key(s[0]) <= key(y) {
            if y != x {
              assert y in s;
            }
          }
        }
        SortedCons(s[0], rest, key);
        [s[0]] + rest
  }

  /** The tail of a sorted sequence is sorted, and its head has the least key. */
  lemma SortedTail<T(!new)>(s: seq<T>, key: T -> real)
    requires SortedBy(s, key) && s != []
    ensures SortedBy(s[1..], key)
    ensures forall y | y in s :: key(s[0]) <= key(y)
  {
    forall y | y in s ensures key(s[0]) <= key(y) {
      var i :| 0 <= i < |s| && s[i] == y;
      if i > 0 {
        assert key(s[0]) <= key(s[i]);
      }
    }
  }

  /** A key no larger than any key of a sorted sequence may be put in front of it. */
  lemma SortedCons<T(!new)>(h: T, t: seq<T>, key: T -> real)
    requires SortedBy(t, key)
    requires forall y | y in t :: key(h) <= key(y)
    ensures SortedBy([h] + t, key)
  {
    forall i, j | 0 <= i < j < |t| + 1 ensures key(([h] + t)[i]) <= key(([h] + t)[j]) {
      assert ([h] + t)[j] == t[j - 1];
      if i > 0 {
        assert ([h] + t)[i] == t[i - 1];
      }
    }
  }

  /** `s.slice().sort((a, b) => key(a) - key(b))`: a stable sort by `key`. */
  function SortBy<T(!new)>(s: seq<T>, key: T -> real): (r: seq<T>)
    ensures SortedBy(r, key)
    ensures multiset(r) == multiset(s)
    ensures forall y :: y in r <==> y in s
    ensures |r| == |s|
  {
    if s == [] then []
    else
      assert s == s[..|s| - 1] + [s[|s| - 1]];
      InsertBy(s[|s| - 1], SortBy(s[..|s| - 1], key), key)
  }

  /** `s.slice().reverse()`. */
  function Reverse<T(!new)>(s: seq<T>): (r: seq<T>)
    ensures |r| == |s|
    ensures forall i :: 0 <= i < |s| ==> r[i] == s[|s| - 1 - i]
  {
    if s == [] then [] else Reverse(s[1..]) + [s[0]]
  }

  /** Reversing keeps the elements and their numbers of occurrences. */
  lemma {:induction false} ReverseMultiset<T(!new)>(s: seq<T>)
    ensures multiset(Reverse(s)) == multiset(s)
  {
    if s != [] {
      ReverseMultiset(s[1..]);
      assert s == [s[0]] + s[1..];
    }
  }

  /** A strictly sorted sequence is sorted. */
  lemma StrictlySortedIsSorted<T(!new)>(s: seq<T>, key: T -> real)
    requires StrictlySortedBy(s, key)
    ensures SortedBy(s, key)
  {
  }

  /** Reversing a sequence sorted by `key` gives one sorted by the opposite key. */
  lemma ReverseSortedBy<T(!new)>(s: seq<T>, key: T -> real, opposite: T -> real)
    requires SortedBy(s, key)
    requires forall x :: opposite(x) == -key(x)
    ensures SortedBy(Reverse(s), opposite)
  {
  }

  /** Filtering out a value that does not occur changes nothing. */
  lemma {:induction false} WithoutAbsent<T(!new)>(s: seq<T>, x: T)
    requires x !in s
    ensures Without(s, x) == s
  {
    if s != [] {
      WithoutAbsent(s[1..], x);
    }
  }

  /** Filtering distributes over concatenation: the kept elements stay in their
      original relative order. */
  lemma {:induction false} WithoutConcat<T(!new)>(a: seq<T>, b: seq<T>, x: T)
    ensures Without(a + b, x) == Without(a, x) + Without(b, x)
  {
    if a == [] {
      assert a + b == b;
    } else {
      assert (a + b)[1..] == a[1..] + b;
      WithoutConcat(a[1..], b, x);
    }
  }

  /** Every element of `Without(s, x)` is an element of `s`. */
  lemma WithoutSubset<T(!new)>(s: seq<T>, x: T, y: T)
    requires y in Without(s, x)
    ensures y in s && y != x
  {
    assert y in multiset(Without(s, x));
  }

  /** Filtering keeps a sequence sorted. */
  lemma {:induction false} WithoutSorted<T(!new)>(s: seq<T>, x: T, key: T -> real)
    requires SortedBy(s, key)
    ensures SortedBy(Without(s, x), key)
  {
    if s != [] {
      WithoutSorted(s[1..], x, key);
      forall y | y in Without(s[1..], x) ensures key(s[0]) <= key(y) {
        WithoutSubset(s[1..], x, y);
      }
    }
  }

  /** Filtering keeps a sequence strictly sorted. */
  lemma {:induction false} WithoutStrictlySorted<T(!new)>(s: seq<T>, x: T, key: T -> real)
    requires StrictlySortedBy(s, key)
    ensures StrictlySortedBy(Without(s, x), key)
  {
    if s != [] {
      WithoutStrictlySorted(s[1..], x, key);
      forall y | y in Without(s[1..], x) ensures key(s[0]) < key(y) {
        WithoutSubset(s[1..], x, y);
      }
    }
  }

  /** Filtering keeps a sequence free of duplicates. */
  lemma {:induction false} WithoutDistinct<T(!new)>(s: seq<T>, x: T)
    requires Distinct(s)
    ensures Distinct(Without(s, x))
  {
    if s != [] {
      WithoutDistinct(s[1..], x);
      if s[0] in Without(s[1..], x) {
        WithoutSubset(s[1..], x, s[0]);
      }
    }
  }

  /** Inserting a value and then filtering it out leaves what filtering alone does. */
  lemma {:induction false} WithoutInsertBy<T(!new)>(x: T, s: seq<T>, key: T -> real)
    requires SortedBy(s, key)
    ensures Without(InsertBy(x, s, key), x) == Without(s, x)
  {
    if s != [] && key(s[0]) <= key(x) {
      WithoutInsertBy(x, s[1..], key);
    }
  }

  /** Inserting a value absent from a strictly sorted sequence keeps it strictly sorted. */
  lemma {:induction false} InsertByStrictlySorted<T(!new)>(x: T, s: seq<T>, key: T -> real)
    requires StrictlySortedBy(s, key)
    requires forall y :: y in s ==> key(y) != key(x)
    ensures StrictlySortedBy(InsertBy(x, s, key), key)
  {
    if s != [] && key(s[0]) < key(x) {
      InsertByStrictlySorted(x, s[1..], key);
      var r := InsertBy(x, s[1..], key);
      forall y | y in r ensures key(s[0]) < key(y) {
        assert y in multiset(r);
      }
    }
  }

  /** Putting back a value that was filtered out of a strictly sorted sequence
      restores the sequence. */
  lemma {:induction false} InsertByWithout<T(!new)>(x: T, s: seq<T>, key: T -> real)
    requires StrictlySortedBy(s, key)
    requires x in s
    ensures SortedBy(Without(s, x), key)
    ensures InsertBy(x, Without(s, x), key) == s
  {
    WithoutSorted(s, x, key);
    if s[0] == x {
      InsertHeadBack(x, s, key);
    } else {
      HeadBelowTail(s, key);
      assert s == [s[0]] + s[1..];
      assert x in s[1..];
      InsertByWithout(x, s[1..], key);
      var rest := Without(s[1..], x);
      WithoutCons(s, x);
      InsertByCons(x, s[0], rest, key);
    }
  }

  /** Filtering a sequence whose head is kept keeps that head in front. */
  lemma WithoutCons<T(!new)>(s: seq<T>, x: T)
    requires s != [] && s[0] != x
    ensures Without(s, x) == [s[0]] + Without(s[1..], x)
  {
  }

  /** Inserting after a head whose key is not larger leaves the head in front. */
  lemma InsertByCons<T(!new)>(x: T, h: T, t: seq<T>, key: T -> real)
    requires SortedBy([h] + t, key) && key(h) <= key(x)
    ensures SortedBy(t, key)
    ensures InsertBy(x, [h] + t, key) == [h] + InsertBy(x, t, key)
  {
    assert ([h] + t)[1..] == t;
    assert ([h] + t)[0] == h;
  }

  /** The base case of `InsertByWithout`: the value filtered out was the head. */
  lemma InsertHeadBack<T(!new)>(x: T, s: seq<T>, key: T -> real)
    requires StrictlySortedBy(s, key)
    requires s != [] && s[0] == x
    ensures Without(s, x) == s[1..]
    ensures SortedBy(s[1..], key)
    ensures InsertBy(x, s[1..], key) == s
  {
    HeadBelowTail(s, key);
    WithoutAbsent(s[1..], x);
    assert s == [x] + s[1..];
  }

  /** The head of a strictly sorted sequence has a smaller key than all of its
      tail, so it does not occur there. */
  lemma HeadBelowTail<T(!new)>(s: seq<T>, key: T -> real)
    requires StrictlySortedBy(s, key) && s != []
    ensures StrictlySortedBy(s[1..], key)
    ensures SortedBy(s[1..], key)
    ensures forall y | y in s[1..] :: key(s[0]) < key(y)
    ensures s[0] !in s[1..]
  {
    forall y | y in s[1..] ensures key(s[0]) < key(y) {
      var i :| 0 <= i < |s[1..]| && s[1..][i] == y;
      assert s[i + 1] == y;
    }
  }

  /** Appending an element whose key is at least every other key is what
      insertion does to it. */
  lemma {:induction false} InsertByLast<T(!new)>(x: T, s: seq<T>, key: T -> real)
    requires SortedBy(s, key)
    requires forall y :: y in s ==> key(y) <= key(x)
    ensures InsertBy(x, s, key) == s + [x]
  {
    if s != [] {
      InsertByLast(x, s[1..], key);
    }
  }

  /** Sorting an already sorted sequence returns it unchanged. */
  lemma {:induction false} SortBySorted<T(!new)>(s: seq<T>, key: T -> real)
    requires SortedBy(s, key)
    ensures SortBy(s, key) == s
  {
    if s != [] {
      var init := s[..|s| - 1];
      SortBySorted(init, key);
      InsertByLast(s[|s| - 1], init, key);
      assert init + [s[|s| - 1]] == s;
    }
  }
}
