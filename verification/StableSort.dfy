/** Stable insertion sort by a numeric key, and why its result is the only stable ordering. */
module StableSort {

  function Insert<T>(key: T -> real, s: seq<T>, x: T): seq<T> {
    if s == [] || key(s[|s| - 1]) <= key(x) then s + [x]
    else Insert(key, s[..|s| - 1], x) + [s[|s| - 1]]
  }

  /** Elements are inserted left to right, each behind its equals. */
  function Sort<T>(key: T -> real, s: seq<T>): seq<T> {
    if s == [] then [] else Insert(key, Sort(key, s[..|s| - 1]), s[|s| - 1])
  }

  ghost predicate Sorted<T>(key: T -> real, s: seq<T>) {
    forall i, j :: 0 <= i <= j < |s| ==> key(s[i]) <= key(s[j])
  }

  /** The elements with one key, in their order. */
  ghost function Class<T>(key: T -> real, s: seq<T>, k: real): seq<T> {
    if s == [] then []
    else Class(key, s[..|s| - 1], k) + One(key, s[|s| - 1], k)
  }

  ghost function One<T>(key: T -> real, x: T, k: real): seq<T> {
    if key(x) == k then [x] else []
  }

  /** Same elements in the same order within every key. */
  ghost predicate SameClasses<T>(key: T -> real, a: seq<T>, b: seq<T>) {
    forall k :: Class(key, a, k) == Class(key, b, k)
  }

  lemma {:induction false} ClassConcat<T>(key: T -> real, a: seq<T>, b: seq<T>, k: real)
    ensures Class(key, a + b, k) == Class(key, a, k) + Class(key, b, k)
  {
    if b == [] {
      assert a + b == a;
    } else {
      assert (a + b)[..|a + b| - 1] == a + b[..|b| - 1];
      ClassConcat(key, a, b[..|b| - 1], k);
    }
  }

  lemma ClassSnoc<T>(key: T -> real, s: seq<T>, x: T, k: real)
    ensures Class(key, s + [x], k) == Class(key, s, k) + One(key, x, k)
  {
    assert (s + [x])[..|s|] == s;
  }

  lemma {:induction false} InsertMultiset<T>(key: T -> real, s: seq<T>, x: T)
    ensures multiset(Insert(key, s, x)) == multiset(s) + multiset{x}
  {
    if s != [] && key(s[|s| - 1]) > key(x) {
      InsertMultiset(key, s[..|s| - 1], x);
      assert s == s[..|s| - 1] + [s[|s| - 1]];
    }
  }

  lemma InsertBounded<T>(key: T -> real, s: seq<T>, x: T, bound: real)
    requires key(x) <= bound && forall y :: y in s ==> key(y) <= bound
    ensures forall y :: y in Insert(key, s, x) ==> key(y) <= bound
  {
    InsertMultiset(key, s, x);
    forall y | y in Insert(key, s, x) ensures key(y) <= bound {
      hide Insert;
      assert y in multiset(Insert(key, s, x));
      assert y in s || y == x;
    }
  }

  lemma SortedInit<T>(key: T -> real, s: seq<T>)
    requires s != [] && Sorted(key, s)
    ensures Sorted(key, s[..|s| - 1])
    ensures forall y :: y in s[..|s| - 1] ==> key(y) <= key(s[|s| - 1])
  {
  }

  lemma SortedSnoc<T>(key: T -> real, s: seq<T>, x: T)
    requires Sorted(key, s) && forall y :: y in s ==> key(y) <= key(x)
    ensures Sorted(key, s + [x])
  {
  }

  lemma {:induction false} InsertSorts<T>(key: T -> real, s: seq<T>, x: T)
    requires Sorted(key, s)
    ensures Sorted(key, Insert(key, s, x))
  {
    if s != [] && key(s[|s| - 1]) > key(x) {
      hide Sorted;
      var init, last := s[..|s| - 1], s[|s| - 1];
      SortedInit(key, s);
      InsertSorts(key, init, x);
      InsertBounded(key, init, x, key(last));
      SortedSnoc(key, Insert(key, init, x), last);
    } else {
      assert forall y :: y in s ==> key(y) <= key(x) by { if s != [] { SortedInit(key, s); } }
      SortedSnoc(key, s, x);
    }
  }

  lemma OnesSwap<T>(key: T -> real, x: T, y: T, k: real)
    requires key(x) != key(y)
    ensures One(key, x, k) + One(key, y, k) == One(key, y, k) + One(key, x, k)
  {
  }

  lemma {:induction false} InsertKeepsClasses<T>(key: T -> real, s: seq<T>, x: T, k: real)
    ensures Class(key, Insert(key, s, x), k) == Class(key, s, k) + One(key, x, k)
  {
    hide One, Class;
    if s == [] || key(s[|s| - 1]) <= key(x) {
      ClassSnoc(key, s, x, k);
    } else {
      var init, last := s[..|s| - 1], s[|s| - 1];
      InsertKeepsClasses(key, init, x, k);
      ClassSnoc(key, Insert(key, init, x), last, k);
      assert Insert(key, s, x) == Insert(key, init, x) + [last];
      assert s == init + [last];
      ClassSnoc(key, init, last, k);
      hide Insert;
      OnesSwap(key, x, last, k);
      SwapEnds(Class(key, init, k), One(key, x, k), One(key, last, k));
    }
  }

  lemma SwapEnds<T>(a: seq<T>, b: seq<T>, c: seq<T>)
    requires b + c == c + b
    ensures a + b + c == a + c + b
  {
    assert a + b + c == a + (b + c);
    assert a + c + b == a + (c + b);
  }

  /** The sort is sorted, loses and invents nothing, and keeps equals in their order. */
  lemma {:induction false} SortCorrect<T>(key: T -> real, s: seq<T>)
    ensures Sorted(key, Sort(key, s))
    ensures multiset(Sort(key, s)) == multiset(s)
    ensures SameClasses(key, Sort(key, s), s)
  {
    if s != [] {
      var init, last := s[..|s| - 1], s[|s| - 1];
      SortCorrect(key, init);
      InsertSorts(key, Sort(key, init), last);
      InsertMultiset(key, Sort(key, init), last);
      assert s == init + [last];
      forall k ensures Class(key, Sort(key, s), k) == Class(key, s, k) {
        InsertKeepsClasses(key, Sort(key, init), last, k);
      }
    }
  }

  lemma {:induction false} ClassMember<T>(key: T -> real, s: seq<T>, k: real)
    ensures forall x :: x in Class(key, s, k) <==> x in s && key(x) == k
  {
    if s != [] {
      ClassMember(key, s[..|s| - 1], k);
      assert s == s[..|s| - 1] + [s[|s| - 1]];
    }
  }

  lemma SameLast<T>(key: T -> real, a: seq<T>, b: seq<T>)
    requires Sorted(key, a) && Sorted(key, b) && SameClasses(key, a, b) && a != [] && b != []
    ensures a[|a| - 1] == b[|b| - 1]
  {
    var x, y := a[|a| - 1], b[|b| - 1];
    ClassMember(key, b, key(x));
    ClassMember(key, a, key(y));
    assert Class(key, a, key(x)) == Class(key, b, key(x)) && Class(key, a, key(y)) == Class(key, b, key(y));
    assert x in Class(key, b, key(x)) && y in Class(key, a, key(y));
    assert key(x) == key(y);
    assert Class(key, a, key(x))[|Class(key, a, key(x))| - 1] == x;
    assert Class(key, b, key(x))[|Class(key, b, key(x))| - 1] == y;
  }

  lemma SamePrefixClasses<T>(key: T -> real, a: seq<T>, b: seq<T>, x: T)
    requires SameClasses(key, a + [x], b + [x])
    ensures SameClasses(key, a, b)
  {
    forall k ensures Class(key, a, k) == Class(key, b, k) {
      ClassSnoc(key, a, x, k);
      ClassSnoc(key, b, x, k);
      var n := |One(key, x, k)|;
      assert Class(key, a, k) == Class(key, a + [x], k)[..|Class(key, a + [x], k)| - n];
      assert Class(key, b, k) == Class(key, b + [x], k)[..|Class(key, b + [x], k)| - n];
    }
  }

  /** A sorted sequence is fixed by its classes, so there is one stable ordering. */
  lemma {:induction false} SortedUnique<T>(key: T -> real, a: seq<T>, b: seq<T>)
    requires Sorted(key, a) && Sorted(key, b) && SameClasses(key, a, b)
    ensures a == b
    decreases |a|
  {
    hide Class;
    if a == [] || b == [] {
      EmptyClasses(key, a, b);
    } else {
      SameLast(key, a, b);
      var a', b', x := a[..|a| - 1], b[..|b| - 1], a[|a| - 1];
      assert a == a' + [x] && b == b' + [x];
      SamePrefixClasses(key, a', b', x);
      SortedUnique(key, a', b');
    }
  }

  lemma EmptyClasses<T>(key: T -> real, a: seq<T>, b: seq<T>)
    requires SameClasses(key, a, b) && (a == [] || b == [])
    ensures a == b
  {
    var c := if a == [] then b else a;
    if c != [] {
      ClassMember(key, c, key(c[0]));
    }
  }

  /** Where an insertion ends: behind the last element with a key that is not larger. */
  lemma {:induction false} InsertAt<T>(key: T -> real, s: seq<T>, x: T, j: nat)
    requires j <= |s|
    requires forall i :: j <= i < |s| ==> key(s[i]) > key(x)
    requires j == 0 || key(s[j - 1]) <= key(x)
    ensures Insert(key, s, x) == s[..j] + [x] + s[j..]
  {
    if j == |s| {
      assert s[..j] == s;
    } else {
      var init := s[..|s| - 1];
      InsertAt(key, init, x, j);
      assert init[..j] == s[..j];
      assert init[j..] + [s[|s| - 1]] == s[j..];
    }
  }
}
