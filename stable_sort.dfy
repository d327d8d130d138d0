/** Python's `list.sort(key=..., reverse=...)` restricted to numeric keys: a
    stable sort, ascending or (with `reverse`) descending, in which elements
    with equal keys keep their original order in both directions. */
module StableSort {

  /** `x` must be placed before `y`: its key is strictly smaller, or strictly
      larger when sorting in descending order. */
  predicate Precedes<T>(key: T -> real, descending: bool, x: T, y: T)
  {
    if descending then key(x) > key(y) else key(x) < key(y)
  }

  /** No element must be placed before an element that comes earlier. */
  predicate Ordered<T>(s: seq<T>, key: T -> real, descending: bool)
  {
    forall i, j :: 0 <= i < j < |s| ==> !Precedes(key, descending, s[j], s[i])
  }

  /** The elements of `s` whose key is `k`, in their order in `s`. */
  function KeyClass<T>(s: seq<T>, key: T -> real, k: real): seq<T>
  {
    if s == [] then [] else (if key(s[0]) == k then [s[0]] else []) + KeyClass(s[1..], key, k)
  }

  /** Places `x`, which comes after every element of `t` in the input, before
      the first element of `t` it must precede, so after all elements with an
      equal key. */
  function Insert<T>(t: seq<T>, x: T, key: T -> real, descending: bool): (r: seq<T>)
    ensures |r| == |t| + 1
  {
    if t == [] then [x]
    else if Precedes(key, descending, x, t[0]) then [x] + t
    else [t[0]] + Insert(t[1..], x, key, descending)
  }

  /** The stable sort of `s`: insertion of each element, in input order. */
  function Sort<T>(s: seq<T>, key: T -> real, descending: bool): (r: seq<T>)
    ensures |r| == |s|
  {
    if s == [] then [] else Insert(Sort(s[..|s| - 1], key, descending), s[|s| - 1], key, descending)
  }

  // ------------------------------------------------------------------
  // Properties of Insert
  // ------------------------------------------------------------------

  lemma {:induction false} InsertPermutes<T>(t: seq<T>, x: T, key: T -> real, descending: bool)
    ensures multiset(Insert(t, x, key, descending)) == multiset(t) + multiset{x}
  {
    if t != [] && !Precedes(key, descending, x, t[0]) {
      InsertPermutes(t[1..], x, key, descending);
      assert t == [t[0]] + t[1..];
    }
  }

  lemma {:induction false} InsertOrdered<T>(t: seq<T>, x: T, key: T -> real, descending: bool)
    requires Ordered(t, key, descending)
    ensures Ordered(Insert(t, x, key, descending), key, descending)
  {
    if t != [] && !Precedes(key, descending, x, t[0]) {
      var rest := Insert(t[1..], x, key, descending);
      InsertOrdered(t[1..], x, key, descending);
      InsertPermutes(t[1..], x, key, descending);
      forall j | 0 <= j < |rest| ensures !Precedes(key, descending, rest[j], t[0]) {
        assert rest[j] in multiset(rest);
        if rest[j] != x {
          assert rest[j] in multiset(t[1..]);
          var m :| 0 <= m < |t[1..]| && t[1..][m] == rest[j];
          assert t[m + 1] == rest[j];
        }
      }
    }
  }

  lemma {:induction false} KeyClassEmpty<T>(s: seq<T>, key: T -> real, k: real)
    requires forall i :: 0 <= i < |s| ==> key(s[i]) != k
    ensures KeyClass(s, key, k) == []
  {
    if s != [] {
      KeyClassEmpty(s[1..], key, k);
    }
  }

  lemma {:induction false} KeyClassAppend<T>(a: seq<T>, b: seq<T>, key: T -> real, k: real)
    ensures KeyClass(a + b, key, k) == KeyClass(a, key, k) + KeyClass(b, key, k)
  {
    if a == [] {
      assert a + b == b;
    } else {
      var head := if key(a[0]) == k then [a[0]] else [];
      assert (a + b)[0] == a[0];
      assert (a + b)[1..] == a[1..] + b;
      assert KeyClass(a + b, key, k) == head + KeyClass(a[1..] + b, key, k);
      assert KeyClass(a, key, k) == head + KeyClass(a[1..], key, k);
      KeyClassAppend(a[1..], b, key, k);
    }
  }

  lemma OrderedTail<T>(t: seq<T>, key: T -> real, descending: bool)
    requires t != [] && Ordered(t, key, descending)
    ensures Ordered(t[1..], key, descending)
  {
    forall i, j | 0 <= i < j < |t| - 1 ensures !Precedes(key, descending, t[1..][j], t[1..][i]) {
      assert t[1..][j] == t[j + 1] && t[1..][i] == t[i + 1];
    }
  }

  /** Inserting `x` into an ordered sequence appends it to its key's class. */
  lemma {:induction false} InsertKeyClass<T>(t: seq<T>, x: T, key: T -> real, descending: bool, k: real)
    requires Ordered(t, key, descending)
    ensures KeyClass(Insert(t, x, key, descending), key, k)
         == KeyClass(t, key, k) + (if key(x) == k then [x] else [])
  {
    var own := if key(x) == k then [x] else [];
    if t == [] {
      assert Insert(t, x, key, descending) == [x];
      assert KeyClass([x], key, k) == own + KeyClass([x][1..], key, k);
      assert [x][1..] == [];
    } else if Precedes(key, descending, x, t[0]) {
      var r := [x] + t;
      assert Insert(t, x, key, descending) == r;
      assert r[1..] == t;
      assert KeyClass(r, key, k) == own + KeyClass(t, key, k);
      if key(x) == k {
        forall i | 0 <= i < |t| ensures key(t[i]) != k {
          if i > 0 {
            assert !Precedes(key, descending, t[i], t[0]);
          }
        }
        KeyClassEmpty(t, key, k);
      }
    } else {
      var head := if key(t[0]) == k then [t[0]] else [];
      var rest := Insert(t[1..], x, key, descending);
      assert Insert(t, x, key, descending) == [t[0]] + rest;
      assert ([t[0]] + rest)[1..] == rest;
      assert KeyClass([t[0]] + rest, key, k) == head + KeyClass(rest, key, k);
      assert KeyClass(t, key, k) == head + KeyClass(t[1..], key, k);
      OrderedTail(t, key, descending);
      InsertKeyClass(t[1..], x, key, descending, k);
    }
  }

  // ------------------------------------------------------------------
  // Properties of Sort
  // ------------------------------------------------------------------

  /** Sorting neither adds nor drops an element. */
  lemma {:induction false} SortPermutes<T>(s: seq<T>, key: T -> real, descending: bool)
    ensures multiset(Sort(s, key, descending)) == multiset(s)
    ensures |Sort(s, key, descending)| == |s|
  {
    if s != [] {
      var init := s[..|s| - 1];
      SortPermutes(init, key, descending);
      InsertPermutes(Sort(init, key, descending), s[|s| - 1], key, descending);
      assert s == init + [s[|s| - 1]];
    }
  }

  /** The result is ordered by key: non-decreasing, or non-increasing when
      descending. */
  lemma {:induction false} SortOrdered<T>(s: seq<T>, key: T -> real, descending: bool)
    ensures Ordered(Sort(s, key, descending), key, descending)
  {
    if s != [] {
      SortOrdered(s[..|s| - 1], key, descending);
      InsertOrdered(Sort(s[..|s| - 1], key, descending), s[|s| - 1], key, descending);
    }
  }

  /** Stability: for every key, the elements with that key appear in the
      result in the order they had in the input. */
  lemma {:induction false} SortStable<T>(s: seq<T>, key: T -> real, descending: bool, k: real)
    ensures KeyClass(Sort(s, key, descending), key, k) == KeyClass(s, key, k)
  {
    if s != [] {
      var init, last := s[..|s| - 1], s[|s| - 1];
      SortStable(init, key, descending, k);
      SortOrdered(init, key, descending);
      InsertKeyClass(Sort(init, key, descending), last, key, descending, k);
      assert s == init + [last];
      KeyClassAppend(init, [last], key, k);
      assert [last][1..] == [];
    }
  }

  // ------------------------------------------------------------------
  // The sort as a computation
  // ------------------------------------------------------------------

  method InsertInOrder<T>(t: seq<T>, x: T, key: T -> real, descending: bool) returns (r: seq<T>)
    ensures r == Insert(t, x, key, descending)
  {
    var j := 0;
    while j < |t| && !Precedes(key, descending, x, t[j])
      invariant 0 <= j <= |t|
      invariant Insert(t, x, key, descending) == t[..j] + Insert(t[j..], x, key, descending)
    {
      assert t[j..][1..] == t[j + 1..];
      assert t[..j] + [t[j]] == t[..j + 1];
      j := j + 1;
    }
    r := t[..j] + [x] + t[j..];
  }

  /** Sorts `s` as `list.sort` does, with `reverse` given by `descending`. */
  method SortByKey<T>(s: seq<T>, key: T -> real, descending: bool) returns (r: seq<T>)
    ensures r == Sort(s, key, descending)
  {
    r := [];
    var i := 0;
    while i < |s|
      invariant 0 <= i <= |s|
      invariant r == Sort(s[..i], key, descending)
    {
      assert s[..i + 1][..i] == s[..i];
      r := InsertInOrder(r, s[i], key, descending);
      i := i + 1;
    }
    assert s[..|s|] == s;
  }
}
