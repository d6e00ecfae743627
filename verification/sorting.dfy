/**
 * A stable insertion sort over an arbitrary comparison, standing for
 * JavaScript's stable `Array.prototype.sort` and for the database's
 * `sort({createdAt: -1})`.
 */
module Sorting {

  /** `le` relates every two values one way or the other. */
  ghost predicate Total<T(!new)>(le: (T, T) -> bool) {
    forall a, b :: le(a, b) || le(b, a)
  }

  ghost predicate Transitive<T(!new)>(le: (T, T) -> bool) {
    forall a, b, c :: le(a, b) && le(b, c) ==> le(a, c)
  }

  ghost predicate Antisymmetric<T(!new)>(le: (T, T) -> bool) {
    forall a, b :: le(a, b) && le(b, a) ==> a == b
  }

  /** A total preorder: what a consistent comparator defines. */
  ghost predicate TotalPreorder<T(!new)>(le: (T, T) -> bool) {
    Total(le) && Transitive(le)
  }

  ghost predicate SortedBy<T>(le: (T, T) -> bool, s: seq<T>) {
    forall i, j :: 0 <= i < j < |s| ==> le(s[i], s[j])
  }

  /**
   * No two values of `m` are equivalent under `le`, and none occurs twice:
   * the ordering leaves no tie for a sort to break.
   */
  ghost predicate NoTies<T(!new)>(le: (T, T) -> bool, m: multiset<T>) {
    && (forall a, b :: a in m && b in m && le(a, b) && le(b, a) ==> a == b)
    && (forall a :: a in m ==> m[a] == 1)
  }

  /**
   * Places `x` before the first element it is `le` to; an element equivalent
   * to `x` that follows it in the input therefore stays behind it.
   */
  function Insert<T>(le: (T, T) -> bool, x: T, s: seq<T>): (r: seq<T>)
    ensures multiset(r) == multiset(s) + multiset{x}
  {
    if s == [] || le(x, s[0]) then [x] + s
    else
      assert s == [s[0]] + s[1..];
      [s[0]] + Insert(le, x, s[1..])
  }

  /** Stable sort: equivalent elements keep their input order (`SortStable`). */
  function Sort<T>(le: (T, T) -> bool, s: seq<T>): (r: seq<T>)
    ensures multiset(r) == multiset(s)
    ensures |r| == |s|
  {
    if s == [] then []
    else
      assert s == [s[0]] + s[1..];
      Insert(le, s[0], Sort(le, s[1..]))
  }

  /** The elements of `s` equivalent to `x` under `le`, in their order in `s`. */
  function EquivalentTo<T>(le: (T, T) -> bool, x: T, s: seq<T>): (r: seq<T>)
    ensures |r| <= |s|
    ensures forall i :: 0 <= i < |r| ==> le(x, r[i]) && le(r[i], x)
  {
    if s == [] then []
    else (if le(x, s[0]) && le(s[0], x) then [s[0]] else []) + EquivalentTo(le, x, s[1..])
  }

  /**
   * Inserting `y` puts it ahead of every element equivalent to it, so among
   * the elements equivalent to any `x` it comes first.
   */
  lemma {:induction false} InsertStable<T(!new)>(le: (T, T) -> bool, x: T, y: T, s: seq<T>)
    requires Transitive(le)
    ensures EquivalentTo(le, x, Insert(le, y, s))
      == (if le(x, y) && le(y, x) then [y] else []) + EquivalentTo(le, x, s)
  {
    if s == [] || le(y, s[0]) {
      assert ([y] + s)[1..] == s;
    } else {
      InsertStable(le, x, y, s[1..]);
      var r := [s[0]] + Insert(le, y, s[1..]);
      assert r[1..] == Insert(le, y, s[1..]);
      // `y` and `s[0]` are not both equivalent to `x`: that would give le(y, s[0]).
      assert !(le(y, x) && le(x, s[0]));
    }
  }

  /**
   * The sort is stable: the elements equivalent to any `x` appear in the
   * output in the order they had in the input.
   */
  lemma {:induction false} SortStable<T(!new)>(le: (T, T) -> bool, x: T, s: seq<T>)
    requires Transitive(le)
    ensures EquivalentTo(le, x, Sort(le, s)) == EquivalentTo(le, x, s)
  {
    if s != [] {
      SortStable(le, x, s[1..]);
      InsertStable(le, x, s[0], Sort(le, s[1..]));
    }
  }

  lemma {:induction false} InsertSorted<T(!new)>(le: (T, T) -> bool, x: T, s: seq<T>)
    requires TotalPreorder(le)
    requires SortedBy(le, s)
    ensures SortedBy(le, Insert(le, x, s))
  {
    if s == [] || le(x, s[0]) {
    } else {
      var rest := Insert(le, x, s[1..]);
      InsertSorted(le, x, s[1..]);
      assert le(s[0], x);
      forall j | 0 <= j < |rest|
        ensures le(s[0], rest[j])
      {
        assert rest[j] in multiset(rest);
        if rest[j] != x {
          assert rest[j] in multiset(s[1..]);
          var k :| 0 <= k < |s[1..]| && s[1..][k] == rest[j];
          assert s[k + 1] == rest[j];
        }
      }
      var r := [s[0]] + rest;
      forall i, j | 0 <= i < j < |r|
        ensures le(r[i], r[j])
      {
        if i == 0 {
          assert r[j] == rest[j - 1];
        } else {
          assert r[i] == rest[i - 1] && r[j] == rest[j - 1];
        }
      }
    }
  }

  /** The sort's output is ordered by `le`. */
  lemma {:induction false} SortSorted<T(!new)>(le: (T, T) -> bool, s: seq<T>)
    requires TotalPreorder(le)
    ensures SortedBy(le, Sort(le, s))
  {
    if s != [] {
      SortSorted(le, s[1..]);
      InsertSorted(le, s[0], Sort(le, s[1..]));
    }
  }

  lemma NoTiesSubset<T(!new)>(le: (T, T) -> bool, small: multiset<T>, big: multiset<T>)
    requires small <= big
    requires NoTies(le, big)
    ensures NoTies(le, small)
  {
    forall a | a in small
      ensures small[a] == 1
    {
      assert a in big;
    }
  }

  /** Both sorted sequences start with the same value when nothing ties. */
  lemma SortedSameHead<T(!new)>(le: (T, T) -> bool, s: seq<T>, t: seq<T>)
    requires s != [] && t != []
    requires SortedBy(le, s) && SortedBy(le, t)
    requires multiset(s) == multiset(t)
    requires NoTies(le, multiset(s))
    ensures s[0] == t[0]
  {
    assert s[0] in multiset(t);
    var j :| 0 <= j < |t| && t[j] == s[0];
    assert t[0] in multiset(s);
    var i :| 0 <= i < |s| && s[i] == t[0];
    if i != 0 && j != 0 {
      assert le(s[0], s[i]) && le(t[0], t[j]);
      assert s[0] in multiset(s) && t[0] in multiset(s);
    }
  }

  /** Removing the same first value from two orderings of the same values leaves the same values. */
  lemma TailsSameValues<T>(s: seq<T>, t: seq<T>)
    requires s != [] && t != [] && s[0] == t[0]
    requires multiset(s) == multiset(t)
    ensures multiset(s[1..]) == multiset(t[1..]) && multiset(s[1..]) <= multiset(s)
  {
    assert s == [s[0]] + s[1..];
    assert t == [t[0]] + t[1..];
    assert multiset(s) == multiset{s[0]} + multiset(s[1..]);
    assert multiset(t) == multiset{s[0]} + multiset(t[1..]);
    assert multiset(s[1..]) == multiset(s) - multiset{s[0]};
    assert multiset(t[1..]) == multiset(t) - multiset{s[0]};
  }

  /**
   * Two orderings of the same values, both sorted, coincide when the values
   * leave no tie: the sorted order is then determined by the values alone.
   */
  lemma {:induction false} SortedUnique<T(!new)>(le: (T, T) -> bool, s: seq<T>, t: seq<T>)
    requires SortedBy(le, s) && SortedBy(le, t)
    requires multiset(s) == multiset(t)
    requires NoTies(le, multiset(s))
    ensures s == t
  {
    if s == [] {
      assert |t| == |multiset(t)| == 0;
    } else {
      assert |t| == |multiset(t)| == |multiset(s)| == |s|;
      SortedSameHead(le, s, t);
      TailsSameValues(s, t);
      NoTiesSubset(le, multiset(s[1..]), multiset(s));
      SortedUnique(le, s[1..], t[1..]);
    }
  }

  lemma MultisetUpdate<T>(s: seq<T>, i: int, e: T)
    requires 0 <= i < |s|
    ensures multiset(s[i := e]) == multiset(s) - multiset{s[i]} + multiset{e}
  {
    assert s == s[..i] + [s[i]] + s[i + 1..];
    assert s[i := e] == s[..i] + [e] + s[i + 1..];
  }

  /** A sorted sequence stays sorted when one value is replaced by one the comparison cannot tell from it. */
  lemma ReplacedSorted<T>(le: (T, T) -> bool, s: seq<T>, i: int, e: T)
    requires SortedBy(le, s)
    requires 0 <= i < |s|
    requires forall z :: le(e, z) == le(s[i], z) && le(z, e) == le(z, s[i])
    ensures SortedBy(le, s[i := e])
  {
    var t := s[i := e];
    forall a, b | 0 <= a < b < |t|
      ensures le(t[a], t[b])
    {
      assert le(s[a], s[b]);
      if a == i {
        assert le(e, s[b]) == le(s[i], s[b]);
      } else if b == i {
        assert le(s[a], e) == le(s[a], s[i]);
      }
    }
  }

  /**
   * Replacing one input value by a value the comparison cannot tell from it
   * replaces that value in place in the output, when nothing ties.
   */
  lemma SortReplaced<T(!new)>(le: (T, T) -> bool, s: seq<T>, at: int, e: T) returns (idx: int)
    requires TotalPreorder(le)
    requires 0 <= at < |s|
    requires forall z :: le(e, z) == le(s[at], z) && le(z, e) == le(z, s[at])
    requires NoTies(le, multiset(s[at := e]))
    ensures 0 <= idx < |s| && Sort(le, s)[idx] == s[at]
    ensures Sort(le, s[at := e]) == Sort(le, s)[idx := e]
  {
    var sorted := Sort(le, s);
    assert s[at] in multiset(s);
    assert s[at] in multiset(sorted);
    idx :| 0 <= idx < |sorted| && sorted[idx] == s[at];
    var t := sorted[idx := e];
    MultisetUpdate(sorted, idx, e);
    MultisetUpdate(s, at, e);
    SortSorted(le, s);
    SortSorted(le, s[at := e]);
    ReplacedSorted(le, sorted, idx, e);
    SortedUnique(le, t, Sort(le, s[at := e]));
  }
}
