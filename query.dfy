/**
 * The queryset operations the views use, on a table given as a sequence of rows:
 * `filter(...)` keeps the rows a predicate accepts, in table order, and `order_by(...)`
 * sorts them by a lexicographic key.  The database leaves the order of equal keys open;
 * here it is whatever the insertion sort produces.
 */
module Query {

  /** A two-column sort key, e.g. `('-date', 'start_time')` is `Key(-date, start)`. */
  datatype Key = Key(major: int, minor: int)

  predicate KeyLe(a: Key, b: Key)
  {
    a.major < b.major || (a.major == b.major && a.minor <= b.minor)
  }

  predicate SortedBy<T>(s: seq<T>, key: T -> Key)
  {
    forall i, j :: 0 <= i < j < |s| ==> KeyLe(key(s[i]), key(s[j]))
  }

  /** `queryset.filter(p)`: exactly the rows that satisfy `p`, each as often as in `s`. */
  function Filter<T(!new)>(s: seq<T>, p: T -> bool): (r: seq<T>)
    ensures |r| <= |s|
    ensures forall x :: x in r <==> x in s && p(x)
    ensures forall x :: multiset(r)[x] == if p(x) then multiset(s)[x] else 0
  {
    if s == [] then []
    else
      var rest := Filter(s[..|s| - 1], p);
      assert s == s[..|s| - 1] + [s[|s| - 1]];
      if p(s[|s| - 1]) then rest + [s[|s| - 1]] else rest
  }

  /** Filtering a table with one row more. */
  lemma FilterSnoc<T(!new)>(s: seq<T>, x: T, p: T -> bool)
    ensures Filter(s + [x], p) == Filter(s, p) + if p(x) then [x] else []
  {
    assert (s + [x])[..|s|] == s;
  }

  /** Filtering keeps table order: the rows of `s + t` that pass are those of `s`, then those of `t`. */
  lemma {:induction false} FilterAppend<T(!new)>(s: seq<T>, t: seq<T>, p: T -> bool)
    ensures Filter(s + t, p) == Filter(s, p) + Filter(t, p)
    decreases |t|
  {
    if t == [] {
      assert s + t == s;
    } else {
      var u, x := t[..|t| - 1], t[|t| - 1];
      assert t == u + [x];
      FilterAppend(s, u, p);
      AppendSnoc(s, u, x);
      FilterSnoc(s + u, x, p);
      FilterSnoc(u, x, p);
      AppendAssoc(Filter(s, p), Filter(u, p), if p(x) then [x] else []);
    }
  }

  /** Appending a row after a concatenation. */
  lemma AppendSnoc<T>(s: seq<T>, u: seq<T>, x: T)
    ensures s + (u + [x]) == (s + u) + [x]
  {
  }

  /** Concatenation is associative. */
  lemma AppendAssoc<T>(a: seq<T>, b: seq<T>, c: seq<T>)
    ensures (a + b) + c == a + (b + c)
  {
  }

  /** A non-empty sequence has a member: its first element. */
  lemma FirstIsMember<T>(s: seq<T>)
    ensures s != [] ==> s[0] in s
  {
  }

  /** Filtering one row. */
  lemma FilterOne<T(!new)>(x: T, p: T -> bool)
    ensures Filter([x], p) == if p(x) then [x] else []
  {
    assert [x][..0] == [];
  }

  /** Filtering two rows that both pass keeps both. */
  lemma FilterTwo<T(!new)>(x: T, y: T, p: T -> bool)
    requires p(x) && p(y)
    ensures Filter([x, y], p) == [x, y]
  {
    assert [x, y][..1] == [x];
    FilterOne(x, p);
  }

  /** Filtering by two predicates one after the other is filtering by both. */
  lemma {:induction false} FilterFilter<T(!new)>(s: seq<T>, p: T -> bool, q: T -> bool, both: T -> bool)
    requires forall x :: both(x) == (p(x) && q(x))
    ensures Filter(Filter(s, p), q) == Filter(s, both)
  {
    if s != [] {
      FilterFilter(s[..|s| - 1], p, q, both);
      if p(s[|s| - 1]) {
        assert (Filter(s[..|s| - 1], p) + [s[|s| - 1]])[..|Filter(s[..|s| - 1], p)|] == Filter(s[..|s| - 1], p);
      }
    }
  }

  /** Rearranging the rows does not change how many pass a filter. */
  lemma FilterCountPermutation<T(!new)>(s: seq<T>, t: seq<T>, p: T -> bool)
    requires multiset(s) == multiset(t)
    ensures |Filter(s, p)| == |Filter(t, p)|
  {
    var fs, ft := Filter(s, p), Filter(t, p);
    assert multiset(fs) == multiset(ft) by {
      forall x ensures multiset(fs)[x] == multiset(ft)[x] {
      }
    }
    assert |multiset(fs)| == |fs| && |multiset(ft)| == |ft|;
  }

  /** No row passes: nothing is kept. */
  lemma FilterNone<T(!new)>(s: seq<T>, p: T -> bool)
    requires forall i :: 0 <= i < |s| ==> !p(s[i])
    ensures Filter(s, p) == []
  {
  }

  /** The rows `p` accepts are those `both` accepts and those `only` accepts, where `both` and `only` split `p` by `q`. */
  lemma {:induction false} FilterSplit<T(!new)>(s: seq<T>, p: T -> bool, q: T -> bool, both: T -> bool, only: T -> bool)
    requires forall x :: both(x) == (p(x) && q(x))
    requires forall x :: only(x) == (p(x) && !q(x))
    ensures |Filter(s, p)| == |Filter(s, both)| + |Filter(s, only)|
  {
    if s != [] {
      FilterSplit(s[..|s| - 1], p, q, both, only);
    }
  }

  /** Inserts `x` into a sorted sequence, before the first element whose key is not smaller. */
  function InsertSorted<T>(x: T, s: seq<T>, key: T -> Key): (r: seq<T>)
    requires SortedBy(s, key)
    ensures SortedBy(r, key)
    ensures multiset(r) == multiset(s) + multiset{x}
  {
    if s == [] || KeyLe(key(x), key(s[0])) then
      [x] + s
    else
      var rest := InsertSorted(x, s[1..], key);
      InsertSortedHead(x, s, key, rest);
      [s[0]] + rest
  }

  lemma InsertSortedHead<T>(x: T, s: seq<T>, key: T -> Key, rest: seq<T>)
    requires SortedBy(s, key) && s != [] && !KeyLe(key(x), key(s[0]))
    requires SortedBy(rest, key) && multiset(rest) == multiset(s[1..]) + multiset{x}
    ensures SortedBy([s[0]] + rest, key)
    ensures multiset([s[0]] + rest) == multiset(s) + multiset{x}
  {
    assert s == [s[0]] + s[1..];
    forall j | 0 <= j < |rest| ensures KeyLe(key(s[0]), key(rest[j])) {
      var y := rest[j];
      assert multiset(rest)[y] > 0;
      if y != x {
        assert y in s[1..];
        var k :| 0 <= k < |s[1..]| && s[1..][k] == y;
        assert s[k + 1] == y;
      }
    }
    var r := [s[0]] + rest;
    forall i, j | 0 <= i < j < |r| ensures KeyLe(key(r[i]), key(r[j])) {
      if i == 0 {
        assert r[j] == rest[j - 1];
      } else {
        assert r[i] == rest[i - 1] && r[j] == rest[j - 1];
      }
    }
  }

  /** `order_by(...)`: a sorted rearrangement of the rows. */
  function SortBy<T>(s: seq<T>, key: T -> Key): (r: seq<T>)
    ensures SortedBy(r, key)
    ensures multiset(r) == multiset(s)
    ensures |r| == |s|
  {
    if s == [] then []
    else
      assert s == [s[0]] + s[1..];
      InsertSorted(s[0], SortBy(s[1..], key), key)
  }

  /** Sorting one row. */
  lemma SortByOne<T>(x: T, key: T -> Key)
    ensures SortBy([x], key) == [x]
  {
    assert [x][1..] == [];
  }

  /** Sorting two rows whose keys are out of order swaps them. */
  lemma SortByTwo<T>(x: T, y: T, key: T -> Key)
    requires !KeyLe(key(x), key(y))
    ensures SortBy([x, y], key) == [y, x]
  {
    assert [x, y][1..] == [y];
    SortByOne(y, key);
    assert InsertSorted(x, [y], key) == [y] + InsertSorted(x, [], key);
  }

  /** Sorting keeps exactly the rows it was given. */
  lemma SortByMembers<T>(s: seq<T>, key: T -> Key)
    ensures forall x :: x in SortBy(s, key) <==> x in s
  {
    var r := SortBy(s, key);
    forall x ensures x in r <==> x in s {
      assert x in r <==> multiset(r)[x] > 0;
      assert x in s <==> multiset(s)[x] > 0;
    }
  }
}
