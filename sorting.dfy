/** `Array.prototype.sort` with a comparator, as the console calls it.
    The comparator follows JavaScript's convention: a result `<= 0` keeps
    the first argument in front, a result `> 0` puts it behind. The sort is
    stable, as JavaScript's has been since ES2019 (`SortStable`: elements
    the comparator ties keep their input order); whenever the comparator
    is consistent a stable sort has only one possible output, so this
    insertion sort computes what the browser computes. That uniqueness is
    a property of sorting in general and is not itself a lemma here. */
module Sorting {
  import opened Seqs

  /** Inserts `x` in front of the first element it does not compare after. */
  function Insert<T>(x: T, s: seq<T>, cmp: (T, T) -> int): (r: seq<T>)
    ensures |r| == |s| + 1
    ensures multiset(r) == multiset(s) + multiset{x}
  {
    if s == [] then [x]
    else if cmp(x, s[0]) <= 0 then [x] + s
    else
      assert s == [s[0]] + s[1..];
      [s[0]] + Insert(x, s[1..], cmp)
  }

  /** `s.sort(cmp)` on a copy of `s`: a permutation of `s`. */
  function SortWith<T>(s: seq<T>, cmp: (T, T) -> int): (r: seq<T>)
    ensures |r| == |s|
    ensures multiset(r) == multiset(s)
  {
    if s == [] then []
    else
      assert s == [s[0]] + s[1..];
      Insert(s[0], SortWith(s[1..], cmp), cmp)
  }

  /** Every element is `before` every later one. */
  ghost predicate Ordered<T>(s: seq<T>, before: (T, T) -> bool) {
    forall i, j :: 0 <= i < j < |s| ==> before(s[i], s[j])
  }

  ghost predicate Transitive<T(!new)>(before: (T, T) -> bool) {
    forall x, y, z :: before(x, y) && before(y, z) ==> before(x, z)
  }

  /** `cmp` never contradicts `before`: when it keeps `x` in front, `x` may
      come before `y`; when it puts `x` behind, `y` may come before `x`. */
  ghost predicate Decides<T(!new)>(cmp: (T, T) -> int, before: (T, T) -> bool) {
    forall x, y :: (cmp(x, y) <= 0 ==> before(x, y)) && (cmp(x, y) > 0 ==> before(y, x))
  }

  /** An element `before` everything in an ordered sequence can go in front. */
  lemma OrderedCons<T>(a: T, t: seq<T>, before: (T, T) -> bool)
    requires Ordered(t, before)
    requires forall k :: 0 <= k < |t| ==> before(a, t[k])
    ensures Ordered([a] + t, before)
  {
    var r := [a] + t;
    forall i, j | 0 <= i < j < |r| ensures before(r[i], r[j]) {
      assert r[j] == t[j - 1];
      if i > 0 {
        assert r[i] == t[i - 1];
      }
    }
  }

  lemma OrderedTail<T>(s: seq<T>, before: (T, T) -> bool)
    requires s != [] && Ordered(s, before)
    ensures Ordered(s[1..], before)
    ensures forall k :: 0 <= k < |s[1..]| ==> before(s[0], s[1..][k])
  {
    forall i, j | 0 <= i < j < |s[1..]| ensures before(s[1..][i], s[1..][j]) {
      assert s[1..][i] == s[i + 1] && s[1..][j] == s[j + 1];
    }
    forall k | 0 <= k < |s[1..]| ensures before(s[0], s[1..][k]) {
      assert s[1..][k] == s[k + 1];
    }
  }

  lemma {:induction false} InsertOrdered<T(!new)>(x: T, s: seq<T>, cmp: (T, T) -> int, before: (T, T) -> bool)
    requires Transitive(before) && Decides(cmp, before)
    requires Ordered(s, before)
    ensures Ordered(Insert(x, s, cmp), before)
  {
    if s == [] {
      assert Insert(x, s, cmp) == [x];
    } else if cmp(x, s[0]) <= 0 {
      assert Insert(x, s, cmp) == [x] + s;
      forall k | 0 <= k < |s| ensures before(x, s[k]) {
        if k > 0 {
          assert before(s[0], s[k]);
        }
      }
      OrderedCons(x, s, before);
    } else {
      var t := Insert(x, s[1..], cmp);
      assert Insert(x, s, cmp) == [s[0]] + t;
      OrderedTail(s, before);
      InsertOrdered(x, s[1..], cmp, before);
      InsertHeadBefore(x, s, t, before);
      OrderedCons(s[0], t, before);
    }
  }

  /** The head of `s`, ahead of `x` and of the rest of `s`, is ahead of
      everything `t` holds when `t` holds just those. */
  lemma InsertHeadBefore<T>(x: T, s: seq<T>, t: seq<T>, before: (T, T) -> bool)
    requires s != [] && before(s[0], x)
    requires forall k :: 0 <= k < |s[1..]| ==> before(s[0], s[1..][k])
    requires multiset(t) == multiset(s[1..]) + multiset{x}
    ensures forall k :: 0 <= k < |t| ==> before(s[0], t[k])
  {
    forall k | 0 <= k < |t| ensures before(s[0], t[k]) {
      assert t[k] in multiset(t);
      if t[k] != x {
        assert t[k] in multiset(s[1..]);
        var j :| 0 <= j < |s[1..]| && s[1..][j] == t[k];
      }
    }
  }

  /** Sorting with a comparator that decides a transitive relation orders
      the whole sequence by that relation. */
  lemma {:induction false} SortOrdered<T(!new)>(s: seq<T>, cmp: (T, T) -> int, before: (T, T) -> bool)
    requires Transitive(before) && Decides(cmp, before)
    ensures Ordered(SortWith(s, cmp), before)
  {
    if s != [] {
      SortOrdered(s[1..], cmp, before);
      InsertOrdered(s[0], SortWith(s[1..], cmp), cmp, before);
    }
  }

  /** Elements the comparator ties with one another form a tie class. */
  ghost predicate TieClass<T(!new)>(cmp: (T, T) -> int, p: T -> bool) {
    forall x, y :: p(x) && p(y) ==> cmp(x, y) == 0
  }

  lemma {:induction false} InsertStable<T(!new)>(x: T, t: seq<T>, cmp: (T, T) -> int, p: T -> bool)
    requires TieClass(cmp, p)
    ensures Filter(Insert(x, t, cmp), p) == (if p(x) then [x] + Filter(t, p) else Filter(t, p))
  {
    if t == [] {
      assert Insert(x, t, cmp) == [x];
      assert [x][1..] == [];
    } else if cmp(x, t[0]) <= 0 {
      assert Insert(x, t, cmp) == [x] + t;
      assert ([x] + t)[1..] == t;
    } else {
      var i := Insert(x, t[1..], cmp);
      assert Insert(x, t, cmp) == [t[0]] + i;
      assert ([t[0]] + i)[1..] == i;
      InsertStable(x, t[1..], cmp, p);
    }
  }

  /** Stability: the elements of a tie class come out of the sort in the
      order they went in. */
  lemma {:induction false} SortStable<T(!new)>(s: seq<T>, cmp: (T, T) -> int, p: T -> bool)
    requires TieClass(cmp, p)
    ensures Filter(SortWith(s, cmp), p) == Filter(s, p)
  {
    if s != [] {
      SortStable(s[1..], cmp, p);
      InsertStable(s[0], SortWith(s[1..], cmp), cmp, p);
    }
  }
}
