/**
 The stable sort that `Array.prototype.sort` performs for a comparator that is a total
 preorder. The function below is an insertion sort; SortIsUnique says that the choice of
 algorithm does not matter, because a sorted list that keeps every class of tied elements
 in its original order is determined by the input.
 */
module StableSort {
  import opened Sequences

  ghost predicate TotalPreorder<T(!new)>(le: (T, T) -> bool) {
    && (forall a, b :: le(a, b) || le(b, a))
    && (forall a, b, c :: le(a, b) && le(b, c) ==> le(a, c))
  }

  ghost predicate Sorted<T>(le: (T, T) -> bool, xs: seq<T>) {
    forall i, j :: 0 <= i < j < |xs| ==> le(xs[i], xs[j])
  }

  /** The condition "neither before nor after a". */
  function TiedWith<T>(le: (T, T) -> bool, a: T): T -> bool {
    b => le(a, b) && le(b, a)
  }

  /** Every class of tied elements reads the same in both lists. */
  ghost predicate SameTies<T(!new)>(le: (T, T) -> bool, xs: seq<T>, ys: seq<T>) {
    forall a :: Filter(TiedWith(le, a), xs) == Filter(TiedWith(le, a), ys)
  }

  function Insert<T>(le: (T, T) -> bool, x: T, ys: seq<T>): seq<T> {
    if ys == [] then [x]
    else if le(x, ys[0]) then [x] + ys
    else [ys[0]] + Insert(le, x, ys[1..])
  }

  function Sort<T>(le: (T, T) -> bool, xs: seq<T>): seq<T> {
    if xs == [] then [] else Insert(le, xs[0], Sort(le, xs[1..]))
  }

  lemma {:induction false} InsertPermutes<T>(le: (T, T) -> bool, x: T, ys: seq<T>)
    ensures multiset(Insert(le, x, ys)) == multiset{x} + multiset(ys)
  {
    if ys != [] && !le(x, ys[0]) {
      InsertPermutes(le, x, ys[1..]);
      assert ys == [ys[0]] + ys[1..];
    }
  }

  lemma {:induction false} SortPermutes<T>(le: (T, T) -> bool, xs: seq<T>)
    ensures multiset(Sort(le, xs)) == multiset(xs)
    ensures |Sort(le, xs)| == |xs|
    ensures forall x :: x in Sort(le, xs) <==> x in xs
  {
    if xs != [] {
      SortPermutes(le, xs[1..]);
      InsertPermutes(le, xs[0], Sort(le, xs[1..]));
      assert xs == [xs[0]] + xs[1..];
    }
    assert |multiset(Sort(le, xs))| == |multiset(xs)|;
    forall x ensures x in Sort(le, xs) <==> x in xs {
      assert x in multiset(Sort(le, xs)) <==> x in multiset(xs);
    }
  }

  lemma {:induction false} InsertSorted<T(!new)>(le: (T, T) -> bool, x: T, ys: seq<T>)
    requires TotalPreorder(le) && Sorted(le, ys)
    ensures Sorted(le, Insert(le, x, ys))
  {
    if ys != [] {
      if le(x, ys[0]) {
        forall j | 0 <= j < |ys| ensures le(x, ys[j]) {
          assert j == 0 || le(ys[0], ys[j]);
        }
      } else {
        InsertSorted(le, x, ys[1..]);
        InsertPermutes(le, x, ys[1..]);
        var rest := Insert(le, x, ys[1..]);
        forall j | 0 <= j < |rest| ensures le(ys[0], rest[j]) {
          assert rest[j] in multiset(rest);
          assert rest[j] == x || rest[j] in ys[1..];
        }
      }
    }
  }

  lemma {:induction false} InsertKeepsTies<T(!new)>(le: (T, T) -> bool, x: T, ys: seq<T>, a: T)
    requires TotalPreorder(le) && Sorted(le, ys)
    ensures Filter(TiedWith(le, a), Insert(le, x, ys)) == Filter(TiedWith(le, a), [x] + ys)
  {
    var p := TiedWith(le, a);
    if ys != [] && !le(x, ys[0]) {
      InsertKeepsTies(le, x, ys[1..], a);
      var rest := Insert(le, x, ys[1..]);
      assert ([ys[0]] + rest)[1..] == rest;
      assert ([x] + ys[1..])[1..] == ys[1..];
      assert ([x] + ys)[1..] == ys;
      assert !(p(x) && p(ys[0]));
    }
  }

  /** Sorting sorts, and moves no element past one it ties with. */
  lemma {:induction false} SortIsStable<T(!new)>(le: (T, T) -> bool, xs: seq<T>)
    requires TotalPreorder(le)
    ensures Sorted(le, Sort(le, xs))
    ensures SameTies(le, Sort(le, xs), xs)
  {
    if xs != [] {
      var rest := Sort(le, xs[1..]);
      SortIsStable(le, xs[1..]);
      InsertSorted(le, xs[0], rest);
      forall a ensures Filter(TiedWith(le, a), Sort(le, xs)) == Filter(TiedWith(le, a), xs) {
        InsertKeepsTies(le, xs[0], rest, a);
        assert ([xs[0]] + rest)[1..] == rest;
      }
    }
  }

  lemma {:induction false} SortedHeadsTie<T(!new)>(le: (T, T) -> bool, xs: seq<T>, ys: seq<T>)
    requires TotalPreorder(le) && Sorted(le, xs) && SameTies(le, xs, ys)
    requires xs != [] && ys != []
    ensures le(xs[0], ys[0])
  {
    var y := ys[0];
    var p := TiedWith(le, y);
    assert p(y);
    FilterMembers(p, xs);
    assert Filter(p, xs) == Filter(p, ys);
    assert y in Filter(p, ys);
    var k :| 0 <= k < |xs| && xs[k] == y;
    assert k == 0 || le(xs[0], xs[k]);
  }

  lemma SameTiesNonEmpty<T(!new)>(le: (T, T) -> bool, xs: seq<T>, ys: seq<T>)
    requires TotalPreorder(le) && SameTies(le, xs, ys)
    ensures xs == [] <==> ys == []
  {
    if xs != [] {
      assert Filter(TiedWith(le, xs[0]), xs) == Filter(TiedWith(le, xs[0]), ys);
    }
    if ys != [] {
      assert Filter(TiedWith(le, ys[0]), xs) == Filter(TiedWith(le, ys[0]), ys);
    }
  }

  /** A sorted list is determined by the order inside its classes of ties. */
  lemma {:induction false} SortIsUnique<T(!new)>(le: (T, T) -> bool, xs: seq<T>, ys: seq<T>)
    requires TotalPreorder(le) && Sorted(le, xs) && Sorted(le, ys)
    requires SameTies(le, xs, ys)
    ensures xs == ys
  {
    SameTiesNonEmpty(le, xs, ys);
    if xs != [] {
      SortedHeadsTie(le, xs, ys);
      SortedHeadsTie(le, ys, xs);
      assert Filter(TiedWith(le, xs[0]), xs) == Filter(TiedWith(le, xs[0]), ys);
      assert TiedWith(le, xs[0])(ys[0]);
      assert Filter(TiedWith(le, xs[0]), xs)[0] == xs[0] && Filter(TiedWith(le, xs[0]), ys)[0] == ys[0];
      forall a ensures Filter(TiedWith(le, a), xs[1..]) == Filter(TiedWith(le, a), ys[1..]) {
        var p := TiedWith(le, a);
        assert Filter(p, xs) == Filter(p, ys);
        if p(xs[0]) {
          assert Filter(p, xs[1..]) == Filter(p, xs)[1..] == Filter(p, ys)[1..] == Filter(p, ys[1..]);
        }
      }
      SortIsUnique(le, xs[1..], ys[1..]);
    }
  }

  /** Lists that agree class by class sort to the same list. */
  lemma SortRespectsTies<T(!new)>(le: (T, T) -> bool, xs: seq<T>, ys: seq<T>)
    requires TotalPreorder(le) && SameTies(le, xs, ys)
    ensures Sort(le, xs) == Sort(le, ys)
  {
    SortIsStable(le, xs);
    SortIsStable(le, ys);
    forall a ensures Filter(TiedWith(le, a), Sort(le, xs)) == Filter(TiedWith(le, a), Sort(le, ys)) {
      assert Filter(TiedWith(le, a), xs) == Filter(TiedWith(le, a), ys);
    }
    SortIsUnique(le, Sort(le, xs), Sort(le, ys));
  }

  lemma SortFixesSorted<T(!new)>(le: (T, T) -> bool, xs: seq<T>)
    requires TotalPreorder(le) && Sorted(le, xs)
    ensures Sort(le, xs) == xs
  {
    SortIsStable(le, xs);
    SortIsUnique(le, Sort(le, xs), xs);
  }

  lemma {:induction false} FilterSorted<T(!new)>(le: (T, T) -> bool, p: T -> bool, xs: seq<T>)
    requires Sorted(le, xs)
    ensures Sorted(le, Filter(p, xs))
  {
    if xs != [] {
      FilterSorted(le, p, xs[1..]);
      FilterMembers(p, xs[1..]);
      var rest := Filter(p, xs[1..]);
      forall j | 0 <= j < |rest| ensures le(xs[0], rest[j]) {
        assert rest[j] in xs[1..];
      }
    }
  }

  /** Selecting rows before or after ordering them is the same. */
  lemma SortFilterCommute<T(!new)>(le: (T, T) -> bool, p: T -> bool, xs: seq<T>)
    requires TotalPreorder(le)
    ensures Sort(le, Filter(p, xs)) == Filter(p, Sort(le, xs))
  {
    SortIsStable(le, xs);
    SortIsStable(le, Filter(p, xs));
    FilterSorted(le, p, Sort(le, xs));
    forall a ensures Filter(TiedWith(le, a), Sort(le, Filter(p, xs)))
                  == Filter(TiedWith(le, a), Filter(p, Sort(le, xs))) {
      FilterCommutes(TiedWith(le, a), p, xs);
      FilterCommutes(TiedWith(le, a), p, Sort(le, xs));
      assert Filter(TiedWith(le, a), Sort(le, xs)) == Filter(TiedWith(le, a), xs);
      assert Filter(TiedWith(le, a), Sort(le, Filter(p, xs))) == Filter(TiedWith(le, a), Filter(p, xs));
    }
    SortIsUnique(le, Sort(le, Filter(p, xs)), Filter(p, Sort(le, xs)));
  }
}
