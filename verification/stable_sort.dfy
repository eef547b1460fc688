/** Sorting a list by an order on its elements in which different elements may tie. */
module StableSort {
  ghost predicate TotalPreorder<T(!new)>(le: (T, T) -> bool) {
    && (forall x, y :: le(x, y) || le(y, x))
    && (forall x, y, z :: le(x, y) && le(y, z) ==> le(x, z))
  }

  ghost predicate Sorted<T>(le: (T, T) -> bool, xs: seq<T>) {
    forall i, j | 0 <= i < j < |xs| :: le(xs[i], xs[j])
  }

  function Insert<T>(le: (T, T) -> bool, x: T, xs: seq<T>): seq<T> {
    if xs == [] || le(x, xs[0]) then [x] + xs else [xs[0]] + Insert(le, x, xs[1..])
  }

  function Sort<T>(le: (T, T) -> bool, xs: seq<T>): seq<T> {
    if xs == [] then [] else Insert(le, xs[0], Sort(le, xs[1..]))
  }

  /** The elements that tie with `y`, in order. */
  function Ties<T>(le: (T, T) -> bool, y: T, xs: seq<T>): seq<T> {
    if xs == [] then []
    else if le(xs[0], y) && le(y, xs[0]) then [xs[0]] + Ties(le, y, xs[1..])
    else Ties(le, y, xs[1..])
  }

  lemma {:induction false} InsertElements<T>(le: (T, T) -> bool, x: T, xs: seq<T>)
    ensures multiset(Insert(le, x, xs)) == multiset(xs) + multiset{x}
  {
    if xs != [] && !le(x, xs[0]) {
      InsertElements(le, x, xs[1..]);
      assert xs == [xs[0]] + xs[1..];
    }
  }

  lemma {:induction false} InsertMembers<T>(le: (T, T) -> bool, x: T, xs: seq<T>)
    ensures forall y | y in Insert(le, x, xs) :: y == x || y in xs
  {
    if xs != [] {
      InsertMembers(le, x, xs[1..]);
    }
  }

  lemma {:induction false} InsertSorted<T(!new)>(le: (T, T) -> bool, x: T, xs: seq<T>)
    requires TotalPreorder(le) && Sorted(le, xs)
    ensures Sorted(le, Insert(le, x, xs))
  {
    if xs != [] {
      if le(x, xs[0]) {
        forall j | 0 <= j < |xs| ensures le(x, xs[j]) {
          assert j > 0 ==> le(xs[0], xs[j]);
        }
      } else {
        var rest := Insert(le, x, xs[1..]);
        InsertSorted(le, x, xs[1..]);
        InsertMembers(le, x, xs[1..]);
        forall j | 0 <= j < |rest| ensures le(xs[0], rest[j]) {
          assert rest[j] in rest;
        }
      }
    }
  }

  lemma {:induction false} InsertStable<T(!new)>(le: (T, T) -> bool, x: T, xs: seq<T>, y: T)
    requires TotalPreorder(le)
    ensures Ties(le, y, Insert(le, x, xs)) == if le(x, y) && le(y, x) then [x] + Ties(le, y, xs) else Ties(le, y, xs)
  {
    if xs == [] || le(x, xs[0]) {
      assert ([x] + xs)[1..] == xs;
    } else {
      InsertStable(le, x, xs[1..], y);
      assert Insert(le, x, xs)[1..] == Insert(le, x, xs[1..]);
    }
  }

  /** The result is a sorted permutation in which elements that tie keep their order. */
  lemma {:induction false} SortCorrect<T(!new)>(le: (T, T) -> bool, xs: seq<T>)
    requires TotalPreorder(le)
    ensures Sorted(le, Sort(le, xs))
    ensures multiset(Sort(le, xs)) == multiset(xs)
    ensures forall y :: Ties(le, y, Sort(le, xs)) == Ties(le, y, xs)
  {
    if xs != [] {
      SortCorrect(le, xs[1..]);
      InsertSorted(le, xs[0], Sort(le, xs[1..]));
      InsertElements(le, xs[0], Sort(le, xs[1..]));
      assert xs == [xs[0]] + xs[1..];
      forall y ensures Ties(le, y, Sort(le, xs)) == Ties(le, y, xs) {
        InsertStable(le, xs[0], Sort(le, xs[1..]), y);
      }
    }
  }
}
