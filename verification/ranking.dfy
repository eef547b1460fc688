/** The ranked lists of the dashboard: object entries sorted by descending count and cut to a length. */
module Ranking {
  import StableSort
  import opened RedisStore
  import opened MetricsModel

  datatype Count = Count(name: string, count: int)

  ghost predicate DistinctNames(es: seq<Count>) {
    forall i, j | 0 <= i < j < |es| :: es[i].name != es[j].name
  }

  /** `es` are the entries of `m`, each once, in some order. */
  ghost predicate Enumerates(es: seq<Count>, m: map<string, int>) {
    && DistinctNames(es)
    && (forall e | e in es :: e.name in m && m[e.name] == e.count)
    && (forall name | name in m :: Count(name, m[name]) in es)
  }

  ghost predicate Descending(es: seq<Count>) {
    forall i, j | 0 <= i < j < |es| :: es[i].count >= es[j].count
  }

  predicate NoFewer(a: Count, b: Count) {
    a.count >= b.count
  }

  /** `sort((a, b) => b.count - a.count)`, which is stable. */
  function SortDescending(es: seq<Count>): seq<Count> {
    StableSort.Sort(NoFewer, es)
  }

  /** The entries of one count, in order. */
  function OfCount(es: seq<Count>, c: int): seq<Count> {
    StableSort.Ties(NoFewer, Count("", c), es)
  }

  /** The sort yields a descending permutation that keeps equal counts in their original order. */
  lemma SortCorrect(es: seq<Count>)
    ensures Descending(SortDescending(es))
    ensures multiset(SortDescending(es)) == multiset(es)
    ensures forall c :: OfCount(SortDescending(es), c) == OfCount(es, c)
  {
    StableSort.SortCorrect(NoFewer, es);
    assert StableSort.Sorted(NoFewer, SortDescending(es));
  }

  lemma {:induction false} EnumerationSize(es: seq<Count>, m: map<string, int>)
    requires Enumerates(es, m)
    ensures |es| == |m|
  {
    assert forall name :: name in m ==> Count(name, m[name]) in es;
    if es == [] {
      assert m.Keys == {};
    } else {
      EnumerationRest(es, m);
      EnumerationSize(es[1..], m - {es[0].name});
      assert |m - {es[0].name}| == |m| - 1 by {
        assert m == (m - {es[0].name})[es[0].name := es[0].count];
      }
    }
  }

  lemma EnumerationRest(es: seq<Count>, m: map<string, int>)
    requires Enumerates(es, m) && es != []
    ensures Enumerates(es[1..], m - {es[0].name})
  {
    forall name | name in m - {es[0].name} ensures Count(name, m[name]) in es[1..] {
      assert Count(name, m[name]) in es;
    }
  }

  lemma DistinctPermuted(a: seq<Count>, b: seq<Count>)
    requires DistinctNames(a) && multiset(a) == multiset(b)
    ensures DistinctNames(b)
  {
    forall i, j | 0 <= i < j < |b| ensures b[i].name != b[j].name {
      if b[i].name == b[j].name {
        assert b[i] in multiset(a) && b[j] in multiset(a);
        assert b[i] == b[j];
        assert multiset(b)[b[i]] >= 2 by {
          assert b == b[..j] + [b[j]] + b[j + 1..];
          assert b[..j][i] in multiset(b[..j]);
        }
        DistinctMultiplicity(a, b[i]);
      }
    }
  }

  lemma {:induction false} DistinctMultiplicity(a: seq<Count>, e: Count)
    requires DistinctNames(a)
    ensures multiset(a)[e] <= 1
  {
    if a != [] {
      DistinctMultiplicity(a[1..], e);
      MultisetCons(a);
      if e == a[0] {
        assert e !in multiset(a[1..]);
      }
    }
  }

  /** The ranked list of a count map: the right number of entries, each once with its true count, descending,
      and no entry left out beats one that is listed. */
  ghost predicate RanksTop(top: seq<Count>, m: map<string, int>, n: nat) {
    && |top| == (if |m| <= n then |m| else n)
    && DistinctNames(top)
    && Descending(top)
    && (forall e | e in top :: e.name in m && m[e.name] == e.count)
    && (forall name, e | name in m && Count(name, m[name]) !in top && e in top :: m[name] <= e.count)
  }

  lemma PermutedMembers(a: seq<Count>, b: seq<Count>)
    requires multiset(a) == multiset(b)
    ensures |a| == |b| && forall e :: e in a <==> e in b
  {
    assert |a| == |multiset(a)| == |multiset(b)| == |b|;
    assert forall e :: e in a <==> e in multiset(a);
    assert forall e :: e in b <==> e in multiset(b);
  }

  lemma TakeLargest(sorted: seq<Count>, n: nat, left: Count, listed: Count)
    requires Descending(sorted) && left in sorted && left !in Take(sorted, n) && listed in Take(sorted, n)
    ensures left.count <= listed.count
  {
    var j :| 0 <= j < |sorted| && sorted[j] == left;
    var i :| 0 <= i < |Take(sorted, n)| && Take(sorted, n)[i] == listed;
    assert sorted[i] == listed;
    assert forall q | 0 <= q < |Take(sorted, n)| :: sorted[q] in Take(sorted, n);
    assert i < j;
  }

  lemma TakeSound(sorted: seq<Count>, es: seq<Count>, m: map<string, int>, n: nat)
    requires Enumerates(es, m) && (forall e :: e in es <==> e in sorted)
    ensures forall e | e in Take(sorted, n) :: e.name in m && m[e.name] == e.count
  {
    assert forall e | e in Take(sorted, n) :: e in sorted && e in es;
  }

  lemma TopCorrect(es: seq<Count>, m: map<string, int>, n: nat)
    requires Enumerates(es, m)
    ensures RanksTop(Take(SortDescending(es), n), m, n)
  {
    var sorted := SortDescending(es);
    SortCorrect(es);
    EnumerationSize(es, m);
    DistinctPermuted(es, sorted);
    PermutedMembers(es, sorted);
    TakeSound(sorted, es, m, n);
    forall name, e | name in m && Count(name, m[name]) !in Take(sorted, n) && e in Take(sorted, n)
      ensures m[name] <= e.count
    {
      TakeLargest(sorted, n, Count(name, m[name]), e);
    }
  }

  // ----- Sums -----

  function SumCounts(es: seq<Count>): int {
    if es == [] then 0 else es[0].count + SumCounts(es[1..])
  }

  /** Whatever the order of the entries, their counts add up to the number of recorded fields. */
  lemma {:induction false} SumIsSize(es: seq<Count>, ms: multiset<string>)
    requires Enumerates(es, HashOf(ms))
    ensures SumCounts(es) == |ms|
  {
    if es == [] {
      EnumerationSize(es, HashOf(ms));
      assert forall f :: f in ms ==> f in HashOf(ms);
      assert ms == multiset{};
    } else {
      var e := es[0];
      var rest := ms[e.name := 0];
      EnumerationRest(es, HashOf(ms));
      assert HashOf(ms) - {e.name} == HashOf(rest);
      SumIsSize(es[1..], rest);
      assert |rest| == |ms| - ms[e.name];
    }
  }

  function WithoutTotal(es: seq<Count>): seq<Count> {
    if es == [] then []
    else if es[0].name == TOTAL_EVENTS then WithoutTotal(es[1..])
    else [es[0]] + WithoutTotal(es[1..])
  }

  lemma {:induction false} WithoutTotalMembers(es: seq<Count>)
    ensures forall e :: e in WithoutTotal(es) <==> e in es && e.name != TOTAL_EVENTS
    ensures DistinctNames(es) ==> DistinctNames(WithoutTotal(es))
  {
    if es != [] {
      WithoutTotalMembers(es[1..]);
      if DistinctNames(es) && es[0].name != TOTAL_EVENTS {
        forall e | e in WithoutTotal(es[1..]) ensures e.name != es[0].name {
          assert e in es[1..];
        }
      }
    }
  }

  lemma WithoutTotalEnumerates(es: seq<Count>, m: map<string, int>)
    requires Enumerates(es, m)
    ensures Enumerates(WithoutTotal(es), m - {TOTAL_EVENTS})
  {
    WithoutTotalMembers(es);
  }

  function Percentage(value: int, total: int): (p: real)
    ensures if total > 0 then p * total as real == 100.0 * value as real else p == 0.0
  {
    if total > 0 then value as real / total as real * 100.0 else 0.0
  }

  function SumPercentages(es: seq<Count>, total: int): real {
    if es == [] then 0.0 else Percentage(es[0].count, total) + SumPercentages(es[1..], total)
  }

  lemma {:induction false} PercentagesAddUp(es: seq<Count>, total: int)
    requires total > 0
    ensures SumPercentages(es, total) == Percentage(SumCounts(es), total)
  {
    if es != [] {
      PercentagesAddUp(es[1..], total);
      var t := total as real;
      var first, rest := es[0].count as real, SumCounts(es[1..]) as real;
      assert (first + rest) / t == first / t + rest / t;
    }
  }

  lemma WholeIff(value: int, total: int)
    requires total > 0
    ensures Percentage(value, total) == 100.0 <==> value == total
  {
    var ratio := value as real / total as real;
    assert ratio * total as real == value as real;
    assert value == total ==> ratio == 1.0;
  }
}
