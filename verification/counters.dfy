/** Hashes of counters as text. All that matters about the text is that parsing undoes printing, so it is a type
    parameter here; `Decimal` supplies the decimal strings that Redis uses. */
module Counters {
  import opened RedisStore
  import opened MetricsModel
  import opened Ranking

  datatype Codec<!T> = Codec(show: int -> T, parse: T -> int)

  ghost predicate Sound<T(!new)>(text: Codec<T>) {
    forall n :: text.parse(text.show(n)) == n
  }

  function Printed<T>(counts: map<string, int>, text: Codec<T>): map<string, T> {
    map f | f in counts :: text.show(counts[f])
  }

  /** Pointwise addition. */
  function AddCounts(a: map<string, int>, b: map<string, int>): map<string, int> {
    map f | f in a.Keys + b.Keys :: FieldOr0(a, f) + FieldOr0(b, f)
  }

  /** Adding counters is counting the union. */
  lemma AddCountsIsUnion(a: multiset<string>, b: multiset<string>)
    ensures AddCounts(HashOf(a), HashOf(b)) == HashOf(a + b)
  {
    var sum := AddCounts(HashOf(a), HashOf(b));
    assert forall f :: f in sum <==> f in a + b;
    assert forall f | f in sum :: sum[f] == a[f] + b[f];
  }

  /** One entry of the merge: an existing counter grows, a new one is copied. */
  method MergeEntry<T(!new)>(target: map<string, T>, key: string, value: T, text: Codec<T>,
                             ghost a: map<string, int>, ghost n: int)
    returns (merged: map<string, T>)
    requires Sound(text) && target == Printed(a, text) && value == text.show(n)
    ensures merged == Printed(a[key := FieldOr0(a, key) + n], text)
  {
    if key in target {
      merged := target[key := text.show(text.parse(target[key]) + text.parse(value))];
    } else {
      merged := target[key := value];
    }
  }

  /** `a` with those counters of `b` added that are not in `remaining`. */
  function PartialSum(a: map<string, int>, b: map<string, int>, remaining: set<string>): map<string, int> {
    AddCounts(a, b - remaining)
  }

  lemma PartialSumStep(a: map<string, int>, b: map<string, int>, remaining: set<string>, key: string)
    requires key in remaining && remaining <= b.Keys
    ensures PartialSum(a, b, remaining - {key}) ==
            PartialSum(a, b, remaining)[key := FieldOr0(PartialSum(a, b, remaining), key) + b[key]]
  {
  }

  lemma PartialSumEnds(a: map<string, int>, b: map<string, int>)
    ensures PartialSum(a, b, b.Keys) == a
    ensures PartialSum(a, b, {}) == AddCounts(a, b)
  {
    assert b - b.Keys == map[];
    assert b - {} == b;
  }

  /** `mergeRedisDataInPlace`: adding one hash of printed counters into another adds the counters, in whatever
      order the entries come. */
  method MergeCounters<T(!new)>(target: map<string, T>, source: map<string, T>, text: Codec<T>,
                                ghost a: map<string, int>, ghost b: map<string, int>)
    returns (merged: map<string, T>)
    requires Sound(text) && target == Printed(a, text) && source == Printed(b, text)
    ensures merged == Printed(AddCounts(a, b), text)
  {
    merged := target;
    var remaining := source.Keys;
    PartialSumEnds(a, b);
    assert remaining == b.Keys;
    while remaining != {}
      invariant remaining <= b.Keys
      invariant merged == Printed(PartialSum(a, b, remaining), text)
    {
      var key :| key in remaining;
      PartialSumStep(a, b, remaining, key);
      merged := MergeEntry(merged, key, source[key], text, PartialSum(a, b, remaining), b[key]);
      remaining := remaining - {key};
    }
  }

  /** `Object.entries` with the counts parsed, in some order. */
  method Entries<T(!new)>(h: map<string, T>, text: Codec<T>, ghost counts: map<string, int>)
    returns (es: seq<Count>)
    requires Sound(text) && h == Printed(counts, text)
    ensures Enumerates(es, counts)
  {
    es := [];
    var remaining := h.Keys;
    while remaining != {}
      invariant remaining <= h.Keys
      invariant DistinctNames(es)
      invariant forall e | e in es :: e.name in counts && e.name !in remaining && counts[e.name] == e.count
      invariant forall name | name in counts && name !in remaining :: Count(name, counts[name]) in es
      decreases |remaining|
    {
      var key :| key in remaining;
      es := es + [Count(key, text.parse(h[key]))];
      remaining := remaining - {key};
    }
  }
}
