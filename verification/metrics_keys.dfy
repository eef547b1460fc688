/** The names of the metrics keys in the flat Redis keyspace, and why the typed keys of the model may stand for them. */
module MetricsKeys {
  import opened Decimal
  import opened RedisStore
  import opened MetricsModel

  function Kind(dim: Dim): string {
    match dim
    case Volume => "volume:"
    case VolumeHour => "volume:hour:"
    case VolumeDay => "volume:day:"
    case Users => "users:"
    case Sessions => "sessions:"
    case Conversions => "conversions:"
    case EventTypes => "event_types:"
    case Countries => "countries:"
    case Devices => "devices:"
    case Referrers => "referrers:"
    case ResponseTimes => "response_times:"
  }

  /** The name of a key after the common `metrics:`. */
  function LocalName(k: Key): string {
    match k
    case LastActivity => "last_activity"
    case Bucket(dim, n) => Kind(dim) + ToString(n)
  }

  function KeyName(k: Key): string {
    "metrics:" + LocalName(k)
  }

  /** The characters by which the kinds of keys differ; the volume keys differ further on. */
  function Marks(dim: Dim): (char, char) {
    match dim
    case Volume => ('v', 'l')
    case VolumeHour => ('v', 'l')
    case VolumeDay => ('v', 'l')
    case Users => ('u', 'e')
    case Sessions => ('s', 's')
    case Conversions => ('c', 'n')
    case EventTypes => ('e', 'e')
    case Countries => ('c', 'u')
    case Devices => ('d', 'v')
    case Referrers => ('r', 'f')
    case ResponseTimes => ('r', 's')
  }

  lemma KindMarks(dim: Dim)
    ensures |Kind(dim)| > 5 && Kind(dim)[0] == Marks(dim).0 && Kind(dim)[2] == Marks(dim).1
  {
    match dim
    case Volume => assert Kind(dim)[2] == 'l';
    case VolumeHour => assert Kind(dim)[2] == 'l';
    case VolumeDay => assert Kind(dim)[2] == 'l';
    case Users => assert Kind(dim)[2] == 'e';
    case Sessions => assert Kind(dim)[2] == 's';
    case Conversions => assert Kind(dim)[2] == 'n';
    case EventTypes => assert Kind(dim)[2] == 'e';
    case Countries => assert Kind(dim)[2] == 'u';
    case Devices => assert Kind(dim)[2] == 'v';
    case Referrers => assert Kind(dim)[2] == 'f';
    case ResponseTimes => assert Kind(dim)[2] == 's';
  }

  /** What follows `volume:` tells the three granularities apart: a digit or a sign, `h` or `d`. */
  lemma VolumeMark(dim: Dim, n: int)
    requires Marks(dim) == ('v', 'l')
    ensures |LocalName(Bucket(dim, n))| > 7
    ensures var c := LocalName(Bucket(dim, n))[7]; (dim == VolumeHour <==> c == 'h') && (dim == VolumeDay <==> c == 'd')
  {
    if dim == Volume {
      assert LocalName(Bucket(dim, n))[7] == ToString(n)[0];
    }
  }

  lemma Cancel(p: string, x: string, y: string)
    requires p + x == p + y
    ensures x == y
  {
    assert x == (p + x)[|p|..] && y == (p + y)[|p|..];
  }

  lemma SameDim(a: Key, b: Key)
    requires a.Bucket? && b.Bucket? && LocalName(a) == LocalName(b)
    ensures a.dim == b.dim
  {
    KindMarks(a.dim);
    KindMarks(b.dim);
    assert LocalName(a)[0] == Kind(a.dim)[0] && LocalName(a)[2] == Kind(a.dim)[2];
    assert LocalName(b)[0] == Kind(b.dim)[0] && LocalName(b)[2] == Kind(b.dim)[2];
    assert Marks(a.dim) == Marks(b.dim);
    if Marks(a.dim) == ('v', 'l') {
      VolumeMark(a.dim, a.n);
      VolumeMark(b.dim, b.n);
    }
  }

  lemma ActivityApart(k: Key)
    requires k.Bucket?
    ensures LocalName(k) != LocalName(LastActivity)
  {
    KindMarks(k.dim);
    assert LocalName(k)[0] == Kind(k.dim)[0] && LocalName(LastActivity)[0] == 'l';
  }

  /** Distinct keys have distinct names: no two kinds of metrics, and no two buckets, ever share a Redis key. */
  lemma KeyNameInjective(a: Key, b: Key)
    requires KeyName(a) == KeyName(b)
    ensures a == b
  {
    Cancel("metrics:", LocalName(a), LocalName(b));
    if a.Bucket? && b.Bucket? {
      SameDim(a, b);
      Cancel(Kind(a.dim), ToString(a.n), ToString(b.n));
      PrintingInjective(a.n, b.n);
    } else if a.Bucket? {
      ActivityApart(a);
    } else if b.Bucket? {
      ActivityApart(b);
    }
  }

  /** The names under which other programs find the metrics. */
  lemma KeyNames(n: int)
    ensures KeyName(LastActivity) == "metrics:" + "last_activity"
    ensures KeyName(Bucket(Volume, n)) == "metrics:" + ("volume:" + ToString(n))
    ensures KeyName(Bucket(VolumeHour, n)) == "metrics:" + ("volume:hour:" + ToString(n))
    ensures KeyName(Bucket(VolumeDay, n)) == "metrics:" + ("volume:day:" + ToString(n))
    ensures KeyName(Bucket(Users, n)) == "metrics:" + ("users:" + ToString(n))
    ensures KeyName(Bucket(Sessions, n)) == "metrics:" + ("sessions:" + ToString(n))
    ensures KeyName(Bucket(Conversions, n)) == "metrics:" + ("conversions:" + ToString(n))
    ensures KeyName(Bucket(EventTypes, n)) == "metrics:" + ("event_types:" + ToString(n))
    ensures KeyName(Bucket(Countries, n)) == "metrics:" + ("countries:" + ToString(n))
    ensures KeyName(Bucket(Devices, n)) == "metrics:" + ("devices:" + ToString(n))
    ensures KeyName(Bucket(Referrers, n)) == "metrics:" + ("referrers:" + ToString(n))
    ensures KeyName(Bucket(ResponseTimes, n)) == "metrics:" + ("response_times:" + ToString(n))
  {
  }

  /** The flat keyspace holds the typed store under the keys' names; names of other features are free. */
  ghost predicate Mirrors(flat: map<string, Entry>, store: map<Key, Entry>) {
    forall k :: Raw(flat, KeyName(k)) == Raw(store, k)
  }

  function Named(c: Command<Key>): Command<string> {
    Command(KeyName(c.key), c.op)
  }

  /** A command on a name does to the flat keyspace what the command on the key does to the typed store. */
  lemma MirrorsExec(flat: map<string, Entry>, store: map<Key, Entry>, now: int, c: Command<Key>)
    requires Mirrors(flat, store)
    ensures Mirrors(Exec(flat, now, Named(c)), Exec(store, now, c))
  {
    var flat', store' := Exec(flat, now, Named(c)), Exec(store, now, c);
    assert Raw(flat, KeyName(c.key)) == Raw(store, c.key);
    forall k ensures Raw(flat', KeyName(k)) == Raw(store', k) {
      assert Raw(flat, KeyName(k)) == Raw(store, k);
      if KeyName(k) == KeyName(c.key) {
        KeyNameInjective(k, c.key);
      }
    }
  }

  lemma MirrorsReclaim(flat: map<string, Entry>, store: map<Key, Entry>, k: Key)
    requires Mirrors(flat, store)
    ensures Mirrors(flat - {KeyName(k)}, store - {k})
  {
    forall j ensures Raw(flat - {KeyName(k)}, KeyName(j)) == Raw(store - {k}, j) {
      assert Raw(flat, KeyName(j)) == Raw(store, j);
      if KeyName(j) == KeyName(k) {
        KeyNameInjective(j, k);
      }
    }
  }
}
