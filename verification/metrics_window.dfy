/** What the dashboard can see: reads of buckets that may have expired, at a distance from the current one. */
module MetricsWindow {
  import opened Wrappers
  import opened RedisStore
  import opened MetricsModel

  const INACTIVE_THRESHOLD_MINUTES := 2

  // ----- Reads of single keys -----

  function ReadHash<K>(store: map<K, Entry>, k: K, now: int): map<string, int> {
    match Live(store, k, now)
    case Some(Entry(Hash(h), _)) => h
    case _ => map[]
  }

  function ReadSet<K>(store: map<K, Entry>, k: K, now: int): set<string> {
    match Live(store, k, now)
    case Some(Entry(Members(m), _)) => m
    case _ => {}
  }

  function ReadList<K>(store: map<K, Entry>, k: K, now: int): seq<int> {
    match Live(store, k, now)
    case Some(Entry(List(l), _)) => l
    case _ => []
  }

  /** The stored activity time, unless its key has expired. */
  function ReadStamp<K>(store: map<K, Entry>, k: K, now: int): Option<int> {
    match Live(store, k, now)
    case Some(Entry(String(Stamp(t)), _)) => Some(t)
    case _ => None
  }

  /** A bucket can be seen while the time-to-live set by its last write runs. */
  predicate Visible(s: State, dim: Dim, n: int) {
    match LastTouch(Bucket(dim, n), s.log)
    case None => false
    case Some(t) => s.now <= t + TtlSeconds(dim) * 1000
  }

  function Seen(s: State, dim: Dim, n: int): multiset<string> {
    if Visible(s, dim, n) then Gather(dim, s.log, n, n) else multiset{}
  }

  lemma LiveIsIdeal(s: State, k: Key)
    requires Agrees(s)
    ensures Live(s.store, k, s.now) == Filter(Ideal(k, s.log), s.now)
  {
    assert KeyAgrees(s, k);
  }

  /** Expiry is all or nothing: a read returns the full recount of the bucket's events or nothing at all. */
  lemma AllOrNothing(s: State, dim: Dim, n: int)
    requires Agrees(s) && dim != ResponseTimes
    ensures !IsSetDim(dim) ==> ReadHash(s.store, Bucket(dim, n), s.now) == HashOf(Seen(s, dim, n))
    ensures IsSetDim(dim) ==> ReadSet(s.store, Bucket(dim, n), s.now) == Support(Seen(s, dim, n))
  {
    LiveIsIdeal(s, Bucket(dim, n));
    assert HashOf(multiset{}) == map[];
    assert Support(multiset{}) == {};
  }

  lemma AllOrNothingLatencies(s: State, n: int)
    requires Agrees(s)
    ensures ReadList(s.store, Bucket(ResponseTimes, n), s.now) ==
            if Visible(s, ResponseTimes, n) then Take(Latencies(s.log, n), 100) else []
  {
    LiveIsIdeal(s, Bucket(ResponseTimes, n));
  }

  // ----- The bucket at an offset -----

  lemma OffsetTimes(now: int, at: int, u: int, n: int, i: int)
    requires u > 0 && now / u == n + i && at / u == n
    ensures (i - 1) * u < now - at < (i + 1) * u
  {
    assert now == (now / u) * u + now % u;
    assert at == (at / u) * u + at % u;
    assert (n + i) * u - n * u == i * u;
  }

  /** A bucket `i` steps back is complete as long as its time-to-live covers `i + 1` buckets, and certainly
      gone once it covers no more than `i - 1`. */
  lemma BucketAtOffset(s: State, dim: Dim, i: nat)
    requires Agrees(s)
    ensures var n := s.now / Unit(dim) - i;
            && ((i + 1) * Unit(dim) <= TtlSeconds(dim) * 1000 ==>
                  Seen(s, dim, n) == Gather(dim, s.log, n, n) &&
                  (Visible(s, dim, n) <==> LastTouch(Bucket(dim, n), s.log).Some?))
            && (TtlSeconds(dim) * 1000 <= (i - 1) * Unit(dim) ==>
                  !Visible(s, dim, n) && Seen(s, dim, n) == multiset{})
  {
    var n := s.now / Unit(dim) - i;
    if LastTouch(Bucket(dim, n), s.log).None? {
      UntouchedIsEmpty(dim, n, s.log);
    } else {
      var j := LastTouchInLog(Bucket(dim, n), s.log);
      OffsetTimes(s.now, s.log[j].at, Unit(dim), n, i);
    }
  }

  // ----- Windows of buckets -----

  predicate IsMinuteDim(dim: Dim) {
    Unit(dim) == MINUTE && dim != ResponseTimes
  }

  /** What merging the buckets `lo..hi` yields. */
  function SeenIn(s: State, dim: Dim, lo: int, hi: int): multiset<string>
    decreases hi - lo
  {
    if hi < lo then multiset{} else Seen(s, dim, lo) + SeenIn(s, dim, lo + 1, hi)
  }

  lemma {:induction false} GatherSplit(dim: Dim, log: seq<Logged>, lo: int, mid: int, hi: int)
    requires lo - 1 <= mid <= hi
    ensures Gather(dim, log, lo, hi) == Gather(dim, log, lo, mid) + Gather(dim, log, mid + 1, hi)
  {
    if log != [] {
      GatherSplit(dim, log[..|log| - 1], lo, mid, hi);
    }
  }

  lemma GatherNone(dim: Dim, log: seq<Logged>, lo: int, hi: int)
    requires hi < lo
    ensures Gather(dim, log, lo, hi) == multiset{}
  {
  }

  lemma {:induction false} SeenInComplete(s: State, dim: Dim, lo: int, hi: int)
    requires forall n | lo <= n <= hi :: Seen(s, dim, n) == Gather(dim, s.log, n, n)
    ensures SeenIn(s, dim, lo, hi) == Gather(dim, s.log, lo, hi)
    decreases hi - lo
  {
    if hi < lo {
      GatherNone(dim, s.log, lo, hi);
    } else {
      SeenInComplete(s, dim, lo + 1, hi);
      GatherSplit(dim, s.log, lo, lo, hi);
    }
  }

  /** Seven minutes of time-to-live keep the current minute `m` and the six before it complete. */
  lemma RecentBucket(s: State, dim: Dim, n: int, m: int)
    requires Agrees(s) && IsMinuteDim(dim) && m == s.now / MINUTE && m - 6 <= n <= m
    ensures Seen(s, dim, n) == Gather(dim, s.log, n, n)
  {
    BucketAtOffset(s, dim, m - n);
    assert Unit(dim) == MINUTE && TtlSeconds(dim) == 420;
    assert (m - n + 1) * MINUTE <= 7 * MINUTE;
  }

  lemma StaleBucket(s: State, dim: Dim, n: int, m: int)
    requires Agrees(s) && IsMinuteDim(dim) && m == s.now / MINUTE && n <= m - 8
    ensures Seen(s, dim, n) == multiset{}
  {
    BucketAtOffset(s, dim, m - n);
    assert Unit(dim) == MINUTE && TtlSeconds(dim) == 420;
    assert 7 * MINUTE <= (m - n - 1) * MINUTE;
  }

  lemma RecentBuckets(s: State, dim: Dim, lo: int, hi: int, m: int)
    requires Agrees(s) && IsMinuteDim(dim) && m == s.now / MINUTE && m - 6 <= lo && hi <= m
    ensures SeenIn(s, dim, lo, hi) == Gather(dim, s.log, lo, hi)
  {
    forall n | lo <= n <= hi ensures Seen(s, dim, n) == Gather(dim, s.log, n, n) {
      RecentBucket(s, dim, n, m);
    }
    SeenInComplete(s, dim, lo, hi);
  }

  /** The active window is exact in every dimension: expiry never loses an event of the last five minutes. */
  lemma ActiveWindowExact(s: State, dim: Dim, m: int)
    requires Agrees(s) && IsMinuteDim(dim) && m == s.now / MINUTE
    ensures SeenIn(s, dim, m - 4, m) == Gather(dim, s.log, m - 4, m)
  {
    RecentBuckets(s, dim, m - 4, m, m);
  }

  lemma SkipUnseen(s: State, dim: Dim, lo: int, hi: int)
    requires lo + 2 <= hi
    requires Seen(s, dim, lo) == multiset{} && Seen(s, dim, lo + 1) == multiset{}
    ensures SeenIn(s, dim, lo, hi) == Seen(s, dim, lo + 2) + SeenIn(s, dim, lo + 3, hi)
  {
    assert SeenIn(s, dim, lo, hi) == SeenIn(s, dim, lo + 1, hi) == SeenIn(s, dim, lo + 2, hi);
  }

  /** The previous window is exact two minutes deep, all or nothing in the third and blind beyond. */
  lemma PreviousWindow(s: State, dim: Dim, m: int)
    requires Agrees(s) && IsMinuteDim(dim) && m == s.now / MINUTE
    ensures SeenIn(s, dim, m - 9, m - 5) == Seen(s, dim, m - 7) + Gather(dim, s.log, m - 6, m - 5)
  {
    StaleBucket(s, dim, m - 9, m);
    StaleBucket(s, dim, m - 8, m);
    RecentBuckets(s, dim, m - 6, m - 5, m);
    SkipUnseen(s, dim, m - 9, m - 5);
  }

  // ----- Counting -----

  /** How many events were processed in the buckets `lo..hi` of width `u`. */
  function EventCount(log: seq<Logged>, u: int, lo: int, hi: int): nat
    requires u > 0
  {
    if log == [] then 0
    else
      var before := EventCount(log[..|log| - 1], u, lo, hi);
      if lo <= log[|log| - 1].at / u <= hi then before + 1 else before
  }

  /** The dimensions in which every event counts exactly once. */
  predicate IsDistribution(dim: Dim) {
    dim == EventTypes || dim == Countries || dim == Devices || dim == Referrers || dim == Users
  }

  lemma FieldsSize(dim: Dim, ev: Event)
    ensures IsDistribution(dim) ==> |Fields(dim, ev)| == 1
    ensures dim == Conversions ==> |Fields(dim, ev)| <= 1
  {
    BagSize(Added(dim, ev));
  }

  lemma BagSize(s: seq<string>)
    ensures |multiset(s)| == |s|
  {
  }

  /** Every event counts once in each distribution, and at most once among the conversions. */
  lemma {:induction false} DistributionTotal(dim: Dim, log: seq<Logged>, lo: int, hi: int)
    requires IsDistribution(dim) || dim == Conversions
    ensures IsDistribution(dim) ==> |Gather(dim, log, lo, hi)| == EventCount(log, MINUTE, lo, hi)
    ensures |Gather(dim, log, lo, hi)| <= EventCount(log, MINUTE, lo, hi)
  {
    if log != [] {
      DistributionTotal(dim, log[..|log| - 1], lo, hi);
      FieldsSize(dim, log[|log| - 1].event);
    }
  }

  /** The volume hash is the per-name hash with a counter for all events laid over it: an event named like
      the counter is counted twice there. */
  lemma {:induction false} VolumeTotal(dim: Dim, log: seq<Logged>, lo: int, hi: int)
    requires dim == Volume || dim == VolumeHour
    ensures Gather(dim, log, lo, hi)[TOTAL_EVENTS] ==
            EventCount(log, Unit(dim), lo, hi) + NamedTotal(log, Unit(dim), lo, hi)
  {
    if log != [] {
      VolumeTotal(dim, log[..|log| - 1], lo, hi);
    }
  }

  /** How many of those events carry the name of the counter. */
  function NamedTotal(log: seq<Logged>, u: int, lo: int, hi: int): nat
    requires u > 0
  {
    if log == [] then 0
    else
      var x := log[|log| - 1];
      var before := NamedTotal(log[..|log| - 1], u, lo, hi);
      if lo <= x.at / u <= hi && x.event.eventName == TOTAL_EVENTS then before + 1 else before
  }

  lemma {:induction false} NamedTotalBound(log: seq<Logged>, u: int, lo: int, hi: int)
    requires u > 0
    ensures NamedTotal(log, u, lo, hi) <= EventCount(log, u, lo, hi)
  {
    if log != [] {
      NamedTotalBound(log[..|log| - 1], u, lo, hi);
    }
  }

  lemma {:induction false} NamedTotalIsCount(log: seq<Logged>, lo: int, hi: int)
    ensures NamedTotal(log, MINUTE, lo, hi) == Gather(EventTypes, log, lo, hi)[TOTAL_EVENTS]
  {
    if log != [] {
      NamedTotalIsCount(log[..|log| - 1], lo, hi);
    }
  }

  /** The sizes of a window's dimensions, in terms of its events and of those that carry the counter's name. */
  lemma WindowSizes(log: seq<Logged>, lo: int, hi: int)
    ensures Gather(Volume, log, lo, hi)[TOTAL_EVENTS] == EventCount(log, MINUTE, lo, hi) + NamedTotal(log, MINUTE, lo, hi)
    ensures |Gather(EventTypes, log, lo, hi)| == |Gather(Users, log, lo, hi)| == EventCount(log, MINUTE, lo, hi)
    ensures |Gather(Conversions, log, lo, hi)| <= EventCount(log, MINUTE, lo, hi)
  {
    VolumeTotal(Volume, log, lo, hi);
    DistributionTotal(EventTypes, log, lo, hi);
    DistributionTotal(Users, log, lo, hi);
    DistributionTotal(Conversions, log, lo, hi);
  }

  ghost predicate InRange(x: Logged, u: int, lo: int, hi: int)
    requires u > 0
  {
    lo <= x.at / u <= hi
  }

  lemma {:induction false} NoNamedTotalIff(log: seq<Logged>, u: int, lo: int, hi: int)
    requires u > 0
    ensures NamedTotal(log, u, lo, hi) == 0 <==>
            forall x | x in log && InRange(x, u, lo, hi) :: x.event.eventName != TOTAL_EVENTS
  {
    if log != [] {
      var front, last := log[..|log| - 1], log[|log| - 1];
      NoNamedTotalIff(front, u, lo, hi);
      SnocMembers(log);
    }
  }

  lemma {:induction false} NoEventsIff(log: seq<Logged>, u: int, lo: int, hi: int)
    requires u > 0
    ensures EventCount(log, u, lo, hi) == 0 <==> forall x | x in log :: !InRange(x, u, lo, hi)
  {
    if log != [] {
      var front, last := log[..|log| - 1], log[|log| - 1];
      NoEventsIff(front, u, lo, hi);
      SnocMembers(log);
      assert last in log && forall x :: x in front ==> x in log;
    }
  }

  lemma SnocMembers<T>(s: seq<T>)
    requires s != []
    ensures forall x :: x in s <==> x in s[..|s| - 1] || x == s[|s| - 1]
  {
    assert s == s[..|s| - 1] + [s[|s| - 1]];
  }

  // ----- The activity check -----

  /** `isSystemActive`: the stored activity time is at most two minutes old. */
  predicate IsActive<K>(store: map<K, Entry>, activityKey: K, now: int) {
    match ReadStamp(store, activityKey, now)
    case None => false
    case Some(t) => now - t <= INACTIVE_THRESHOLD_MINUTES * MINUTE
  }

  lemma ActivityIsNewest(s: State)
    requires Agrees(s)
    ensures s.log == [] ==> ReadStamp(s.store, LastActivity, s.now).None?
    ensures s.log != [] ==>
              var last := s.log[|s.log| - 1].at;
              ReadStamp(s.store, LastActivity, s.now) ==
              if s.now - last <= ACTIVITY_TTL * 1000 then Some(last) else None
  {
    LiveIsIdeal(s, LastActivity);
  }

  /** The system is active exactly when some event was processed within the last two minutes. */
  lemma ActiveIff(s: State)
    requires Agrees(s)
    ensures IsActive(s.store, LastActivity, s.now) <==>
            exists x | x in s.log :: s.now - x.at <= 120_000
  {
    ActivityIsNewest(s);
    if s.log != [] {
      var last := s.log[|s.log| - 1];
      assert last in s.log && forall x | x in s.log :: x.at <= last.at;
    }
  }

  /** An active system always has an event in its active window. */
  lemma ActiveHasEvents(s: State, m: int)
    requires Agrees(s) && IsActive(s.store, LastActivity, s.now) && m == s.now / MINUTE
    ensures EventCount(s.log, MINUTE, m - 4, m) >= 1
  {
    ActiveIff(s);
    var x :| x in s.log && s.now - x.at <= 120_000;
    assert InRange(x, MINUTE, m - 4, m);
    NoEventsIff(s.log, MINUTE, m - 4, m);
  }

  // ----- What the totals on the dashboard mean -----

  function SeenTotal(s: State, dim: Dim, lo: int, hi: int): nat {
    SeenIn(s, dim, lo, hi)[TOTAL_EVENTS]
  }

  lemma ActiveTotal(s: State, m: int)
    requires Agrees(s) && m == s.now / MINUTE
    ensures SeenTotal(s, Volume, m - 4, m) == EventCount(s.log, MINUTE, m - 4, m) + NamedTotal(s.log, MINUTE, m - 4, m)
  {
    ActiveWindowExact(s, Volume, m);
    VolumeTotal(Volume, s.log, m - 4, m);
  }

  /** The dashboard's total is the number of events of the last five minutes, exactly when none of them
      carries the counter's name. */
  lemma ActiveTotalExactIff(s: State, m: int)
    requires Agrees(s) && m == s.now / MINUTE
    ensures SeenTotal(s, Volume, m - 4, m) == EventCount(s.log, MINUTE, m - 4, m) <==>
            forall x | x in s.log && InRange(x, MINUTE, m - 4, m) :: x.event.eventName != TOTAL_EVENTS
  {
    ActiveTotal(s, m);
    NoNamedTotalIff(s.log, MINUTE, m - 4, m);
  }

  lemma {:induction false} CountSplit(log: seq<Logged>, u: int, lo: int, mid: int, hi: int)
    requires u > 0 && lo - 1 <= mid <= hi
    ensures EventCount(log, u, lo, hi) == EventCount(log, u, lo, mid) + EventCount(log, u, mid + 1, hi)
    ensures NamedTotal(log, u, lo, hi) == NamedTotal(log, u, lo, mid) + NamedTotal(log, u, mid + 1, hi)
  {
    if log != [] {
      CountSplit(log[..|log| - 1], u, lo, mid, hi);
    }
  }

  /** What the previous window shows as its total. */
  lemma PreviousTotal(s: State, m: int)
    requires Agrees(s) && m == s.now / MINUTE
    ensures SeenTotal(s, Volume, m - 9, m - 5) ==
              EventCount(s.log, MINUTE, m - 6, m - 5) + NamedTotal(s.log, MINUTE, m - 6, m - 5) +
              if Visible(s, Volume, m - 7)
              then EventCount(s.log, MINUTE, m - 7, m - 7) + NamedTotal(s.log, MINUTE, m - 7, m - 7) else 0
  {
    PreviousWindow(s, Volume, m);
    VolumeTotal(Volume, s.log, m - 7, m - 7);
    VolumeTotal(Volume, s.log, m - 6, m - 5);
  }

  /** The previous window's total is the number of events of minutes 5 to 9 back exactly when the events of the
      counter's name that it counts twice make up for the events that it does not see. */
  lemma PreviousTotalExactIff(s: State, m: int)
    requires Agrees(s) && m == s.now / MINUTE
    ensures SeenTotal(s, Volume, m - 9, m - 5) == EventCount(s.log, MINUTE, m - 9, m - 5) <==>
              NamedTotal(s.log, MINUTE, m - 6, m - 5)
                + (if Visible(s, Volume, m - 7) then NamedTotal(s.log, MINUTE, m - 7, m - 7) else 0)
              == EventCount(s.log, MINUTE, m - 9, m - 8)
                + (if Visible(s, Volume, m - 7) then 0 else EventCount(s.log, MINUTE, m - 7, m - 7))
  {
    PreviousTotal(s, m);
    CountSplit(s.log, MINUTE, m - 9, m - 8, m - 5);
    CountSplit(s.log, MINUTE, m - 7, m - 7, m - 5);
  }

  /** If no event carries the counter's name, it never exceeds that number, and equals it exactly when the two oldest
      minutes were idle and the seventh was idle or written within its time-to-live. */
  lemma PreviousTotalUnnamed(s: State, m: int)
    requires Agrees(s) && m == s.now / MINUTE
    requires forall x | x in s.log && InRange(x, MINUTE, m - 9, m - 5) :: x.event.eventName != TOTAL_EVENTS
    ensures SeenTotal(s, Volume, m - 9, m - 5) <= EventCount(s.log, MINUTE, m - 9, m - 5)
    ensures SeenTotal(s, Volume, m - 9, m - 5) == EventCount(s.log, MINUTE, m - 9, m - 5) <==>
              EventCount(s.log, MINUTE, m - 9, m - 8) == 0
              && (EventCount(s.log, MINUTE, m - 7, m - 7) == 0 || Visible(s, Volume, m - 7))
  {
    PreviousTotal(s, m);
    NoNamedTotalIff(s.log, MINUTE, m - 9, m - 5);
    CountSplit(s.log, MINUTE, m - 9, m - 8, m - 5);
    CountSplit(s.log, MINUTE, m - 7, m - 7, m - 5);
  }

  // ----- Distinct users of the previous window -----

  lemma SupportUnion(a: multiset<string>, b: multiset<string>)
    ensures Support(a + b) == Support(a) + Support(b)
  {
  }

  lemma SubsetSize<T>(a: set<T>, b: set<T>)
    requires a <= b
    ensures |a| <= |b| && (|a| == |b| <==> a == b)
  {
    assert b == a + (b - a);
  }

  /** The distinct users, or other members, of the minutes `lo..hi`, on the log. */
  function DistinctOf(dim: Dim, log: seq<Logged>, lo: int, hi: int): set<string> {
    Support(Gather(dim, log, lo, hi))
  }

  function OneMore<T>(some: set<T>, present: bool, more: set<T>): set<T> {
    if present then some + more else some
  }

  /** Those of the minutes 5 to 9 back that can still be seen. */
  function VisibleDistinct(s: State, dim: Dim, m: int): set<string> {
    OneMore(DistinctOf(dim, s.log, m - 6, m - 5), Visible(s, dim, m - 7), DistinctOf(dim, s.log, m - 7, m - 7))
  }

  lemma PartOfUnion<T>(newest: set<T>, seventh: set<T>, oldest: set<T>, visible: bool, shown: set<T>, all: set<T>)
    requires shown == OneMore(newest, visible, seventh) && all == newest + seventh + oldest
    ensures shown <= all && |shown| <= |all|
    ensures |shown| == |all| <==> oldest <= shown && (visible || seventh <= shown)
  {
    SubsetSize(shown, all);
  }

  lemma ShownSupport(newest: multiset<string>, seventh: multiset<string>, visible: bool)
    ensures Support((if visible then seventh else multiset{}) + newest) ==
            OneMore(Support(newest), visible, Support(seventh))
  {
  }

  /** A window of which `newest` is shown, `seventh` perhaps and `oldest` never. */
  ghost predicate Parts(newest: multiset<string>, seventh: multiset<string>, oldest: multiset<string>, visible: bool,
                        shown: multiset<string>, all: multiset<string>) {
    shown == (if visible then seventh else multiset{}) + newest && all == oldest + (seventh + newest)
  }

  ghost predicate DistinctShown(newest: multiset<string>, seventh: multiset<string>, oldest: multiset<string>,
                                visible: bool, shown: set<string>, all: set<string>) {
    var seen := OneMore(Support(newest), visible, Support(seventh));
    && shown == seen && shown <= all && |shown| <= |all|
    && (|shown| == |all| <==> Support(oldest) <= seen && (visible || Support(seventh) <= seen))
  }

  lemma SupportsExactIff(newest: multiset<string>, seventh: multiset<string>, oldest: multiset<string>, visible: bool,
                         shown: multiset<string>, all: multiset<string>)
    requires Parts(newest, seventh, oldest, visible, shown, all)
    ensures DistinctShown(newest, seventh, oldest, visible, Support(shown), Support(all))
  {
    ShownSupport(newest, seventh, visible);
    SupportUnion(oldest, seventh + newest);
    SupportUnion(seventh, newest);
    PartOfUnion(Support(newest), Support(seventh), Support(oldest), visible, Support(shown), Support(all));
  }

  lemma PreviousWindowParts(s: State, dim: Dim, m: int)
    requires Agrees(s) && IsMinuteDim(dim) && m == s.now / MINUTE
    ensures Parts(Gather(dim, s.log, m - 6, m - 5), Gather(dim, s.log, m - 7, m - 7),
                  Gather(dim, s.log, m - 9, m - 8), Visible(s, dim, m - 7),
                  SeenIn(s, dim, m - 9, m - 5), Gather(dim, s.log, m - 9, m - 5))
  {
    PreviousWindow(s, dim, m);
    GatherSplit(dim, s.log, m - 9, m - 8, m - 5);
    GatherSplit(dim, s.log, m - 7, m - 7, m - 5);
  }

  /** Everyone active in a minute that cannot be seen any more is among `seen`. */
  ghost predicate AllSeen(s: State, dim: Dim, m: int, seen: set<string>) {
    && DistinctOf(dim, s.log, m - 9, m - 8) <= seen
    && (Visible(s, dim, m - 7) || DistinctOf(dim, s.log, m - 7, m - 7) <= seen)
  }

  lemma PreviousDistinct(s: State, dim: Dim, m: int)
    requires Agrees(s) && IsMinuteDim(dim) && m == s.now / MINUTE
    ensures DistinctShown(Gather(dim, s.log, m - 6, m - 5), Gather(dim, s.log, m - 7, m - 7),
                          Gather(dim, s.log, m - 9, m - 8), Visible(s, dim, m - 7),
                          Support(SeenIn(s, dim, m - 9, m - 5)), Support(Gather(dim, s.log, m - 9, m - 5)))
  {
    PreviousWindowParts(s, dim, m);
    SupportsExactIff(Gather(dim, s.log, m - 6, m - 5), Gather(dim, s.log, m - 7, m - 7),
                     Gather(dim, s.log, m - 9, m - 8), Visible(s, dim, m - 7),
                     SeenIn(s, dim, m - 9, m - 5), Gather(dim, s.log, m - 9, m - 5));
  }

  /** The previous window shows the users of the minutes that can still be seen, and so as many as there were exactly
      when everyone active in minutes 8 and 9 back, or in minute 7 once that is gone, was also active in one of them. */
  lemma PreviousUsersExactIff(s: State, m: int)
    requires Agrees(s) && m == s.now / MINUTE
    ensures var shown, all := Support(SeenIn(s, Users, m - 9, m - 5)), DistinctOf(Users, s.log, m - 9, m - 5);
            && shown == VisibleDistinct(s, Users, m) && shown <= all && |shown| <= |all|
            && (|shown| == |all| <==> AllSeen(s, Users, m, VisibleDistinct(s, Users, m)))
  {
    PreviousDistinct(s, Users, m);
  }

  lemma SeenInOne(s: State, dim: Dim, n: int)
    ensures SeenIn(s, dim, n, n) == Seen(s, dim, n)
  {
    assert SeenIn(s, dim, n + 1, n) == multiset{};
  }

  lemma ChartRead(s: State, i: nat, h: int)
    requires Agrees(s) && h == s.now / HOUR - i
    ensures Seen(s, VolumeHour, h) ==
            if i == 0 || (i == 1 && Visible(s, VolumeHour, h)) then Gather(VolumeHour, s.log, h, h) else multiset{}
  {
    BucketAtOffset(s, VolumeHour, i);
    assert i >= 2 ==> HOUR <= (i - 1) * HOUR;
  }

  /** One entry of the 24-hour chart, `i` hours back. An hour is shown if it is the current one, or the one before
      and written less than an hour ago. The entry is the number of the hour's events exactly when the hour is shown
      and none of them carries the counter's name, or it is not shown and there are none. */
  lemma ChartEntry(s: State, i: nat, h: int)
    requires Agrees(s) && h == s.now / HOUR - i
    ensures var shown := i == 0 || (i == 1 && Visible(s, VolumeHour, h));
            && SeenTotal(s, VolumeHour, h, h) ==
                 (if shown then EventCount(s.log, HOUR, h, h) + NamedTotal(s.log, HOUR, h, h) else 0)
            && (SeenTotal(s, VolumeHour, h, h) == EventCount(s.log, HOUR, h, h) <==>
                  forall x | x in s.log && InRange(x, HOUR, h, h) :: shown && x.event.eventName != TOTAL_EVENTS)
  {
    SeenInOne(s, VolumeHour, h);
    ChartRead(s, i, h);
    VolumeTotal(VolumeHour, s.log, h, h);
    NoNamedTotalIff(s.log, HOUR, h, h);
    NoEventsIff(s.log, HOUR, h, h);
  }

  // ----- Live minute buckets -----

  /** The dimensions that every event touches. */
  predicate TouchedByAll(dim: Dim) {
    dim == Volume || IsDistribution(dim)
  }

  lemma TouchedIff(dim: Dim, n: int, x: Logged)
    requires TouchedByAll(dim)
    ensures Touches(Bucket(dim, n), x) <==> x.at / MINUTE == n
  {
    if dim == Volume {
      assert TOTAL_EVENTS in Fields(dim, x.event);
    } else {
      FieldsSize(dim, x.event);
    }
  }

  lemma {:induction false} TouchedTogether(dim: Dim, n: int, log: seq<Logged>)
    requires TouchedByAll(dim)
    ensures LastTouch(Bucket(dim, n), log) == LastTouch(Bucket(Volume, n), log)
  {
    if log != [] {
      TouchedIff(dim, n, log[|log| - 1]);
      TouchedIff(Volume, n, log[|log| - 1]);
      TouchedTogether(dim, n, log[..|log| - 1]);
    }
  }

  /** In a live minute bucket every distribution adds up to the number of the minute's events, which is the total
      less the events that carry the counter's name; users and conversions do not exceed it. */
  lemma LiveBucketSums(s: State, n: int, dim: Dim)
    requires Agrees(s) && Visible(s, Volume, n)
    ensures var events := EventCount(s.log, MINUTE, n, n);
            && Seen(s, Volume, n)[TOTAL_EVENTS] == events + NamedTotal(s.log, MINUTE, n, n)
            && (IsDistribution(dim) ==> Visible(s, dim, n) && |Seen(s, dim, n)| == events)
            && |Support(Seen(s, Users, n))| <= events
            && |Seen(s, Conversions, n)| <= events
  {
    VolumeTotal(Volume, s.log, n, n);
    UsersAndConversions(s, n);
    if IsDistribution(dim) {
      TouchedTogether(dim, n, s.log);
      DistributionTotal(dim, s.log, n, n);
    }
  }

  lemma UsersAndConversions(s: State, n: int)
    ensures |Support(Seen(s, Users, n))| <= EventCount(s.log, MINUTE, n, n)
    ensures |Seen(s, Conversions, n)| <= EventCount(s.log, MINUTE, n, n)
  {
    SupportSize(Seen(s, Users, n));
    DistributionTotal(Users, s.log, n, n);
    DistributionTotal(Conversions, s.log, n, n);
  }

  lemma {:induction false} SupportSize(ms: multiset<string>)
    ensures |Support(ms)| <= |ms|
    decreases |ms|
  {
    if f :| f in ms {
      var rest := ms[f := 0];
      assert |rest| == |ms| - ms[f];
      SupportSize(rest);
      assert Support(ms) == Support(rest) + {f};
    } else {
      assert Support(ms) == {};
    }
  }

  // ----- Whole runs -----

  lemma ReachableAgrees(start: int, steps: seq<Step>)
    ensures Agrees(Run(Start(start), steps))
  {
    StartAgrees(start);
    RunAgrees(Start(start), steps);
  }

  /** Whatever was processed, however the clock advanced and whichever dead keys were reclaimed: reading and merging
      the active window yields, in every dimension, exactly the recount of the events of the last five minutes. */
  lemma WindowOfAnyRun(start: int, steps: seq<Step>, s: State, m: int, dim: Dim, n: int)
    requires s == Run(Start(start), steps) && m == s.now / MINUTE && IsMinuteDim(dim)
    ensures SeenIn(s, dim, m - 4, m) == Gather(dim, s.log, m - 4, m)
    ensures if IsSetDim(dim) then ReadSet(s.store, Bucket(dim, n), s.now) == Support(Seen(s, dim, n))
            else ReadHash(s.store, Bucket(dim, n), s.now) == HashOf(Seen(s, dim, n))
  {
    ReachableAgrees(start, steps);
    ActiveWindowExact(s, dim, m);
    AllOrNothing(s, dim, n);
  }

  // ----- Runs on which the dashboard misses events -----

  /** One event, and then `ms` milliseconds of silence. */
  function OneEventThen(r: Event, ms: nat): State {
    State(ms, ExecAll(map[], 0, EventCommands(0, r)), [Logged(0, r)])
  }

  lemma OneEventRun(r: Event, ms: nat)
    ensures Run(Start(0), [Process(r), Advance(ms)]) == OneEventThen(r, ms)
    ensures Agrees(OneEventThen(r, ms))
  {
    var s1 := Next(Start(0), Process(r));
    var s2 := Next(s1, Advance(ms));
    assert [Process(r), Advance(ms)][1..] == [Advance(ms)];
    assert Run(s1, [Advance(ms)]) == Run(s2, []) == s2;
    assert s1.log == [Logged(0, r)];
    ReachableAgrees(0, [Process(r), Advance(ms)]);
  }

  lemma OneEventCount(r: Event, u: int, lo: int, hi: int)
    requires u > 0 && lo <= 0 <= hi
    ensures EventCount([Logged(0, r)], u, lo, hi) == 1
    ensures NamedTotal([Logged(0, r)], u, lo, hi) == if r.eventName == TOTAL_EVENTS then 1 else 0
  {
    assert [Logged(0, r)][..0] == [];
  }

  lemma OneEventElsewhere(r: Event, u: int, lo: int, hi: int)
    requires u > 0 && lo > 0
    ensures EventCount([Logged(0, r)], u, lo, hi) == 0
    ensures NamedTotal([Logged(0, r)], u, lo, hi) == 0
  {
    assert [Logged(0, r)][..0] == [];
  }

  /** After that silence another event makes the system active, so that the dashboard is read. */
  function ActiveAgain(r: Event, ms: nat, q: Event): State {
    Next(OneEventThen(r, ms), Process(q))
  }

  lemma ActiveAgainRun(r: Event, ms: nat, q: Event)
    ensures var s := ActiveAgain(r, ms, q);
            && s.now == ms && s.log == [Logged(0, r), Logged(ms, q)]
            && Agrees(s) && IsActive(s.store, LastActivity, s.now)
  {
    var s := ActiveAgain(r, ms, q);
    OneEventRun(r, ms);
    StepAgrees(OneEventThen(r, ms), Process(q));
    assert s.log == [Logged(0, r)] + [Logged(ms, q)];
    assert s.log[1] in s.log;
    ActiveIff(s);
  }

  lemma TwoEventsCount(r: Event, ms: nat, q: Event, u: int, lo: int, hi: int)
    requires u > 0 && hi < ms / u
    ensures var log := [Logged(0, r), Logged(ms, q)];
            && EventCount(log, u, lo, hi) == EventCount([Logged(0, r)], u, lo, hi)
            && NamedTotal(log, u, lo, hi) == NamedTotal([Logged(0, r)], u, lo, hi)
  {
    assert [Logged(0, r), Logged(ms, q)][..1] == [Logged(0, r)];
  }

  /** Eight minutes after an event the system becomes active again: the previous window should count the event and
      does not. */
  lemma PreviousWindowCanMiss(r: Event, q: Event)
    ensures var s := ActiveAgain(r, 8 * MINUTE, q);
            && s.now / MINUTE == 8 && IsActive(s.store, LastActivity, s.now)
            && SeenTotal(s, Volume, -1, 3) == 0 && EventCount(s.log, MINUTE, -1, 3) == 1
  {
    ActiveAgainRun(r, 8 * MINUTE, q);
    OneEventCount(r, MINUTE, -1, 3);
    OneEventElsewhere(r, MINUTE, 1, 1);
    OneEventElsewhere(r, MINUTE, 2, 3);
    TwoEventsCount(r, 8 * MINUTE, q, MINUTE, -1, 3);
    TwoEventsCount(r, 8 * MINUTE, q, MINUTE, 1, 1);
    TwoEventsCount(r, 8 * MINUTE, q, MINUTE, 2, 3);
    PreviousTotal(ActiveAgain(r, 8 * MINUTE, q), 8);
  }

  /** Two hours after an event the system becomes active again: the chart should show the event and does not. */
  lemma ChartCanMiss(r: Event, q: Event)
    ensures var s := ActiveAgain(r, 2 * HOUR, q);
            && s.now / HOUR == 2 && IsActive(s.store, LastActivity, s.now)
            && SeenTotal(s, VolumeHour, 0, 0) == 0 && EventCount(s.log, HOUR, 0, 0) == 1
  {
    ActiveAgainRun(r, 2 * HOUR, q);
    OneEventCount(r, HOUR, 0, 0);
    TwoEventsCount(r, 2 * HOUR, q, HOUR, 0, 0);
    ChartEntry(ActiveAgain(r, 2 * HOUR, q), 2, 0);
  }

  /** One event with the counter's name makes the dashboard count two. */
  lemma TotalCanExceed(r: Event)
    requires r.eventName == TOTAL_EVENTS
    ensures var s := OneEventThen(r, 0);
            SeenTotal(s, Volume, -4, 0) == 2 && EventCount(s.log, MINUTE, -4, 0) == 1
  {
    OneEventRun(r, 0);
    OneEventCount(r, MINUTE, -4, 0);
    ActiveTotal(OneEventThen(r, 0), 0);
  }
}
