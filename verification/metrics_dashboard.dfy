/** The dashboard: what `generateDashboardMetrics` computes from the buckets, stated on the event log. */
module MetricsDashboard {
  import opened Decimal
  import opened RedisStore
  import opened MetricsModel
  import opened MetricsKeys
  import opened MetricsWindow
  import opened Ranking
  import opened Counters
  import opened MetricsService

  /** `parseInt` on a counter. */
  function ParseCount(s: string): int {
    match ParseInt(s)
    case Some(n) => n
    case None => 0
  }

  /** Redis hands counters back as decimal strings. */
  function DecimalText(): Codec<string> {
    Codec(ToString, ParseCount)
  }

  lemma DecimalTextSound()
    ensures Sound(DecimalText())
  {
    forall n ensures ParseCount(ToString(n)) == n {
      ParsePrinted(n);
    }
  }

  function SeenText<T>(s: State, dim: Dim, lo: int, hi: int, text: Codec<T>): map<string, T> {
    Printed(HashOf(SeenIn(s, dim, lo, hi)), text)
  }

  // ----- Reads of a snapshot of the keyspace -----

  /** The flat keyspace `flat` is that of a state in agreement with its log. */
  ghost predicate Snapshot(flat: map<string, Entry>, s: State) {
    Agrees(s) && Mirrors(flat, s.store)
  }

  lemma SnapshotRead(flat: map<string, Entry>, s: State, k: Key)
    requires Snapshot(flat, s)
    ensures Live(flat, KeyName(k), s.now) == Live(s.store, k, s.now)
  {
  }

  method HGetAll<T(!new)>(flat: map<string, Entry>, now: int, dim: Dim, n: int, text: Codec<T>, ghost s: State)
    returns (h: map<string, T>)
    requires Snapshot(flat, s) && now == s.now && dim != ResponseTimes && !IsSetDim(dim)
    ensures h == Printed(HashOf(Seen(s, dim, n)), text)
  {
    SnapshotRead(flat, s, Bucket(dim, n));
    AllOrNothing(s, dim, n);
    h := Printed(ReadHash(flat, KeyName(Bucket(dim, n)), now), text);
  }

  method SMembers(flat: map<string, Entry>, now: int, n: int, ghost s: State) returns (users: set<string>)
    requires Snapshot(flat, s) && now == s.now
    ensures users == Support(Seen(s, Users, n))
  {
    SnapshotRead(flat, s, Bucket(Users, n));
    AllOrNothing(s, Users, n);
    users := ReadSet(flat, KeyName(Bucket(Users, n)), now);
  }

  method LRange(flat: map<string, Entry>, now: int, n: int, ghost s: State) returns (times: seq<int>)
    requires Snapshot(flat, s) && now == s.now
    ensures times == if Visible(s, ResponseTimes, n) then Take(Latencies(s.log, n), 100) else []
  {
    SnapshotRead(flat, s, Bucket(ResponseTimes, n));
    AllOrNothingLatencies(s, n);
    times := ReadList(flat, KeyName(Bucket(ResponseTimes, n)), now);
  }

  /** Reads one bucket and merges it into the window accumulated so far. */
  method MergeBucket<T(!new)>(flat: map<string, Entry>, now: int, dim: Dim, n: int, acc: map<string, T>, text: Codec<T>,
                              ghost hi: int, ghost s: State)
    returns (merged: map<string, T>)
    requires Snapshot(flat, s) && now == s.now && dim != ResponseTimes && !IsSetDim(dim) && n <= hi
    requires Sound(text) && acc == SeenText(s, dim, n + 1, hi, text)
    ensures merged == SeenText(s, dim, n, hi, text)
  {
    var h := HGetAll(flat, now, dim, n, text, s);
    merged := MergeCounters(acc, h, text, HashOf(SeenIn(s, dim, n + 1, hi)), HashOf(Seen(s, dim, n)));
    AddCountsIsUnion(SeenIn(s, dim, n + 1, hi), Seen(s, dim, n));
    assert SeenIn(s, dim, n + 1, hi) + Seen(s, dim, n) == SeenIn(s, dim, n, hi);
  }

  lemma NothingSeen<T>(s: State, dim: Dim, hi: int, text: Codec<T>)
    ensures SeenText(s, dim, hi + 1, hi, text) == map[]
    ensures Support(SeenIn(s, dim, hi + 1, hi)) == {}
  {
    assert SeenIn(s, dim, hi + 1, hi) == multiset{};
    assert HashOf(multiset{}) == map[];
  }

  /** The bucket of the minute `i` minutes before `time`. */
  method MinuteBefore(time: int, i: int) returns (n: int)
    ensures n == time / MINUTE - i
  {
    n := (time - i * 60 * 1000) / MINUTE;
  }

  /** One dimension of the five-minute window that ends with minute `m`: buckets are merged newest first. */
  method MergeWindow<T(!new)>(flat: map<string, Entry>, now: int, time: int, dim: Dim, text: Codec<T>,
                              ghost m: int, ghost s: State)
    returns (merged: map<string, T>)
    requires Snapshot(flat, s) && now == s.now && dim != ResponseTimes && !IsSetDim(dim)
    requires Sound(text) && m == time / MINUTE
    ensures merged == SeenText(s, dim, m - 4, m, text)
  {
    ghost var lo := m + 1;
    merged := map[];
    NothingSeen(s, dim, m, text);
    for i := 0 to ACTIVE_WINDOW_MINUTES
      invariant lo == m + 1 - i
      invariant merged == SeenText(s, dim, lo, m, text)
    {
      var n := MinuteBefore(time, i);
      merged := MergeBucket(flat, now, dim, n, merged, text, m, s);
      lo := n;
    }
  }

  lemma UnionWith(s: State, n: int, hi: int)
    requires n <= hi
    ensures Support(SeenIn(s, Users, n, hi)) == Support(SeenIn(s, Users, n + 1, hi)) + Support(Seen(s, Users, n))
  {
  }

  method UniqueUsers(flat: map<string, Entry>, now: int, time: int, ghost s: State) returns (users: set<string>)
    requires Snapshot(flat, s) && now == s.now
    ensures users == Support(SeenIn(s, Users, time / MINUTE - 4, time / MINUTE))
  {
    ghost var m := time / MINUTE;
    ghost var lo := m + 1;
    users := {};
    NothingSeen(s, Users, m, DecimalText());
    for i := 0 to ACTIVE_WINDOW_MINUTES
      invariant lo == m - i + 1
      invariant users == Support(SeenIn(s, Users, lo, m))
    {
      var n := MinuteBefore(time, i);
      var members := SMembers(flat, now, n, s);
      UnionWith(s, n, m);
      users := users + members;
      lo := n;
    }
  }

  // ----- Response times -----

  function Sum(xs: seq<int>): int {
    if xs == [] then 0 else xs[0] + Sum(xs[1..])
  }

  /** A sum is made of its parts: of single numbers, in the end. */
  lemma {:induction false} SumOfParts(xs: seq<int>, ys: seq<int>)
    ensures Sum(xs + ys) == Sum(xs) + Sum(ys)
    ensures |xs| == 1 ==> Sum(xs) == xs[0]
  {
    if xs == [] {
      assert xs + ys == ys;
    } else {
      SumOfParts(xs[1..], ys);
      assert (xs + ys)[1..] == xs[1..] + ys;
    }
  }

  /** The mean rounded to a whole number, halves up: it lies at most half below and less than half above it. */
  predicate IsRoundedMean(average: int, times: seq<int>) {
    if times == [] then average == 0
    else (2 * average - 1) * |times| <= 2 * Sum(times) < (2 * average + 1) * |times|
  }

  lemma Scaled(x: real, y: real, p: real)
    requires p > 0.0 && x <= y
    ensures x * p <= y * p
    ensures x < y ==> x * p < y * p
  {
    if x < y {
      assert (y - x) * p > 0.0;
    }
  }

  lemma Rounded(q: real)
    ensures var r := (q + 0.5).Floor; r as real - 0.5 <= q < r as real + 0.5
  {
  }

  /** Rounding a quotient to a whole number, halves up. */
  lemma RoundsQuotient(a: int, n: int)
    requires n > 0
    ensures var r := (a as real / n as real + 0.5).Floor; (2 * r - 1) * n <= 2 * a < (2 * r + 1) * n
  {
    var q, p := a as real / n as real, n as real;
    var r := (q + 0.5).Floor;
    Rounded(q);
    Scaled(r as real - 0.5, q, p);
    Scaled(q, r as real + 0.5, p);
    assert q * p == a as real;
    assert ((2 * r - 1) * n) as real == 2.0 * ((r as real - 0.5) * p);
    assert ((2 * r + 1) * n) as real == 2.0 * ((r as real + 0.5) * p);
    assert (2 * a) as real < ((2 * r + 1) * n) as real;
  }

  /** `calculateAverageResponseTime`: `Math.round` rounds halves up. */
  function RoundedAverage(times: seq<int>): (average: int)
    ensures IsRoundedMean(average, times)
  {
    if times == [] then 0
    else
      RoundsQuotient(Sum(times), |times|);
      (Sum(times) as real / |times| as real + 0.5).Floor
  }

  /** The response times of the `i` newest minutes up to `m`, a hundred a minute at most. */
  function WindowLatencies(log: seq<Logged>, m: int, i: nat): seq<int> {
    if i == 0 then [] else WindowLatencies(log, m, i - 1) + Take(Latencies(log, m - (i - 1)), 100)
  }

  lemma LatenciesComplete(s: State, n: int)
    requires Agrees(s) && s.now / MINUTE - 4 <= n <= s.now / MINUTE
    ensures !Visible(s, ResponseTimes, n) ==> Latencies(s.log, n) == []
  {
    var i := s.now / MINUTE - n;
    BucketAtOffset(s, ResponseTimes, i);
    assert Unit(ResponseTimes) == MINUTE && (i + 1) * MINUTE <= 5 * MINUTE;
    if LastTouch(Bucket(ResponseTimes, n), s.log).None? {
      UntouchedIsEmpty(ResponseTimes, n, s.log);
    }
  }

  method ResponseTimesOf(flat: map<string, Entry>, now: int, ghost s: State) returns (times: seq<int>)
    requires Snapshot(flat, s) && now == s.now
    ensures times == WindowLatencies(s.log, now / MINUTE, 5)
  {
    ghost var m := now / MINUTE;
    times := [];
    for i := 0 to ACTIVE_WINDOW_MINUTES
      invariant times == WindowLatencies(s.log, m, i)
    {
      var n := MinuteBefore(now, i);
      var latencies := LRange(flat, now, n, s);
      LatenciesComplete(s, n);
      times := times + latencies;
    }
  }

  // ----- The two windows and the chart -----

  method TotalOf<T(!new)>(h: map<string, T>, text: Codec<T>, ghost ms: multiset<string>) returns (total: int)
    requires Sound(text) && h == Printed(HashOf(ms), text)
    ensures total == ms[TOTAL_EVENTS]
  {
    total := if TOTAL_EVENTS in h then text.parse(h[TOTAL_EVENTS]) else 0;
  }

  /** What the log says about one dimension of the active window at minute `m`. */
  function Window(s: State, dim: Dim, m: int): multiset<string> {
    Gather(dim, s.log, m - 4, m)
  }

  lemma WindowIsSeen(s: State, dim: Dim, m: int)
    requires Agrees(s) && IsMinuteDim(dim) && m == s.now / MINUTE
    ensures SeenIn(s, dim, m - 4, m) == Window(s, dim, m)
  {
    ActiveWindowExact(s, dim, m);
  }

  method ReadActive<T(!new)>(flat: map<string, Entry>, now: int, dim: Dim, text: Codec<T>, ghost m: int, ghost s: State)
    returns (h: map<string, T>)
    requires Snapshot(flat, s) && now == s.now && m == now / MINUTE
    requires IsMinuteDim(dim) && !IsSetDim(dim) && Sound(text)
    ensures h == Printed(HashOf(Window(s, dim, m)), text)
  {
    WindowIsSeen(s, dim, m);
    h := MergeWindow(flat, now, now, dim, text, m, s);
  }

  method ReadActiveUsers(flat: map<string, Entry>, now: int, ghost m: int, ghost s: State) returns (users: set<string>)
    requires Snapshot(flat, s) && now == s.now && m == now / MINUTE
    ensures users == Support(Window(s, Users, m))
  {
    users := UniqueUsers(flat, now, now, s);
    WindowIsSeen(s, Users, m);
  }

  method CountConversions<T(!new)>(h: map<string, T>, text: Codec<T>, ghost ms: multiset<string>) returns (n: int)
    requires Sound(text) && h == Printed(HashOf(ms), text)
    ensures n == |ms|
  {
    var es := Entries(h, text, HashOf(ms));
    n := 0;
    for i := 0 to |es|
      invariant n + SumCounts(es[i..]) == SumCounts(es)
    {
      n := n + es[i].count;
    }
    SumIsSize(es, ms);
  }

  /** `getPreviousWindowMetrics`: the five minutes before the active window. */
  method PreviousWindowMetrics<T(!new)>(flat: map<string, Entry>, now: int, text: Codec<T>, ghost m: int, ghost s: State)
    returns (totalEvents: int, activeUsers: nat)
    requires Snapshot(flat, s) && now == s.now && Sound(text) && m == now / MINUTE
    ensures totalEvents == SeenTotal(s, Volume, m - 9, m - 5)
    ensures activeUsers == |Support(SeenIn(s, Users, m - 9, m - 5))|
  {
    var startOffset := ACTIVE_WINDOW_MINUTES * 60 * 1000;
    var volume := MergeWindow(flat, now, now - startOffset, Volume, text, m - 5, s);
    var users := UniqueUsers(flat, now, now - startOffset, s);
    totalEvents := TotalOf(volume, text, SeenIn(s, Volume, m - 9, m - 5));
    activeUsers := |users|;
  }

  method HourBefore(time: int, i: int) returns (n: int)
    ensures n == time / HOUR - i
  {
    n := (time - i * 60 * 60 * 1000) / HOUR;
  }

  /** `generate24HourData`, oldest hour first. */
  method HourlyVolume<T(!new)>(flat: map<string, Entry>, now: int, text: Codec<T>, ghost s: State) returns (data: seq<int>)
    requires Snapshot(flat, s) && now == s.now && Sound(text)
    ensures |data| == 24
    ensures forall j | 0 <= j < 24 ::
              data[j] == SeenTotal(s, VolumeHour, now / HOUR - (23 - j), now / HOUR - (23 - j))
  {
    data := [];
    for i := 24 downto 0
      invariant |data| == 24 - i
      invariant forall j | 0 <= j < |data| ::
                  data[j] == SeenTotal(s, VolumeHour, now / HOUR - (23 - j), now / HOUR - (23 - j))
    {
      var n := HourBefore(now, i);
      var hour := HGetAll(flat, now, VolumeHour, n, text, s);
      var total := TotalOf(hour, text, Seen(s, VolumeHour, n));
      SeenInOne(s, VolumeHour, n);
      data := data + [total];
    }
  }

  // ----- The lists -----

  datatype Share = Share(name: string, value: int, percentage: real)

  function Shares(es: seq<Count>, total: int): (shares: seq<Share>)
    ensures |shares| == |es|
    ensures forall i | 0 <= i < |es| ::
              shares[i] == Share(es[i].name, es[i].count, Percentage(es[i].count, total))
  {
    if es == [] then []
    else [Share(es[0].name, es[0].count, Percentage(es[0].count, total))] + Shares(es[1..], total)
  }

  /** The counters of a hash, best first, at most `n` of them. */
  method Rank<T(!new)>(h: map<string, T>, text: Codec<T>, n: nat, ghost ms: multiset<string>) returns (top: seq<Count>)
    requires Sound(text) && h == Printed(HashOf(ms), text)
    ensures RanksTop(top, HashOf(ms), n)
  {
    var es := Entries(h, text, HashOf(ms));
    TopCorrect(es, HashOf(ms), n);
    top := Take(SortDescending(es), n);
  }

  /** `processDeviceData` lists all the counters. */
  method RankAll<T(!new)>(h: map<string, T>, text: Codec<T>, ghost ms: multiset<string>) returns (all: seq<Count>)
    requires Sound(text) && h == Printed(HashOf(ms), text)
    ensures RanksTop(all, HashOf(ms), |HashOf(ms)|)
  {
    var es := Entries(h, text, HashOf(ms));
    TopCorrect(es, HashOf(ms), |es|);
    EnumerationSize(es, HashOf(ms));
    SortCorrect(es);
    PermutedMembers(es, SortDescending(es));
    all := SortDescending(es);
  }

  /** `processTopEvents` and `processEventDistribution` leave out an entry with the counter's name. */
  method RankEvents<T(!new)>(h: map<string, T>, text: Codec<T>, total: int, ghost ms: multiset<string>)
    returns (top: seq<Count>, distribution: seq<Share>, ghost ranked: seq<Count>)
    requires Sound(text) && h == Printed(HashOf(ms), text)
    ensures RanksTop(top, HashOf(ms) - {TOTAL_EVENTS}, 10)
    ensures distribution == Shares(ranked, total) && Enumerates(ranked, HashOf(ms) - {TOTAL_EVENTS}) && Descending(ranked)
  {
    var es := Entries(h, text, HashOf(ms));
    WithoutTotalEnumerates(es, HashOf(ms));
    var listed := WithoutTotal(es);
    TopCorrect(listed, HashOf(ms) - {TOTAL_EVENTS}, 10);
    top := Take(SortDescending(listed), 10);
    SortCorrect(listed);
    DistinctPermuted(listed, SortDescending(listed));
    PermutedMembers(listed, SortDescending(listed));
    ranked := SortDescending(listed);
    distribution := Shares(SortDescending(listed), total);
  }

  // ----- The dashboard -----

  datatype Totals = Totals(
    totalEvents: int, totalEventsChange: real, activeUsers: nat, activeUsersChange: real,
    eventsPerHour: int, eventsPerHourChange: real, conversionRate: real, conversionRateChange: real,
    avgResponseTime: int, processingRate: int, errorRate: real, uptime: real)

  datatype EventLists = EventLists(eventVolume: seq<int>, topEvents: seq<Count>, eventDistribution: seq<Share>)

  datatype Breakdown = Breakdown(countries: seq<Count>, devices: seq<Count>, referrers: seq<Count>)

  datatype Dashboard = Dashboard(totals: Totals, events: EventLists, breakdown: Breakdown, liveEvents: seq<LiveEvent>)

  /** `generateInactiveMetrics`. */
  function InactiveDashboard(): (d: Dashboard)
    ensures ShowsNothing(d)
  {
    Dashboard(Totals(0, 0.0, 0, 0.0, 0, 0.0, 0.0, 0.0, 0, 0, 0.0, 99.98), EventLists(seq(24, i => 0), [], []),
              Breakdown([], [], []), [])
  }

  /** Nothing but the constant uptime and twenty-four empty hours. */
  predicate ShowsNothing(d: Dashboard) {
    && d.totals.totalEvents == d.totals.activeUsers == d.totals.eventsPerHour == 0
    && d.totals.totalEventsChange == d.totals.activeUsersChange == d.totals.eventsPerHourChange == 0.0
    && d.totals.conversionRate == d.totals.conversionRateChange == d.totals.errorRate == 0.0
    && d.totals.avgResponseTime == d.totals.processingRate == 0 && d.totals.uptime == 99.98
    && |d.events.eventVolume| == 24 && (forall j | 0 <= j < 24 :: d.events.eventVolume[j] == 0)
    && d.events.topEvents == [] && d.events.eventDistribution == []
    && d.breakdown.countries == d.breakdown.devices == d.breakdown.referrers == [] && d.liveEvents == []
  }

  /** The change in percent, in whole hundredths: at most half a hundredth below and less than that above the exact
      one; and after nothing, a hundred for something. */
  predicate IsChange(change: real, current: int, previous: int) {
    if previous == 0 then change == if current > 0 then 100.0 else 0.0
    else
      && (change * 100.0) == (change * 100.0).Floor as real
      && (previous > 0 ==>
            (change - 0.005) * previous as real <= 100.0 * (current - previous) as real
            < (change + 0.005) * previous as real)
  }

  /** `calculatePercentageChange`. */
  function PercentageChange(current: int, previous: int): (change: real)
    ensures IsChange(change, current, previous)
  {
    if previous == 0 then (if current > 0 then 100.0 else 0.0)
    else
      RoundsToHundredths(current - previous, previous);
      InHundredths((current - previous) as real / previous as real)
  }

  /** A ratio in percent, rounded to hundredths. */
  function InHundredths(q: real): (change: real)
    ensures (change * 100.0) == (change * 100.0).Floor as real
    ensures change - 0.005 <= q * 100.0 < change + 0.005
  {
    var r := (q * 100.0 * 100.0 + 0.5).Floor;
    assert r as real / 100.0 * 100.0 == r as real;
    r as real / 100.0
  }

  lemma RoundsToHundredths(difference: int, previous: int)
    requires previous != 0
    ensures var change := InHundredths(difference as real / previous as real);
            previous > 0 ==>
              (change - 0.005) * previous as real <= 100.0 * difference as real < (change + 0.005) * previous as real
  {
    var q, p := difference as real / previous as real, previous as real;
    if previous > 0 {
      HundredTimes(q, p);
      Between(InHundredths(q) - 0.005, q * 100.0, InHundredths(q) + 0.005, p, 100.0 * difference as real);
    }
  }

  lemma Between(x: real, y: real, z: real, p: real, product: real)
    requires p > 0.0 && x <= y < z && y * p == product
    ensures x * p <= product < z * p
  {
    Scaled(x, y, p);
    Scaled(y, z, p);
  }

  lemma HundredTimes(q: real, p: real)
    ensures (q * 100.0) * p == 100.0 * (q * p)
  {
  }

  /** A positive factor keeps the sign. */
  lemma Signs(x: real, p: real)
    requires p > 0.0
    ensures x <= 0.0 <==> x * p <= 0.0
    ensures x >= 0.0 <==> x * p >= 0.0
  {
    if x > 0.0 {
      assert x * p > 0.0;
    } else if x < 0.0 {
      assert (-x) * p > 0.0;
    }
  }

  lemma Hundredths(change: real)
    requires (change * 100.0) == (change * 100.0).Floor as real
    ensures change < 0.0 ==> change + 0.005 < 0.0
    ensures change > 0.0 ==> change - 0.005 > 0.0
  {
  }

  /** So it has the sign of the difference, or is zero. */
  lemma ChangeSign(change: real, current: int, previous: int)
    requires IsChange(change, current, previous) && previous >= 0 && current >= 0
    ensures current >= previous ==> change >= 0.0
    ensures current <= previous ==> change <= 0.0
  {
    if previous > 0 {
      Hundredths(change);
      Signs(change + 0.005, previous as real);
      Signs(change - 0.005, previous as real);
    }
  }

  /** The percentage that `value` is of `total`, or zero of nothing. */
  predicate IsShare(percentage: real, value: int, total: int) {
    if total > 0 then percentage * total as real == 100.0 * value as real else percentage == 0.0
  }

  /** The totals of the dashboard, on the numbers they are made of. */
  ghost predicate TotalsFrom(d: Totals, total: int, users: nat, previousTotal: int, previousUsers: nat,
                             conversions: int, latencies: seq<int>) {
    && d.totalEvents == total && d.activeUsers == users
    && IsChange(d.totalEventsChange, total, previousTotal)
    && IsChange(d.activeUsersChange, users, previousUsers)
    && d.eventsPerHour == total * 12 && d.eventsPerHourChange == d.totalEventsChange
    && d.processingRate == (if total * 12 >= 1 then total * 12 else 1)
    && IsShare(d.conversionRate, conversions, total) && d.conversionRateChange == 0.0
    && IsRoundedMean(d.avgResponseTime, latencies)
    && d.errorRate == 0.02 && d.uptime == 99.98
  }

  method AssembleTotals(total: int, users: nat, previousTotal: int, previousUsers: nat, conversions: int,
                        latencies: seq<int>)
    returns (d: Totals)
    ensures TotalsFrom(d, total, users, previousTotal, previousUsers, conversions, latencies)
  {
    var totalEventsChange := PercentageChange(total, previousTotal);
    d := Totals(total, totalEventsChange, users, PercentageChange(users, previousUsers),
                total * 12, totalEventsChange, Percentage(conversions, total), 0.0,
                RoundedAverage(latencies), if total * 12 >= 1 then total * 12 else 1, 0.02, 99.98);
  }

  /** The totals of the dashboard, on the log. */
  ghost predicate TotalsOf(d: Totals, s: State, m: int) {
    TotalsFrom(d, Window(s, Volume, m)[TOTAL_EVENTS], |Support(Window(s, Users, m))|,
               SeenTotal(s, Volume, m - 9, m - 5), |Support(SeenIn(s, Users, m - 9, m - 5))|,
               |Window(s, Conversions, m)|, WindowLatencies(s.log, m, 5))
  }

  /** Each entry shows the count of a name and the percentage it is of the total. */
  ghost predicate SharesOf(shares: seq<Share>, named: map<string, int>, total: int) {
    forall i | 0 <= i < |shares| ::
      && shares[i].name in named && shares[i].value == named[shares[i].name]
      && IsShare(shares[i].percentage, shares[i].value, total)
  }

  lemma SharesAreOf(ranked: seq<Count>, named: map<string, int>, total: int)
    requires Enumerates(ranked, named)
    ensures SharesOf(Shares(ranked, total), named, total)
  {
    forall i | 0 <= i < |ranked| ensures ranked[i].name in named && ranked[i].count == named[ranked[i].name] {
      assert ranked[i] in ranked;
    }
  }

  /** The chart and the event lists of the dashboard, on the log. */
  ghost predicate EventListsOf(d: EventLists, total: int, s: State, m: int, h: int) {
    var named := HashOf(Window(s, EventTypes, m)) - {TOTAL_EVENTS};
    && |d.eventVolume| == 24
    && (forall j | 0 <= j < 24 :: d.eventVolume[j] == SeenTotal(s, VolumeHour, h - (23 - j), h - (23 - j)))
    && RanksTop(d.topEvents, named, 10)
    && (exists ranked: seq<Count> ::
          d.eventDistribution == Shares(ranked, total) && Enumerates(ranked, named) && Descending(ranked))
    && SharesOf(d.eventDistribution, named, total)
  }

  ghost predicate BreakdownOf(d: Breakdown, s: State, m: int) {
    && RanksTop(d.countries, HashOf(Window(s, Countries, m)), 5)
    && RanksTop(d.devices, HashOf(Window(s, Devices, m)), |HashOf(Window(s, Devices, m))|)
    && RanksTop(d.referrers, HashOf(Window(s, Referrers, m)), 5)
  }

  /** Everything an active dashboard shows is decided by the log. */
  ghost predicate DashboardOf(d: Dashboard, s: State) {
    && TotalsOf(d.totals, s, s.now / MINUTE)
    && EventListsOf(d.events, d.totals.totalEvents, s, s.now / MINUTE, s.now / HOUR)
    && BreakdownOf(d.breakdown, s, s.now / MINUTE)
    && FeedShows(d.liveEvents, s.log)
  }

  method ComputeTotals<T(!new)>(flat: map<string, Entry>, now: int, text: Codec<T>, ghost m: int, ghost s: State)
    returns (d: Totals)
    requires Snapshot(flat, s) && now == s.now && Sound(text) && m == now / MINUTE
    ensures TotalsOf(d, s, m)
  {
    var volume := ReadActive(flat, now, Volume, text, m, s);
    var conversions := ReadActive(flat, now, Conversions, text, m, s);
    var users := ReadActiveUsers(flat, now, m, s);
    var times := ResponseTimesOf(flat, now, s);
    var total := TotalOf(volume, text, Window(s, Volume, m));
    var totalConversions := CountConversions(conversions, text, Window(s, Conversions, m));
    var previousEvents, previousUsers := PreviousWindowMetrics(flat, now, text, m, s);
    d := AssembleTotals(total, |users|, previousEvents, previousUsers, totalConversions, times);
  }

  method ComputeEventLists<T(!new)>(flat: map<string, Entry>, now: int, total: int, text: Codec<T>,
                                    ghost m: int, ghost s: State)
    returns (d: EventLists)
    requires Snapshot(flat, s) && now == s.now && Sound(text) && m == now / MINUTE
    ensures EventListsOf(d, total, s, m, now / HOUR)
  {
    var eventTypes := ReadActive(flat, now, EventTypes, text, m, s);
    var volume := HourlyVolume(flat, now, text, s);
    var top, distribution, ranked := RankEvents(eventTypes, text, total, Window(s, EventTypes, m));
    SharesAreOf(ranked, HashOf(Window(s, EventTypes, m)) - {TOTAL_EVENTS}, total);
    d := EventLists(volume, top, distribution);
  }

  method ComputeBreakdown<T(!new)>(flat: map<string, Entry>, now: int, text: Codec<T>, ghost m: int, ghost s: State)
    returns (d: Breakdown)
    requires Snapshot(flat, s) && now == s.now && Sound(text) && m == now / MINUTE
    ensures BreakdownOf(d, s, m)
  {
    var countries := ReadActive(flat, now, Countries, text, m, s);
    var geographic := Rank(countries, text, 5, Window(s, Countries, m));
    var devices := ReadActive(flat, now, Devices, text, m, s);
    var deviceTypes := RankAll(devices, text, Window(s, Devices, m));
    var referrers := ReadActive(flat, now, Referrers, text, m, s);
    var topReferrers := Rank(referrers, text, 5, Window(s, Referrers, m));
    d := Breakdown(geographic, deviceTypes, topReferrers);
  }

  method IsSystemActive(flat: map<string, Entry>, now: int, ghost s: State) returns (active: bool)
    requires Snapshot(flat, s) && now == s.now
    ensures active == IsActive(s.store, LastActivity, s.now)
  {
    SnapshotRead(flat, s, LastActivity);
    active := IsActive(flat, KeyName(LastActivity), now);
  }

  method ComputeDashboard<T(!new)>(flat: map<string, Entry>, now: int, liveEvents: seq<LiveEvent>, text: Codec<T>,
                                   ghost s: State)
    returns (d: Dashboard)
    requires Snapshot(flat, s) && now == s.now && Sound(text)
    requires FeedShows(liveEvents, s.log)
    ensures DashboardOf(d, s)
  {
    ghost var m := now / MINUTE;
    var totals := ComputeTotals(flat, now, text, m, s);
    var events := ComputeEventLists(flat, now, totals.totalEvents, text, m, s);
    var breakdown := ComputeBreakdown(flat, now, text, m, s);
    d := Dashboard(totals, events, breakdown, liveEvents);
  }

  /** `generateDashboardMetrics` at one moment. */
  method GenerateDashboardMetrics(service: MetricsAggregationService) returns (d: Dashboard)
    requires service.Valid()
    ensures var s := service.state;
            if IsActive(s.store, LastActivity, s.now) then DashboardOf(d, s) else ShowsNothing(d)
  {
    var flat, now := service.redis.store, service.redis.now;
    var active := IsSystemActive(flat, now, service.state);
    if active {
      DecimalTextSound();
      TakenFeedShows(service.state.log);
      d := ComputeDashboard(flat, now, service.liveEventsBuffer, DecimalText(), service.state);
    } else {
      d := InactiveDashboard();
    }
  }

  // ----- What an active dashboard is worth -----

  lemma ShareBounds(percentage: real, value: int, total: int)
    requires IsShare(percentage, value, total) && 0 <= value <= total
    ensures 0.0 <= percentage <= 100.0
  {
    if total > 0 {
      var p := total as real;
      assert (percentage - 100.0) * p == 100.0 * (value - total) as real;
      Signs(percentage, p);
      Signs(percentage - 100.0, p);
    }
  }

  lemma WindowCounts(s: State, m: int)
    ensures EventCount(s.log, MINUTE, m - 4, m) <= Window(s, Volume, m)[TOTAL_EVENTS]
    ensures |Window(s, Users, m)| <= Window(s, Volume, m)[TOTAL_EVENTS]
    ensures |Window(s, Conversions, m)| <= Window(s, Volume, m)[TOTAL_EVENTS]
  {
    WindowSizes(s.log, m - 4, m);
  }

  /** An active dashboard counts at least one event, so its processing rate is its hourly rate; its users do not
      outnumber its events, and its conversion rate is a percentage. */
  lemma ActiveDashboardSane(d: Totals, s: State, m: int)
    requires Agrees(s) && IsActive(s.store, LastActivity, s.now) && m == s.now / MINUTE && TotalsOf(d, s, m)
    ensures d.totalEvents >= 1 && d.processingRate == d.eventsPerHour
    ensures d.activeUsers <= d.totalEvents
    ensures 0.0 <= d.conversionRate <= 100.0
  {
    WindowCounts(s, m);
    ActiveHasEvents(s, m);
    SupportSize(Window(s, Users, m));
    ShareBounds(d.conversionRate, |Window(s, Conversions, m)|, d.totalEvents);
  }

  function SumShares(shares: seq<Share>): real {
    if shares == [] then 0.0 else shares[0].percentage + SumShares(shares[1..])
  }

  lemma {:induction false} SumSharesIsPercentages(es: seq<Count>, total: int)
    ensures SumShares(Shares(es, total)) == SumPercentages(es, total)
  {
    if es != [] {
      SumSharesIsPercentages(es[1..], total);
      assert Shares(es, total)[1..] == Shares(es[1..], total);
    }
  }

  lemma RankedSum(ranked: seq<Count>, ms: multiset<string>, total: int)
    requires Enumerates(ranked, HashOf(ms) - {TOTAL_EVENTS}) && total > 0
    ensures SumShares(Shares(ranked, total)) == 100.0 <==> |ms| - ms[TOTAL_EVENTS] == total
  {
    var rest := ms[TOTAL_EVENTS := 0];
    assert HashOf(ms) - {TOTAL_EVENTS} == HashOf(rest);
    SumIsSize(ranked, rest);
    SumSharesIsPercentages(ranked, total);
    PercentagesAddUp(ranked, total);
    WholeIff(|rest|, total);
  }

  lemma RankedWholeIff(ranked: seq<Count>, total: int, s: State, m: int)
    requires total == Window(s, Volume, m)[TOTAL_EVENTS] > 0
    requires Enumerates(ranked, HashOf(Window(s, EventTypes, m)) - {TOTAL_EVENTS})
    ensures SumShares(Shares(ranked, total)) == 100.0 <==> NamedTotal(s.log, MINUTE, m - 4, m) == 0
  {
    WindowSizes(s.log, m - 4, m);
    NamedTotalIsCount(s.log, m - 4, m);
    RankedSum(ranked, Window(s, EventTypes, m), total);
  }

  lemma DistributionWholeIff(d: EventLists, total: int, s: State, m: int)
    requires Agrees(s) && m == s.now / MINUTE && IsActive(s.store, LastActivity, s.now)
    requires total == Window(s, Volume, m)[TOTAL_EVENTS] && EventListsOf(d, total, s, m, s.now / HOUR)
    ensures SumShares(d.eventDistribution) == 100.0 <==> NamedTotal(s.log, MINUTE, m - 4, m) == 0
  {
    WindowCounts(s, m);
    ActiveHasEvents(s, m);
    var ranked: seq<Count> :|
      && d.eventDistribution == Shares(ranked, total)
      && Enumerates(ranked, HashOf(Window(s, EventTypes, m)) - {TOTAL_EVENTS});
    RankedWholeIff(ranked, total, s, m);
  }

  /** The event distribution of an active dashboard adds up to exactly 100 percent if and only if no event of the
      window carries the counter's name. */
  lemma DistributionAddsUp(d: Dashboard, s: State, m: int)
    requires Agrees(s) && m == s.now / MINUTE && IsActive(s.store, LastActivity, s.now) && DashboardOf(d, s)
    ensures SumShares(d.events.eventDistribution) == 100.0 <==>
            forall x | x in s.log && InRange(x, MINUTE, m - 4, m) :: x.event.eventName != TOTAL_EVENTS
  {
    DistributionWholeIff(d.events, d.totals.totalEvents, s, m);
    NoNamedTotalIff(s.log, MINUTE, m - 4, m);
  }
}
