/** What the buckets count, in terms of the events and their payloads alone. */
module MetricsPayload {
  import opened Wrappers
  import opened RedisStore
  import opened MetricsModel
  import opened MetricsWindow

  /** A payload member reads as `f`: it is `f`, or it is missing or empty and `f` is what stands in for it. */
  predicate Reads(member: Option<string>, f: string, standIn: string) {
    if member == None || member == Some("") then f == standIn else member == Some(f)
  }

  /** An event counts for `f` in a dimension. Volume also has a counter for all events, which is not meant here. */
  predicate Carries(dim: Dim, ev: Event, f: string) {
    match dim
    case Volume => ev.eventName == f
    case VolumeHour => ev.eventName == f
    case VolumeDay => false
    case Users => Reads(ev.payload.userId, f, "anonymous")
    case Sessions => f != "" && ev.payload.sessionId == Some(f)
    case Conversions => ev.eventName == f && (f == "purchase" || f == "signup" || f == "subscribe")
    case EventTypes => ev.eventName == f
    case Countries => Reads(ev.payload.country, f, MockCountry(ev.pick))
    case Devices => Reads(ev.payload.device, f, "unknown")
    case Referrers => Reads(ev.payload.referrer, f, "Direct")
    case ResponseTimes => false
  }

  /** The draw among the five countries of the mock lookup. */
  function MockCountry(pick: nat): (country: string)
    ensures country in {"United States", "United Kingdom", "Canada", "Germany", "France"}
  {
    match pick % 5
    case 0 => "United States"
    case 1 => "United Kingdom"
    case 2 => "Canada"
    case 3 => "Germany"
    case _ => "France"
  }

  /** The width of a bucket: an hour, a day, or a minute. */
  function Width(dim: Dim): (u: int)
    ensures u > 0
  {
    if dim == VolumeHour then 3_600_000 else if dim == VolumeDay then 86_400_000 else 60_000
  }

  /** The places in the log of the events that are to be counted. */
  function Places(log: seq<Logged>, counted: Logged -> bool): set<nat> {
    set i: nat | i < |log| && counted(log[i])
  }

  function IsWithin(dim: Dim, lo: int, hi: int): Logged -> bool {
    (x: Logged) => lo <= x.at / Width(dim) <= hi
  }

  function CarriesWithin(dim: Dim, lo: int, hi: int, f: string): Logged -> bool {
    (x: Logged) => lo <= x.at / Width(dim) <= hi && Carries(dim, x.event, f)
  }

  function IsDelayed(n: int, latency: int): Logged -> bool {
    (x: Logged) => x.at / 60_000 == n && x.at - x.event.timestamp.value == latency
  }

  /** The events of the buckets `lo..hi`, by their places in the log. */
  function Within(dim: Dim, log: seq<Logged>, lo: int, hi: int): set<nat> {
    Places(log, IsWithin(dim, lo, hi))
  }

  function Carriers(dim: Dim, log: seq<Logged>, lo: int, hi: int, f: string): set<nat> {
    Places(log, CarriesWithin(dim, lo, hi, f))
  }

  lemma PlacesSnoc(front: seq<Logged>, x: Logged, counted: Logged -> bool)
    ensures |Places(front + [x], counted)| == |Places(front, counted)| + if counted(x) then 1 else 0
  {
    var before, after := Places(front, counted), Places(front + [x], counted);
    assert after == if counted(x) then before + {|front|} else before;
  }

  /** Whether the counter for all events is meant. */
  predicate CountsAll(dim: Dim, f: string) {
    f == "total_events" && (dim == Volume || dim == VolumeHour || dim == VolumeDay)
  }

  lemma OneOf(f: string, g: string)
    ensures multiset([f])[g] == if f == g then 1 else 0
  {
  }

  lemma TwoOf(f: string, f': string, g: string)
    ensures multiset([f, f'])[g] == (if f == g then 1 else 0) + if f' == g then 1 else 0
  {
    assert [f, f'] == [f] + [f'];
  }

  lemma MemberCount(member: Option<string>, standIn: string, f: string)
    ensures multiset([OrElse(member, standIn)])[f] == if Reads(member, f, standIn) then 1 else 0
  {
    OneOf(OrElse(member, standIn), f);
  }

  lemma VolumeCount(dim: Dim, ev: Event, f: string)
    requires dim == Volume || dim == VolumeHour || dim == VolumeDay
    ensures Fields(dim, ev)[f] == (if Carries(dim, ev, f) then 1 else 0) + if CountsAll(dim, f) then 1 else 0
  {
    if dim == VolumeDay {
      OneOf(TOTAL_EVENTS, f);
    } else {
      TwoOf(TOTAL_EVENTS, ev.eventName, f);
    }
  }

  lemma SessionCount(ev: Event, f: string)
    ensures Fields(Sessions, ev)[f] == if Carries(Sessions, ev, f) then 1 else 0
  {
    if HasSession(ev) {
      OneOf(ev.payload.sessionId.value, f);
    }
  }

  lemma ConversionCount(ev: Event, f: string)
    ensures Fields(Conversions, ev)[f] == if Carries(Conversions, ev, f) then 1 else 0
  {
    OneOf(ev.eventName, f);
  }

  lemma MockCountryDrawn(pick: nat)
    ensures MockCountry(pick) == MOCK_COUNTRIES[pick % 5]
  {
    assert pick % 5 == 0 || pick % 5 == 1 || pick % 5 == 2 || pick % 5 == 3 || pick % 5 == 4;
  }

  lemma CountryCount(ev: Event, f: string)
    ensures Fields(Countries, ev)[f] == if Carries(Countries, ev, f) then 1 else 0
  {
    MockCountryDrawn(ev.pick);
    MemberCount(ev.payload.country, MockCountry(ev.pick), f);
  }

  lemma UserCount(ev: Event, f: string)
    ensures Fields(Users, ev)[f] == if Carries(Users, ev, f) then 1 else 0
  {
    MemberCount(ev.payload.userId, "anonymous", f);
  }

  lemma DeviceCount(ev: Event, f: string)
    ensures Fields(Devices, ev)[f] == if Carries(Devices, ev, f) then 1 else 0
  {
    MemberCount(ev.payload.device, "unknown", f);
  }

  lemma ReferrerCount(ev: Event, f: string)
    ensures Fields(Referrers, ev)[f] == if Carries(Referrers, ev, f) then 1 else 0
  {
    MemberCount(ev.payload.referrer, "Direct", f);
  }

  /** One event adds one for everything it carries, and one for itself where all events are counted. */
  lemma FieldsCount(dim: Dim, ev: Event, f: string)
    requires dim != ResponseTimes
    ensures Fields(dim, ev)[f] == (if Carries(dim, ev, f) then 1 else 0) + if CountsAll(dim, f) then 1 else 0
  {
    match dim
    case Volume => VolumeCount(dim, ev, f);
    case VolumeHour => VolumeCount(dim, ev, f);
    case VolumeDay => VolumeCount(dim, ev, f);
    case Users => UserCount(ev, f);
    case Sessions => SessionCount(ev, f);
    case Conversions => ConversionCount(ev, f);
    case EventTypes => OneOf(ev.eventName, f);
    case Countries => CountryCount(ev, f);
    case Devices => DeviceCount(ev, f);
    case Referrers => ReferrerCount(ev, f);
  }

  lemma WidthIsUnit(dim: Dim)
    ensures Width(dim) == Unit(dim)
  {
  }

  lemma CarriersSnoc(dim: Dim, front: seq<Logged>, x: Logged, lo: int, hi: int, f: string)
    ensures var added := lo <= x.at / Width(dim) <= hi;
            && |Carriers(dim, front + [x], lo, hi, f)| ==
                 |Carriers(dim, front, lo, hi, f)| + (if added && Carries(dim, x.event, f) then 1 else 0)
            && |Within(dim, front + [x], lo, hi)| == |Within(dim, front, lo, hi)| + if added then 1 else 0
  {
    PlacesSnoc(front, x, CarriesWithin(dim, lo, hi, f));
    PlacesSnoc(front, x, IsWithin(dim, lo, hi));
  }

  /** A recount counts, for each user, session, name, country and so on, the events in range that carry it; and all of
      them under `total_events` where that is counted. */
  lemma {:induction false} GatherCounts(dim: Dim, log: seq<Logged>, lo: int, hi: int, f: string)
    requires dim != ResponseTimes
    ensures Gather(dim, log, lo, hi)[f] ==
            |Carriers(dim, log, lo, hi, f)| + if CountsAll(dim, f) then |Within(dim, log, lo, hi)| else 0
  {
    if log == [] {
      assert Carriers(dim, log, lo, hi, f) == {} && Within(dim, log, lo, hi) == {};
    } else {
      var n := |log| - 1;
      assert log == log[..n] + [log[n]];
      WidthIsUnit(dim);
      GatherCounts(dim, log[..n], lo, hi, f);
      FieldsCount(dim, log[n].event, f);
      CarriersSnoc(dim, log[..n], log[n], lo, hi, f);
      GatherAppend(dim, log[..n], log[n], lo, hi);
    }
  }

  /** The events of minute `n` that took `latency` milliseconds from their timestamp to their processing. */
  function Delayed(log: seq<Logged>, n: int, latency: int): set<nat> {
    Places(log, IsDelayed(n, latency))
  }

  /** The response times of a minute are those of its events. */
  lemma {:induction false} LatenciesCount(log: seq<Logged>, n: int, latency: int)
    ensures multiset(Latencies(log, n))[latency] == |Delayed(log, n, latency)|
  {
    if log == [] {
      assert Delayed(log, n, latency) == {};
    } else {
      var front, x := log[..|log| - 1], log[|log| - 1];
      LatenciesCount(front, n, latency);
      assert log == front + [x];
      PlacesSnoc(front, x, IsDelayed(n, latency));
      LatenciesAppend(front, x, n);
    }
  }

  function IsNamedWithin(u: int, lo: int, hi: int): Logged -> bool
    requires u > 0
  {
    (x: Logged) => lo <= x.at / u <= hi && x.event.eventName == "total_events"
  }

  function IsAnyWithin(u: int, lo: int, hi: int): Logged -> bool
    requires u > 0
  {
    (x: Logged) => lo <= x.at / u <= hi
  }

  /** The two counts in which the totals are stated are numbers of events. */
  lemma {:induction false} EventCounts(log: seq<Logged>, u: int, lo: int, hi: int)
    requires u > 0
    ensures EventCount(log, u, lo, hi) == |Places(log, IsAnyWithin(u, lo, hi))|
    ensures NamedTotal(log, u, lo, hi) == |Places(log, IsNamedWithin(u, lo, hi))|
  {
    if log == [] {
      assert Places(log, IsAnyWithin(u, lo, hi)) == {} && Places(log, IsNamedWithin(u, lo, hi)) == {};
    } else {
      var front, x := log[..|log| - 1], log[|log| - 1];
      EventCounts(front, u, lo, hi);
      assert log == front + [x];
      PlacesSnoc(front, x, IsAnyWithin(u, lo, hi));
      PlacesSnoc(front, x, IsNamedWithin(u, lo, hi));
    }
  }

  /** How long a bucket outlives its last event, in milliseconds: seven minutes, but an hour for the hourly volume and
      the response times, and a day for the daily volume. */
  function Lifetime(dim: Dim): int {
    if dim == VolumeHour || dim == ResponseTimes then 3_600_000 else if dim == VolumeDay then 86_400_000 else 420_000
  }

  /** An event writes to a bucket: it has a session or is a conversion, where only these are recorded. */
  predicate Writes(dim: Dim, ev: Event) {
    match dim
    case Sessions => ev.payload.sessionId != None && ev.payload.sessionId != Some("")
    case Conversions => ev.eventName == "purchase" || ev.eventName == "signup" || ev.eventName == "subscribe"
    case _ => true
  }

  lemma WritesTouch(dim: Dim, n: int, x: Logged)
    ensures Touches(Bucket(dim, n), x) <==> x.at / Width(dim) == n && Writes(dim, x.event)
  {
    WidthIsUnit(dim);
    if Added(dim, x.event) != [] {
      assert Added(dim, x.event)[0] in Fields(dim, x.event);
    }
    if dim == Sessions && HasSession(x.event) {
      assert x.event.payload.sessionId.value != "";
    }
  }

  /** A bucket can be seen exactly while some event that wrote to it is no older than its lifetime. */
  lemma VisibleIff(s: State, dim: Dim, n: int)
    requires Agrees(s)
    ensures Visible(s, dim, n) <==>
            exists x | x in s.log :: x.at / Width(dim) == n && Writes(dim, x.event) && s.now - x.at <= Lifetime(dim)
  {
    var k := Bucket(dim, n);
    if LastTouch(k, s.log).Some? {
      var i := LastTouchInLog(k, s.log);
      WritesTouch(dim, n, s.log[i]);
      assert s.log[i] in s.log;
    }
    forall x | x in s.log && x.at / Width(dim) == n && Writes(dim, x.event)
      ensures LastTouch(k, s.log).Some? && x.at <= LastTouch(k, s.log).value
    {
      WritesTouch(dim, n, x);
      LastTouchIsLast(k, s.log, s.now, x);
    }
  }

  /** The time of the last activity can be read exactly while some event is no older than an hour. */
  lemma ActivityVisibleIff(s: State)
    requires Agrees(s)
    ensures Live(s.store, LastActivity, s.now).Some? <==> exists x | x in s.log :: s.now - x.at <= 3_600_000
  {
    LiveIsIdeal(s, LastActivity);
    if s.log != [] {
      var last := s.log[|s.log| - 1];
      assert last in s.log && forall x | x in s.log :: x.at <= last.at;
    }
  }

  lemma {:induction false} LastTouchIsLast(k: Key, log: seq<Logged>, now: int, x: Logged)
    requires Ordered(log, now) && x in log && Touches(k, x)
    ensures LastTouch(k, log).Some? && x.at <= LastTouch(k, log).value
  {
    var n := |log| - 1;
    if Touches(k, log[n]) {
      var i :| 0 <= i <= n && log[i] == x;
    } else {
      assert x in log[..n];
      LastTouchIsLast(k, log[..n], now, x);
    }
  }
}
