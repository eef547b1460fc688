/** `MetricsAggregationService`: recording events in Redis and computing the dashboard from it. */
module MetricsService {
  import opened Wrappers
  import opened RedisStore
  import opened MetricsModel
  import opened MetricsKeys

  datatype LiveEvent = LiveEvent(eventName: string, userId: string, country: string, device: string, timestamp: int)

  const LIVE_EVENTS: nat := 50

  function ToLiveEvent(ev: Event): LiveEvent {
    LiveEvent(ev.eventName, User(ev), OrElse(ev.payload.country, "US"), OrElse(ev.payload.device, "web"), ev.timestamp.value)
  }

  /** Everything recorded so far, newest first. */
  function Feed(log: seq<Logged>): seq<LiveEvent> {
    if log == [] then [] else [ToLiveEvent(log[|log| - 1].event)] + Feed(log[..|log| - 1])
  }

  /** A member of the payload, or what stands in for a missing or empty one. */
  predicate Shown(text: string, member: Option<string>, standIn: string) {
    text == if member == None || member == Some("") then standIn else member.value
  }

  /** A feed shows the newest events, at most fifty, newest first. */
  ghost predicate FeedShows(feed: seq<LiveEvent>, log: seq<Logged>) {
    && |feed| == (if |log| <= 50 then |log| else 50)
    && forall i | 0 <= i < |feed| :: EntryShows(feed[i], log[|log| - 1 - i].event)
  }

  predicate EntryShows(entry: LiveEvent, ev: Event) {
    && entry.eventName == ev.eventName && Shown(entry.userId, ev.payload.userId, "anonymous")
    && Shown(entry.country, ev.payload.country, "US") && Shown(entry.device, ev.payload.device, "web")
    && entry.timestamp == ev.timestamp.value
  }

  lemma {:induction false} FeedEntries(log: seq<Logged>)
    ensures |Feed(log)| == |log|
    ensures forall i | 0 <= i < |log| :: Feed(log)[i] == ToLiveEvent(log[|log| - 1 - i].event)
  {
    if log != [] {
      FeedEntries(log[..|log| - 1]);
    }
  }

  lemma ToLiveEventShows(ev: Event)
    ensures EntryShows(ToLiveEvent(ev), ev)
  {
  }

  lemma TakenFeedShows(log: seq<Logged>)
    ensures FeedShows(Take(Feed(log), LIVE_EVENTS), log)
  {
    FeedEntries(log);
    forall i | 0 <= i < |Take(Feed(log), LIVE_EVENTS)| ensures EntryShows(Feed(log)[i], log[|log| - 1 - i].event) {
      ToLiveEventShows(log[|log| - 1 - i].event);
    }
  }

  lemma FeedAppend(log: seq<Logged>, x: Logged)
    ensures Take(Feed(log + [x]), LIVE_EVENTS) == Take([ToLiveEvent(x.event)] + Take(Feed(log), LIVE_EVENTS), LIVE_EVENTS)
  {
    assert (log + [x])[..|log|] == log;
  }

  /** The commands for some dimensions, after the one that stamps the activity time. */
  function SentFor(dims: seq<Dim>, at: int, ev: Event): seq<Command<Key>> {
    [Command(LastActivity, SetEx(ACTIVITY_TTL, Stamp(at)))] + DimCommands(dims, at, ev)
  }

  function Group(d: Dim, at: int, ev: Event): seq<Command<Key>> {
    OnKey(Bucket(d, at / Unit(d)), DimOps(d, at, ev))
  }

  lemma DimCommandsCons(d: Dim, rest: seq<Dim>, at: int, ev: Event)
    ensures DimCommands([d] + rest, at, ev) == Group(d, at, ev) + DimCommands(rest, at, ev)
  {
    assert ([d] + rest)[1..] == rest;
  }

  lemma Regroup<T>(a: seq<T>, b: seq<T>, c: seq<T>)
    ensures (a + b) + c == a + (b + c)
  {
  }

  lemma {:induction false} DimCommandsSnoc(dims: seq<Dim>, d: Dim, at: int, ev: Event)
    ensures DimCommands(dims + [d], at, ev) == DimCommands(dims, at, ev) + Group(d, at, ev)
  {
    if dims == [] {
      DimCommandsCons(d, [], at, ev);
      assert dims + [d] == [d] + [];
    } else {
      var first, rest := dims[0], dims[1..];
      DimCommandsSnoc(rest, d, at, ev);
      DimCommandsCons(first, rest, at, ev);
      DimCommandsCons(first, rest + [d], at, ev);
      Regroup([first], rest, [d]);
      Regroup(Group(first, at, ev), DimCommands(rest, at, ev), Group(d, at, ev));
      assert dims == [first] + rest;
    }
  }

  lemma SentNext(dims: seq<Dim>, d: Dim, at: int, ev: Event)
    ensures SentFor(dims + [d], at, ev) == SentFor(dims, at, ev) + Group(d, at, ev)
  {
    DimCommandsSnoc(dims, d, at, ev);
    Regroup([Command(LastActivity, SetEx(ACTIVITY_TTL, Stamp(at)))], DimCommands(dims, at, ev), Group(d, at, ev));
  }

  lemma OnKeyList(k: Key, a: Op, rest: seq<Op>)
    ensures OnKey(k, [a] + rest) == [Command(k, a)] + OnKey(k, rest)
  {
    assert ([a] + rest)[1..] == rest;
  }

  /** The commands that add one field to a bucket. */
  lemma OneFieldCommands(k: Key, op: Op, ttl: nat)
    ensures OnKey(k, [op, Expire(ttl)]) == [Command(k, op), Command(k, Expire(ttl))]
  {
    OnKeyList(k, op, [Expire(ttl)]);
    OnKeyList(k, Expire(ttl), []);
    assert [op] + [Expire(ttl)] == [op, Expire(ttl)] && [Expire(ttl)] + [] == [Expire(ttl)];
  }

  lemma TwoFieldCommands(k: Key, op: Op, op': Op, ttl: nat)
    ensures OnKey(k, [op, op', Expire(ttl)]) == [Command(k, op), Command(k, op'), Command(k, Expire(ttl))]
  {
    OnKeyList(k, op, [op', Expire(ttl)]);
    OneFieldCommands(k, op', ttl);
    assert [op] + [op', Expire(ttl)] == [op, op', Expire(ttl)];
  }

  /** A dimension that an event touches with one field. */
  lemma OneFieldOps(dim: Dim, at: int, ev: Event)
    requires dim != ResponseTimes && |Added(dim, ev)| == 1
    ensures DimOps(dim, at, ev) == [AddOp(dim, Added(dim, ev)[0]), Expire(TtlSeconds(dim))]
  {
    var fs := Added(dim, ev);
    assert Adds(dim, fs) == [AddOp(dim, fs[0])] + Adds(dim, fs[1..]);
    assert Adds(dim, fs[1..]) == [];
  }

  lemma TwoFieldOps(dim: Dim, at: int, ev: Event)
    requires dim == Volume || dim == VolumeHour
    ensures DimOps(dim, at, ev) == [HIncrBy(TOTAL_EVENTS, 1), HIncrBy(ev.eventName, 1), Expire(TtlSeconds(dim))]
  {
    var fs := Added(dim, ev);
    assert Adds(dim, fs[1..]) == [AddOp(dim, fs[1..][0])] + Adds(dim, fs[1..][1..]);
    assert Adds(dim, fs[1..][1..]) == [];
  }

  class MetricsAggregationService {
    const redis: RedisClient
    var liveEventsBuffer: seq<LiveEvent>
    /** The state the service has reached, with the log of everything recorded. */
    ghost var state: State
    /** The commands sent since that state. */
    ghost var sent: seq<Command<Key>>

    ghost predicate InTouch()
      reads this, redis
    {
      && state.now == redis.now && Agrees(state)
      && Mirrors(redis.store, ExecAll(state.store, state.now, sent))
    }

    ghost predicate Valid()
      reads this, redis
    {
      && InTouch() && sent == []
      && liveEventsBuffer == Take(Feed(state.log), LIVE_EVENTS)
    }

    constructor (redis: RedisClient)
      requires redis.store == map[]
      ensures Valid() && this.redis == redis && state == Start(redis.now)
    {
      this.redis := redis;
      liveEventsBuffer := [];
      state := Start(redis.now);
      sent := [];
    }

    method Send(k: Key, op: Op)
      requires InTouch()
      modifies redis`store, this`sent
      ensures InTouch() && sent == old(sent) + [Command(k, op)]
    {
      ghost var c := Command(k, op);
      MirrorsExec(redis.store, ExecAll(state.store, state.now, sent), redis.now, c);
      ExecAllConcat(state.store, state.now, sent, [c]);
      redis.Send(KeyName(k), op);
      sent := sent + [c];
    }

    /** Adds one field to a bucket and renews the bucket's time-to-live. */
    method AddField(dim: Dim, n: int, op: Op, ev: Event, ghost dims: seq<Dim>)
      requires InTouch() && dim != ResponseTimes && n == redis.now / Unit(dim)
      requires |Added(dim, ev)| == 1 && op == AddOp(dim, Added(dim, ev)[0])
      requires sent == SentFor(dims, redis.now, ev)
      modifies redis`store, this`sent
      ensures InTouch() && sent == SentFor(dims + [dim], redis.now, ev)
    {
      Send(Bucket(dim, n), op);
      Send(Bucket(dim, n), Expire(TtlSeconds(dim)));
      OneFieldOps(dim, redis.now, ev);
      OneFieldCommands(Bucket(dim, n), op, TtlSeconds(dim));
      SentNext(dims, dim, redis.now, ev);
    }

    method AddVolume(dim: Dim, n: int, ev: Event, ghost dims: seq<Dim>)
      requires InTouch() && (dim == Volume || dim == VolumeHour) && n == redis.now / Unit(dim)
      requires sent == SentFor(dims, redis.now, ev)
      modifies redis`store, this`sent
      ensures InTouch() && sent == SentFor(dims + [dim], redis.now, ev)
    {
      Send(Bucket(dim, n), HIncrBy(TOTAL_EVENTS, 1));
      Send(Bucket(dim, n), HIncrBy(ev.eventName, 1));
      Send(Bucket(dim, n), Expire(TtlSeconds(dim)));
      TwoFieldOps(dim, redis.now, ev);
      TwoFieldCommands(Bucket(dim, n), HIncrBy(TOTAL_EVENTS, 1), HIncrBy(ev.eventName, 1), TtlSeconds(dim));
      SentNext(dims, dim, redis.now, ev);
    }

    method UpdateVolumeMetrics(minute: int, hour: int, day: int, ev: Event)
      requires InTouch() && minute == redis.now / MINUTE && hour == redis.now / HOUR && day == redis.now / DAY
      requires sent == SentFor([], redis.now, ev)
      modifies redis`store, this`sent
      ensures InTouch() && sent == SentFor([] + [Volume] + [VolumeHour] + [VolumeDay], redis.now, ev)
    {
      AddVolume(Volume, minute, ev, []);
      AddVolume(VolumeHour, hour, ev, [] + [Volume]);
      AddField(VolumeDay, day, HIncrBy(TOTAL_EVENTS, 1), ev, [] + [Volume] + [VolumeHour]);
    }

    method UpdateUserMetrics(minute: int, ev: Event, ghost dims: seq<Dim>)
      requires InTouch() && minute == redis.now / MINUTE
      requires sent == SentFor(dims, redis.now, ev)
      modifies redis`store, this`sent
      ensures InTouch() && sent == SentFor(dims + [Users] + [Sessions] + [Conversions], redis.now, ev)
    {
      AddField(Users, minute, SAdd(User(ev)), ev, dims);
      UpdateSessions(minute, ev, dims + [Users]);
      UpdateConversions(minute, ev, dims + [Users] + [Sessions]);
    }

    method UpdateSessions(minute: int, ev: Event, ghost dims: seq<Dim>)
      requires InTouch() && minute == redis.now / MINUTE
      requires sent == SentFor(dims, redis.now, ev)
      modifies redis`store, this`sent
      ensures InTouch() && sent == SentFor(dims + [Sessions], redis.now, ev)
    {
      if HasSession(ev) {
        AddField(Sessions, minute, SAdd(ev.payload.sessionId.value), ev, dims);
      } else {
        SentNext(dims, Sessions, redis.now, ev);
      }
    }

    method UpdateConversions(minute: int, ev: Event, ghost dims: seq<Dim>)
      requires InTouch() && minute == redis.now / MINUTE
      requires sent == SentFor(dims, redis.now, ev)
      modifies redis`store, this`sent
      ensures InTouch() && sent == SentFor(dims + [Conversions], redis.now, ev)
    {
      if ev.eventName in CONVERSION_EVENTS {
        AddField(Conversions, minute, HIncrBy(ev.eventName, 1), ev, dims);
      } else {
        SentNext(dims, Conversions, redis.now, ev);
      }
    }

    method UpdateEventTypeMetrics(minute: int, ev: Event, ghost dims: seq<Dim>)
      requires InTouch() && minute == redis.now / MINUTE
      requires sent == SentFor(dims, redis.now, ev)
      modifies redis`store, this`sent
      ensures InTouch() && sent == SentFor(dims + [EventTypes], redis.now, ev)
    {
      AddField(EventTypes, minute, HIncrBy(ev.eventName, 1), ev, dims);
    }

    method UpdateGeographicMetrics(minute: int, ev: Event, ghost dims: seq<Dim>)
      requires InTouch() && minute == redis.now / MINUTE
      requires sent == SentFor(dims, redis.now, ev)
      modifies redis`store, this`sent
      ensures InTouch() && sent == SentFor(dims + [Countries], redis.now, ev)
    {
      AddField(Countries, minute, HIncrBy(Country(ev), 1), ev, dims);
    }

    method UpdateDeviceMetrics(minute: int, ev: Event, ghost dims: seq<Dim>)
      requires InTouch() && minute == redis.now / MINUTE
      requires sent == SentFor(dims, redis.now, ev)
      modifies redis`store, this`sent
      ensures InTouch() && sent == SentFor(dims + [Devices], redis.now, ev)
    {
      AddField(Devices, minute, HIncrBy(OrElse(ev.payload.device, "unknown"), 1), ev, dims);
    }

    method UpdateReferrerMetrics(minute: int, ev: Event, ghost dims: seq<Dim>)
      requires InTouch() && minute == redis.now / MINUTE
      requires sent == SentFor(dims, redis.now, ev)
      modifies redis`store, this`sent
      ensures InTouch() && sent == SentFor(dims + [Referrers], redis.now, ev)
    {
      AddField(Referrers, minute, HIncrBy(OrElse(ev.payload.referrer, "Direct"), 1), ev, dims);
    }

    method UpdatePerformanceMetrics(minute: int, ev: Event, ghost dims: seq<Dim>)
      requires InTouch() && minute == redis.now / MINUTE
      requires sent == SentFor(dims, redis.now, ev)
      modifies redis`store, this`sent
      ensures InTouch() && sent == SentFor(dims + [ResponseTimes], redis.now, ev)
    {
      var latency := redis.now - ev.timestamp.value;
      Send(Bucket(ResponseTimes, minute), LPush(latency));
      Send(Bucket(ResponseTimes, minute), LTrim(99));
      Send(Bucket(ResponseTimes, minute), Expire(3600));
      TwoFieldCommands(Bucket(ResponseTimes, minute), LPush(latency), LTrim(99), 3600);
      assert DimOps(ResponseTimes, redis.now, ev) == [LPush(latency), LTrim(99), Expire(3600)];
      SentNext(dims, ResponseTimes, redis.now, ev);
    }

    /** The four distributions of `processEvent`. */
    method UpdateDistributions(minute: int, ev: Event, ghost dims: seq<Dim>)
      requires InTouch() && minute == redis.now / MINUTE
      requires sent == SentFor(dims, redis.now, ev)
      modifies redis`store, this`sent
      ensures InTouch()
      ensures sent == SentFor(dims + [EventTypes] + [Countries] + [Devices] + [Referrers], redis.now, ev)
    {
      UpdateEventTypeMetrics(minute, ev, dims);
      UpdateGeographicMetrics(minute, ev, dims + [EventTypes]);
      UpdateDeviceMetrics(minute, ev, dims + [EventTypes] + [Countries]);
      UpdateReferrerMetrics(minute, ev, dims + [EventTypes] + [Countries] + [Devices]);
    }

    method UpdateLastActivityTime(ghost ev: Event)
      requires InTouch() && sent == []
      modifies redis`store, this`sent
      ensures InTouch() && sent == SentFor([], redis.now, ev)
    {
      Send(LastActivity, SetEx(ACTIVITY_TTL, Stamp(redis.now)));
      assert DimCommands([], redis.now, ev) == [];
    }

    /** The updates of one minute bucket. */
    method UpdateMinute(minute: int, ev: Event, ghost dims: seq<Dim>)
      requires InTouch() && minute == redis.now / MINUTE
      requires sent == SentFor(dims, redis.now, ev)
      modifies redis`store, this`sent
      ensures InTouch()
      ensures sent == SentFor(dims + [Users] + [Sessions] + [Conversions] + [EventTypes] + [Countries] + [Devices]
                              + [Referrers] + [ResponseTimes], redis.now, ev)
    {
      UpdateUserMetrics(minute, ev, dims);
      UpdateDistributions(minute, ev, dims + [Users] + [Sessions] + [Conversions]);
      UpdatePerformanceMetrics(minute, ev, dims + [Users] + [Sessions] + [Conversions] + [EventTypes] + [Countries]
                                           + [Devices] + [Referrers]);
    }

    /** The commands of `processEvent`, in order. */
    method AggregateEvent(minute: int, hour: int, day: int, ev: Event)
      requires InTouch() && sent == []
      requires minute == redis.now / MINUTE && hour == redis.now / HOUR && day == redis.now / DAY
      modifies redis`store, this`sent
      ensures InTouch() && sent == EventCommands(redis.now, ev)
    {
      UpdateLastActivityTime(ev);
      UpdateVolumeMetrics(minute, hour, day, ev);
      UpdateMinute(minute, ev, [] + [Volume] + [VolumeHour] + [VolumeDay]);
      assert [] + [Volume] + [VolumeHour] + [VolumeDay] + [Users] + [Sessions] + [Conversions] + [EventTypes]
             + [Countries] + [Devices] + [Referrers] + [ResponseTimes] == ALL_DIMS;
    }

    /** `processEvent`: one event's worth of commands, and the event put in front of the live feed. */
    method ProcessEvent(r: Request)
      requires Valid()
      modifies this, redis`store
      ensures Valid() && state == Next(old(state), Process(r))
    {
      if r.timestamp.None? {
        return;
      }
      AggregateEvent(redis.now / MINUTE, redis.now / HOUR, redis.now / DAY, r);
      AddToLiveEvents(r);
    }

    /** Time passes. */
    method Elapse(ms: nat)
      requires Valid()
      modifies this`state, redis`now
      ensures Valid() && state == Next(old(state), Advance(ms))
    {
      StepAgrees(state, Advance(ms));
      redis.now := redis.now + ms;
      state := Next(state, Advance(ms));
    }

    /** Redis reclaims a key that has expired. */
    method ReclaimKey(k: Key)
      requires Valid()
      modifies this`state, redis`store
      ensures Valid() && state == Next(old(state), Reclaim(k))
    {
      StepAgrees(state, Reclaim(k));
      MirrorsReclaim(redis.store, state.store, k);
      assert Raw(redis.store, KeyName(k)) == Raw(state.store, k);
      var name := KeyName(k);
      if name in redis.store && Expired(redis.store[name], redis.now) {
        redis.store := redis.store - {name};
      }
      state := Next(state, Reclaim(k));
    }

    /** `addToLiveEvents`; with it, the event has been recorded. */
    method AddToLiveEvents(ev: Event)
      requires InTouch() && sent == EventCommands(redis.now, ev)
      requires liveEventsBuffer == Take(Feed(state.log), LIVE_EVENTS)
      modifies this
      ensures Valid() && state == Next(old(state), Process(ev))
      ensures FeedShows(liveEventsBuffer, state.log)
    {
      TakenFeedShows(state.log + [Logged(redis.now, ev)]);
      FeedAppend(state.log, Logged(redis.now, ev));
      StepAgrees(state, Process(ev));
      liveEventsBuffer := [ToLiveEvent(ev)] + liveEventsBuffer;
      if |liveEventsBuffer| > LIVE_EVENTS {
        liveEventsBuffer := liveEventsBuffer[..|liveEventsBuffer| - 1];
      }
      state := Next(state, Process(ev));
      sent := [];
    }
  }
}
