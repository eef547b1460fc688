/** The two batchers behind an event stream: one global buffer for the database, one buffer per owner for the
    websocket, and the stream handler that feeds both. */
module Batchers {
  datatype Event = Event(eventName: string, payload: string, timestamp: string)

  /** An event as it entered the system. */
  datatype Tagged = Tagged(ownerId: string, event: Event)

  datatype Received = Received(ownerId: string, event: Event, receivedAt: nat)

  /** The events of one owner, in order. */
  function Project(ownerId: string, log: seq<Tagged>): seq<Event> {
    if log == [] then []
    else
      var x := log[|log| - 1];
      var before := Project(ownerId, log[..|log| - 1]);
      if x.ownerId == ownerId then before + [x.event] else before
  }

  function Tag(xs: seq<Received>): (log: seq<Tagged>)
    ensures |log| == |xs| && forall i | 0 <= i < |xs| :: log[i] == Tagged(xs[i].ownerId, xs[i].event)
  {
    if xs == [] then [] else [Tagged(xs[0].ownerId, xs[0].event)] + Tag(xs[1..])
  }

  function Flatten<T>(jobs: seq<seq<T>>): seq<T> {
    if jobs == [] then [] else Flatten(jobs[..|jobs| - 1]) + jobs[|jobs| - 1]
  }

  lemma FlattenSnoc<T>(jobs: seq<seq<T>>, job: seq<T>)
    ensures Flatten(jobs + [job]) == Flatten(jobs) + job
  {
    assert (jobs + [job])[..|jobs|] == jobs;
  }

  lemma ProjectSnoc(ownerId: string, log: seq<Tagged>, x: Tagged)
    ensures Project(ownerId, log + [x]) ==
            if x.ownerId == ownerId then Project(ownerId, log) + [x.event] else Project(ownerId, log)
  {
    assert (log + [x])[..|log|] == log;
  }

  lemma TagSnoc(xs: seq<Received>, x: Received)
    ensures Tag(xs + [x]) == Tag(xs) + [Tagged(x.ownerId, x.event)]
  {
  }

  // ----- The database batcher -----

  ghost predicate Chronological(xs: seq<Received>) {
    forall i, j | 0 <= i < j < |xs| :: xs[i].receivedAt <= xs[j].receivedAt
  }

  lemma ChronologicalSnoc(xs: seq<Received>, x: Received)
    requires Chronological(xs) && (xs != [] ==> xs[|xs| - 1].receivedAt <= x.receivedAt)
    ensures Chronological(xs + [x])
  {
  }

  class StreamEventBatcher {
    const batch: nat := 10000
    var buffer: seq<Received>
    /** The jobs enqueued so far. */
    var jobs: seq<seq<Received>>
    /** Everything ever added. */
    ghost var added: seq<Received>

    ghost predicate Valid()
      reads this
    {
      && Flatten(jobs) + buffer == added
      && |buffer| < batch
      && (forall j | 0 <= j < |jobs| :: 1 <= |jobs[j]| <= 10000)
      && Chronological(added)
    }

    constructor ()
      ensures Valid() && jobs == [] && added == []
    {
      buffer, jobs, added := [], [], [];
    }

    method AddStreamEvent(ownerId: string, event: Event, now: nat)
      requires Valid()
      requires added != [] ==> added[|added| - 1].receivedAt <= now
      modifies this
      ensures Valid() && added == old(added) + [Received(ownerId, event, now)]
      ensures var all := old(buffer) + [Received(ownerId, event, now)];
              if |all| >= 10000 then jobs == old(jobs) + [all] && buffer == [] else jobs == old(jobs) && buffer == all
    {
      ChronologicalSnoc(added, Received(ownerId, event, now));
      assert Flatten(jobs) + (buffer + [Received(ownerId, event, now)]) == added + [Received(ownerId, event, now)];
      buffer := buffer + [Received(ownerId, event, now)];
      added := added + [Received(ownerId, event, now)];
      if |buffer| >= batch {
        FlushBatch();
      }
    }

    /** `flushBatch`, which the size trigger and the timer share. */
    method FlushBatch()
      requires Flatten(jobs) + buffer == added && |buffer| <= batch
      requires forall j | 0 <= j < |jobs| :: 1 <= |jobs[j]| <= batch
      requires Chronological(added)
      modifies this
      ensures Valid() && added == old(added) && buffer == []
      ensures jobs == if old(buffer) == [] then old(jobs) else old(jobs) + [old(buffer)]
    {
      if |buffer| == 0 {
        return;
      }
      var events := buffer;
      buffer := [];
      FlattenSnoc(jobs, events);
      jobs := jobs + [events];
    }
  }

  /** `receivedAt` never goes down from one job to a later one. */
  lemma JobsInOrder(batcher: StreamEventBatcher, i: nat, j: nat, x: Received, y: Received)
    requires batcher.Valid() && i < j < |batcher.jobs| && x in batcher.jobs[i] && y in batcher.jobs[j]
    ensures x.receivedAt <= y.receivedAt
  {
    var p := FlattenIndex(batcher.jobs, i, x);
    var q := FlattenIndex(batcher.jobs, j, y);
    FlattenPosition(batcher.jobs, i, j);
    assert Flatten(batcher.jobs)[p] == batcher.added[p] && Flatten(batcher.jobs)[q] == batcher.added[q];
  }

  /** Where the `i`-th job starts in the flattened list. */
  function Offset<T>(jobs: seq<seq<T>>, i: nat): nat
    requires i <= |jobs|
  {
    |Flatten(jobs[..i])|
  }

  lemma {:induction false} OffsetStep<T>(jobs: seq<seq<T>>, i: nat)
    requires i < |jobs|
    ensures Offset(jobs, i + 1) == Offset(jobs, i) + |jobs[i]|
  {
    assert jobs[..i + 1] == jobs[..i] + [jobs[i]];
    FlattenSnoc(jobs[..i], jobs[i]);
  }

  lemma {:induction false} FlattenPosition<T>(jobs: seq<seq<T>>, i: nat, j: nat)
    requires i < j <= |jobs|
    ensures Offset(jobs, i + 1) <= Offset(jobs, j)
    decreases j
  {
    if i + 1 < j {
      FlattenPosition(jobs, i, j - 1);
      OffsetStep(jobs, j - 1);
    }
  }

  lemma {:induction false} FlattenIndex<T>(jobs: seq<seq<T>>, i: nat, x: T) returns (p: nat)
    requires i < |jobs| && x in jobs[i]
    ensures Offset(jobs, i) <= p < Offset(jobs, i + 1) <= |Flatten(jobs)| && Flatten(jobs)[p] == x
  {
    var n := |jobs| - 1;
    assert jobs[..n + 1] == jobs;
    OffsetStep(jobs, i);
    if i == n {
      var k :| 0 <= k < |jobs[i]| && jobs[i][k] == x;
      p := Offset(jobs, i) + k;
    } else {
      p := FlattenIndex(jobs[..n], i, x);
      assert jobs[..n][..i] == jobs[..i] && jobs[..n][..i + 1] == jobs[..i + 1];
    }
  }

  // ----- The websocket batcher -----

  /** A JavaScript array: an object that a buffer and a job may share. */
  class EventArray {
    var items: seq<Event>

    constructor ()
      ensures items == []
    {
      items := [];
    }
  }

  datatype Job = Job(ownerId: string, events: EventArray)

  datatype Shipment = Shipment(ownerId: string, events: seq<Event>)

  /** The batcher by value: what its jobs and its buffers hold, and everything ever added. */
  datatype Contents = Contents(shipped: seq<Shipment>, buffers: map<string, seq<Event>>, log: seq<Tagged>)

  function Buffered(ownerId: string, buffers: map<string, seq<Event>>): seq<Event> {
    if ownerId in buffers then buffers[ownerId] else []
  }

  /** What the jobs hold for one owner, in order. */
  function Sent(ownerId: string, shipped: seq<Shipment>): seq<Event> {
    if shipped == [] then []
    else
      var last := shipped[|shipped| - 1];
      var before := Sent(ownerId, shipped[..|shipped| - 1]);
      if last.ownerId == ownerId then before + last.events else before
  }

  /** Nothing of an owner's is lost, duplicated or reordered. */
  predicate ConservesFor(o: string, c: Contents) {
    Sent(o, c.shipped) + Buffered(o, c.buffers) == Project(o, c.log)
  }

  ghost predicate Conserves(c: Contents) {
    forall o :: ConservesFor(o, c)
  }

  function Added(c: Contents, ownerId: string, event: Event): Contents {
    c.(buffers := c.buffers[ownerId := Buffered(ownerId, c.buffers) + [event]], log := c.log + [Tagged(ownerId, event)])
  }

  function WithOwner(c: Contents, ownerId: string): Contents {
    if ownerId in c.buffers then c else c.(buffers := c.buffers[ownerId := []])
  }

  function Flushed(c: Contents, ownerId: string): Contents {
    if Buffered(ownerId, c.buffers) == [] then c
    else c.(shipped := c.shipped + [Shipment(ownerId, c.buffers[ownerId])], buffers := c.buffers[ownerId := []])
  }

  /** One flush per owner, in order. */
  function FlushedAll(c: Contents, owners: seq<string>): Contents {
    if owners == [] then c else Flushed(FlushedAll(c, owners[..|owners| - 1]), owners[|owners| - 1])
  }

  lemma {:induction false} FlushedAllEmpties(c: Contents, owners: seq<string>)
    ensures var c' := FlushedAll(c, owners);
            && c'.log == c.log && c.shipped <= c'.shipped && c'.buffers.Keys == c.buffers.Keys
            && (forall o | o in owners :: Buffered(o, c'.buffers) == [])
  {
    if owners != [] {
      var front, last := owners[..|owners| - 1], owners[|owners| - 1];
      FlushedAllEmpties(c, front);
      assert owners == front + [last];
    }
  }

  const BATCH_SIZE: nat := 5000

  /** Every owner's events are conserved, every job is of a proper size, and no buffer is more than full. */
  ghost predicate Sound(c: Contents) {
    && Conserves(c)
    && (forall j | 0 <= j < |c.shipped| :: 1 <= |c.shipped[j].events| <= 5000)
    && (forall o | o in c.buffers :: |c.buffers[o]| <= BATCH_SIZE)
  }

  ghost predicate NoneFull(c: Contents) {
    forall o | o in c.buffers :: |c.buffers[o]| < BATCH_SIZE
  }

  lemma AddedSound(c: Contents, ownerId: string, event: Event)
    requires Sound(c) && NoneFull(c)
    ensures Sound(Added(c, ownerId, event))
    ensures |Buffered(ownerId, Added(c, ownerId, event).buffers)| < BATCH_SIZE ==> NoneFull(Added(c, ownerId, event))
  {
    var c' := Added(c, ownerId, event);
    forall o ensures ConservesFor(o, c') {
      ProjectSnoc(o, c.log, Tagged(ownerId, event));
      assert ConservesFor(o, c);
    }
  }

  lemma FlushedSound(c: Contents, ownerId: string)
    requires Sound(c)
    ensures Sound(Flushed(c, ownerId))
  {
    var c' := Flushed(c, ownerId);
    if c' != c {
      var shipment := Shipment(ownerId, c.buffers[ownerId]);
      forall o ensures ConservesFor(o, c') {
        assert (c.shipped + [shipment])[..|c.shipped|] == c.shipped;
        assert ConservesFor(o, c);
      }
    }
  }

  class StreamWebSocketBatcher {
    const batchSize: nat := BATCH_SIZE
    /** The buffers, and their owners in the order in which the map iterates over them. */
    var bufferMap: map<string, EventArray>
    var owners: seq<string>
    /** The jobs enqueued so far. */
    var jobs: seq<Job>
    ghost var contents: Contents

    /** No array is both a buffer and in a job, and no two buffers are the same array. */
    ghost predicate Separate()
      reads this
    {
      && (forall o, p | o in bufferMap && p in bufferMap && o != p :: bufferMap[o] != bufferMap[p])
      && (forall o, j | o in bufferMap && 0 <= j < |jobs| :: bufferMap[o] != jobs[j].events)
      && (forall i, j | 0 <= i < j < |owners| :: owners[i] != owners[j])
      && (forall o :: o in owners <==> o in bufferMap)
    }

    /** `contents` is what the arrays hold: in particular, a job still holds what it was enqueued with. */
    ghost predicate Reflects()
      reads this, bufferMap.Values, set j | j in jobs :: j.events
    {
      && contents.buffers.Keys == bufferMap.Keys
      && (forall o | o in bufferMap :: bufferMap[o].items == contents.buffers[o])
      && |contents.shipped| == |jobs|
      && (forall j | 0 <= j < |jobs| ::
            jobs[j].ownerId == contents.shipped[j].ownerId && jobs[j].events.items == contents.shipped[j].events)
    }

    /** What holds even while a full buffer waits to be flushed. */
    ghost predicate Loaded()
      reads this, bufferMap.Values, set j | j in jobs :: j.events
    {
      Separate() && Reflects() && Sound(contents)
    }

    ghost predicate Valid()
      reads this, bufferMap.Values, set j | j in jobs :: j.events
    {
      Loaded() && NoneFull(contents)
    }

    constructor ()
      ensures Valid() && contents == Contents([], map[], [])
    {
      bufferMap, owners, jobs, contents := map[], [], [], Contents([], map[], []);
    }

    /** The buffer itself goes into a job, and the owner gets a new one. */
    method Enqueue(ownerId: string) returns (empty: EventArray)
      requires Separate() && Reflects() && ownerId in bufferMap && bufferMap[ownerId].items != []
      modifies this`bufferMap, this`jobs, this`contents
      ensures Separate() && Reflects() && contents == Flushed(old(contents), ownerId)
      ensures jobs == old(jobs) + [Job(ownerId, old(bufferMap[ownerId]))]
      ensures fresh(empty) && bufferMap == old(bufferMap)[ownerId := empty]
    {
      var events := bufferMap[ownerId];
      empty := new EventArray();
      bufferMap := bufferMap[ownerId := empty];
      jobs := jobs + [Job(ownerId, events)];
      contents := contents.(shipped := contents.shipped + [Shipment(ownerId, events.items)],
                            buffers := contents.buffers[ownerId := []]);
    }

    /** `flushUserBatch`. */
    method FlushUserBatch(ownerId: string)
      requires Loaded()
      modifies this
      ensures Loaded() && contents == Flushed(old(contents), ownerId) && owners == old(owners)
      ensures if ownerId in old(bufferMap) && old(bufferMap[ownerId].items) != [] then
                && jobs == old(jobs) + [Job(ownerId, old(bufferMap[ownerId]))]
                && ownerId in bufferMap && fresh(bufferMap[ownerId])
                && bufferMap == old(bufferMap)[ownerId := bufferMap[ownerId]]
              else jobs == old(jobs) && bufferMap == old(bufferMap)
    {
      if ownerId !in bufferMap || |bufferMap[ownerId].items| == 0 {
        return;
      }
      FlushedSound(contents, ownerId);
      var _ := Enqueue(ownerId);
    }

    /** `flushAllBatches`: a loop over the live keys of the map, none of which is added or removed meanwhile. */
    method FlushAllBatches()
      requires Loaded()
      modifies this
      ensures Valid() && contents == FlushedAll(old(contents), owners) && owners == old(owners)
      ensures forall o :: Buffered(o, contents.buffers) == []
    {
      var i := 0;
      while i < |owners|
        invariant i <= |owners| && owners == old(owners)
        invariant Loaded() && contents == FlushedAll(old(contents), owners[..i])
        decreases |owners| - i
      {
        assert owners[..i + 1][..i] == owners[..i];
        FlushUserBatch(owners[i]);
        i := i + 1;
      }
      assert owners[..i] == owners;
      FlushedAllEmpties(old(contents), owners);
      forall o ensures Buffered(o, contents.buffers) == [] {
        if o in contents.buffers {
          assert o in owners;
        }
      }
      forall o | o in contents.buffers ensures |contents.buffers[o]| < BATCH_SIZE {
        assert Buffered(o, contents.buffers) == [];
      }
    }

    method EnsureBuffer(ownerId: string)
      requires Separate() && Reflects()
      modifies this
      ensures Separate() && Reflects() && contents == WithOwner(old(contents), ownerId)
      ensures ownerId in bufferMap
      ensures if ownerId in old(bufferMap) then bufferMap == old(bufferMap) else fresh(bufferMap[ownerId])
    {
      if ownerId !in bufferMap {
        var empty := new EventArray();
        bufferMap := bufferMap[ownerId := empty];
        owners := owners + [ownerId];
        contents := WithOwner(contents, ownerId);
      }
    }

    method Push(ownerId: string, event: Event)
      requires Separate() && Reflects() && ownerId in bufferMap
      modifies this`contents, bufferMap[ownerId]
      ensures Separate() && Reflects() && contents == Added(old(contents), ownerId, event)
    {
      var userBuffer := bufferMap[ownerId];
      userBuffer.items := userBuffer.items + [event];
      contents := Added(contents, ownerId, event);
    }

    /** `addEvent`: a buffer that reaches the batch size makes every owner's buffer go out. */
    method AddEvent(ownerId: string, event: Event)
      requires Valid()
      modifies this, bufferMap.Values
      ensures Valid() && contents.log == old(contents.log) + [Tagged(ownerId, event)]
      ensures var c := Added(old(contents), ownerId, event);
              contents == if |Buffered(ownerId, c.buffers)| >= 5000 then FlushedAll(c, owners) else c
    {
      AddedSound(contents, ownerId, event);
      EnsureBuffer(ownerId);
      Push(ownerId, event);
      assert contents.buffers == Added(old(contents), ownerId, event).buffers;
      if |bufferMap[ownerId].items| >= batchSize {
        FlushedAllEmpties(contents, owners);
        FlushAllBatches();
      }
    }
  }

  // ----- The stream handler -----

  class EventsService {
    const streamEventBatcher: StreamEventBatcher
    const streamWebSocketBatcher: StreamWebSocketBatcher
    /** The calls of `incrementUsage`, by API key. */
    var increments: seq<string>
    var metricsQueue: seq<Tagged>
    /** One response per event of any stream. */
    var responses: nat
    /** The acknowledged events, in order, and the API keys of their streams. */
    ghost var acknowledged: seq<Tagged>
    ghost var apiKeys: seq<string>

    ghost predicate DatabaseHolds(log: seq<Tagged>)
      reads streamEventBatcher
    {
      streamEventBatcher.Valid() && Tag(streamEventBatcher.added) == log
    }

    ghost predicate WebSocketHolds(log: seq<Tagged>)
      reads streamWebSocketBatcher, streamWebSocketBatcher.bufferMap.Values,
            set j | j in streamWebSocketBatcher.jobs :: j.events
    {
      streamWebSocketBatcher.Valid() && streamWebSocketBatcher.contents.log == log
    }

    /** Each event was queued for the metrics, answered, and counted for the API key of its stream, once. */
    ghost predicate Counts(log: seq<Tagged>)
      reads this
    {
      metricsQueue == log && responses == |log| && increments == apiKeys && |apiKeys| == |log|
    }

    ghost predicate Valid()
      reads this, streamEventBatcher, streamWebSocketBatcher, streamWebSocketBatcher.bufferMap.Values,
            set j | j in streamWebSocketBatcher.jobs :: j.events
    {
      && DatabaseHolds(acknowledged) && WebSocketHolds(acknowledged)
      && Counts(acknowledged)
    }

    constructor (db: StreamEventBatcher, ws: StreamWebSocketBatcher)
      requires db.Valid() && db.added == [] && ws.Valid() && ws.contents.log == []
      ensures Valid() && acknowledged == [] && apiKeys == []
      ensures streamEventBatcher == db && streamWebSocketBatcher == ws
    {
      streamEventBatcher, streamWebSocketBatcher := db, ws;
      increments, metricsQueue, responses, acknowledged, apiKeys := [], [], 0, [], [];
    }

    method Store(ownerId: string, event: Event, now: nat, ghost log: seq<Tagged>)
      requires DatabaseHolds(log)
      requires var added := streamEventBatcher.added; added != [] ==> added[|added| - 1].receivedAt <= now
      modifies streamEventBatcher
      ensures DatabaseHolds(log + [Tagged(ownerId, event)])
    {
      TagSnoc(streamEventBatcher.added, Received(ownerId, event, now));
      streamEventBatcher.AddStreamEvent(ownerId, event, now);
    }

    method Broadcast(ownerId: string, event: Event, ghost log: seq<Tagged>)
      requires WebSocketHolds(log)
      modifies streamWebSocketBatcher, streamWebSocketBatcher.bufferMap.Values
      ensures WebSocketHolds(log + [Tagged(ownerId, event)])
    {
      streamWebSocketBatcher.AddEvent(ownerId, event);
    }

    /** Both pipelines get the event. */
    method Forward(ownerId: string, event: Event, now: nat, ghost log: seq<Tagged>)
      requires DatabaseHolds(log) && WebSocketHolds(log)
      requires var added := streamEventBatcher.added; added != [] ==> added[|added| - 1].receivedAt <= now
      modifies streamEventBatcher, streamWebSocketBatcher, streamWebSocketBatcher.bufferMap.Values
      ensures DatabaseHolds(log + [Tagged(ownerId, event)]) && WebSocketHolds(log + [Tagged(ownerId, event)])
    {
      Store(ownerId, event, now, log);
      Broadcast(ownerId, event, log);
    }

    /** The call that the handler does not wait for; `ApiKeyUsage` models what it does. */
    method IncrementUsage(apiKeyId: string)
      modifies this`increments
      ensures increments == old(increments) + [apiKeyId]
    {
      increments := increments + [apiKeyId];
    }

    method Acknowledge(ghost apiKeyId: string, x: Tagged)
      modifies this`metricsQueue, this`responses, this`acknowledged, this`apiKeys
      ensures metricsQueue == old(metricsQueue) + [x] && responses == old(responses) + 1
      ensures acknowledged == old(acknowledged) + [x] && apiKeys == old(apiKeys) + [apiKeyId]
    {
      metricsQueue := metricsQueue + [x];
      responses := responses + 1;
      acknowledged := acknowledged + [x];
      apiKeys := apiKeys + [apiKeyId];
    }

    /** The `next` handler of a stream of the owner, opened with an API key. */
    method OnEvent(apiKeyId: string, ownerId: string, event: Event, now: nat)
      requires Valid()
      requires var added := streamEventBatcher.added; added != [] ==> added[|added| - 1].receivedAt <= now
      modifies this, streamEventBatcher, streamWebSocketBatcher, streamWebSocketBatcher.bufferMap.Values
      ensures Valid() && acknowledged == old(acknowledged) + [Tagged(ownerId, event)]
      ensures apiKeys == old(apiKeys) + [apiKeyId]
    {
      IncrementUsage(apiKeyId);
      Forward(ownerId, event, now, acknowledged);
      Acknowledge(apiKeyId, Tagged(ownerId, event));
    }

    method FlushDatabase(ghost log: seq<Tagged>)
      requires DatabaseHolds(log)
      modifies streamEventBatcher
      ensures DatabaseHolds(log) && streamEventBatcher.buffer == []
    {
      streamEventBatcher.FlushBatch();
    }

    method FlushWebSocket(ghost log: seq<Tagged>)
      requires WebSocketHolds(log)
      modifies streamWebSocketBatcher
      ensures WebSocketHolds(log) && forall o :: Buffered(o, streamWebSocketBatcher.contents.buffers) == []
    {
      FlushedAllEmpties(streamWebSocketBatcher.contents, streamWebSocketBatcher.owners);
      streamWebSocketBatcher.FlushAllBatches();
    }

    method DatabaseTimer()
      requires Valid()
      modifies streamEventBatcher
      ensures Valid() && streamEventBatcher.buffer == []
    {
      FlushDatabase(acknowledged);
    }

    method WebSocketTimer()
      requires Valid()
      modifies streamWebSocketBatcher
      ensures Valid() && forall o :: Buffered(o, streamWebSocketBatcher.contents.buffers) == []
    {
      FlushWebSocket(acknowledged);
    }

    /** Whatever was batched and flushed so far, both pipelines carry the same events of every owner, in the order in
        which they were acknowledged. */
    lemma PipelinesAgree(ownerId: string)
      requires Valid()
      ensures var c := streamWebSocketBatcher.contents;
              Project(ownerId, Tag(Flatten(streamEventBatcher.jobs) + streamEventBatcher.buffer))
              == Sent(ownerId, c.shipped) + Buffered(ownerId, c.buffers)
              == Project(ownerId, acknowledged)
    {
      assert ConservesFor(ownerId, streamWebSocketBatcher.contents);
    }
  }
}
