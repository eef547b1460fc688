/** The API-key services, on the documents in Mongo and the hashes in Redis that all processes share. */
module ApiKeyService {
  import opened Wrappers
  import opened ApiKeyUsage

  function UpdateCounts(us: seq<Update>): (r: seq<nat>)
    ensures |r| == |us| && forall j | 0 <= j < |us| :: r[j] == us[j].usageCount
  {
    if us == [] then [] else [us[0].usageCount] + UpdateCounts(us[1..])
  }

  lemma SentCounts(us: seq<Update>, p: Process, g: nat)
    requires p.replies != []
    ensures UpdateCounts(Sent(us, p, g)) == UpdateCounts(us) +
              if SyncDue(p.counter) && p.replies[0].hash.hasKey then [p.replies[0].hash.usageCount] else []
  {
  }

  function Hashes(replies: seq<Answer>): (r: seq<UsageHash>)
    ensures |r| == |replies| && forall j | 0 <= j < |r| :: r[j] == replies[j].hash
  {
    if replies == [] then [] else [replies[0].hash] + Hashes(replies[1..])
  }

  /** The documents in Mongo, the updates on their way to it and the hashes in Redis, shared by all processes. */
  class UsageStore {
    var docs: map<string, Doc>
    var updates: map<string, seq<nat>>
    var hashes: map<string, UsageHash>

    function HashOf(id: string): Option<UsageHash>
      reads this
    {
      if id in hashes then Some(hashes[id]) else None
    }

    function DocOf(id: string): Option<Doc>
      reads this
    {
      if id in docs then Some(docs[id]) else None
    }

    function UpdatesOf(id: string): seq<nat>
      reads this
    {
      if id in updates then updates[id] else []
    }

    /** `updateApiKeyUsage`, which nobody waits for. The document is looked up by the `key` field of the reply. */
    method UpdateApiKeyUsage(id: string, reply: UsageHash)
      modifies this`updates
      ensures UpdatesOf(id) == old(UpdatesOf(id)) + if reply.hasKey then [reply.usageCount] else []
      ensures forall other | other != id :: UpdatesOf(other) == old(UpdatesOf(other))
    {
      if reply.hasKey {
        updates := updates[id := UpdatesOf(id) + [reply.usageCount]];
      }
    }
  }

  /** One process. `awaited` are the replies that its calls of `incrementUsage` are still waiting for. */
  class ApiKeyUsageService {
    const store: UsageStore
    var syncCounter: map<string, nat>
    var awaited: map<string, seq<UsageHash>>

    constructor (store: UsageStore)
      ensures this.store == store && syncCounter == map[] && awaited == map[]
      ensures forall id :: Counter(id) == 0 && Awaited(id) == []
    {
      this.store := store;
      syncCounter, awaited := map[], map[];
    }

    function Counter(id: string): nat
      reads this
    {
      if id in syncCounter then syncCounter[id] else 0
    }

    function Awaited(id: string): seq<UsageHash>
      reads this
    {
      if id in awaited then awaited[id] else []
    }

    /** What this process's view of one key is in a state of the system. */
    ghost predicate Shows(id: string, process: nat, s: State)
      reads this, store
    {
      && store.HashOf(id) == s.hash && store.UpdatesOf(id) == UpdateCounts(s.updates)
      && process < |s.processes| && s.processes[process].counter == Counter(id)
      && Hashes(s.processes[process].replies) == Awaited(id)
    }

    /** `incrementUsage` up to its `await`. */
    method IncrementUsage(id: string, ghost process: nat, ghost s: State)
      requires Shows(id, process, s)
      modifies this`awaited, store`hashes
      ensures Shows(id, process, Next(s, Bump(process)))
      ensures forall other | other != id ::
                Awaited(other) == old(Awaited(other)) && store.HashOf(other) == old(store.HashOf(other))
    {
      var h := Incremented(store.HashOf(id));
      store.hashes := store.hashes[id := h];
      awaited := awaited[id := Awaited(id) + [h]];
    }

    /** The rest of it, when the first awaited reply comes in. */
    method OnReply(id: string, ghost process: nat, ghost s: State) returns (usageCount: nat)
      requires Shows(id, process, s) && Awaited(id) != []
      modifies this, store`updates
      ensures Shows(id, process, Next(s, Reply(process)))
      ensures usageCount == old(Awaited(id))[0].usageCount
      ensures awaited == old(awaited)[id := old(Awaited(id))[1..]]
      ensures id in syncCounter && syncCounter == old(syncCounter)[id := syncCounter[id]]
      ensures forall other | other != id :: store.UpdatesOf(other) == old(store.UpdatesOf(other))
    {
      ghost var before := s.processes[process];
      var reply := Awaited(id)[0];
      SentCounts(s.updates, before, s.generation);
      awaited := awaited[id := Awaited(id)[1..]];
      usageCount := reply.usageCount;
      var currentCount := Counter(id);
      syncCounter := syncCounter[id := currentCount + 1];
      if (currentCount + 1) % SYNC_EVERY == 0 {
        store.UpdateApiKeyUsage(id, reply);
        syncCounter := syncCounter[id := 0];
      }
      assert LookedAt(before, s.generation).counter == Counter(id);
      assert Hashes(LookedAt(before, s.generation).replies) == Awaited(id);
    }

    /** The interceptor's validation, which refuses exactly a key without a document, an inactive one and one at its
        limit. The document it returns is what the initialisation will write. */
    method ValidateApiKey(id: string, ghost s: State, ghost stream: nat) returns (r: Result<Doc, Refusal>)
      ensures r == Err(InvalidKey) <==> id !in store.docs
      ensures r == Err(Deactivated) <==> id in store.docs && !store.docs[id].active
      ensures r == Err(LimitReached) <==>
              id in store.docs && store.docs[id].active && store.docs[id].usageLimit <= store.docs[id].usageCount
      ensures store.DocOf(id) == Some(s.doc) && stream !in s.inits ==>
                && (r.Ok? <==> stream in Next(s, Admit(stream)).inits)
                && (r.Ok? ==> r.value == s.doc && Next(s, Admit(stream)).inits[stream] == Admitted(r.value.usageCount))
    {
      r := Validate(store.DocOf(id));
    }

    /** `initializeApiKeyUsage` up to its `await`. */
    method Exists(id: string, ghost process: nat, ghost s: State, ghost stream: nat) returns (found: bool)
      requires Shows(id, process, s) && stream in s.inits && s.inits[stream].Admitted?
      ensures Shows(id, process, Next(s, CheckExists(stream)))
      ensures Next(s, CheckExists(stream)).inits[stream] == Checked(s.inits[stream].snapshot, found)
    {
      found := id in store.hashes;
    }

    /** The rest of it. */
    method InitializeApiKeyUsage(id: string, status: Doc, found: bool,
                                 ghost process: nat, ghost s: State, ghost stream: nat)
      requires Shows(id, process, s) && stream in s.inits && s.inits[stream] == Checked(status.usageCount, found)
      modifies store`hashes
      ensures Shows(id, process, Next(s, WriteHash(stream)))
      ensures forall other | other != id :: store.HashOf(other) == old(store.HashOf(other))
    {
      if !found {
        store.hashes := store.hashes[id := UsageHash(status.usageCount, true)];
      }
    }
  }
}
