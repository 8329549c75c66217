/** The inbound webhook as one request after another. */
module WebhookService {
  import opened Domain
  import opened Webhooks

  datatype Outcome = Answered(body: Body) | InProgress | Unauthorized | StoreFailed

  /** A request that runs alone: its steps in the interleaved machine, one after another. */
  function Serve(c: Settings, s: State, p: int, steps: nat): State
    requires p in s.procs
    decreases steps
  {
    if steps == 0 then s else Serve(c, Advance(c, s, p), p, steps - 1)
  }

  /** The tables after a request, and the record it answered from, if any. */
  predicate Leaves(s: State, s': State, records: map<string, Record>, locks: map<string, int>, events: map<Event, int>,
                   key: string, answer: Option<Record>) {
    && s'.records == records && s'.locks == locks && s'.events == events
    && s'.replies == if answer == None then s.replies else s.replies + {Reply(key, answer.value.body, s.now, answer.value.expiresAt)}
  }

  lemma ServeOne(c: Settings, s: State, p: int, steps: nat)
    requires p in s.procs && steps > 0
    ensures Serve(c, s, p, steps) == Serve(c, Advance(c, s, p), p, steps - 1)
  {
  }

  lemma {:induction false} ServeFinished(c: Settings, s: State, p: int, steps: nat)
    requires p in s.procs && s.procs[p].Finished?
    ensures Serve(c, s, p, steps) == s
    decreases steps
  {
    if steps > 0 {
      ServeFinished(c, s, p, steps - 1);
    }
  }

  function NewRecord(c: Settings, s: State, req: Request): Record {
    Record(Body(if req.event in s.events then IsDuplicate else IsAccepted, req.event), s.now + c.recordTtl)
  }

  lemma Persists(c: Settings, s: State, p: int, req: Request)
    requires p in s.procs && s.procs[p] == Persisting(req)
    ensures var s' := Advance(c, s, p); var known := req.event in s.events;
      && p in s'.procs && s'.procs[p].Storing? && s'.procs[p].req == req && s'.procs[p].body == NewRecord(c, s, req).body
      && s'.events == (if known then s.events else s.events[req.event := s.now])
      && s'.records == s.records && s'.locks == s.locks && s'.replies == s.replies
  {
  }

  lemma Stores(c: Settings, s: State, p: int, req: Request, r: Record)
    requires p in s.procs && s.procs[p].Storing? && s.procs[p].req == req && r == Record(s.procs[p].body, s.now + c.recordTtl)
    ensures var s' := Advance(c, s, p);
      && s'.events == s.events && s'.locks == s.locks
      && if req.key in s.records then s'.procs[p] == Reading(req) && s'.records == s.records && s'.replies == s.replies
         else s'.procs[p] == Releasing(req) && s'.records == s.records[req.key := r] && s'.replies == s.replies + {Reply(req.key, r.body, s.now, r.expiresAt)}
  {
  }

  lemma ReadsNothing(c: Settings, s: State, p: int, req: Request)
    requires p in s.procs && s.procs[p] == Reading(req) && Cached(s, req.key) == None
    ensures Advance(c, s, p) == Move(s, p, Releasing(req))
  {
  }

  lemma Releases(c: Settings, s: State, p: int, req: Request)
    requires p in s.procs && s.procs[p] == Releasing(req)
    ensures Advance(c, s, p) == Move(s, p, Finished).(locks := s.locks - {req.key})
  {
  }

  /** What a valid request that holds the lock leaves behind. */
  lemma ServeLocked(c: Settings, s: State, p: int, req: Request)
    requires p in s.procs && s.procs[p] == Persisting(req) && Cached(s, req.key) == None
    ensures var s' := Serve(c, s, p, 5); var r := NewRecord(c, s, req);
      Leaves(s, s', if req.key in s.records then s.records else s.records[req.key := r], s.locks - {req.key},
             if req.event in s.events then s.events else s.events[req.event := s.now],
             req.key, if req.key in s.records then None else Some(r))
  {
    hide Serve, Advance;
    ServeOne(c, s, p, 5);
    Persists(c, s, p, req);
    var s1 := Advance(c, s, p);
    ServeOne(c, s1, p, 4);
    Stores(c, s1, p, req, NewRecord(c, s, req));
    var s2 := Advance(c, s1, p);
    ServeOne(c, s2, p, 3);
    if req.key in s.records {
      ReadsNothing(c, s2, p, req);
      var s3 := Advance(c, s2, p);
      ServeOne(c, s3, p, 2);
      Releases(c, s3, p, req);
      ServeFinished(c, Advance(c, s3, p), p, 1);
    } else {
      Releases(c, s2, p, req);
      ServeFinished(c, Advance(c, s2, p), p, 2);
    }
  }

  lemma ChecksFirst(c: Settings, s: State, p: int, req: Request)
    requires p in s.procs && s.procs[p] == Checking(req)
    ensures Advance(c, s, p) ==
      if Cached(s, req.key).Some? then Answer(s, p, req.key, Cached(s, req.key).value, Finished) else Move(s, p, Locking(req))
  {
  }

  lemma TriesLock(c: Settings, s: State, p: int, req: Request)
    requires p in s.procs && s.procs[p] == Locking(req)
    ensures Advance(c, s, p) ==
      if req.key in s.locks && s.locks[req.key] > s.now then Move(s, p, Rechecking(req))
      else Move(s, p, Verifying(req)).(locks := s.locks[req.key := s.now + c.lockTtl])
  {
  }

  lemma LooksAgain(c: Settings, s: State, p: int, req: Request)
    requires p in s.procs && s.procs[p] == Rechecking(req) && Cached(s, req.key) == None
    ensures Advance(c, s, p) == Move(s, p, Finished)
  {
  }

  lemma Verifies(c: Settings, s: State, p: int, req: Request)
    requires p in s.procs && s.procs[p] == Verifying(req)
    ensures Advance(c, s, p) == Move(s, p, if req.valid then Persisting(req) else Releasing(req))
  {
  }

  /** What a request without a cached record leaves behind. */
  predicate LeavesUncached(c: Settings, s: State, s': State, req: Request) {
    var r := NewRecord(c, s, req);
    if req.key in s.locks && s.locks[req.key] > s.now then Leaves(s, s', s.records, s.locks, s.events, req.key, None)
    else if !req.valid then Leaves(s, s', s.records, s.locks - {req.key}, s.events, req.key, None)
    else
      Leaves(s, s', if req.key in s.records then s.records else s.records[req.key := r], s.locks - {req.key},
             if req.event in s.events then s.events else s.events[req.event := s.now],
             req.key, if req.key in s.records then None else Some(r))
  }

  lemma ServeUncached(c: Settings, s: State, p: int, req: Request)
    requires p in s.procs && s.procs[p] == Locking(req) && Cached(s, req.key) == None
    ensures LeavesUncached(c, s, Serve(c, s, p, 7), req)
  {
    hide Serve, Advance;
    ServeOne(c, s, p, 7);
    TriesLock(c, s, p, req);
    var s1 := Advance(c, s, p);
    ServeOne(c, s1, p, 6);
    var s2 := Advance(c, s1, p);
    if req.key in s.locks && s.locks[req.key] > s.now {
      LooksAgain(c, s1, p, req);
      ServeFinished(c, s2, p, 5);
    } else {
      Verifies(c, s1, p, req);
      assert s1.locks - {req.key} == s.locks - {req.key};
      if req.valid {
        ServeLocked(c, s2, p, req);
      } else {
        Releases(c, s2, p, req);
        ServeOne(c, s2, p, 5);
        ServeFinished(c, Advance(c, s2, p), p, 4);
      }
    }
  }

  /** What a request that runs alone leaves behind: a valid record is replayed; a held lock refuses it; an invalid
      request only frees the lock; a valid one stores at most one event and one record. */
  lemma ServesAlone(c: Settings, s: State, p: int, req: Request)
    requires p in s.procs && s.procs[p] == Checking(req)
    ensures var s' := Serve(c, s, p, 8);
      if Cached(s, req.key).Some? then Leaves(s, s', s.records, s.locks, s.events, req.key, Cached(s, req.key))
      else LeavesUncached(c, s, s', req)
  {
    hide Serve, Advance;
    ServeOne(c, s, p, 8);
    ChecksFirst(c, s, p, req);
    var s1 := Advance(c, s, p);
    if Cached(s, req.key).Some? {
      ServeFinished(c, s1, p, 7);
    } else {
      ServeUncached(c, s1, p, req);
    }
  }

  /** A valid request whose key has an expired record, served alone: without a clean-up it gets no answer, as the record
      is in the way of a new one; after a clean-up it is answered anew. */
  lemma CleanUpFreesTheKey(c: Settings, s: State, p: int, req: Request)
    requires p in s.procs && s.procs[p] == Checking(req) && req.valid && req.key !in s.locks
    requires req.key in s.records && s.records[req.key].expiresAt < s.now
    ensures Serve(c, s, p, 8).replies == s.replies && Serve(c, s, p, 8).records == s.records
    ensures var s' := Serve(c, Step(c, s, CleanRecords), p, 8);
      var anew := Record(Body(if req.event in s.events then IsDuplicate else IsAccepted, req.event), s.now + c.recordTtl);
      && req.key in s'.records && s'.records[req.key] == anew
      && s'.replies == s.replies + {Reply(req.key, anew.body, s.now, anew.expiresAt)}
  {
    hide Serve;
    ServesAlone(c, s, p, req);
    ServesAlone(c, Step(c, s, CleanRecords), p, req);
  }

  /** An event that arrives again is stored again exactly when the clean-up has removed it: once it is older than the
      retention period. */
  lemma CleanUpForgetsOldEvents(c: Settings, s: State, p: int, req: Request)
    requires p in s.procs && s.procs[p] == Persisting(req) && req.event in s.events
    ensures Advance(c, s, p).arrivals == s.arrivals
    ensures var s' := Advance(c, Step(c, s, CleanEvents), p);
      s'.arrivals == if s.events[req.event] < s.now - c.retention then s.arrivals + [Arrival(req.event, s.now)] else s.arrivals
  {
  }

  datatype Tables = Tables(records: map<string, Record>, locks: map<string, int>, events: map<Event, int>)

  /** What a request does: a valid record is replayed and nothing else happens. Otherwise a free lock, a valid
      request and no stale record lead to exactly one new record, and to a new event exactly when the event is
      unknown; the lock is free again afterwards. */
  predicate Handled(c: Settings, now: int, before: Tables, req: Request, after: Tables, outcome: Outcome) {
    var known := req.key in before.records;
    if known && before.records[req.key].expiresAt > now then outcome == Answered(before.records[req.key].body) && after == before
    else if req.key in before.locks && before.locks[req.key] > now then outcome == InProgress && after == before
    else
      var body := Body(if req.event in before.events then IsDuplicate else IsAccepted, req.event);
      && after.locks == before.locks - {req.key}
      && after.events == (if req.valid && req.event !in before.events then before.events[req.event := now] else before.events)
      && after.records == (if req.valid && !known then before.records[req.key := Record(body, now + c.recordTtl)] else before.records)
      && outcome == (if !req.valid then Unauthorized else if known then StoreFailed else Answered(body))
  }

  /** The machine with this request as its only process. */
  function Alone(now: int, t: Tables, req: Request): (s: State)
    ensures s.procs == map[0 := Checking(req)]
  {
    State(now, t.records, t.locks, t.events, map[0 := Checking(req)], {}, [], [])
  }

  /** The request did what its steps in the interleaved machine do when nothing else runs. */
  ghost predicate Served(c: Settings, now: int, before: Tables, req: Request, after: Tables, outcome: Outcome) {
    var s := Serve(c, Alone(now, before, req), 0, 8);
    && after == Tables(s.records, s.locks, s.events)
    && (outcome.Answered? <==> s.replies != {}) && (outcome.Answered? ==> exists r | r in s.replies :: r.body == outcome.body)
  }

  lemma HandledAsServed(c: Settings, now: int, before: Tables, req: Request, after: Tables, outcome: Outcome)
    requires Handled(c, now, before, req, after, outcome)
    ensures Served(c, now, before, req, after, outcome)
  {
    hide Serve;
    var s := Alone(now, before, req);
    ServesAlone(c, s, 0, req);
    var r := if Cached(s, req.key).Some? then Cached(s, req.key).value else NewRecord(c, s, req);
    assert outcome.Answered? ==> Reply(req.key, r.body, now, r.expiresAt) in Serve(c, s, 0, 8).replies;
  }

  class Intake {
    const c: Settings
    var now: int
    var records: map<string, Record>
    var locks: map<string, int>
    var events: map<Event, int>

    constructor (c: Settings, now: int)
      ensures this.c == c && this.now == now && records == map[] && locks == map[] && events == map[]
    {
      this.c, this.now, records, locks, events := c, now, map[], map[], map[];
    }

    function GetCachedResponse(key: string): (r: Option<Record>)
      reads this
      ensures r.Some? <==> key in records && records[key].expiresAt > now
    {
      if key in records && records[key].expiresAt > now then Some(records[key]) else None
    }

    ghost function Now(): Tables
      reads this
    {
      Tables(records, locks, events)
    }

    method TryAcquireLock(key: string) returns (acquired: bool)
      modifies `locks
      ensures acquired <==> key !in old(locks) || old(locks)[key] <= now
      ensures locks == if acquired then old(locks)[key := now + c.lockTtl] else old(locks)
    {
      acquired := key !in locks || locks[key] <= now;
      if acquired {
        locks := locks[key := now + c.lockTtl];
      }
    }

    /** The unique constraint refuses an event that is already in the table. */
    method PersistWebhookEvent(e: Event) returns (stored: bool)
      modifies `events
      ensures stored <==> e !in old(events)
      ensures events == if stored then old(events)[e := now] else old(events)
    {
      stored := e !in events;
      if stored {
        events := events[e := now];
      }
    }

    /** A record already stored for the key wins, if it is still valid. */
    method StoreResponse(key: string, body: Body) returns (r: Option<Body>)
      modifies `records
      ensures key !in old(records) ==> r == Some(body) && records == old(records)[key := Record(body, now + c.recordTtl)]
      ensures key in old(records) ==> records == old(records)
      ensures key in old(records) ==> r == if old(records)[key].expiresAt > now then Some(old(records)[key].body) else None
    {
      if key !in records {
        records := records[key := Record(body, now + c.recordTtl)];
        return Some(body);
      }
      var existing := GetCachedResponse(key);
      return if existing == None then None else Some(existing.value.body);
    }

    method InboundWebhook(req: Request) returns (outcome: Outcome)
      modifies `records, `locks, `events
      ensures Handled(c, now, old(Now()), req, Now(), outcome)
      ensures Served(c, now, old(Now()), req, Now(), outcome)
    {
      hide Served;
      outcome := Process(req);
      HandledAsServed(c, now, old(Now()), req, Now(), outcome);
    }

    method Process(req: Request) returns (outcome: Outcome)
      modifies `records, `locks, `events
      ensures Handled(c, now, old(Now()), req, Now(), outcome)
    {
      var cached := GetCachedResponse(req.key);
      if cached.Some? {
        return Answered(cached.value.body);
      }
      var acquired := TryAcquireLock(req.key);
      if !acquired {
        // nothing else ran since the first look, so there is still no record
        return InProgress;
      }
      assert locks - {req.key} == old(locks) - {req.key};
      if !req.valid {
        locks := locks - {req.key};
        return Unauthorized;
      }
      var stored := PersistWebhookEvent(req.event);
      var body := Body(if stored then IsAccepted else IsDuplicate, req.event);
      var answer := StoreResponse(req.key, body);
      locks := locks - {req.key};
      return if answer == None then StoreFailed else Answered(answer.value);
    }

    /** Sending the same request again within the record's lifetime gives the same body and changes nothing. */
    method Redeliver(req: Request, later: int) returns (first: Outcome, second: Outcome)
      requires now <= later < now + c.recordTtl
      modifies this
      ensures first.Answered? && old(GetCachedResponse(req.key)) == None ==> second == first
      ensures first.Answered? && old(GetCachedResponse(req.key)) == None ==>
        events == (if req.event in old(events) then old(events) else old(events)[req.event := old(now)])
    {
      hide Served;
      first := InboundWebhook(req);
      now := later;
      second := InboundWebhook(req);
    }
  }
}
