/** Idempotent webhook intake: stored responses, the expiring processing lock and the event table, under any
    interleaving of requests, clean-ups and clock ticks. A step is one Redis command, one query or one commit. */
module Webhooks {
  import opened Domain

  datatype Event = Event(provider: string, id: string)

  datatype Verdict = IsAccepted | IsDuplicate

  /** The stored response body. */
  datatype Body = Body(verdict: Verdict, event: Event)

  datatype Record = Record(body: Body, expiresAt: int)

  datatype RawSettings = RawSettings(recordTtl: int, lockTtl: int, retention: int)
  type Settings = c: RawSettings | c.recordTtl > 0 && c.lockTtl > 0 && c.retention > 0 witness RawSettings(86400, 60, 90)

  /** A request; `valid` is the outcome of signature, schema and rate-limit checks. */
  datatype Request = Request(key: string, event: Event, valid: bool)

  datatype Proc =
    | Checking(req: Request)
    | Locking(req: Request)
    | Rechecking(req: Request)
    | Verifying(req: Request)
    | Persisting(req: Request)
    | Storing(req: Request, body: Body, arrival: nat)
    | Reading(req: Request)
    | Releasing(req: Request)
    | Finished

  /** A body handed to a caller: when, and until when the record it came from is valid. */
  datatype Reply = Reply(key: string, body: Body, at: int, until: int)

  /** An insert into the event table. */
  datatype Arrival = Arrival(event: Event, at: int)

  /** The first response of a key says that arrival number `arrival` was accepted. */
  datatype Acceptance = Acceptance(arrival: nat, key: string)

  /** `replies`, `arrivals` and `acceptances` record history. */
  datatype State = State(
    now: int,
    records: map<string, Record>,
    locks: map<string, int>,
    events: map<Event, int>,
    procs: map<int, Proc>,
    replies: set<Reply>,
    arrivals: seq<Arrival>,
    acceptances: seq<Acceptance>)

  function Initial(now: int): State {
    State(now, map[], map[], map[], map[], {}, [], [])
  }

  datatype Action =
    | Receive(proc: int, req: Request)
    | Next(proc: int)
    | CleanRecords
    | CleanEvents
    | Tick(now: int)

  function Cached(s: State, key: string): Option<Record> {
    if key in s.records && s.records[key].expiresAt > s.now then Some(s.records[key]) else None
  }

  function Answer(s: State, p: int, key: string, r: Record, next: Proc): State {
    s.(replies := s.replies + {Reply(key, r.body, s.now, r.expiresAt)}, procs := s.procs[p := next])
  }

  function Move(s: State, p: int, next: Proc): State {
    s.(procs := s.procs[p := next])
  }

  function Advance(c: Settings, s: State, p: int): (s': State)
    requires p in s.procs
    ensures p in s'.procs && s'.now == s.now
  {
    match s.procs[p]
    case Checking(req) =>
      if Cached(s, req.key).Some? then Answer(s, p, req.key, Cached(s, req.key).value, Finished) else Move(s, p, Locking(req))
    case Locking(req) =>
      if req.key in s.locks && s.locks[req.key] > s.now then Move(s, p, Rechecking(req))
      else Move(s, p, Verifying(req)).(locks := s.locks[req.key := s.now + c.lockTtl])
    case Rechecking(req) =>
      // without a record the request is refused as already in progress, without a body
      if Cached(s, req.key).Some? then Answer(s, p, req.key, Cached(s, req.key).value, Finished) else Move(s, p, Finished)
    case Verifying(req) =>
      Move(s, p, if req.valid then Persisting(req) else Releasing(req))
    case Persisting(req) =>
      if req.event in s.events then Move(s, p, Storing(req, Body(IsDuplicate, req.event), 0))
      else Move(s, p, Storing(req, Body(IsAccepted, req.event), |s.arrivals|)).(
        events := s.events[req.event := s.now], arrivals := s.arrivals + [Arrival(req.event, s.now)])
    case Storing(req, body, arrival) =>
      // the unique constraint holds for expired records as well, until they are cleaned up
      if req.key in s.records then Move(s, p, Reading(req))
      else
        var r := Record(body, s.now + c.recordTtl);
        Answer(s, p, req.key, r, Releasing(req)).(
          records := s.records[req.key := r],
          acceptances := if body.verdict == IsAccepted then s.acceptances + [Acceptance(arrival, req.key)] else s.acceptances)
    case Reading(req) =>
      if Cached(s, req.key).Some? then Answer(s, p, req.key, Cached(s, req.key).value, Releasing(req)) else Move(s, p, Releasing(req))
    case Releasing(req) =>
      Move(s, p, Finished).(locks := s.locks - {req.key})
    case Finished => s
  }

  function Step(c: Settings, s: State, a: Action): State {
    match a
    case Receive(p, req) => Move(s, p, Checking(req))
    case Next(p) => if p in s.procs then Advance(c, s, p) else s
    case CleanRecords => s.(records := map k | k in s.records && s.records[k].expiresAt >= s.now :: s.records[k])
    case CleanEvents => s.(events := map e | e in s.events && s.events[e] >= s.now - c.retention :: s.events[e])
    case Tick(now) => if now >= s.now then s.(now := now) else s
  }

  function Run(c: Settings, start: int, trace: seq<Action>): State {
    if trace == [] then Initial(start) else Step(c, Run(c, start, trace[..|trace| - 1]), trace[|trace| - 1])
  }

  // ---- the invariant ------------------------------------------------------

  /** As long as the record a body came from has not expired, it is still the stored one. */
  predicate ReplyOk(s: State, r: Reply) {
    r.at <= s.now && r.at < r.until && (s.now < r.until ==> r.key in s.records && s.records[r.key] == Record(r.body, r.until))
  }

  predicate SameWhileValid(r: Reply, q: Reply) {
    r.key == q.key && r.at <= q.at < r.until ==> r.body == q.body
  }

  /** Within retention an event that arrived is still in the table, with the time of its last arrival. */
  predicate ArrivalOk(c: Settings, s: State, a: Arrival) {
    && a.at <= s.now && (s.now <= a.at + c.retention ==> a.event in s.events)
    && (a.event in s.events ==> a.at <= s.events[a.event])
  }

  /** A later arrival of the same event comes after the retention period of the earlier one. */
  predicate Apart(c: Settings, a: Arrival, b: Arrival) {
    a.event == b.event ==> b.at > a.at + c.retention
  }

  ghost predicate Inv(c: Settings, s: State) {
    && (forall r | r in s.replies :: ReplyOk(s, r))
    && (forall r, q | r in s.replies && q in s.replies :: SameWhileValid(r, q))
    && (forall a | a in s.arrivals :: ArrivalOk(c, s, a))
    && (forall i, j | 0 <= i < j < |s.arrivals| :: Apart(c, s.arrivals[i], s.arrivals[j]))
    && (forall e | e in s.events :: s.events[e] <= s.now)
  }

  // ---- every step keeps it ------------------------------------------------

  /** Nothing the invariant speaks of changes. */
  lemma UntouchedKeepsInv(c: Settings, s: State, s': State)
    requires Inv(c, s) && s' == s.(procs := s'.procs, locks := s'.locks, acceptances := s'.acceptances)
    ensures Inv(c, s')
  {
    assert forall r | r in s.replies :: ReplyOk(s, r) ==> ReplyOk(s', r);
    assert forall a | a in s.arrivals :: ArrivalOk(c, s, a) ==> ArrivalOk(c, s', a);
  }

  lemma AnswerKeepsInv(c: Settings, s: State, p: int, key: string, r: Record, next: Proc)
    requires Inv(c, s) && key in s.records && s.records[key] == r && r.expiresAt > s.now
    ensures Inv(c, Answer(s, p, key, r, next))
  {
    var s' := Answer(s, p, key, r, next);
    var mine := Reply(key, r.body, s.now, r.expiresAt);
    forall x | x in s'.replies
      ensures ReplyOk(s', x)
    {
      assert x in s.replies ==> ReplyOk(s, x);
    }
    forall x, y | x in s'.replies && y in s'.replies
      ensures SameWhileValid(x, y)
    {
      assert x in s.replies ==> ReplyOk(s, x);
      assert y in s.replies ==> ReplyOk(s, y);
      assert x in s.replies && y in s.replies ==> SameWhileValid(x, y);
    }
    assert forall a | a in s.arrivals :: ArrivalOk(c, s, a) ==> ArrivalOk(c, s', a);
  }

  /** Inserting a record for a key that has none. */
  lemma StoreKeepsInv(c: Settings, s: State, key: string, r: Record)
    requires Inv(c, s) && key !in s.records
    ensures Inv(c, s.(records := s.records[key := r]))
  {
    var s' := s.(records := s.records[key := r]);
    forall x | x in s'.replies
      ensures ReplyOk(s', x)
    {
      assert ReplyOk(s, x);
    }
    assert forall a | a in s.arrivals :: ArrivalOk(c, s, a) ==> ArrivalOk(c, s', a);
  }

  lemma PersistKeepsInv(c: Settings, s: State, e: Event)
    requires Inv(c, s) && e !in s.events
    ensures Inv(c, s.(events := s.events[e := s.now], arrivals := s.arrivals + [Arrival(e, s.now)]))
  {
    var s' := s.(events := s.events[e := s.now], arrivals := s.arrivals + [Arrival(e, s.now)]);
    assert forall r | r in s.replies :: ReplyOk(s, r) ==> ReplyOk(s', r);
    forall a | a in s'.arrivals
      ensures ArrivalOk(c, s', a)
    {
      assert a in s.arrivals ==> ArrivalOk(c, s, a);
    }
    forall i, j | 0 <= i < j < |s'.arrivals|
      ensures Apart(c, s'.arrivals[i], s'.arrivals[j])
    {
      assert ArrivalOk(c, s, s.arrivals[i]);
      assert j < |s.arrivals| ==> Apart(c, s.arrivals[i], s.arrivals[j]);
    }
  }

  lemma CleanKeepsInv(c: Settings, s: State, a: Action)
    requires Inv(c, s) && (a.CleanRecords? || a.CleanEvents? || a.Tick?)
    ensures Inv(c, Step(c, s, a))
  {
    var s' := Step(c, s, a);
    forall r | r in s'.replies
      ensures ReplyOk(s', r)
    {
      assert ReplyOk(s, r);
    }
    forall x | x in s'.arrivals
      ensures ArrivalOk(c, s', x)
    {
      assert ArrivalOk(c, s, x);
    }
  }

  lemma AdvanceKeepsInv(c: Settings, s: State, p: int)
    requires Inv(c, s) && p in s.procs
    ensures Inv(c, Advance(c, s, p))
  {
    hide Inv;
    var s' := Advance(c, s, p);
    match s.procs[p]
    case Checking(req) =>
      if Cached(s, req.key).Some? { AnswerKeepsInv(c, s, p, req.key, Cached(s, req.key).value, Finished); } else { UntouchedKeepsInv(c, s, s'); }
    case Rechecking(req) =>
      if Cached(s, req.key).Some? { AnswerKeepsInv(c, s, p, req.key, Cached(s, req.key).value, Finished); } else { UntouchedKeepsInv(c, s, s'); }
    case Reading(req) =>
      if Cached(s, req.key).Some? { AnswerKeepsInv(c, s, p, req.key, Cached(s, req.key).value, Releasing(req)); } else { UntouchedKeepsInv(c, s, s'); }
    case Persisting(req) =>
      if req.event in s.events {
        UntouchedKeepsInv(c, s, s');
      } else {
        PersistKeepsInv(c, s, req.event);
        UntouchedKeepsInv(c, s.(events := s'.events, arrivals := s'.arrivals), s');
      }
    case Storing(req, body, arrival) =>
      if req.key in s.records {
        UntouchedKeepsInv(c, s, s');
      } else {
        var r := Record(body, s.now + c.recordTtl);
        StoreKeepsInv(c, s, req.key, r);
        var stored := s.(records := s.records[req.key := r]);
        AnswerKeepsInv(c, stored, p, req.key, r, Releasing(req));
        UntouchedKeepsInv(c, Answer(stored, p, req.key, r, Releasing(req)), s');
      }
    case _ => UntouchedKeepsInv(c, s, s');
  }

  lemma StepKeepsInv(c: Settings, s: State, a: Action)
    requires Inv(c, s)
    ensures Inv(c, Step(c, s, a))
  {
    hide Inv, Advance;
    match a
    case Receive(p, req) => UntouchedKeepsInv(c, s, Step(c, s, a));
    case Next(p) =>
      if p in s.procs { AdvanceKeepsInv(c, s, p); }
    case _ => CleanKeepsInv(c, s, a);
  }

  lemma {:induction false} RunKeepsInv(c: Settings, start: int, trace: seq<Action>)
    ensures Inv(c, Run(c, start, trace))
  {
    hide Step;
    if trace != [] {
      hide Inv;
      var n := |trace| - 1;
      RunKeepsInv(c, start, trace[..n]);
      StepKeepsInv(c, Run(c, start, trace[..n]), trace[n]);
    }
  }

  /** In every run, two requests with the same key that get a body while the record of the first is valid get the
      same body, even when the processing lock expired and both were processed. */
  lemma SameKeySameBody(c: Settings, start: int, trace: seq<Action>, r: Reply, q: Reply)
    requires r in Run(c, start, trace).replies && q in Run(c, start, trace).replies
    requires r.key == q.key && r.at <= q.at < r.until
    ensures r.body == q.body
  {
    hide Run;
    RunKeepsInv(c, start, trace);
    assert SameWhileValid(r, q);
  }

  /** In every run, the same event is stored again only after the retention period. */
  lemma EventsStoredOncePerRetention(c: Settings, start: int, trace: seq<Action>, i: nat, j: nat)
    requires i < j < |Run(c, start, trace).arrivals|
    ensures var a := Run(c, start, trace).arrivals; a[i].event == a[j].event ==> a[j].at > a[i].at + c.retention
  {
    hide Run;
    RunKeepsInv(c, start, trace);
    assert Apart(c, Run(c, start, trace).arrivals[i], Run(c, start, trace).arrivals[j]);
  }

  // ---- an event is accepted under one key ---------------------------------

  /** The arrival a request is about to report as accepted. */
  function Pending(p: Proc): Option<nat> {
    if p.Storing? && p.body.verdict == IsAccepted then Some(p.arrival) else None
  }

  predicate PendingOk(s: State, p: Proc) {
    Pending(p).Some? ==>
      Pending(p).value < |s.arrivals| && s.arrivals[Pending(p).value].event == p.body.event
      && forall i | 0 <= i < |s.acceptances| :: s.acceptances[i].arrival != Pending(p).value
  }

  ghost predicate OneReport(s: State) {
    && (forall p | p in s.procs :: PendingOk(s, s.procs[p]))
    && (forall p, q | p in s.procs && q in s.procs && p != q :: Pending(s.procs[p]).Some? ==> Pending(s.procs[p]) != Pending(s.procs[q]))
    && (forall i | 0 <= i < |s.acceptances| :: s.acceptances[i].arrival < |s.arrivals|)
    && (forall i, j | 0 <= i < j < |s.acceptances| :: s.acceptances[i].arrival != s.acceptances[j].arrival)
  }

  /** A process that has nothing to report. */
  lemma QuietKeepsOneReport(s: State, s': State, p: int)
    requires OneReport(s) && s'.arrivals == s.arrivals && s'.acceptances == s.acceptances
    requires p in s'.procs && s'.procs == s.procs[p := s'.procs[p]] && Pending(s'.procs[p]) == None
    ensures OneReport(s')
  {
    forall q | q in s'.procs
      ensures PendingOk(s', s'.procs[q])
    {
      assert q != p ==> PendingOk(s, s.procs[q]);
    }
  }

  lemma PersistKeepsOneReport(c: Settings, s: State, p: int)
    requires OneReport(s) && p in s.procs && s.procs[p].Persisting? && s.procs[p].req.event !in s.events
    ensures OneReport(Advance(c, s, p))
  {
    var s' := Advance(c, s, p);
    forall q | q in s'.procs
      ensures PendingOk(s', s'.procs[q])
    {
      assert q != p ==> PendingOk(s, s.procs[q]);
    }
    forall q, r | q in s'.procs && r in s'.procs && q != r
      ensures Pending(s'.procs[q]).Some? ==> Pending(s'.procs[q]) != Pending(s'.procs[r])
    {
      assert q != p ==> PendingOk(s, s.procs[q]);
      assert r != p ==> PendingOk(s, s.procs[r]);
    }
  }

  lemma StoreKeepsOneReport(c: Settings, s: State, p: int)
    requires OneReport(s) && p in s.procs && s.procs[p].Storing? && s.procs[p].req.key !in s.records
    ensures OneReport(Advance(c, s, p))
  {
    var s' := Advance(c, s, p);
    assert PendingOk(s, s.procs[p]);
    forall q | q in s'.procs
      ensures PendingOk(s', s'.procs[q])
    {
      if q != p {
        assert PendingOk(s, s.procs[q]);
        assert Pending(s.procs[q]).Some? ==> Pending(s.procs[q]) != Pending(s.procs[p]);
      }
    }
  }

  /** A step that reports nothing. */
  predicate Quiet(s: State, s': State, p: int) {
    && s'.arrivals == s.arrivals && s'.acceptances == s.acceptances
    && p in s'.procs && s'.procs == s.procs[p := s'.procs[p]] && Pending(s'.procs[p]) == None
  }

  lemma LookupIsQuiet(c: Settings, s: State, p: int)
    requires p in s.procs && (s.procs[p].Checking? || s.procs[p].Rechecking? || s.procs[p].Reading?)
    ensures Quiet(s, Advance(c, s, p), p)
  {
    hide Cached;
  }

  lemma LockIsQuiet(c: Settings, s: State, p: int)
    requires p in s.procs && (s.procs[p].Locking? || s.procs[p].Verifying? || s.procs[p].Releasing?)
    ensures Quiet(s, Advance(c, s, p), p)
  {
  }

  lemma RefusedInsertIsQuiet(c: Settings, s: State, p: int)
    requires p in s.procs
    requires (s.procs[p].Persisting? && s.procs[p].req.event in s.events) || (s.procs[p].Storing? && s.procs[p].req.key in s.records)
    ensures Quiet(s, Advance(c, s, p), p)
  {
  }

  lemma OtherKeepsOneReport(c: Settings, s: State, p: int)
    requires OneReport(s) && p in s.procs
    requires !(s.procs[p].Persisting? && s.procs[p].req.event !in s.events) && !(s.procs[p].Storing? && s.procs[p].req.key !in s.records)
    ensures OneReport(Advance(c, s, p))
  {
    hide OneReport;
    var x := s.procs[p];
    if !x.Finished? {
      hide Advance;
      if x.Persisting? || x.Storing? {
        RefusedInsertIsQuiet(c, s, p);
      } else if x.Locking? || x.Verifying? || x.Releasing? {
        LockIsQuiet(c, s, p);
      } else {
        LookupIsQuiet(c, s, p);
      }
      QuietKeepsOneReport(s, Advance(c, s, p), p);
    }
  }

  lemma StepKeepsOneReport(c: Settings, s: State, a: Action)
    requires OneReport(s)
    ensures OneReport(Step(c, s, a))
  {
    hide OneReport, Advance;
    match a
    case Receive(p, req) => QuietKeepsOneReport(s, Step(c, s, a), p);
    case Next(p) =>
      if p in s.procs {
        var x := s.procs[p];
        if x.Persisting? && x.req.event !in s.events {
          PersistKeepsOneReport(c, s, p);
        } else if x.Storing? && x.req.key !in s.records {
          StoreKeepsOneReport(c, s, p);
        } else {
          OtherKeepsOneReport(c, s, p);
        }
      }
    case _ => SameKeepsOneReport(s, Step(c, s, a));
  }

  lemma SameKeepsOneReport(s: State, s': State)
    requires OneReport(s) && s'.procs == s.procs && s'.arrivals == s.arrivals && s'.acceptances == s.acceptances
    ensures OneReport(s')
  {
    assert forall p | p in s.procs :: PendingOk(s, s.procs[p]) ==> PendingOk(s', s.procs[p]);
  }

  lemma {:induction false} RunKeepsOneReport(c: Settings, start: int, trace: seq<Action>)
    ensures OneReport(Run(c, start, trace))
  {
    hide Step;
    if trace != [] {
      hide OneReport;
      var n := |trace| - 1;
      RunKeepsOneReport(c, start, trace[..n]);
      StepKeepsOneReport(c, Run(c, start, trace[..n]), trace[n]);
    }
  }

  /** In every run, two keys that were both first answered `accepted` for the same event belong to arrivals more
      than the retention period apart. */
  lemma AcceptedUnderOneKey(c: Settings, start: int, trace: seq<Action>, i: nat, j: nat)
    requires i < j < |Run(c, start, trace).acceptances|
    ensures var s := Run(c, start, trace); var k, l := s.acceptances[i].arrival, s.acceptances[j].arrival;
      && k < |s.arrivals| && l < |s.arrivals| && k != l
      && (s.arrivals[k].event == s.arrivals[l].event ==>
            (s.arrivals[k].at > s.arrivals[l].at + c.retention || s.arrivals[l].at > s.arrivals[k].at + c.retention))
  {
    hide Run;
    RunKeepsOneReport(c, start, trace);
    var s := Run(c, start, trace);
    var k, l := s.acceptances[i].arrival, s.acceptances[j].arrival;
    EventsStoredOncePerRetention(c, start, trace, if k < l then k else l, if k < l then l else k);
  }
}
