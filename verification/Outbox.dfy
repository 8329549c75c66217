/** Outbox rows, the providers behind them and the job handlers that move a row one attempt forward. A handler
    call is atomic: it reads its row, talks to the provider and commits. */
module Outbox {
  import opened Domain
  import opened JobQueue

  const MAX_NOTIFICATION_ATTEMPTS := 3

  datatype NotificationStatus = ToSend | Sent | Undeliverable
  datatype SyncStatus = ToSync | Synced | SyncFailed | CancelDone | CancelFailed

  datatype Notification = Notification(status: NotificationStatus, attempts: nat, createdAt: int, reconciledAt: Option<int>)

  /** `sameTenant` is the outcome of the cross-check between the event and its booking. */
  datatype CalendarEvent = CalendarEvent(
    booking: int, sameTenant: bool, status: SyncStatus, attempts: nat, cancelAttempts: nat, providerId: Option<int>,
    createdAt: int, reconciledAt: Option<int>)

  /** The tables, every request made to the SMS provider, every message it accepted, and the events that exist
      at the calendar provider with the row each was created for. */
  datatype World = World(
    notifications: map<int, Notification>,
    events: map<int, CalendarEvent>,
    requests: multiset<int>,
    deliveries: multiset<int>,
    live: map<int, int>,
    nextProviderId: int)

  const EMPTY_WORLD := World(map[], map[], multiset{}, multiset{}, map[], 0)

  /** What the provider answers, or an exception that is not a provider answer (then nothing is committed). */
  datatype Response = Accepted | Rejected(error: string) | Raised(error: string)

  datatype Result = Returned | Threw(error: string)

  function SendNotificationNow(w: World, n: int, accepted: bool, error: string): (World, Result) {
    if n !in w.notifications || w.notifications[n].status != ToSend then (w, Returned)
    else
      var row := w.notifications[n];
      var tried := row.(attempts := row.attempts + 1);
      var w' := w.(requests := w.requests + multiset{n});
      if accepted then
        (w'.(notifications := w.notifications[n := tried.(status := Sent)], deliveries := w.deliveries + multiset{n}), Returned)
      else if tried.attempts >= MAX_NOTIFICATION_ATTEMPTS then
        (w'.(notifications := w.notifications[n := tried.(status := Undeliverable)]), Returned)
      else
        (w'.(notifications := w.notifications[n := tried]), Threw(error))
  }

  function SyncEventNow(c: Settings, w: World, e: int, accepted: bool, error: string): (World, Result) {
    if e !in w.events || (w.events[e].status != ToSync && w.events[e].status != SyncFailed) || !w.events[e].sameTenant then (w, Returned)
    else
      var row := w.events[e];
      var tried := row.(attempts := row.attempts + 1);
      if accepted then
        (w.(events := w.events[e := tried.(status := Synced, providerId := Some(w.nextProviderId))],
            live := w.live[w.nextProviderId := e],
            nextProviderId := w.nextProviderId + 1), Returned)
      else if tried.attempts >= c.maxRetries then
        (w.(events := w.events[e := tried.(status := SyncFailed)]), Returned)
      else
        (w.(events := w.events[e := tried]), Threw(error))
  }

  function CancelEventNow(c: Settings, w: World, e: int, accepted: bool, error: string): (World, Result) {
    if e !in w.events || w.events[e].status == CancelDone || w.events[e].status == CancelFailed || !w.events[e].sameTenant then (w, Returned)
    else
      var row := w.events[e];
      if row.status != Synced then
        (w.(events := w.events[e := row.(status := CancelDone)]), Returned)
      else
        var tried := row.(cancelAttempts := row.cancelAttempts + 1);
        if accepted then
          (w.(events := w.events[e := tried.(status := CancelDone)],
              live := if row.providerId.Some? then w.live - {row.providerId.value} else w.live), Returned)
        else if tried.cancelAttempts >= c.maxRetries then
          (w.(events := w.events[e := tried.(status := CancelFailed)]), Returned)
        else
          (w.(events := w.events[e := tried]), Threw(error))
  }

  /** `handle_job`. The two handlers that touch none of these tables only succeed or throw. */
  function Handle(c: Settings, w: World, j: Job, r: Response): (World, Result) {
    if r.Raised? then (w, Threw(r.error))
    else
      var error := if r.Rejected? then r.error else "";
      match j.kind
      case SendNotification => SendNotificationNow(w, j.target, r.Accepted?, error)
      case SyncCalendar => SyncEventNow(c, w, j.target, r.Accepted?, error)
      case CancelCalendar => CancelEventNow(c, w, j.target, r.Accepted?, error)
      case PasswordResetEmail => (w, if r.Accepted? then Returned else Threw(error))
      case VerifyUpload => (w, if r.Accepted? then Returned else Threw(error))
      case Unregistered(name) => (w, Threw("unknown job type"))
  }

  // ---- the invariant ------------------------------------------------------

  function AtLeastOne(n: nat): nat {
    if n == 0 then 1 else n
  }

  /** Attempts count the provider requests; at most three, exactly one delivery when sent and none otherwise. */
  predicate NotificationOk(w: World, n: int) {
    if n !in w.notifications then w.requests[n] == 0 && w.deliveries[n] == 0
    else
      var row := w.notifications[n];
      && w.requests[n] == row.attempts <= MAX_NOTIFICATION_ATTEMPTS
      && w.deliveries[n] == (if row.status == Sent then 1 else 0)
      && (row.status == ToSend ==> row.attempts < MAX_NOTIFICATION_ATTEMPTS)
  }

  predicate OnProvider(row: CalendarEvent) {
    row.status == Synced || row.status == CancelFailed
  }

  predicate EventOk(c: Settings, w: World, e: int)
    requires e in w.events
  {
    var row := w.events[e];
    && (OnProvider(row) ==> row.providerId.Some? && row.providerId.value in w.live && w.live[row.providerId.value] == e)
    && (row.status == ToSync ==> row.attempts < AtLeastOne(c.maxRetries))
    && (row.status == ToSync || row.status == SyncFailed ==> row.cancelAttempts == 0)
    && (row.status == Synced ==> row.cancelAttempts < AtLeastOne(c.maxRetries))
    && row.cancelAttempts <= AtLeastOne(c.maxRetries)
  }

  predicate LiveOk(w: World, pid: int)
    requires pid in w.live
  {
    var e := w.live[pid];
    pid < w.nextProviderId && e in w.events && OnProvider(w.events[e]) && w.events[e].providerId == Some(pid)
  }

  predicate OnePerBooking(w: World) {
    forall e, f | e in w.events && f in w.events && e != f :: w.events[e].booking != w.events[f].booking
  }

  ghost predicate WorldOk(c: Settings, w: World) {
    && (forall n :: NotificationOk(w, n))
    && (forall e | e in w.events :: EventOk(c, w, e))
    && (forall pid | pid in w.live :: LiveOk(w, pid))
    && OnePerBooking(w)
  }

  /** A row never goes backwards: attempts only grow, settled rows stay settled, no row disappears. */
  ghost predicate Evolves(w: World, w': World) {
    && (forall n | n in w.notifications :: n in w'.notifications
          && w.notifications[n].attempts <= w'.notifications[n].attempts
          && (w.notifications[n].status != ToSend ==> w'.notifications[n] == w.notifications[n]))
    && (forall e | e in w.events :: e in w'.events
          && w.events[e].attempts <= w'.events[e].attempts && w.events[e].cancelAttempts <= w'.events[e].cancelAttempts
          && w'.events[e].booking == w.events[e].booking
          && (w.events[e].status == Synced ==> w'.events[e].status != ToSync && w'.events[e].status != SyncFailed)
          && (w.events[e].status == CancelDone || w.events[e].status == CancelFailed ==> w'.events[e] == w.events[e]))
  }

  // ---- handlers keep it ---------------------------------------------------

  lemma SendKeeps(c: Settings, w: World, n: int, accepted: bool, error: string)
    requires WorldOk(c, w)
    ensures var w' := SendNotificationNow(w, n, accepted, error).0; WorldOk(c, w') && Evolves(w, w')
  {
    var w' := SendNotificationNow(w, n, accepted, error).0;
    forall m
      ensures NotificationOk(w', m)
    {
      assert NotificationOk(w, m);
    }
    forall e | e in w'.events
      ensures EventOk(c, w', e)
    {
      assert EventOk(c, w, e);
    }
    forall pid | pid in w'.live
      ensures LiveOk(w', pid)
    {
      assert LiveOk(w, pid);
    }
  }

  /** A change confined to the row of event `e` and the provider events recorded for it. */
  lemma EventChange(c: Settings, w: World, w': World, e: int)
    requires WorldOk(c, w) && e in w.events && e in w'.events
    requires w'.events == w.events[e := w'.events[e]] && w'.events[e].booking == w.events[e].booking
    requires w'.notifications == w.notifications && w'.requests == w.requests && w'.deliveries == w.deliveries
    requires w'.nextProviderId >= w.nextProviderId && EventOk(c, w', e)
    requires forall pid | pid in w'.live && w'.live[pid] == e :: LiveOk(w', pid)
    requires forall pid | pid in w.live :: w.live[pid] != e ==> pid in w'.live && w'.live[pid] == w.live[pid]
    requires forall pid | pid in w'.live :: w'.live[pid] != e ==> pid in w.live && w'.live[pid] == w.live[pid]
    ensures WorldOk(c, w')
  {
    forall m
      ensures NotificationOk(w', m)
    {
      assert NotificationOk(w, m);
    }
    forall f | f in w'.events
      ensures EventOk(c, w', f)
    {
      if f != e {
        assert EventOk(c, w, f) && w'.events[f] == w.events[f];
        if OnProvider(w.events[f]) {
          var pid := w.events[f].providerId.value;
          assert pid in w.live && w.live[pid] == f;
          assert pid in w'.live && w'.live[pid] == w.live[pid];
        }
      }
    }
    forall pid | pid in w'.live
      ensures LiveOk(w', pid)
    {
      assert w'.live[pid] != e ==> LiveOk(w, pid);
    }
  }

  lemma SyncEvolves(c: Settings, w: World, e: int, accepted: bool, error: string)
    ensures Evolves(w, SyncEventNow(c, w, e, accepted, error).0)
  {
  }

  lemma SyncKeeps(c: Settings, w: World, e: int, accepted: bool, error: string)
    requires WorldOk(c, w)
    ensures var w' := SyncEventNow(c, w, e, accepted, error).0; WorldOk(c, w') && Evolves(w, w')
  {
    SyncEvolves(c, w, e, accepted, error);
    var w' := SyncEventNow(c, w, e, accepted, error).0;
    hide Evolves;
    if w' != w {
      assert EventOk(c, w, e);
      assert forall pid | pid in w.live :: LiveOk(w, pid);
      EventChange(c, w, w', e);
    }
  }

  lemma CancelEvolves(c: Settings, w: World, e: int, accepted: bool, error: string)
    ensures Evolves(w, CancelEventNow(c, w, e, accepted, error).0)
  {
  }

  lemma CancelKeeps(c: Settings, w: World, e: int, accepted: bool, error: string)
    requires WorldOk(c, w)
    ensures var w' := CancelEventNow(c, w, e, accepted, error).0; WorldOk(c, w') && Evolves(w, w')
  {
    CancelEvolves(c, w, e, accepted, error);
    var w' := CancelEventNow(c, w, e, accepted, error).0;
    hide Evolves;
    if w' != w {
      assert EventOk(c, w, e);
      assert forall pid | pid in w.live :: LiveOk(w, pid);
      EventChange(c, w, w', e);
    }
  }

  lemma HandleKeeps(c: Settings, w: World, j: Job, r: Response)
    requires WorldOk(c, w)
    ensures WorldOk(c, Handle(c, w, j, r).0) && Evolves(w, Handle(c, w, j, r).0)
  {
    hide WorldOk, SendNotificationNow, SyncEventNow, CancelEventNow;
    if !r.Raised? {
      var error := if r.Rejected? then r.error else "";
      match j.kind
      case SendNotification => SendKeeps(c, w, j.target, r.Accepted?, error);
      case SyncCalendar => SyncKeeps(c, w, j.target, r.Accepted?, error);
      case CancelCalendar => CancelKeeps(c, w, j.target, r.Accepted?, error);
      case _ =>
    }
  }

  // ---- what a handler leaves behind ---------------------------------------

  /** Nothing but the row of event `e`, and what exists at the provider for it, has changed. */
  ghost predicate OnlyEvent(w: World, w': World, e: int) {
    && w'.notifications == w.notifications && w'.requests == w.requests && w'.deliveries == w.deliveries
    && w'.events.Keys == w.events.Keys && (forall f | f in w.events && f != e :: w'.events[f] == w.events[f])
    && (forall pid | pid in w.live && w.live[pid] != e :: pid in w'.live && w'.live[pid] == w.live[pid])
    && (forall pid | pid in w'.live && w'.live[pid] != e :: pid in w.live)
  }

  predicate NoneLive(w: World, e: int) {
    forall pid | pid in w.live :: w.live[pid] != e
  }

  /** A pending notification is requested once more. Accepted, it is delivered and settled as sent; rejected, it is
      settled as failed with the third request, and thrown back before. Any other is left alone. */
  ghost predicate SendSpec(w: World, n: int, accepted: bool, error: string, w': World, result: Result) {
    if !(n in w.notifications && w.notifications[n].status == ToSend) then w' == w && result == Returned
    else
      && w' == w.(notifications := w'.notifications, requests := w.requests + multiset{n}, deliveries := w'.deliveries)
      && w'.notifications.Keys == w.notifications.Keys
      && (forall m | m in w.notifications && m != n :: w'.notifications[m] == w.notifications[m])
      && w'.deliveries == (if accepted then w.deliveries + multiset{n} else w.deliveries)
      && var row, row' := w.notifications[n], w'.notifications[n];
        && row'.attempts == row.attempts + 1 && row'.createdAt == row.createdAt && row'.reconciledAt == row.reconciledAt
        && (row'.status == Sent <==> accepted)
        && (row'.status == Undeliverable <==> !accepted && row'.attempts >= 3)
        && result == if row'.status == ToSend then Threw(error) else Returned
  }

  /** An event that is pending or failed is tried once more. Accepted, it is synced and exists once at the provider;
      rejected, it is settled as failed when the attempts are used up, and thrown back before. */
  ghost predicate SyncSpec(c: Settings, w: World, e: int, accepted: bool, error: string, w': World, result: Result) {
    if !(e in w.events && w.events[e].sameTenant && w.events[e].status in {ToSync, SyncFailed}) then w' == w && result == Returned
    else
      && OnlyEvent(w, w', e)
      && var row, row' := w.events[e], w'.events[e];
        if accepted then
          && result == Returned && row'.providerId.Some? && row' == row.(status := Synced, attempts := row.attempts + 1, providerId := row'.providerId)
          && NoneLive(w, e) && row'.providerId.value !in w.live && w'.live == w.live[row'.providerId.value := e]
        else
          var usedUp := row.attempts + 1 >= c.maxRetries;
          && w'.live == w.live && row' == row.(attempts := row.attempts + 1, status := if usedUp then SyncFailed else row.status)
          && result == if usedUp then Returned else Threw(error)
  }

  /** An event that was never synced is cancelled at once; a synced one when the provider accepts, and then nothing is
      left of it there. A rejection is counted; it settles the event as not cancelled when the attempts are used up. */
  ghost predicate CancelSpec(c: Settings, w: World, e: int, accepted: bool, error: string, w': World, result: Result) {
    if !(e in w.events && w.events[e].sameTenant && w.events[e].status in {ToSync, SyncFailed, Synced}) then w' == w && result == Returned
    else
      && OnlyEvent(w, w', e)
      && var row, row' := w.events[e], w'.events[e];
        if row.status != Synced then row' == row.(status := CancelDone) && result == Returned && NoneLive(w', e)
        else if accepted then
          row' == row.(status := CancelDone, cancelAttempts := row.cancelAttempts + 1) && result == Returned && NoneLive(w', e)
        else
          var usedUp := row.cancelAttempts + 1 >= c.maxRetries;
          && w'.live == w.live && row' == row.(cancelAttempts := row.cancelAttempts + 1, status := if usedUp then CancelFailed else Synced)
          && result == if usedUp then Returned else Threw(error)
  }

  lemma SendOutcome(w: World, n: int, accepted: bool, error: string)
    ensures var (w', result) := SendNotificationNow(w, n, accepted, error); SendSpec(w, n, accepted, error, w', result)
  {
  }

  lemma SyncOutcome(c: Settings, w: World, e: int, accepted: bool, error: string)
    requires WorldOk(c, w)
    ensures var (w', result) := SyncEventNow(c, w, e, accepted, error); SyncSpec(c, w, e, accepted, error, w', result)
  {
    assert forall pid | pid in w.live :: LiveOk(w, pid);
    hide WorldOk;
  }

  lemma CancelOutcome(c: Settings, w: World, e: int, accepted: bool, error: string)
    requires WorldOk(c, w)
    ensures var (w', result) := CancelEventNow(c, w, e, accepted, error); CancelSpec(c, w, e, accepted, error, w', result)
  {
    assert forall pid | pid in w.live :: LiveOk(w, pid);
    assert e in w.events ==> EventOk(c, w, e);
    hide WorldOk;
  }

  // ---- how often a job can be thrown back ---------------------------------

  /** Attempts recorded on the row a job works on. */
  function RowAttempts(w: World, kind: Kind, row: int): nat {
    match kind
    case SendNotification => if row in w.notifications then w.notifications[row].attempts else 0
    case SyncCalendar => if row in w.events then w.events[row].attempts else 0
    case CancelCalendar => if row in w.events then w.events[row].cancelAttempts else 0
    case _ => 0
  }

  predicate HasRow(kind: Kind) {
    kind == SendNotification || kind == SyncCalendar || kind == CancelCalendar
  }

  /** Attempts after which a row is settled instead of thrown back. */
  function RowLimit(c: Settings, kind: Kind): nat {
    if kind == SendNotification then MAX_NOTIFICATION_ATTEMPTS else c.maxRetries
  }

  /** A throw caused by the provider is paid for by an attempt on the row, and only below the row's limit. */
  lemma ThrowIsPaidFor(c: Settings, w: World, j: Job, r: Response)
    requires HasRow(j.kind) && !r.Raised? && Handle(c, w, j, r).1.Threw?
    ensures var w' := Handle(c, w, j, r).0; RowAttempts(w', j.kind, j.target) == RowAttempts(w, j.kind, j.target) + 1 < RowLimit(c, j.kind)
  {
  }

  lemma EvolvesTrans(a: World, b: World, c: World)
    requires Evolves(a, b) && Evolves(b, c)
    ensures Evolves(a, c)
  {
    forall n | n in a.notifications
      ensures n in c.notifications && a.notifications[n].attempts <= c.notifications[n].attempts
        && (a.notifications[n].status != ToSend ==> c.notifications[n] == a.notifications[n])
    {
      assert n in b.notifications;
    }
    forall e | e in a.events
      ensures e in c.events
        && a.events[e].attempts <= c.events[e].attempts && a.events[e].cancelAttempts <= c.events[e].cancelAttempts
        && c.events[e].booking == a.events[e].booking
        && (a.events[e].status == Synced ==> c.events[e].status != ToSync && c.events[e].status != SyncFailed)
        && (a.events[e].status == CancelDone || a.events[e].status == CancelFailed ==> c.events[e] == a.events[e])
    {
      assert e in b.events;
    }
  }

  lemma LiveExactly(c: Settings, w: World, e: int)
    requires WorldOk(c, w)
    ensures (exists pid :: pid in w.live && w.live[pid] == e) <==> e in w.events && OnProvider(w.events[e])
  {
    if e in w.events && OnProvider(w.events[e]) {
      assert EventOk(c, w, e);
      var pid := w.events[e].providerId.value;
      assert pid in w.live && w.live[pid] == e;
    }
    if pid :| pid in w.live && w.live[pid] == e {
      assert LiveOk(w, pid);
    }
  }

  /** No booking has two events at the calendar provider. */
  lemma OneLiveEventPerBooking(c: Settings, w: World, p: int, q: int)
    requires WorldOk(c, w) && p in w.live && q in w.live && w.live[p] in w.events && w.live[q] in w.events
    requires w.events[w.live[p]].booking == w.events[w.live[q]].booking
    ensures p == q
  {
    assert LiveOk(w, p) && LiveOk(w, q);
  }
}
