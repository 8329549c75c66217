/** The job handlers, the reconciliation sweeps and the reminder sweep as they update rows one by one. */
module OutboxService {
  import opened Domain
  import opened JobQueue
  import opened Outbox

  predicate StaleSince(created: int, reconciled: Option<int>, now: int, window: nat) {
    (if reconciled.Some? then reconciled.value else created) < now - window
  }

  predicate StaleNotification(row: Notification, now: int, window: nat) {
    row.status == ToSend && StaleSince(row.createdAt, row.reconciledAt, now, window)
  }

  predicate StaleEvent(row: CalendarEvent, now: int, window: nat) {
    (row.status == ToSync || row.status == SyncFailed) && StaleSince(row.createdAt, row.reconciledAt, now, window)
  }

  /** What the reminder sweep reads of a booking. */
  datatype Appointment = Appointment(confirmed: bool, startsAt: int, createdAt: int)

  predicate WantsReminder(bookings: map<int, Appointment>, id: int, now: int, lead: int, minAdvance: int) {
    && id in bookings
    && var b := bookings[id]; b.confirmed && now < b.startsAt <= now + lead && b.startsAt - b.createdAt >= minAdvance
  }

  predicate HasReminder(reminders: map<int, int>, booking: int) {
    exists n | n in reminders :: reminders[n] == booking
  }

  /** No booking has two reminder rows. */
  predicate OneReminderEach(reminders: map<int, int>) {
    forall m, n | m in reminders && n in reminders && m != n :: reminders[m] != reminders[n]
  }

  /** The rows from `first` on are new: reminders for the bookings `added`, in order; the older ones are as before. */
  ghost predicate Extends(before: map<int, int>, after: map<int, int>, first: int, added: seq<int>) {
    && (forall n :: n in after <==> n in before || first <= n < first + |added|)
    && (forall n | n in before :: n < first && after[n] == before[n])
    && (forall n | first <= n < first + |added| :: after[n] == added[n - first])
  }

  lemma NoReminderIff(reminders: map<int, int>)
    ensures forall b :: !HasReminder(reminders, b) <==> forall n | n in reminders :: reminders[n] != b
  {
  }

  lemma ExtendsMore(before: map<int, int>, after: map<int, int>, first: int, added: seq<int>, b: int)
    requires Extends(before, after, first, added)
    ensures Extends(before, after[first + |added| := b], first, added + [b])
    ensures HasReminder(after, b) <==> HasReminder(before, b) || b in added
  {
    if b in added {
      var i :| 0 <= i < |added| && added[i] == b;
      assert after[first + i] == b;
    }
    if n :| n in before && before[n] == b {
      assert after[n] == b;
    }
  }

  lemma ExtendsKeepsOneEach(before: map<int, int>, after: map<int, int>, first: int, added: seq<int>)
    requires Extends(before, after, first, added) && Distinct(added) && OneReminderEach(before)
    requires forall b | b in added :: !HasReminder(before, b)
    ensures OneReminderEach(after)
  {
    forall m, n | m in after && n in after && m != n
      ensures after[m] != after[n]
    {
      if m in before && n !in before {
        assert after[n] in added;
        assert before[m] == after[m];
      } else if n in before && m !in before {
        assert after[m] in added;
        assert before[n] == after[n];
      }
    }
  }

  /** A request to enqueue a fresh job. */
  datatype Fresh = Fresh(kind: Kind, target: int)

  predicate Distinct<T(==)>(rows: seq<T>) {
    forall i, j | 0 <= i < j < |rows| :: rows[i] != rows[j]
  }

  /** Some order of a set of rows, as a query without ORDER BY returns them. */
  method Listed<T(==,!new)>(rows: set<T>) returns (list: seq<T>)
    ensures Distinct(list) && forall x :: x in list <==> x in rows
  {
    list := [];
    var left := rows;
    while left != {}
      invariant Distinct(list) && left <= rows && forall x :: x in rows <==> x in list || x in left
      invariant forall x | x in left :: x !in list
      decreases |left|
    {
      var x :| x in left;
      list := list + [x];
      left := left - {x};
    }
  }

  class Tables {
    const c: Settings
    var world: World
    var queued: seq<Fresh>
    /** Which notification rows are reminders, and for which booking. */
    var reminders: map<int, int>
    var nextRow: int

    constructor (c: Settings)
      ensures this.c == c && world == EMPTY_WORLD && queued == [] && reminders == map[] && nextRow == 0
    {
      this.c, world, queued, reminders, nextRow := c, EMPTY_WORLD, [], map[], 0;
    }

    /** At most three requests and one delivery per row, whatever the provider answers. */
    method SendNotificationInWorker(n: int, accepted: bool, error: string) returns (result: Result)
      modifies `world
      ensures SendSpec(old(world), n, accepted, error, world, result)
      ensures (world, result) == SendNotificationNow(old(world), n, accepted, error)
      ensures WorldOk(c, old(world)) ==> WorldOk(c, world) && Evolves(old(world), world)
    {
      hide WorldOk, Evolves, SendSpec;
      SendOutcome(world, n, accepted, error);
      if WorldOk(c, world) {
        SendKeeps(c, world, n, accepted, error);
      }
      if n !in world.notifications || world.notifications[n].status != ToSend {
        return Returned;
      }
      world := world.(requests := world.requests + multiset{n});
      var row := world.notifications[n];
      row := row.(attempts := row.attempts + 1);
      if accepted {
        row := row.(status := Sent);
        world := world.(notifications := world.notifications[n := row], deliveries := world.deliveries + multiset{n});
        return Returned;
      }
      if row.attempts >= MAX_NOTIFICATION_ATTEMPTS {
        row := row.(status := Undeliverable);
        world := world.(notifications := world.notifications[n := row]);
        return Returned;
      }
      world := world.(notifications := world.notifications[n := row]);
      return Threw(error);
    }

    method SyncCalendarEventInWorker(e: int, accepted: bool, error: string) returns (result: Result)
      modifies `world
      ensures WorldOk(c, old(world)) ==> SyncSpec(c, old(world), e, accepted, error, world, result)
      ensures (world, result) == SyncEventNow(c, old(world), e, accepted, error)
      ensures WorldOk(c, old(world)) ==> WorldOk(c, world) && Evolves(old(world), world)
    {
      hide WorldOk, Evolves, SyncSpec;
      if WorldOk(c, world) {
        SyncOutcome(c, world, e, accepted, error);
        SyncKeeps(c, world, e, accepted, error);
      }
      if e !in world.events || (world.events[e].status != ToSync && world.events[e].status != SyncFailed) {
        return Returned;
      }
      var row := world.events[e];
      if !row.sameTenant {
        return Returned;
      }
      row := row.(attempts := row.attempts + 1);
      if accepted {
        var pid := world.nextProviderId;
        row := row.(status := Synced, providerId := Some(pid));
        world := world.(events := world.events[e := row], live := world.live[pid := e], nextProviderId := pid + 1);
        return Returned;
      }
      if row.attempts >= c.maxRetries {
        row := row.(status := SyncFailed);
        world := world.(events := world.events[e := row]);
        return Returned;
      }
      world := world.(events := world.events[e := row]);
      return Threw(error);
    }

    method CancelCalendarEventInWorker(e: int, accepted: bool, error: string) returns (result: Result)
      modifies `world
      ensures WorldOk(c, old(world)) ==> CancelSpec(c, old(world), e, accepted, error, world, result)
      ensures (world, result) == CancelEventNow(c, old(world), e, accepted, error)
      ensures WorldOk(c, old(world)) ==> WorldOk(c, world) && Evolves(old(world), world)
    {
      hide WorldOk, Evolves, CancelSpec;
      if WorldOk(c, world) {
        CancelOutcome(c, world, e, accepted, error);
        CancelKeeps(c, world, e, accepted, error);
      }
      if e !in world.events || world.events[e].status == CancelDone || world.events[e].status == CancelFailed {
        return Returned;
      }
      var row := world.events[e];
      if !row.sameTenant {
        return Returned;
      }
      if row.status == ToSync || row.status == SyncFailed {
        row := row.(status := CancelDone);
        world := world.(events := world.events[e := row]);
        return Returned;
      }
      row := row.(cancelAttempts := row.cancelAttempts + 1);
      if accepted {
        row := row.(status := CancelDone);
        var live := if row.providerId.Some? then world.live - {row.providerId.value} else world.live;
        world := world.(events := world.events[e := row], live := live);
        return Returned;
      }
      if row.cancelAttempts >= c.maxRetries {
        row := row.(status := CancelFailed);
        world := world.(events := world.events[e := row]);
        return Returned;
      }
      world := world.(events := world.events[e := row]);
      return Threw(error);
    }

    /** Exactly the stale pending rows get one fresh job each and are not stale again for a whole window. */
    method ReconcileStaleNotifications(now: int, window: nat) returns (stale: seq<int>)
      modifies this
      ensures Distinct(stale) && reminders == old(reminders) && nextRow == old(nextRow)
      ensures forall n :: n in stale <==> n in old(world).notifications && var row := old(world).notifications[n];
        row.status == ToSend && (if row.reconciledAt.Some? then row.reconciledAt.value else row.createdAt) < now - window
      ensures queued == old(queued) + seq(|stale|, i requires 0 <= i < |stale| => Fresh(SendNotification, stale[i]))
      ensures world == old(world).(notifications := world.notifications) && world.notifications.Keys == old(world).notifications.Keys
      ensures forall n | n in world.notifications ::
        world.notifications[n] == if n in stale then old(world).notifications[n].(reconciledAt := Some(now)) else old(world).notifications[n]
      ensures forall n, t | n in stale && t <= now + window :: !StaleNotification(world.notifications[n], t, window)
    {
      stale := Listed(set n | n in world.notifications && StaleNotification(world.notifications[n], now, window));
      for i := 0 to |stale|
        invariant reminders == old(reminders) && nextRow == old(nextRow)
        invariant queued == old(queued) + seq(i, k requires 0 <= k < i => Fresh(SendNotification, stale[k]))
        invariant world == old(world).(notifications := world.notifications) && world.notifications.Keys == old(world).notifications.Keys
        invariant forall n | n in world.notifications ::
          world.notifications[n] == if n in stale[..i] then old(world).notifications[n].(reconciledAt := Some(now)) else old(world).notifications[n]
      {
        var n := stale[i];
        assert stale[..i + 1] == stale[..i] + [n] && n in stale;
        queued := queued + [Fresh(SendNotification, n)];
        world := world.(notifications := world.notifications[n := world.notifications[n].(reconciledAt := Some(now))]);
      }
      assert stale[..|stale|] == stale;
    }

    /** The same for calendar rows, where a failed sync is retried as well. */
    method ReconcileStaleCalendarEvents(now: int, window: nat) returns (stale: seq<int>)
      modifies this
      ensures Distinct(stale) && reminders == old(reminders) && nextRow == old(nextRow)
      ensures forall e :: e in stale <==> e in old(world).events && var row := old(world).events[e];
        row.status in {ToSync, SyncFailed} && (if row.reconciledAt.Some? then row.reconciledAt.value else row.createdAt) < now - window
      ensures queued == old(queued) + seq(|stale|, i requires 0 <= i < |stale| => Fresh(SyncCalendar, stale[i]))
      ensures world == old(world).(events := world.events) && world.events.Keys == old(world).events.Keys
      ensures forall e | e in world.events ::
        world.events[e] == if e in stale then old(world).events[e].(reconciledAt := Some(now)) else old(world).events[e]
      ensures forall e, t | e in stale && t <= now + window :: !StaleEvent(world.events[e], t, window)
    {
      stale := Listed(set e | e in world.events && StaleEvent(world.events[e], now, window));
      for i := 0 to |stale|
        invariant reminders == old(reminders) && nextRow == old(nextRow)
        invariant queued == old(queued) + seq(i, k requires 0 <= k < i => Fresh(SyncCalendar, stale[k]))
        invariant world == old(world).(events := world.events) && world.events.Keys == old(world).events.Keys
        invariant forall e | e in world.events ::
          world.events[e] == if e in stale[..i] then old(world).events[e].(reconciledAt := Some(now)) else old(world).events[e]
      {
        var e := stale[i];
        assert stale[..i + 1] == stale[..i] + [e] && e in stale;
        queued := queued + [Fresh(SyncCalendar, e)];
        world := world.(events := world.events[e := world.events[e].(reconciledAt := Some(now))]);
      }
      assert stale[..|stale|] == stale;
    }

    /** A booking gets a reminder exactly when it wants one and has none: one new row, waiting to be sent, and one
        job that sends it. No booking ever gets a second one. */
    method EnqueueDueReminders(bookings: map<int, Appointment>, now: int, lead: int, minAdvance: int) returns (added: seq<int>)
      requires forall n :: n in reminders || n in world.notifications ==> n < nextRow
      modifies this
      ensures Distinct(added)
      ensures forall b :: b in added <==>
        && b in bookings && bookings[b].confirmed && now < bookings[b].startsAt <= now + lead
        && bookings[b].startsAt - bookings[b].createdAt >= minAdvance && forall n | n in old(reminders) :: old(reminders)[n] != b
      ensures nextRow == old(nextRow) + |added| && Extends(old(reminders), reminders, old(nextRow), added)
      ensures OneReminderEach(old(reminders)) ==> OneReminderEach(reminders)
      ensures world == old(world).(notifications := world.notifications)
      ensures forall n :: n in world.notifications <==> n in old(world).notifications || old(nextRow) <= n < nextRow
      ensures forall n | n in world.notifications ::
        world.notifications[n] == if n in old(world).notifications then old(world).notifications[n] else Notification(ToSend, 0, now, None)
      ensures queued == old(queued) + seq(|added|, i requires 0 <= i < |added| => Fresh(SendNotification, old(nextRow) + i))
    {
      hide Extends, OneReminderEach, HasReminder;
      var due := Listed(set b | b in bookings && bookings[b].confirmed && now < bookings[b].startsAt <= now + lead);
      added := [];
      NothingAdded(reminders, nextRow);
      for i := 0 to |due|
        invariant Distinct(added) && forall b :: b in added <==> b in due[..i] && WantsReminder(bookings, b, now, lead, minAdvance) && !HasReminder(old(reminders), b)
        invariant nextRow == old(nextRow) + |added| && Extends(old(reminders), reminders, old(nextRow), added)
        invariant world == old(world).(notifications := world.notifications)
        invariant forall n :: n in world.notifications <==> n in old(world).notifications || old(nextRow) <= n < nextRow
        invariant forall n | n in world.notifications ::
          world.notifications[n] == if n in old(world).notifications then old(world).notifications[n] else Notification(ToSend, 0, now, None)
        invariant queued == old(queued) + seq(|added|, k requires 0 <= k < |added| => Fresh(SendNotification, old(nextRow) + k))
      {
        var b := due[i];
        assert due[..i + 1] == due[..i] + [b] && b !in due[..i] && b in due;
        ExtendsMore(old(reminders), reminders, old(nextRow), added, b);
        if bookings[b].startsAt - bookings[b].createdAt >= minAdvance {
          if !HasReminder(reminders, b) {
            reminders := reminders[nextRow := b];
            world := world.(notifications := world.notifications[nextRow := Notification(ToSend, 0, now, None)]);
            queued := queued + [Fresh(SendNotification, nextRow)];
            nextRow := nextRow + 1;
            added := added + [b];
          }
        }
      }
      assert due[..|due|] == due;
      NoReminderIff(old(reminders));
      if OneReminderEach(old(reminders)) {
        ExtendsKeepsOneEach(old(reminders), reminders, old(nextRow), added);
      }
    }
  }

  lemma NothingAdded(reminders: map<int, int>, first: int)
    requires forall n | n in reminders :: n < first
    ensures Extends(reminders, reminders, first, [])
  {
  }
}
