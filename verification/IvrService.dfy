/** The voice menu as the service runs it: handlers change the session in memory, and `Commit` makes the changes
    visible. A request that ends without a commit leaves the stored row as it was. */
module IvrService {
  import opened Domain
  import opened Ivr
  import opened IvrLaws
  import AvailabilityLaws

  // ---- what a handler makes of the row `m` in memory ----------------------

  /** One more invalid key is stored; the fifth ends the call. */
  predicate InvalidSpec(m: Session, row: Session, reply: Reply) {
    && row == m.(invalidKeys := m.invalidKeys + 1, step := row.step)
    && if m.invalidKeys + 1 >= 5 then row.step == Expired && reply == Hangup else row.step == m.step && reply == Ask
  }

  /** The menu of the session's step is read again; that raises exactly when a row the menu speaks of is gone. */
  predicate MenuSpec(s: Session, env: Env, reply: Reply) {
    var gone := (s.step == Incoming && env.business == None) || (s.step == StaffSelection && !env.serviceFound)
      || (s.step == ManageBooking && !(env.bookingFound && env.bookedServiceFound));
    var empty := (s.step == SlotSelection || s.step == RescheduleSlotSelection) && (s.candidates == None || s.candidates == Some([]));
    reply == if gone then Raise else if empty then Hangup else Ask
  }

  /** The number that the policy names: the business's own, or that of the first staff member who has one. */
  ghost predicate IsDestination(b: Business, number: string) {
    || (b.policy == BusinessPhone && b.phone == Some(number) && HasText(number))
    || (b.policy == StaffPhone && NotBlank(number) &&
        exists i | 0 <= i < |b.staffPhones| :: b.staffPhones[i] == Some(number) && forall j | 0 <= j < i :: !Dialable(b.staffPhones[j]))
  }

  /** Transferred exactly when transfers are enabled and the policy names a number; otherwise the unavailable menu. */
  ghost predicate TransferSpec(m: Session, b: Business, row: Session, reply: Reply) {
    if reply.Transfer? then
      && b.transferEnabled && IsDestination(b, reply.destination) && NotBlank(reply.destination)
      && row == m.(step := Abandoned, transferTo := Some(reply.destination))
    else
      && reply == Ask && row == m.(step := TransferUnavailable)
      && (b.transferEnabled ==> forall number :: !IsDestination(b, number))
  }

  /** The slots found for this service and staff member, the first ones of them, make the menu `selection`; when none are
      found the call is over, and a search that raises stores nothing, not even the selections made in memory. */
  predicate SearchSpec(maxSlots: nat, before: Session, m: Session, env: Env, service: int, staff: Option<int>, selection: Step,
                       row: Session, reply: Reply) {
    if Search(service, staff) !in env.search then reply == Raise && row == before
    else
      var found := env.search[Search(service, staff)];
      if found == [] then reply == Hangup && row == m.(step := NoSlots)
      else
        && reply == Ask && row.candidates.Some? && row == m.(step := selection, candidates := row.candidates)
        && row.candidates.value <= found
        && if |found| <= maxSlots then row.candidates.value == found else |row.candidates.value| == maxSlots
  }

  /** The key names the i-th of `size` entries. */
  predicate Names(key: Key, size: nat, i: int) {
    0 <= i < size && key.number == Some(i + 1)
  }

  /** Only nine entries of a menu have a key. */
  function Keys(size: nat): nat {
    if size <= 9 then size else 9
  }

  class VoiceCall {
    const maxSlots: nat
    var row: Session
    var session: Session
    var bookings: map<int, int>

    constructor (maxSlots: nat, expiresAt: int, bookings: map<int, int>)
      requires maxSlots > 0
      ensures this.maxSlots == maxSlots && this.bookings == bookings && row == Started(expiresAt)
      ensures SessionOk(maxSlots, State(row, bookings))
    {
      this.maxSlots, this.bookings := maxSlots, bookings;
      row, session := Started(expiresAt), Started(expiresAt);
    }

    method Commit()
      modifies `row
      ensures row == session
    {
      row := session;
    }

    /** The request has loaded the row, found it at `step`, and cleared the silences in memory. */
    ghost predicate Dispatched(step: Step)
      reads this
    {
      row.step == step && session == row.(noInput := 0) && maxSlots > 0 && SessionOk(maxSlots, State(row, bookings))
    }

    /** What a handler owes to a call it was dispatched to. */
    ghost predicate Kept(before: Session, known: map<int, int>, env: Env, key: Key, reply: Reply)
      reads this
    {
      var n := Next(row, bookings, reply);
      KeepsBooks(before, known, env, key, n) && KeepsCall(maxSlots, known, n)
    }

    /** One more invalid key is committed; the fifth ends the call, and a sound live call stays sound. */
    method HandleInvalidKey() returns (reply: Reply)
      modifies `row, `session
      ensures row == session && InvalidSpec(old(session), row, reply)
      ensures SessionOk(maxSlots, State(old(session), bookings)) && !Terminal(old(session).step) ==>
        KeepsCall(maxSlots, bookings, Next(row, bookings, reply))
      ensures Next(row, bookings, reply) == InvalidKey(old(session), bookings)
    {
      hide SessionOk, KeepsCall;
      InvalidKeyKeeps(maxSlots, session, bookings);
      session := session.(invalidKeys := session.invalidKeys + 1);
      if session.invalidKeys >= INVALID_KEY_MAX {
        session := session.(step := Expired);
        Commit();
        return Hangup;
      }
      Commit();
      return Ask;
    }

    /** One more silence is committed; the third ends the call, and before that the caller hears the menu again even
        if composing it raises. */
    method HandleNoInput(env: Env) returns (reply: Reply)
      modifies `row, `session
      ensures row == session && row == old(session).(noInput := old(session).noInput + 1, step := row.step)
      ensures row.noInput >= 3 ==> row.step == Expired && reply == Hangup
      ensures row.noInput < 3 ==> row.step == old(session).step && MenuSpec(row, env, reply)
      ensures SessionOk(maxSlots, State(old(session), bookings)) && !Terminal(old(session).step) ==>
        KeepsCall(maxSlots, bookings, Next(row, bookings, reply))
      ensures Next(row, bookings, reply) == NoInput(old(session), bookings, env)
    {
      hide NotBlank;
      session := session.(noInput := session.noInput + 1);
      if session.noInput >= NO_INPUT_MAX {
        session := session.(step := Expired);
        Commit();
        return Hangup;
      }
      Commit();
      return Reprompt(session, env);
    }

    method MoveTo(step: Step)
      modifies `row, `session
      ensures row == session == old(session).(step := step)
    {
      session := session.(step := step);
      Commit();
    }

    /** The call is transferred exactly when transfers are enabled and the policy has a usable number, and then to such
        a number; otherwise the caller gets the unavailable menu. */
    method HandleTransferRequest(b: Business) returns (reply: Reply)
      modifies `row, `session
      ensures TransferSpec(old(session), b, row, reply)
      ensures Next(row, bookings, reply) == TransferRequest(old(session), bookings, b)
    {
      hide TransferDestination, NotBlank, IsDestination;
      DestinationIsNamed(b);
      DestinationIsNotBlank(b);
      if !b.transferEnabled {
        MoveTo(TransferUnavailable);
        return Ask;
      }
      var destination := TransferDestination(b);
      if destination == None {
        MoveTo(TransferUnavailable);
        return Ask;
      }
      session := session.(transferTo := destination);
      MoveTo(Abandoned);
      return Transfer(destination.value);
    }

    /** With an upcoming booking the manage menu is committed for it, even if composing the menu then raises; without
        one nothing is committed, whatever is pending in memory. */
    method HandleManageRequest(env: Env) returns (reply: Reply)
      modifies `row, `session
      ensures env.upcoming.Some? && env.upcoming.value in bookings ==> row == old(session).(managed := env.upcoming, step := ManageBooking)
      ensures !(env.upcoming.Some? && env.upcoming.value in bookings) ==> row == old(row) && session == old(session)
      ensures reply == if env.upcoming.Some? && env.upcoming.value in bookings then (if env.bookedServiceFound then Ask else Raise)
        else if env.business.Some? then Ask else Raise
      ensures Next(row, bookings, reply) == ManageRequest(old(row), old(session), bookings, env)
    {
      if env.upcoming == None || env.upcoming.value !in bookings {
        return if env.business == None then Raise else Ask;
      }
      session := session.(managed := env.upcoming);
      MoveTo(ManageBooking);
      return if env.bookedServiceFound then Ask else Raise;
    }

    /** The main menu keeps books and call; it raises without a commit, except after storing the booking to manage. */
    method HandleIncoming(env: Env, key: Key) returns (reply: Reply)
      modifies `row, `session
      ensures old(Dispatched(Incoming)) ==> Kept(old(row), old(bookings), env, key, reply)
      ensures reply == Raise && row.step != ManageBooking ==> row == old(row)
      ensures key.text == "1" && env.business.Some? ==>
        && row == old(session).(step := if env.business.value.external then ExternalLinkSent else if env.services == [] then NoSlots else ServiceSelection)
        && reply == if row.step == ServiceSelection then Ask else Hangup
      ensures key.text == "2" && env.business.Some? ==> TransferSpec(old(session), env.business.value, row, reply)
      ensures key.text == "3" && env.upcoming.Some? && env.upcoming.value in bookings ==>
        row == old(session).(managed := env.upcoming, step := ManageBooking)
      ensures key.text !in {"1", "2", "3"} && env.business.Some? ==> InvalidSpec(old(session), row, reply)
      ensures Next(row, bookings, reply) == AtIncoming(old(row), old(session), bookings, env, key)
    {
      hide TransferRequest, InvalidKey, KeepsBooks, KeepsCall, SessionOk, IsDestination, NotBlank;
      if row.step == Incoming {
        IncomingKeeps(maxSlots, row, bookings, env, key);
      }
      if key.text == "3" {
        reply := HandleManageRequest(env);
        return;
      }
      if env.business == None {
        return Raise;
      }
      if key.text == "1" {
        if env.business.value.external {
          MoveTo(ExternalLinkSent);
          return Hangup;
        }
        if env.services == [] {
          MoveTo(NoSlots);
          return Hangup;
        }
        MoveTo(ServiceSelection);
        return Ask;
      }
      if key.text == "2" {
        reply := HandleTransferRequest(env.business.value);
        return;
      }
      reply := HandleInvalidKey();
    }

    /** The menu is reached exactly when the search found something; it then offers the first slots found, in order,
        at most `ivr_max_slots` of them. A failed search commits nothing, not even the selections made in memory. */
    method ProceedToSlotSearch(env: Env, service: Option<int>, staff: Option<int>, selection: Step) returns (reply: Reply)
      modifies `row, `session
      ensures service == None ==> reply == Raise && row == old(row)
      ensures service.Some? ==> SearchSpec(maxSlots, old(row), old(session), env, service.value, staff, selection, row, reply)
      ensures Next(row, bookings, reply) == OfferSlots(maxSlots, old(row), old(session), bookings, Find(env, service, staff), selection)
    {
      var found := Find(env, service, staff);
      if found == None {
        return Raise;
      }
      var slots := AvailabilityLaws.Take(found.value, maxSlots);
      if found.value == [] {
        MoveTo(NoSlots);
        return Hangup;
      }
      session := session.(candidates := Some(slots));
      MoveTo(selection);
      return Ask;
    }

    /** The key selects the service among the first nine. Two or more staff members lead to the staff menu; a lone one is
        selected at once and searched for, and without any the search is for anybody. */
    method HandleServiceSelection(env: Env, key: Key) returns (reply: Reply)
      modifies `row, `session
      ensures old(Dispatched(ServiceSelection)) ==> Kept(old(row), old(bookings), env, key, reply)
      ensures reply == Raise ==> row == old(row)
      ensures env.services == [] ==> row == old(session).(step := NoSlots) && reply == Hangup
      ensures forall i | Names(key, Keys(|env.services|), i) ::
        var m := old(session).(service := Some(env.services[i]));
        if |env.staff| >= 2 then reply == Ask && row == m.(step := StaffSelection)
        else
          var staff := if |env.staff| == 1 then Some(env.staff[0]) else None;
          SearchSpec(maxSlots, old(row), m.(staff := staff), env, env.services[i], staff, SlotSelection, row, reply)
      ensures env.services != [] && (forall i :: !Names(key, Keys(|env.services|), i)) ==> InvalidSpec(old(session), row, reply)
      ensures Next(row, bookings, reply) == AtServiceSelection(maxSlots, old(row), old(session), bookings, env, key)
    {
      hide OfferSlots, InvalidKey, KeepsBooks, KeepsCall, SessionOk;
      if row.step == ServiceSelection {
        ServiceKeeps(maxSlots, row, bookings, env, key);
      }
      if env.services == [] {
        MoveTo(NoSlots);
        return Hangup;
      }
      var choice := Choice(key, |Menu(env.services)|);
      if choice == None {
        NoChoice(key, Keys(|env.services|));
        reply := HandleInvalidKey();
        return;
      }
      assert Names(key, Keys(|env.services|), choice.value);
      session := session.(service := Some(env.services[choice.value]));
      if |env.staff| <= 1 {
        session := session.(staff := Lone(env.staff));
        reply := ProceedToSlotSearch(env, session.service, session.staff, SlotSelection);
        return;
      }
      MoveTo(StaffSelection);
      return Ask;
    }

    /** "0" searches for anybody; any other key for the staff member it names in the announced menu, whose first entry is
        the caller's last staff member when still schedulable. */
    method HandleStaffSelection(env: Env, key: Key) returns (reply: Reply)
      modifies `row, `session
      ensures old(Dispatched(StaffSelection)) ==> Kept(old(row), old(bookings), env, key, reply)
      ensures reply == Raise ==> row == old(row)
      ensures !env.serviceFound ==> reply == Raise
      ensures env.serviceFound && key.text == "0" && old(session).service.Some? ==>
        SearchSpec(maxSlots, old(row), old(session).(staff := None), env, old(session).service.value, None, SlotSelection, row, reply)
      ensures forall i, menu | env.serviceFound && key.text != "0" && old(session).service.Some?
          && IsStaffMenu(env.staff, env.preferred, menu) && Names(key, Keys(|menu|), i) ::
        SearchSpec(maxSlots, old(row), old(session).(staff := Some(menu[i])), env, old(session).service.value, Some(menu[i]), SlotSelection, row, reply)
      ensures env.serviceFound && key.text != "0" && (forall i :: !Names(key, Keys(|env.staff|), i)) ==> InvalidSpec(old(session), row, reply)
      ensures Next(row, bookings, reply) == AtStaffSelection(maxSlots, old(row), old(session), bookings, env, key)
    {
      hide OfferSlots, InvalidKey, ReorderPreferred, KeepsBooks, KeepsCall, SessionOk;
      if row.step == StaffSelection {
        StaffKeeps(maxSlots, row, bookings, env, key);
      }
      if !env.serviceFound {
        return Raise;
      }
      MenuIsPermutation(env.staff, env.preferred);
      ghost var all := ReorderPreferred(env.staff, env.preferred);
      OneMenu(env.staff, env.preferred, all);
      var menu := Menu(ReorderPreferred(env.staff, env.preferred));
      if key.text == "0" {
        session := session.(staff := None);
        reply := ProceedToSlotSearch(env, session.service, None, SlotSelection);
        return;
      }
      var choice := Choice(key, |menu|);
      if choice == None {
        NoChoice(key, Keys(|env.staff|));
        reply := HandleInvalidKey();
        return;
      }
      assert Names(key, Keys(|env.staff|), choice.value);
      session := session.(staff := Some(menu[choice.value]));
      reply := ProceedToSlotSearch(env, session.service, session.staff, SlotSelection);
    }

    /** Both slot menus. A confirmation links the new booking, which starts at the candidate the key selected, and
        changes no other booking; a failure keeps the step and every booking, and at most clears the silences. */
    method HandleSlotSelection(env: Env, key: Key) returns (reply: Reply)
      modifies this
      ensures old(Dispatched(SlotSelection) || Dispatched(RescheduleSlotSelection)) ==> Kept(old(row), old(bookings), env, key, reply)
      ensures old(session).candidates.Some? ==> forall i | Names(key, |old(session).candidates.value|, i) ::
        var chosen := old(session).candidates.value[i];
        if env.outcome.Booked? then
          && reply == Hangup && row == old(session).(booking := Some(env.outcome.id), slot := Some(chosen), step := BookingConfirmed)
          && bookings == old(bookings)[env.outcome.id := chosen.start]
        else reply == Raise && bookings == old(bookings) && row == if env.outcome.committed then old(session) else old(row)
      ensures old(session).candidates.Some? && (forall i :: !Names(key, |old(session).candidates.value|, i)) ==>
        InvalidSpec(old(session), row, reply) && bookings == old(bookings)
      ensures old(session).candidates == None ==> reply == Hangup && row == old(session).(step := NoSlots) && bookings == old(bookings)
      ensures Next(row, bookings, reply) == AtSlots(old(row), old(session), old(bookings), env, key)
    {
      hide InvalidKey, KeepsBooks, KeepsCall, SessionOk;
      if row.step == SlotSelection || row.step == RescheduleSlotSelection {
        SlotsKeep(maxSlots, row, bookings, env, key);
      }
      if session.candidates == None {
        MoveTo(NoSlots);
        return Hangup;
      }
      var choice := Choice(key, |session.candidates.value|);
      if choice == None {
        NoChoice(key, |session.candidates.value|);
        reply := HandleInvalidKey();
        return;
      }
      assert Names(key, |session.candidates.value|, choice.value);
      var chosen := session.candidates.value[choice.value];
      if env.outcome.Failed? {
        if env.outcome.committed {
          Commit();
        }
        return Raise;
      }
      bookings := bookings[env.outcome.id := chosen.start];
      session := session.(booking := Some(env.outcome.id), slot := Some(chosen));
      MoveTo(BookingConfirmed);
      return Hangup;
    }

    /** Only "1" leads back to the main menu; any other key is counted as invalid. */
    method HandleTransferUnavailable(env: Env, key: Key) returns (reply: Reply)
      modifies `row, `session
      ensures old(Dispatched(TransferUnavailable)) ==> Kept(old(row), old(bookings), env, key, reply)
      ensures reply == Raise ==> row == old(row)
      ensures key.text == "1" && env.business.Some? ==> reply == Ask && row == old(session).(step := Incoming)
      ensures key.text == "1" && env.business == None ==> reply == Raise
      ensures key.text != "1" ==> InvalidSpec(old(session), row, reply)
      ensures Next(row, bookings, reply) == AtTransferUnavailable(old(row), old(session), bookings, env, key)
    {
      hide InvalidKey, KeepsBooks, KeepsCall, SessionOk;
      if row.step == TransferUnavailable {
        UnavailableKeeps(maxSlots, row, bookings, env, key);
      }
      if key.text == "1" {
        if env.business == None {
          return Raise;
        }
        MoveTo(Incoming);
        return Ask;
      }
      reply := HandleInvalidKey();
    }

    /** The managed booking is never exchanged; the call ends as cancelled exactly when "1" was pressed and the
        cancellation succeeded; a press that raises leaves the row as it was. */
    method HandleManageBooking(env: Env, key: Key) returns (reply: Reply)
      modifies `row, `session
      ensures old(Dispatched(ManageBooking)) ==> Kept(old(row), old(bookings), env, key, reply) && row.managed == old(row).managed
      ensures reply == Raise ==> row == old(row)
      ensures !env.bookingFound ==> reply == Raise
      ensures env.bookingFound && key.text == "1" ==>
        if env.outcome.Booked? then reply == Hangup && row == old(session).(step := BookingCancelled) else reply == Raise
      ensures env.bookingFound && key.text == "2" ==>
        SearchSpec(maxSlots, old(row), old(session), env, env.bookedService, None, RescheduleSlotSelection, row, reply)
      ensures env.bookingFound && key.text == "3" ==>
        if env.business.Some? then reply == Ask && row == old(session).(step := Incoming) else reply == Raise
      ensures env.bookingFound && key.text !in {"1", "2", "3"} ==>
        if env.bookedServiceFound then InvalidSpec(old(session), row, reply) else reply == Raise
      ensures Next(row, bookings, reply) == AtManageBooking(maxSlots, old(row), old(session), bookings, env, key)
    {
      hide OfferSlots, InvalidKey, KeepsBooks, KeepsCall, SessionOk;
      if row.step == ManageBooking {
        ManageKeeps(maxSlots, row, bookings, env, key);
      }
      if !env.bookingFound {
        return Raise;
      }
      if key.text == "1" {
        if env.outcome.Failed? {
          return Raise;
        }
        MoveTo(BookingCancelled);
        return Hangup;
      }
      if key.text == "2" {
        reply := ProceedToSlotSearch(env, Some(env.bookedService), None, RescheduleSlotSelection);
        return;
      }
      if key.text == "3" {
        if env.business == None {
          return Raise;
        }
        MoveTo(Incoming);
        return Ask;
      }
      if !env.bookedServiceFound {
        return Raise;
      }
      reply := HandleInvalidKey();
    }

    /** The stored row changes exactly as `Press` says; what holds of every call is kept, and the line is dropped or
        transferred exactly when the call is finished. */
    method HandleKeypress(env: Env, key: Key) returns (reply: Reply)
      requires maxSlots > 0 && SessionOk(maxSlots, State(row, bookings))
      modifies this
      ensures Next(row, bookings, reply) == Press(maxSlots, old(row), old(bookings), env, key)
      ensures KeepsCall(maxSlots, old(bookings), Next(row, bookings, reply))
      ensures Terminal(old(row).step) ==> reply == Hangup && row == old(row) && bookings == old(bookings)
      ensures !Terminal(old(row).step) && env.now >= old(row).expiresAt ==>
        reply == Hangup && row == old(row).(step := Expired) && bookings == old(bookings)
      ensures !Terminal(old(row).step) && env.now < old(row).expiresAt && key.text == "*" ==>
        MenuSpec(row, env, reply) && row == old(row).(noInput := 0) && bookings == old(bookings)
      ensures !Terminal(old(row).step) && env.now < old(row).expiresAt && key.text == "" ==>
        && bookings == old(bookings) && row == old(row).(noInput := old(row).noInput + 1, step := row.step)
        && if row.noInput >= 3 then row.step == Expired && reply == Hangup else row.step == old(row).step && MenuSpec(row, env, reply)
    {
      hide InvalidKey, NoInput, AtIncoming, AtServiceSelection, AtStaffSelection, AtSlots, AtTransferUnavailable, AtManageBooking, Reprompt;
      hide SessionOk, KeepsCall, KeepsBooks, Choice;
      PressKeepsCall(maxSlots, row, bookings, env, key);
      RepromptIsMenu(row.(noInput := 0), env);
      session := row;
      if env.now >= session.expiresAt {
        if !Terminal(session.step) {
          MoveTo(Expired);
        }
        return Hangup;
      }
      if Terminal(session.step) {
        return Hangup;
      }
      if key.text == "" {
        reply := HandleNoInput(env);
        return;
      }
      session := session.(noInput := 0);
      if key.text == "*" {
        Commit();
        return Reprompt(session, env);
      }
      match session.step
      case Incoming => reply := HandleIncoming(env, key);
      case ServiceSelection => reply := HandleServiceSelection(env, key);
      case StaffSelection => reply := HandleStaffSelection(env, key);
      case SlotSelection => reply := HandleSlotSelection(env, key);
      case TransferUnavailable => reply := HandleTransferUnavailable(env, key);
      case ManageBooking => reply := HandleManageBooking(env, key);
      case RescheduleSlotSelection => reply := HandleSlotSelection(env, key);
    }
  }

  /** The destination is the one the policy names, when it names any. */
  lemma DestinationIsNamed(b: Business)
    ensures TransferDestination(b).Some? ==> IsDestination(b, TransferDestination(b).value)
    ensures TransferDestination(b) == None ==> forall number :: !IsDestination(b, number)
  {
    hide NotBlank, HasText;
    if b.policy == StaffPhone && TransferDestination(b) == None {
      forall number
        ensures !IsDestination(b, number)
      {
        assert forall i | 0 <= i < |b.staffPhones| :: b.staffPhones[i] in b.staffPhones;
      }
    }
  }

  lemma RepromptIsMenu(s: Session, env: Env)
    ensures MenuSpec(s, env, Reprompt(s, env))
  {
  }

  lemma NoChoice(key: Key, size: nat)
    requires Choice(key, size) == None
    ensures forall i :: !Names(key, size, i)
  {
  }

  /** There is only one menu to announce, and it has as many entries as there are staff members. */
  lemma OneMenu(staff: seq<int>, preferred: Option<int>, all: seq<int>)
    requires all == ReorderPreferred(staff, preferred)
    ensures |all| == |staff| && forall menu | IsStaffMenu(staff, preferred, menu) :: menu == all
  {
    hide ReorderPreferred;
    MenuIsAnnounced(staff, preferred);
    forall menu | IsStaffMenu(staff, preferred, menu)
      ensures menu == all
    {
      if preferred.Some? && preferred.value in staff {
        var n := |staff| - |Select(staff, x => x != preferred.value)|;
        assert menu == menu[..n] + menu[n..] && all == all[..n] + all[n..];
      }
    }
  }

  /** The sweep expires exactly the live rows past their expiry and touches no other. */
  method ExpireStaleSessions(sessions: map<int, Session>, now: int) returns (r: map<int, Session>, count: nat)
    ensures r.Keys == sessions.Keys
    ensures forall id | id in sessions ::
      r[id] == if sessions[id].expiresAt <= now && !Terminal(sessions[id].step) then sessions[id].(step := Expired) else sessions[id]
    ensures forall id | id in r :: r[id].expiresAt <= now ==> Terminal(r[id].step)
    ensures count == |set id | id in sessions && sessions[id].expiresAt <= now && !Terminal(sessions[id].step)|
  {
    hide Terminal;
    var stale := set id | id in sessions && sessions[id].expiresAt <= now && !Terminal(sessions[id].step);
    r := sessions;
    var left := stale;
    while left != {}
      invariant left <= stale && r.Keys == sessions.Keys
      invariant forall id | id in sessions :: r[id] == if id in stale && id !in left then sessions[id].(step := Expired) else sessions[id]
      decreases |left|
    {
      ghost var _, _ := Pick(left);
      var id :| id in left;
      r := r[id := r[id].(step := Expired)];
      left := left - {id};
    }
    count := |stale|;
    ExpiredIsTerminal();
  }

  lemma ExpiredIsTerminal()
    ensures Terminal(Expired)
  {
  }
}
