/** What every call keeps, how every call ends, and where the counters differ from their description. */
module IvrLaws {
  import opened Domain
  import opened Ivr

  // ---- the invariant over whole calls -------------------------------------

  lemma DestinationIsNotBlank(b: Business)
    ensures TransferDestination(b).Some? ==> NotBlank(TransferDestination(b).value)
  {
    if b.policy == BusinessPhone && TransferDestination(b).Some? {
      var p := b.phone.value;
      var i :| 0 <= i < |p| && p[i] !in WHITESPACE;
      assert WHITESPACE[0] == ' ';
      assert p[i] != ' ';
    }
  }

  // ---- what one press does ------------------------------------------------

  /** The menu of the session's step is shown and the key selects nothing in it. */
  predicate SelectsNothing(s: Session, env: Env, key: Key) {
    match s.step
    case Incoming => key.text != "1" && key.text != "2" && key.text != "3" && env.business.Some?
    case ServiceSelection => env.services != [] && Choice(key, |Menu(env.services)|) == None
    case StaffSelection => env.serviceFound && key.text != "0" && Choice(key, |Menu(ReorderPreferred(env.staff, env.preferred))|) == None
    case TransferUnavailable => key.text != "1"
    case ManageBooking => env.bookingFound && key.text != "1" && key.text != "2" && key.text != "3" && env.bookedServiceFound
    case _ => s.candidates.Some? && Choice(key, |s.candidates.value|) == None
  }

  /** The statements of a press end without any commit. */
  predicate CommitsNothing(s: Session, bookings: map<int, int>, env: Env, key: Key) {
    match s.step
    case Incoming =>
      if key.text == "3" then !(env.upcoming.Some? && env.upcoming.value in bookings) else env.business == None
    case ServiceSelection =>
      && env.services != [] && Choice(key, |Menu(env.services)|).Some? && |env.staff| <= 1
      && Find(env, Some(env.services[key.number.value - 1]), Lone(env.staff)) == None
    case StaffSelection =>
      var menu := Menu(ReorderPreferred(env.staff, env.preferred));
      || !env.serviceFound
      || (key.text == "0" && Find(env, s.service, None) == None)
      || (key.text != "0" && Choice(key, |menu|).Some? && Find(env, s.service, Some(menu[key.number.value - 1])) == None)
    case TransferUnavailable => key.text == "1" && env.business == None
    case ManageBooking =>
      || !env.bookingFound
      || (key.text == "1" && env.outcome.Failed?)
      || (key.text == "2" && Find(env, Some(env.bookedService), None) == None)
      || (key.text == "3" && env.business == None)
      || (key.text != "1" && key.text != "2" && key.text != "3" && !env.bookedServiceFound)
    case _ =>
      s.candidates.Some? && Choice(key, |s.candidates.value|).Some? && env.outcome.Failed? && !env.outcome.committed
  }

  /** A press keeps the books: the expiry stays, an invalid key and nothing else is counted as one, a press that
      commits clears the silences, and one that does not leaves the row as it was. */
  predicate KeepsBooks(before: Session, bookings: map<int, int>, env: Env, key: Key, n: Next) {
    && n.session.expiresAt == before.expiresAt
    && n.session.invalidKeys == before.invalidKeys + (if SelectsNothing(before, env, key) then 1 else 0)
    && (if CommitsNothing(before, bookings, env, key) then n.session == before else n.session.noInput == 0)
  }

  /** A press keeps the call sound: what holds of every call still holds, the line is dropped or transferred exactly
      when the call is finished, and no booking is lost. */
  predicate KeepsCall(maxSlots: nat, bookings: map<int, int>, n: Next) {
    && SessionOk(maxSlots, State(n.session, n.bookings))
    && (Terminal(n.session.step) <==> n.reply.Hangup? || n.reply.Transfer?)
    && (forall id | id in bookings && (n.session.booking == None || id != n.session.booking.value) :: id in n.bookings && n.bookings[id] == bookings[id])
  }

  lemma InvalidKeyKeeps(maxSlots: nat, m: Session, bookings: map<int, int>)
    ensures InvalidKey(m, bookings).session.expiresAt == m.expiresAt && InvalidKey(m, bookings).session.noInput == m.noInput
    ensures InvalidKey(m, bookings).session.invalidKeys == m.invalidKeys + 1
    ensures SessionOk(maxSlots, State(m, bookings)) && !Terminal(m.step) ==> KeepsCall(maxSlots, bookings, InvalidKey(m, bookings))
  {
  }

  lemma IncomingKeeps(maxSlots: nat, s: Session, bookings: map<int, int>, env: Env, key: Key)
    requires s.step == Incoming
    ensures var n := AtIncoming(s, s.(noInput := 0), bookings, env, key);
      KeepsBooks(s, bookings, env, key, n) && (SessionOk(maxSlots, State(s, bookings)) ==> KeepsCall(maxSlots, bookings, n))
  {
    hide NotBlank, TransferDestination, InvalidKey;
    InvalidKeyKeeps(maxSlots, s.(noInput := 0), bookings);
    if env.business.Some? {
      DestinationIsNotBlank(env.business.value);
    }
  }

  /** A slot menu is reached with a chosen service, the reschedule menu from a managed booking. */
  predicate Reaches(s: Session, m: Session, selection: Step) {
    if selection == SlotSelection then m.service.Some? else selection == RescheduleSlotSelection && s.step == ManageBooking
  }

  lemma SearchKeeps(maxSlots: nat, s: Session, m: Session, bookings: map<int, int>, found: Option<seq<Slot>>, selection: Step)
    requires m == s.(noInput := 0, service := m.service, staff := m.staff) && !Terminal(s.step)
    requires selection == SlotSelection || selection == RescheduleSlotSelection
    ensures var n := OfferSlots(maxSlots, s, m, bookings, found, selection);
      && n.session.expiresAt == s.expiresAt && n.session.invalidKeys == s.invalidKeys
      && (if found == None then n.session == s else n.session.noInput == 0)
      && (maxSlots > 0 && SessionOk(maxSlots, State(s, bookings)) && Reaches(s, m, selection) ==> KeepsCall(maxSlots, bookings, n))
  {
  }

  lemma ServiceKeeps(maxSlots: nat, s: Session, bookings: map<int, int>, env: Env, key: Key)
    requires s.step == ServiceSelection
    ensures var n := AtServiceSelection(maxSlots, s, s.(noInput := 0), bookings, env, key);
      KeepsBooks(s, bookings, env, key, n) && (maxSlots > 0 && SessionOk(maxSlots, State(s, bookings)) ==> KeepsCall(maxSlots, bookings, n))
  {
    hide NotBlank, InvalidKey, OfferSlots;
    var m := s.(noInput := 0);
    InvalidKeyKeeps(maxSlots, m, bookings);
    var choice := Choice(key, |Menu(env.services)|);
    if env.services != [] && choice.Some? {
      var m' := m.(service := Some(env.services[choice.value]));
      SearchKeeps(maxSlots, s, m'.(staff := Lone(env.staff)), bookings, Find(env, m'.service, Lone(env.staff)), SlotSelection);
    }
  }

  lemma StaffKeeps(maxSlots: nat, s: Session, bookings: map<int, int>, env: Env, key: Key)
    requires s.step == StaffSelection
    ensures var n := AtStaffSelection(maxSlots, s, s.(noInput := 0), bookings, env, key);
      KeepsBooks(s, bookings, env, key, n) && (maxSlots > 0 && SessionOk(maxSlots, State(s, bookings)) ==> KeepsCall(maxSlots, bookings, n))
  {
    hide NotBlank, InvalidKey, OfferSlots, ReorderPreferred;
    var m := s.(noInput := 0);
    InvalidKeyKeeps(maxSlots, m, bookings);
    SearchKeeps(maxSlots, s, m.(staff := None), bookings, Find(env, m.service, None), SlotSelection);
    var menu := Menu(ReorderPreferred(env.staff, env.preferred));
    if Choice(key, |menu|).Some? {
      var chosen := Some(menu[Choice(key, |menu|).value]);
      SearchKeeps(maxSlots, s, m.(staff := chosen), bookings, Find(env, m.service, chosen), SlotSelection);
    }
  }

  lemma SlotsKeep(maxSlots: nat, s: Session, bookings: map<int, int>, env: Env, key: Key)
    requires s.step == SlotSelection || s.step == RescheduleSlotSelection
    ensures var n := AtSlots(s, s.(noInput := 0), bookings, env, key);
      KeepsBooks(s, bookings, env, key, n) && (SessionOk(maxSlots, State(s, bookings)) ==> KeepsCall(maxSlots, bookings, n))
  {
    hide NotBlank, InvalidKey;
    InvalidKeyKeeps(maxSlots, s.(noInput := 0), bookings);
  }

  lemma UnavailableKeeps(maxSlots: nat, s: Session, bookings: map<int, int>, env: Env, key: Key)
    requires s.step == TransferUnavailable
    ensures var n := AtTransferUnavailable(s, s.(noInput := 0), bookings, env, key);
      KeepsBooks(s, bookings, env, key, n) && (SessionOk(maxSlots, State(s, bookings)) ==> KeepsCall(maxSlots, bookings, n))
  {
    hide NotBlank, InvalidKey;
    InvalidKeyKeeps(maxSlots, s.(noInput := 0), bookings);
  }

  lemma ManageKeeps(maxSlots: nat, s: Session, bookings: map<int, int>, env: Env, key: Key)
    requires s.step == ManageBooking
    ensures var n := AtManageBooking(maxSlots, s, s.(noInput := 0), bookings, env, key);
      KeepsBooks(s, bookings, env, key, n) && (maxSlots > 0 && SessionOk(maxSlots, State(s, bookings)) ==> KeepsCall(maxSlots, bookings, n))
  {
    hide NotBlank, InvalidKey, OfferSlots;
    InvalidKeyKeeps(maxSlots, s.(noInput := 0), bookings);
    SearchKeeps(maxSlots, s, s.(noInput := 0), bookings, Find(env, Some(env.bookedService), None), RescheduleSlotSelection);
  }

  /** Every press of a key on a live call keeps the books and the call. */
  lemma DispatchKeeps(maxSlots: nat, s: Session, bookings: map<int, int>, env: Env, key: Key)
    requires !Terminal(s.step)
    ensures var n := Dispatch(maxSlots, s, bookings, env, key);
      KeepsBooks(s, bookings, env, key, n) && (maxSlots > 0 && SessionOk(maxSlots, State(s, bookings)) ==> KeepsCall(maxSlots, bookings, n))
  {
    hide KeepsBooks, KeepsCall, SessionOk, AtIncoming, AtServiceSelection, AtStaffSelection, AtSlots, AtTransferUnavailable, AtManageBooking;
    match s.step
    case Incoming => IncomingKeeps(maxSlots, s, bookings, env, key);
    case ServiceSelection => ServiceKeeps(maxSlots, s, bookings, env, key);
    case StaffSelection => StaffKeeps(maxSlots, s, bookings, env, key);
    case SlotSelection => SlotsKeep(maxSlots, s, bookings, env, key);
    case TransferUnavailable => UnavailableKeeps(maxSlots, s, bookings, env, key);
    case ManageBooking => ManageKeeps(maxSlots, s, bookings, env, key);
    case RescheduleSlotSelection => SlotsKeep(maxSlots, s, bookings, env, key);
  }

  /** Silences and repeats keep the call as well. */
  lemma PressKeepsCall(maxSlots: nat, s: Session, bookings: map<int, int>, env: Env, key: Key)
    requires maxSlots > 0 && SessionOk(maxSlots, State(s, bookings))
    ensures KeepsCall(maxSlots, bookings, Press(maxSlots, s, bookings, env, key))
  {
    hide NotBlank, Dispatch;
    if !Terminal(s.step) {
      DispatchKeeps(maxSlots, s, bookings, env, key);
    }
  }

  lemma AfterKeepsOk(maxSlots: nat, st: State, e: Event)
    requires maxSlots > 0 && SessionOk(maxSlots, st)
    ensures SessionOk(maxSlots, After(maxSlots, st, e))
  {
    hide NotBlank, Press;
    if e.Pressed? {
      PressKeepsCall(maxSlots, st.session, st.bookings, e.env, e.key);
    }
  }

  /** In every call: a staff or slot menu implies a chosen service, a slot menu between one and `ivr_max_slots`
      candidates, the manage menus a managed booking, a transfer a usable number, a confirmation a booking that
      starts at a stored candidate; a live call has heard at most two silences in a row and four invalid keys. */
  lemma {:induction false} CallsStayOk(maxSlots: nat, expiresAt: int, bookings: map<int, int>, events: seq<Event>)
    requires maxSlots > 0
    ensures SessionOk(maxSlots, Run(maxSlots, State(Started(expiresAt), bookings), events))
  {
    hide After;
    if events != [] {
      hide SessionOk;
      var n := |events| - 1;
      CallsStayOk(maxSlots, expiresAt, bookings, events[..n]);
      AfterKeepsOk(maxSlots, Run(maxSlots, State(Started(expiresAt), bookings), events[..n]), events[n]);
    }
  }

  // ---- how a call ends ----------------------------------------------------

  /** The expiry is fixed at the start, and a finished call is never touched again, by any press or sweep. */
  lemma {:induction false} FinishedCallsStay(maxSlots: nat, st: State, events: seq<Event>)
    ensures var s' := Run(maxSlots, st, events).session;
      s'.expiresAt == st.session.expiresAt && (Terminal(st.session.step) ==> s' == st.session)
  {
    hide After;
    if events != [] {
      var n := |events| - 1;
      FinishedCallsStay(maxSlots, st, events[..n]);
      ExpiryIsFixed(maxSlots, Run(maxSlots, st, events[..n]), events[n]);
    }
  }

  lemma PressIsFixed(maxSlots: nat, s: Session, bookings: map<int, int>, env: Env, key: Key)
    ensures var s' := Press(maxSlots, s, bookings, env, key).session;
      s'.expiresAt == s.expiresAt && (Terminal(s.step) ==> s' == s)
  {
    hide Dispatch, SessionOk;
    if !Terminal(s.step) {
      DispatchKeeps(maxSlots, s, bookings, env, key);
    }
  }

  lemma ExpiryIsFixed(maxSlots: nat, st: State, e: Event)
    ensures After(maxSlots, st, e).session.expiresAt == st.session.expiresAt
    ensures Terminal(st.session.step) ==> After(maxSlots, st, e).session == st.session
  {
    hide Press;
    if e.Pressed? {
      PressIsFixed(maxSlots, st.session, st.bookings, e.env, e.key);
    }
  }

  /** Any press, and any sweep, at or after the expiry finds the call finished or expires it, and a sweep before the
      expiry does nothing. */
  lemma LateEventsEndTheCall(maxSlots: nat, st: State, e: Event)
    requires Possible(st, e) && (e.Pressed? || e.Swept?)
    ensures var late := st.session.expiresAt <= if e.Pressed? then e.env.now else e.now;
      var st' := After(maxSlots, st, e);
      && (late ==> Terminal(st'.session.step))
      && (late ==> st' == if Terminal(st.session.step) then st else st.(session := st.session.(step := Expired)))
      && (!late && e.Swept? ==> st' == st)
  {
  }

  predicate Silence(st: State, e: Event) {
    e.Pressed? && Possible(st, e) && e.key.text == ""
  }

  /** Three silences in a row end every call. */
  lemma ThreeSilencesEndTheCall(maxSlots: nat, st: State, a: Event, b: Event, d: Event)
    requires var st1 := After(maxSlots, st, a); var st2 := After(maxSlots, st1, b); Silence(st, a) && Silence(st1, b) && Silence(st2, d)
    ensures Terminal(After(maxSlots, After(maxSlots, After(maxSlots, st, a), b), d).session.step)
  {
    hide Dispatch, Reprompt;
  }

  // ---- invalid keys -------------------------------------------------------

  predicate Invalid(st: State, e: Event) {
    && e.Pressed? && Possible(st, e) && !Terminal(st.session.step) && e.env.now < st.session.expiresAt
    && e.key.text != "" && e.key.text != "*" && SelectsNothing(st.session, e.env, e.key)
  }

  function InvalidPresses(maxSlots: nat, st: State, events: seq<Event>): nat {
    if events == [] then 0
    else
      var n := |events| - 1;
      InvalidPresses(maxSlots, st, events[..n]) + if Invalid(Run(maxSlots, st, events[..n]), events[n]) then 1 else 0
  }

  lemma PressCountsInvalid(maxSlots: nat, st: State, e: Event)
    ensures After(maxSlots, st, e).session.invalidKeys == st.session.invalidKeys + (if Invalid(st, e) then 1 else 0)
  {
    hide Dispatch, SessionOk, SelectsNothing, CommitsNothing;
    if e.Pressed? && !Terminal(st.session.step) {
      DispatchKeeps(maxSlots, st.session, st.bookings, e.env, e.key);
    }
  }

  lemma {:induction false} CounterCountsInvalid(maxSlots: nat, st: State, events: seq<Event>)
    ensures Run(maxSlots, st, events).session.invalidKeys == st.session.invalidKeys + InvalidPresses(maxSlots, st, events)
  {
    hide After, Invalid;
    if events != [] {
      var n := |events| - 1;
      CounterCountsInvalid(maxSlots, st, events[..n]);
      PressCountsInvalid(maxSlots, Run(maxSlots, st, events[..n]), events[n]);
    }
  }

  /** Five invalid keys in total, anywhere in the call, end it. */
  lemma FiveInvalidKeysEndTheCall(maxSlots: nat, expiresAt: int, bookings: map<int, int>, events: seq<Event>)
    requires maxSlots > 0 && InvalidPresses(maxSlots, State(Started(expiresAt), bookings), events) >= INVALID_KEY_MAX
    ensures Terminal(Run(maxSlots, State(Started(expiresAt), bookings), events).session.step)
  {
    hide Run, InvalidPresses;
    CounterCountsInvalid(maxSlots, State(Started(expiresAt), bookings), events);
    CallsStayOk(maxSlots, expiresAt, bookings, events);
  }

  // ---- the silence counter ------------------------------------------------

  /** A key press on a live call clears the stored silence counter exactly when its statements commit; otherwise
      the whole row stays as it was. */
  lemma PressResetsSilence(maxSlots: nat, s: Session, bookings: map<int, int>, env: Env, key: Key)
    requires !Terminal(s.step) && env.now < s.expiresAt && key.text != "" && key.text != "*"
    ensures var s' := Press(maxSlots, s, bookings, env, key).session;
      if CommitsNothing(s, bookings, env, key) then s' == s else s'.noInput == 0
  {
    hide Dispatch, SessionOk, SelectsNothing, CommitsNothing;
    DispatchKeeps(maxSlots, s, bookings, env, key);
  }

  const QUIET := Env(0, Some(Business(false, false, UnknownPolicy, None, [])), [], [], None, true, None, true, 0, true, map[], Failed(false))
  const SILENT := Pressed(QUIET, Key("", None))
  const THREE := Pressed(QUIET, Key("3", Some(3)))

  /** Silences need not be consecutive: asking for an appointment the caller does not have lies between each two
      of them here, and the third still ends the call. */
  lemma SilencesAddUpAcrossKeys(maxSlots: nat, expiresAt: int)
    requires expiresAt > 0
    ensures Run(maxSlots, State(Started(expiresAt), map[]), [SILENT, THREE, SILENT, THREE, SILENT]).session.step == Expired
  {
    var events := [SILENT, THREE, SILENT, THREE, SILENT];
    var st := State(Started(expiresAt), map[]);
    assert events[..4][..3] == events[..3] && events[..3][..2] == events[..2] && events[..2][..1] == events[..1] && events[..1][..0] == [];
    assert Run(maxSlots, st, events[..1]) == st.(session := st.session.(noInput := 1));
    assert Run(maxSlots, st, events[..2]) == st.(session := st.session.(noInput := 1));
    assert Run(maxSlots, st, events[..3]) == st.(session := st.session.(noInput := 2));
    assert Run(maxSlots, st, events[..4]) == st.(session := st.session.(noInput := 2));
  }

  // ---- presses that raise -------------------------------------------------

  /** A press that raises leaves the step alone, with one exception: the booking to manage is stored before the
      lookup of its service fails. */
  lemma RaisingKeepsTheStep(maxSlots: nat, s: Session, bookings: map<int, int>, env: Env, key: Key)
    requires Press(maxSlots, s, bookings, env, key).reply == Raise
    ensures var s' := Press(maxSlots, s, bookings, env, key).session;
      s'.step != s.step <==> s.step == Incoming && key.text == "3" && env.upcoming.Some? && env.upcoming.value in bookings
  {
    hide TransferDestination, ReorderPreferred;
  }

  // ---- the staff menu -----------------------------------------------------

  lemma {:induction false} SplitStaff(staff: seq<int>, id: int)
    ensures multiset(Only(staff, id) + Except(staff, id)) == multiset(staff)
  {
    if staff != [] {
      SplitStaff(staff[1..], id);
      assert staff == [staff[0]] + staff[1..];
    }
  }

  lemma {:induction false} OnlyIsOnly(staff: seq<int>, id: int)
    ensures forall x | x in Only(staff, id) :: x == id
    ensures Only(staff, id) == [] <==> id !in staff
  {
    if staff != [] {
      OnlyIsOnly(staff[1..], id);
    }
  }

  /** The menu is the same staff, with the caller's last staff member first when still schedulable. */
  lemma MenuIsPermutation(staff: seq<int>, preferred: Option<int>)
    ensures var menu := ReorderPreferred(staff, preferred);
      && multiset(menu) == multiset(staff)
      && (preferred.Some? && preferred.value in staff ==> menu != [] && menu[0] == preferred.value)
      && (preferred == None || preferred.value !in staff ==> menu == staff)
  {
    hide Only, Except;
    if preferred.Some? {
      SplitStaff(staff, preferred.value);
      OnlyIsOnly(staff, preferred.value);
      var front := Only(staff, preferred.value);
      assert front != [] ==> front[0] in front && (front + Except(staff, preferred.value))[0] == front[0];
    }
  }

  /** The menu as it is announced: the caller's last staff member first when still schedulable, then the others in
      their order. */
  ghost predicate IsStaffMenu(staff: seq<int>, preferred: Option<int>, menu: seq<int>) {
    if preferred.Some? && preferred.value in staff then
      var others := Select(staff, x => x != preferred.value);
      && |menu| == |staff| && |others| <= |menu| && menu[|menu| - |others|..] == others
      && forall i | 0 <= i < |menu| - |others| :: menu[i] == preferred.value
    else menu == staff
  }

  lemma {:induction false} ExceptSelects(staff: seq<int>, id: int)
    ensures Except(staff, id) == Select(staff, x => x != id)
  {
    if staff != [] {
      ExceptSelects(staff[1..], id);
    }
  }

  lemma MenuIsAnnounced(staff: seq<int>, preferred: Option<int>)
    ensures IsStaffMenu(staff, preferred, ReorderPreferred(staff, preferred))
  {
    hide Only, Except;
    if preferred.Some? {
      var p := preferred.value;
      SplitStaff(staff, p);
      OnlyIsOnly(staff, p);
      ExceptSelects(staff, p);
      var front := Only(staff, p);
      assert forall i | 0 <= i < |front| :: front[i] in front;
      assert (front + Except(staff, p))[|front|..] == Except(staff, p);
      assert |multiset(front + Except(staff, p))| == |multiset(staff)|;
    }
  }
}
