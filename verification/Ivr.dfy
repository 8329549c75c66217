/** The voice menu: what one keypress does to the committed session row, given what the database answers. */
module Ivr {
  import opened Domain
  import Availability
  import AvailabilityLaws

  type Slot = Availability.Slot

  const NO_INPUT_MAX := 3
  const INVALID_KEY_MAX := 5
  const MENU_SIZE := 9

  datatype Step =
    | Incoming | ServiceSelection | StaffSelection | SlotSelection | TransferUnavailable | ManageBooking
    | RescheduleSlotSelection | BookingConfirmed | NoSlots | Expired | Abandoned | ExternalLinkSent | BookingCancelled

  predicate Terminal(s: Step) {
    s in {BookingConfirmed, NoSlots, Expired, Abandoned, ExternalLinkSent, BookingCancelled}
  }

  datatype Session = Session(
    step: Step,
    service: Option<int>,
    staff: Option<int>,
    candidates: Option<seq<Slot>>,
    slot: Option<Slot>,
    booking: Option<int>,
    managed: Option<int>,
    transferTo: Option<string>,
    noInput: nat,
    invalidKeys: nat,
    expiresAt: int)

  /** A new row: `start_session` stores nothing but the step and the expiry. */
  function Started(expiresAt: int): Session {
    Session(Incoming, None, None, None, None, None, None, None, 0, 0, expiresAt)
  }

  datatype Policy = BusinessPhone | StaffPhone | UnknownPolicy

  datatype Business = Business(
    external: bool, transferEnabled: bool, policy: Policy, phone: Option<string>, staffPhones: seq<Option<string>>)

  /** The result of `create_booking`, `cancel_booking` or `reschedule_booking`: the booking, or an exception that
      may come after a commit of theirs (a new customer, the cancellation of the old booking). */
  datatype Outcome = Booked(id: int) | Failed(committed: bool)

  /** What the slot finder is asked for. */
  datatype Search = Search(service: int, staff: Option<int>)

  /** What the statements of one request read. `search` is what the slot finder returns, where it does not raise. A lookup that raises is `None` or `false`. */
  datatype Env = Env(
    now: int,
    business: Option<Business>,
    services: seq<int>,
    staff: seq<int>,
    preferred: Option<int>,
    serviceFound: bool,
    upcoming: Option<int>,
    bookingFound: bool,
    bookedService: int,
    bookedServiceFound: bool,
    search: map<Search, seq<Slot>>,
    outcome: Outcome)

  /** The key as typed, and its value where `int(key)` does not raise. */
  datatype Key = Key(text: string, number: Option<int>)

  datatype Reply = Ask | Hangup | Transfer(destination: string) | Raise

  /** The committed row, the bookings' start times and the reply after a request. */
  datatype Next = Next(session: Session, bookings: map<int, int>, reply: Reply)

  // ---- helpers ------------------------------------------------------------

  /** `TRIM(phone) <> ''`. */
  predicate NotBlank(s: string) {
    exists i | 0 <= i < |s| :: s[i] != ' '
  }

  /** The phone column holds something that can be dialled. */
  predicate Dialable(phone: Option<string>) {
    phone.Some? && NotBlank(phone.value)
  }

  function FirstEligible(phones: seq<Option<string>>): (r: Option<string>)
    ensures r == None <==> forall p | p in phones :: !Dialable(p)
    ensures r.Some? ==> exists i :: 0 <= i < |phones| && phones[i] == r && Dialable(r) && forall j | 0 <= j < i :: !Dialable(phones[j])
  {
    if phones == [] then None
    else if Dialable(phones[0]) then
      assert phones[0] in phones;
      phones[0]
    else
      var r := FirstEligible(phones[1..]);
      assert forall p :: p in phones <==> p == phones[0] || p in phones[1..];
      assert r.Some? ==> exists i :: 0 <= i < |phones[1..]| && phones[1..][i] == r && phones[i + 1] == r && forall j | 0 <= j < i :: !Dialable(phones[1..][j]);
      r
  }

  function TransferDestination(b: Business): Option<string> {
    match b.policy
    case BusinessPhone => if b.phone.Some? && HasText(b.phone.value) then b.phone else None
    case StaffPhone => FirstEligible(b.staffPhones)
    case UnknownPolicy => None
  }

  function Only(staff: seq<int>, id: int): seq<int> {
    if staff == [] then [] else (if staff[0] == id then [staff[0]] else []) + Only(staff[1..], id)
  }

  function Except(staff: seq<int>, id: int): seq<int> {
    if staff == [] then [] else (if staff[0] != id then [staff[0]] else []) + Except(staff[1..], id)
  }

  /** The caller's last staff member first, if still schedulable. */
  function ReorderPreferred(staff: seq<int>, preferred: Option<int>): seq<int> {
    if preferred == None || Only(staff, preferred.value) == [] then staff
    else Only(staff, preferred.value) + Except(staff, preferred.value)
  }

  /** The zero-based menu entry a key selects. */
  function Choice(key: Key, size: nat): Option<nat> {
    if key.number.Some? && 1 <= key.number.value <= size then Some(key.number.value - 1) else None
  }

  function Menu<T>(s: seq<T>): seq<T> {
    AvailabilityLaws.Take(s, MENU_SIZE)
  }

  /** `_find_slots`; without a service it raises. */
  function Find(env: Env, service: Option<int>, staff: Option<int>): Option<seq<Slot>> {
    if service.Some? && Search(service.value, staff) in env.search then Some(env.search[Search(service.value, staff)]) else None
  }

  /** The staff member when there is no choice. */
  function Lone(staff: seq<int>): Option<int> {
    if |staff| == 1 then Some(staff[0]) else None
  }

  // ---- handlers: `committed` is the row in the database, `m` the row in memory ----

  function InvalidKey(m: Session, bookings: map<int, int>): Next {
    var m' := m.(invalidKeys := m.invalidKeys + 1);
    if m'.invalidKeys >= INVALID_KEY_MAX then Next(m'.(step := Expired), bookings, Hangup)
    else Next(m', bookings, Ask)
  }

  function Reprompt(s: Session, env: Env): Reply {
    match s.step
    case Incoming => if env.business == None then Raise else Ask
    case StaffSelection => if env.serviceFound then Ask else Raise
    case ManageBooking => if env.bookingFound && env.bookedServiceFound then Ask else Raise
    case SlotSelection => if s.candidates == None || s.candidates.value == [] then Hangup else Ask
    case RescheduleSlotSelection => if s.candidates == None || s.candidates.value == [] then Hangup else Ask
    case _ => Ask
  }

  function NoInput(s: Session, bookings: map<int, int>, env: Env): Next {
    var s' := s.(noInput := s.noInput + 1);
    if s'.noInput >= NO_INPUT_MAX then Next(s'.(step := Expired), bookings, Hangup)
    else Next(s', bookings, Reprompt(s', env))
  }

  function TransferRequest(m: Session, bookings: map<int, int>, b: Business): Next {
    if !b.transferEnabled || TransferDestination(b) == None then Next(m.(step := TransferUnavailable), bookings, Ask)
    else Next(m.(step := Abandoned, transferTo := TransferDestination(b)), bookings, Transfer(TransferDestination(b).value))
  }

  /** Without an upcoming booking nothing is committed, not even the reset of the silence counter. */
  function ManageRequest(committed: Session, m: Session, bookings: map<int, int>, env: Env): Next {
    if env.upcoming.Some? && env.upcoming.value in bookings then
      Next(m.(managed := env.upcoming, step := ManageBooking), bookings, if env.bookedServiceFound then Ask else Raise)
    else Next(committed, bookings, if env.business == None then Raise else Ask)
  }

  function AtIncoming(committed: Session, m: Session, bookings: map<int, int>, env: Env, key: Key): Next {
    if key.text == "3" then ManageRequest(committed, m, bookings, env)
    else if env.business == None then Next(committed, bookings, Raise)
    else
      var b := env.business.value;
      if key.text == "1" then
        if b.external then Next(m.(step := ExternalLinkSent), bookings, Hangup)
        else if env.services == [] then Next(m.(step := NoSlots), bookings, Hangup)
        else Next(m.(step := ServiceSelection), bookings, Ask)
      else if key.text == "2" then TransferRequest(m, bookings, b)
      else InvalidKey(m, bookings)
  }

  /** `_proceed_to_slot_search` and the search of the reschedule branch. */
  function OfferSlots(maxSlots: nat, committed: Session, m: Session, bookings: map<int, int>, found: Option<seq<Slot>>, selection: Step): Next {
    if found == None then Next(committed, bookings, Raise)
    else if found.value == [] then Next(m.(step := NoSlots), bookings, Hangup)
    else Next(m.(candidates := Some(AvailabilityLaws.Take(found.value, maxSlots)), step := selection), bookings, Ask)
  }

  function AtServiceSelection(maxSlots: nat, committed: Session, m: Session, bookings: map<int, int>, env: Env, key: Key): Next {
    var choice := Choice(key, |Menu(env.services)|);
    if env.services == [] then Next(m.(step := NoSlots), bookings, Hangup)
    else if choice == None then InvalidKey(m, bookings)
    else
      var m' := m.(service := Some(env.services[choice.value]));
      if |env.staff| <= 1 then
        OfferSlots(maxSlots, committed, m'.(staff := Lone(env.staff)), bookings, Find(env, m'.service, Lone(env.staff)), SlotSelection)
      else Next(m'.(step := StaffSelection), bookings, Ask)
  }

  function AtStaffSelection(maxSlots: nat, committed: Session, m: Session, bookings: map<int, int>, env: Env, key: Key): Next {
    var menu := Menu(ReorderPreferred(env.staff, env.preferred));
    if !env.serviceFound then Next(committed, bookings, Raise)
    else if key.text == "0" then OfferSlots(maxSlots, committed, m.(staff := None), bookings, Find(env, m.service, None), SlotSelection)
    else if Choice(key, |menu|) == None then InvalidKey(m, bookings)
    else
      var chosen := Some(menu[Choice(key, |menu|).value]);
      OfferSlots(maxSlots, committed, m.(staff := chosen), bookings, Find(env, m.service, chosen), SlotSelection)
  }

  /** Both slot menus: book the chosen candidate, or move the managed booking to it. */
  function AtSlots(committed: Session, m: Session, bookings: map<int, int>, env: Env, key: Key): Next {
    if m.candidates == None then Next(m.(step := NoSlots), bookings, Hangup)
    else if Choice(key, |m.candidates.value|) == None then InvalidKey(m, bookings)
    else
      var chosen := m.candidates.value[Choice(key, |m.candidates.value|).value];
      match env.outcome
      case Failed(done) => Next(if done then m else committed, bookings, Raise)
      case Booked(id) =>
        Next(m.(booking := Some(id), slot := Some(chosen), step := BookingConfirmed), bookings[id := chosen.start], Hangup)
  }

  function AtTransferUnavailable(committed: Session, m: Session, bookings: map<int, int>, env: Env, key: Key): Next {
    if key.text != "1" then InvalidKey(m, bookings)
    else if env.business == None then Next(committed, bookings, Raise)
    else Next(m.(step := Incoming), bookings, Ask)
  }

  function AtManageBooking(maxSlots: nat, committed: Session, m: Session, bookings: map<int, int>, env: Env, key: Key): Next {
    if !env.bookingFound then Next(committed, bookings, Raise)
    else if key.text == "1" then
      if env.outcome.Failed? then Next(committed, bookings, Raise) else Next(m.(step := BookingCancelled), bookings, Hangup)
    else if key.text == "2" then OfferSlots(maxSlots, committed, m, bookings, Find(env, Some(env.bookedService), None), RescheduleSlotSelection)
    else if key.text == "3" then
      if env.business == None then Next(committed, bookings, Raise) else Next(m.(step := Incoming), bookings, Ask)
    else if !env.bookedServiceFound then Next(committed, bookings, Raise)
    else InvalidKey(m, bookings)
  }

  /** The step handlers, for a live session and a key that is neither silence nor a repeat. */
  function Dispatch(maxSlots: nat, s: Session, bookings: map<int, int>, env: Env, key: Key): Next {
    var m := s.(noInput := 0);
    match s.step
    case Incoming => AtIncoming(s, m, bookings, env, key)
    case ServiceSelection => AtServiceSelection(maxSlots, s, m, bookings, env, key)
    case StaffSelection => AtStaffSelection(maxSlots, s, m, bookings, env, key)
    case SlotSelection => AtSlots(s, m, bookings, env, key)
    case TransferUnavailable => AtTransferUnavailable(s, m, bookings, env, key)
    case ManageBooking => AtManageBooking(maxSlots, s, m, bookings, env, key)
    case RescheduleSlotSelection => AtSlots(s, m, bookings, env, key)
    case _ => Next(s, bookings, Hangup)
  }

  /** `handle_keypress` on an existing session. */
  function Press(maxSlots: nat, s: Session, bookings: map<int, int>, env: Env, key: Key): Next {
    if env.now >= s.expiresAt then Next(if Terminal(s.step) then s else s.(step := Expired), bookings, Hangup)
    else if Terminal(s.step) then Next(s, bookings, Hangup)
    else if key.text == "" then NoInput(s, bookings, env)
    else if key.text == "*" then
      var m := s.(noInput := 0);
      Next(m, bookings, Reprompt(m, env))
    else Dispatch(maxSlots, s, bookings, env, key)
  }

  /** What `expire_stale_sessions` does to one row. */
  function SweepOne(s: Session, now: int): Session {
    if s.expiresAt <= now && !Terminal(s.step) then s.(step := Expired) else s
  }

  // ---- runs ---------------------------------------------------------------

  /** Presses, sweeps, and bookings made elsewhere; a booking id is never reused. */
  datatype Event = Pressed(env: Env, key: Key) | Swept(now: int) | BookedElsewhere(id: int, start: int)

  datatype State = State(session: Session, bookings: map<int, int>)

  predicate Possible(st: State, e: Event) {
    match e
    case Pressed(env, _) => env.outcome.Booked? ==> env.outcome.id !in st.bookings
    case Swept(_) => true
    case BookedElsewhere(id, _) => id !in st.bookings
  }

  function After(maxSlots: nat, st: State, e: Event): State {
    if !Possible(st, e) then st
    else match e
      case Pressed(env, key) =>
        var n := Press(maxSlots, st.session, st.bookings, env, key);
        State(n.session, n.bookings)
      case Swept(now) => st.(session := SweepOne(st.session, now))
      case BookedElsewhere(id, start) => st.(bookings := st.bookings[id := start])
  }

  function Run(maxSlots: nat, st: State, events: seq<Event>): State {
    if events == [] then st else After(maxSlots, Run(maxSlots, st, events[..|events| - 1]), events[|events| - 1])
  }

  // ---- the invariant ------------------------------------------------------

  predicate SessionOk(maxSlots: nat, st: State) {
    var s := st.session;
    && (s.step == StaffSelection || s.step == SlotSelection ==> s.service.Some?)
    && (s.step == SlotSelection || s.step == RescheduleSlotSelection ==>
          s.candidates.Some? && 1 <= |s.candidates.value| <= maxSlots)
    && (s.step == ManageBooking || s.step == RescheduleSlotSelection ==> s.managed.Some? && s.managed.value in st.bookings)
    && (s.step == Abandoned ==> s.transferTo.Some? && NotBlank(s.transferTo.value))
    && (s.step == BookingConfirmed ==>
          && s.booking.Some? && s.booking.value in st.bookings
          && s.candidates.Some? && s.slot.Some? && s.slot.value in s.candidates.value
          && st.bookings[s.booking.value] == s.slot.value.start)
    && (!Terminal(s.step) ==> s.noInput < NO_INPUT_MAX && s.invalidKeys < INVALID_KEY_MAX)
  }
}
