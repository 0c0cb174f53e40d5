/**
 Appointments, admissions bookings and declared windows, with the two writers that
 change them.  A PostgreSQL transaction is one function from database to database:
 it either yields the new tables or a refusal, in which case nothing is written.
 Instants are integer milliseconds; intervals are half-open.
 */
module Scheduling {
  import opened Prelude

  const MINUTE := 60_000
  const DAY := 86_400_000

  type UserId = nat
  type Id = nat

  datatype AppointmentState =
    | Brouillon | Planifie | Confirme | Reporte | Annule | Realise | Absent | Refuse

  predicate Terminal(s: AppointmentState) {
    s == Annule || s == Realise || s == Absent || s == Refuse
  }

  datatype Appointment = Appointment(
    lead: Id, startsAt: int, minutes: int,
    adviser: UserId, organizer: UserId, evaluator: Option<UserId>, participants: set<UserId>,
    state: AppointmentState, version: int)
  {
    function EndsAt(): int { startsAt + minutes * MINUTE }

    predicate Live() { !Terminal(state) }

    /** Everybody the appointment keeps busy. */
    function Involved(): set<UserId> {
      {adviser, organizer} + participants + (if evaluator.Some? then {evaluator.value} else {})
    }

    /** No writer changes any field but the start, the state and the version. */
    predicate SameParty(other: Appointment) {
      && lead == other.lead && minutes == other.minutes && adviser == other.adviser
      && organizer == other.organizer && evaluator == other.evaluator && participants == other.participants
    }
  }

  predicate Overlap(s1: int, e1: int, s2: int, e2: int) {
    s1 < e2 && s2 < e1
  }

  /** A designation is identified by its user and campus, which are unique together. */
  datatype ResponsibilityId = ResponsibilityId(user: UserId, campus: Id)
  datatype Responsibility = Responsibility(active: bool, version: int)

  datatype BookingState = Pending | Accepted | Declined | Cancelled
  datatype Booking = Booking(responsibility: ResponsibilityId, state: BookingState)

  datatype WindowKind = Available | Blocked
  datatype Window = Window(
    responsibility: ResponsibilityId, kind: WindowKind, startsAt: int, endsAt: int, active: bool, version: int)

  datatype Action = Accept | Decline | Cancel | Reschedule(startsAt: int) | Complete | NoShow

  /** A validated request; it is also the payload whose hash is the receipt's fingerprint. */
  datatype Request =
    | Configure(responsibility: ResponsibilityId, active: bool, expectedVersion: int)
    | CreateWindow(responsibility: ResponsibilityId, kind: WindowKind, startsAt: int, endsAt: int)
    | WithdrawWindow(window: Id, expectedVersion: int)
    | CreateBooking(responsibility: ResponsibilityId, lead: Id, startsAt: int, minutes: int,
                    evaluated: bool, participants: set<UserId>)
    | Decide(appointment: Id, action: Action, expectedVersion: int)
    | Report(appointment: Id, expectedVersion: int)

  /** The receipt namespace: one per operation name, decisions having one per action. */
  datatype Operation =
    | ResponsibilityOp | WindowCreateOp | WindowWithdrawOp | BookingCreateOp | BookingReportOp
    | AcceptOp | RefuseOp | CancelOp | RescheduleOp | CompleteOp | NoShowOp

  function OperationOf(r: Request): Operation {
    match r
    case Configure(_, _, _) => ResponsibilityOp
    case CreateWindow(_, _, _, _) => WindowCreateOp
    case WithdrawWindow(_, _) => WindowWithdrawOp
    case CreateBooking(_, _, _, _, _, _) => BookingCreateOp
    case Report(_, _) => BookingReportOp
    case Decide(_, a, _) =>
      match a
      case Accept => AcceptOp
      case Decline => RefuseOp
      case Cancel => CancelOp
      case Reschedule(_) => RescheduleOp
      case Complete => CompleteOp
      case NoShow => NoShowOp
  }

  datatype Reply =
    | ResponsibilityReply(responsibility: ResponsibilityId, active: bool, version: int)
    | WindowReply(window: Id, active: bool, version: int)
    | BookingReply(appointment: Id, booking: BookingState, state: AppointmentState, startsAt: int, version: int)

  datatype ReceiptKey = ReceiptKey(actor: UserId, operation: Operation, key: Id)
  datatype Receipt = Receipt(payload: Request, reply: Reply)

  datatype Db = Db(
    appointments: map<Id, Appointment>,
    bookings: map<Id, Booking>,
    windows: map<Id, Window>,
    responsibilities: map<ResponsibilityId, Responsibility>,
    accounts: set<UserId>,              // active users that completed their first login
    reports: set<Id>,                   // appointments holding an interview report
    receipts: map<ReceiptKey, Receipt>, // admissions_mutation_receipts
    events: set<Id>)                    // idempotency keys of legacy appointment events

  /** Who calls, with which key, at which instant.  `allowed` is the outcome of the permission
      evaluation, `admin` whether the caller manages the campus, `newId` the id the database draws. */
  datatype Ctx = Ctx(actor: UserId, key: Id, now: int, allowed: bool, admin: bool, newId: Id)

  datatype Refusal =
    | Invalid | Denied | ProfileInactive | NotFound | VersionConflict | BookingConflict | WindowInUse
    | TransitionRefused | SelfApproval | IdempotencyConflict | ReportRefused
    | ControlledBookingRequired | ControlledTransitionRequired | UniqueViolation

  type Outcome = Result<(Db, Reply), Refusal>

  // ---------------------------------------------------------------- queries

  predicate ProfileActive(db: Db, r: ResponsibilityId) {
    r in db.responsibilities && db.responsibilities[r].active && r.user in db.accounts
  }

  /** Rows returned by the occupation query: live, overlapping, involving one of the users. */
  function Occupying(db: Db, users: set<UserId>, from: int, to: int, exclude: Option<Id>): (ids: set<Id>)
  {
    set id | id in db.appointments && db.appointments[id].Live() && exclude != Some(id)
             && Overlap(db.appointments[id].startsAt, db.appointments[id].EndsAt(), from, to)
             && db.appointments[id].Involved() * users != {}
  }

  /** Active BLOCKED windows of an active designation of one of the users. */
  function Blocking(db: Db, users: set<UserId>, from: int, to: int): (ids: set<Id>)
  {
    set w | w in db.windows && db.windows[w].active && db.windows[w].kind == Blocked
            && Overlap(db.windows[w].startsAt, db.windows[w].endsAt, from, to)
            && db.windows[w].responsibility in db.responsibilities
            && db.responsibilities[db.windows[w].responsibility].active
            && db.windows[w].responsibility.user in users
  }

  /** assertAppointmentFree passes. */
  predicate Free(db: Db, users: set<UserId>, from: int, to: int, exclude: Option<Id>) {
    Occupying(db, users, from, to, exclude) == {} && Blocking(db, users, from, to) == {}
  }

  /** A window that offers the whole interval to the responsibility. */
  predicate Offers(w: Window, r: ResponsibilityId, from: int, to: int) {
    w.active && w.kind == Available && w.responsibility == r && w.startsAt <= from && to <= w.endsAt
  }

  predicate InsideWindow(windows: map<Id, Window>, r: ResponsibilityId, from: int, to: int) {
    exists w :: w in windows && Offers(windows[w], r, from, to)
  }

  /** An active BLOCKED window of the responsibility itself touches the interval. */
  predicate OwnBlock(windows: map<Id, Window>, r: ResponsibilityId, from: int, to: int) {
    exists w :: w in windows && windows[w].active && windows[w].kind == Blocked
                && windows[w].responsibility == r && Overlap(windows[w].startsAt, windows[w].endsAt, from, to)
  }

  /** assertSlot passes at instant `now`. */
  predicate SlotOpen(db: Db, r: ResponsibilityId, start: int, minutes: int, now: int) {
    && now < start
    && InsideWindow(db.windows, r, start, start + minutes * MINUTE)
    && !OwnBlock(db.windows, r, start, start + minutes * MINUTE)
  }

  // ---------------------------------------------------------------- admissions writer

  function ApplyConfigure(db: Db, r: ResponsibilityId, active: bool, expectedVersion: int): Outcome {
    var current := if r in db.responsibilities then db.responsibilities[r].version else 0;
    if current != expectedVersion then Refused(VersionConflict)
    else
      var row := Responsibility(active, current + 1);
      Ok((db.(responsibilities := db.responsibilities[r := row]), ResponsibilityReply(r, active, row.version)))
  }

  function ApplyCreateWindow(db: Db, c: Ctx, r: ResponsibilityId, kind: WindowKind, from: int, to: int): Outcome {
    if to <= c.now then Refused(Invalid)
    else if kind == Blocked && !Free(db, {r.user}, from, to, None) then Refused(BookingConflict)
    else if c.newId in db.windows then Refused(UniqueViolation)
    else
      Ok((db.(windows := db.windows[c.newId := Window(r, kind, from, to, true, 1)]), WindowReply(c.newId, true, 1)))
  }

  /** A live PENDING or ACCEPTED booking that uses the window and that no other window would still offer. */
  predicate StrandedBy(db: Db, window: Id, id: Id)
    requires window in db.windows
  {
    var row := db.windows[window];
    && id in db.bookings && id in db.appointments
    && db.bookings[id].responsibility == row.responsibility
    && (db.bookings[id].state == Pending || db.bookings[id].state == Accepted)
    && db.appointments[id].Live()
    && Overlap(db.appointments[id].startsAt, db.appointments[id].EndsAt(), row.startsAt, row.endsAt)
    && !InsideWindow(db.windows - {window}, row.responsibility, db.appointments[id].startsAt,
                     db.appointments[id].EndsAt())
  }

  function ApplyWithdrawWindow(db: Db, id: Id, expectedVersion: int): Outcome
    requires id in db.windows
  {
    var row := db.windows[id];
    if !row.active || row.version != expectedVersion then Refused(VersionConflict)
    else if row.kind == Available && (exists b :: b in db.bookings && StrandedBy(db, id, b)) then Refused(WindowInUse)
    else
      var changed := row.(active := false, version := row.version + 1);
      Ok((db.(windows := db.windows[id := changed]), WindowReply(id, false, changed.version)))
  }

  function ApplyCreateBooking(db: Db, c: Ctx, r: ResponsibilityId, lead: Id, start: int, minutes: int,
                              evaluated: bool, participants: set<UserId>): Outcome
  {
    var end := start + minutes * MINUTE;
    if start <= c.now then Refused(Invalid)
    else if !SlotOpen(db, r, start, minutes, c.now) then Refused(BookingConflict)
    else if !Free(db, {r.user, c.actor} + participants, start, end, None) then Refused(BookingConflict)
    else if c.newId in db.appointments || c.newId in db.bookings then Refused(UniqueViolation)
    else
      var a := Appointment(lead, start, minutes, r.user, c.actor,
                           if evaluated then Some(r.user) else None, participants, Planifie, 1);
      Ok((db.(appointments := db.appointments[c.newId := a], bookings := db.bookings[c.newId := Booking(r, Pending)]),
          BookingReply(c.newId, Pending, Planifie, start, 1)))
  }

  function NextBookingState(a: Action, s: BookingState): BookingState {
    match a
    case Accept => Accepted
    case Decline => Declined
    case Cancel => Cancelled
    case Reschedule(_) => Pending
    case Complete => s
    case NoShow => s
  }

  function NextAppointmentState(a: Action): AppointmentState {
    match a
    case Accept => Confirme
    case Decline => Refuse
    case Cancel => Annule
    case Reschedule(_) => Reporte
    case Complete => Realise
    case NoShow => Absent
  }

  function ApplyDecide(db: Db, c: Ctx, id: Id, action: Action, expectedVersion: int): Outcome
    requires id in db.bookings && id in db.appointments
  {
    var b, a := db.bookings[id], db.appointments[id];
    var start := if action.Reschedule? then action.startsAt else a.startsAt;
    if a.version != expectedVersion then Refused(VersionConflict)
    else if b.state == Declined || b.state == Cancelled || Terminal(a.state) then Refused(TransitionRefused)
    else if (action.Accept? || action.Decline?) && b.state != Pending then Refused(TransitionRefused)
    else if (action.Complete? || action.NoShow?)
        && (b.state != Accepted || a.EndsAt() > c.now) then Refused(TransitionRefused)
    else if (action.Accept? || action.Reschedule?) && start <= c.now then Refused(Invalid)
    else if (action.Accept? || action.Reschedule?)
            && !(SlotOpen(db, b.responsibility, start, a.minutes, c.now)
                 && Free(db, a.Involved(), start, start + a.minutes * MINUTE, Some(id))) then Refused(BookingConflict)
    else
      var a' := a.(startsAt := start, state := NextAppointmentState(action), version := a.version + 1);
      var b' := b.(state := NextBookingState(action, b.state));
      Ok((db.(appointments := db.appointments[id := a'], bookings := db.bookings[id := b']),
          BookingReply(id, b'.state, a'.state, a'.startsAt, a'.version)))
  }

  function ApplyReport(db: Db, c: Ctx, id: Id, expectedVersion: int): Outcome
    requires id in db.bookings && id in db.appointments
  {
    var a := db.appointments[id];
    if a.state != Realise || a.evaluator != Some(c.actor) || a.version != expectedVersion || id in db.reports
    then Refused(ReportRefused)
    else
      var a' := a.(version := a.version + 1);
      Ok((db.(appointments := db.appointments[id := a'], reports := db.reports + {id}),
          BookingReply(id, db.bookings[id].state, a'.state, a'.startsAt, a'.version)))
  }

  /** The checks a request passes before its receipt is looked up. */
  function Precheck(db: Db, c: Ctx, r: Request): Option<Refusal> {
    match r
    case Configure(_, _, v) =>
      if v < 0 then Some(Invalid) else if !c.allowed then Some(Denied) else None
    case CreateWindow(p, _, from, to) =>
      if to <= from || to - from > 7 * DAY then Some(Invalid)
      else if !ProfileActive(db, p) then Some(ProfileInactive)
      else if !c.allowed then Some(Denied) else None
    case WithdrawWindow(w, v) =>
      if v < 1 then Some(Invalid)
      else if w !in db.windows then Some(NotFound)
      else if !ProfileActive(db, db.windows[w].responsibility) then Some(ProfileInactive)
      else if !c.allowed then Some(Denied) else None
    case CreateBooking(p, _, _, minutes, _, participants) =>
      if minutes < 15 || minutes > 480 || |participants| > 20 then Some(Invalid)
      else if !c.allowed then Some(Denied)
      else if !ProfileActive(db, p) then Some(ProfileInactive) else None
    case Report(id, v) =>
      if v < 1 then Some(Invalid)
      else if id !in db.bookings || id !in db.appointments then Some(NotFound)
      else if !ProfileActive(db, db.bookings[id].responsibility) then Some(ProfileInactive)
      else if db.bookings[id].responsibility.user != c.actor || db.appointments[id].organizer == c.actor || !c.allowed
      then Some(Denied) else None
    case Decide(id, a, v) =>
      if v < 1 then Some(Invalid)
      else if id !in db.bookings || id !in db.appointments then Some(NotFound)
      else
        var own := db.bookings[id].responsibility.user == c.actor;
        var requester := db.appointments[id].organizer == c.actor;
        if !c.allowed then Some(Denied)
        else if (!a.Cancel? || (!requester && !c.admin)) && !ProfileActive(db, db.bookings[id].responsibility)
        then Some(ProfileInactive)
        else if !a.Cancel? && !a.Reschedule? then
          if requester then Some(SelfApproval) else if !own && !c.admin then Some(Denied) else None
        else if !own && !c.admin && !requester then Some(Denied) else None
  }

  function Apply(db: Db, c: Ctx, r: Request): Outcome
    requires Precheck(db, c, r) == None
  {
    match r
    case Configure(p, active, v) => ApplyConfigure(db, p, active, v)
    case CreateWindow(p, kind, from, to) => ApplyCreateWindow(db, c, p, kind, from, to)
    case WithdrawWindow(w, v) => ApplyWithdrawWindow(db, w, v)
    case CreateBooking(p, lead, start, minutes, evaluated, participants) =>
      ApplyCreateBooking(db, c, p, lead, start, minutes, evaluated, participants)
    case Decide(id, a, v) => ApplyDecide(db, c, id, a, v)
    case Report(id, v) => ApplyReport(db, c, id, v)
  }

  function KeyOf(c: Ctx, r: Request): ReceiptKey {
    ReceiptKey(c.actor, OperationOf(r), c.key)
  }

  /** One admissions request: authorization, then the idempotent mutation. */
  function Handle(db: Db, c: Ctx, r: Request): Outcome {
    var refusal := Precheck(db, c, r);
    if refusal.Some? then Refused(refusal.value)
    else if KeyOf(c, r) in db.receipts then
      var saved := db.receipts[KeyOf(c, r)];
      if saved.payload != r then Refused(IdempotencyConflict) else Ok((db, saved.reply))
    else
      match Apply(db, c, r)
      case Refused(e) => Refused(e)
      case Ok((db', reply)) => Ok((db'.(receipts := db'.receipts[KeyOf(c, r) := Receipt(r, reply)]), reply))
  }

  // ---------------------------------------------------------------- legacy writer

  /** The transition table of the in-memory appointment service. */
  function Transitions(s: AppointmentState): set<AppointmentState> {
    match s
    case Brouillon => {Planifie, Annule}
    case Planifie => {Confirme, Reporte, Annule, Absent, Refuse}
    case Confirme => {Reporte, Annule, Realise, Absent, Refuse}
    case Reporte => {Confirme, Annule, Absent, Refuse}
    case Annule => {}
    case Realise => {}
    case Absent => {}
    case Refuse => {}
  }

  /** create followed by persistCreate.  `record` is the appointment the service built in memory. */
  function LegacyCreate(db: Db, event: Id, id: Id, record: Appointment, now: int): Result<Db, Refusal> {
    if record.minutes < 15 || record.minutes > 480 || !(record.state == Brouillon || record.state == Planifie)
       || record.version != 1 || record.startsAt <= now then Refused(Invalid)
    else if event in db.events then Ok(db)
    else if exists r :: r in db.responsibilities && r.user == record.adviser && ProfileActive(db, r)
    then Refused(ControlledBookingRequired)
    else if !Free(db, record.Involved(), record.startsAt, record.EndsAt(), None) then Refused(BookingConflict)
    else if id in db.appointments then Refused(UniqueViolation)
    else Ok(db.(appointments := db.appointments[id := record], events := db.events + {event}))
  }

  /** The record the service computes in memory from `cached`, which it keeps before anything is stored. */
  function Computed(cached: Appointment, next: AppointmentState, start: int, now: int): Result<Appointment, Refusal> {
    if next !in Transitions(cached.state) then Refused(TransitionRefused)
    else if (next == Realise || next == Absent) && now < cached.EndsAt() then Refused(Invalid)
    else if next == Reporte && start <= now then Refused(Invalid)
    else
      Ok(cached.(state := next, startsAt := if next == Reporte then start else cached.startsAt,
                 version := cached.version + 1))
  }

  /** persistTransition: the computed record is stored if the table still holds the version before it. */
  function StoreTransition(db: Db, event: Id, id: Id, record: Appointment): Result<Db, Refusal> {
    if event in db.events then Ok(db)
    else if id in db.bookings then Refused(ControlledTransitionRequired)
    else if record.Live() && !Free(db, record.Involved(), record.startsAt, record.EndsAt(), Some(id))
    then Refused(BookingConflict)
    else if id !in db.appointments || db.appointments[id].version != record.version - 1 then Refused(TransitionRefused)
    else
      var row := db.appointments[id].(state := record.state, startsAt := record.startsAt, version := record.version);
      Ok(db.(appointments := db.appointments[id := row], events := db.events + {event}))
  }
}
