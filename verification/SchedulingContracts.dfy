/**
 What each request of the two appointment writers demands and leaves, said in states, instants
 and rows rather than through the checks the writers share.
 */
module SchedulingContracts {
  import opened Prelude
  import opened Scheduling

  // ---------------------------------------------------------------- who is free when

  /** The instant lies in the half-open interval. */
  predicate During(t: int, from: int, to: int) { from <= t < to }

  /** Two intervals that are not empty overlap exactly when some instant lies in both. */
  lemma OverlapIsASharedInstant(s1: int, e1: int, s2: int, e2: int)
    requires s1 < e1 && s2 < e2
    ensures Overlap(s1, e1, s2, e2) <==> exists t :: During(t, s1, e1) && During(t, s2, e2)
  {
    if Overlap(s1, e1, s2, e2) {
      var t := if s1 < s2 then s2 else s1;
      assert During(t, s1, e1) && During(t, s2, e2);
    }
  }

  predicate Final(s: AppointmentState) { s in {Annule, Realise, Absent, Refuse} }

  predicate Attends(a: Appointment, user: UserId) {
    user == a.adviser || user == a.organizer || user in a.participants || a.evaluator == Some(user)
  }

  /** The appointment ends after `from` and starts before `to`. */
  predicate Occupies(a: Appointment, user: UserId, from: int, to: int) {
    !Final(a.state) && Attends(a, user) && a.startsAt < to && from < a.startsAt + a.minutes * 60_000
  }

  predicate Busy(db: Db, user: UserId, from: int, to: int, other: Option<Id>) {
    exists id :: id in db.appointments && other != Some(id) && Occupies(db.appointments[id], user, from, to)
  }

  /** The window is an active block of the designation that ends after `from` and starts before `to`. */
  predicate Shuts(w: Window, r: ResponsibilityId, from: int, to: int) {
    w.active && w.kind == Blocked && w.responsibility == r && w.startsAt < to && from < w.endsAt
  }

  predicate Shut(db: Db, user: UserId, from: int, to: int) {
    exists w :: w in db.windows && db.windows[w].responsibility.user == user
      && Shuts(db.windows[w], db.windows[w].responsibility, from, to)
      && db.windows[w].responsibility in db.responsibilities
      && db.responsibilities[db.windows[w].responsibility].active
  }

  /** None of the users is in another appointment or blocked. */
  predicate AllFree(db: Db, users: set<UserId>, from: int, to: int, other: Option<Id>) {
    forall u :: u in users ==> !Busy(db, u, from, to, other) && !Shut(db, u, from, to)
  }

  lemma BusyIsOccupying(db: Db, users: set<UserId>, from: int, to: int, other: Option<Id>)
    ensures Occupying(db, users, from, to, other) == {} <==> forall u :: u in users ==> !Busy(db, u, from, to, other)
  {
    if u :| u in users && Busy(db, u, from, to, other) {
      var id :| id in db.appointments && other != Some(id) && Occupies(db.appointments[id], u, from, to);
      assert u in db.appointments[id].Involved() * users;
      assert id in Occupying(db, users, from, to, other);
    }
    if id :| id in Occupying(db, users, from, to, other) {
      var u :| u in db.appointments[id].Involved() * users;
      assert Occupies(db.appointments[id], u, from, to);
    }
  }

  lemma ShutIsBlocking(db: Db, users: set<UserId>, from: int, to: int)
    ensures Blocking(db, users, from, to) == {} <==> forall u :: u in users ==> !Shut(db, u, from, to)
  {
    if u :| u in users && Shut(db, u, from, to) {
      var w :| w in db.windows && db.windows[w].responsibility.user == u
        && Shuts(db.windows[w], db.windows[w].responsibility, from, to)
        && db.windows[w].responsibility in db.responsibilities
        && db.responsibilities[db.windows[w].responsibility].active;
      assert w in Blocking(db, users, from, to);
    }
    if w :| w in Blocking(db, users, from, to) {
      assert Shut(db, db.windows[w].responsibility.user, from, to);
    }
  }

  lemma FreeIsAllFree(db: Db, users: set<UserId>, from: int, to: int, other: Option<Id>)
    ensures Free(db, users, from, to, other) <==> AllFree(db, users, from, to, other)
  {
    BusyIsOccupying(db, users, from, to, other);
    ShutIsBlocking(db, users, from, to);
  }

  /** The window holds the whole interval for the designation. */
  predicate Holds(v: Window, r: ResponsibilityId, from: int, to: int) {
    v.active && v.kind == Available && v.responsibility == r && v.startsAt <= from && to <= v.endsAt
  }

  /** One available window of the designation holds the whole interval, and none of its blocks touches it. */
  predicate Offered(windows: map<Id, Window>, r: ResponsibilityId, from: int, to: int) {
    && (exists w :: w in windows && Holds(windows[w], r, from, to))
    && (forall w :: w in windows ==> !Shuts(windows[w], r, from, to))
  }

  lemma OfferedIsOpen(db: Db, r: ResponsibilityId, start: int, minutes: int, now: int)
    ensures SlotOpen(db, r, start, minutes, now)
       <==> now < start && Offered(db.windows, r, start, start + minutes * 60_000)
  {
    var from, to := start, start + minutes * 60_000;
    if w :| w in db.windows && Shuts(db.windows[w], r, from, to) {
      assert OwnBlock(db.windows, r, from, to);
    }
    if w :| w in db.windows && Holds(db.windows[w], r, from, to) {
      assert Offers(db.windows[w], r, from, to);
    }
    if OwnBlock(db.windows, r, from, to) {
      var w :| w in db.windows && db.windows[w].active && db.windows[w].kind == Blocked
               && db.windows[w].responsibility == r && Overlap(db.windows[w].startsAt, db.windows[w].endsAt, from, to);
      assert Shuts(db.windows[w], r, from, to);
    }
  }

  /** The designation is active and its user has an active account. */
  predicate Designated(db: Db, r: ResponsibilityId) {
    r in db.responsibilities && db.responsibilities[r].active && r.user in db.accounts
  }

  // ---------------------------------------------------------------- receipts

  /** A new key passes the request on, and the answer is recorded under it. */
  lemma Recorded(db: Db, c: Ctx, q: Request, op: Operation)
    requires Precheck(db, c, q) == None && OperationOf(q) == op && ReceiptKey(c.actor, op, c.key) !in db.receipts
    ensures Handle(db, c, q).Ok? <==> Apply(db, c, q).Ok?
    ensures Handle(db, c, q).Ok? ==>
      Handle(db, c, q) == Ok((WithReceipt(Apply(db, c, q).value.0, c, q, op, Apply(db, c, q).value.1),
                              Apply(db, c, q).value.1))
  {
  }

  function WithReceipt(db: Db, c: Ctx, q: Request, op: Operation, reply: Reply): Db {
    db.(receipts := db.receipts[ReceiptKey(c.actor, op, c.key) := Receipt(q, reply)])
  }

  // ---------------------------------------------------------------- bookings

  predicate BookingAllowed(db: Db, c: Ctx, r: ResponsibilityId, start: int, minutes: int, participants: set<UserId>) {
    var end := start + minutes * 60_000;
    && c.allowed && Designated(db, r) && 15 <= minutes <= 480 && |participants| <= 20 && c.now < start
    && Offered(db.windows, r, start, end) && AllFree(db, {r.user, c.actor} + participants, start, end, None)
    && c.newId !in db.appointments && c.newId !in db.bookings
  }

  /** The two rows a booking adds, and its receipt. */
  predicate Booked(db: Db, db': Db, c: Ctx, q: Request, reply: Reply)
    requires q.CreateBooking?
  {
    && db'.appointments == db.appointments[c.newId :=
         Appointment(q.lead, q.startsAt, q.minutes, q.responsibility.user, c.actor,
                     if q.evaluated then Some(q.responsibility.user) else None, q.participants, Planifie, 1)]
    && db'.bookings == db.bookings[c.newId := Booking(q.responsibility, Pending)]
    && reply == BookingReply(c.newId, Pending, Planifie, q.startsAt, 1)
    && db'.receipts == db.receipts[ReceiptKey(c.actor, BookingCreateOp, c.key) := Receipt(q, reply)]
    && db' == db.(appointments := db'.appointments, bookings := db'.bookings, receipts := db'.receipts)
  }

  /**
   A new booking succeeds exactly when its caller is allowed, the designation offers the whole
   interval and everybody is free in it; it leaves a planned appointment and a pending booking.
   */
  lemma BookingContract(db: Db, c: Ctx, q: Request)
    requires q.CreateBooking? && ReceiptKey(c.actor, BookingCreateOp, c.key) !in db.receipts
    ensures Handle(db, c, q).Ok? <==> BookingAllowed(db, c, q.responsibility, q.startsAt, q.minutes, q.participants)
    ensures Handle(db, c, q).Ok? ==> Booked(db, Handle(db, c, q).value.0, c, q, Handle(db, c, q).value.1)
  {
    if Precheck(db, c, q) == None {
      BookingIsAllowed(db, c, q);
      Recorded(db, c, q, BookingCreateOp);
    }
  }

  lemma BookingIsAllowed(db: Db, c: Ctx, q: Request)
    requires q.CreateBooking? && Precheck(db, c, q) == None
    ensures Apply(db, c, q).Ok? <==> BookingAllowed(db, c, q.responsibility, q.startsAt, q.minutes, q.participants)
  {
    var users := {q.responsibility.user, c.actor} + q.participants;
    FreeIsAllFree(db, users, q.startsAt, q.startsAt + q.minutes * 60_000, None);
    OfferedIsOpen(db, q.responsibility, q.startsAt, q.minutes, c.now);
  }

  /** The appointment is over for the user by `from`, or starts at `to` or later, or is none of the user's. */
  predicate Clears(a: Appointment, user: UserId, from: int, to: int) {
    Final(a.state) || !Attends(a, user) || a.startsAt + a.minutes * 60_000 <= from || to <= a.startsAt
  }

  predicate BlockClears(w: Window, user: UserId, from: int, to: int) {
    !w.active || w.kind != Blocked || w.responsibility.user != user || w.endsAt <= from || to <= w.startsAt
  }

  /** An appointment or a block that only touches an interval does not occupy it. */
  lemma TouchingIsFree(db: Db, users: set<UserId>, from: int, to: int, other: Option<Id>)
    requires forall id, u :: id in db.appointments && other != Some(id) && u in users ==>
      Clears(db.appointments[id], u, from, to)
    requires forall w, u :: w in db.windows && u in users ==> BlockClears(db.windows[w], u, from, to)
    ensures Free(db, users, from, to, other)
  {
    FreeIsAllFree(db, users, from, to, other);
    forall u | u in users ensures !Busy(db, u, from, to, other) && !Shut(db, u, from, to) {
      assert forall id :: id in db.appointments && other != Some(id) ==> Clears(db.appointments[id], u, from, to);
      assert forall w :: w in db.windows ==> BlockClears(db.windows[w], u, from, to);
    }
  }

  // ---------------------------------------------------------------- decisions

  predicate DecisionOp(a: Action, op: Operation) {
    match a
    case Accept => op == AcceptOp
    case Decline => op == RefuseOp
    case Cancel => op == CancelOp
    case Reschedule(_) => op == RescheduleOp
    case Complete => op == CompleteOp
    case NoShow => op == NoShowOp
  }

  /**
   The responsible user or an administrator decides; only reschedulings and cancellations are
   also the requester's, and a requester never decides on an own request otherwise.
   */
  predicate MayDecide(db: Db, c: Ctx, b: Booking, a: Appointment, action: Action) {
    && c.allowed
    && match action
       case Cancel => c.actor == a.organizer || c.admin
           || (c.actor == b.responsibility.user && Designated(db, b.responsibility))
       case Reschedule(_) => (c.actor in {a.organizer, b.responsibility.user} || c.admin)
           && Designated(db, b.responsibility)
       case _ =>
         && c.actor != a.organizer && (c.actor == b.responsibility.user || c.admin)
         && Designated(db, b.responsibility)
  }

  /** The booking and its appointment allow the action now. */
  ghost predicate Decidable(db: Db, c: Ctx, id: Id, b: Booking, a: Appointment, action: Action) {
    && !Final(a.state)
    && match action
       case Accept => b.state == Pending && PlaceFor(db, c, id, b, a, a.startsAt)
       case Decline => b.state == Pending
       case Cancel => b.state in {Pending, Accepted}
       case Reschedule(start) => b.state in {Pending, Accepted} && PlaceFor(db, c, id, b, a, start)
       case Complete => b.state == Accepted && a.startsAt + a.minutes * 60_000 <= c.now
       case NoShow => b.state == Accepted && a.startsAt + a.minutes * 60_000 <= c.now
  }

  /** The appointment, at this start, lies ahead, is offered, and everybody in it is free of the others. */
  ghost predicate PlaceFor(db: Db, c: Ctx, id: Id, b: Booking, a: Appointment, start: int) {
    var end := start + a.minutes * 60_000;
    && c.now < start && Offered(db.windows, b.responsibility, start, end)
    && forall u :: Attends(a, u) ==> !Busy(db, u, start, end, Some(id)) && !Shut(db, u, start, end)
  }

  predicate Outcome(action: Action, before: Appointment, b: BookingState, s: AppointmentState, start: int) {
    match action
    case Accept => b == Accepted && s == Confirme && start == before.startsAt
    case Decline => b == Declined && s == Refuse && start == before.startsAt
    case Cancel => b == Cancelled && s == Annule && start == before.startsAt
    case Reschedule(at) => b == Pending && s == Reporte && start == at
    case Complete => b == Accepted && s == Realise && start == before.startsAt
    case NoShow => b == Accepted && s == Absent && start == before.startsAt
  }

  lemma AllAttend(a: Appointment)
    ensures forall u :: u in a.Involved() <==> Attends(a, u)
  {
  }

  lemma WhoMayDecide(db: Db, c: Ctx, q: Request)
    requires q.Decide?
    ensures Precheck(db, c, q) == None <==>
      && q.expectedVersion >= 1 && q.appointment in db.bookings && q.appointment in db.appointments
      && MayDecide(db, c, db.bookings[q.appointment], db.appointments[q.appointment], q.action)
  {
  }

  lemma PlaceIsFree(db: Db, c: Ctx, id: Id, b: Booking, a: Appointment, start: int)
    ensures PlaceFor(db, c, id, b, a, start) <==>
      && SlotOpen(db, b.responsibility, start, a.minutes, c.now)
      && Free(db, a.Involved(), start, start + a.minutes * MINUTE, Some(id))
  {
    FreeIsAllFree(db, a.Involved(), start, start + a.minutes * 60_000, Some(id));
    OfferedIsOpen(db, b.responsibility, start, a.minutes, c.now);
    AllAttend(a);
  }

  lemma WhatMayBeDecided(db: Db, c: Ctx, id: Id, action: Action, version: int)
    requires id in db.bookings && id in db.appointments
    ensures ApplyDecide(db, c, id, action, version).Ok? <==>
      db.appointments[id].version == version && Decidable(db, c, id, db.bookings[id], db.appointments[id], action)
  {
    var a, b := db.appointments[id], db.bookings[id];
    PlaceIsFree(db, c, id, b, a, if action.Reschedule? then action.startsAt else a.startsAt);
  }

  /** The rows and the reply of a decision, before its receipt. */
  predicate Settled(db: Db, db': Db, id: Id, action: Action, reply: Reply) {
    && id in db.appointments && id in db.bookings && id in db'.appointments && id in db'.bookings
    && var a, b, a', b' := db.appointments[id], db.bookings[id], db'.appointments[id], db'.bookings[id];
    && Outcome(action, a, b'.state, a'.state, a'.startsAt) && a'.version == a.version + 1
    && a' == a.(startsAt := a'.startsAt, state := a'.state, version := a'.version) && b' == b.(state := b'.state)
    && reply == BookingReply(id, b'.state, a'.state, a'.startsAt, a'.version)
    && db' == db.(appointments := db.appointments[id := a'], bookings := db.bookings[id := b'])
  }

  lemma WhatIsDecided(db: Db, c: Ctx, id: Id, action: Action, version: int)
    requires id in db.bookings && id in db.appointments && ApplyDecide(db, c, id, action, version).Ok?
    ensures var (db', reply) := ApplyDecide(db, c, id, action, version).value; Settled(db, db', id, action, reply)
  {
  }

  /** What a decision leaves: the rows and the reply of its outcome, and a receipt for both. */
  predicate Decided(db: Db, db': Db, c: Ctx, q: Request, op: Operation, reply: Reply)
    requires q.Decide?
  {
    && Settled(db, db'.(receipts := db.receipts), q.appointment, q.action, reply)
    && db'.receipts == db.receipts[ReceiptKey(c.actor, op, c.key) := Receipt(q, reply)]
  }

  /**
   A new decision succeeds exactly when its caller may take it, the version is the one seen and the
   booking allows the action; it leaves the outcome of that action.
   */
  lemma DecisionContract(db: Db, c: Ctx, q: Request, op: Operation)
    requires q.Decide? && DecisionOp(q.action, op) && ReceiptKey(c.actor, op, c.key) !in db.receipts
    ensures Handle(db, c, q).Ok? <==>
      && q.expectedVersion >= 1 && q.appointment in db.bookings && q.appointment in db.appointments
      && db.appointments[q.appointment].version == q.expectedVersion
      && MayDecide(db, c, db.bookings[q.appointment], db.appointments[q.appointment], q.action)
      && Decidable(db, c, q.appointment, db.bookings[q.appointment], db.appointments[q.appointment], q.action)
    ensures Handle(db, c, q).Ok? ==> Decided(db, Handle(db, c, q).value.0, c, q, op, Handle(db, c, q).value.1)
  {
    WhoMayDecide(db, c, q);
    if Precheck(db, c, q) == None {
      Recorded(db, c, q, op);
      WhatMayBeDecided(db, c, q.appointment, q.action, q.expectedVersion);
      if Apply(db, c, q).Ok? {
        WhatIsDecided(db, c, q.appointment, q.action, q.expectedVersion);
      }
    }
  }

  /**
   Why an admitted new request for a place is refused: it does not lie ahead, or else its place is
   not offered or somebody is not free, or else the new identifier is taken.
   */
  lemma BookingRefusals(db: Db, c: Ctx, q: Request)
    requires q.CreateBooking? && Precheck(db, c, q) == None
    requires ReceiptKey(c.actor, BookingCreateOp, c.key) !in db.receipts
    ensures q.startsAt <= c.now ==> Handle(db, c, q) == Refused(Invalid)
    ensures var end := q.startsAt + q.minutes * 60_000;
      c.now < q.startsAt && !(Offered(db.windows, q.responsibility, q.startsAt, end)
                              && AllFree(db, {q.responsibility.user, c.actor} + q.participants, q.startsAt, end,
                                         None)) ==>
        Handle(db, c, q) == Refused(BookingConflict)
  {
    var users := {q.responsibility.user, c.actor} + q.participants;
    FreeIsAllFree(db, users, q.startsAt, q.startsAt + q.minutes * 60_000, None);
    OfferedIsOpen(db, q.responsibility, q.startsAt, q.minutes, c.now);
  }

  /** Why an admitted new decision is refused: the version, then the state, then the start, then the place. */
  lemma DecisionRefusals(db: Db, c: Ctx, q: Request, op: Operation)
    requires q.Decide? && DecisionOp(q.action, op) && ReceiptKey(c.actor, op, c.key) !in db.receipts
    requires Precheck(db, c, q) == None && Handle(db, c, q).Refused?
    ensures var a, b := db.appointments[q.appointment], db.bookings[q.appointment];
      var start := if q.action.Reschedule? then q.action.startsAt else a.startsAt;
      Handle(db, c, q) == Refused(
        if a.version != q.expectedVersion then VersionConflict
        else if Final(a.state) || b.state in {Declined, Cancelled}
            || (q.action in {Accept, Decline} && b.state != Pending)
                || (q.action in {Complete, NoShow} && (b.state != Accepted || c.now < a.startsAt + a.minutes * 60_000))
        then TransitionRefused
        else if start <= c.now then Invalid
        else BookingConflict)
  {
    WhoMayDecide(db, c, q);
    Recorded(db, c, q, op);
  }

  // ---------------------------------------------------------------- windows, designations, reports

  /** A new window is stored as asked for; a block also needs its user to be free of appointments and other blocks. */
  lemma WindowContract(db: Db, c: Ctx, q: Request)
    requires q.CreateWindow? && ReceiptKey(c.actor, WindowCreateOp, c.key) !in db.receipts
    ensures Handle(db, c, q).Ok? <==>
      && c.allowed && Designated(db, q.responsibility) && c.newId !in db.windows
      && q.startsAt < q.endsAt <= q.startsAt + 7 * 86_400_000 && c.now < q.endsAt
      && (q.kind == Blocked ==> AllFree(db, {q.responsibility.user}, q.startsAt, q.endsAt, None))
    ensures Handle(db, c, q).Ok? ==>
      var reply := WindowReply(c.newId, true, 1);
      Handle(db, c, q).value ==
        (WithReceipt(db.(windows := db.windows[c.newId :=
           Window(q.responsibility, q.kind, q.startsAt, q.endsAt, true, 1)]), c, q, WindowCreateOp, reply), reply)
  {
    FreeIsAllFree(db, {q.responsibility.user}, q.startsAt, q.endsAt, None);
  }

  /** A pending or accepted booking of the window's designation meets it, and no other window holds it. */
  predicate HeldBy(db: Db, w: Id, id: Id)
    requires w in db.windows
  {
    && id in db.bookings && id in db.appointments && db.bookings[id].state in {Pending, Accepted}
    && db.bookings[id].responsibility == db.windows[w].responsibility && !Final(db.appointments[id].state)
    && var from, to := db.appointments[id].startsAt, db.appointments[id].startsAt
          + db.appointments[id].minutes * 60_000;
    && from < db.windows[w].endsAt && db.windows[w].startsAt < to
    && forall v :: v in db.windows && v != w ==> !Holds(db.windows[v], db.windows[w].responsibility, from, to)
  }

  lemma HeldIsStranded(db: Db, w: Id, id: Id)
    requires w in db.windows
    ensures HeldBy(db, w, id) <==> StrandedBy(db, w, id)
  {
    if id in db.appointments {
      var rest, r, from := db.windows - {w}, db.windows[w].responsibility, db.appointments[id].startsAt;
      var to := from + db.appointments[id].minutes * 60_000;
      if v :| v in db.windows && v != w && Holds(db.windows[v], r, from, to) {
        assert v in rest && Offers(rest[v], r, from, to);
      }
      if InsideWindow(rest, r, from, to) {
        var v :| v in rest && Offers(rest[v], r, from, to);
        assert Holds(db.windows[v], r, from, to);
      }
    }
  }

  /** A window is withdrawn at the version seen, unless it alone holds a booking. */
  lemma WithdrawalContract(db: Db, c: Ctx, q: Request)
    requires q.WithdrawWindow? && ReceiptKey(c.actor, WindowWithdrawOp, c.key) !in db.receipts
    ensures Handle(db, c, q).Ok? <==>
      && c.allowed && q.expectedVersion >= 1 && q.window in db.windows
      && Designated(db, db.windows[q.window].responsibility)
      && db.windows[q.window].active && db.windows[q.window].version == q.expectedVersion
      && (db.windows[q.window].kind == Available ==> forall id :: id in db.bookings ==> !HeldBy(db, q.window, id))
    ensures Handle(db, c, q).Ok? ==>
      var reply := WindowReply(q.window, false, q.expectedVersion + 1);
      Handle(db, c, q).value ==
        (WithReceipt(db.(windows := db.windows[q.window :=
           db.windows[q.window].(active := false, version := q.expectedVersion + 1)]), c, q, WindowWithdrawOp, reply),
         reply)
  {
    if q.window in db.windows {
      forall id | id in db.bookings ensures HeldBy(db, q.window, id) <==> StrandedBy(db, q.window, id) {
        HeldIsStranded(db, q.window, id);
      }
    }
  }

  /** A designation is switched at the version seen, zero for a new one. */
  lemma ConfigurationContract(db: Db, c: Ctx, q: Request)
    requires q.Configure? && ReceiptKey(c.actor, ResponsibilityOp, c.key) !in db.receipts
    ensures Handle(db, c, q).Ok? <==>
      && c.allowed && q.expectedVersion >= 0
      && (if q.responsibility in db.responsibilities
          then db.responsibilities[q.responsibility].version == q.expectedVersion
          else q.expectedVersion == 0)
    ensures Handle(db, c, q).Ok? ==>
      var reply := ResponsibilityReply(q.responsibility, q.active, q.expectedVersion + 1);
      Handle(db, c, q).value ==
        (WithReceipt(db.(responsibilities := db.responsibilities[q.responsibility :=
           Responsibility(q.active, q.expectedVersion + 1)]), c, q, ResponsibilityOp, reply), reply)
  {
  }

  /** Only the evaluator, who is the responsible user and not the requester, reports once, on a held appointment. */
  lemma ReportContract(db: Db, c: Ctx, q: Request)
    requires q.Report? && ReceiptKey(c.actor, BookingReportOp, c.key) !in db.receipts
    ensures Handle(db, c, q).Ok? <==>
      && c.allowed && q.expectedVersion >= 1 && q.appointment in db.bookings && q.appointment in db.appointments
      && q.appointment !in db.reports
      && var a, b := db.appointments[q.appointment], db.bookings[q.appointment];
      && Designated(db, b.responsibility) && c.actor == b.responsibility.user && c.actor != a.organizer
      && a.evaluator == Some(c.actor) && a.state == Realise && a.version == q.expectedVersion
    ensures Handle(db, c, q).Ok? ==>
      var a, b := db.appointments[q.appointment], db.bookings[q.appointment];
      var reply := BookingReply(q.appointment, b.state, Realise, a.startsAt, q.expectedVersion + 1);
      Handle(db, c, q).value ==
        (WithReceipt(db.(appointments := db.appointments[q.appointment := a.(version := q.expectedVersion + 1)],
                         reports := db.reports + {q.appointment}), c, q, BookingReportOp, reply), reply)
  {
  }

  /** A key used again, by a caller still admitted, is answered from its receipt or refused; nothing is written. */
  lemma ReplayContract(db: Db, c: Ctx, q: Request, k: ReceiptKey)
    requires Precheck(db, c, q) == None && k.actor == c.actor && k.key == c.key && k in db.receipts
    requires match q
      case Configure(_, _, _) => k.operation == ResponsibilityOp
      case CreateWindow(_, _, _, _) => k.operation == WindowCreateOp
      case WithdrawWindow(_, _) => k.operation == WindowWithdrawOp
      case CreateBooking(_, _, _, _, _, _) => k.operation == BookingCreateOp
      case Report(_, _) => k.operation == BookingReportOp
      case Decide(_, a, _) => DecisionOp(a, k.operation)
    ensures db.receipts[k].payload == q ==> Handle(db, c, q) == Ok((db, db.receipts[k].reply))
    ensures db.receipts[k].payload != q ==> Handle(db, c, q) == Refused(IdempotencyConflict)
  {
  }

  // ---------------------------------------------------------------- the second writer

  /**
   A directly planned appointment is stored as built exactly when it is new, lies ahead, is of an
   allowed length, its adviser has no active designation, and everybody in it is free.
   */
  lemma PlanningContract(db: Db, event: Id, id: Id, record: Appointment, now: int)
    requires event !in db.events
    ensures LegacyCreate(db, event, id, record, now).Ok? <==>
      && 15 <= record.minutes <= 480 && record.state in {Brouillon, Planifie} && record.version == 1
      && now < record.startsAt && id !in db.appointments
      && (forall r :: r in db.responsibilities && r.user == record.adviser ==> !Designated(db, r))
      && forall u :: Attends(record, u) ==>
           && !Busy(db, u, record.startsAt, record.startsAt + record.minutes * 60_000, None)
           && !Shut(db, u, record.startsAt, record.startsAt + record.minutes * 60_000)
    ensures LegacyCreate(db, event, id, record, now).Ok? ==>
      LegacyCreate(db, event, id, record, now).value ==
        db.(appointments := db.appointments[id := record], events := db.events + {event})
  {
    FreeIsAllFree(db, record.Involved(), record.startsAt, record.startsAt + record.minutes * 60_000, None);
    AllAttend(record);
  }

  /**
   A transition is computed exactly when it moves forward: a draft is planned or dropped, a planned
   or moved appointment confirmed, moved or closed, and only a confirmed one held; nothing leaves a
   final state.  An outcome waits for the end, and a new start lies ahead.
   */
  lemma TransitionContract(a: Appointment, next: AppointmentState, start: int, now: int)
    ensures Computed(a, next, start, now).Ok? <==>
      && (next == Planifie ==> a.state == Brouillon)
      && (next == Confirme ==> a.state in {Planifie, Reporte})
      && (next == Reporte ==> a.state in {Planifie, Confirme} && now < start)
      && (next == Realise ==> a.state == Confirme)
      && (next in {Absent, Refuse} ==> a.state in {Planifie, Confirme, Reporte})
      && (next in {Realise, Absent} ==> a.startsAt + a.minutes * 60_000 <= now)
      && !Final(a.state) && next != Brouillon
    ensures Computed(a, next, start, now).Ok? ==>
      Computed(a, next, start, now).value ==
        a.(state := next, startsAt := if next == Reporte then start else a.startsAt, version := a.version + 1)
  {
  }

  /**
   A computed record is stored exactly when no booking controls the row, the row has the version
   before it, and the people of a record that is not final are free.
   */
  lemma StoringContract(db: Db, event: Id, id: Id, record: Appointment)
    requires event !in db.events
    ensures StoreTransition(db, event, id, record).Ok? <==>
      && id !in db.bookings && id in db.appointments && record.version == db.appointments[id].version + 1
      && (!Final(record.state) ==>
            forall u :: Attends(record, u) ==>
              && !Busy(db, u, record.startsAt, record.startsAt + record.minutes * 60_000, Some(id))
              && !Shut(db, u, record.startsAt, record.startsAt + record.minutes * 60_000))
    ensures StoreTransition(db, event, id, record).Ok? ==>
      StoreTransition(db, event, id, record).value ==
        db.(appointments := db.appointments[id :=
              db.appointments[id].(state := record.state, startsAt := record.startsAt, version := record.version)],
            events := db.events + {event})
  {
    FreeIsAllFree(db, record.Involved(), record.startsAt, record.startsAt + record.minutes * 60_000, Some(id));
    AllAttend(record);
  }

  /** An event key used again writes nothing. */
  lemma RepeatedEventsWriteNothing(db: Db, event: Id, id: Id, record: Appointment, now: int)
    requires event in db.events
    ensures StoreTransition(db, event, id, record) == Ok(db)
    ensures LegacyCreate(db, event, id, record, now) == Ok(db)
        || LegacyCreate(db, event, id, record, now) == Refused(Invalid)
  {
  }
}
