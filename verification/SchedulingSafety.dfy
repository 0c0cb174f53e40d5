/**
 What every run of the two appointment writers keeps.  A run interleaves admissions
 requests, legacy creations and transitions, cache refreshes and account changes in
 any order; refused transactions leave the tables as they were.
 */
module SchedulingSafety {
  import opened Prelude
  import opened Collections
  import opened Scheduling

  /** The tables plus every record some server process holds in its cache, read from the tables or not stored yet. */
  datatype System = System(db: Db, seen: set<(Id, Appointment)>)

  datatype Step =
    | Admissions(ctx: Ctx, request: Request)
    | Create(event: Id, id: Id, record: Appointment, now: int)
    | Refresh
    | Compute(id: Id, cached: Appointment, next: AppointmentState, start: int, now: int)
    | Store(event: Id, id: Id, record: Appointment)
    | SetAccounts(accounts: set<UserId>)

  function Rows(db: Db): set<(Id, Appointment)> {
    set id | id in db.appointments :: (id, db.appointments[id])
  }

  function Next(s: System, step: Step): System {
    match step
    case Admissions(c, r) => (match Handle(s.db, c, r) case Ok((db', _)) => s.(db := db') case Refused(_) => s)
    case Create(event, id, record, now) =>
      (match LegacyCreate(s.db, event, id, record, now) case Ok(db') => s.(db := db') case Refused(_) => s)
    case Refresh => s.(seen := s.seen + Rows(s.db))
    case Compute(id, cached, next, start, now) =>
      if (id, cached) !in s.seen then s
      else (match Computed(cached, next, start, now) case Ok(record) => s.(seen := s.seen + {(id, record)})
          case Refused(_) => s)
    case Store(event, id, record) =>
      if (id, record) !in s.seen then s
      else (match StoreTransition(s.db, event, id, record) case Ok(db') => s.(db := db') case Refused(_) => s)
    case SetAccounts(accounts) => s.(db := s.db.(accounts := accounts))
  }

  function Run(s: System, steps: seq<Step>): System
    decreases |steps|
  {
    if steps == [] then s else Run(Next(s, steps[0]), steps[1..])
  }

  function Empty(): System {
    System(Db(map[], map[], map[], map[], {}, {}, map[], {}), {})
  }

  // ---------------------------------------------------------------- invariants

  ghost predicate Clash(a: Appointment, b: Appointment) {
    && a.Live() && b.Live() && a.Involved() * b.Involved() != {}
    && Overlap(a.startsAt, a.EndsAt(), b.startsAt, b.EndsAt())
  }

  /** Nobody is in two live appointments at once. */
  ghost predicate NoDoubleBooking(db: Db) {
    forall i, j :: i in db.appointments && j in db.appointments && i != j ==>
      !Clash(db.appointments[i], db.appointments[j])
  }

  predicate LockstepPair(b: BookingState, a: AppointmentState) {
    match b
    case Pending => a == Planifie || a == Reporte
    case Accepted => a == Confirme || a == Realise || a == Absent
    case Declined => a == Refuse
    case Cancelled => a == Annule
  }

  /** Booking and appointment states move together. */
  ghost predicate Lockstep(db: Db) {
    forall id :: id in db.bookings ==>
      && id in db.appointments
      && LockstepPair(db.bookings[id].state, db.appointments[id].state)
      && db.appointments[id].adviser == db.bookings[id].responsibility.user
  }

  /** Every live booking lies wholly inside one active AVAILABLE window of its responsibility. */
  ghost predicate Covered(db: Db) {
    forall id :: id in db.bookings && id in db.appointments && db.appointments[id].Live() ==>
      InsideWindow(db.windows, db.bookings[id].responsibility, db.appointments[id].startsAt,
                   db.appointments[id].EndsAt())
  }

  ghost predicate Durations(db: Db) {
    forall id :: id in db.appointments ==> 15 <= db.appointments[id].minutes <= 480
  }

  /** A cached record names a stored appointment and agrees with it on everything no writer changes. */
  ghost predicate CacheSound(s: System) {
    forall id, a :: (id, a) in s.seen ==> id in s.db.appointments && a.SameParty(s.db.appointments[id])
  }

  /** A window belongs to a recorded designation. */
  ghost predicate WindowsOwned(db: Db) {
    forall w :: w in db.windows ==> db.windows[w].responsibility in db.responsibilities
  }

  ghost predicate Inv(s: System) {
    && WindowsOwned(s.db) && NoDoubleBooking(s.db) && Lockstep(s.db) && Covered(s.db) && Durations(s.db)
    && CacheSound(s)
  }

  // ---------------------------------------------------------------- one row is placed

  /** What a writer checks before it stores the live row `a` under `id`. */
  ghost predicate Placeable(db: Db, id: Id, a: Appointment) {
    a.Live() ==> Occupying(db, a.Involved(), a.startsAt, a.EndsAt(), Some(id)) == {}
  }

  lemma PlacedRowDoesNotClash(db: Db, id: Id, a: Appointment, j: Id)
    requires Placeable(db, id, a) && j in db.appointments && j != id
    ensures !Clash(a, db.appointments[j])
  {
    assert Clash(a, db.appointments[j]) ==> j in Occupying(db, a.Involved(), a.startsAt, a.EndsAt(), Some(id));
  }

  lemma PlacingKeepsNoDoubleBooking(db: Db, db': Db, id: Id, a: Appointment)
    requires NoDoubleBooking(db) && Placeable(db, id, a)
    requires db'.appointments == db.appointments[id := a]
    ensures NoDoubleBooking(db')
  {
    forall i, j | i in db'.appointments && j in db'.appointments && i != j
      ensures !Clash(db'.appointments[i], db'.appointments[j])
    {
      if i == id {
        PlacedRowDoesNotClash(db, id, a, j);
      } else if j == id {
        PlacedRowDoesNotClash(db, id, a, i);
      }
    }
  }

  lemma FreeIsPlaceable(db: Db, id: Id, a: Appointment, exclude: Option<Id>)
    requires Occupying(db, a.Involved(), a.startsAt, a.EndsAt(), exclude) == {}
    requires exclude == Some(id) || (exclude == None && id !in db.appointments)
    ensures Placeable(db, id, a)
  {
    assert Occupying(db, a.Involved(), a.startsAt, a.EndsAt(), Some(id)) <= Occupying(db, a.Involved(), a.startsAt,
        a.EndsAt(), exclude);
  }

  /** The row stored under `id` is the same appointment to every cache. */
  lemma PlacingKeepsCacheSound(s: System, s': System, id: Id, a: Appointment)
    requires CacheSound(s) && s'.seen == s.seen && s'.db.appointments == s.db.appointments[id := a]
    requires id in s.db.appointments ==> a.SameParty(s.db.appointments[id])
    ensures CacheSound(s')
  {
  }

  // ---------------------------------------------------------------- steps

  lemma CreateBookingKeepsInv(s: System, c: Ctx, r: Request, db': Db, reply: Reply)
    requires Inv(s) && r.CreateBooking? && Precheck(s.db, c, r) == None && Apply(s.db, c, r) == Ok((db', reply))
    ensures Inv(s.(db := db'))
  {
    var id := c.newId;
    var a := db'.appointments[id];
    assert a.Involved() == {r.responsibility.user, c.actor} + r.participants;
    FreeIsPlaceable(s.db, id, a, None);
    PlacingKeepsNoDoubleBooking(s.db, db', id, a);
    PlacingKeepsCacheSound(s, s.(db := db'), id, a);
  }

  /** A decision changes one booking and its appointment; every other row is untouched. */
  lemma DecideKeepsDisjointness(s: System, c: Ctx, id: Id, action: Action, v: int, db': Db, reply: Reply)
    requires Inv(s) && id in s.db.bookings && id in s.db.appointments
    requires ApplyDecide(s.db, c, id, action, v) == Ok((db', reply))
    ensures NoDoubleBooking(db') && CacheSound(s.(db := db'))
  {
    var a' := db'.appointments[id];
    assert a'.Involved() == s.db.appointments[id].Involved();
    if a'.Live() {
      FreeIsPlaceable(s.db, id, a', Some(id));
    }
    PlacingKeepsNoDoubleBooking(s.db, db', id, a');
    PlacingKeepsCacheSound(s, s.(db := db'), id, a');
  }

  lemma DecideKeepsCovered(db: Db, c: Ctx, id: Id, action: Action, v: int, db': Db, reply: Reply)
    requires Covered(db) && Lockstep(db) && id in db.bookings && id in db.appointments
    requires ApplyDecide(db, c, id, action, v) == Ok((db', reply))
    ensures Covered(db') && Lockstep(db')
  {
    assert db'.windows == db.windows;
    var a' := db'.appointments[id];
    if a'.Live() {
      assert SlotOpen(db, db.bookings[id].responsibility, a'.startsAt, a'.minutes, c.now);
    }
  }

  lemma DecideKeepsInv(s: System, c: Ctx, r: Request, db': Db, reply: Reply)
    requires Inv(s) && r.Decide? && Precheck(s.db, c, r) == None && Apply(s.db, c, r) == Ok((db', reply))
    ensures Inv(s.(db := db'))
  {
    DecideKeepsDisjointness(s, c, r.appointment, r.action, r.expectedVersion, db', reply);
    DecideKeepsCovered(s.db, c, r.appointment, r.action, r.expectedVersion, db', reply);
  }

  lemma ReportKeepsInv(s: System, c: Ctx, r: Request, db': Db, reply: Reply)
    requires Inv(s) && r.Report? && Precheck(s.db, c, r) == None && Apply(s.db, c, r) == Ok((db', reply))
    ensures Inv(s.(db := db'))
  {
    var id := r.appointment;
    PlacingKeepsNoDoubleBooking(s.db, db', id, db'.appointments[id]);
    PlacingKeepsCacheSound(s, s.(db := db'), id, db'.appointments[id]);
  }

  /** A booking that survives the withdrawal check is offered by another window. */
  lemma WithdrawKeepsCovered(db: Db, id: Id, v: int, db': Db, reply: Reply)
    requires Covered(db) && Lockstep(db) && Durations(db) && id in db.windows
    requires ApplyWithdrawWindow(db, id, v) == Ok((db', reply))
    ensures Covered(db')
  {
    forall b | b in db'.bookings && b in db'.appointments && db'.appointments[b].Live()
      ensures InsideWindow(db'.windows, db'.bookings[b].responsibility, db'.appointments[b].startsAt,
                           db'.appointments[b].EndsAt())
    {
      var a, p := db.appointments[b], db.bookings[b].responsibility;
      assert InsideWindow(db.windows, p, a.startsAt, a.EndsAt());
      var w :| w in db.windows && Offers(db.windows[w], p, a.startsAt, a.EndsAt());
      if w == id {
        assert !StrandedBy(db, id, b);
        var w' :| w' in db.windows - {id} && Offers((db.windows - {id})[w'], p, a.startsAt, a.EndsAt());
        assert Offers(db'.windows[w'], p, a.startsAt, a.EndsAt());
      } else {
        assert Offers(db'.windows[w], p, a.startsAt, a.EndsAt());
      }
    }
  }

  lemma CreateWindowKeepsCovered(db: Db, c: Ctx, r: Request, db': Db, reply: Reply)
    requires Covered(db) && r.CreateWindow? && Precheck(db, c, r) == None && Apply(db, c, r) == Ok((db', reply))
    ensures Covered(db')
  {
    forall b | b in db'.bookings && b in db'.appointments && db'.appointments[b].Live()
      ensures InsideWindow(db'.windows, db'.bookings[b].responsibility, db'.appointments[b].startsAt,
                           db'.appointments[b].EndsAt())
    {
      var a, p := db.appointments[b], db.bookings[b].responsibility;
      var w :| w in db.windows && Offers(db.windows[w], p, a.startsAt, a.EndsAt());
      assert Offers(db'.windows[w], p, a.startsAt, a.EndsAt());
    }
  }

  lemma AdmissionsKeepsInv(s: System, c: Ctx, r: Request)
    requires Inv(s)
    ensures Inv(Next(s, Admissions(c, r)))
  {
    if Precheck(s.db, c, r) == None && KeyOf(c, r) !in s.db.receipts {
      match Apply(s.db, c, r) {
        case Refused(_) =>
        case Ok((db', reply)) =>
          match r {
            case Configure(_, _, _) =>
            case CreateWindow(_, _, _, _) => CreateWindowKeepsCovered(s.db, c, r, db', reply);
            case WithdrawWindow(w, v) => WithdrawKeepsCovered(s.db, w, v, db', reply);
            case CreateBooking(_, _, _, _, _, _) => CreateBookingKeepsInv(s, c, r, db', reply);
            case Decide(_, _, _) => DecideKeepsInv(s, c, r, db', reply);
            case Report(_, _) => ReportKeepsInv(s, c, r, db', reply);
          }
          assert Inv(s.(db := db'));
      }
    }
  }

  lemma LegacyCreateKeepsInv(s: System, event: Id, id: Id, record: Appointment, now: int)
    requires Inv(s)
    ensures Inv(Next(s, Create(event, id, record, now)))
  {
    var r := LegacyCreate(s.db, event, id, record, now);
    if r.Ok? && r.value != s.db {
      FreeIsPlaceable(s.db, id, record, None);
      PlacingKeepsNoDoubleBooking(s.db, r.value, id, record);
      PlacingKeepsCacheSound(s, s.(db := r.value), id, record);
    }
  }

  /**
   The computed record decides the check, the stored row is what changes: they involve the same
   people for as long.
   */
  lemma StoreKeepsInv(s: System, event: Id, id: Id, record: Appointment)
    requires Inv(s)
    ensures Inv(Next(s, Store(event, id, record)))
  {
    var r := StoreTransition(s.db, event, id, record);
    if (id, record) in s.seen && r.Ok? && event !in s.db.events {
      var row := r.value.appointments[id];
      assert record.SameParty(s.db.appointments[id]);
      assert row.Involved() == record.Involved() && row.EndsAt() == record.EndsAt();
      if row.Live() {
        FreeIsPlaceable(s.db, id, row, Some(id));
      }
      PlacingKeepsNoDoubleBooking(s.db, r.value, id, row);
      PlacingKeepsCacheSound(s, s.(db := r.value), id, row);
    }
  }

  lemma NextKeepsInv(s: System, step: Step)
    requires Inv(s)
    ensures Inv(Next(s, step))
  {
    match step
    case Admissions(c, r) => AdmissionsKeepsInv(s, c, r);
    case Create(event, id, record, now) => LegacyCreateKeepsInv(s, event, id, record, now);
    case Refresh =>
    case Compute(_, _, _, _, _) =>
    case Store(event, id, record) => StoreKeepsInv(s, event, id, record);
    case SetAccounts(_) =>
  }

  lemma {:induction false} RunKeepsInv(s: System, steps: seq<Step>)
    requires Inv(s)
    ensures Inv(Run(s, steps))
    decreases |steps|
  {
    if steps != [] {
      NextKeepsInv(s, steps[0]);
      RunKeepsInv(Next(s, steps[0]), steps[1..]);
    }
  }

  // ---------------------------------------------------------------- main results

  /** In every run, two live appointments that share a person never overlap. */
  lemma NobodyIsDoubleBooked(steps: seq<Step>, i: Id, j: Id)
    requires var db := Run(Empty(), steps).db; i in db.appointments && j in db.appointments && i != j
    ensures
      var db := Run(Empty(), steps).db;
      var a, b := db.appointments[i], db.appointments[j];
      a.Live() && b.Live() && a.Involved() * b.Involved() != {} ==> a.EndsAt() <= b.startsAt || b.EndsAt() <= a.startsAt
  {
    RunKeepsInv(Empty(), steps);
    var db := Run(Empty(), steps).db;
    assert !Clash(db.appointments[i], db.appointments[j]);
  }

  /** In every run, a live booking is PENDING or ACCEPTED and lies inside one declared window. */
  lemma LiveBookingsStayInsideAWindow(steps: seq<Step>, id: Id)
    requires id in Run(Empty(), steps).db.bookings
    ensures
      var db := Run(Empty(), steps).db;
      && id in db.appointments
      && LockstepPair(db.bookings[id].state, db.appointments[id].state)
      && (db.appointments[id].Live() <==>
            db.appointments[id].state in {Planifie, Reporte, Confirme})
      && (db.appointments[id].Live() ==>
            InsideWindow(db.windows, db.bookings[id].responsibility, db.appointments[id].startsAt,
                         db.appointments[id].EndsAt()))
  {
    RunKeepsInv(Empty(), steps);
  }

  // ---------------------------------------------------------------- histories

  /** `b` is `a` itself or a later version of it. */
  predicate Later(a: Appointment, b: Appointment) {
    a.SameParty(b) && a.version <= b.version && (a.version == b.version ==> a == b)
  }

  /** Rows keep their party and their versions only grow; bookings, receipts and event keys stay. */
  ghost predicate Evolves(db: Db, db': Db) {
    && (forall id :: id in db.appointments ==>
        id in db'.appointments && Later(db.appointments[id], db'.appointments[id]))
    && (forall id :: id in db.bookings ==>
        id in db'.bookings && db'.bookings[id].responsibility == db.bookings[id].responsibility)
    && (forall k :: k in db.receipts ==> k in db'.receipts && db'.receipts[k] == db.receipts[k])
    && db.events <= db'.events
  }

  /**
   What the stored row may become: a state its own entry of the transition table allows, at
   a new time only when it is rescheduled.  Admissions may also reschedule twice, and a
   report gives a held appointment a new version.
   */
  predicate MayBecome(a: Appointment, next: AppointmentState, start: int) {
    && (next in Transitions(a.state) || (next == a.state && (next == Reporte || next == Realise)))
    && (next != Reporte ==> start == a.startsAt)
  }

  /** Every stored appointment is as it was, or a later version that it may become. */
  ghost predicate RowsMoveLegally(db: Db, db': Db) {
    forall id :: id in db.appointments ==>
        id in db'.appointments && MovesLegally(db.appointments[id], db'.appointments[id])
  }

  predicate MovesLegally(a: Appointment, b: Appointment) {
    a == b || MayBecome(a, b.state, b.startsAt)
  }

  /** All a writer does to the appointments is to add a row or to store a later version of one. */
  lemma RowChangeEvolves(db: Db, db': Db, id: Id)
    requires id in db'.appointments && db'.appointments == db.appointments[id := db'.appointments[id]]
    requires id in db.appointments ==> Later(db.appointments[id], db'.appointments[id])
    requires db'.receipts == db.receipts && db.events <= db'.events && db'.bookings.Keys >= db.bookings.Keys
    requires forall i :: i in db.bookings ==> db'.bookings[i].responsibility == db.bookings[i].responsibility
    ensures Evolves(db, db')
    ensures RowsMoveLegally(db, db') <==>
        (id in db.appointments ==> MovesLegally(db.appointments[id], db'.appointments[id]))
  {
    if id in db.appointments {
      assert RowsMoveLegally(db, db') ==> MovesLegally(db.appointments[id], db'.appointments[id]);
    }
  }

  lemma SameRowsEvolve(db: Db, db': Db)
    requires db'.appointments == db.appointments && db'.bookings == db.bookings
    requires db.events == db'.events && db'.receipts == db.receipts
    ensures Evolves(db, db') && RowsMoveLegally(db, db')
  {
  }

  lemma ReceiptAddedEvolves(db: Db, applied: Db, k: ReceiptKey, receipt: Receipt)
    requires Evolves(db, applied) && RowsMoveLegally(db, applied) && k !in applied.receipts
    ensures Evolves(db, applied.(receipts := applied.receipts[k := receipt]))
    ensures RowsMoveLegally(db, applied.(receipts := applied.receipts[k := receipt]))
  {
  }

  lemma ApplyEvolves(db: Db, c: Ctx, r: Request)
    requires Lockstep(db) && Precheck(db, c, r) == None && Apply(db, c, r).Ok?
    ensures var db' := Apply(db, c, r).value.0;
      Evolves(db, db') && RowsMoveLegally(db, db') && db'.receipts == db.receipts
  {
    var db' := Apply(db, c, r).value.0;
    match r
    case Configure(_, _, _) => SameRowsEvolve(db, db');
    case CreateWindow(_, _, _, _) => SameRowsEvolve(db, db');
    case WithdrawWindow(_, _) => SameRowsEvolve(db, db');
    case CreateBooking(_, _, _, _, _, _) => RowChangeEvolves(db, db', c.newId);
    case Decide(id, a, v) =>
      DecideMovesLegally(db, c, id, a, v);
      RowChangeEvolves(db, db', id);
    case Report(id, _) => RowChangeEvolves(db, db', id);
  }

  lemma DecideMovesLegally(db: Db, c: Ctx, id: Id, a: Action, v: int)
    requires Lockstep(db) && id in db.bookings && id in db.appointments && ApplyDecide(db, c, id, a, v).Ok?
    ensures var db' := ApplyDecide(db, c, id, a, v).value.0;
      Later(db.appointments[id], db'.appointments[id]) && MovesLegally(db.appointments[id], db'.appointments[id])
  {
  }

  lemma AdmissionsEvolve(s: System, c: Ctx, r: Request)
    requires Lockstep(s.db)
    ensures Evolves(s.db, Next(s, Admissions(c, r)).db) && RowsMoveLegally(s.db, Next(s, Admissions(c, r)).db)
  {
    if Precheck(s.db, c, r) == None && KeyOf(c, r) !in s.db.receipts && Apply(s.db, c, r).Ok? {
      var (applied, reply) := Apply(s.db, c, r).value;
      ApplyEvolves(s.db, c, r);
      ReceiptAddedEvolves(s.db, applied, KeyOf(c, r), Receipt(r, reply));
    } else {
      SameRowsEvolve(s.db, s.db);
    }
  }

  lemma LegacyCreateEvolves(db: Db, event: Id, id: Id, record: Appointment, now: int)
    requires LegacyCreate(db, event, id, record, now).Ok?
    ensures var db' := LegacyCreate(db, event, id, record, now).value; Evolves(db, db') && RowsMoveLegally(db, db')
  {
    var db' := LegacyCreate(db, event, id, record, now).value;
    if event in db.events {
      SameRowsEvolve(db, db');
    } else {
      RowChangeEvolves(db, db', id);
    }
  }

  /** A stored transition is legal exactly when the stored row allows it. */
  lemma StoreEvolves(db: Db, event: Id, id: Id, record: Appointment)
    requires StoreTransition(db, event, id, record).Ok? && event !in db.events
    ensures id in db.appointments
    ensures var db' := StoreTransition(db, event, id, record).value;
      Evolves(db, db') && (RowsMoveLegally(db, db') <==> !Disallowed(record, db.appointments[id]))
  {
    RowChangeEvolves(db, StoreTransition(db, event, id, record).value, id);
  }

  /**
   What persistTransition checks of a record in memory: a new event, no admissions booking, the
   version before the record's, and free people if the appointment stays live.  It does not look
   at the state or the time of the row.
   */
  ghost predicate Admitted(s: System, step: Step) {
    && step.Store? && (step.id, step.record) in s.seen && step.event !in s.db.events
    && step.id !in s.db.bookings && step.id in s.db.appointments
    && s.db.appointments[step.id].version == step.record.version - 1
    && (step.record.Live() ==>
          Free(s.db, step.record.Involved(), step.record.startsAt, step.record.EndsAt(), Some(step.id)))
  }

  /**
   The row's own entry of the transition table lacks the record's state, which does not repeat a
   rescheduling or a held appointment either, or the time changes without a rescheduling.
   */
  predicate Disallowed(record: Appointment, row: Appointment) {
    || (record.state !in Transitions(row.state) && !(record.state == row.state && row.state in {Reporte, Realise}))
    || (record.state != Reporte && record.startsAt != row.startsAt)
  }

  /** The missing guard of the transition table. */
  ghost predicate Overrules(s: System, step: Step) {
    Admitted(s, step) && Disallowed(step.record, s.db.appointments[step.id])
  }

  lemma AdmittedIsStored(s: System, step: Step)
    requires step.Store? && (step.id, step.record) in s.seen && step.event !in s.db.events
    ensures Admitted(s, step) <==> StoreTransition(s.db, step.event, step.id, step.record).Ok?
    ensures !Admitted(s, step) ==> Next(s, step) == s
  {
  }

  /** Over each step rows keep their party, versions only grow and receipts are kept. */
  lemma NextEvolves(s: System, step: Step)
    requires Inv(s)
    ensures Evolves(s.db, Next(s, step).db)
    ensures RowsMoveLegally(s.db, Next(s, step).db) <==> !Overrules(s, step)
  {
    match step
    case Admissions(c, r) => AdmissionsEvolve(s, c, r);
    case Create(event, id, record, now) =>
      if LegacyCreate(s.db, event, id, record, now).Ok? {
        LegacyCreateEvolves(s.db, event, id, record, now);
      } else {
        SameRowsEvolve(s.db, s.db);
      }
    case Store(event, id, record) =>
      if (id, record) in s.seen && event !in s.db.events {
        AdmittedIsStored(s, step);
      }
      if Admitted(s, step) {
        StoreEvolves(s.db, event, id, record);
      } else {
        SameRowsEvolve(s.db, s.db);
      }
    case _ => SameRowsEvolve(s.db, Next(s, step).db);
  }

  /** Over any run, rows keep their party, versions only grow and receipts are kept. */
  lemma {:induction false} RunEvolves(s: System, steps: seq<Step>)
    requires Inv(s)
    ensures Evolves(s.db, Run(s, steps).db)
    decreases |steps|
  {
    if steps != [] {
      NextEvolves(s, steps[0]);
      NextKeepsInv(s, steps[0]);
      RunEvolves(Next(s, steps[0]), steps[1..]);
      EvolvesCompose(s.db, Next(s, steps[0]).db, Run(s, steps).db);
    } else {
      SameRowsEvolve(s.db, s.db);
    }
  }

  lemma EvolvesCompose(a: Db, b: Db, c: Db)
    requires Evolves(a, b) && Evolves(b, c)
    ensures Evolves(a, c)
  {
    forall id | id in a.appointments ensures id in c.appointments && Later(a.appointments[id], c.appointments[id]) {
      assert id in b.appointments;
    }
    forall id | id in a.bookings ensures id in c.bookings
        && c.bookings[id].responsibility == a.bookings[id].responsibility {
      assert id in b.bookings;
    }
  }

  /** However much later it is sent again, a request with its old key returns its first reply and writes nothing. */
  lemma ReplayReturnsTheFirstReply(s: System, c: Ctx, r: Request, steps: seq<Step>, again: Ctx)
    requires Inv(s) && Handle(s.db, c, r).Ok?
    requires again.actor == c.actor && again.key == c.key
    requires Precheck(Run(Next(s, Admissions(c, r)), steps).db, again, r) == None
    ensures
      var later := Run(Next(s, Admissions(c, r)), steps);
      Handle(later.db, again, r) == Ok((later.db, Handle(s.db, c, r).value.1))
  {
    var s' := Next(s, Admissions(c, r));
    NextKeepsInv(s, Admissions(c, r));
    assert s'.db.receipts[KeyOf(c, r)] == Receipt(r, Handle(s.db, c, r).value.1);
    RunEvolves(s', steps);
  }

  // ---------------------------------------------------------------- outcomes

  /** Every stored appointment in a final state keeps that state and its time. */
  ghost predicate OutcomesKept(db: Db, db': Db) {
    forall id :: id in db.appointments && Terminal(db.appointments[id].state) ==>
        && id in db'.appointments
        && db'.appointments[id].state == db.appointments[id].state
        && db'.appointments[id].startsAt == db.appointments[id].startsAt
  }

  /** The record differs from the outcome the row has reached. */
  predicate Contradicts(record: Appointment, row: Appointment) {
    Terminal(row.state) && (record.state != row.state || record.startsAt != row.startsAt)
  }

  /** The missing guard of outcomes: the row is final, and the record gives it another state or time. */
  ghost predicate Overwrites(s: System, step: Step) {
    Admitted(s, step) && Contradicts(step.record, s.db.appointments[step.id])
  }

  lemma LegalMovesKeepOutcomes(db: Db, db': Db)
    requires RowsMoveLegally(db, db')
    ensures OutcomesKept(db, db')
  {
    forall id | id in db.appointments && Terminal(db.appointments[id].state)
      ensures id in db'.appointments
      ensures db'.appointments[id].state == db.appointments[id].state
      ensures db'.appointments[id].startsAt == db.appointments[id].startsAt
    {
      assert MovesLegally(db.appointments[id], db'.appointments[id]);
    }
  }

  lemma StoreKeepsOutcomesIff(db: Db, event: Id, id: Id, record: Appointment)
    requires StoreTransition(db, event, id, record).Ok? && event !in db.events
    ensures id in db.appointments
    ensures OutcomesKept(db, StoreTransition(db, event, id, record).value) <==>
        !Contradicts(record, db.appointments[id])
  {
    var db' := StoreTransition(db, event, id, record).value;
    assert db'.appointments[id].state == record.state && db'.appointments[id].startsAt == record.startsAt;
    assert forall i :: i in db.appointments && i != id ==> db'.appointments[i] == db.appointments[i];
  }

  /** A step changes an outcome if and only if it stores a record in memory over a final row that it contradicts. */
  lemma NextKeepsOutcomesIff(s: System, step: Step)
    requires Inv(s)
    ensures OutcomesKept(s.db, Next(s, step).db) <==> !Overwrites(s, step)
  {
    if Admitted(s, step) {
      AdmittedIsStored(s, step);
      StoreKeepsOutcomesIff(s.db, step.event, step.id, step.record);
    } else {
      NextEvolves(s, step);
      LegalMovesKeepOutcomes(s.db, Next(s, step).db);
    }
  }

  /** No step of the run stores a record over an outcome that it contradicts. */
  ghost predicate NeverOverwrites(s: System, steps: seq<Step>) {
    forall n :: 0 <= n < |steps| ==> !Overwrites(Run(s, steps[..n]), steps[n])
  }

  /** At every moment of the run each outcome reached is the one it still has at every later moment. */
  ghost predicate OutcomesAreFinal(s: System, steps: seq<Step>) {
    forall m, n :: 0 <= m <= n <= |steps| ==> OutcomesKept(Run(s, steps[..m]).db, Run(s, steps[..n]).db)
  }

  lemma {:induction false} RunThenNext(s: System, steps: seq<Step>, n: nat)
    requires n < |steps|
    ensures Run(s, steps[..n + 1]) == Next(Run(s, steps[..n]), steps[n])
    decreases n
  {
    if n == 0 {
      assert steps[..0] == [] && steps[..1][1..] == [] && steps[..1][0] == steps[0];
      assert Run(Next(s, steps[0]), []) == Next(s, steps[0]);
    } else {
      RunThenNext(Next(s, steps[0]), steps[1..], n - 1);
      assert steps[..n + 1][1..] == steps[1..][..n] && steps[..n][1..] == steps[1..][..n - 1];
      assert steps[1..][..n - 1 + 1] == steps[1..][..n];
    }
  }

  lemma OutcomesKeptCompose(a: Db, b: Db, c: Db)
    requires OutcomesKept(a, b) && OutcomesKept(b, c)
    ensures OutcomesKept(a, c)
  {
    forall id | id in a.appointments && Terminal(a.appointments[id].state)
      ensures id in c.appointments
      ensures c.appointments[id].state == a.appointments[id].state
      ensures c.appointments[id].startsAt == a.appointments[id].startsAt
    {
      assert id in b.appointments && Terminal(b.appointments[id].state);
    }
  }

  lemma {:induction false} OutcomesKeptBetween(s: System, steps: seq<Step>, m: nat, n: nat)
    requires Inv(s) && NeverOverwrites(s, steps) && m <= n <= |steps|
    ensures OutcomesKept(Run(s, steps[..m]).db, Run(s, steps[..n]).db)
    decreases n
  {
    if m < n {
      OutcomesKeptBetween(s, steps, m, n - 1);
      RunThenNext(s, steps, n - 1);
      RunKeepsInv(s, steps[..n - 1]);
      NextKeepsOutcomesIff(Run(s, steps[..n - 1]), steps[n - 1]);
      OutcomesKeptCompose(Run(s, steps[..m]).db, Run(s, steps[..n - 1]).db, Run(s, steps[..n]).db);
    }
  }

  /** Outcomes are final in a run if and only if none of its steps overwrites one. */
  lemma OutcomesAreFinalIff(s: System, steps: seq<Step>)
    requires Inv(s)
    ensures OutcomesAreFinal(s, steps) <==> NeverOverwrites(s, steps)
  {
    if OutcomesAreFinal(s, steps) {
      forall n | 0 <= n < |steps| ensures !Overwrites(Run(s, steps[..n]), steps[n]) {
        RunThenNext(s, steps, n);
        RunKeepsInv(s, steps[..n]);
        NextKeepsOutcomesIff(Run(s, steps[..n]), steps[n]);
        assert OutcomesKept(Run(s, steps[..n]).db, Run(s, steps[..n + 1]).db);
      }
    }
    if NeverOverwrites(s, steps) {
      forall m, n | 0 <= m <= n <= |steps| ensures OutcomesKept(Run(s, steps[..m]).db, Run(s, steps[..n]).db) {
        OutcomesKeptBetween(s, steps, m, n);
      }
    }
  }

  // ---------------------------------------------------------------- unsaved records

  /** No step of the run stores a transition that the stored row would not allow. */
  ghost predicate NeverOverrules(s: System, steps: seq<Step>) {
    forall n :: 0 <= n < |steps| ==> !Overrules(Run(s, steps[..n]), steps[n])
  }

  /** `a` was computed from a version `c` of the row. */
  ghost predicate ComputedFrom(c: Appointment, a: Appointment, row: Appointment) {
    Later(c, row) && a.version == c.version + 1 && MayBecome(c, a.state, a.startsAt)
  }

  /** Each cached record is a version the table holds or held, or was computed from one. */
  ghost predicate CacheStored(s: System) {
    forall id, a :: (id, a) in s.seen ==>
      id in s.db.appointments && (Later(a, s.db.appointments[id])
                                  || exists c :: ComputedFrom(c, a, s.db.appointments[id]))
  }

  /** The step does not compute a record from an unsaved one. */
  ghost predicate FromStored(s: System, step: Step) {
    step.Compute? && (step.id, step.cached) in s.seen ==>
      step.id in s.db.appointments && Later(step.cached, s.db.appointments[step.id])
  }

  ghost predicate ComputesFromStored(s: System, steps: seq<Step>) {
    forall n :: 0 <= n < |steps| ==> FromStored(Run(s, steps[..n]), steps[n])
  }

  lemma StoredCachesStay(s: System, step: Step)
    requires Inv(s) && CacheStored(s) && FromStored(s, step)
    ensures CacheStored(Next(s, step))
  {
    NextEvolves(s, step);
    var s' := Next(s, step);
    forall id, a | (id, a) in s'.seen
      ensures id in s'.db.appointments
      ensures Later(a, s'.db.appointments[id]) || exists c :: ComputedFrom(c, a, s'.db.appointments[id])
    {
      if (id, a) in s.seen {
        var row := s.db.appointments[id];
        assert Later(row, s'.db.appointments[id]);
        if c :| ComputedFrom(c, a, row) {
          assert ComputedFrom(c, a, s'.db.appointments[id]);
        }
      } else if step.Compute? {
        assert ComputedFrom(step.cached, a, s'.db.appointments[id]);
      }
    }
  }

  lemma StoredCachesDoNotOverrule(s: System, step: Step)
    requires Inv(s) && CacheStored(s)
    ensures !Overrules(s, step)
  {
    if step.Store? && (step.id, step.record) in s.seen && step.id in s.db.appointments {
      var row := s.db.appointments[step.id];
      if c :| ComputedFrom(c, step.record, row) {
        assert c.version == row.version ==> c == row;
      }
    }
  }

  lemma {:induction false} StoredCachesRemain(s: System, steps: seq<Step>, n: nat)
    requires Inv(s) && CacheStored(s) && ComputesFromStored(s, steps) && n <= |steps|
    ensures Inv(Run(s, steps[..n])) && CacheStored(Run(s, steps[..n]))
    decreases n
  {
    if n == 0 {
      assert steps[..0] == [];
    } else {
      StoredCachesRemain(s, steps, n - 1);
      RunThenNext(s, steps, n - 1);
      NextKeepsInv(Run(s, steps[..n - 1]), steps[n - 1]);
      StoredCachesStay(Run(s, steps[..n - 1]), steps[n - 1]);
    }
  }

  /**
   As long as every record is computed from a stored row, however old, no transition overrules
   the stored one and outcomes are final.
   */
  lemma StoredCachesNeverOverrule(s: System, steps: seq<Step>)
    requires Inv(s) && CacheStored(s) && ComputesFromStored(s, steps)
    ensures NeverOverrules(s, steps) && OutcomesAreFinal(s, steps)
  {
    forall n | 0 <= n < |steps|
      ensures !Overrules(Run(s, steps[..n]), steps[n]) && !Overwrites(Run(s, steps[..n]), steps[n])
    {
      StoredCachesRemain(s, steps, n);
      StoredCachesDoNotOverrule(Run(s, steps[..n]), steps[n]);
    }
    OutcomesAreFinalIff(s, steps);
  }

  /**
   A confirmation stays in the cache unsaved, another process cancels, and the next transition
   revives the appointment.
   */
  function OverrulingRun(): seq<Step> {
    var a := Planned();
    [Create(1, 1, a, 0), Refresh, Compute(1, a, Confirme, 0, 0), Compute(1, a, Annule, 0, 0),
     Store(2, 1, Called()), Compute(1, Unsaved(), Reporte, 2 * DAY, 0), Store(3, 1, Again())]
  }

  function Planned(): Appointment { Appointment(1, DAY, 60, 1, 2, None, {}, Planifie, 1) }
  function Unsaved(): Appointment { Planned().(state := Confirme, version := 2) }
  function Called(): Appointment { Planned().(state := Annule, version := 2) }
  function Again(): Appointment { Planned().(state := Reporte, startsAt := 2 * DAY, version := 3) }

  lemma AnUnsavedRecordRevivesACancellation()
    ensures var steps := OverrulingRun();
      && Run(Empty(), steps[..5]).db.appointments == map[1 := Called()]
      && Run(Empty(), steps).db.appointments == map[1 := Again()]
  {
    var steps := OverrulingRun();
    var s3 := PlannedAndComputed();
    var s5 := Cancelled(s3);
    Revived(s5);
    RunThree(Empty(), steps);
    RunTwo(s3, steps[3..]);
    RunTwo(s5, steps[5..]);
    assert steps[3..][2..] == steps[5..] && steps[5..][2..] == [];
    RunThree(Empty(), steps[..5]);
    RunTwo(s3, steps[..5][3..]);
    assert steps[..5][3..][2..] == [];
  }

  lemma RunTwo(s: System, steps: seq<Step>)
    requires |steps| >= 2
    ensures Run(s, steps) == Run(Next(Next(s, steps[0]), steps[1]), steps[2..])
  {
    assert steps[1..][0] == steps[1] && steps[1..][1..] == steps[2..];
    assert Run(s, steps) == Run(Next(s, steps[0]), steps[1..]);
  }

  lemma PlannedAndComputed() returns (s: System)
    ensures var steps := OverrulingRun(); s == Next(Next(Next(Empty(), steps[0]), steps[1]), steps[2])
    ensures s.db == Empty().db.(appointments := map[1 := Planned()], events := {1})
    ensures s.seen == {(1, Planned()), (1, Unsaved())}
  {
    var steps, a := OverrulingRun(), Planned();
    assert Occupying(Empty().db, a.Involved(), DAY, a.EndsAt(), None) == {};
    assert Blocking(Empty().db, a.Involved(), DAY, a.EndsAt()) == {};
    var s1 := Next(Empty(), steps[0]);
    assert s1.db == Empty().db.(appointments := map[1 := a], events := {1});
    assert Rows(s1.db) == {(1, a)};
    s := Next(Next(s1, steps[1]), steps[2]);
  }

  lemma Cancelled(s3: System) returns (s: System)
    requires s3.db == Empty().db.(appointments := map[1 := Planned()], events := {1})
    requires s3.seen == {(1, Planned()), (1, Unsaved())}
    ensures s == Next(Next(s3, OverrulingRun()[3]), OverrulingRun()[4])
    ensures s.db == Empty().db.(appointments := map[1 := Called()], events := {1, 2}) && (1, Unsaved()) in s.seen
  {
    s := Next(Next(s3, OverrulingRun()[3]), OverrulingRun()[4]);
    assert s.db == s3.db.(appointments := map[1 := Called()], events := {1, 2});
  }

  lemma Revived(s: System)
    requires s.db == Empty().db.(appointments := map[1 := Called()], events := {1, 2}) && (1, Unsaved()) in s.seen
    ensures Next(Next(s, OverrulingRun()[5]), OverrulingRun()[6]).db.appointments == map[1 := Again()]
  {
    var s' := Next(s, OverrulingRun()[5]);
    assert (1, Again()) in s'.seen;
    assert Occupying(s'.db, Again().Involved(), 2 * DAY, Again().EndsAt(), Some(1)) == {};
    assert Blocking(s'.db, Again().Involved(), 2 * DAY, Again().EndsAt()) == {};
  }

  // ---------------------------------------------------------------- blocked windows

  /** An active BLOCKED window of an active designation and a live appointment of its user overlap. */
  ghost predicate BlockViolated(db: Db, w: Id, id: Id) {
    && w in db.windows && db.windows[w].active && db.windows[w].kind == Blocked
    && db.windows[w].responsibility in db.responsibilities && db.responsibilities[db.windows[w].responsibility].active
    && id in db.appointments && db.appointments[id].Live()
    && db.windows[w].responsibility.user in db.appointments[id].Involved()
    && Overlap(db.windows[w].startsAt, db.windows[w].endsAt, db.appointments[id].startsAt, db.appointments[id].EndsAt())
  }

  ghost predicate BlocksRespected(db: Db) {
    forall w, id :: !BlockViolated(db, w, id)
  }

  /** A stored, active block of the designation overlaps a live appointment of its user. */
  predicate BlockedMeeting(db: Db, p: ResponsibilityId, w: Id) {
    && w in db.windows && db.windows[w].active && db.windows[w].kind == Blocked && db.windows[w].responsibility == p
    && Occupying(db, {p.user}, db.windows[w].startsAt, db.windows[w].endsAt, None) != {}
  }

  /**
   The request switches a designation on although one of its stored blocks overlaps a live
   appointment of its user: the check that the configuration of a designation does not make.
   */
  predicate RevivesConflict(db: Db, c: Ctx, r: Request) {
    && r.Configure? && r.active && Precheck(db, c, r) == None && KeyOf(c, r) !in db.receipts
    && r.responsibility in db.responsibilities && db.responsibilities[r.responsibility].version == r.expectedVersion
    && exists w :: w in db.windows && BlockedMeeting(db, r.responsibility, w)
  }

  /** A stored live row that passed the free check meets no block. */
  lemma FreeMeetsNoBlock(db: Db, db': Db, id: Id, w: Id)
    requires BlocksRespected(db) && id in db'.appointments
    requires db'.windows == db.windows && db'.responsibilities == db.responsibilities
    requires var a := db'.appointments[id]; a.Live() ==> Blocking(db, a.Involved(), a.startsAt, a.EndsAt()) == {}
    ensures !BlockViolated(db', w, id)
  {
    var a := db'.appointments[id];
    assert BlockViolated(db', w, id) ==> w in Blocking(db, a.Involved(), a.startsAt, a.EndsAt());
  }

  /** A new block was refused if it met a live appointment of its user. */
  lemma NewBlockMeetsNothing(db: Db, c: Ctx, p: ResponsibilityId, kind: WindowKind, from: int, to: int, id: Id)
    requires ApplyCreateWindow(db, c, p, kind, from, to).Ok?
    ensures !BlockViolated(ApplyCreateWindow(db, c, p, kind, from, to).value.0, c.newId, id)
  {
    if id in db.appointments && kind == Blocked {
      var met := Occupying(db, {p.user}, from, to, None);
      assert id !in met;
      assert p.user in db.appointments[id].Involved() ==> p.user in db.appointments[id].Involved() * {p.user};
    }
  }

  lemma CreateWindowRespectsBlocks(db: Db, c: Ctx, r: Request, db': Db, reply: Reply)
    requires BlocksRespected(db) && r.CreateWindow? && Precheck(db, c, r) == None && Apply(db, c, r) == Ok((db', reply))
    ensures BlocksRespected(db')
  {
    forall w, id ensures !BlockViolated(db', w, id) {
      if w == c.newId {
        NewBlockMeetsNothing(db, c, r.responsibility, r.kind, r.startsAt, r.endsAt, id);
      } else {
        assert !BlockViolated(db, w, id);
      }
    }
  }

  /** One row placed through the free check, or made terminal, meets no block either. */
  lemma PlacingRespectsBlocks(db: Db, db': Db, id: Id)
    requires BlocksRespected(db) && id in db'.appointments
    requires db'.appointments == db.appointments[id := db'.appointments[id]]
    requires db'.windows == db.windows && db'.responsibilities == db.responsibilities
    requires var a := db'.appointments[id]; a.Live() ==> Blocking(db, a.Involved(), a.startsAt, a.EndsAt()) == {}
    ensures BlocksRespected(db')
  {
    forall w, j ensures !BlockViolated(db', w, j) {
      if j == id {
        FreeMeetsNoBlock(db, db', id, w);
      } else {
        assert !BlockViolated(db, w, j);
      }
    }
  }

  /** Once the designation is on, its stored block `w` is violated exactly when it met a live appointment before. */
  lemma SwitchedOnBlock(db: Db, db': Db, p: ResponsibilityId, w: Id)
    requires w in db.windows && db.windows[w].responsibility == p
    requires db' == db.(responsibilities := db'.responsibilities) && p in db'.responsibilities
    requires db'.responsibilities[p].active
    ensures (exists id :: BlockViolated(db', w, id)) <==> BlockedMeeting(db, p, w)
  {
    var block := db.windows[w];
    var met := Occupying(db, {p.user}, block.startsAt, block.endsAt, None);
    forall id | id in db.appointments
      ensures p.user in db.appointments[id].Involved() <==> db.appointments[id].Involved() * {p.user} != {}
    {
      assert p.user in db.appointments[id].Involved() ==> p.user in db.appointments[id].Involved() * {p.user};
    }
    if met != {} {
      var id := Pick(met);
      assert block.active && block.kind == Blocked ==> BlockViolated(db', w, id);
    }
    assert forall id :: BlockViolated(db', w, id) ==> id in met;
  }

  lemma ConfigureRespectsBlocksIff(db: Db, c: Ctx, r: Request, db': Db, reply: Reply)
    requires WindowsOwned(db) && BlocksRespected(db) && r.Configure? && Precheck(db, c, r) == None
    requires KeyOf(c, r) !in db.receipts
    requires Apply(db, c, r) == Ok((db', reply))
    ensures BlocksRespected(db') <==> !RevivesConflict(db, c, r)
  {
    var p := r.responsibility;
    forall w, id | BlockViolated(db', w, id)
      ensures r.active && p in db.responsibilities && db.windows[w].responsibility == p {
      assert !BlockViolated(db, w, id);
    }
    if r.active {
      forall w | w in db.windows && db.windows[w].responsibility == p
        ensures (exists id :: BlockViolated(db', w, id)) <==> BlockedMeeting(db, p, w)
      {
        SwitchedOnBlock(db, db', p, w);
      }
      RevivedBlocks(db, c, r, db');
    }
  }

  lemma RevivedBlocks(db: Db, c: Ctx, r: Request, db': Db)
    requires r.Configure? && r.active && Precheck(db, c, r) == None && KeyOf(c, r) !in db.receipts
    requires r.responsibility in db.responsibilities ==>
        db.responsibilities[r.responsibility].version == r.expectedVersion
    requires WindowsOwned(db) && db'.windows == db.windows
    requires forall w, id :: BlockViolated(db', w, id) ==> db.windows[w].responsibility == r.responsibility
    requires forall w :: w in db.windows && db.windows[w].responsibility == r.responsibility ==>
      ((exists id :: BlockViolated(db', w, id)) <==> BlockedMeeting(db, r.responsibility, w))
    ensures BlocksRespected(db') <==> !RevivesConflict(db, c, r)
  {
    if w :| w in db.windows && BlockedMeeting(db, r.responsibility, w) {
      var id :| BlockViolated(db', w, id);
    } else {
      forall w, id ensures !BlockViolated(db', w, id) {
      }
    }
  }

  /** A block and a live appointment of its owner are kept apart by every step but one kind of re-activation. */
  lemma StepRespectsBlocksIff(s: System, step: Step)
    requires Inv(s) && BlocksRespected(s.db)
    ensures BlocksRespected(Next(s, step).db) <==> !(step.Admissions? && RevivesConflict(s.db, step.ctx, step.request))
  {
    var db, db' := s.db, Next(s, step).db;
    match step
    case Admissions(c, r) => AdmissionsRespectBlocksIff(db, c, r);
    case Create(event, id, record, now) =>
      if LegacyCreate(db, event, id, record, now).Ok? && event !in db.events {
        PlacingRespectsBlocks(db, db', id);
      }
    case Store(_, _, _) => StoreRespectsBlocks(s, step);
    case _ => SameTablesSameBlocks(db, db');
  }

  lemma StoreRespectsBlocks(s: System, step: Step)
    requires Inv(s) && BlocksRespected(s.db) && step.Store?
    ensures BlocksRespected(Next(s, step).db)
  {
    var db, db' := s.db, Next(s, step).db;
    if db' != db {
      assert step.record.SameParty(db.appointments[step.id]);
      assert db'.appointments[step.id].Involved() == step.record.Involved();
      PlacingRespectsBlocks(db, db', step.id);
    }
  }

  lemma AdmissionsRespectBlocksIff(db: Db, c: Ctx, r: Request)
    requires WindowsOwned(db) && BlocksRespected(db)
    ensures BlocksRespected(match Handle(db, c, r) case Ok((db', _)) => db' case Refused(_) => db) <==>
        !RevivesConflict(db, c, r)
  {
    if Precheck(db, c, r) == None && KeyOf(c, r) !in db.receipts && Apply(db, c, r).Ok? {
      var (applied, reply) := Apply(db, c, r).value;
      AppliedRespectsBlocksIff(db, c, r, applied, reply);
      SameTablesSameBlocks(applied, applied.(receipts := applied.receipts[KeyOf(c, r) := Receipt(r, reply)]));
    }
  }

  lemma AppliedRespectsBlocksIff(db: Db, c: Ctx, r: Request, applied: Db, reply: Reply)
    requires WindowsOwned(db) && BlocksRespected(db) && Precheck(db, c, r) == None && KeyOf(c, r) !in db.receipts
    requires Apply(db, c, r) == Ok((applied, reply))
    ensures BlocksRespected(applied) <==> !RevivesConflict(db, c, r)
  {
    match r {
      case Configure(_, _, _) => ConfigureRespectsBlocksIff(db, c, r, applied, reply);
      case CreateWindow(_, _, _, _) => CreateWindowRespectsBlocks(db, c, r, applied, reply);
      case WithdrawWindow(w, v) => WithdrawRespectsBlocks(db, w, v, applied, reply);
      case CreateBooking(_, _, _, _, _, _) => BookingRespectsBlocks(db, c, r, applied, reply);
      case Decide(id, a, v) => DecideRespectsBlocks(db, c, id, a, v, applied, reply);
      case Report(id, v) => ReportRespectsBlocks(db, c, id, v, applied, reply);
    }
  }

  lemma WithdrawRespectsBlocks(db: Db, w: Id, v: int, applied: Db, reply: Reply)
    requires BlocksRespected(db) && w in db.windows && ApplyWithdrawWindow(db, w, v) == Ok((applied, reply))
    ensures BlocksRespected(applied)
  {
    forall w', id ensures !BlockViolated(applied, w', id) {
      assert !BlockViolated(db, w', id);
    }
  }

  lemma BookingRespectsBlocks(db: Db, c: Ctx, r: Request, applied: Db, reply: Reply)
    requires BlocksRespected(db) && r.CreateBooking? && Precheck(db, c, r) == None
    requires Apply(db, c, r) == Ok((applied, reply))
    ensures BlocksRespected(applied)
  {
    assert applied.appointments[c.newId].Involved() == {r.responsibility.user, c.actor} + r.participants;
    PlacingRespectsBlocks(db, applied, c.newId);
  }

  lemma DecideRespectsBlocks(db: Db, c: Ctx, id: Id, action: Action, v: int, applied: Db, reply: Reply)
    requires BlocksRespected(db) && id in db.bookings && id in db.appointments
    requires ApplyDecide(db, c, id, action, v) == Ok((applied, reply))
    ensures BlocksRespected(applied)
  {
    assert applied.appointments[id].Involved() == db.appointments[id].Involved();
    PlacingRespectsBlocks(db, applied, id);
  }

  lemma ReportRespectsBlocks(db: Db, c: Ctx, id: Id, v: int, applied: Db, reply: Reply)
    requires BlocksRespected(db) && id in db.bookings && id in db.appointments
    requires ApplyReport(db, c, id, v) == Ok((applied, reply))
    ensures BlocksRespected(applied)
  {
    PlacingRespectsBlocks(db, applied, id);
  }

  lemma SameTablesSameBlocks(db: Db, db': Db)
    requires db'.appointments == db.appointments && db'.windows == db.windows
    requires db'.responsibilities == db.responsibilities
    ensures BlocksRespected(db') <==> BlocksRespected(db)
  {
    assert forall w, id :: BlockViolated(db', w, id) <==> BlockViolated(db, w, id);
  }

  /** No step of the run switches on a designation whose stored blocks meet a live appointment. */
  ghost predicate NeverRevives(s: System, steps: seq<Step>)
    decreases |steps|
  {
    steps != [] ==>
      && !(steps[0].Admissions? && RevivesConflict(s.db, steps[0].ctx, steps[0].request))
      && NeverRevives(Next(s, steps[0]), steps[1..])
  }

  lemma {:induction false} RunRespectsBlocks(s: System, steps: seq<Step>)
    requires Inv(s) && BlocksRespected(s.db) && NeverRevives(s, steps)
    ensures BlocksRespected(Run(s, steps).db)
    decreases |steps|
  {
    if steps != [] {
      StepRespectsBlocksIff(s, steps[0]);
      NextKeepsInv(s, steps[0]);
      RunRespectsBlocks(Next(s, steps[0]), steps[1..]);
    }
  }

  /** A run that breaks the separation: block an hour, switch the designation off, book it directly, switch it on. */
  function RevivingRun(): seq<Step> {
    var p, c := ResponsibilityId(1, 1), Ctx(2, 1, 0, true, true, 1);
    [SetAccounts({1, 2}), Admissions(c, Configure(p, true, 0)),
     Admissions(c, CreateWindow(p, Blocked, DAY, DAY + 60 * MINUTE)),
     Admissions(c.(key := 2), Configure(p, false, 1)),
     Create(1, 1, Appointment(1, DAY, 60, 1, 2, None, {}, Planifie, 1), 0),
     Admissions(c.(key := 3), Configure(p, true, 2))]
  }

  lemma RunThree(s: System, steps: seq<Step>)
    requires |steps| >= 3
    ensures Run(s, steps) == Run(Next(Next(Next(s, steps[0]), steps[1]), steps[2]), steps[3..])
  {
    assert steps[1..][0] == steps[1] && steps[1..][1..] == steps[2..];
    assert steps[2..][0] == steps[2] && steps[2..][1..] == steps[3..];
    assert Run(s, steps) == Run(Next(s, steps[0]), steps[1..]);
    assert Run(Next(s, steps[0]), steps[1..]) == Run(Next(Next(s, steps[0]), steps[1]), steps[2..]);
  }

  lemma BlockIsDeclared() returns (s: System)
    ensures s == Run(Empty(), RevivingRun()[..3])
    ensures s.db.windows == map[1 := Window(ResponsibilityId(1, 1), Blocked, DAY, DAY + 60 * MINUTE, true, 1)]
    ensures s.db.responsibilities == map[ResponsibilityId(1, 1) := Responsibility(true, 1)]
    ensures s.db.appointments == map[] && s.db.events == {}
    ensures forall k :: k in s.db.receipts ==> k.key == 1
  {
    var steps := RevivingRun()[..3];
    RunThree(Empty(), steps);
    var s2 := Next(Next(Empty(), steps[0]), steps[1]);
    assert s2.db.windows == map[] && s2.db.appointments == map[];
    s := Next(s2, steps[2]);
    assert steps[3..] == [];
  }

  lemma SwitchedOff(s: System) returns (s': System)
    requires s.db.responsibilities == map[ResponsibilityId(1, 1) := Responsibility(true, 1)]
    requires forall k :: k in s.db.receipts ==> k.key == 1
    ensures s' == Next(s, RevivingRun()[3])
    ensures s'.db.windows == s.db.windows && s'.db.appointments == s.db.appointments && s'.db.events == s.db.events
    ensures s'.db.responsibilities == map[ResponsibilityId(1, 1) := Responsibility(false, 2)]
    ensures forall k :: k in s'.db.receipts ==> k.key == 1 || k.key == 2
  {
    s' := Next(s, RevivingRun()[3]);
  }

  lemma DirectlyBooked(s: System) returns (s': System)
    requires s.db.responsibilities == map[ResponsibilityId(1, 1) := Responsibility(false, 2)]
    requires s.db.appointments == map[] && s.db.events == {}
    ensures s' == Next(s, RevivingRun()[4])
    ensures s'.db == s.db.(appointments := map[1 := RevivingRun()[4].record], events := {1})
  {
    var record := RevivingRun()[4].record;
    assert Occupying(s.db, record.Involved(), DAY, DAY + 60 * MINUTE, None) == {};
    assert Blocking(s.db, record.Involved(), DAY, DAY + 60 * MINUTE) == {};
    s' := Next(s, RevivingRun()[4]);
  }

  lemma SwitchedOnAgain(s: System)
    requires s.db.windows == map[1 := Window(ResponsibilityId(1, 1), Blocked, DAY, DAY + 60 * MINUTE, true, 1)]
    requires s.db.responsibilities == map[ResponsibilityId(1, 1) := Responsibility(false, 2)]
    requires s.db.appointments == map[1 := RevivingRun()[4].record]
    requires forall k :: k in s.db.receipts ==> k.key == 1 || k.key == 2
    ensures !BlocksRespected(Next(s, RevivingRun()[5]).db)
  {
    var s' := Next(s, RevivingRun()[5]);
    assert s'.db.responsibilities == map[ResponsibilityId(1, 1) := Responsibility(true, 3)];
    assert 1 in s'.db.appointments[1].Involved();
    assert BlockViolated(s'.db, 1, 1);
  }

  lemma ReactivationCanOverlapABlock()
    ensures !BlocksRespected(Run(Empty(), RevivingRun()).db)
  {
    var steps := RevivingRun();
    var s3 := BlockIsDeclared();
    var s4 := SwitchedOff(s3);
    var s5 := DirectlyBooked(s4);
    SwitchedOnAgain(s5);
    RunThree(Empty(), steps);
    RunThree(Empty(), steps[..3]);
    assert steps[..3][3..] == [];
    RunThree(s3, steps[3..]);
    assert steps[3..][3..] == [];
  }
}
