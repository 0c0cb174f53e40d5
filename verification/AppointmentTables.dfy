/**
 The same transactions as statements over mutable tables, which keep the scheduling
 invariant: every method finds and leaves tables in which nobody is booked twice, live
 bookings lie inside a window and booking and appointment states agree.  Rows are written
 one table after the other, and a refusal returns before the first write.
 */
module AppointmentTables {
  import opened Prelude
  import opened Collections
  import opened Scheduling
  import opened SchedulingSafety
  import SchedulingContracts

  /** The tables after a transaction, and what its caller is told. */
  predicate Transacted(before: Db, after: Db, spec: Outcome, r: Result<Reply, Refusal>) {
    match spec
    case Ok((db, reply)) => after == db && r == Ok(reply)
    case Refused(e) => after == before && r == Refused(e)
  }

  predicate Persisted(before: Db, after: Db, spec: Result<Db, Refusal>, r: Result<(), Refusal>) {
    match spec
    case Ok(db) => after == db && r == Ok(())
    case Refused(e) => after == before && r == Refused(e)
  }

  /** A stored appointment that, if live, meets no other of its people and lies inside a window of its booking. */
  ghost predicate Placed(db: Db, id: Id) {
    && id in db.appointments
    && (db.appointments[id].Live() ==>
          && (forall j :: j in db.appointments && j != id ==> !Clash(db.appointments[id], db.appointments[j]))
          && (id in db.bookings ==>
                InsideWindow(db.windows, db.bookings[id].responsibility, db.appointments[id].startsAt,
                             db.appointments[id].EndsAt())))
  }

  lemma InvPlaces(s: System, id: Id)
    requires Inv(s) && id in s.db.appointments
    ensures Placed(s.db, id)
  {
  }

  /** No live booking needs the window. */
  ghost predicate Unneeded(db: Db, window: Id) {
    forall b :: b in db.bookings && b in db.appointments && db.appointments[b].Live() ==>
      InsideWindow(db.windows - {window}, db.bookings[b].responsibility, db.appointments[b].startsAt,
                   db.appointments[b].EndsAt())
  }

  lemma WithdrawnIsUnneeded(s: System, window: Id)
    requires Inv(s) && window in s.db.windows && !s.db.windows[window].active
    ensures Unneeded(s.db, window)
  {
    var db := s.db;
    forall b | b in db.bookings && b in db.appointments && db.appointments[b].Live()
      ensures InsideWindow(db.windows - {window}, db.bookings[b].responsibility, db.appointments[b].startsAt,
                           db.appointments[b].EndsAt())
    {
      var p, a := db.bookings[b].responsibility, db.appointments[b];
      var w :| w in db.windows && Offers(db.windows[w], p, a.startsAt, a.EndsAt());
      assert w in db.windows - {window} && Offers((db.windows - {window})[w], p, a.startsAt, a.EndsAt());
    }
  }

  /** An accepted request leaves tables that keep the invariant. */
  lemma AcceptedKeepsInv(before: Db, after: Db, cache: set<(Id, Appointment)>, c: Ctx, request: Request, reply: Reply)
    requires Inv(System(before, cache)) && Handle(before, c, request) == Ok((after, reply))
    ensures Inv(System(after, cache))
  {
    AdmissionsKeepsInv(System(before, cache), c, request);
  }

  lemma FreeUserMeetsNothing(db: Db, u: UserId, from: int, to: int)
    requires Free(db, {u}, from, to, None)
    ensures forall id :: id in db.appointments && db.appointments[id].Live() && u in db.appointments[id].Involved() ==>
      !Overlap(db.appointments[id].startsAt, db.appointments[id].EndsAt(), from, to)
  {
    forall id | id in db.appointments && db.appointments[id].Live() && u in db.appointments[id].Involved()
      ensures !Overlap(db.appointments[id].startsAt, db.appointments[id].EndsAt(), from, to)
    {
      assert u in db.appointments[id].Involved() * {u};
      assert id !in Occupying(db, {u}, from, to, None);
    }
  }

  /** A new booking is live, involves its people and has its place. */
  ghost predicate BookingPlaced(db: Db, c: Ctx, p: ResponsibilityId, participants: set<UserId>) {
    && Placed(db, c.newId) && c.newId in db.bookings && db.bookings[c.newId] == Booking(p, Pending)
    && db.appointments[c.newId].state == Planifie && db.appointments[c.newId].version == 1
    && db.appointments[c.newId].Involved() == {p.user, c.actor} + participants
  }

  lemma AcceptedBookingIsPlaced(before: Db, after: Db, cache: set<(Id, Appointment)>, c: Ctx, r: Request, reply: Reply)
    requires Inv(System(before, cache)) && r.CreateBooking? && KeyOf(c, r) !in before.receipts
    requires Handle(before, c, r) == Ok((after, reply))
    ensures Inv(System(after, cache)) && BookingPlaced(after, c, r.responsibility, r.participants)
  {
    AcceptedKeepsInv(before, after, cache, c, r, reply);
    InvPlaces(System(after, cache), c.newId);
    assert after.appointments[c.newId].Involved() == {r.responsibility.user, c.actor} + r.participants;
  }

  /**
   A decided booking has the outcome of its action, which its caller is told, and a place of its
   own; it moved as the table allows, in step with its appointment.
   */
  ghost predicate DecisionPlaced(before: Db, after: Db, id: Id, action: Action, reply: Reply) {
    && SchedulingContracts.Settled(before, after.(receipts := before.receipts), id, action, reply)
    && Placed(after, id) && MovesLegally(before.appointments[id], after.appointments[id])
    && LockstepPair(after.bookings[id].state, after.appointments[id].state)
  }

  lemma AcceptedDecisionIsPlaced(before: Db, after: Db, cache: set<(Id, Appointment)>, c: Ctx, r: Request, reply: Reply)
    requires Inv(System(before, cache)) && r.Decide? && KeyOf(c, r) !in before.receipts
    requires Handle(before, c, r) == Ok((after, reply))
    ensures Inv(System(after, cache)) && DecisionPlaced(before, after, r.appointment, r.action, reply)
  {
    AcceptedKeepsInv(before, after, cache, c, r, reply);
    AdmissionsEvolve(System(before, cache), c, r);
    DecisionIsSettled(before, after, c, r, reply);
    InvPlaces(System(after, cache), r.appointment);
  }

  lemma DecisionIsSettled(before: Db, after: Db, c: Ctx, r: Request, reply: Reply)
    requires r.Decide? && KeyOf(c, r) !in before.receipts && Handle(before, c, r) == Ok((after, reply))
    ensures SchedulingContracts.Settled(before, after.(receipts := before.receipts), r.appointment, r.action, reply)
  {
    SchedulingContracts.DecisionContract(before, c, r, OperationOf(r));
  }

  /**
   A stored transition has a place of its own; no row of the table moves illegally exactly when the
   row allows the record, and no outcome changes exactly when the record contradicts none.
   */
  ghost predicate TransitionPlaced(before: Db, after: Db, id: Id, record: Appointment) {
    && id in before.appointments && Placed(after, id)
    && (RowsMoveLegally(before, after) <==> !Disallowed(record, before.appointments[id]))
    && (OutcomesKept(before, after) <==> !Contradicts(record, before.appointments[id]))
  }

  lemma StoredRowIsPlaced(before: Db, after: Db, cache: set<(Id, Appointment)>, event: Id, id: Id, record: Appointment)
    requires Inv(System(before, cache)) && (id, record) in cache && event !in before.events
    requires StoreTransition(before, event, id, record) == Ok(after)
    ensures Inv(System(after, cache)) && Placed(after, id)
  {
    StoreKeepsInv(System(before, cache), event, id, record);
    InvPlaces(System(after, cache), id);
  }

  lemma StoredTransitionIsPlaced(before: Db, after: Db, cache: set<(Id, Appointment)>, event: Id, id: Id,
                                 record: Appointment)
    requires Inv(System(before, cache)) && (id, record) in cache && event !in before.events
    requires StoreTransition(before, event, id, record) == Ok(after)
    ensures Inv(System(after, cache)) && TransitionPlaced(before, after, id, record)
  {
    StoredRowIsPlaced(before, after, cache, event, id, record);
    StoreKeepsOutcomesIff(before, event, id, record);
    StoreEvolves(before, event, id, record);
  }

  lemma StoredCreationIsPlaced(before: Db, after: Db, cache: set<(Id, Appointment)>, event: Id, id: Id,
                               record: Appointment, now: int)
    requires Inv(System(before, cache)) && event !in before.events
    requires LegacyCreate(before, event, id, record, now) == Ok(after)
    ensures Inv(System(after, cache)) && Placed(after, id) && id !in after.bookings
  {
    LegacyCreateKeepsInv(System(before, cache), event, id, record, now);
    InvPlaces(System(after, cache), id);
  }

  /** A live booking of the window's responsibility that starts before its end. */
  predicate MayNeed(db: Db, window: Id, b: Id)
    requires window in db.windows
  {
    && b in db.bookings && b in db.appointments && db.bookings[b].responsibility == db.windows[window].responsibility
    && (db.bookings[b].state == Pending || db.bookings[b].state == Accepted)
    && db.appointments[b].Live() && db.appointments[b].startsAt < db.windows[window].endsAt
  }

  lemma StrandedMayNeed(db: Db, window: Id, occupied: seq<Id>)
    requires window in db.windows && forall b :: b in occupied <==> MayNeed(db, window, b)
    requires forall k :: 0 <= k < |occupied| ==> !StrandedBy(db, window, occupied[k])
    ensures forall b :: b in db.bookings ==> !StrandedBy(db, window, b)
  {
    forall b | b in db.bookings ensures !StrandedBy(db, window, b) {
      assert StrandedBy(db, window, b) ==> MayNeed(db, window, b);
    }
  }

  class Tables {
    var appointments: map<Id, Appointment>
    var bookings: map<Id, Booking>
    var windows: map<Id, Window>
    var responsibilities: map<ResponsibilityId, Responsibility>
    var accounts: set<UserId>
    var reports: set<Id>
    var receipts: map<ReceiptKey, Receipt>
    var events: set<Id>
    /** The records the in-memory services hold. */
    var cache: set<(Id, Appointment)>

    function View(): Db
      reads this
    {
      Db(appointments, bookings, windows, responsibilities, accounts, reports, receipts, events)
    }

    ghost predicate Valid()
      reads this
    {
      Inv(System(View(), cache))
    }

    constructor ()
      ensures Valid() && View() == Empty().db && cache == {}
    {
      appointments, bookings, windows, responsibilities := map[], map[], map[], map[];
      accounts, reports, receipts, events, cache := {}, {}, map[], {}, {};
    }

    /** Authorization, then the lookup of a previous receipt: `Some` ends the request. */
    method Admit(c: Ctx, r: Request) returns (done: Option<Result<Reply, Refusal>>)
      ensures done.Some? ==> Transacted(View(), View(), Handle(View(), c, r), done.value)
      ensures done.None? <==> Precheck(View(), c, r) == None && KeyOf(c, r) !in receipts
    {
      var refusal := Precheck(View(), c, r);
      if refusal.Some? {
        return Some(Refused(refusal.value));
      }
      if KeyOf(c, r) in receipts {
        var saved := receipts[KeyOf(c, r)];
        return Some(if saved.payload != r then Refused(IdempotencyConflict) else Ok(saved.reply));
      }
      return None;
    }

    method Configure(c: Ctx, p: ResponsibilityId, active: bool, expectedVersion: int)
      returns (r: Result<Reply, Refusal>)
      requires Valid()
      modifies this`responsibilities, this`receipts
      ensures Valid()
      ensures Transacted(old(View()), View(), Handle(old(View()), c, Request.Configure(p, active, expectedVersion)), r)
      ensures old(BlocksRespected(View())) ==>
        (BlocksRespected(View()) <==> !RevivesConflict(old(View()), c, Request.Configure(p, active, expectedVersion)))
    {
      var request := Request.Configure(p, active, expectedVersion);
      ghost var before := View();
      if BlocksRespected(before) {
        AdmissionsRespectBlocksIff(before, c, request);
      }
      var done := Admit(c, request);
      if done.Some? {
        return done.value;
      }
      var current := if p in responsibilities then responsibilities[p].version else 0;
      if current != expectedVersion {
        return Refused(VersionConflict);
      }
      responsibilities := responsibilities[p := Responsibility(active, current + 1)];
      var reply := ResponsibilityReply(p, active, current + 1);
      receipts := receipts[KeyOf(c, request) := Receipt(request, reply)];
      AcceptedKeepsInv(before, View(), cache, c, request, reply);
      return Ok(reply);
    }

    method CreateWindow(c: Ctx, p: ResponsibilityId, kind: WindowKind, from: int, to: int)
      returns (r: Result<Reply, Refusal>)
      requires Valid()
      modifies this`windows, this`receipts
      ensures Valid()
      ensures Transacted(old(View()), View(), Handle(old(View()), c, Request.CreateWindow(p, kind, from, to)), r)
      ensures r.Ok? && KeyOf(c, Request.CreateWindow(p, kind, from, to)) !in old(receipts) ==>
        c.newId in windows && windows[c.newId] == Window(p, kind, from, to, true, 1)
      ensures r.Ok? && KeyOf(c, Request.CreateWindow(p, kind, from, to)) !in old(receipts) && kind == Blocked ==>
        forall id :: id in appointments && appointments[id].Live() && p.user in appointments[id].Involved() ==>
          !Overlap(appointments[id].startsAt, appointments[id].EndsAt(), from, to)
    {
      var request := Request.CreateWindow(p, kind, from, to);
      ghost var before := View();
      var done := Admit(c, request);
      if done.Some? {
        return done.value;
      }
      if to <= c.now {
        return Refused(Invalid);
      }
      if kind == Blocked && !Free(View(), {p.user}, from, to, None) {
        return Refused(BookingConflict);
      }
      if c.newId in windows {
        return Refused(UniqueViolation);
      }
      windows := windows[c.newId := Window(p, kind, from, to, true, 1)];
      var reply := WindowReply(c.newId, true, 1);
      receipts := receipts[KeyOf(c, request) := Receipt(request, reply)];
      AcceptedKeepsInv(before, View(), cache, c, request, reply);
      if kind == Blocked {
        FreeUserMeetsNothing(before, p.user, from, to);
      }
      return Ok(reply);
    }

    /** The live bookings of the window's responsibility that start before its end. */
    method OccupiedBookings(id: Id) returns (occupied: seq<Id>)
      requires id in windows
      ensures forall b :: b in occupied <==> MayNeed(View(), id, b)
    {
      var row := windows[id];
      occupied := Enumerate<Id>(set b: Id |
        b in bookings && b in appointments && bookings[b].responsibility == row.responsibility
        && (bookings[b].state == Pending || bookings[b].state == Accepted)
        && appointments[b].Live() && appointments[b].startsAt < row.endsAt);
    }

    /** Some live booking of the window's responsibility uses it, and none of the other windows would still offer it. */
    method AnyStranded(id: Id) returns (found: bool)
      requires id in windows
      ensures found <==> exists b :: b in bookings && StrandedBy(View(), id, b)
    {
      var occupied := OccupiedBookings(id);
      var remaining := Enumerate<Id>(set w: Id |
        w in windows && w != id && windows[w].active && windows[w].kind == Available
        && windows[w].responsibility == windows[id].responsibility);
      for i := 0 to |occupied|
        invariant forall k :: 0 <= k < i ==> !StrandedBy(View(), id, occupied[k])
      {
        assert occupied[i] in occupied;
        var end := appointments[occupied[i]].EndsAt();
        if end > windows[id].startsAt {
          var offered := OfferedBy(id, remaining, appointments[occupied[i]].startsAt, end);
          if !offered {
            assert StrandedBy(View(), id, occupied[i]);
            return true;
          }
        }
      }
      StrandedMayNeed(View(), id, occupied);
      return false;
    }

    method OfferedBy(id: Id, remaining: seq<Id>, start: int, end: int) returns (offered: bool)
      requires id in windows
      requires forall w :: w in remaining <==>
        w in windows && w != id && windows[w].active && windows[w].kind == Available
            && windows[w].responsibility == windows[id].responsibility
      ensures offered <==> InsideWindow(windows - {id}, windows[id].responsibility, start, end)
    {
      ghost var p := windows[id].responsibility;
      for j := 0 to |remaining|
        invariant forall k :: 0 <= k < j ==> remaining[k] in windows && !Offers(windows[remaining[k]], p, start, end)
      {
        assert remaining[j] in remaining;
        var other := windows[remaining[j]];
        if other.startsAt <= start && other.endsAt >= end {
          assert remaining[j] in windows - {id} && Offers((windows - {id})[remaining[j]], p, start, end);
          return true;
        }
      }
      forall w | w in windows - {id} ensures !Offers((windows - {id})[w], p, start, end) {
        assert w in remaining || !Offers(windows[w], p, start, end);
      }
      return false;
    }

    method WithdrawWindow(c: Ctx, id: Id, expectedVersion: int) returns (r: Result<Reply, Refusal>)
      requires Valid()
      modifies this`windows, this`receipts
      ensures Valid()
      ensures Transacted(old(View()), View(), Handle(old(View()), c, Request.WithdrawWindow(id, expectedVersion)), r)
      ensures r.Ok? && KeyOf(c, Request.WithdrawWindow(id, expectedVersion)) !in old(receipts) ==>
        id in windows && !windows[id].active && Unneeded(View(), id)
    {
      var request := Request.WithdrawWindow(id, expectedVersion);
      ghost var before := View();
      var done := Admit(c, request);
      if done.Some? {
        return done.value;
      }
      var row := windows[id];
      if !row.active || row.version != expectedVersion {
        return Refused(VersionConflict);
      }
      if row.kind == Available {
        var stranded := AnyStranded(id);
        if stranded {
          return Refused(WindowInUse);
        }
      }
      windows := windows[id := row.(active := false, version := row.version + 1)];
      var reply := WindowReply(id, false, row.version + 1);
      receipts := receipts[KeyOf(c, request) := Receipt(request, reply)];
      AcceptedKeepsInv(before, View(), cache, c, request, reply);
      WithdrawnIsUnneeded(System(View(), cache), id);
      return Ok(reply);
    }

    /** assertSlot, then assertAppointmentFree. */
    method AssertPlace(c: Ctx, p: ResponsibilityId, users: set<UserId>, start: int, minutes: int, exclude: Option<Id>)
      returns (refusal: Option<Refusal>)
      ensures refusal ==
        if start <= c.now then Some(Invalid)
        else if SlotOpen(View(), p, start, minutes, c.now)
            && Free(View(), users, start, start + minutes * MINUTE, exclude) then None
        else Some(BookingConflict)
    {
      if start <= c.now {
        return Some(Invalid);
      }
      var end := start + minutes * MINUTE;
      if !InsideWindow(windows, p, start, end) || OwnBlock(windows, p, start, end) {
        return Some(BookingConflict);
      }
      if Occupying(View(), users, start, end, exclude) != {} {
        return Some(BookingConflict);
      }
      return if Blocking(View(), users, start, end) != {} then Some(BookingConflict) else None;
    }

    method CreateBooking(c: Ctx, p: ResponsibilityId, lead: Id, start: int, minutes: int, evaluated: bool,
                         participants: set<UserId>)
      returns (r: Result<Reply, Refusal>)
      requires Valid()
      modifies this`appointments, this`bookings, this`receipts
      ensures Valid()
      ensures Transacted(old(View()), View(),
                         Handle(old(View()), c, Request.CreateBooking(p, lead, start, minutes, evaluated,
                                                                      participants)), r)
      ensures r.Ok? && KeyOf(c, Request.CreateBooking(p, lead, start, minutes, evaluated,
                                                      participants)) !in old(receipts) ==>
        BookingPlaced(View(), c, p, participants)
    {
      var request := Request.CreateBooking(p, lead, start, minutes, evaluated, participants);
      ghost var before := View();
      var done := Admit(c, request);
      if done.Some? {
        return done.value;
      }
      var refusal := AssertPlace(c, p, {p.user, c.actor} + participants, start, minutes, None);
      if refusal.Some? {
        return Refused(refusal.value);
      }
      if c.newId in appointments || c.newId in bookings {
        return Refused(UniqueViolation);
      }
      var evaluator := if evaluated then Some(p.user) else None;
      appointments := appointments[c.newId :=
          Appointment(lead, start, minutes, p.user, c.actor, evaluator, participants, Planifie, 1)];
      bookings := bookings[c.newId := Booking(p, Pending)];
      var reply := BookingReply(c.newId, Pending, Planifie, start, 1);
      receipts := receipts[KeyOf(c, request) := Receipt(request, reply)];
      AcceptedBookingIsPlaced(before, View(), cache, c, request, reply);
      return Ok(reply);
    }

    /** What a decision checks of the stored booking and of the place it asks for. */
    method GuardDecision(c: Ctx, id: Id, action: Action, expectedVersion: int) returns (refusal: Option<Refusal>)
      requires id in bookings && id in appointments
      ensures refusal.None? <==> ApplyDecide(View(), c, id, action, expectedVersion).Ok?
      ensures refusal.Some? ==> ApplyDecide(View(), c, id, action, expectedVersion) == Refused(refusal.value)
    {
      var b, a := bookings[id], appointments[id];
      if a.version != expectedVersion {
        return Some(VersionConflict);
      }
      if b.state == Declined || b.state == Cancelled || Terminal(a.state) {
        return Some(TransitionRefused);
      }
      if (action.Accept? || action.Decline?) && b.state != Pending {
        return Some(TransitionRefused);
      }
      if (action.Complete? || action.NoShow?) && (b.state != Accepted || a.EndsAt() > c.now) {
        return Some(TransitionRefused);
      }
      if action.Accept? || action.Reschedule? {
        var start := if action.Reschedule? then action.startsAt else a.startsAt;
        refusal := AssertPlace(c, b.responsibility, a.Involved(), start, a.minutes, Some(id));
        return;
      }
      return None;
    }

    method Decide(c: Ctx, id: Id, action: Action, expectedVersion: int) returns (r: Result<Reply, Refusal>)
      requires Valid()
      modifies this`appointments, this`bookings, this`receipts
      ensures Valid()
      ensures Transacted(old(View()), View(), Handle(old(View()), c, Request.Decide(id, action, expectedVersion)), r)
      ensures r.Ok? && KeyOf(c, Request.Decide(id, action, expectedVersion)) !in old(receipts) ==>
        DecisionPlaced(old(View()), View(), id, action, r.value)
    {
      var request := Request.Decide(id, action, expectedVersion);
      ghost var before := View();
      var done := Admit(c, request);
      if done.Some? {
        return done.value;
      }
      var b, a := bookings[id], appointments[id];
      var start := if action.Reschedule? then action.startsAt else a.startsAt;
      var refusal := GuardDecision(c, id, action, expectedVersion);
      if refusal.Some? {
        return Refused(refusal.value);
      }
      a := a.(startsAt := start, state := NextAppointmentState(action), version := a.version + 1);
      b := b.(state := NextBookingState(action, b.state));
      appointments := appointments[id := a];
      bookings := bookings[id := b];
      var reply := BookingReply(id, b.state, a.state, a.startsAt, a.version);
      receipts := receipts[KeyOf(c, request) := Receipt(request, reply)];
      AcceptedDecisionIsPlaced(before, View(), cache, c, request, reply);
      return Ok(reply);
    }

    /** refreshPersistentState: the stored rows replace or join what a process holds. */
    method Refresh()
      requires Valid()
      modifies this`cache
      ensures Valid() && cache == old(cache) + Rows(View())
    {
      cache := cache + Rows(View());
    }

    /** The second writer: a directly planned appointment. */
    method PersistCreate(event: Id, id: Id, record: Appointment, now: int) returns (r: Result<(), Refusal>)
      requires Valid()
      modifies this`appointments, this`events
      ensures Valid()
      ensures Persisted(old(View()), View(), LegacyCreate(old(View()), event, id, record, now), r)
      ensures r.Ok? && event !in old(events) ==> Placed(View(), id) && id !in bookings
    {
      ghost var before := View();
      if record.minutes < 15 || record.minutes > 480 || !(record.state == Brouillon || record.state == Planifie)
         || record.version != 1 || record.startsAt <= now {
        return Refused(Invalid);
      }
      if event in events {
        return Ok(());
      }
      if exists p :: p in responsibilities && p.user == record.adviser && ProfileActive(View(), p) {
        return Refused(ControlledBookingRequired);
      }
      if !Free(View(), record.Involved(), record.startsAt, record.EndsAt(), None) {
        return Refused(BookingConflict);
      }
      if id in appointments {
        return Refused(UniqueViolation);
      }
      appointments := appointments[id := record];
      events := events + {event};
      StoredCreationIsPlaced(before, View(), cache, event, id, record, now);
      return Ok(());
    }

    /** The in-memory service: the computed record enters the cache before anything is stored. */
    method Transition(id: Id, cached: Appointment, next: AppointmentState, start: int, now: int)
      returns (r: Result<Appointment, Refusal>)
      requires Valid() && (id, cached) in cache
      modifies this`cache
      ensures Valid() && r == Computed(cached, next, start, now)
      ensures cache == old(cache) + if r.Ok? then {(id, r.value)} else {}
      ensures r.Ok? ==> r.value.SameParty(cached) && MayBecome(cached, r.value.state, r.value.startsAt)
    {
      if next !in Transitions(cached.state) {
        return Refused(TransitionRefused);
      }
      if (next == Realise || next == Absent) && now < cached.EndsAt() {
        return Refused(Invalid);
      }
      if next == Reporte && start <= now {
        return Refused(Invalid);
      }
      var record := cached.(state := next, startsAt := if next == Reporte then start else cached.startsAt,
                            version := cached.version + 1);
      ghost var before := System(View(), cache);
      cache := cache + {(id, record)};
      NextKeepsInv(before, Compute(id, cached, next, start, now));
      return Ok(record);
    }

    /** The second writer stores a computed record. */
    method PersistTransition(event: Id, id: Id, record: Appointment) returns (r: Result<(), Refusal>)
      requires Valid() && (id, record) in cache
      modifies this`appointments, this`events
      ensures Valid()
      ensures Persisted(old(View()), View(), StoreTransition(old(View()), event, id, record), r)
      ensures r.Ok? && event !in old(events) ==> TransitionPlaced(old(View()), View(), id, record)
    {
      ghost var before := View();
      if event in events {
        return Ok(());
      }
      if id in bookings {
        return Refused(ControlledTransitionRequired);
      }
      if !Terminal(record.state) && !Free(View(), record.Involved(), record.startsAt, record.EndsAt(), Some(id)) {
        return Refused(BookingConflict);
      }
      if id !in appointments || appointments[id].version != record.version - 1 {
        return Refused(TransitionRefused);
      }
      appointments := appointments[id :=
          appointments[id].(state := record.state, startsAt := record.startsAt, version := record.version)];
      events := events + {event};
      StoredTransitionIsPlaced(before, View(), cache, event, id, record);
      return Ok(());
    }
  }
}
