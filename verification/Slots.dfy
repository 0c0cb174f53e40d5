/**
 The slot search.  `FreeSlots` walks the 15-minute grid of every declared window;
 `Slots` runs it on the rows the service reads.  The starts it returns are exactly
 those at which the booking transaction would succeed.
 */
module Slots {
  import opened Prelude
  import opened Scheduling
  import SchedulingContracts
  import opened Collections

  const STEP := 15 * MINUTE

  datatype Interval = Interval(startsAt: int, endsAt: int)

  /** `start` lies on the window's own grid, in the requested range and in the future. */
  predicate OnGrid(w: Interval, from: int, to: int, minutes: int, now: int, start: int) {
    && w.startsAt <= start && (start - w.startsAt) % STEP == 0
    && from <= start && now < start
    && start + minutes * MINUTE <= w.endsAt && start + minutes * MINUTE <= to
  }

  predicate Clear(occupied: seq<Interval>, start: int, end: int) {
    forall i :: 0 <= i < |occupied| ==> !Overlap(occupied[i].startsAt, occupied[i].endsAt, start, end)
  }

  predicate Offered(available: seq<Interval>, occupied: seq<Interval>, from: int, to: int, minutes: int, now: int,
                    start: int) {
    && Clear(occupied, start, start + minutes * MINUTE)
    && exists i :: 0 <= i < |available| && OnGrid(available[i], from, to, minutes, now, start)
  }

  predicate Lists(slots: seq<Interval>, start: int) {
    exists i :: 0 <= i < |slots| && slots[i].startsAt == start
  }

  function CeilDiv(a: int, b: int): (q: int)
    requires a >= 0 && b > 0
    ensures q * b >= a && (q - 1) * b < a
  {
    (a + b - 1) / b
  }

  function Max(a: int, b: int): int { if a < b then b else a }
  function Min(a: int, b: int): int { if a < b then a else b }

  /** The starts found so far, each with its slot. */
  predicate SlotMap(result: map<int, Interval>, minutes: int) {
    forall t :: t in result ==> result[t] == Interval(t, t + minutes * MINUTE)
  }

  /** The first grid point at or after the later of the window's start, the range's start and the next millisecond. */
  function FirstStart(w: Interval, from: int, now: int): (start: int)
    ensures w.startsAt <= start && from <= start && now < start && (start - w.startsAt) % STEP == 0
    ensures start - STEP < Max(Max(w.startsAt, from), now + 1)
  {
    w.startsAt + CeilDiv(Max(Max(w.startsAt, from), now + 1) - w.startsAt, STEP) * STEP
  }

  method WalkWindow(w: Interval, occupied: seq<Interval>, from: int, to: int, minutes: int, now: int,
                    found: map<int, Interval>)
    returns (result: map<int, Interval>)
    requires SlotMap(found, minutes)
    ensures SlotMap(result, minutes)
    ensures forall t :: t in result <==>
      t in found || (OnGrid(w, from, to, minutes, now, t) && Clear(occupied, t, t + minutes * MINUTE))
  {
    result := found;
    var start := FirstStart(w, from, now);
    var latest := Min(w.endsAt, to);
    while start + minutes * MINUTE <= latest
      invariant w.startsAt <= start && from <= start && now < start && (start - w.startsAt) % STEP == 0
      invariant start - STEP < Max(Max(w.startsAt, from), now + 1) || start - STEP + minutes * MINUTE <= latest
      invariant SlotMap(result, minutes)
      invariant forall t :: t in result <==>
        t in found || (OnGrid(w, from, to, minutes, now, t) && t < start && Clear(occupied, t, t + minutes * MINUTE))
      decreases latest - start - minutes * MINUTE
    {
      var end := start + minutes * MINUTE;
      if Clear(occupied, start, end) {
        result := result[start := Interval(start, end)];
      }
      GridGap(w, from, to, minutes, now, start);
      start := start + STEP;
    }
  }

  /** Nothing lies on the grid strictly between two neighbouring points. */
  lemma GridGap(w: Interval, from: int, to: int, minutes: int, now: int, start: int)
    requires (start - w.startsAt) % STEP == 0
    ensures forall t :: OnGrid(w, from, to, minutes, now, t) && start <= t < start + STEP ==> t == start
  {
  }

  method FreeSlots(available: seq<Interval>, occupied: seq<Interval>, from: int, to: int, minutes: int, now: int)
    returns (slots: seq<Interval>)
    ensures forall i, j :: 0 <= i < j < |slots| ==> slots[i].startsAt < slots[j].startsAt
    ensures forall i :: 0 <= i < |slots| ==> slots[i].endsAt == slots[i].startsAt + minutes * MINUTE
    ensures forall start :: Lists(slots, start) <==> Offered(available, occupied, from, to, minutes, now, start)
  {
    var result: map<int, Interval> := map[];
    for k := 0 to |available|
      invariant SlotMap(result, minutes)
      invariant forall t :: t in result <==> Offered(available[..k], occupied, from, to, minutes, now, t)
    {
      result := WalkWindow(available[k], occupied, from, to, minutes, now, result);
      WindowAdded(available, k, occupied, from, to, minutes, now);
    }
    assert available[..|available|] == available;
    slots := SortByStart(result, minutes);
  }

  /** The values of the map, sorted by start. */
  method SortByStart(result: map<int, Interval>, minutes: int) returns (slots: seq<Interval>)
    requires SlotMap(result, minutes)
    ensures forall i, j :: 0 <= i < j < |slots| ==> slots[i].startsAt < slots[j].startsAt
    ensures forall i :: 0 <= i < |slots| ==> slots[i].endsAt == slots[i].startsAt + minutes * MINUTE
    ensures forall start :: Lists(slots, start) <==> start in result
  {
    var keys := Sorted(result.Keys);
    assert forall i :: 0 <= i < |keys| ==> keys[i] in keys;
    slots := seq(|keys|, i requires 0 <= i < |keys| => result[keys[i]]);
    forall start | start in result ensures Lists(slots, start) {
      var i :| 0 <= i < |keys| && keys[i] == start;
      assert slots[i].startsAt == start;
    }
  }

  lemma WindowAdded(available: seq<Interval>, k: nat, occupied: seq<Interval>, from: int, to: int, minutes: int,
                    now: int)
    requires k < |available|
    ensures forall t :: Offered(available[..k + 1], occupied, from, to, minutes, now, t) <==>
      Offered(available[..k], occupied, from, to, minutes, now, t)
      || (OnGrid(available[k], from, to, minutes, now, t) && Clear(occupied, t, t + minutes * MINUTE))
  {
    var shorter, longer := available[..k], available[..k + 1];
    forall t | Clear(occupied, t, t + minutes * MINUTE)
      ensures Offered(longer, occupied, from, to, minutes, now, t) <==>
        Offered(shorter, occupied, from, to, minutes, now, t) || OnGrid(available[k], from, to, minutes, now, t)
    {
      if OnGrid(available[k], from, to, minutes, now, t) {
        assert OnGrid(longer[k], from, to, minutes, now, t);
      }
      if i :| 0 <= i < k && OnGrid(shorter[i], from, to, minutes, now, t) {
        assert OnGrid(longer[i], from, to, minutes, now, t);
      }
      if i :| 0 <= i < k + 1 && OnGrid(longer[i], from, to, minutes, now, t) && i < k {
        assert OnGrid(shorter[i], from, to, minutes, now, t);
      }
    }
  }

  // ---------------------------------------------------------------- the service's search

  /** The windows of the responsibility that touch the range. */
  predicate Touches(w: Window, r: ResponsibilityId, from: int, to: int) {
    w.responsibility == r && w.active && w.startsAt < to && from < w.endsAt
  }

  /** `start` is on the grid of an active AVAILABLE window of the responsibility, within the range. */
  ghost predicate InRange(db: Db, r: ResponsibilityId, from: int, to: int, minutes: int, start: int) {
    && from <= start && start + minutes * MINUTE <= to
    && exists w :: w in db.windows && Offers(db.windows[w], r, start, start + minutes * MINUTE)
                   && (start - db.windows[w].startsAt) % STEP == 0
  }

  /** assertSlot and assertAppointmentFree both pass for this start at this instant. */
  predicate Bookable(db: Db, r: ResponsibilityId, users: set<UserId>, exclude: Option<Id>, minutes: int, now: int,
                     start: int) {
    SlotOpen(db, r, start, minutes, now) && Free(db, users, start, start + minutes * MINUTE, exclude)
  }

  /**
   A start in a window is bookable when every block and every live appointment of the people
   involved is over by then, or begins at the end of the meeting or later.
   */
  lemma TouchingStartIsBookable(db: Db, r: ResponsibilityId, users: set<UserId>, exclude: Option<Id>, minutes: int,
                                now: int, start: int, w: Id)
    requires now < start && r.user in users && w in db.windows && db.windows[w].active
    requires db.windows[w].kind == Available && db.windows[w].responsibility == r
    requires db.windows[w].startsAt <= start && start + minutes * 60_000 <= db.windows[w].endsAt
    requires forall v, u :: v in db.windows && u in users ==>
      SchedulingContracts.BlockClears(db.windows[v], u, start, start + minutes * 60_000)
    requires forall id, u :: id in db.appointments && exclude != Some(id) && u in users ==>
      SchedulingContracts.Clears(db.appointments[id], u, start, start + minutes * 60_000)
    ensures Bookable(db, r, users, exclude, minutes, now, start)
  {
    var end := start + minutes * 60_000;
    SchedulingContracts.TouchingIsFree(db, users, start, end, exclude);
    assert Offers(db.windows[w], r, start, end);
    assert forall v :: v in db.windows ==> SchedulingContracts.BlockClears(db.windows[v], r.user, start, end);
  }

  /** What the service reads: its own windows, the blocks of the people involved, their appointments. */
  ghost predicate ReadFrom(db: Db, r: ResponsibilityId, users: set<UserId>, exclude: Option<Id>, from: int, to: int,
                           opens: seq<Id>, shuts: seq<Id>, busies: seq<Id>) {
    && (forall w :: w in opens <==>
          w in db.windows && Touches(db.windows[w], r, from, to) && db.windows[w].kind == Available)
    && (forall w :: w in shuts <==>
          || (w in db.windows && Touches(db.windows[w], r, from, to) && db.windows[w].kind == Blocked)
          || w in Blocking(db, users, from, to))
    && (forall id :: id in busies <==> id in Occupying(db, users, from, to, exclude))
  }

  method WindowIntervals(db: Db, ids: seq<Id>) returns (intervals: seq<Interval>)
    requires forall i :: 0 <= i < |ids| ==> ids[i] in db.windows
    ensures |intervals| == |ids|
    ensures forall i :: 0 <= i < |ids| ==>
        intervals[i] == Interval(db.windows[ids[i]].startsAt, db.windows[ids[i]].endsAt)
  {
    intervals := seq(|ids|, i requires 0 <= i < |ids| => Interval(db.windows[ids[i]].startsAt,
                                                                  db.windows[ids[i]].endsAt));
  }

  method MeetingIntervals(db: Db, ids: seq<Id>) returns (intervals: seq<Interval>)
    requires forall i :: 0 <= i < |ids| ==> ids[i] in db.appointments
    ensures |intervals| == |ids|
    ensures forall i :: 0 <= i < |ids| ==>
      intervals[i] == Interval(db.appointments[ids[i]].startsAt, db.appointments[ids[i]].EndsAt())
  {
    intervals := seq(|ids|, i requires 0 <= i < |ids| =>
                       Interval(db.appointments[ids[i]].startsAt, db.appointments[ids[i]].EndsAt()));
  }

  method Slots(db: Db, r: ResponsibilityId, users: set<UserId>, exclude: Option<Id>, from: int, to: int, minutes: int,
               now: int)
    returns (slots: seq<Interval>)
    requires from < to && 15 <= minutes <= 480
    ensures forall i, j :: 0 <= i < j < |slots| ==> slots[i].startsAt < slots[j].startsAt
    ensures forall i :: 0 <= i < |slots| ==> slots[i].endsAt == slots[i].startsAt + minutes * MINUTE
    ensures forall start :: Lists(slots, start) <==>
      InRange(db, r, from, to, minutes, start) && Bookable(db, r, users, exclude, minutes, now, start)
  {
    var opens, shuts, busies := Read(db, r, users, exclude, from, to);
    var available := WindowIntervals(db, opens);
    var blocks := WindowIntervals(db, shuts);
    var meetings := MeetingIntervals(db, busies);
    slots := FreeSlots(available, blocks + meetings, from, to, minutes, now);
    forall start
      ensures Offered(available, blocks + meetings, from, to, minutes, now, start) <==>
        InRange(db, r, from, to, minutes, start) && Bookable(db, r, users, exclude, minutes, now, start)
    {
      SearchIsExact(db, r, users, exclude, from, to, minutes, now, opens, shuts, busies, available, blocks, meetings,
                    start);
    }
  }

  method Read(db: Db, r: ResponsibilityId, users: set<UserId>, exclude: Option<Id>, from: int, to: int)
    returns (opens: seq<Id>, shuts: seq<Id>, busies: seq<Id>)
    ensures ReadFrom(db, r, users, exclude, from, to, opens, shuts, busies)
    ensures forall i :: 0 <= i < |opens| ==> opens[i] in db.windows
    ensures forall i :: 0 <= i < |shuts| ==> shuts[i] in db.windows
    ensures forall i :: 0 <= i < |busies| ==> busies[i] in db.appointments
  {
    opens := Enumerate<Id>(set w: Id | w in db.windows && Touches(db.windows[w], r, from, to)
                           && db.windows[w].kind == Available);
    shuts := Enumerate<Id>((set w: Id | w in db.windows && Touches(db.windows[w], r, from, to)
                            && db.windows[w].kind == Blocked)
                           + Blocking(db, users, from, to));
    busies := Enumerate<Id>(Occupying(db, users, from, to, exclude));
    assert forall i :: 0 <= i < |opens| ==> opens[i] in opens;
    assert forall i :: 0 <= i < |shuts| ==> shuts[i] in shuts;
    assert forall i :: 0 <= i < |busies| ==> busies[i] in busies;
  }

  lemma SearchIsExact(db: Db, r: ResponsibilityId, users: set<UserId>, exclude: Option<Id>, from: int, to: int,
                      minutes: int, now: int,
                      opens: seq<Id>, shuts: seq<Id>, busies: seq<Id>,
                      available: seq<Interval>, blocks: seq<Interval>, meetings: seq<Interval>, start: int)
    requires minutes > 0 && ReadFrom(db, r, users, exclude, from, to, opens, shuts, busies)
    requires |available| == |opens| && |blocks| == |shuts| && |meetings| == |busies|
    requires forall i :: 0 <= i < |opens| ==>
      opens[i] in db.windows && available[i] == Interval(db.windows[opens[i]].startsAt, db.windows[opens[i]].endsAt)
    requires forall i :: 0 <= i < |shuts| ==>
      shuts[i] in db.windows && blocks[i] == Interval(db.windows[shuts[i]].startsAt, db.windows[shuts[i]].endsAt)
    requires forall i :: 0 <= i < |busies| ==>
      && busies[i] in db.appointments
      && meetings[i] == Interval(db.appointments[busies[i]].startsAt, db.appointments[busies[i]].EndsAt())
    ensures Offered(available, blocks + meetings, from, to, minutes, now, start) <==>
      InRange(db, r, from, to, minutes, start) && Bookable(db, r, users, exclude, minutes, now, start)
  {
    var end := start + minutes * MINUTE;
    if from <= start && end <= to {
      ClearBlocks(db, r, users, from, to, start, end, shuts, blocks);
      ClearMeetings(db, users, exclude, from, to, start, end, busies, meetings);
      ClearConcat(blocks, meetings, start, end);
      GridWindows(db, r, from, to, minutes, now, start, opens, available);
    }
  }

  lemma ClearConcat(a: seq<Interval>, b: seq<Interval>, start: int, end: int)
    ensures Clear(a + b, start, end) <==> Clear(a, start, end) && Clear(b, start, end)
  {
    if Clear(a + b, start, end) {
      forall i | 0 <= i < |a| ensures !Overlap(a[i].startsAt, a[i].endsAt, start, end) { assert (a + b)[i] == a[i]; }
      forall i | 0 <= i < |b| ensures !Overlap(b[i].startsAt, b[i].endsAt, start, end) {
        assert (a + b)[|a| + i] == b[i];
      }
    }
  }

  /** Reading only the blocks that touch the range loses none that touches a slot of the range. */
  lemma ClearBlocks(db: Db, r: ResponsibilityId, users: set<UserId>, from: int, to: int, start: int, end: int,
                    shuts: seq<Id>, blocks: seq<Interval>)
    requires from <= start < end <= to && |blocks| == |shuts|
    requires forall w :: w in shuts <==>
      || (w in db.windows && Touches(db.windows[w], r, from, to) && db.windows[w].kind == Blocked)
      || w in Blocking(db, users, from, to)
    requires forall i :: 0 <= i < |shuts| ==>
      shuts[i] in db.windows && blocks[i] == Interval(db.windows[shuts[i]].startsAt, db.windows[shuts[i]].endsAt)
    ensures Clear(blocks, start, end) <==> !OwnBlock(db.windows, r, start, end) && Blocking(db, users, start, end) == {}
  {
    forall w | w in shuts && Overlap(db.windows[w].startsAt, db.windows[w].endsAt, start, end)
      ensures !Clear(blocks, start, end)
    {
      var i :| 0 <= i < |shuts| && shuts[i] == w;
      assert Overlap(blocks[i].startsAt, blocks[i].endsAt, start, end);
    }
    assert Blocking(db, users, start, end) <= Blocking(db, users, from, to);
    if !Clear(blocks, start, end) {
      var i :| 0 <= i < |blocks| && Overlap(blocks[i].startsAt, blocks[i].endsAt, start, end);
      assert shuts[i] in shuts;
      if shuts[i] in Blocking(db, users, from, to) {
        assert shuts[i] in Blocking(db, users, start, end);
      }
    }
  }

  lemma ClearMeetings(db: Db, users: set<UserId>, exclude: Option<Id>, from: int, to: int, start: int, end: int,
                      busies: seq<Id>, meetings: seq<Interval>)
    requires from <= start < end <= to && |meetings| == |busies|
    requires forall id :: id in busies <==> id in Occupying(db, users, from, to, exclude)
    requires forall i :: 0 <= i < |busies| ==>
      && busies[i] in db.appointments
      && meetings[i] == Interval(db.appointments[busies[i]].startsAt, db.appointments[busies[i]].EndsAt())
    ensures Clear(meetings, start, end) <==> Occupying(db, users, start, end, exclude) == {}
  {
    forall id | id in Occupying(db, users, start, end, exclude) ensures !Clear(meetings, start, end) {
      assert id in Occupying(db, users, from, to, exclude);
      var i :| 0 <= i < |busies| && busies[i] == id;
      assert Overlap(meetings[i].startsAt, meetings[i].endsAt, start, end);
    }
    if !Clear(meetings, start, end) {
      var i :| 0 <= i < |meetings| && Overlap(meetings[i].startsAt, meetings[i].endsAt, start, end);
      assert busies[i] in busies;
      assert busies[i] in Occupying(db, users, start, end, exclude);
    }
  }

  lemma GridWindows(db: Db, r: ResponsibilityId, from: int, to: int, minutes: int, now: int, start: int,
                    opens: seq<Id>, available: seq<Interval>)
    requires from <= start && start + minutes * MINUTE <= to && minutes > 0 && |available| == |opens|
    requires forall w :: w in opens <==>
        w in db.windows && Touches(db.windows[w], r, from, to) && db.windows[w].kind == Available
    requires forall i :: 0 <= i < |opens| ==>
      opens[i] in db.windows && available[i] == Interval(db.windows[opens[i]].startsAt, db.windows[opens[i]].endsAt)
    ensures (exists i :: 0 <= i < |available| && OnGrid(available[i], from, to, minutes, now, start)) <==>
      now < start && InRange(db, r, from, to, minutes, start)
  {
    if i :| 0 <= i < |available| && OnGrid(available[i], from, to, minutes, now, start) {
      assert opens[i] in opens;
      assert Offers(db.windows[opens[i]], r, start, start + minutes * MINUTE);
    }
    if now < start && InRange(db, r, from, to, minutes, start) {
      var w :| w in db.windows && Offers(db.windows[w], r, start, start + minutes * MINUTE)
               && (start - db.windows[w].startsAt) % STEP == 0;
      assert w in opens;
      var i :| 0 <= i < |opens| && opens[i] == w;
      assert OnGrid(available[i], from, to, minutes, now, start);
    }
  }

  // ---------------------------------------------------------------- search against booking

  /** People are free together exactly when they are free apart. */
  lemma FreeTogether(db: Db, a: set<UserId>, b: set<UserId>, from: int, to: int, exclude: Option<Id>)
    ensures Free(db, a + b, from, to, exclude) <==> Free(db, a, from, to, exclude) && Free(db, b, from, to, exclude)
  {
    forall id | id in db.appointments
      ensures db.appointments[id].Involved() * (a + b) != {} <==>
        db.appointments[id].Involved() * a != {} || db.appointments[id].Involved() * b != {}
    {
      MeetsUnion(db.appointments[id].Involved(), a, b);
    }
    assert Occupying(db, a + b, from, to, exclude)
        == Occupying(db, a, from, to, exclude) + Occupying(db, b, from, to, exclude);
    assert Blocking(db, a + b, from, to) == Blocking(db, a, from, to) + Blocking(db, b, from, to);
  }

  lemma MeetsUnion(s: set<UserId>, a: set<UserId>, b: set<UserId>)
    ensures s * (a + b) != {} <==> s * a != {} || s * b != {}
  {
    assert s * (a + b) == s * a + s * b;
  }

  /** The booking transaction succeeds exactly at a bookable start at which the further participants are free too. */
  lemma BookingSucceedsIff(db: Db, c: Ctx, r: ResponsibilityId, lead: Id, start: int, minutes: int, evaluated: bool,
                           participants: set<UserId>)
    requires var q := CreateBooking(r, lead, start, minutes, evaluated, participants);
      Precheck(db, c, q) == None && KeyOf(c, q) !in db.receipts
    requires c.newId !in db.appointments && c.newId !in db.bookings
    ensures Handle(db, c, CreateBooking(r, lead, start, minutes, evaluated, participants)).Ok? <==>
      && Bookable(db, r, {r.user, c.actor}, None, minutes, c.now, start)
      && Free(db, participants, start, start + minutes * MINUTE, None)
  {
    FreeTogether(db, {r.user, c.actor}, participants, start, start + minutes * MINUTE, None);
  }

  /** Rescheduling succeeds exactly at a start bookable for the people of the booking, itself left aside. */
  lemma ReschedulingSucceedsIff(db: Db, c: Ctx, id: Id, start: int)
    requires id in db.bookings && id in db.appointments
    requires var q := Decide(id, Reschedule(start), db.appointments[id].version);
      Precheck(db, c, q) == None && KeyOf(c, q) !in db.receipts
    requires db.appointments[id].Live() && db.bookings[id].state in {Pending, Accepted}
    ensures
      var a := db.appointments[id];
      Handle(db, c, Decide(id, Reschedule(start), a.version)).Ok? <==>
      Bookable(db, db.bookings[id].responsibility, a.Involved(), Some(id), a.minutes, c.now, start)
  {
  }

  /**
   The slots offered for a new booking are exactly the grid starts of the range at which
   booking at that instant succeeds; with further participants, those at which they are free.
   */
  method SlotsForBooking(db: Db, c: Ctx, r: ResponsibilityId, lead: Id, evaluated: bool, from: int, to: int,
                         minutes: int)
    returns (slots: seq<Interval>)
    requires from < to && 15 <= minutes <= 480
    requires var q := CreateBooking(r, lead, from, minutes, evaluated, {});
      Precheck(db, c, q) == None && KeyOf(c, q) !in db.receipts
    requires c.newId !in db.appointments && c.newId !in db.bookings
    ensures forall start :: Lists(slots, start) <==>
      InRange(db, r, from, to, minutes, start)
          && Handle(db, c, CreateBooking(r, lead, start, minutes, evaluated, {})).Ok?
    ensures forall start, participants: set<UserId> :: |participants| <= 20 ==>
      (Lists(slots, start) && Free(db, participants, start, start + minutes * MINUTE, None) <==>
       InRange(db, r, from, to, minutes, start)
           && Handle(db, c, CreateBooking(r, lead, start, minutes, evaluated, participants)).Ok?)
  {
    slots := Slots(db, r, {r.user, c.actor}, None, from, to, minutes, c.now);
    forall start, participants: set<UserId> | |participants| <= 20
      ensures Lists(slots, start) && Free(db, participants, start, start + minutes * MINUTE, None) <==>
        InRange(db, r, from, to, minutes, start)
            && Handle(db, c, CreateBooking(r, lead, start, minutes, evaluated, participants)).Ok?
    {
      BookingSucceedsIff(db, c, r, lead, start, minutes, evaluated, participants);
    }
    forall start
      ensures Lists(slots, start) <==>
        InRange(db, r, from, to, minutes, start)
            && Handle(db, c, CreateBooking(r, lead, start, minutes, evaluated, {})).Ok?
    {
      BookingSucceedsIff(db, c, r, lead, start, minutes, evaluated, {});
      NobodyIsFree(db, start, start + minutes * MINUTE);
    }
  }

  lemma NobodyIsFree(db: Db, from: int, to: int)
    ensures Free(db, {}, from, to, None)
  {
    assert forall id :: id in db.appointments ==> db.appointments[id].Involved() * {} == {};
  }

  /**
   The slots offered on an existing booking are exactly the grid starts of the range to which it can
   be rescheduled at that instant.
   */
  method SlotsForRescheduling(db: Db, c: Ctx, id: Id, from: int, to: int) returns (slots: seq<Interval>)
    requires from < to && id in db.bookings && id in db.appointments && 15 <= db.appointments[id].minutes <= 480
    requires var q := Decide(id, Reschedule(from), db.appointments[id].version);
      Precheck(db, c, q) == None && KeyOf(c, q) !in db.receipts
    requires db.appointments[id].Live() && db.bookings[id].state in {Pending, Accepted}
    ensures forall start :: Lists(slots, start) <==>
      && InRange(db, db.bookings[id].responsibility, from, to, db.appointments[id].minutes, start)
      && Handle(db, c, Decide(id, Reschedule(start), db.appointments[id].version)).Ok?
  {
    var a := db.appointments[id];
    slots := Slots(db, db.bookings[id].responsibility, a.Involved(), Some(id), from, to, a.minutes, c.now);
    forall start
      ensures Lists(slots, start) <==>
        && InRange(db, db.bookings[id].responsibility, from, to, a.minutes, start)
        && Handle(db, c, Decide(id, Reschedule(start), a.version)).Ok?
    {
      ReschedulingSucceedsIff(db, c, id, start);
    }
  }
}
