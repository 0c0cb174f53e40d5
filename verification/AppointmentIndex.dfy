/**
 Conflict and overload warnings of the in-memory appointment list.  One pass builds the
 participant and day indexes, a second reads the warnings off them; the result is the
 direct definition over all pairs of records.
 */
module AppointmentIndex {
  import opened Prelude
  import opened Scheduling
  import SchedulingContracts
  import opened Collections

  datatype Item = Item(appointment: Appointment, conflict: bool, overload: bool)

  type Items = map<Id, Item>

  // ---------------------------------------------------------------- the direct definition

  /** `j` is another active record that shares a person with `i` and overlaps it. */
  predicate ConflictsWith(items: Items, i: Id, j: Id)
    requires i in items && j in items
  {
    var a, b := items[i].appointment, items[j].appointment;
    && j != i && b.Live() && a.Involved() * b.Involved() != {}
    && Overlap(a.startsAt, a.EndsAt(), b.startsAt, b.EndsAt())
  }

  ghost predicate Conflict(items: Items, i: Id)
    requires i in items
  {
    exists j :: j in items && ConflictsWith(items, i, j)
  }

  /** The other active records of the adviser on the same local day. */
  function SameDay(items: Items, day: int -> int, i: Id): set<Id>
    requires i in items
  {
    set j | j in items && j != i && items[j].appointment.Live()
            && items[j].appointment.adviser == items[i].appointment.adviser
            && day(items[j].appointment.startsAt) == day(items[i].appointment.startsAt)
  }

  // ---------------------------------------------------------------- the indexes

  datatype Indexes = Indexes(byPerson: map<UserId, set<Id>>, byDay: map<(UserId, int), nat>)

  function Lookup(byPerson: map<UserId, set<Id>>, u: UserId): set<Id> {
    if u in byPerson then byPerson[u] else {}
  }

  function People(x: Indexes, u: UserId): set<Id> {
    Lookup(x.byPerson, u)
  }

  function DayCount(x: Indexes, k: (UserId, int)): nat {
    if k in x.byDay then x.byDay[k] else 0
  }

  function DayKey(a: Appointment, day: int -> int): (UserId, int) {
    (a.adviser, day(a.startsAt))
  }

  /** The active records among `done` that fall under a day key. */
  function UnderDay(items: Items, day: int -> int, done: set<Id>, k: (UserId, int)): set<Id>
    requires done <= items.Keys
  {
    set j | j in done && items[j].appointment.Live() && DayKey(items[j].appointment, day) == k
  }

  /** The indexes describe exactly the active records among `done`. */
  ghost predicate Indexed(items: Items, day: int -> int, done: set<Id>, x: Indexes) {
    && done <= items.Keys
    && (forall u, j {:trigger j in People(x, u)} :: j in People(x, u) <==>
          j in done && items[j].appointment.Live() && u in items[j].appointment.Involved())
    && (forall k :: DayCount(x, k) == |UnderDay(items, day, done, k)|)
  }

  method AddPeople(byPerson: map<UserId, set<Id>>, users: set<UserId>, id: Id) returns (result: map<UserId, set<Id>>)
    ensures forall u, j :: j in Lookup(result, u) <==>
      j in Lookup(byPerson, u) || (j == id && u in users)
  {
    result := byPerson;
    var rest := users;
    while rest != {}
      invariant rest <= users
      invariant forall u, j :: j in Lookup(result, u) <==>
          j in Lookup(byPerson, u) || (j == id && u in users && u !in rest)
    {
      var u :| u in rest;
      ghost var previous := result;
      result := result[u := Lookup(result, u) + {id}];
      rest := rest - {u};
      assert forall v :: Lookup(result, v) == if v == u then Lookup(previous, u) + {id} else Lookup(previous, v);
    }
  }

  lemma UnderDayStep(items: Items, day: int -> int, done: set<Id>, id: Id, k: (UserId, int))
    requires done <= items.Keys && id in items && id !in done
    ensures |UnderDay(items, day, done + {id}, k)| == |UnderDay(items, day, done, k)|
      + (if items[id].appointment.Live() && DayKey(items[id].appointment, day) == k then 1 else 0)
  {
    if items[id].appointment.Live() && DayKey(items[id].appointment, day) == k {
      assert UnderDay(items, day, done + {id}, k) == UnderDay(items, day, done, k) + {id};
    } else {
      assert UnderDay(items, day, done + {id}, k) == UnderDay(items, day, done, k);
    }
  }

  lemma RecordAdded(items: Items, day: int -> int, done: set<Id>, x: Indexes, id: Id, x': Indexes)
    requires Indexed(items, day, done, x) && id in items && id !in done
    requires var a := items[id].appointment;
      && (forall u, j :: j in People(x', u) <==> j in People(x, u) || (a.Live() && j == id && u in a.Involved()))
      && (forall k :: DayCount(x', k) == DayCount(x, k) + (if a.Live() && DayKey(a, day) == k then 1 else 0))
    ensures Indexed(items, day, done + {id}, x')
  {
    forall k ensures DayCount(x', k) == |UnderDay(items, day, done + {id}, k)| {
      UnderDayStep(items, day, done, id, k);
    }
  }

  method AddRecord(items: Items, day: int -> int, ghost done: set<Id>, x: Indexes, id: Id) returns (x': Indexes)
    requires Indexed(items, day, done, x) && id in items && id !in done
    ensures Indexed(items, day, done + {id}, x')
  {
    var a := items[id].appointment;
    x' := x;
    if a.Live() {
      var byDay := x.byDay[DayKey(a, day) := DayCount(x, DayKey(a, day)) + 1];
      var byPerson := AddPeople(x.byPerson, a.Involved(), id);
      x' := Indexes(byPerson, byDay);
    }
    RecordAdded(items, day, done, x, id, x');
  }

  method Build(items: Items, day: int -> int) returns (x: Indexes)
    ensures Indexed(items, day, items.Keys, x)
  {
    x := Indexes(map[], map[]);
    var ids := Enumerate<Id>(items.Keys);
    ghost var done: set<Id> := {};
    forall k ensures UnderDay(items, day, {}, k) == {} {}
    for i := 0 to |ids|
      invariant done == (set j | 0 <= j < i :: ids[j])
      invariant Indexed(items, day, done, x)
    {
      assert ids[i] in ids;
      x := AddRecord(items, day, done, x, ids[i]);
      done := done + {ids[i]};
    }
    assert done == items.Keys;
  }

  /** Records reached through the participant index. */
  method Candidates(x: Indexes, users: set<UserId>) returns (ids: set<Id>)
    ensures forall j :: j in ids <==> exists u :: u in users && j in People(x, u)
  {
    ids := {};
    var people := Enumerate<UserId>(users);
    for i := 0 to |people|
      invariant forall j :: j in ids <==> exists k :: 0 <= k < i && j in People(x, people[k])
    {
      ids := ids + People(x, people[i]);
    }
    forall j ensures j in ids <==> exists u :: u in users && j in People(x, u) {
      if j in ids {
        var k :| 0 <= k < |people| && j in People(x, people[k]);
        assert people[k] in people;
      }
    }
  }

  lemma CandidatesAreSharers(items: Items, day: int -> int, x: Indexes, i: Id, j: Id)
    requires Indexed(items, day, items.Keys, x) && i in items
    ensures (exists u :: u in items[i].appointment.Involved() && j in People(x, u)) <==>
      j in items && items[j].appointment.Live()
          && items[i].appointment.Involved() * items[j].appointment.Involved() != {}
  {
    if j in items && items[i].appointment.Involved() * items[j].appointment.Involved() != {} {
      var u :| u in items[i].appointment.Involved() * items[j].appointment.Involved();
      assert items[j].appointment.Live() ==> j in People(x, u);
    }
    if u :| u in items[i].appointment.Involved() && j in People(x, u) {
      assert u in items[i].appointment.Involved() * items[j].appointment.Involved();
    }
  }

  /** The item with the warnings of the pairwise definition. */
  ghost function Rewritten(items: Items, day: int -> int, id: Id): Item
    requires id in items
  {
    Item(items[id].appointment, Conflict(items, id), |SameDay(items, day, id)| >= 7)
  }

  /** Another record that is not final keeps a common person busy before this one ends and after it starts. */
  ghost predicate Disturbs(a: Appointment, b: Appointment) {
    exists u :: SchedulingContracts.Attends(a, u)
                && SchedulingContracts.Occupies(b, u, a.startsAt, a.startsAt + a.minutes * 60_000)
  }

  /** A record is in conflict when another one disturbs it, and overloads its adviser beside seven others that day. */
  lemma WarningsMean(items: Items, day: int -> int, id: Id)
    requires id in items
    ensures Rewritten(items, day, id).conflict <==>
      exists j :: j in items && j != id && Disturbs(items[id].appointment, items[j].appointment)
    ensures Rewritten(items, day, id).overload <==>
      |set j | j in items && j != id && items[j].appointment.state !in {Annule, Realise, Absent, Refuse}
               && items[j].appointment.adviser == items[id].appointment.adviser
               && day(items[j].appointment.startsAt) == day(items[id].appointment.startsAt)| > 6
    ensures Rewritten(items, day, id).appointment == items[id].appointment
  {
    forall j | j in items && j != id
      ensures ConflictsWith(items, id, j) <==> Disturbs(items[id].appointment, items[j].appointment)
    {
      DisturbsIsConflict(items, id, j);
    }
    assert SameDay(items, day, id) ==
      set j | j in items && j != id && items[j].appointment.state !in {Annule, Realise, Absent, Refuse}
              && items[j].appointment.adviser == items[id].appointment.adviser
              && day(items[j].appointment.startsAt) == day(items[id].appointment.startsAt);
  }

  lemma DisturbsIsConflict(items: Items, i: Id, j: Id)
    requires i in items && j in items && i != j
    ensures ConflictsWith(items, i, j) <==> Disturbs(items[i].appointment, items[j].appointment)
  {
    var a, b := items[i].appointment, items[j].appointment;
    if ConflictsWith(items, i, j) {
      var u :| u in a.Involved() * b.Involved();
      assert SchedulingContracts.Attends(a, u)
        && SchedulingContracts.Occupies(b, u, a.startsAt, a.startsAt + a.minutes * 60_000);
    }
    if Disturbs(a, b) {
      var u :| SchedulingContracts.Attends(a, u)
               && SchedulingContracts.Occupies(b, u, a.startsAt, a.startsAt + a.minutes * 60_000);
      assert u in a.Involved() * b.Involved();
    }
  }

  /** The records among `done` carry their warnings; nothing else changed. */
  ghost predicate AllRewritten(before: Items, after: Items, day: int -> int, done: set<Id>) {
    && after.Keys == before.Keys
    && forall id {:trigger after[id]} :: id in before ==>
          after[id] == if id in done then Rewritten(before, day, id) else before[id]
  }

  /** The first `n` records. */
  ghost function Taken(ids: seq<Id>, n: nat): set<Id>
    requires n <= |ids|
  {
    set j | 0 <= j < n :: ids[j]
  }

  lemma TakenStep(ids: seq<Id>, n: nat)
    requires n < |ids|
    ensures Taken(ids, n + 1) == Taken(ids, n) + {ids[n]}
  {
  }

  lemma TakenAll(ids: seq<Id>, all: set<Id>)
    requires forall id :: id in ids <==> id in all
    ensures Taken(ids, |ids|) == all
  {
    forall id ensures id in Taken(ids, |ids|) <==> id in all {
      assert id in Taken(ids, |ids|) <==> id in ids;
    }
  }

  lemma OneMoreRewritten(before: Items, after: Items, day: int -> int, done: set<Id>, id: Id)
    requires AllRewritten(before, after, day, done) && id in before
    ensures AllRewritten(before, after[id := Rewritten(before, day, id)], day, done + {id})
  {
  }

  method Warn(items: Items, day: int -> int, x: Indexes, id: Id) returns (item: Item)
    requires Indexed(items, day, items.Keys, x) && id in items
    ensures item == Rewritten(items, day, id)
  {
    var a := items[id].appointment;
    var candidates := Candidates(x, a.Involved());
    forall j ensures j in candidates <==>
        j in items && items[j].appointment.Live() && a.Involved() * items[j].appointment.Involved() != {} {
      CandidatesAreSharers(items, day, x, id, j);
    }
    var hits := set j | j in candidates && j != id
                        && Overlap(a.startsAt, a.EndsAt(), items[j].appointment.startsAt,
                                   items[j].appointment.EndsAt());
    assert hits != {} <==> Conflict(items, id) by {
      forall j | j in items && ConflictsWith(items, id, j) ensures j in hits {}
      forall j | j in hits ensures ConflictsWith(items, id, j) {}
    }
    var count := DayCount(x, DayKey(a, day));
    OthersOfTheDay(items, day, id);
    item := Item(a, hits != {}, count - (if a.Live() then 1 else 0) >= 7);
  }

  lemma OthersOfTheDay(items: Items, day: int -> int, id: Id)
    requires id in items
    ensures |SameDay(items, day, id)| ==
      |UnderDay(items, day, items.Keys,
                DayKey(items[id].appointment, day))| - (if items[id].appointment.Live() then 1 else 0)
  {
    var all := UnderDay(items, day, items.Keys, DayKey(items[id].appointment, day));
    assert SameDay(items, day, id) == all - {id};
  }

  class AppointmentCache {
    var items: Items

    constructor (rows: map<Id, Appointment>)
      ensures items.Keys == rows.Keys && forall id :: id in rows ==> items[id].appointment == rows[id]
    {
      items := map id | id in rows :: Item(rows[id], false, false);
    }

    /** The second half of refreshPersistentState. */
    method RefreshWarnings(day: int -> int)
      modifies this
      ensures AllRewritten(old(items), items, day, old(items).Keys)
    {
      var before := items;
      var x := Build(before, day);
      var ids := Enumerate<Id>(before.Keys);
      for i := 0 to |ids|
        invariant AllRewritten(before, items, day, Taken(ids, i))
      {
        assert ids[i] in ids;
        var item := Warn(before, day, x, ids[i]);
        OneMoreRewritten(before, items, day, Taken(ids, i), ids[i]);
        TakenStep(ids, i);
        items := items[ids[i] := item];
      }
      TakenAll(ids, before.Keys);
    }
  }
}
