/**
 The agent over runs in which crashes may also cut a record.  Each such crash costs at most
 one repeated call and one more unresolved intent, and never are more than three unresolved.
 */
module AgentCrashes {
  import opened Prelude
  import opened EventJournal
  import opened AgentRuntime

  // ---------------------------------------------------------------- what an append leaves

  /** What the terminated lines say. */
  function Base(log: Log): Memory { Replay(log.(tail := Closed)) }

  /** One more if the last line is not terminated. */
  function OpenTail(log: Log): nat { if log.tail.Closed? then 0 else 1 }

  /**
   A record appended behind a terminated line counts; behind an open one it closes the line and
   counts for nothing.
   */
  lemma AppendToBase(log: Log, r: Record)
    ensures Append(log, r).tail.Closed? && Base(Append(log, r)) == Replay(Append(log, r))
    ensures Base(Append(log, r)) == if log.tail.Closed? then Apply(Base(log), Readable(r)) else Base(log)
  {
    ApplyOne(Empty(), log.lines, if log.tail.Closed? then Readable(r) else Garbage);
  }

  lemma ReplayOfTail(log: Log)
    ensures Replay(log) == match log.tail
      case Closed => Base(log)
      case Torn => Base(log)
      case Unterminated(r) => Apply(Base(log), Readable(r))
  {
    if log.tail != Closed {
      TornTail(log, []);
    }
  }

  // ---------------------------------------------------------------- plans

  /** A call comes right after the mark of a command not seen before, an intent only while none is unresolved. */
  predicate Disciplined(w: World, effects: seq<Effect>, marked: Option<string>)
    decreases |effects|
  {
    effects == [] ||
    (&& w.journal.Some?
     && (match effects[0]
         case Dial(id) => marked == Some(id)
         case Write(op) => op.BeginFreeCall? ==> w.journal.value.unresolved == {} && w.running)
     && Disciplined(Perform1(w, effects[0]), effects[1..], Marked(w, effects[0])))
  }

  function Marked(w: World, e: Effect): Option<string> {
    if e.Write? && e.op.MarkCommand? && w.journal.Some? && e.op.id !in w.journal.value.seen then Some(e.op.id) else None
  }

  lemma OneWriteIsDisciplined(w: World, op: Operation, marked: Option<string>)
    requires w.journal.Some? && (op.BeginFreeCall? ==> w.journal.value.unresolved == {} && w.running)
    ensures Disciplined(w, [Write(op)], marked)
  {
    assert [Write(op)][1..] == [];
    assert Disciplined(Perform1(w, Write(op)), [], Marked(w, Write(op)));
  }

  lemma RejectIsDisciplined(w: World, w': World, c: AgentCommand, at: int, eventId: string, reason: string,
                            marked: Option<string>)
    requires w'.journal.Some?
    ensures Disciplined(w', Reject(w, c, at, eventId, reason), marked)
  {
    if w.client {
      OneWriteIsDisciplined(w', Reject(w, c, at, eventId, reason)[0].op, marked);
    }
  }

  lemma MarkThen(w: World, mark: Effect, rest: seq<Effect>)
    requires w.journal.Some? && mark.Write? && mark.op.MarkCommand?
    requires Disciplined(Perform1(w, mark), rest, Marked(w, mark))
    ensures Disciplined(w, [mark] + rest, None)
  {
    assert ([mark] + rest)[1..] == rest;
  }

  lemma DialThen(w: World, id: string, rest: seq<Effect>)
    requires w.journal.Some? && Disciplined(Perform1(w, Dial(id)), rest, None)
    ensures Disciplined(w, [Dial(id)] + rest, Some(id))
  {
    assert ([Dial(id)] + rest)[1..] == rest;
  }

  lemma ExecuteIsDisciplined(w: World, c: AgentCommand, at: int, eventId: string, sdk: Option<string>)
    ensures Disciplined(w, Execute(w, c, at, eventId, sdk), None)
  {
    if w.journal.Some? && w.engine && !c.hangupRequested && c.id !in w.journal.value.seen {
      var mark := Write(MarkCommand(c.id, at));
      var marked := Perform1(w, mark);
      if w.maintenance {
        RejectIsDisciplined(w, marked, c, at, eventId, "PROFILE_MAINTENANCE_IN_PROGRESS", Some(c.id));
        MarkThen(w, mark, Reject(w, c, at, eventId, "PROFILE_MAINTENANCE_IN_PROGRESS"));
      } else if c.expiresAt <= at {
        RejectIsDisciplined(w, w, c, at, eventId, "COMMAND_EXPIRED", None);
      } else {
        var rest := if sdk.Some? then Reject(w, c, at, eventId, sdk.value) else [];
        var dialled := Perform1(marked, Dial(c.id));
        assert Disciplined(dialled, rest, None) by {
          if sdk.Some? {
            RejectIsDisciplined(w, dialled, c, at, eventId, sdk.value, None);
          }
        }
        DialThen(marked, c.id, rest);
        MarkThen(w, mark, [Dial(c.id)] + rest);
        assert [mark, Dial(c.id)] + rest == [mark] + ([Dial(c.id)] + rest);
      }
    }
  }

  lemma PlanIsDisciplined(w: World, a: Action)
    ensures Disciplined(w, Plan(w, a), None)
  {
    if a.Deliver? {
      ExecuteIsDisciplined(w, a.command, a.at, a.eventId, a.sdk);
    } else if a.ClaimReply? {
      if a.claimed.Some? {
        ExecuteIsDisciplined(w, a.claimed.value, a.at, a.eventId, a.sdk);
      }
    } else {
      var plan := Plan(w, a);
      if plan != [] {
        assert plan == [plan[0]] && plan[0].Write?;
        OneWriteIsDisciplined(w, plan[0].op, None);
      }
    }
  }

  // ---------------------------------------------------------------- calls per command

  function Calls(w: World, id: string): nat { multiset(w.dials)[id] }

  /** How often a command may have been called, after `cuts` crashes that cut a record. */
  function CallLimit(log: Log, cuts: nat, id: string): int {
    cuts - OpenTail(log) + if id in Base(log).seen then 1 else 0
  }

  ghost predicate CallsBounded(w: World, cuts: nat) {
    && OpenTail(w.log) <= cuts
    && (forall id :: Calls(w, id) <= CallLimit(w.log, cuts, id))
    && (w.journal.Some? ==> Base(w.log).seen <= w.journal.value.seen)
  }

  /** A marked command has a call left. */
  ghost predicate CallLeft(w: World, cuts: nat, marked: Option<string>) {
    marked.Some? ==> Calls(w, marked.value) < CallLimit(w.log, cuts, marked.value)
  }

  lemma WriteKeepsCalls(w: World, op: Operation, cuts: nat)
    requires CallsBounded(w, cuts) && w.journal.Some?
    ensures CallsBounded(Perform1(w, Write(op)), cuts)
    ensures CallLeft(Perform1(w, Write(op)), cuts, Marked(w, Write(op)))
  {
    var w', r := Perform1(w, Write(op)), Written(w.journal.value, op);
    if r.Some? {
      AppendToBase(w.log, r.value);
      assert forall id :: Calls(w', id) == Calls(w, id);
      assert forall id :: CallLimit(w.log, cuts, id) <= CallLimit(w'.log, cuts, id);
    }
  }

  lemma DialKeepsCalls(w: World, id: string, cuts: nat)
    requires CallsBounded(w, cuts) && CallLeft(w, cuts, Some(id))
    ensures CallsBounded(Perform1(w, Dial(id)), cuts)
  {
    var w' := Perform1(w, Dial(id));
    assert forall i :: Calls(w', i) == Calls(w, i) + if i == id then 1 else 0;
  }

  // ---------------------------------------------------------------- unresolved intents

  /** The file holds `f` unresolved behind a terminated line, a process that read it remembers `m`. */
  predicate ClosedIntents(f: set<string>, m: set<string>, live: bool, cuts: nat) {
    |f + m| <= 1 + cuts && (live && m == {} ==> |f| <= cuts)
  }

  /** How many intents the file may hold unresolved, after `cuts` crashes that cut a record. */
  predicate IntentsBounded(w: World, cuts: nat) {
    && OpenTail(w.log) <= cuts
    && if w.log.tail.Closed? then ClosedIntents(Base(w.log).unresolved, Unresolved(w), w.journal.Some?, cuts)
       else
         && |Base(w.log).unresolved + Replay(w.log).unresolved| <= cuts
         && (w.journal.Some? ==> Unresolved(w) == Replay(w.log).unresolved)
  }

  /** What the process remembers, if it has read the file. */
  function Unresolved(w: World): set<string> { if w.journal.Some? then w.journal.value.unresolved else {} }

  lemma Sizes(f: set<string>, m: set<string>, key: string)
    ensures |f| <= |f + m|
    ensures |f + {key}| <= |f| + 1
    ensures |(f - {key}) + (m - {key})| <= |f + m|
    ensures m - {key} == {} && m != {} ==> |f - {key}| + 1 <= |f + m|
  {
    Subset(f, f + m);
    Subset((f - {key}) + (m - {key}), f + m);
    if key in f {
      assert f + {key} == f;
    } else {
      assert |f + {key}| == |f| + 1;
    }
    if m - {key} == {} && m != {} {
      assert m == {key};
      Subset((f - {key}) + {key}, f + m);
    }
  }

  lemma Subset<T>(a: set<T>, b: set<T>)
    requires a <= b
    ensures |a| <= |b|
  {
    assert b == a + (b - a);
  }

  /** What an operation makes of a set of unresolved intents. */
  function AfterOp(op: Operation, s: set<string>): set<string> {
    match op
    case BeginFreeCall(key, _) => s + {key}
    case ResolveFreeCall(key, _) => s - {key}
    case _ => s
  }

  lemma UnresolvedAfterWrite(w: World, op: Operation)
    requires w.journal.Some? && Written(w.journal.value, op).Some?
    ensures var w' := Perform1(w, Write(op));
      && w'.log.tail.Closed? && Unresolved(w') == AfterOp(op, Unresolved(w)) && w'.journal.Some?
      && Base(w'.log).unresolved == if w.log.tail.Closed? then AfterOp(op, Base(w.log).unresolved)
            else Base(w.log).unresolved
  {
    AppendToBase(w.log, Written(w.journal.value, op).value);
  }

  lemma ClosedStep(f: set<string>, m: set<string>, op: Operation, cuts: nat)
    requires ClosedIntents(f, m, true, cuts) && (op.BeginFreeCall? ==> m == {})
    ensures ClosedIntents(AfterOp(op, f), AfterOp(op, m), true, cuts)
  {
    match op
    case BeginFreeCall(key, _) =>
      Sizes(f, m, key);
      assert (f + {key}) + (m + {key}) == f + {key};
    case ResolveFreeCall(key, _) => Sizes(f, m, key);
    case _ =>
  }

  /** The record is lost, and with it what it said: one more crash accounts for it. */
  lemma OpenStep(f: set<string>, m: set<string>, op: Operation, cuts: nat)
    requires |f + m| <= cuts && (op.BeginFreeCall? ==> m == {})
    ensures ClosedIntents(f, AfterOp(op, m), true, cuts)
  {
    Sizes(f, m, "");
    match op
    case BeginFreeCall(key, _) =>
      Sizes(f, m, key);
      assert f + (m + {key}) == f + {key};
    case ResolveFreeCall(key, _) => Subset(f + (m - {key}), f + m);
    case _ =>
  }

  lemma UnwrittenChangesNothing(w: World, op: Operation)
    requires w.journal.Some? && Written(w.journal.value, op).None?
    ensures Perform1(w, Write(op)) == w
  {
    assert Remembered(w.journal.value, op) == w.journal.value;
  }

  lemma WriteKeepsIntents(w: World, op: Operation, cuts: nat)
    requires IntentsBounded(w, cuts) && w.journal.Some?
    requires op.BeginFreeCall? ==> w.journal.value.unresolved == {}
    ensures IntentsBounded(Perform1(w, Write(op)), cuts)
  {
    if Written(w.journal.value, op).None? {
      UnwrittenChangesNothing(w, op);
    } else {
      UnresolvedAfterWrite(w, op);
      if w.log.tail.Closed? {
        ClosedStep(Base(w.log).unresolved, Unresolved(w), op, cuts);
      } else {
        OpenStep(Base(w.log).unresolved, Unresolved(w), op, cuts);
      }
    }
  }

  // ---------------------------------------------------------------- steps

  ghost predicate Bounded(w: World, cuts: nat) { CallsBounded(w, cuts) && IntentsBounded(w, cuts) }

  lemma EffectKeepsBounds(w: World, e: Effect, marked: Option<string>, cuts: nat)
    requires Bounded(w, cuts) && CallLeft(w, cuts, marked) && w.journal.Some?
    requires match e case Dial(id) => marked == Some(id)
        case Write(op) => op.BeginFreeCall? ==> w.journal.value.unresolved == {}
    ensures Bounded(Perform1(w, e), cuts) && CallLeft(Perform1(w, e), cuts, Marked(w, e))
  {
    match e
    case Dial(id) =>
      DialKeepsCalls(w, id, cuts);
      assert Perform1(w, e).log == w.log && Perform1(w, e).journal == w.journal;
    case Write(op) =>
      WriteKeepsCalls(w, op, cuts);
      WriteKeepsIntents(w, op, cuts);
  }

  lemma {:induction false} EffectsKeepBounds(w: World, effects: seq<Effect>, marked: Option<string>, done: nat,
                                             cuts: nat)
    requires Bounded(w, cuts) && CallLeft(w, cuts, marked) && Disciplined(w, effects, marked) && done <= |effects|
    ensures Bounded(PerformEach(w, effects[..done]), cuts)
    ensures done < |effects| ==> Ready(PerformEach(w, effects[..done]), effects[done])
    decreases done
  {
    if done > 0 {
      EffectKeepsBounds(w, effects[0], marked, cuts);
      EffectsKeepBounds(Perform1(w, effects[0]), effects[1..], Marked(w, effects[0]), done - 1, cuts);
      assert effects[..done][1..] == effects[1..][..done - 1];
    } else {
      assert effects[..done] == [];
    }
  }

  /** The journal is open, and an intent is written only while none is unresolved. */
  predicate Ready(w: World, e: Effect) {
    w.journal.Some? && (e.Write? && e.op.BeginFreeCall? ==> w.journal.value.unresolved == {})
  }

  function ActionOf(e: Event): Action { if e.Do? then e.action else e.during }

  function CutsOf(e: Event): nat { if e.Crash? && !e.cut.BeforeText? then 1 else 0 }

  function Cuts(events: seq<Event>): nat
    decreases |events|
  {
    if events == [] then 0 else CutsOf(events[0]) + Cuts(events[1..])
  }

  predicate Reloaded(w: World, w': World) {
    && w'.log == w.log && w'.dials == w.dials
    && (w'.journal == w.journal || w'.journal == None || w'.journal == Some(Replay(w.log)))
  }

  lemma ReloadKeepsCalls(w: World, w': World, cuts: nat)
    requires CallsBounded(w, cuts) && Reloaded(w, w')
    ensures CallsBounded(w', cuts)
  {
    ReplayOfTail(w.log);
    forall id ensures Calls(w', id) <= CallLimit(w'.log, cuts, id) {
      assert Calls(w', id) == Calls(w, id);
    }
  }

  lemma ReloadedSets(f: set<string>, m: set<string>, live: bool, cuts: nat)
    requires ClosedIntents(f, m, live, cuts)
    ensures ClosedIntents(f, {}, false, cuts) && ClosedIntents(f, f, true, cuts)
  {
    Sizes(f, m, "");
    assert f + f == f && f + {} == f;
  }

  lemma ReloadKeepsIntents(w: World, w': World, cuts: nat)
    requires IntentsBounded(w, cuts) && Reloaded(w, w')
    ensures IntentsBounded(w', cuts)
  {
    if w.log.tail.Closed? {
      ReplayOfTail(w.log);
      ReloadedSets(Base(w.log).unresolved, Unresolved(w), w.journal.Some?, cuts);
    }
  }

  lemma ReloadKeepsBounds(w: World, w': World, cuts: nat)
    requires Bounded(w, cuts) && Reloaded(w, w')
    ensures Bounded(w', cuts)
  {
    ReloadKeepsCalls(w, w', cuts);
    ReloadKeepsIntents(w, w', cuts);
  }

  /** A cut append leaves the lines as they were and the tail open. */
  lemma CutOpensTheTail(log: Log, r: Record, cut: Cut)
    requires !cut.BeforeText?
    ensures var log' := CutAppend(log, r, cut);
      && !log'.tail.Closed? && Base(log') == Base(log)
      && Replay(log') == if log.tail.Closed? && cut.BeforeTerminator? then Apply(Base(log), Readable(r)) else Base(log)
  {
    ReplayOfTail(CutAppend(log, r, cut));
  }

  lemma CutKeepsCalls(w: World, w': World, r: Record, cut: Cut, cuts: nat)
    requires CallsBounded(w, cuts) && !cut.BeforeText?
    requires w' == w.(log := CutAppend(w.log, r, cut), journal := None)
    ensures CallsBounded(w', cuts + 1)
  {
    CutOpensTheTail(w.log, r, cut);
    forall id ensures Calls(w', id) <= CallLimit(w'.log, cuts + 1, id) {
      assert Calls(w', id) == Calls(w, id);
    }
  }

  lemma UnionOfSubset<T>(a: set<T>, b: set<T>)
    requires a <= b
    ensures a + b == b && b + a == b
  {
  }

  lemma AfterOpSize(op: Operation, f: set<string>)
    ensures |f + AfterOp(op, f)| <= |f| + if op.BeginFreeCall? then 1 else 0
  {
    var g := AfterOp(op, f);
    if op.BeginFreeCall? {
      UnionOfSubset(f, g);
      Sizes(f, {}, op.key);
    } else {
      UnionOfSubset(g, f);
    }
  }

  lemma CutSets(f: set<string>, m: set<string>, op: Operation, cuts: nat)
    requires ClosedIntents(f, m, true, cuts) && (op.BeginFreeCall? ==> m == {})
    ensures |f| <= cuts + 1 && |f + AfterOp(op, f)| <= cuts + 1
  {
    Subset(f, f + m);
    AfterOpSize(op, f);
  }

  lemma CutKeepsIntents(w: World, w': World, op: Operation, cut: Cut, cuts: nat)
    requires IntentsBounded(w, cuts) && Ready(w, Write(op)) && Written(w.journal.value, op).Some? && !cut.BeforeText?
    requires w' == w.(log := CutAppend(w.log, Written(w.journal.value, op).value, cut), journal := None)
    ensures IntentsBounded(w', cuts + 1)
  {
    var r, f := Written(w.journal.value, op).value, Base(w.log).unresolved;
    CutOpensTheTail(w.log, r, cut);
    RecordedUnresolved(w.journal.value, op, Base(w.log));
    UnionOfSubset(f, f);
    if w.log.tail.Closed? {
      CutSets(f, Unresolved(w), op, cuts);
    } else {
      Subset(f, f + Replay(w.log).unresolved);
    }
  }

  /** What a record says of the unresolved intents. */
  lemma RecordedUnresolved(m: Memory, op: Operation, base: Memory)
    requires Written(m, op).Some?
    ensures Apply(base, Readable(Written(m, op).value)).unresolved == AfterOp(op, base.unresolved)
  {
  }

  lemma CutKeepsBounds(w: World, op: Operation, cut: Cut, cuts: nat)
    requires Bounded(w, cuts) && Ready(w, Write(op)) && Written(w.journal.value, op).Some? && !cut.BeforeText?
    ensures Bounded(w.(log := CutAppend(w.log, Written(w.journal.value, op).value, cut), journal := None), cuts + 1)
  {
    var r := Written(w.journal.value, op).value;
    var w' := w.(log := CutAppend(w.log, r, cut), journal := None);
    CutKeepsCalls(w, w', r, cut, cuts);
    CutKeepsIntents(w, w', op, cut, cuts);
  }

  lemma NextKeepsBounds(w: World, e: Event, cuts: nat)
    requires Bounded(w, cuts)
    ensures Bounded(Next(w, e), cuts + CutsOf(e))
  {
    var a := if e.Do? then e.action else e.during;
    var plan := Plan(w, a);
    PlanIsDisciplined(w, a);
    EffectsKeepBounds(w, plan, None, |plan|, cuts);
    assert plan[..|plan|] == plan;
    if e.Do? {
      ControlOnlyReloads(w, PerformEach(w, plan), a);
      ReloadKeepsBounds(PerformEach(w, plan), Next(w, e), cuts);
    } else {
      CrashKeepsBounds(w, e, cuts);
    }
  }

  lemma MoreCuts(w: World, cuts: nat, more: nat)
    requires Bounded(w, cuts) && cuts <= more
    ensures Bounded(w, more)
  {
    assert forall id :: CallLimit(w.log, cuts, id) <= CallLimit(w.log, more, id);
  }

  /** The world in which the process stops: some effects done, the next append perhaps begun. */
  lemma CrashedWorld(w: World, a: Action, done: nat, cut: Cut)
    ensures var plan := Plan(w, a); var n := if done < |plan| then done else |plan|;
      var w' := PerformEach(w, plan[..n]);
      Interrupted(w, a, done, cut) ==
        if n < |plan| && plan[n].Write? && w'.journal.Some? && Written(w'.journal.value, plan[n].op).Some?
        then Stopped(w'.(log := CutAppend(w'.log, Written(w'.journal.value, plan[n].op).value, cut))) else Stopped(w')
  {
    assert Plan(w, a)[..|Plan(w, a)|] == Plan(w, a);
  }

  lemma StoppedIsReloaded(w: World)
    ensures Reloaded(w, Stopped(w))
  {
  }

  lemma CutCrashKeepsBounds(w: World, op: Operation, cut: Cut, cuts: nat)
    requires Bounded(w, cuts) && Ready(w, Write(op)) && Written(w.journal.value, op).Some? && !cut.BeforeText?
    ensures Bounded(Stopped(w.(log := CutAppend(w.log, Written(w.journal.value, op).value, cut))), cuts + 1)
  {
    var w' := w.(log := CutAppend(w.log, Written(w.journal.value, op).value, cut), journal := None);
    CutKeepsBounds(w, op, cut, cuts);
    ReloadKeepsBounds(w', Stopped(w'), cuts + 1);
  }

  lemma CrashKeepsBounds(w: World, e: Event, cuts: nat)
    requires Bounded(w, cuts) && e.Crash?
    ensures Bounded(Next(w, e), cuts + CutsOf(e))
  {
    var plan := Plan(w, e.during);
    var n := if e.done < |plan| then e.done else |plan|;
    var w' := PerformEach(w, plan[..n]);
    PlanIsDisciplined(w, e.during);
    EffectsKeepBounds(w, plan, None, n, cuts);
    CrashedWorld(w, e.during, e.done, e.cut);
    if Next(w, e) == Stopped(w') {
      StoppedIsReloaded(w');
      ReloadKeepsBounds(w', Stopped(w'), cuts);
      MoreCuts(Stopped(w'), cuts, cuts + CutsOf(e));
    } else {
      CutCrashKeepsBounds(w', plan[n].op, e.cut, cuts);
    }
  }

  lemma {:induction false} RunKeepsBounds(w: World, events: seq<Event>, cuts: nat)
    requires Bounded(w, cuts)
    ensures Bounded(Run(w, events), cuts + Cuts(events))
    decreases |events|
  {
    if events != [] {
      NextKeepsBounds(w, events[0], cuts);
      RunKeepsBounds(Next(w, events[0]), events[1..], cuts + CutsOf(events[0]));
    }
  }

  lemma InitialIsBounded()
    ensures Bounded(Initial(), 0)
  {
    assert Base(Initial().log) == Empty() && Initial().dials == [];
  }

  // ---------------------------------------------------------------- main results over every run

  /**
   Over every run, whatever its crashes cut: a command is called at most once more than the
   number of crashes that cut a record, and at most that many intents are unresolved in the
   file.  Without such a crash both are at most one.
   */
  lemma EachCutCostsOneAtMost(events: seq<Event>, id: string)
    ensures var w := Run(Initial(), events);
      multiset(w.dials)[id] <= 1 + Cuts(events) && |Replay(w.log).unresolved| <= 1 + Cuts(events)
  {
    var w := Run(Initial(), events);
    InitialIsBounded();
    RunKeepsBounds(Initial(), events, 0);
    assert Calls(w, id) <= CallLimit(w.log, Cuts(events), id);
    ReplayOfTail(w.log);
    Sizes(Base(w.log).unresolved, Unresolved(w), "");
    Subset(Replay(w.log).unresolved, Base(w.log).unresolved + Replay(w.log).unresolved);
  }

  // ---------------------------------------------------------------- never more than three

  /** `f` is unresolved behind a terminated line, and the process that wrote it remembers `m`. */
  predicate Few(f: set<string>, m: set<string>, live: bool) {
    |f| <= 3 && (live ==> |f - m| <= 2)
  }

  /** An append after a reload may lose one resolution, and the open line it reads was at most another. */
  predicate FewIntents(w: World) {
    && |Replay(w.log).unresolved| <= 3
    && if w.log.tail.Closed? then Few(Base(w.log).unresolved, Unresolved(w), w.journal.Some?)
       else |Base(w.log).unresolved| <= 3 && (w.journal.Some? ==> Unresolved(w) == Replay(w.log).unresolved)
  }

  lemma TailHidesOne(log: Log)
    requires !log.tail.Closed?
    ensures |Base(log).unresolved - Replay(log).unresolved| <= 1
  {
    ReplayOfTail(log);
    if log.tail.Unterminated? {
      Subset(Base(log).unresolved - Replay(log).unresolved, {log.tail.record.commandId});
    } else {
      assert Base(log).unresolved - Replay(log).unresolved == {};
    }
  }

  lemma FewAfterClosed(f: set<string>, m: set<string>, op: Operation)
    requires Few(f, m, true) && (op.BeginFreeCall? ==> m == {})
    ensures Few(AfterOp(op, f), AfterOp(op, m), true)
  {
    match op
    case BeginFreeCall(key, _) =>
      assert f - m == f;
      Sizes(f, m, key);
      Subset((f + {key}) - (m + {key}), f);
    case ResolveFreeCall(key, _) =>
      Subset(f - {key}, f);
      Subset((f - {key}) - (m - {key}), f - m);
    case _ =>
  }

  lemma FewAfterOpen(f: set<string>, m: set<string>, op: Operation)
    requires |f| <= 3 && |f - m| <= 1 && (op.BeginFreeCall? ==> m == {})
    ensures Few(f, AfterOp(op, m), true)
  {
    match op
    case BeginFreeCall(key, _) => Subset(f - (m + {key}), f - m);
    case ResolveFreeCall(key, _) =>
      Subset(f - (m - {key}), (f - m) + {key});
      Sizes(f - m, {}, key);
    case _ =>
  }

  lemma WriteKeepsFew(w: World, op: Operation)
    requires FewIntents(w) && Ready(w, Write(op))
    ensures FewIntents(Perform1(w, Write(op)))
  {
    if Written(w.journal.value, op).None? {
      UnwrittenChangesNothing(w, op);
    } else {
      UnresolvedAfterWrite(w, op);
      ReplayOfTail(Perform1(w, Write(op)).log);
      if w.log.tail.Closed? {
        FewAfterClosed(Base(w.log).unresolved, Unresolved(w), op);
      } else {
        TailHidesOne(w.log);
        FewAfterOpen(Base(w.log).unresolved, Unresolved(w), op);
      }
    }
  }

  lemma {:induction false} EffectsKeepFew(w: World, effects: seq<Effect>, marked: Option<string>, done: nat)
    requires FewIntents(w) && Disciplined(w, effects, marked) && done <= |effects|
    ensures FewIntents(PerformEach(w, effects[..done]))
    ensures done < |effects| ==> Ready(PerformEach(w, effects[..done]), effects[done])
    decreases done
  {
    if done > 0 {
      if effects[0].Write? {
        WriteKeepsFew(w, effects[0].op);
      }
      EffectsKeepFew(Perform1(w, effects[0]), effects[1..], Marked(w, effects[0]), done - 1);
      assert effects[..done][1..] == effects[1..][..done - 1];
    } else {
      assert effects[..done] == [];
    }
  }

  lemma ReloadKeepsFew(w: World, w': World)
    requires FewIntents(w) && Reloaded(w, w')
    ensures FewIntents(w')
  {
    ReplayOfTail(w.log);
    assert Base(w.log).unresolved - Base(w.log).unresolved == {};
  }

  lemma CutKeepsFew(w: World, op: Operation, cut: Cut)
    requires FewIntents(w) && Ready(w, Write(op)) && Written(w.journal.value, op).Some? && !cut.BeforeText?
    ensures FewIntents(Stopped(w.(log := CutAppend(w.log, Written(w.journal.value, op).value, cut))))
  {
    CutOpensTheTail(w.log, Written(w.journal.value, op).value, cut);
    RecordedUnresolved(w.journal.value, op, Base(w.log));
    if w.log.tail.Closed? {
      FewAfterClosed(Base(w.log).unresolved, Unresolved(w), op);
    }
  }

  lemma NextKeepsFew(w: World, e: Event)
    requires FewIntents(w)
    ensures FewIntents(Next(w, e))
  {
    var plan := Plan(w, ActionOf(e));
    PlanIsDisciplined(w, ActionOf(e));
    if e.Do? {
      EffectsKeepFew(w, plan, None, |plan|);
      assert plan[..|plan|] == plan;
      ControlOnlyReloads(w, PerformEach(w, plan), e.action);
      ReloadKeepsFew(PerformEach(w, plan), Next(w, e));
    } else {
      var n := if e.done < |plan| then e.done else |plan|;
      var w' := PerformEach(w, plan[..n]);
      EffectsKeepFew(w, plan, None, n);
      CrashedWorld(w, e.during, e.done, e.cut);
      if Next(w, e) == Stopped(w') {
        ReloadKeepsFew(w', Stopped(w'));
      } else {
        CutKeepsFew(w', plan[n].op, e.cut);
      }
    }
  }

  lemma {:induction false} RunKeepsFew(w: World, events: seq<Event>)
    requires FewIntents(w)
    ensures FewIntents(Run(w, events))
    decreases |events|
  {
    if events != [] {
      NextKeepsFew(w, events[0]);
      RunKeepsFew(Next(w, events[0]), events[1..]);
    }
  }

  /** Over every run, however many records its crashes cut, the file never holds more than three unresolved intents. */
  lemma NeverMoreThanThreeIntents(events: seq<Event>)
    ensures |Replay(Run(Initial(), events).log).unresolved| <= 3
  {
    assert Base(Initial().log) == Empty();
    RunKeepsFew(Initial(), events);
  }

  // ---------------------------------------------------------------- how intents are settled

  /** The intent is unresolved on the terminated lines, and still is with what follows them. */
  predicate Held(log: Log, key: string) {
    key in Base(log).unresolved && key in Replay(log).unresolved
  }

  lemma {:induction false} EffectsHold(w: World, effects: seq<Effect>, key: string)
    requires Held(w.log, key) && forall e :: e in effects ==> !Resolves(e, key)
    ensures Held(PerformEach(w, effects).log, key)
    decreases |effects|
  {
    if effects != [] {
      assert effects[0] in effects && forall e :: e in effects[1..] ==> e in effects;
      if effects[0].Write? && w.journal.Some? && Written(w.journal.value, effects[0].op).Some? {
        RecordedUnresolved(w.journal.value, effects[0].op, Base(w.log));
        AppendToBase(w.log, Written(w.journal.value, effects[0].op).value);
      }
      EffectsHold(Perform1(w, effects[0]), effects[1..], key);
    }
  }

  lemma CutHolds(m: Memory, log: Log, op: Operation, cut: Cut, key: string)
    requires Held(log, key) && Written(m, op).Some? && !Resolves(Write(op), key)
    ensures Held(CutAppend(log, Written(m, op).value, cut), key)
  {
    if !cut.BeforeText? {
      RecordedUnresolved(m, op, Base(log));
      CutOpensTheTail(log, Written(m, op).value, cut);
    }
  }

  lemma NextHolds(w: World, e: Event, key: string)
    requires Held(w.log, key) && forall x :: x in Plan(w, ActionOf(e)) ==> !Resolves(x, key)
    ensures Held(Next(w, e).log, key)
  {
    var plan := Plan(w, ActionOf(e));
    if e.Do? {
      EffectsHold(w, plan, key);
      ControlOnlyReloads(w, PerformEach(w, plan), e.action);
    } else {
      var n := if e.done < |plan| then e.done else |plan|;
      var w' := PerformEach(w, plan[..n]);
      EffectsHold(w, plan[..n], key);
      CrashedWorld(w, e.during, e.done, e.cut);
      if Next(w, e).log != w'.log {
        assert plan[n] in plan;
        CutHolds(w'.journal.value, w'.log, plan[n].op, e.cut, key);
      }
    }
  }

  /**
   In any step or crash of any run, an intent leaves the file only on a definite refusal, after
   its command was claimed, or on a matching final receipt while nothing is active or known to be
   undelivered; or it was itself the unterminated last record and something was appended to it.
   */
  lemma IntentsAreSettled(w: World, e: Event, key: string)
    requires key in Replay(w.log).unresolved && key !in Replay(Next(w, e).log).unresolved
    ensures Settles(w, ActionOf(e), key) || (key !in Base(w.log).unresolved && Next(w, e).log != w.log)
  {
    if key in Base(w.log).unresolved {
      if forall x :: x in Plan(w, ActionOf(e)) ==> !Resolves(x, key) {
        NextHolds(w, e, key);
      } else {
        var x :| x in Plan(w, ActionOf(e)) && Resolves(x, key);
        PlannedResolutionSettles(w, ActionOf(e), x, key);
      }
    }
  }
}
