/**
 The exact conditions under which the guards of the agent hold from now on: at any world a run
 can reach, whatever its crashes cut, and over every continuation that cuts nothing more.
 */
module AgentConditions {
  import opened Prelude
  import opened EventJournal
  import opened AgentRuntime
  import opened AgentCrashes

  // ---------------------------------------------------------------- no redial

  /** No continuation, whatever is delivered and wherever it crashes without cutting a record, dials a command twice. */
  ghost predicate NeverRedials(w: World) {
    forall later :: Clean(later) ==> Distinct(Run(w, later).dials)
  }

  /** The last line is terminated, and the file has every command called, each called once. */
  predicate CallsDurable(w: World) {
    w.log.tail.Closed? && Distinct(w.dials) && forall id :: id in w.dials ==> id in Replay(w.log).seen
  }

  /** The process remembers at least what the file has seen. */
  predicate Guarded(w: World) {
    CallsDurable(w) && (w.journal.Some? ==> Replay(w.log).seen <= w.journal.value.seen)
  }

  /** A marked command is in the file and was not called yet. */
  predicate MayCall(w: World, marked: Option<string>) {
    marked.Some? ==> marked.value in Replay(w.log).seen && marked.value !in w.dials
  }

  lemma WriteKeepsGuard(w: World, op: Operation)
    requires Guarded(w) && w.journal.Some?
    ensures Guarded(Perform1(w, Write(op))) && MayCall(Perform1(w, Write(op)), Marked(w, Write(op)))
  {
    if Written(w.journal.value, op).Some? {
      AppendReplays(w.log, Written(w.journal.value, op).value);
    } else {
      UnwrittenChangesNothing(w, op);
    }
  }

  lemma {:induction false} EffectsKeepGuard(w: World, effects: seq<Effect>, marked: Option<string>, done: nat)
    requires Guarded(w) && MayCall(w, marked) && Disciplined(w, effects, marked) && done <= |effects|
    ensures Guarded(PerformEach(w, effects[..done]))
    decreases done
  {
    if done > 0 {
      if effects[0].Write? {
        WriteKeepsGuard(w, effects[0].op);
      }
      EffectsKeepGuard(Perform1(w, effects[0]), effects[1..], Marked(w, effects[0]), done - 1);
      assert effects[..done][1..] == effects[1..][..done - 1];
    } else {
      assert effects[..done] == [];
    }
  }

  lemma NextKeepsGuard(w: World, e: Event)
    requires Guarded(w) && CutsOf(e) == 0
    ensures Guarded(Next(w, e))
  {
    var plan := Plan(w, ActionOf(e));
    assert plan[..|plan|] == plan;
    PlanIsDisciplined(w, ActionOf(e));
    if e.Do? {
      EffectsKeepGuard(w, plan, None, |plan|);
      ControlOnlyReloads(w, PerformEach(w, plan), e.action);
    } else {
      EffectsKeepGuard(w, plan, None, if e.done < |plan| then e.done else |plan|);
      CrashedWorld(w, e.during, e.done, e.cut);
    }
  }

  lemma {:induction false} RunKeepsGuard(w: World, events: seq<Event>)
    requires Guarded(w) && Clean(events)
    ensures Guarded(Run(w, events))
    decreases |events|
  {
    if events != [] {
      assert events[0] in events && Clean(events[1..]);
      NextKeepsGuard(w, events[0]);
      RunKeepsGuard(Next(w, events[0]), events[1..]);
    }
  }

  /** A crash that cuts nothing. */
  function Kill(): Event { Crash(Start(true), 0, BeforeText) }

  lemma KillStops(w: World, later: seq<Event>)
    requires Clean(later)
    ensures Run(w, [Kill()] + later) == Run(Stopped(w), later) && Clean([Kill()] + later)
  {
    assert ([Kill()] + later)[1..] == later;
    assert forall e :: e in [Kill()] + later ==> e == Kill() || e in later;
    assert Next(w, Kill()) == Stopped(w);
  }

  /** A command called but not in the file is called again after a reload. */
  lemma UndurableCallIsRepeated(w: World, id: string)
    requires id in w.dials && id !in Replay(w.log).seen
    ensures !NeverRedials(w)
  {
    var c := AgentCommand(id, "", 0, false);
    var later := [Do(Start(true)), Do(Deliver(c, -1, "", None))];
    StartThenDeliver(Stopped(w), c);
    RunOfTwo(Stopped(w), Start(true), Deliver(c, -1, "", None));
    KillStops(w, later);
    var i :| 0 <= i < |w.dials| && w.dials[i] == id;
    var dials := Run(w, [Kill()] + later).dials;
    assert dials[i] == dials[|w.dials|];
  }

  lemma RunOfTwo(w: World, a: Action, b: Action)
    ensures Run(w, [Do(a), Do(b)]) == Act(Act(w, a), b)
  {
    assert [Do(a), Do(b)][1..] == [Do(b)] && [Do(b)][1..] == [];
    assert Run(w, [Do(a), Do(b)]) == Run(Act(w, a), [Do(b)]) && Run(Act(w, a), [Do(b)]) == Run(Act(Act(w, a), b), []);
  }

  lemma OpenTailRedials(w: World)
    requires !w.log.tail.Closed?
    ensures !NeverRedials(w)
  {
    var n := LongestOf(Replay(w.log).seen + Base(w.log).seen);
    var id := seq(n + 1, _ => 'x');
    var c := AgentCommand(id, "", 0, false);
    DamagedTailRedials(Stopped(w), c);
    assert Clean(Redelivery(c));
    KillStops(w, Redelivery(c));
    var dials := Run(w, [Kill()] + Redelivery(c)).dials;
    assert dials[|w.dials|] == dials[|w.dials| + 1];
  }

  /**
   At any reachable world the agent never redials from now on if and only if the last line of the
   file is terminated and the file has every command called so far, each called once.
   */
  lemma NeverRedialsIff(events: seq<Event>)
    ensures var w := Run(Initial(), events); NeverRedials(w) <==> CallsDurable(w)
  {
    var w := Run(Initial(), events);
    if CallsDurable(w) {
      InitialIsBounded();
      RunKeepsBounds(Initial(), events, 0);
      assert Base(w.log) == Replay(w.log);
      forall later | Clean(later) ensures Distinct(Run(w, later).dials) {
        RunKeepsGuard(w, later);
      }
    } else if !w.log.tail.Closed? {
      OpenTailRedials(w);
    } else if Distinct(w.dials) {
      var id :| id in w.dials && id !in Replay(w.log).seen;
      UndurableCallIsRepeated(w, id);
    } else {
      assert Clean([]) && Run(w, []) == w;
    }
  }

  /** After a clean run and one crash anywhere, also inside an append, that is when the last line is terminated. */
  lemma SafeAfterCrashIff(events: seq<Event>, during: Action, done: nat, cut: Cut)
    requires Clean(events)
    ensures var w := Next(Run(Initial(), events), Crash(during, done, cut)); NeverRedials(w) <==> w.log.tail.Closed?
  {
    var crash := Crash(during, done, cut);
    var w := Next(Run(Initial(), events), crash);
    RunThenEvent(Initial(), events, crash);
    NeverRedialsIff(events + [crash]);
    RunKeepsInv(Initial(), events);
    CrashLeaves(Run(Initial(), events), during, done, cut);
  }

  // ---------------------------------------------------------------- one intent

  predicate AtMostOne(s: set<string>) {
    forall a, b :: a in s && b in s ==> a == b
  }

  /**
   The condition on the file: its last line is terminated, or its terminated lines leave no
   intent unresolved, or an intent is unresolved on reload and an event still to deliver
   keeps reconciliation from being the first to write.
   */
  predicate KeepsOneIntent(log: Log) {
    || log.tail.Closed?
    || Base(log).unresolved == {}
    || (Replay(log).unresolved != {} && Replay(log).pending != map[])
  }

  /** No continuation that cuts no further record leaves two unresolved intents in the file. */
  ghost predicate NeverTwoIntents(w: World) {
    forall later :: Clean(later) ==> AtMostOne(Replay(Run(w, later).log).unresolved)
  }

  // ---- the condition suffices

  /** Nothing was appended yet behind the open tail. */
  predicate Untouched(w: World, log: Log) {
    w.log == log && (w.journal.Some? ==> w.journal.value == Replay(log))
  }

  /** The file holds at most one intent unresolved, and a process that may begin another remembers it. */
  predicate Recovered(w: World) {
    && w.log.tail.Closed? && AtMostOne(Replay(w.log).unresolved)
    && (w.journal.Some? && w.running ==> Replay(w.log).unresolved <= Unresolved(w))
  }

  predicate Damaged(log: Log) {
    && !log.tail.Closed? && AtMostOne(Base(log).unresolved) && AtMostOne(Replay(log).unresolved)
    && (Base(log).unresolved != {} ==> Replay(log).unresolved <= Base(log).unresolved)
  }

  predicate Progress(w: World, log: Log) { Untouched(w, log) || Recovered(w) }

  /**
   An effect of the continuation: an intent only while none is remembered, a resolution behind the
   open tail only if nothing is lost.
   */
  predicate Harmless(w: World, log: Log, e: Effect) {
    w.journal.Some? && (e.Write? ==>
      && (e.op.BeginFreeCall? ==> w.journal.value.unresolved == {} && w.running)
      && (e.op.ResolveFreeCall? && Untouched(w, log) ==> Base(log).unresolved == {}))
  }

  lemma ClosedWriteRecovers(w: World, op: Operation)
    requires Recovered(w) && w.journal.Some? && (op.BeginFreeCall? ==> w.journal.value.unresolved == {} && w.running)
    ensures Recovered(Perform1(w, Write(op)))
  {
    if Written(w.journal.value, op).None? {
      UnwrittenChangesNothing(w, op);
    } else {
      UnresolvedAfterWrite(w, op);
      AppendToBase(w.log, Written(w.journal.value, op).value);
    }
  }

  lemma OpenWriteRecovers(w: World, log: Log, op: Operation)
    requires Damaged(log) && KeepsOneIntent(log) && Untouched(w, log)
    requires Harmless(w, log, Write(op)) && Written(w.journal.value, op).Some?
    ensures Recovered(Perform1(w, Write(op)))
  {
    UnresolvedAfterWrite(w, op);
    AppendToBase(w.log, Written(w.journal.value, op).value);
    ReplayOfTail(log);
    var f, m := Base(log).unresolved, Replay(log).unresolved;
    assert Unresolved(w) == m;
    BaseIsRemembered(log, op);
  }

  /** What the terminated lines hold unresolved is on reload remembered, or was resolved by the unterminated record. */
  lemma BaseIsRemembered(log: Log, op: Operation)
    requires Damaged(log) && (op.BeginFreeCall? ==> Replay(log).unresolved == {})
    requires op.ResolveFreeCall? ==> Base(log).unresolved == {}
    requires KeepsOneIntent(log)
    ensures Base(log).unresolved <= AfterOp(op, Replay(log).unresolved)
  {
  }

  lemma EffectProgresses(w: World, log: Log, e: Effect)
    requires Damaged(log) && KeepsOneIntent(log) && Progress(w, log) && Harmless(w, log, e)
    ensures Progress(Perform1(w, e), log)
  {
    if e.Write? {
      if Written(w.journal.value, e.op).None? {
        UnwrittenChangesNothing(w, e.op);
      } else if Untouched(w, log) {
        OpenWriteRecovers(w, log, e.op);
      } else {
        ClosedWriteRecovers(w, e.op);
      }
    }
  }

  /** The resolutions of a plan that follow a write come when the tail is closed again. */
  predicate Resolving(e: Effect) { e.Write? && e.op.ResolveFreeCall? }

  lemma {:induction false} EffectsProgress(w: World, log: Log, effects: seq<Effect>, marked: Option<string>, done: nat)
    requires Damaged(log) && KeepsOneIntent(log) && Progress(w, log) && Disciplined(w, effects, marked)
    requires done <= |effects|
    requires Untouched(w, log) && Base(log).unresolved != {} ==> forall e :: e in effects ==> !Resolving(e)
    ensures Progress(PerformEach(w, effects[..done]), log)
    decreases done
  {
    if done > 0 {
      assert effects[0] in effects;
      EffectProgresses(w, log, effects[0]);
      assert effects[..done][1..] == effects[1..][..done - 1];
      assert forall e :: e in effects[1..] ==> e in effects;
      StillUntouched(w, log, effects[0]);
      EffectsProgress(Perform1(w, effects[0]), log, effects[1..], Marked(w, effects[0]), done - 1);
    } else {
      assert effects[..done] == [];
    }
  }

  lemma StillUntouched(w: World, log: Log, e: Effect)
    requires !log.tail.Closed? && Progress(w, log) && w.journal.Some?
    ensures Untouched(Perform1(w, e), log) ==> Untouched(w, log)
  {
    if e.Write? && Written(w.journal.value, e.op).Some? {
      AppendToBase(w.log, Written(w.journal.value, e.op).value);
    }
  }

  /** Between two events nothing was appended and nothing is awaited that an intent is for; or the file is recovered. */
  predicate Between(w: World, log: Log) {
    Progress(w, log) && (Untouched(w, log) ==> w.pc.Idle? || w.pc.Reconciling?)
  }

  /** While an intent may still be lost, no plan resolves one. */
  lemma NothingToResolve(w: World, log: Log, a: Action, e: Effect)
    requires KeepsOneIntent(log) && !log.tail.Closed? && Base(log).unresolved != {}
    requires Untouched(w, log) && (w.pc.Idle? || w.pc.Reconciling?) && e in Plan(w, a)
    ensures !Resolving(e)
  {
    if a.Deliver? {
      ExecuteResolves(w, a.command, a.at, a.eventId, a.sdk, e);
    }
    assert Replay(log).pending != map[];
    NonEmpty(Replay(log).pending);
  }

  lemma NonEmpty<K, V>(m: map<K, V>)
    ensures m != map[] <==> |m| != 0
  {
    if m != map[] {
      var k :| k in m;
      assert k in m.Keys;
    }
  }

  lemma ExecuteResolves(w: World, c: AgentCommand, at: int, eventId: string, sdk: Option<string>, e: Effect)
    requires e in Execute(w, c, at, eventId, sdk)
    ensures !Resolving(e)
  {
  }

  lemma PlanProgresses(w: World, log: Log, a: Action, done: nat)
    requires Damaged(log) && KeepsOneIntent(log) && Between(w, log) && done <= |Plan(w, a)|
    ensures Progress(PerformEach(w, Plan(w, a)[..done]), log)
  {
    PlanIsDisciplined(w, a);
    forall e | e in Plan(w, a) && Untouched(w, log) && Base(log).unresolved != {} ensures !Resolving(e) {
      NothingToResolve(w, log, a, e);
    }
    EffectsProgress(w, log, Plan(w, a), None, done);
  }

  /** Control starts no process without reading the file. */
  lemma ControlProgresses(before: World, w: World, a: Action, log: Log)
    requires Damaged(log) && Progress(w, log)
    ensures Progress(Control(before, w, a), log)
  {
    ControlOnlyReloads(before, w, a);
    ControlRunsOnlyRead(before, w, a);
  }

  lemma ControlRunsOnlyRead(before: World, w: World, a: Action)
    ensures var w' := Control(before, w, a);
      w'.running && w'.journal.Some? ==> w'.journal == Some(Replay(w.log)) || (w.running && w'.journal == w.journal)
  {
    if a.ReconcileReply? {
    } else if a.ReconcileStart? {
    } else {
    }
  }

  /** After an action without a write the agent still waits for nothing. */
  lemma StillWaitsForNothing(w: World, log: Log, a: Action)
    requires !log.tail.Closed? && Untouched(w, log) && (w.pc.Idle? || w.pc.Reconciling?) && Untouched(Act(w, a), log)
    ensures Act(w, a).pc.Idle? || Act(w, a).pc.Reconciling?
  {
    EffectsKeepPc(w, Plan(w, a));
    if a.StartFreeCall? && MayStartFreeCall(w, a.ready) {
      OneEffect(w, Write(BeginFreeCall(a.newKey, a.at)));
      AppendToBase(w.log, IntentRecord(a.newKey, a.at));
    }
  }

  lemma ActProgresses(w: World, log: Log, a: Action)
    requires Damaged(log) && KeepsOneIntent(log) && Between(w, log)
    ensures Between(Act(w, a), log)
  {
    var plan := Plan(w, a);
    assert plan[..|plan|] == plan;
    PlanProgresses(w, log, a, |plan|);
    ControlProgresses(w, PerformEach(w, plan), a, log);
    if Untouched(Act(w, a), log) {
      WasUntouched(w, log, a);
      StillWaitsForNothing(w, log, a);
    }
  }

  lemma {:induction false} EffectsLeaveClosed(w: World, effects: seq<Effect>, marked: Option<string>)
    requires w.log.tail.Closed? && Disciplined(w, effects, marked)
    ensures PerformEach(w, effects).log.tail.Closed?
    decreases |effects|
  {
    if effects != [] {
      if effects[0].Write? && Written(w.journal.value, effects[0].op).Some? {
        AppendToBase(w.log, Written(w.journal.value, effects[0].op).value);
      }
      EffectsLeaveClosed(Perform1(w, effects[0]), effects[1..], Marked(w, effects[0]));
    }
  }

  lemma WasUntouched(w: World, log: Log, a: Action)
    requires !log.tail.Closed? && Progress(w, log) && Untouched(Act(w, a), log)
    ensures Untouched(w, log)
  {
    PlanIsDisciplined(w, a);
    ControlOnlyReloads(w, PerformEach(w, Plan(w, a)), a);
    if w.log.tail.Closed? {
      EffectsLeaveClosed(w, Plan(w, a), None);
    }
  }

  lemma NextProgresses(w: World, log: Log, e: Event)
    requires Damaged(log) && KeepsOneIntent(log) && Between(w, log) && CutsOf(e) == 0
    ensures Between(Next(w, e), log)
  {
    if e.Do? {
      ActProgresses(w, log, e.action);
    } else {
      var plan := Plan(w, e.during);
      var n := if e.done < |plan| then e.done else |plan|;
      PlanProgresses(w, log, e.during, n);
      CrashedWorld(w, e.during, e.done, e.cut);
    }
  }

  lemma {:induction false} RunProgresses(w: World, log: Log, events: seq<Event>)
    requires Damaged(log) && KeepsOneIntent(log) && Between(w, log) && Clean(events)
    ensures Between(Run(w, events), log)
    decreases |events|
  {
    if events != [] {
      assert events[0] in events;
      NextProgresses(w, log, events[0]);
      assert Clean(events[1..]);
      RunProgresses(Next(w, events[0]), log, events[1..]);
    }
  }

  // ---- and it is necessary

  lemma {:induction false} EffectsStayAdmissible(w: World, effects: seq<Effect>, n: nat)
    requires AllAdmissible(w, effects) && n < |effects|
    ensures Admissible(PerformEach(w, effects[..n]), effects[n])
    decreases n
  {
    if n > 0 {
      EffectsStayAdmissible(Perform1(w, effects[0]), effects[1..], n - 1);
      assert effects[..n][1..] == effects[1..][..n - 1];
    } else {
      assert effects[..n] == [];
    }
  }

  lemma CutLeavesDamage(w: World, op: Operation, cut: Cut)
    requires Inv(w) && Admissible(w, Write(op)) && Written(w.journal.value, op).Some? && !cut.BeforeText?
    ensures Damaged(CutAppend(w.log, Written(w.journal.value, op).value, cut))
  {
    CutOpensTheTail(w.log, Written(w.journal.value, op).value, cut);
    RecordedUnresolved(w.journal.value, op, Base(w.log));
    ReplayOfTail(w.log);
  }

  /** What a crash after a clean run leaves. */
  lemma CrashLeaves(w: World, a: Action, done: nat, cut: Cut)
    requires Inv(w)
    ensures var w' := Interrupted(w, a, done, cut);
      w' == Stopped(w') && if w'.log.tail.Closed? then Inv(w') else Damaged(w'.log)
  {
    var w', plan := Interrupted(w, a, done, cut), Plan(w, a);
    var n := if done < |plan| then done else |plan|;
    PlanIsAdmissible(w, a);
    EffectsKeepInv(w, plan, n);
    CrashedWorld(w, a, done, cut);
    if w'.log.tail.Closed? {
      TerminatedMeansUncut(w, a, done, cut);
      NextKeepsInv(w, Crash(a, done, BeforeText));
    } else {
      EffectsStayAdmissible(w, plan, n);
      CutLeavesDamage(PerformEach(w, plan[..n]), plan[n].op, cut);
    }
  }

  /** A started agent that remembers no intent begins one. */
  lemma BeginsAnother(w: World, k1: string, k2: string)
    requires w.pc.Idle? && w.running && w.client && !w.maintenance && w.journal.Some? && Unresolved(w) == {}
    requires w.log.tail.Closed? && k1 in Replay(w.log).unresolved && k1 != k2
    ensures var w' := Act(w, StartFreeCall(k2, true, 0));
      k1 in Replay(w'.log).unresolved && k2 in Replay(w'.log).unresolved
  {
    OneEffect(w, Write(BeginFreeCall(k2, 0)));
    AppendReplays(w.log, IntentRecord(k2, 0));
  }

  function Begun(w: World): World {
    w.(journal := Some(Replay(w.log)), engine := true, client := true, running := true)
  }

  lemma StartReads(w: World)
    requires w == Stopped(w)
    ensures Act(w, Start(true)) == Begun(w)
  {
  }

  /** The resolution is the unterminated record: the next append drops it. */
  lemma DroppedResolution(w: World, c: AgentCommand, k1: string, k2: string)
    requires w == Stopped(w) && !w.log.tail.Closed? && k1 in Base(w.log).unresolved && Replay(w.log).unresolved == {}
    requires k1 != k2
    requires !c.hangupRequested && c.expiresAt == 1 && c.id !in Replay(w.log).seen
    ensures var end := Run(w, [Do(Start(true)), Do(Deliver(c, 0, "", None)), Do(StartFreeCall(k2, true, 0))]);
      k1 in Replay(end.log).unresolved && k2 in Replay(end.log).unresolved
  {
    var w1 := Begun(w);
    StartReads(w);
    var mark := Write(MarkCommand(c.id, 0));
    assert Plan(w1, Deliver(c, 0, "", None)) == [mark, Dial(c.id)] && [mark, Dial(c.id)][1..] == [Dial(c.id)];
    OneEffect(Perform1(w1, mark), Dial(c.id));
    AppendToBase(w.log, CommandRecord(c.id, 0));
    var w2 := Act(w1, Deliver(c, 0, "", None));
    BeginsAnother(w2, k1, k2);
    RunOfThree(w, Start(true), Deliver(c, 0, "", None), StartFreeCall(k2, true, 0));
  }

  lemma RunOfThree(w: World, a: Action, b: Action, c: Action)
    ensures Run(w, [Do(a), Do(b), Do(c)]) == Act(Act(Act(w, a), b), c)
  {
    var w1 := Act(w, a);
    assert [Do(a), Do(b), Do(c)][1..] == [Do(b), Do(c)] && [Do(b), Do(c)][1..] == [Do(c)] && [Do(c)][1..] == [];
    assert Run(w, [Do(a), Do(b), Do(c)]) == Run(w1, [Do(b), Do(c)])
        && Run(w1, [Do(b), Do(c)]) == Run(Act(w1, b), [Do(c)]);
    assert Run(Act(w1, b), [Do(c)]) == Run(Act(Act(w1, b), c), []);
  }

  function FinalReceipt(key: string): FreeCallReceipt { FreeCallReceipt(key, "", "", "TERMINAL", true) }

  function Reconciliation(key: string): seq<Event> {
    [Do(Start(true)), Do(ReconcileStart([key], false)), Do(ReconcileReply(Some(FinalReceipt(key)), "", "", false, 0))]
  }

  /** Reconciliation writes first behind the open tail: its resolution is lost. */
  lemma LostResolution(w: World, k1: string, k2: string)
    requires w == Stopped(w) && !w.log.tail.Closed? && k1 in Base(w.log).unresolved && k1 != k2
    requires Replay(w.log).unresolved == {k1} && Replay(w.log).pending == map[]
    ensures var end := Run(w, Reconciliation(k1) + [Do(StartFreeCall(k2, true, 0))]);
      k1 in Replay(end.log).unresolved && k2 in Replay(end.log).unresolved
  {
    var w3 := Reconciled(w, k1);
    BeginsAnother(w3, k1, k2);
    RunThenOne(w, Reconciliation(k1), StartFreeCall(k2, true, 0));
  }

  lemma Reconciled(w: World, k1: string) returns (w3: World)
    requires w == Stopped(w) && !w.log.tail.Closed? && k1 in Base(w.log).unresolved
    requires Replay(w.log).unresolved == {k1} && Replay(w.log).pending == map[]
    ensures w3 == Run(w, Reconciliation(k1)) && w3.pc.Idle? && w3.running && w3.client && !w3.maintenance
    ensures w3.journal.Some? && Unresolved(w3) == {} && w3.log.tail.Closed? && Replay(w3.log) == Base(w.log)
  {
    var reply := ReconcileReply(Some(FinalReceipt(k1)), "", "", false, 0);
    StartReads(w);
    var w2 := Begun(w).(pc := Reconciling([k1], false));
    assert (set k | k in [k1]) == {k1};
    assert Act(Begun(w), ReconcileStart([k1], false)) == w2;
    ReplyStep(w2, reply);
    AppendToBase(w.log, ResolvedRecord(k1, 0));
    w3 := Act(w2, reply);
    RunOfThree(w, Start(true), ReconcileStart([k1], false), reply);
  }

  lemma {:induction false} RunThenOne(w: World, events: seq<Event>, a: Action)
    ensures Run(w, events + [Do(a)]) == Act(Run(w, events), a)
    decreases |events|
  {
    if events == [] {
      assert [] + [Do(a)] == [Do(a)] && [Do(a)][1..] == [];
      assert Run(w, [Do(a)]) == Run(Act(w, a), []);
    } else {
      assert (events + [Do(a)])[1..] == events[1..] + [Do(a)];
      RunThenOne(Next(w, events[0]), events[1..], a);
    }
  }

  lemma UnsafeRun(w: World) returns (later: seq<Event>)
    requires w == Stopped(w) && Damaged(w.log) && !KeepsOneIntent(w.log)
    ensures Clean(later) && !AtMostOne(Replay(Run(w, later).log).unresolved)
  {
    var k1 :| k1 in Base(w.log).unresolved;
    var n := LongestOf(Replay(w.log).seen + {k1});
    var other := seq(n + 1, _ => 'x');
    if Replay(w.log).unresolved == {} {
      var c := AgentCommand(other, "", 1, false);
      DroppedResolution(w, c, k1, other);
      later := [Do(Start(true)), Do(Deliver(c, 0, "", None)), Do(StartFreeCall(other, true, 0))];
    } else {
      assert Replay(w.log).unresolved == {k1};
      LostResolution(w, k1, other);
      later := Reconciliation(k1) + [Do(StartFreeCall(other, true, 0))];
    }
    assert other != k1;
  }

  // ---- at every reachable world

  /**
   An open last line was not written to since it was read, and nothing waits on its free call; a
   running process has an open journal of its own.
   */
  predicate Steady(w: World) {
    && (!w.log.tail.Closed? ==> Untouched(w, w.log) && (w.pc.Idle? || w.pc.Reconciling?))
    && (w.running ==> w.journal.Some? && w.client && !w.maintenance && !(w.pc.Reconciling? && w.pc.own))
  }

  lemma {:induction false} EffectsTouch(w: World, effects: seq<Effect>, marked: Option<string>)
    requires Disciplined(w, effects, marked)
    ensures var w' := PerformEach(w, effects);
      && (w'.log.tail.Closed? || (w'.log == w.log && w'.journal == w.journal))
      && w' == w.(log := w'.log, journal := w'.journal, dials := w'.dials) && (w.journal.Some? ==> w'.journal.Some?)
    decreases |effects|
  {
    if effects != [] {
      if effects[0].Write? {
        if Written(w.journal.value, effects[0].op).Some? {
          AppendToBase(w.log, Written(w.journal.value, effects[0].op).value);
        } else {
          UnwrittenChangesNothing(w, effects[0].op);
        }
      }
      EffectsTouch(Perform1(w, effects[0]), effects[1..], Marked(w, effects[0]));
    }
  }

  lemma ActKeepsSteady(w: World, a: Action)
    requires Steady(w)
    ensures Steady(Act(w, a))
  {
    var plan := Plan(w, a);
    PlanIsDisciplined(w, a);
    EffectsTouch(w, plan, None);
    ControlOnlyReloads(w, PerformEach(w, plan), a);
    ControlKeepsRunning(w, PerformEach(w, plan), a);
    if !Act(w, a).log.tail.Closed? {
      if w.log.tail.Closed? {
        EffectsLeaveClosed(w, plan, None);
      }
      StillWaitsForNothing(w, w.log, a);
    }
  }

  /** `w` is `before` after its effects. */
  lemma ControlKeepsRunning(before: World, w: World, a: Action)
    requires w == before.(log := w.log, journal := w.journal, dials := w.dials)
    requires before.running ==> before.journal.Some? && w.journal.Some? && before.client && !before.maintenance
    requires before.running ==> !(before.pc.Reconciling? && before.pc.own)
    ensures var w' := Control(before, w, a);
      w'.running ==> w'.journal.Some? && w'.client && !w'.maintenance && !(w'.pc.Reconciling? && w'.pc.own)
  {
    if a.ReconcileReply? {
    } else if a.ReconcileStart? {
    } else {
    }
  }

  lemma {:induction false} RunKeepsSteady(w: World, events: seq<Event>)
    requires Steady(w)
    ensures Steady(Run(w, events))
    decreases |events|
  {
    if events != [] {
      if events[0].Do? {
        ActKeepsSteady(w, events[0].action);
      } else {
        CrashedWorld(w, events[0].during, events[0].done, events[0].cut);
      }
      RunKeepsSteady(Next(w, events[0]), events[1..]);
    }
  }

  /**
   The condition on the world: at most one intent is unresolved in the file and on its terminated
   lines; an open last line meets the condition on the file; and behind a terminated one a
   running process remembers the intent.
   */
  predicate OneIntentKept(w: World) {
    && AtMostOne(Replay(w.log).unresolved) && AtMostOne(Base(w.log).unresolved) && KeepsOneIntent(w.log)
    && (w.log.tail.Closed? && w.running ==> Base(w.log).unresolved <= Unresolved(w))
  }

  lemma KeptSuffices(w: World, later: seq<Event>)
    requires Steady(w) && OneIntentKept(w) && Clean(later)
    ensures AtMostOne(Replay(Run(w, later).log).unresolved)
  {
    ReplayOfTail(w.log);
    if w.log.tail.Closed? {
      RunProgresses(w, Log([], Torn), later);
    } else {
      RunProgresses(w, w.log, later);
    }
  }

  // ---- a running process that has forgotten an intent

  /** An idle process that runs does not remember `k1`, which the file holds unresolved. */
  predicate Forgetful(w: World, k1: string) {
    && w.pc.Idle? && w.running && w.client && !w.maintenance && w.journal.Some?
    && w.log.tail.Closed? && k1 in Replay(w.log).unresolved && k1 !in Unresolved(w)
  }

  /** The answer that leaves what the process waits for undecided. */
  function GiveUp(pc: Pc): Action {
    match pc
    case Idle => EnsureAudio
    case Requested(_) => CreateReply(Uncertain, 0)
    case Claiming(_) => ClaimReply(None, 0, "", None)
    case Executed(_) => FreeCallDone(true, 0)
    case Reconciling(_, _) => ReconcileReply(None, "", "", false, 0)
  }

  lemma GiveUpIdles(w: World, k1: string)
    requires Steady(w) && w.running && w.log.tail.Closed? && k1 in Replay(w.log).unresolved && k1 !in Unresolved(w)
    ensures Forgetful(Act(w, GiveUp(w.pc)), k1)
  {
    assert Plan(w, GiveUp(w.pc)) == [];
  }

  /** Acknowledging every event still to deliver. */
  lemma {:induction false} Drain(w: World, k1: string, ids: set<string>) returns (later: seq<Event>)
    requires Forgetful(w, k1) && ids == w.journal.value.pending.Keys
    ensures Clean(later) && Forgetful(Run(w, later), k1) && Run(w, later).journal.value.pending == map[]
    decreases |ids|
  {
    later := [];
    if ids != {} {
      var id :| id in ids;
      var sent := Sent(AgentEvent("", "", "", id, "", 0, None), 0);
      var w' := Acknowledged(w, k1, id);
      var rest := Drain(w', k1, ids - {id});
      later := [Do(sent)] + rest;
      assert later[1..] == rest;
    }
  }

  lemma Acknowledged(w: World, k1: string, id: string) returns (w': World)
    requires Forgetful(w, k1) && id in w.journal.value.pending
    ensures w' == Act(w, Sent(AgentEvent("", "", "", id, "", 0, None), 0)) && Forgetful(w', k1)
    ensures w'.journal.value.pending.Keys == w.journal.value.pending.Keys - {id}
  {
    var item := AgentEvent("", "", "", id, "", 0, None);
    OneEffect(w, Write(Acknowledge(item, 0)));
    AppendReplays(w.log, AckRecord(item, 0));
    w' := Act(w, Sent(item, 0));
  }

  /** A reconciling process with nothing to deliver resolves its keys one after the other. */
  lemma {:induction false} ResolveKeys(w: World, k1: string, keys: seq<string>) returns (later: seq<Event>)
    requires Forgetful(w.(pc := Idle), k1) && w.pc == Reconciling(keys, false) && keys != []
    requires w.journal.value.pending == map[] && k1 !in keys && forall k :: k in Unresolved(w) ==> k in keys
    ensures Clean(later) && Forgetful(Run(w, later), k1) && Unresolved(Run(w, later)) == {}
    decreases |keys|
  {
    var reply := ReconcileReply(Some(FinalReceipt(keys[0])), "", "", false, 0);
    var w' := Act(w, reply);
    ReplyStep(w, reply);
    AppendReplays(w.log, ResolvedRecord(keys[0], 0));
    if |keys| == 1 {
      later := [Do(reply)];
      RunThenOne(w, [], reply);
      assert [] + [Do(reply)] == [Do(reply)];
    } else {
      var rest;
      rest := ResolveKeys(w', k1, keys[1..]);
      later := [Do(reply)] + rest;
      assert later[1..] == rest;
    }
  }

  lemma {:induction false} InSomeOrder(s: set<string>) returns (q: seq<string>)
    ensures forall k :: k in q <==> k in s
    decreases |s|
  {
    q := [];
    if s != {} {
      var x :| x in s;
      var rest := InSomeOrder(s - {x});
      q := [x] + rest;
    }
  }

  lemma Settled(w: World, k1: string) returns (later: seq<Event>)
    requires Forgetful(w, k1) && w.journal.value.pending == map[]
    ensures Clean(later) && Forgetful(Run(w, later), k1) && Unresolved(Run(w, later)) == {}
  {
    later := [];
    if Unresolved(w) != {} {
      var keys := InSomeOrder(Unresolved(w));
      assert (set k | k in keys) == Unresolved(w);
      var start := ReconcileStart(keys, false);
      var w' := w.(pc := Reconciling(keys, false));
      assert Act(w, start) == w';
      var rest := ResolveKeys(w', k1, keys);
      later := [Do(start)] + rest;
      assert later[1..] == rest;
    }
  }

  lemma CleanParts(first: seq<Event>, rest: seq<Event>)
    requires Clean(first) && Clean(rest)
    ensures Clean(first + rest)
  {
  }

  /** It delivers what it has, reconciles what it remembers, and begins another free call. */
  lemma ForgottenIntentIsDoubled(w: World, k1: string) returns (later: seq<Event>)
    requires Forgetful(w, k1)
    ensures Clean(later) && !AtMostOne(Replay(Run(w, later).log).unresolved)
  {
    var drain := Drain(w, k1, w.journal.value.pending.Keys);
    var w1 := Run(w, drain);
    var settle := Settled(w1, k1);
    var w2 := Run(w1, settle);
    var n := LongestOf({k1});
    var k2 := seq(n + 1, _ => 'x');
    assert k2 != k1;
    BeginsAnother(w2, k1, k2);
    RunInParts(w, drain, settle);
    RunThenOne(w, drain + settle, StartFreeCall(k2, true, 0));
    CleanParts(drain, settle);
    CleanParts(drain + settle, [Do(StartFreeCall(k2, true, 0))]);
    later := drain + settle + [Do(StartFreeCall(k2, true, 0))];
  }

  lemma RunningForgets(w: World) returns (later: seq<Event>)
    requires Steady(w) && w.running && w.log.tail.Closed? && !(Base(w.log).unresolved <= Unresolved(w))
    ensures Clean(later) && !AtMostOne(Replay(Run(w, later).log).unresolved)
  {
    var k1 :| k1 in Base(w.log).unresolved && k1 !in Unresolved(w);
    GiveUpIdles(w, k1);
    var rest := ForgottenIntentIsDoubled(Act(w, GiveUp(w.pc)), k1);
    later := [Do(GiveUp(w.pc))] + rest;
    assert later[1..] == rest;
  }

  /** The next append drops the open line; what the terminated ones hold is then in the file. */
  lemma DroppedTail(w: World) returns (later: seq<Event>)
    requires w == Stopped(w) && !w.log.tail.Closed?
    ensures Clean(later) && Replay(Run(w, later).log) == Base(w.log)
  {
    var n := LongestOf(Replay(w.log).seen);
    var id := seq(n + 1, _ => 'x');
    var c := AgentCommand(id, "", 0, false);
    later := [Do(Start(true)), Do(Deliver(c, -1, "", None))];
    StartThenDeliver(w, c);
    RunOfTwo(w, Start(true), Deliver(c, -1, "", None));
    AppendToBase(w.log, CommandRecord(id, -1));
  }

  lemma KeptIsNecessary(w: World) returns (later: seq<Event>)
    requires Steady(w) && !OneIntentKept(w)
    ensures Clean(later) && !AtMostOne(Replay(Run(w, later).log).unresolved)
  {
    ReplayOfTail(w.log);
    if !AtMostOne(Replay(w.log).unresolved) {
      later := [];
    } else if w.log.tail.Closed? {
      later := RunningForgets(w);
    } else {
      if !AtMostOne(Base(w.log).unresolved) {
        later := DroppedTail(Stopped(w));
      } else {
        later := UnsafeRun(Stopped(w));
      }
      KillStops(w, later);
      later := [Kill()] + later;
    }
  }

  lemma {:induction false} RunInParts(w: World, first: seq<Event>, rest: seq<Event>)
    ensures Run(w, first + rest) == Run(Run(w, first), rest)
    decreases |first|
  {
    if first == [] {
      assert first + rest == rest;
    } else {
      assert (first + rest)[1..] == first[1..] + rest;
      RunInParts(Next(w, first[0]), first[1..], rest);
    }
  }

  lemma RunSingle(w: World, e: Event)
    ensures Run(w, [e]) == Next(w, e)
  {
    assert [e][1..] == [] && Run(w, [e]) == Run(Next(w, e), []);
  }

  /**
   At any reachable world the file never holds two unresolved intents from now on if and only if
   the world meets the condition.
   */
  lemma OneIntentIff(events: seq<Event>)
    ensures var w := Run(Initial(), events); NeverTwoIntents(w) <==> OneIntentKept(w)
  {
    var w := Run(Initial(), events);
    RunKeepsSteady(Initial(), events);
    if OneIntentKept(w) {
      forall later | Clean(later) ensures AtMostOne(Replay(Run(w, later).log).unresolved) {
        KeptSuffices(w, later);
      }
    } else {
      var later := KeptIsNecessary(w);
    }
  }

  lemma RunThenEvent(w: World, events: seq<Event>, e: Event)
    ensures Run(w, events + [e]) == Next(Run(w, events), e)
  {
    RunInParts(w, events, [e]);
    RunSingle(Run(w, events), e);
  }

  /** After a clean run and one crash anywhere, also inside an append, that is a condition on the file alone. */
  lemma OneIntentAfterCrashIff(events: seq<Event>, during: Action, done: nat, cut: Cut)
    requires Clean(events)
    ensures var w := Next(Run(Initial(), events), Crash(during, done, cut));
      NeverTwoIntents(w) <==> KeepsOneIntent(w.log)
  {
    var crash := Crash(during, done, cut);
    RunThenEvent(Initial(), events, crash);
    OneIntentIff(events + [crash]);
    RunKeepsInv(Initial(), events);
    CrashLeaves(Run(Initial(), events), during, done, cut);
    ReplayOfTail(Next(Run(Initial(), events), crash).log);
  }
}
