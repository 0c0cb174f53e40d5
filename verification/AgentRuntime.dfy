/**
 The telephony agent around its journal: commands delivered by polling or by protocol
 activation, free calls with a durable intent, reconciliation, stops, crashes and reloads.
 An action performs its effects in order; a crash performs some of them, the last perhaps
 only in part, and loses the memory of the process.
 */
module AgentRuntime {
  import opened Prelude
  import opened EventJournal

  datatype AgentCommand = AgentCommand(id: string, callId: string, expiresAt: int, hangupRequested: bool)

  /** Where the one free call, or the one reconciliation, of the process is waiting. */
  datatype Pc =
    | Idle
    | Requested(key: string)                           // intent durable, creation sent
    | Claiming(key: string)
    | Executed(key: string)                            // command executed, intent not yet resolved
    | Reconciling(keys: seq<string>, own: bool)        // `own`: on a journal opened for it

  datatype World = World(log: Log, journal: Option<Memory>, engine: bool, client: bool, running: bool,
                         maintenance: bool, pc: Pc, dials: seq<string>)

  datatype FreeCallReceipt = FreeCallReceipt(key: string, workstationId: string, profileId: string, outcome: string,
                                             identified: bool)
  datatype CreateAnswer = Created | Rejected | Uncertain

  datatype Action =
    | Start(ok: bool)
    | EnsureAudio
    | LoopFails
    | RequestStop(forMaintenance: bool, callActive: bool)
    | FinishStop
    | Deliver(command: AgentCommand, at: int, eventId: string, sdk: Option<string>)
    | StartFreeCall(newKey: string, ready: bool, at: int)
    | CreateReply(answer: CreateAnswer, at: int)
    | ClaimReply(claimed: Option<AgentCommand>, at: int, eventId: string, sdk: Option<string>)
    | FreeCallDone(failed: bool, at: int)
    | Observed(commandId: string, callId: string, eventId: string, state: string, at: int, reason: Option<string>)
    | Sent(item: AgentEvent, at: int)
    | ReconcileStart(order: seq<string>, callActive: bool)
    | ReconcileReply(receipt: Option<FreeCallReceipt>, workstationId: string, profileId: string, callActive: bool,
                     at: int)

  datatype Event =
    | Do(action: Action)
    | Crash(during: Action, done: nat, cut: Cut)

  // ---------------------------------------------------------------- effects

  datatype Effect = Write(op: Operation) | Dial(id: string)

  function Reject(w: World, c: AgentCommand, at: int, eventId: string, reason: string): seq<Effect> {
    if w.client then [Write(Add(AgentEvent("1", c.id, c.callId, eventId, "FAILED", at, Some(reason))))] else []
  }

  /** `sdk` is the refusal StartCall throws, if any. */
  function Execute(w: World, c: AgentCommand, at: int, eventId: string, sdk: Option<string>): seq<Effect> {
    if w.journal.None? || !w.engine then []
    else if c.hangupRequested || c.id in w.journal.value.seen then []
    else if w.maintenance then [Write(MarkCommand(c.id, at))]
        + Reject(w, c, at, eventId, "PROFILE_MAINTENANCE_IN_PROGRESS")
    else if c.expiresAt <= at then Reject(w, c, at, eventId, "COMMAND_EXPIRED")
    else [Write(MarkCommand(c.id, at)), Dial(c.id)] + (if sdk.Some? then Reject(w, c, at, eventId, sdk.value) else [])
  }

  /** Reconciliation resolves on a matching final receipt, while nothing is active or undelivered. */
  function CanResolve(receipt: FreeCallReceipt, key: string, workstationId: string, profileId: string, callActive: bool,
                      pendingEvents: nat): Result<bool, string> {
    if receipt.key != key || receipt.workstationId != workstationId
        || receipt.profileId != profileId then Refused("FREE_CALL_RECEIPT_IDENTITY_MISMATCH")
    else if callActive || pendingEvents != 0 then Ok(false)
    else if receipt.outcome != "TERMINAL" && receipt.outcome != "EXPIRED_UNDELIVERED" then Ok(false)
    else if !receipt.identified then Refused("FREE_CALL_RECEIPT_INVALID")
    else Ok(true)
  }

  predicate MayStartFreeCall(w: World, ready: bool) {
    && w.pc.Idle? && !w.maintenance && w.running && ready && w.client && w.journal.Some?
    && w.journal.value.unresolved == {}
  }

  function ReconcileAnswer(w: World, a: Action): Result<bool, string>
    requires a.ReconcileReply? && w.pc.Reconciling? && w.pc.keys != [] && w.journal.Some?
  {
    if a.receipt.None? then Refused("CRM_UNREACHABLE")
    else CanResolve(a.receipt.value, w.pc.keys[0], a.workstationId, a.profileId, a.callActive,
                    |w.journal.value.pending|)
  }

  predicate JournalIsOpen(w: World) { w.journal.Some? && !(w.pc.Reconciling? && w.pc.own) }

  function Plan(w: World, a: Action): seq<Effect> {
    match a
    case Deliver(c, at, eventId, sdk) => if w.client && !w.pc.Reconciling? then Execute(w, c, at, eventId, sdk) else []
    case StartFreeCall(key, ready, at) => if MayStartFreeCall(w, ready) then [Write(BeginFreeCall(key, at))] else []
    case CreateReply(answer, at) =>
      if w.pc.Requested? && answer.Rejected? && w.journal.Some? then [Write(ResolveFreeCall(w.pc.key, at))] else []
    case ClaimReply(claimed, at, eventId, sdk) =>
      if w.pc.Claiming? && claimed.Some? then Execute(w, claimed.value, at, eventId, sdk) else []
    case FreeCallDone(failed, at) =>
      if w.pc.Executed? && !failed && w.journal.Some? then [Write(ResolveFreeCall(w.pc.key, at))] else []
    case Observed(commandId, callId, eventId, state, at, reason) =>
      if JournalIsOpen(w) then [Write(Add(AgentEvent("1", commandId, callId, eventId, state, at, reason)))] else []
    case Sent(item, at) => if JournalIsOpen(w) then [Write(Acknowledge(item, at))] else []
    case ReconcileReply(_, _, _, _, at) =>
      if w.pc.Reconciling? && w.pc.keys != [] && w.journal.Some? && ReconcileAnswer(w, a) == Ok(true)
      then [Write(ResolveFreeCall(w.pc.keys[0], at))] else []
    case _ => []
  }

  function Perform1(w: World, e: Effect): World {
    match e
    case Dial(id) => w.(dials := w.dials + [id])
    case Write(op) =>
      if w.journal.None? then w
      else var j := Perform(Journal(w.log, w.journal.value), op); w.(log := j.log, journal := Some(j.memory))
  }

  function PerformEach(w: World, effects: seq<Effect>): World
    decreases |effects|
  {
    if effects == [] then w else PerformEach(Perform1(w, effects[0]), effects[1..])
  }

  // ---------------------------------------------------------------- control

  function Loaded(w: World): Memory { if w.journal.Some? then w.journal.value else Replay(w.log) }

  function EndReconciliation(w: World): World
    requires w.pc.Reconciling?
  {
    w.(pc := Idle, journal := if w.pc.own then None else w.journal)
  }

  /**
   The fields an action changes besides the log, the memory of the journal and the calls; `before`
   is the world it saw.
   */
  function Control(before: World, w: World, a: Action): World {
    match a
    case Start(ok) =>
      if w.running || w.pc.Reconciling? then w
      else if ok then w.(journal := Some(Replay(w.log)), engine := true, client := true, running := true,
                         maintenance := false)
      else w.(journal := None, engine := false, client := false, maintenance := false)
    case EnsureAudio => if w.pc.Reconciling? then w else w.(engine := true)
    case LoopFails => if w.running then w.(engine := false, client := false, running := false) else w
    case RequestStop(forMaintenance, callActive) =>
      if w.pc.Reconciling? || (forMaintenance
                               && (!w.pc.Idle? || callActive || Loaded(w).pending != map[]
                                   || Loaded(w).unresolved != {})) then w
      else w.(running := false, maintenance := w.maintenance || forMaintenance)
    case FinishStop => if w.running || !w.pc.Idle? then w else w.(journal := None, engine := false, client := false)
    case StartFreeCall(key, ready, _) => if MayStartFreeCall(before, ready) then w.(pc := Requested(key)) else w
    case CreateReply(answer, _) =>
      if !w.pc.Requested? then w
      else if answer.Created? && w.client && w.journal.Some? && w.engine then w.(pc := Claiming(w.pc.key))
          else w.(pc := Idle)
    case ClaimReply(claimed, _, _, _) =>
      if !w.pc.Claiming? then w else if claimed.Some? then w.(pc := Executed(w.pc.key)) else w.(pc := Idle)
    case FreeCallDone(_, _) => if w.pc.Executed? then w.(pc := Idle) else w
    case ReconcileStart(order, callActive) =>
      if !w.pc.Idle? || callActive || Loaded(w).pending != map[] || order == []
          || (set k | k in order) != Loaded(w).unresolved then w
      else w.(pc := Reconciling(order, w.journal.None?), journal := Some(Loaded(w)))
    case ReconcileReply(_, _, _, _, _) =>
      if !w.pc.Reconciling? then w
      else if |w.pc.keys| <= 1 || before.journal.None? || before.pc != w.pc
          || ReconcileAnswer(before, a).Refused? then EndReconciliation(w)
      else w.(pc := Reconciling(w.pc.keys[1..], w.pc.own))
    case _ => w
  }

  function Act(w: World, a: Action): World { Control(w, PerformEach(w, Plan(w, a)), a) }

  function Stopped(w: World): World {
    w.(journal := None, engine := false, client := false, running := false, maintenance := false, pc := Idle)
  }

  /** The reconciliation moves to its next key. */
  function Advanced(w: World): World
    requires w.pc.Reconciling? && w.pc.keys != []
  {
    if |w.pc.keys| == 1 then EndReconciliation(w) else w.(pc := Reconciling(w.pc.keys[1..], w.pc.own))
  }

  lemma ReplyStep(w: World, a: Action)
    requires a.ReconcileReply? && w.pc.Reconciling? && w.pc.keys != [] && w.journal.Some?
    ensures Act(w, a) == match ReconcileAnswer(w, a)
      case Refused(_) => EndReconciliation(w)
      case Ok(resolve) => Advanced(if resolve then Perform1(w, Write(ResolveFreeCall(w.pc.keys[0], a.at))) else w)
  {
    if ReconcileAnswer(w, a) == Ok(true) {
      OneEffect(w, Write(ResolveFreeCall(w.pc.keys[0], a.at)));
    }
  }

  /** A crash after `done` effects; the next one may have reached the file in part. */
  function Interrupted(w: World, a: Action, done: nat, cut: Cut): World {
    var plan := Plan(w, a);
    if done >= |plan| then Stopped(PerformEach(w, plan))
    else
      var w' := PerformEach(w, plan[..done]);
      var r := if plan[done].Write? && w'.journal.Some? then Written(w'.journal.value, plan[done].op) else None;
      Stopped(if r.Some? then w'.(log := CutAppend(w'.log, r.value, cut)) else w')
  }

  function Next(w: World, e: Event): World {
    match e
    case Do(a) => Act(w, a)
    case Crash(a, done, cut) => Interrupted(w, a, done, cut)
  }

  function Run(w: World, events: seq<Event>): World
    decreases |events|
  {
    if events == [] then w else Run(Next(w, events[0]), events[1..])
  }

  function Initial(): World { World(Log([], Closed), None, false, false, false, false, Idle, []) }

  /** The crashes of the run do not cut a record. */
  predicate Clean(events: seq<Event>) {
    forall e :: e in events && e.Crash? ==> e.cut.BeforeText?
  }

  // ---------------------------------------------------------------- invariant

  predicate Distinct(s: seq<string>) {
    forall i, j :: 0 <= i < j < |s| ==> s[i] != s[j]
  }

  predicate Safe(m: Memory, dials: seq<string>) {
    && Distinct(dials) && (forall id :: id in dials ==> id in m.seen)
    && (forall a, b :: a in m.unresolved && b in m.unresolved ==> a == b)
  }

  predicate Inv(w: World) {
    && w.log.tail.Closed? && (w.journal.Some? ==> w.journal.value == Replay(w.log)) && Safe(Replay(w.log), w.dials)
  }

  /** What makes an effect safe in the world where it happens. */
  predicate Admissible(w: World, e: Effect) {
    && w.journal.Some?
    && match e
       case Dial(id) => id in w.journal.value.seen && id !in w.dials
       case Write(op) =>
         && (op.BeginFreeCall? ==> w.journal.value.unresolved == {})
         && (op.Add? ==> op.item.schemaVersion == "1")
  }

  predicate AllAdmissible(w: World, effects: seq<Effect>)
    decreases |effects|
  {
    effects == [] || (Admissible(w, effects[0]) && AllAdmissible(Perform1(w, effects[0]), effects[1..]))
  }

  lemma EffectKeepsInv(w: World, e: Effect)
    requires Inv(w) && Admissible(w, e)
    ensures Inv(Perform1(w, e))
  {
    if e.Write? {
      PerformKeepsConsistentIff(Journal(w.log, w.journal.value), e.op);
    }
  }

  lemma {:induction false} EffectsKeepInv(w: World, effects: seq<Effect>, done: nat)
    requires Inv(w) && AllAdmissible(w, effects) && done <= |effects|
    ensures Inv(PerformEach(w, effects[..done]))
    decreases done
  {
    if done > 0 {
      EffectKeepsInv(w, effects[0]);
      EffectsKeepInv(Perform1(w, effects[0]), effects[1..], done - 1);
      assert effects[..done][1..] == effects[1..][..done - 1];
    }
  }

  lemma OneEffect(w: World, e: Effect)
    ensures AllAdmissible(w, [e]) <==> Admissible(w, e)
    ensures PerformEach(w, [e]) == Perform1(w, e)
  {
    assert [e][1..] == [];
    assert AllAdmissible(Perform1(w, e), []);
    assert PerformEach(Perform1(w, e), []) == Perform1(w, e);
  }

  lemma {:induction false} EffectsKeepPc(w: World, effects: seq<Effect>)
    ensures PerformEach(w, effects).pc == w.pc
    decreases |effects|
  {
    if effects != [] {
      EffectsKeepPc(Perform1(w, effects[0]), effects[1..]);
    }
  }

  lemma RejectIsAdmissible(w: World, w': World, c: AgentCommand, at: int, eventId: string, reason: string)
    requires w'.journal.Some?
    ensures AllAdmissible(w', Reject(w, c, at, eventId, reason))
  {
    if w.client {
      OneEffect(w', Reject(w, c, at, eventId, reason)[0]);
    }
  }

  lemma ExecuteIsAdmissible(w: World, c: AgentCommand, at: int, eventId: string, sdk: Option<string>)
    requires Inv(w)
    ensures AllAdmissible(w, Execute(w, c, at, eventId, sdk))
  {
    var plan := Execute(w, c, at, eventId, sdk);
    if w.journal.Some? && w.engine && !c.hangupRequested && c.id !in w.journal.value.seen {
      var mark := Write(MarkCommand(c.id, at));
      var marked := Perform1(w, mark);
      assert Admissible(w, mark) && marked.journal.Some? && c.id in marked.journal.value.seen
          && marked.dials == w.dials;
      if w.maintenance {
        RejectIsAdmissible(w, marked, c, at, eventId, "PROFILE_MAINTENANCE_IN_PROGRESS");
        assert plan[1..] == Reject(w, c, at, eventId, "PROFILE_MAINTENANCE_IN_PROGRESS");
      } else if c.expiresAt <= at {
        RejectIsAdmissible(w, w, c, at, eventId, "COMMAND_EXPIRED");
      } else {
        var dialled := Perform1(marked, Dial(c.id));
        var tail := if sdk.Some? then Reject(w, c, at, eventId, sdk.value) else [];
        assert AllAdmissible(dialled, tail) by {
          if sdk.Some? {
            RejectIsAdmissible(w, dialled, c, at, eventId, sdk.value);
          }
        }
        assert plan == [mark, Dial(c.id)] + tail && plan[1..] == [Dial(c.id)] + tail && plan[1..][1..] == tail;
        assert AllAdmissible(marked, plan[1..]);
      }
    }
  }

  lemma PlanIsAdmissible(w: World, a: Action)
    requires Inv(w)
    ensures AllAdmissible(w, Plan(w, a))
  {
    if a.Deliver? {
      ExecuteIsAdmissible(w, a.command, a.at, a.eventId, a.sdk);
    } else if a.ClaimReply? {
      if a.claimed.Some? {
        ExecuteIsAdmissible(w, a.claimed.value, a.at, a.eventId, a.sdk);
      }
    } else {
      var plan := Plan(w, a);
      if plan != [] {
        assert plan == [plan[0]];
        OneEffect(w, plan[0]);
      }
    }
  }

  /** Control touches the journal only to close it or to read the file. */
  lemma ControlOnlyReloads(before: World, w: World, a: Action)
    ensures var w' := Control(before, w, a);
      && w'.log == w.log && w'.dials == w.dials
      && (w'.journal == w.journal || w'.journal == None || w'.journal == Some(Replay(w.log)))
  {
    if a.ReconcileReply? {
    } else if a.ReconcileStart? {
    } else {
    }
  }

  lemma ControlKeepsInv(before: World, w: World, a: Action)
    requires Inv(w)
    ensures Inv(Control(before, w, a))
  {
    ControlOnlyReloads(before, w, a);
  }

  lemma NextKeepsInv(w: World, e: Event)
    requires Inv(w) && (e.Crash? ==> e.cut.BeforeText?)
    ensures Inv(Next(w, e))
  {
    var a := if e.Do? then e.action else e.during;
    var plan := Plan(w, a);
    PlanIsAdmissible(w, a);
    EffectsKeepInv(w, plan, |plan|);
    assert plan[..|plan|] == plan;
    if e.Do? {
      ControlKeepsInv(w, PerformEach(w, plan), a);
    } else if e.done < |plan| {
      EffectsKeepInv(w, plan, e.done);
    }
  }

  lemma {:induction false} RunKeepsInv(w: World, events: seq<Event>)
    requires Inv(w) && Clean(events)
    ensures Inv(Run(w, events))
    decreases |events|
  {
    if events != [] {
      assert events[0] in events;
      NextKeepsInv(w, events[0]);
      assert Clean(events[1..]);
      RunKeepsInv(Next(w, events[0]), events[1..]);
    }
  }

  // ---------------------------------------------------------------- main results

  /**
   Over every run of polls, activations, redeliveries, stops, crashes and reloads in which
   no crash cuts a record: StartCall is invoked at most once for a command, and at most one
   free-call intent is unresolved, in the file and in memory.
   */
  lemma NoRedial(events: seq<Event>, i: nat, j: nat)
    requires Clean(events)
    requires var w := Run(Initial(), events); i < |w.dials| && j < |w.dials|
    ensures var w := Run(Initial(), events);
      && (w.dials[i] == w.dials[j] ==> i == j)
  {
    RunKeepsInv(Initial(), events);
    var w := Run(Initial(), events);
    assert Distinct(w.dials);
  }

  lemma OneUnresolvedIntent(events: seq<Event>, a: string, b: string)
    requires Clean(events)
    ensures var w := Run(Initial(), events);
      && (a in Replay(w.log).unresolved && b in Replay(w.log).unresolved ==> a == b)
      && (w.journal.Some? ==> w.journal.value == Replay(w.log))
  {
    RunKeepsInv(Initial(), events);
  }

  /**
   An intent leaves the journal only on a definite refusal, after its command was claimed, or on a
   matching final receipt.
   */
  predicate Settles(w: World, a: Action, key: string) {
    match a
    case CreateReply(answer, _) => w.pc == Requested(key) && answer.Rejected?
    case FreeCallDone(failed, _) => w.pc == Executed(key) && !failed
    case ReconcileReply(receipt, workstationId, profileId, callActive, _) =>
      && w.pc.Reconciling? && w.pc.keys != [] && w.pc.keys[0] == key
      && receipt.Some? && receipt.value.key == key && receipt.value.workstationId == workstationId
      && receipt.value.profileId == profileId
      && receipt.value.identified && (receipt.value.outcome == "TERMINAL"
                                      || receipt.value.outcome == "EXPIRED_UNDELIVERED")
      && !callActive && w.journal.Some? && w.journal.value.pending == map[]
    case _ => false
  }

  predicate Resolves(e: Effect, key: string) { e.Write? && e.op.ResolveFreeCall? && e.op.key == key }

  lemma ExecuteResolvesNothing(w: World, c: AgentCommand, at: int, eventId: string, sdk: Option<string>, e: Effect,
                               key: string)
    requires e in Execute(w, c, at, eventId, sdk)
    ensures !Resolves(e, key)
  {
  }

  lemma PlannedResolutionSettles(w: World, a: Action, e: Effect, key: string)
    requires e in Plan(w, a) && Resolves(e, key)
    ensures Settles(w, a, key)
  {
    if a.Deliver? {
      ExecuteResolvesNothing(w, a.command, a.at, a.eventId, a.sdk, e, key);
    } else if a.ClaimReply? {
      ExecuteResolvesNothing(w, a.claimed.value, a.at, a.eventId, a.sdk, e, key);
    } else if a.ReconcileReply? {
      assert ReconcileAnswer(w, a) == Ok(true);
      assert |w.journal.value.pending.Keys| == 0;
    }
  }

  // ---------------------------------------------------------------- crashes that cut a record

  /** Some identifier is not in a finite set. */
  lemma {:induction false} LongestOf(s: set<string>) returns (n: nat)
    ensures forall x :: x in s ==> |x| <= n
    decreases |s|
  {
    n := 0;
    if s != {} {
      var x :| x in s;
      var m := LongestOf(s - {x});
      n := if m < |x| then |x| else m;
    }
  }

  function Redelivery(c: AgentCommand): seq<Event> {
    [Do(Start(true)), Do(Deliver(c, c.expiresAt - 1, "", None)), Crash(Start(true), 0, BeforeText), Do(Start(true)),
     Do(Deliver(c, c.expiresAt - 1, "", None))]
  }

  /** A started agent dials a command it has not seen. */
  lemma StartThenDeliver(w: World, c: AgentCommand)
    requires w == Stopped(w) && !c.hangupRequested && c.id !in Replay(w.log).seen
    ensures var r := CommandRecord(c.id, c.expiresAt - 1);
      var w' := Act(Act(w, Start(true)), Deliver(c, c.expiresAt - 1, "", None));
      w'.log == Append(w.log, r) && w'.dials == w.dials + [c.id] && w'.journal.Some? && w'.pc.Idle?
  {
    var started := Act(w, Start(true));
    assert started == w.(journal := Some(Replay(w.log)), engine := true, client := true, running := true,
                         maintenance := false);
    var mark := Write(MarkCommand(c.id, c.expiresAt - 1));
    assert Plan(started, Deliver(c, c.expiresAt - 1, "", None)) == [mark, Dial(c.id)];
    assert [mark, Dial(c.id)][1..] == [Dial(c.id)];
    OneEffect(Perform1(started, mark), Dial(c.id));
  }

  /** Behind a damaged tail the mark of the next command is lost, and its redelivery dials it again. */
  lemma DamagedTailRedials(w: World, c: AgentCommand)
    requires w == Stopped(w) && w.log.tail != Closed && !c.hangupRequested
    requires c.id !in Replay(w.log).seen && c.id !in Replay(w.log.(tail := Closed)).seen
    ensures Run(w, Redelivery(c)).dials == w.dials + [c.id, c.id]
  {
    var r := CommandRecord(c.id, c.expiresAt - 1);
    var go := Deliver(c, c.expiresAt - 1, "", None);
    StartThenDeliver(w, c);
    var w2 := Act(Act(w, Start(true)), go);
    TornTail(w.log, [r]);
    assert [r][1..] == [] && Lines([]) == [];
    assert AppendAll(w.log, [r]) == AppendAll(Append(w.log, r), []);
    assert c.id !in Replay(w2.log).seen;
    var w3 := Next(w2, Crash(Start(true), 0, BeforeText));
    assert w3 == Stopped(w2);
    StartThenDeliver(w3, c);
    RunFive(w, Redelivery(c));
  }

  lemma RunFive(w: World, e: seq<Event>)
    requires |e| == 5
    ensures Run(w, e) == Next(Next(Next(Next(Next(w, e[0]), e[1]), e[2]), e[3]), e[4])
  {
    var w1 := Next(w, e[0]);
    var w2 := Next(w1, e[1]);
    var w3 := Next(w2, e[2]);
    var w4 := Next(w3, e[3]);
    assert e[1..][1..] == e[2..] && e[2..][1..] == e[3..] && e[3..][1..] == e[4..] && e[4..][1..] == [];
    assert Run(w1, e[1..]) == Run(w2, e[2..]) && Run(w2, e[2..]) == Run(w3, e[3..]);
    assert Run(w3, e[3..]) == Run(w4, e[4..]) && Run(w4, e[4..]) == Run(Next(w4, e[4]), []);
  }

  lemma TerminatedMeansUncut(w: World, a: Action, done: nat, cut: Cut)
    requires Inv(w) && Interrupted(w, a, done, cut).log.tail == Closed
    ensures Interrupted(w, a, done, cut) == Interrupted(w, a, done, BeforeText)
  {
  }

  /** A free call begun behind a damaged tail leaves no durable intent; behind a terminated line it does. */
  lemma IntentIsDurableIff(log: Log, key: string, at: int)
    requires key !in Replay(log.(tail := Closed)).unresolved
    ensures key in Replay(Append(log, IntentRecord(key, at))).unresolved <==> log.tail == Closed
  {
    var r := IntentRecord(key, at);
    if log.tail == Closed {
      AppendReplays(log, r);
    } else {
      TornTail(log, [r]);
      assert [r][1..] == [] && Lines([]) == [];
      assert AppendAll(log, [r]) == AppendAll(Append(log, r), []);
    }
  }
}
