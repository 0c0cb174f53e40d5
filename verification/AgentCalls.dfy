/**
 Which commands the agent calls, which it rejects and with which event, and what each answer to a
 free call does, said on the inputs and on what the process remembers.
 */
module AgentCalls {
  import opened Prelude
  import opened EventJournal
  import opened AgentRuntime

  // ---------------------------------------------------------------- commands

  /** The command the action delivers or claims, with the instant, the event identifier and the refusal of the SDK. */
  datatype Asked = Asked(command: AgentCommand, at: int, eventId: string, sdk: Option<string>)

  function AskedBy(w: World, a: Action): Option<Asked> {
    match a
    case Deliver(c, at, eventId, sdk) =>
      if w.client && !w.pc.Reconciling? then Some(Asked(c, at, eventId, sdk)) else None
    case ClaimReply(Some(c), at, eventId, sdk) => if w.pc.Claiming? then Some(Asked(c, at, eventId, sdk)) else None
    case _ => None
  }

  /** Journal and engine are there, and the command is no hang-up and was not seen. */
  predicate New(w: World, q: Asked) {
    w.journal.Some? && w.engine && !q.command.hangupRequested && q.command.id !in w.journal.value.seen
  }

  /** It is new, no maintenance is requested, and it has not expired. */
  predicate Calls(w: World, q: Asked) {
    New(w, q) && !w.maintenance && q.at < q.command.expiresAt
  }

  /** The event the CRM is to receive for a rejected command. */
  function Failure(q: Asked, reason: string): AgentEvent {
    AgentEvent("1", q.command.id, q.command.callId, q.eventId, "FAILED", q.at, Some(reason))
  }

  /** What is still to be delivered after a rejection; without a client nothing is reported. */
  function Reported(w: World, q: Asked, reason: string): map<string, AgentEvent>
    requires w.journal.Some?
  {
    if w.client then w.journal.value.pending[q.eventId := Failure(q, reason)] else w.journal.value.pending
  }

  /** What a command does to the calls and to the memory of the process. */
  predicate Answered(w: World, w': World, q: Asked) {
    if !New(w, q) then w'.dials == w.dials && w'.journal == w.journal && w'.log == w.log
    else if w.maintenance then
      && w'.dials == w.dials
      && w'.journal == Some(w.journal.value.(seen := w.journal.value.seen + {q.command.id},
                                             pending := Reported(w, q, "PROFILE_MAINTENANCE_IN_PROGRESS")))
    else if q.command.expiresAt <= q.at then
      && w'.dials == w.dials
      && w'.journal == Some(w.journal.value.(pending := Reported(w, q, "COMMAND_EXPIRED")))
    else
      && w'.dials == w.dials + [q.command.id]
      && w'.journal == Some(w.journal.value.(seen := w.journal.value.seen + {q.command.id},
                                             pending := if q.sdk.Some? then Reported(w, q, q.sdk.value)
                                                        else w.journal.value.pending))
  }

  lemma TwoEffects(w: World, a: Effect, b: Effect)
    ensures PerformEach(w, [a, b]) == Perform1(Perform1(w, a), b)
  {
    assert [a, b][1..] == [b];
    OneEffect(Perform1(w, a), b);
  }

  lemma ThreeEffects(w: World, a: Effect, b: Effect, c: Effect)
    ensures PerformEach(w, [a, b, c]) == Perform1(Perform1(Perform1(w, a), b), c)
  {
    assert [a, b, c][1..] == [b, c];
    TwoEffects(Perform1(w, a), b, c);
  }

  lemma ExecutionAnswers(w: World, q: Asked)
    ensures Answered(w, PerformEach(w, Execute(w, q.command, q.at, q.eventId, q.sdk)), q)
  {
    var c, plan := q.command, Execute(w, q.command, q.at, q.eventId, q.sdk);
    var mark := Write(MarkCommand(c.id, q.at));
    if New(w, q) {
      if w.maintenance || q.at < c.expiresAt {
        if w.maintenance {
          if w.client {
            TwoEffects(w, mark, plan[1]);
          } else {
            OneEffect(w, mark);
          }
        } else if q.sdk.Some? && w.client {
          ThreeEffects(w, mark, Dial(c.id), plan[2]);
        } else {
          assert plan == [mark, Dial(c.id)];
          TwoEffects(w, mark, Dial(c.id));
        }
      } else if w.client {
        OneEffect(w, plan[0]);
      }
    }
  }

  lemma ControlKeepsMemory(before: World, w: World, a: Action)
    requires a.Deliver? || a.ClaimReply?
    ensures Control(before, w, a) == w.(pc := Control(before, w, a).pc)
  {
  }

  /**
   A delivered or claimed command is called exactly when it may be; an expired one is reported and
   leaves no mark, one met in maintenance is marked and reported, and all others change nothing.
   */
  lemma CommandContract(w: World, a: Action)
    requires AskedBy(w, a).Some?
    ensures Answered(w, Act(w, a), AskedBy(w, a).value)
  {
    ExecutionAnswers(w, AskedBy(w, a).value);
    ControlKeepsMemory(w, PerformEach(w, Plan(w, a)), a);
  }

  // ---------------------------------------------------------------- every call has its command

  lemma {:induction false} NoDialNoCall(w: World, effects: seq<Effect>)
    requires forall e :: e in effects ==> !e.Dial?
    ensures PerformEach(w, effects).dials == w.dials
    decreases |effects|
  {
    if effects != [] {
      assert effects[0] in effects && forall e :: e in effects[1..] ==> e in effects;
      NoDialNoCall(Perform1(w, effects[0]), effects[1..]);
    }
  }

  lemma OnlyCommandsDial(w: World, a: Action)
    requires AskedBy(w, a).None?
    ensures forall e :: e in Plan(w, a) ==> !e.Dial?
  {
  }

  /** The action delivers or claims a command that may be called. */
  predicate CallsFor(w: World, a: Action, id: string) {
    AskedBy(w, a).Some? && Calls(w, AskedBy(w, a).value) && id == AskedBy(w, a).value.command.id
  }

  lemma {:induction false} PrefixDials(w: World, c: AgentCommand, effects: seq<Effect>)
    requires forall e :: e in effects ==> e.Dial? ==> e == Dial(c.id)
    requires forall i, j :: 0 <= i < j < |effects| ==> !(effects[i].Dial? && effects[j].Dial?)
    ensures PerformEach(w, effects).dials == w.dials || PerformEach(w, effects).dials == w.dials + [c.id]
    ensures (forall e :: e in effects ==> !e.Dial?) ==> PerformEach(w, effects).dials == w.dials
    decreases |effects|
  {
    if effects != [] {
      assert effects[0] in effects && forall e :: e in effects[1..] ==> e in effects;
      assert forall i :: 0 <= i < |effects[1..]| ==> effects[1..][i] == effects[i + 1];
      if effects[0].Dial? {
        NoDialNoCall(Perform1(w, effects[0]), effects[1..]);
      } else {
        PrefixDials(Perform1(w, effects[0]), c, effects[1..]);
      }
    }
  }

  lemma ExecutionDialsOnce(w: World, q: Asked)
    ensures var plan := Execute(w, q.command, q.at, q.eventId, q.sdk);
      && (forall e :: e in plan ==> e.Dial? ==> e == Dial(q.command.id) && Calls(w, q))
      && (forall i, j :: 0 <= i < j < |plan| ==> !(plan[i].Dial? && plan[j].Dial?))
  {
  }

  /** A step, or what a crash lets happen of it, calls nothing or the one command it delivers or claims. */
  lemma StepCalls(w: World, e: Event)
    ensures var a := if e.Do? then e.action else e.during; var w' := Next(w, e);
      w'.dials == w.dials || exists id :: CallsFor(w, a, id) && w'.dials == w.dials + [id]
  {
    var a := if e.Do? then e.action else e.during;
    var plan := Plan(w, a);
    var done := if e.Do? || e.done >= |plan| then |plan| else e.done;
    assert plan[..|plan|] == plan;
    ControlOnlyReloads(w, PerformEach(w, plan), a);
    if AskedBy(w, a).Some? {
      var q := AskedBy(w, a).value;
      ExecutionDialsOnce(w, q);
      PrefixDials(w, q.command, plan[..done]);
      assert CallsFor(w, a, q.command.id) || forall x :: x in plan[..done] ==> !x.Dial?;
    } else {
      OnlyCommandsDial(w, a);
      NoDialNoCall(w, plan[..done]);
    }
  }

  /** The k-th call of the run was asked for by a command that might be called. */
  ghost predicate WasAskedFor(events: seq<Event>, k: nat)
    requires k < |Run(Initial(), events).dials|
  {
    exists n :: 0 <= n < |events|
      && CallsFor(Run(Initial(), events[..n]), if events[n].Do? then events[n].action else events[n].during,
                  Run(Initial(), events).dials[k])
  }

  lemma {:induction false} RunSnoc(w: World, events: seq<Event>)
    requires events != []
    ensures Run(w, events) == Next(Run(w, events[..|events| - 1]), events[|events| - 1])
    decreases |events|
  {
    if |events| == 1 {
      assert events[..0] == [] && events[1..] == [];
      assert Run(Next(w, events[0]), []) == Next(w, events[0]);
    } else {
      RunSnoc(Next(w, events[0]), events[1..]);
      assert events[1..][..|events| - 2] == events[..|events| - 1][1..];
    }
  }

  /** Over every run, wherever it crashes and whatever is cut: every call has such a delivery or claim. */
  lemma {:induction false} EveryCallWasAskedFor(events: seq<Event>, k: nat)
    requires k < |Run(Initial(), events).dials|
    ensures WasAskedFor(events, k)
    decreases |events|
  {
    if events != [] {
      var last, rest := |events| - 1, events[..|events| - 1];
      RunSnoc(Initial(), events);
      StepCalls(Run(Initial(), rest), events[last]);
      assert events[..last] == rest;
      if k < |Run(Initial(), rest).dials| {
        EveryCallWasAskedFor(rest, k);
        var n :| 0 <= n < |rest|
          && CallsFor(Run(Initial(), rest[..n]), if rest[n].Do? then rest[n].action else rest[n].during,
                      Run(Initial(), rest).dials[k]);
        assert rest[..n] == events[..n] && rest[n] == events[n];
      }
    }
  }

  // ---------------------------------------------------------------- free calls

  /** A free call begins exactly when the agent is ready, connected and idle, and no intent is unresolved. */
  lemma FreeCallContract(w: World, key: string, ready: bool, at: int)
    ensures var w' := Act(w, StartFreeCall(key, ready, at));
      if w.pc.Idle? && !w.maintenance && w.running && ready && w.client && w.journal.Some?
         && w.journal.value.unresolved == {} then
        && w'.pc == Requested(key) && w'.journal == Some(w.journal.value.(unresolved := {key}))
        && w'.log == Append(w.log, IntentRecord(key, at)) && w'.dials == w.dials
      else w' == w
  {
    if MayStartFreeCall(w, ready) {
      OneEffect(w, Write(BeginFreeCall(key, at)));
      assert {} + {key} == {key};
    }
  }

  /** Only a definite refusal resolves the intent; only a creation, while connected, goes on to the claim. */
  lemma CreationContract(w: World, answer: CreateAnswer, at: int)
    requires w.pc.Requested?
    ensures var w' := Act(w, CreateReply(answer, at));
      match answer
      case Created => w' == w.(pc := if w.client && w.journal.Some? && w.engine then Claiming(w.pc.key) else Idle)
      case Rejected =>
        && w'.pc.Idle? && w'.dials == w.dials
        && (w.journal.Some? ==>
              && w'.journal == Some(w.journal.value.(unresolved := w.journal.value.unresolved - {w.pc.key}))
              && w'.log == Append(w.log, ResolvedRecord(w.pc.key, at)))
      case Uncertain => w' == w.(pc := Idle)
  {
    if answer.Rejected? && w.journal.Some? {
      OneEffect(w, Write(ResolveFreeCall(w.pc.key, at)));
    }
  }

  /** A claim without a command gives up and keeps the intent; with one, the call follows before the resolution. */
  lemma ClaimContract(w: World, claimed: Option<AgentCommand>, at: int, eventId: string, sdk: Option<string>)
    requires w.pc.Claiming?
    ensures var w' := Act(w, ClaimReply(claimed, at, eventId, sdk));
      if claimed.None? then w' == w.(pc := Idle)
      else w'.pc == Executed(w.pc.key) && Answered(w, w', Asked(claimed.value, at, eventId, sdk))
  {
    if claimed.Some? {
      EffectsKeepPc(w, Plan(w, ClaimReply(claimed, at, eventId, sdk)));
      CommandContract(w, ClaimReply(claimed, at, eventId, sdk));
    }
  }

  /** After the command, the intent is resolved unless its execution failed. */
  lemma ResolutionContract(w: World, failed: bool, at: int)
    requires w.pc.Executed?
    ensures var w' := Act(w, FreeCallDone(failed, at));
      if failed || w.journal.None? then w' == w.(pc := Idle)
      else
        && w'.pc.Idle? && w'.dials == w.dials && w'.log == Append(w.log, ResolvedRecord(w.pc.key, at))
        && w'.journal == Some(w.journal.value.(unresolved := w.journal.value.unresolved - {w.pc.key}))
  {
    if !failed && w.journal.Some? {
      OneEffect(w, Write(ResolveFreeCall(w.pc.key, at)));
    }
  }

  // ---------------------------------------------------------------- events and control

  /** While the process has its journal, what the SDK reports is pending until it is sent. */
  lemma EventContract(w: World, commandId: string, callId: string, eventId: string, state: string, at: int,
                      reason: Option<string>)
    requires !(w.pc.Reconciling? && w.pc.own)
    ensures var w' := Act(w, Observed(commandId, callId, eventId, state, at, reason));
      if w.journal.None? then w' == w
      else
        var item := AgentEvent("1", commandId, callId, eventId, state, at, reason);
        && w'.journal == Some(w.journal.value.(pending := w.journal.value.pending[eventId := item]))
        && w'.log == Append(w.log, EventRecord(item)) && w'.dials == w.dials
  {
    if w.journal.Some? {
      OneEffect(w, Write(Add(AgentEvent("1", commandId, callId, eventId, state, at, reason))));
    }
  }

  lemma SentContract(w: World, item: AgentEvent, at: int)
    requires !(w.pc.Reconciling? && w.pc.own)
    ensures var w' := Act(w, Sent(item, at));
      if w.journal.None? || item.eventId !in w.journal.value.pending then w' == w
      else
        && w'.journal == Some(w.journal.value.(pending := w.journal.value.pending - {item.eventId}))
        && w'.log == Append(w.log, AckRecord(item, at)) && w'.dials == w.dials
  {
    if w.journal.Some? {
      OneEffect(w, Write(Acknowledge(item, at)));
      if item.eventId !in w.journal.value.pending {
        assert w.journal.value.pending - {item.eventId} == w.journal.value.pending;
      }
    }
  }

  /** What a reload of the file would remember, unless the process has read it already. */
  function Known(w: World): Memory { if w.journal.Some? then w.journal.value else Replay(w.log) }

  /**
   A stop for maintenance is granted exactly when no free call waits, no call is active, nothing is
   undelivered and no intent is unresolved; a stop otherwise always; neither during a reconciliation.
   */
  lemma StopContract(w: World, forMaintenance: bool, callActive: bool)
    ensures Act(w, RequestStop(forMaintenance, callActive)) ==
      if w.pc.Reconciling? then w
      else if !forMaintenance then w.(running := false)
      else if w.pc.Idle? && !callActive && Known(w).pending == map[] && Known(w).unresolved == {}
      then w.(running := false, maintenance := true)
      else w
  {
  }

  /**
   A start reads the file and clears the maintenance; it does nothing to a running agent or during a
   reconciliation.
   */
  lemma StartContract(w: World, ok: bool)
    ensures Act(w, Start(ok)) ==
      if w.running || w.pc.Reconciling? then w
      else if ok then
        World(w.log, Some(Replay(w.log)), true, true, true, false, w.pc, w.dials)
      else w.(journal := None, engine := false, client := false, maintenance := false)
  {
  }

  /** What was requested to stop lets go of journal, engine and client once no free call waits. */
  lemma FinishContract(w: World)
    ensures Act(w, FinishStop) ==
      if w.running || !w.pc.Idle? then w else w.(journal := None, engine := false, client := false)
    ensures Act(w, LoopFails) == if w.running then w.(engine := false, client := false, running := false) else w
    ensures Act(w, EnsureAudio) == if w.pc.Reconciling? then w else w.(engine := true)
  {
  }

  /** Reconciliation begins exactly on all unresolved keys, while nothing is active or undelivered. */
  lemma ReconciliationContract(w: World, order: seq<string>, callActive: bool)
    ensures Act(w, ReconcileStart(order, callActive)) ==
      if w.pc.Idle? && !callActive && Known(w).pending == map[] && order != []
         && (forall k :: k in order <==> k in Known(w).unresolved)
      then w.(pc := Reconciling(order, w.journal.None?), journal := Some(Known(w)))
      else w
  {
    assert (set k | k in order) == Known(w).unresolved <==> forall k :: k in order <==> k in Known(w).unresolved by {
      if (set k | k in order) == Known(w).unresolved {
        forall k ensures k in order <==> k in Known(w).unresolved {
          assert k in order <==> k in (set x | x in order);
        }
      }
    }
  }

  /**
   A key is resolved exactly on a receipt for it from this workstation and profile, with a final
   outcome and an identified call, while no call is active and nothing is undelivered.
   */
  lemma ReceiptContract(w: World, a: Action)
    requires a.ReconcileReply? && w.pc.Reconciling? && w.pc.keys != [] && w.journal.Some?
    ensures var resolves :=
        && a.receipt.Some? && a.receipt.value.key == w.pc.keys[0] && a.receipt.value.workstationId == a.workstationId
        && a.receipt.value.profileId == a.profileId && a.receipt.value.outcome in {"TERMINAL", "EXPIRED_UNDELIVERED"}
        && a.receipt.value.identified && !a.callActive && w.journal.value.pending == map[];
      Act(w, a).log == if resolves then Append(w.log, ResolvedRecord(w.pc.keys[0], a.at)) else w.log
  {
    ReplyStep(w, a);
    assert |w.journal.value.pending| == |w.journal.value.pending.Keys|;
    assert w.journal.value.pending == map[] <==> w.journal.value.pending.Keys == {};
  }

  /** A reply moves the reconciliation to its next key, and ends it on a refusal or on the last one. */
  lemma ReplyContract(w: World, a: Action)
    requires a.ReconcileReply? && w.pc.Reconciling? && w.pc.keys != [] && w.journal.Some?
    ensures var w' := Act(w, a);
      if |w.pc.keys| == 1 || a.receipt.None? || Mismatched(w, a) then
        w'.pc.Idle? && (w'.journal.None? <==> w.pc.own)
      else w'.pc == Reconciling(w.pc.keys[1..], w.pc.own) && w'.journal.Some?
    ensures Act(w, a).dials == w.dials
  {
    ReplyStep(w, a);
    assert |w.journal.value.pending| == |w.journal.value.pending.Keys|;
    assert w.journal.value.pending == map[] <==> w.journal.value.pending.Keys == {};
  }

  /** The receipt is not for this key, workstation and profile, or it is final without an identified call. */
  predicate Mismatched(w: World, a: Action)
    requires a.ReconcileReply? && a.receipt.Some? && w.pc.Reconciling? && w.pc.keys != [] && w.journal.Some?
  {
    var t := a.receipt.value;
    || t.key != w.pc.keys[0] || t.workstationId != a.workstationId || t.profileId != a.profileId
    || (!a.callActive && w.journal.value.pending == map[] && t.outcome in {"TERMINAL", "EXPIRED_UNDELIVERED"}
        && !t.identified)
  }

  /** A crash leaves the file and nothing of the process. */
  lemma CrashContract(w: World, during: Action, done: nat, cut: Cut)
    ensures var w' := Next(w, Crash(during, done, cut));
      w' == World(w'.log, None, false, false, false, false, Idle, w'.dials)
  {
  }
}
