/**
 The agent as the object it is: fields updated by its methods around a journal object.
 Each method is proved against the actions of module AgentRuntime; StartFreeCall and
 ReconcileFreeCalls take the answers they await and are runs of several actions.
 */
module AgentProcess {
  import opened Prelude
  import opened Collections
  import opened EventJournal
  import opened AgentRuntime
  import AgentCalls

  /** The actions of one free call, up to the answer that ends it. */
  function FreeCallRun(w: World, newKey: string, ready: bool, answer: CreateAnswer, claimed: Option<AgentCommand>,
                       eventId: string, sdk: Option<string>, failed: bool, at: int): World {
    Act(Act(Act(Act(w, StartFreeCall(newKey, ready, at)), CreateReply(answer, at)),
            ClaimReply(claimed, at, eventId, sdk)), FreeCallDone(failed, at))
  }

  function Replies(keys: seq<string>, lookup: map<string, FreeCallReceipt>, workstationId: string, profileId: string,
                   callActive: bool, at: int): (r: seq<Event>)
    ensures |r| == |keys|
  {
    seq(|keys|, i requires 0 <= i < |keys| =>
      Do(ReconcileReply(if keys[i] in lookup then Some(lookup[keys[i]]) else None, workstationId, profileId, callActive,
                        at)))
  }

  lemma RepliesSplit(keys: seq<string>, lookup: map<string, FreeCallReceipt>, workstationId: string, profileId: string,
                     callActive: bool, at: int)
    requires keys != []
    ensures Replies(keys, lookup, workstationId, profileId, callActive, at) ==
      [Do(ReconcileReply(if keys[0] in lookup then Some(lookup[keys[0]]) else None, workstationId, profileId,
                         callActive, at))]
      + Replies(keys[1..], lookup, workstationId, profileId, callActive, at)
  {
  }

  lemma RunCons(w: World, e: Event, rest: seq<Event>)
    ensures Run(w, [e] + rest) == Run(Next(w, e), rest)
  {
    assert ([e] + rest)[1..] == rest;
  }

  /** The world of a reconciliation that has `keys` left, on journal `j`, seen from the process `w` it runs in. */
  function At(w: World, j: Journal, keys: seq<string>): World {
    if keys == [] then w.(log := j.log, journal := if w.journal.None? then None else Some(j.memory))
    else w.(log := j.log, journal := Some(j.memory), pc := Reconciling(keys, w.journal.None?))
  }

  function Answer(lookup: map<string, FreeCallReceipt>, key: string, workstationId: string, profileId: string,
                  callActive: bool, pendingEvents: nat): Result<bool, string> {
    if key in lookup then CanResolve(lookup[key], key, workstationId, profileId, callActive, pendingEvents)
        else Refused("CRM_UNREACHABLE")
  }

  /** The journal after the keys were looked up in order, up to the first failure. */
  function Reconciled(j: Journal, keys: seq<string>, lookup: map<string, FreeCallReceipt>, workstationId: string,
                      profileId: string, callActive: bool, at: int): Journal
    decreases |keys|
  {
    if keys == [] then j
    else
      match Answer(lookup, keys[0], workstationId, profileId, callActive, |j.memory.pending|)
      case Refused(_) => j
      case Ok(resolve) =>
        Reconciled(if resolve then Perform(j, Operation.ResolveFreeCall(keys[0], at)) else j, keys[1..], lookup,
                   workstationId, profileId, callActive, at)
  }

  lemma AtCommutes(w: World, j: Journal, keys: seq<string>, key: string, at: int)
    requires w.pc.Idle? && keys != []
    ensures Advanced(At(w, j, keys)) == At(w, j, keys[1..]) && EndReconciliation(At(w, j, keys)) == At(w, j, [])
    ensures Perform1(At(w, j, keys), Write(Operation.ResolveFreeCall(key, at)))
        == At(w, Perform(j, Operation.ResolveFreeCall(key, at)), keys)
  {
  }

  lemma AtStep(w: World, j: Journal, keys: seq<string>, lookup: map<string, FreeCallReceipt>, workstationId: string,
               profileId: string, callActive: bool, at: int)
    requires w.pc.Idle? && keys != []
    ensures var a := ReconcileReply(if keys[0] in lookup then Some(lookup[keys[0]]) else None, workstationId, profileId,
                                    callActive, at);
      Act(At(w, j, keys), a) == match Answer(lookup, keys[0], workstationId, profileId, callActive, |j.memory.pending|)
        case Refused(_) => At(w, j, [])
        case Ok(resolve) => At(w, if resolve then Perform(j, Operation.ResolveFreeCall(keys[0], at)) else j, keys[1..])
  {
    var a := ReconcileReply(if keys[0] in lookup then Some(lookup[keys[0]]) else None, workstationId, profileId,
                            callActive, at);
    ReplyStep(At(w, j, keys), a);
    assert ReconcileAnswer(At(w, j, keys), a)
        == Answer(lookup, keys[0], workstationId, profileId, callActive, |j.memory.pending|);
    AtCommutes(w, j, keys, keys[0], at);
    AtCommutes(w, Perform(j, Operation.ResolveFreeCall(keys[0], at)), keys, keys[0], at);
  }

  lemma {:induction false} RepliesReconcile(w: World, j: Journal, keys: seq<string>,
                                            lookup: map<string, FreeCallReceipt>, workstationId: string,
                                                profileId: string, callActive: bool, at: int)
    requires w.pc.Idle?
    ensures Run(At(w, j, keys), Replies(keys, lookup, workstationId, profileId, callActive, at))
      == At(w, Reconciled(j, keys, lookup, workstationId, profileId, callActive, at), [])
    decreases |keys|
  {
    if keys != [] {
      NextReply(At(w, j, keys), keys, lookup, workstationId, profileId, callActive, at);
      AtStep(w, j, keys, lookup, workstationId, profileId, callActive, at);
      match Answer(lookup, keys[0], workstationId, profileId, callActive, |j.memory.pending|)
      case Refused(_) => IdleIgnoresReplies(At(w, j, []), keys[1..], lookup, workstationId, profileId, callActive, at);
      case Ok(resolve) =>
        RepliesReconcile(w, if resolve then Perform(j, Operation.ResolveFreeCall(keys[0], at)) else j, keys[1..],
                         lookup, workstationId, profileId, callActive, at);
    }
  }

  lemma ReconciliationIsRun(w: World, keys: seq<string>, lookup: map<string, FreeCallReceipt>, workstationId: string,
                            profileId: string, callActive: bool, at: int)
    requires w.pc.Idle? && (set k | k in keys) == Loaded(w).unresolved
    ensures Run(w, [Do(ReconcileStart(keys, callActive))]
                + Replies(keys, lookup, workstationId, profileId, callActive, at)) ==
      if callActive || Loaded(w).pending != map[] then w
      else At(w, Reconciled(Journal(w.log, Loaded(w)), keys, lookup, workstationId, profileId, callActive, at), [])
  {
    var e, j := Do(ReconcileStart(keys, callActive)), Journal(w.log, Loaded(w));
    RunCons(w, e, Replies(keys, lookup, workstationId, profileId, callActive, at));
    if callActive || Loaded(w).pending != map[] {
      assert Next(w, e) == w;
      IdleIgnoresReplies(w, keys, lookup, workstationId, profileId, callActive, at);
    } else {
      assert Next(w, e) == At(w, j, keys);
      RepliesReconcile(w, j, keys, lookup, workstationId, profileId, callActive, at);
    }
  }

  lemma NextReply(w: World, keys: seq<string>, lookup: map<string, FreeCallReceipt>, workstationId: string,
                  profileId: string, callActive: bool, at: int)
    requires keys != []
    ensures var e := Do(ReconcileReply(if keys[0] in lookup then Some(lookup[keys[0]]) else None, workstationId,
                                       profileId, callActive, at));
      Run(w, Replies(keys, lookup, workstationId, profileId, callActive, at))
      == Run(Next(w, e), Replies(keys[1..], lookup, workstationId, profileId, callActive, at))
  {
    var e := Do(ReconcileReply(if keys[0] in lookup then Some(lookup[keys[0]]) else None, workstationId, profileId,
                               callActive, at));
    RepliesSplit(keys, lookup, workstationId, profileId, callActive, at);
    RunCons(w, e, Replies(keys[1..], lookup, workstationId, profileId, callActive, at));
  }

  lemma {:induction false} IdleIgnoresReplies(w: World, keys: seq<string>, lookup: map<string, FreeCallReceipt>,
                                              workstationId: string, profileId: string, callActive: bool, at: int)
    requires w.pc.Idle?
    ensures Run(w, Replies(keys, lookup, workstationId, profileId, callActive, at)) == w
    decreases |keys|
  {
    if keys != [] {
      RepliesSplit(keys, lookup, workstationId, profileId, callActive, at);
      var replies := Replies(keys, lookup, workstationId, profileId, callActive, at);
      assert replies[1..] == Replies(keys[1..], lookup, workstationId, profileId, callActive, at);
      assert Next(w, replies[0]) == w;
      IdleIgnoresReplies(w, keys[1..], lookup, workstationId, profileId, callActive, at);
    }
  }

  /** What a free call leaves, without its waiting points. */
  function FreeCallOutcome(w: World, newKey: string, answer: CreateAnswer, claimed: Option<AgentCommand>,
                           eventId: string, sdk: Option<string>, failed: bool, at: int): World {
    var begun := Perform1(w, Write(BeginFreeCall(newKey, at)));
    if answer.Rejected? then Perform1(begun, Write(ResolveFreeCall(newKey, at)))
    else if answer.Uncertain? || !w.engine || claimed.None? then begun
    else
      var executed := PerformEach(begun, Execute(begun, claimed.value, at, eventId, sdk));
      if failed then executed else Perform1(executed, Write(ResolveFreeCall(newKey, at)))
  }

  lemma FreeCallIsRun(w: World, newKey: string, ready: bool, answer: CreateAnswer, claimed: Option<AgentCommand>,
                      eventId: string, sdk: Option<string>, failed: bool, at: int)
    requires MayStartFreeCall(w, ready)
    ensures FreeCallRun(w, newKey, ready, answer, claimed, eventId, sdk, failed, at)
      == FreeCallOutcome(w, newKey, answer, claimed, eventId, sdk, failed, at)
  {
    var begun := Perform1(w, Write(BeginFreeCall(newKey, at)));
    OneEffect(w, Write(BeginFreeCall(newKey, at)));
    var w1 := begun.(pc := Requested(newKey));
    assert Act(w, StartFreeCall(newKey, ready, at)) == w1;
    CreateStep(begun, newKey, answer, at);
    if answer.Created? && w.engine {
      ClaimStep(begun, newKey, claimed, at, eventId, sdk);
      if claimed.Some? {
        var executed := PerformEach(begun, Execute(begun, claimed.value, at, eventId, sdk));
        KeepsProcess(begun, Execute(begun, claimed.value, at, eventId, sdk));
        DoneStep(executed, newKey, failed, at);
      }
    }
  }

  lemma CreateStep(w: World, key: string, answer: CreateAnswer, at: int)
    requires w.pc.Idle? && w.journal.Some? && w.client
    ensures Act(w.(pc := Requested(key)), CreateReply(answer, at)) ==
      if answer.Rejected? then Perform1(w, Write(ResolveFreeCall(key, at)))
      else if answer.Created? && w.engine then w.(pc := Claiming(key)) else w
  {
    OneEffect(w.(pc := Requested(key)), Write(ResolveFreeCall(key, at)));
  }

  lemma ClaimStep(w: World, key: string, claimed: Option<AgentCommand>, at: int, eventId: string, sdk: Option<string>)
    requires w.pc.Idle? && w.journal.Some? && w.client
    ensures Act(w.(pc := Claiming(key)), ClaimReply(claimed, at, eventId, sdk)) ==
      if claimed.None? then w else PerformEach(w, Execute(w, claimed.value, at, eventId, sdk)).(pc := Executed(key))
  {
    if claimed.Some? {
      assert Execute(w.(pc := Claiming(key)), claimed.value, at, eventId, sdk)
          == Execute(w, claimed.value, at, eventId, sdk);
      PcIsIrrelevant(w, Claiming(key), Execute(w, claimed.value, at, eventId, sdk));
    }
  }

  lemma DoneStep(w: World, key: string, failed: bool, at: int)
    requires w.pc.Idle? && w.journal.Some?
    ensures Act(w.(pc := Executed(key)), FreeCallDone(failed, at)) == if failed then w
        else Perform1(w, Write(ResolveFreeCall(key, at)))
  {
    OneEffect(w.(pc := Executed(key)), Write(ResolveFreeCall(key, at)));
  }

  lemma {:induction false} KeepsProcess(w: World, effects: seq<Effect>)
    ensures var w' := PerformEach(w, effects); w' == w.(log := w'.log, journal := w'.journal, dials := w'.dials)
    ensures PerformEach(w, effects).journal.Some? <==> w.journal.Some?
    decreases |effects|
  {
    if effects != [] {
      KeepsProcess(Perform1(w, effects[0]), effects[1..]);
    }
  }

  lemma {:induction false} PcIsIrrelevant(w: World, pc: Pc, effects: seq<Effect>)
    ensures PerformEach(w.(pc := pc), effects) == PerformEach(w, effects).(pc := pc)
    decreases |effects|
  {
    if effects != [] {
      assert Perform1(w.(pc := pc), effects[0]) == Perform1(w, effects[0]).(pc := pc);
      PcIsIrrelevant(Perform1(w, effects[0]), pc, effects[1..]);
    }
  }

  class Runtime {
    const file: JournalFile
    var journal: EventJournal?
    var engine: bool
    var client: bool
    var running: bool
    var maintenanceRequested: bool
    var dials: seq<string>

    predicate Valid()
      reads this, journal
    {
      journal != null ==> journal.file == file
    }

    function View(): World
      reads this, journal, file
    {
      World(file.log, if journal == null then None else Some(journal.InMemory()), engine, client, running,
            maintenanceRequested, Idle, dials)
    }

    constructor (file: JournalFile)
      ensures Valid() && this.file == file
      ensures View() == Stopped(View()) && file.log == old(file.log) && dials == []
    {
      this.file := file;
      journal := null;
      engine, client, running, maintenanceRequested := false, false, false, false;
      dials := [];
    }

    method StartAgent(ok: bool)
      requires Valid()
      modifies this
      ensures Valid() && View() == Act(old(View()), Start(ok))
      ensures journal == old(journal) || journal == null || fresh(journal)
    {
      if running {
        return;
      }
      maintenanceRequested := false;
      if ok {
        engine, client := true, true;
        journal := new EventJournal(file);
        running := true;
      } else {
        engine, client := false, false;
        journal := null;
      }
    }

    method RejectCommand(c: AgentCommand, at: int, eventId: string, reason: string)
      requires Valid() && journal != null
      modifies journal, file
      ensures Valid() && View() == PerformEach(old(View()), Reject(old(View()), c, at, eventId, reason))
    {
      ghost var before := View();
      if client {
        var item := AgentEvent("1", c.id, c.callId, eventId, "FAILED", at, Some(reason));
        journal.Add(item);
        OneEffect(before, Write(Add(item)));
      }
    }

    /** No wait between the check for a redelivery and the call; `sdk` is the refusal of StartCall, if any. */
    method ExecuteCommand(c: AgentCommand, at: int, eventId: string, sdk: Option<string>)
      requires Valid()
      modifies this`dials, journal, file
      ensures Valid() && View() == PerformEach(old(View()), Execute(old(View()), c, at, eventId, sdk))
      ensures AgentCalls.Answered(old(View()), View(), AgentCalls.Asked(c, at, eventId, sdk))
    {
      AgentCalls.ExecutionAnswers(View(), AgentCalls.Asked(c, at, eventId, sdk));
      ghost var before := View();
      ghost var plan := Execute(before, c, at, eventId, sdk);
      if journal == null || !engine {
        return;
      }
      if c.id in journal.seenCommands && !c.hangupRequested {
        return;
      }
      if c.hangupRequested {
        return;
      }
      ghost var mark := Write(MarkCommand(c.id, at));
      if maintenanceRequested {
        journal.MarkCommand(c.id, at);
        assert View() == Perform1(before, mark);
        assert plan[1..] == Reject(View(), c, at, eventId, "PROFILE_MAINTENANCE_IN_PROGRESS");
        RejectCommand(c, at, eventId, "PROFILE_MAINTENANCE_IN_PROGRESS");
        return;
      }
      if c.expiresAt <= at {
        RejectCommand(c, at, eventId, "COMMAND_EXPIRED");
        return;
      }
      journal.MarkCommand(c.id, at);
      assert View() == Perform1(before, mark);
      dials := dials + [c.id];
      assert View() == Perform1(Perform1(before, mark), Dial(c.id));
      ghost var rest := if sdk.Some? then Reject(View(), c, at, eventId, sdk.value) else [];
      assert plan[1..] == [Dial(c.id)] + rest && plan[1..][1..] == rest;
      assert PerformEach(before, plan) == PerformEach(View(), rest);
      if sdk.Some? {
        RejectCommand(c, at, eventId, sdk.value);
      }
    }

    /** The whole free call; the answers it awaits are arguments. */
    method StartFreeCall(newKey: string, ready: bool, answer: CreateAnswer, claimed: Option<AgentCommand>,
                         eventId: string, sdk: Option<string>, failed: bool, at: int) returns (r: Result<(), string>)
      requires Valid()
      modifies this`dials, journal, file
      ensures Valid()
      ensures r.Refused? && r.error != "FREE_CALL_FAILED" <==> !MayStartFreeCall(old(View()), ready)
      ensures r.Ok? <==>
        && !maintenanceRequested && running && ready && client && journal != null && engine
        && old(View().journal.Some? && View().journal.value.unresolved == {})
        && answer.Created? && claimed.Some? && !failed
      ensures MayStartFreeCall(old(View()), ready) ==>
        journal.unresolvedFreeCalls == if r.Ok? || answer.Rejected? then {} else {newKey}
      ensures r.Refused? && r.error != "FREE_CALL_FAILED" ==> View() == old(View())
      ensures MayStartFreeCall(old(View()), ready) ==>
        View() == FreeCallRun(old(View()), newKey, ready, answer, claimed, eventId, sdk, failed, at)
    {
      if maintenanceRequested {
        return Refused("PROFILE_MAINTENANCE_IN_PROGRESS");
      }
      if !running || !ready {
        return Refused("AGENT_NOT_READY");
      }
      if !client || journal == null {
        return Refused("AGENT_NOT_CONNECTED");
      }
      if journal.unresolvedFreeCalls != {} {
        return Refused("FREE_CALL_RESULT_UNCERTAIN");
      }
      FreeCallIsRun(View(), newKey, ready, answer, claimed, eventId, sdk, failed, at);
      journal.BeginFreeCall(newKey, at);
      if answer.Rejected? {
        journal.ResolveFreeCall(newKey, at);
        return Refused("FREE_CALL_FAILED");
      }
      if answer.Uncertain? || !engine || claimed.None? {
        return Refused("FREE_CALL_FAILED");
      }
      ExecuteCommand(claimed.value, at, eventId, sdk);
      if failed {
        return Refused("FREE_CALL_FAILED");
      }
      journal.ResolveFreeCall(newKey, at);
      return Ok(());
    }

    /** The loop over the unresolved keys, on the journal of the process or on one opened for it. */
    static method ResolveEach(durable: EventJournal, order: seq<string>, lookup: map<string, FreeCallReceipt>,
                              workstationId: string, profileId: string, callActive: bool, at: int)
      returns (r: Result<nat, string>)
      requires forall i, k :: 0 <= i < k < |order| ==> order[i] != order[k]
      requires forall k :: k in order ==> k in durable.unresolvedFreeCalls
      modifies durable, durable.file
      ensures durable.View() == Reconciled(old(durable.View()), order, lookup, workstationId, profileId, callActive, at)
      ensures r.Ok? ==> r.value + |durable.unresolvedFreeCalls| == old(|durable.unresolvedFreeCalls|)
      ensures Consistent(old(durable.View())) ==> Consistent(durable.View())
    {
      var resolved := 0;
      assert order[0..] == order;
      for i := 0 to |order|
        invariant Reconciled(durable.View(), order[i..], lookup, workstationId, profileId, callActive, at)
          == Reconciled(old(durable.View()), order, lookup, workstationId, profileId, callActive, at)
        invariant resolved + |durable.unresolvedFreeCalls| == old(|durable.unresolvedFreeCalls|)
        invariant forall k :: i <= k < |order| ==> order[k] in durable.unresolvedFreeCalls
        invariant Consistent(old(durable.View())) ==> Consistent(durable.View())
      {
        var key := order[i];
        assert order[i..][1..] == order[i + 1..];
        if key !in lookup {
          return Refused("CRM_UNREACHABLE");
        }
        var answer := CanResolve(lookup[key], key, workstationId, profileId, callActive, |durable.pending|);
        if answer.Refused? {
          return Refused(answer.error);
        }
        if answer.value {
          if Consistent(durable.View()) {
            PerformKeepsConsistentIff(durable.View(), Operation.ResolveFreeCall(key, at));
          }
          durable.ResolveFreeCall(key, at);
          resolved := resolved + 1;
        }
      }
      return Ok(resolved);
    }

    /** `lookup` is what the CRM answers for a key; `None` is a failed call. */
    method ReconcileFreeCalls(lookup: map<string, FreeCallReceipt>, workstationId: string, profileId: string,
                              callActive: bool, at: int)
      returns (r: Result<(nat, nat), string>, order: seq<string>)
      requires Valid()
      modifies journal, file
      ensures Valid() && journal == old(journal)
      ensures View() == Run(old(View()), [Do(ReconcileStart(order, callActive))]
                            + Replies(order, lookup, workstationId, profileId, callActive, at))
      ensures r.Ok? ==> r.value.0 + r.value.1 == |Loaded(old(View())).unresolved|
      ensures r.Ok? && Consistent(Journal(old(file.log), Loaded(old(View())))) ==>
          r.value.1 == |Replay(file.log).unresolved|
    {
      var durable := journal;
      if durable == null {
        durable := new EventJournal(file);
      }
      order := Enumerate(durable.unresolvedFreeCalls);
      ghost var before := View();
      assert (set k | k in order) == durable.unresolvedFreeCalls;
      ReconciliationIsRun(before, order, lookup, workstationId, profileId, callActive, at);
      if callActive || durable.pending != map[] {
        return Refused(if callActive then "PROFILE_MAINTENANCE_CALL_ACTIVE" else "PROFILE_MAINTENANCE_PENDING_EVENTS"),
            order;
      }
      var resolved := ResolveEach(durable, order, lookup, workstationId, profileId, callActive, at);
      if resolved.Refused? {
        return Refused(resolved.error), order;
      }
      r := Ok((resolved.value, |durable.unresolvedFreeCalls|));
    }
  }
}
