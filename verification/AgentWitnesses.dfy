/** Runs that reach the bounds: what one cut record, two of them, and any number of them can cost. */
module AgentWitnesses {
  import opened Prelude
  import opened EventJournal
  import opened AgentRuntime
  import opened AgentCrashes
  import opened AgentConditions

  // ---------------------------------------------------------------- a call more for each cut

  /** An event cut in its append, a restart, and the command delivered again. */
  function Cycle(c: AgentCommand): seq<Event> {
    [Crash(Observed("", "", "", "", 0, None), 0, InsideRecord), Do(Start(true)),
     Do(Deliver(c, c.expiresAt - 1, "", None))]
  }

  function Cycles(c: AgentCommand, n: nat): seq<Event>
    decreases n
  {
    if n == 0 then [] else Cycle(c) + Cycles(c, n - 1)
  }

  function LastCall(c: AgentCommand): seq<Event> {
    [Kill(), Do(Start(true)), Do(Deliver(c, c.expiresAt - 1, "", None))]
  }

  function Redials(c: AgentCommand, n: nat): seq<Event> {
    [Do(Start(true))] + Cycles(c, n) + LastCall(c)
  }

  lemma {:induction false} CutsOfParts(first: seq<Event>, rest: seq<Event>)
    ensures Cuts(first + rest) == Cuts(first) + Cuts(rest)
    decreases |first|
  {
    if first == [] {
      assert first + rest == rest;
    } else {
      assert (first + rest)[1..] == first[1..] + rest;
      CutsOfParts(first[1..], rest);
    }
  }

  lemma CutsOfThree(a: Event, b: Event, c: Event)
    ensures Cuts([a, b, c]) == CutsOf(a) + CutsOf(b) + CutsOf(c)
  {
    assert [a, b, c][1..] == [b, c] && [b, c][1..] == [c] && [c][1..] == [];
    assert Cuts([b, c]) == CutsOf(b) + Cuts([c]) && Cuts([c]) == CutsOf(c) + Cuts([]);
  }

  lemma {:induction false} CutsOfCycles(c: AgentCommand, n: nat)
    ensures Cuts(Cycles(c, n)) == n
    decreases n
  {
    if n > 0 {
      CutsOfCycles(c, n - 1);
      CutsOfThree(Cycle(c)[0], Cycle(c)[1], Cycle(c)[2]);
      CutsOfParts(Cycle(c), Cycles(c, n - 1));
    }
  }

  /** A process with an open journal that does not know the command; nor does its file. */
  predicate Ignorant(w: World, id: string) {
    w.journal.Some? && w.pc.Idle? && w.log.tail.Closed? && id !in Replay(w.log).seen
  }

  lemma RunOfEvents(w: World, a: Event, b: Event, c: Event)
    ensures Run(w, [a, b, c]) == Next(Next(Next(w, a), b), c)
  {
    assert [a, b, c][1..] == [b, c] && [b, c][1..] == [c] && [c][1..] == [];
    assert Run(w, [a, b, c]) == Run(Next(w, a), [b, c]) && Run(Next(w, a), [b, c]) == Run(Next(Next(w, a), b), [c]);
    assert Run(Next(Next(w, a), b), [c]) == Run(Next(Next(Next(w, a), b), c), []);
  }

  lemma CycleCalls(w: World, c: AgentCommand)
    requires Ignorant(w, c.id) && !c.hangupRequested
    ensures var w' := Run(w, Cycle(c)); Ignorant(w', c.id) && w'.dials == w.dials + [c.id]
  {
    var w1 := Next(w, Cycle(c)[0]);
    assert w1 == Stopped(w).(log := w.log.(tail := Torn));
    ReplayOfTail(w1.log);
    assert w1.log.(tail := Closed) == w.log;
    StartThenDeliver(w1, c);
    AppendToBase(w1.log, CommandRecord(c.id, c.expiresAt - 1));
    RunOfEvents(w, Cycle(c)[0], Cycle(c)[1], Cycle(c)[2]);
  }

  lemma {:induction false} CyclesCall(w: World, c: AgentCommand, n: nat)
    requires Ignorant(w, c.id) && !c.hangupRequested
    ensures var w' := Run(w, Cycles(c, n)); Ignorant(w', c.id) && w'.dials == w.dials + seq(n, _ => c.id)
    decreases n
  {
    if n > 0 {
      CycleCalls(w, c);
      CyclesCall(Run(w, Cycle(c)), c, n - 1);
      RunInParts(w, Cycle(c), Cycles(c, n - 1));
      assert [c.id] + seq(n - 1, _ => c.id) == seq(n, _ => c.id);
    }
  }

  lemma LastCallCalls(w: World, c: AgentCommand)
    requires Ignorant(w, c.id) && !c.hangupRequested
    ensures Run(w, LastCall(c)).dials == w.dials + [c.id]
  {
    assert Next(w, Kill()) == Stopped(w);
    StartThenDeliver(Stopped(w), c);
    RunOfEvents(w, LastCall(c)[0], LastCall(c)[1], LastCall(c)[2]);
  }

  /**
   The bound on calls is reached: for every n there is a run that cuts n records and calls one
   command n + 1 times.
   */
  lemma EachCutCanCostOne(c: AgentCommand, n: nat)
    requires !c.hangupRequested
    ensures Cuts(Redials(c, n)) == n
    ensures Run(Initial(), Redials(c, n)).dials == seq(n + 1, _ => c.id)
  {
    var start := [Do(Start(true))];
    var w1 := Act(Initial(), Start(true));
    RunSingle(Initial(), start[0]);
    assert Replay(w1.log) == Empty();
    CyclesCall(w1, c, n);
    LastCallCalls(Run(w1, Cycles(c, n)), c);
    RunInParts(Initial(), start, Cycles(c, n));
    RunInParts(Initial(), start + Cycles(c, n), LastCall(c));
    assert seq(n, _ => c.id) + [c.id] == seq(n + 1, _ => c.id);
    CutsOfParts(start, Cycles(c, n));
    CutsOfParts(start + Cycles(c, n), LastCall(c));
    CutsOfCycles(c, n);
    CutsOfThree(LastCall(c)[0], LastCall(c)[1], LastCall(c)[2]);
    assert Cuts(start) == 0 by { assert start[1..] == []; }
  }

  // ---------------------------------------------------------------- a cut resolution

  lemma OneIntent() returns (w: World)
    ensures w == Run(Initial(), [Do(Start(true)), Do(StartFreeCall("k1", true, 0))]) && w.pc == Requested("k1")
    ensures w.log == Append(Initial().log, IntentRecord("k1", 0)) && w.journal.Some?
    ensures Replay(w.log) == Memory({}, map[], {"k1"})
  {
    var w1 := Act(Initial(), Start(true));
    OneEffect(w1, Write(BeginFreeCall("k1", 0)));
    w := Act(w1, StartFreeCall("k1", true, 0));
    AppendReplays(Initial().log, IntentRecord("k1", 0));
    RunOfTwo(Initial(), Start(true), StartFreeCall("k1", true, 0));
  }

  /** The creation is refused, and the crash cuts the resolution before its terminator. */
  function CutResolution(): Event { Crash(CreateReply(Rejected, 0), 0, BeforeTerminator) }

  lemma ResolutionIsCut(w: World, key: string)
    requires w.pc == Requested(key) && w.log.tail.Closed? && w.journal.Some?
    ensures var w' := Next(w, CutResolution());
      && w' == Stopped(w') && !w'.log.tail.Closed? && Base(w'.log) == Replay(w.log)
      && Replay(w'.log) == Replay(w.log).(unresolved := Replay(w.log).unresolved - {key})
  {
    var plan, w' := Plan(w, CreateReply(Rejected, 0)), Next(w, CutResolution());
    assert plan == [Write(ResolveFreeCall(key, 0))] && plan[..0] == [];
    assert w'.log == w.log.(tail := Unterminated(ResolvedRecord(key, 0)));
    assert w'.log.(tail := Closed) == w.log;
    ReplayOfTail(w'.log);
  }

  function OneCut(): seq<Event> { [Do(Start(true)), Do(StartFreeCall("k1", true, 0)), CutResolution()] }

  lemma AfterOneCut() returns (w: World)
    ensures w == Run(Initial(), OneCut()) && w == Stopped(w) && !w.log.tail.Closed?
    ensures Base(w.log) == Memory({}, map[], {"k1"}) && Replay(w.log) == Empty()
  {
    var w2 := OneIntent();
    ResolutionIsCut(w2, "k1");
    w := Next(w2, CutResolution());
    RunThenEvent(Initial(), [Do(Start(true)), Do(StartFreeCall("k1", true, 0))], CutResolution());
    assert [Do(Start(true)), Do(StartFreeCall("k1", true, 0))] + [CutResolution()] == OneCut();
  }

  // ---------------------------------------------------------------- two after one, three after two

  function TwoCuts(c: AgentCommand): seq<Event> {
    [Do(Start(true)), Do(Deliver(c, 0, "", None)), Do(StartFreeCall("k2", true, 0)), CutResolution()]
  }

  function ThirdIntent(): seq<Event> { Reconciliation("k1") + [Do(StartFreeCall("k3", true, 0))] }

  /** The call drops the cut resolution, and the next free call begins. */
  lemma SecondIntent(w: World, c: AgentCommand)
    requires w == Stopped(w) && !w.log.tail.Closed? && !c.hangupRequested && c.expiresAt == 1
    requires Base(w.log) == Memory({}, map[], {"k1"}) && Replay(w.log) == Empty()
    ensures var w' := Run(w, TwoCuts(c)[..3]);
      w'.pc == Requested("k2") && w'.log.tail.Closed? && w'.journal.Some?
      && Replay(w'.log) == Memory({}, map[], {"k1", "k2"})
  {
    var mark := Write(MarkCommand(c.id, 0));
    StartReads(w);
    var w1 := Begun(w);
    assert Plan(w1, Deliver(c, 0, "", None)) == [mark, Dial(c.id)] && [mark, Dial(c.id)][1..] == [Dial(c.id)];
    OneEffect(Perform1(w1, mark), Dial(c.id));
    AppendToBase(w.log, CommandRecord(c.id, 0));
    var w2 := Act(w1, Deliver(c, 0, "", None));
    OneEffect(w2, Write(BeginFreeCall("k2", 0)));
    AppendReplays(w2.log, IntentRecord("k2", 0));
    RunOfThree(w, Start(true), Deliver(c, 0, "", None), StartFreeCall("k2", true, 0));
    assert TwoCuts(c)[..3] == [Do(Start(true)), Do(Deliver(c, 0, "", None)), Do(StartFreeCall("k2", true, 0))];
  }

  /**
   A refused free call whose resolution misses its terminator: reload, one call, and the next free
   call is a second unresolved intent.
   */
  lemma TwoIntentsAfterACutResolution(c: AgentCommand)
    requires !c.hangupRequested && c.expiresAt == 1
    ensures var events := OneCut() + TwoCuts(c)[..3];
      Cuts(events) == 1 && Replay(Run(Initial(), events).log).unresolved == {"k1", "k2"}
  {
    var w := AfterOneCut();
    SecondIntent(w, c);
    RunInParts(Initial(), OneCut(), TwoCuts(c)[..3]);
    CutsOfParts(OneCut(), TwoCuts(c)[..3]);
    CutsOfThree(OneCut()[0], OneCut()[1], OneCut()[2]);
    CutsOfThree(TwoCuts(c)[0], TwoCuts(c)[1], TwoCuts(c)[2]);
    assert TwoCuts(c)[..3] == [TwoCuts(c)[0], TwoCuts(c)[1], TwoCuts(c)[2]];
  }

  lemma AfterTwoCuts(c: AgentCommand) returns (w: World)
    requires !c.hangupRequested && c.expiresAt == 1
    ensures w == Run(Initial(), OneCut() + TwoCuts(c)) && w == Stopped(w) && !w.log.tail.Closed?
    ensures Base(w.log) == Memory({}, map[], {"k1", "k2"}) && Replay(w.log) == Memory({}, map[], {"k1"})
  {
    var w1 := AfterOneCut();
    SecondIntent(w1, c);
    var w2 := Run(w1, TwoCuts(c)[..3]);
    ResolutionIsCut(w2, "k2");
    w := Next(w2, CutResolution());
    RunThenEvent(w1, TwoCuts(c)[..3], CutResolution());
    assert TwoCuts(c)[..3] + [CutResolution()] == TwoCuts(c);
    RunInParts(Initial(), OneCut(), TwoCuts(c));
  }

  /**
   The bound on intents is reached: after two cut resolutions, reconciliation loses a third, and
   three are unresolved.
   */
  lemma ThreeIntentsAfterTwoCuts(c: AgentCommand)
    requires !c.hangupRequested && c.expiresAt == 1
    ensures var events := OneCut() + TwoCuts(c) + ThirdIntent();
      Cuts(events) == 2 && Replay(Run(Initial(), events).log).unresolved == {"k1", "k2", "k3"}
  {
    var w := AfterTwoCuts(c);
    var w3 := Reconciled(w, "k1");
    OneEffect(w3, Write(BeginFreeCall("k3", 0)));
    AppendReplays(w3.log, IntentRecord("k3", 0));
    RunThenOne(w, Reconciliation("k1"), StartFreeCall("k3", true, 0));
    RunInParts(Initial(), OneCut() + TwoCuts(c), ThirdIntent());
    CutsOfAll(c);
  }

  lemma CutsOfAll(c: AgentCommand)
    ensures Cuts(OneCut() + TwoCuts(c) + ThirdIntent()) == 2
  {
    CutsOfThree(OneCut()[0], OneCut()[1], OneCut()[2]);
    CutsOfThree(TwoCuts(c)[0], TwoCuts(c)[1], TwoCuts(c)[2]);
    CutsOfThree(ThirdIntent()[0], ThirdIntent()[1], ThirdIntent()[2]);
    CutsOfParts(OneCut() + TwoCuts(c), ThirdIntent());
    CutsOfParts(OneCut(), TwoCuts(c));
    assert [TwoCuts(c)[0], TwoCuts(c)[1], TwoCuts(c)[2]] + [CutResolution()] == TwoCuts(c);
    assert [ThirdIntent()[0], ThirdIntent()[1], ThirdIntent()[2]] + [ThirdIntent()[3]] == ThirdIntent();
    CutsOfParts([TwoCuts(c)[0], TwoCuts(c)[1], TwoCuts(c)[2]], [CutResolution()]);
    CutsOfParts([ThirdIntent()[0], ThirdIntent()[1], ThirdIntent()[2]], [ThirdIntent()[3]]);
    assert [CutResolution()][1..] == [] && [ThirdIntent()[3]][1..] == [];
  }
}
