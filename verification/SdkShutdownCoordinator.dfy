/**
 The attested stop of the SDK: a loop bounded in time and in turns that watches the
 recorder until it shows Off.  The callbacks, the calls in progress, the audio and the
 clock come from outside; the trace lists what the loop did, in order.
 */
module SdkShutdownCoordinator {
  import opened Prelude
  import opened SdkShutdownSignals

  /** What happens before one observation, and the clock read after it. */
  datatype Moment = Moment(signals: seq<Signal>, hasCalls: bool, audioActive: bool, clock: int)

  datatype Effect = Observed(seen: Observation) | ClockRead(at: int) | BeginStop | Iterate | Pause

  datatype Receipt = Receipt(coreOffObserved: bool, registrationClearedObserved: bool)

  const TURNS: nat := 1500
  const LONGEST_DEADLINE: int := 30000

  // ---------------------------------------------------------------- what the loop sees

  function FeedAll(s: Signals, signals: seq<Signal>): Signals
    decreases |signals|
  {
    if signals == [] then s else FeedAll(Feed(s, signals[0]), signals[1..])
  }

  lemma {:induction false} FeedAllSplit(s: Signals, first: seq<Signal>, e: Signal)
    ensures FeedAll(s, first + [e]) == Feed(FeedAll(s, first), e)
    decreases |first|
  {
    if first == [] {
      assert [e][1..] == [];
      assert FeedAll(Feed(s, e), []) == Feed(s, e);
    } else {
      assert (first + [e])[1..] == first[1..] + [e];
      FeedAllSplit(Feed(s, first[0]), first[1..], e);
    }
  }

  /** The recorder at observation `i`; the shutdown begins after observation 0 when that one is On. */
  function SignalsAt(s: Signals, moments: nat -> Moment, i: nat): Signals {
    FeedAll(if i == 0 then s else Waiting(SignalsAt(s, moments, i - 1), moments, i - 1), moments(i).signals)
  }

  /** The recorder once observation `i` was acted upon: the stop begins after observation 0 when that one is On. */
  function Waiting(s: Signals, moments: nat -> Moment, i: nat): Signals {
    if i == 0 && SeenFrom(s, moments(0)).state.On? then Feed(s, Begin) else s
  }

  function SeenFrom(s: Signals, m: Moment): Observation { Observe(s, m.hasCalls, m.audioActive) }

  function Seen(s: Signals, moments: nat -> Moment, i: nat): Observation {
    SeenFrom(SignalsAt(s, moments, i), moments(i))
  }

  predicate Idle(o: Observation) { !o.hasCalls && !o.audioActive }

  /** Observation `i` of the loop lets it go on, or ends it well. */
  predicate Timely(moments: nat -> Moment, i: nat, deadline: int)
    requires i > 0
  {
    moments(i - 1).clock <= moments(i).clock && 0 <= moments(i).clock - moments(0).clock < deadline
  }

  predicate Fine(s: Signals, moments: nat -> Moment, i: nat, deadline: int) {
    && Idle(Seen(s, moments, i)) && Seen(s, moments, i).hasAccount == Seen(s, moments, 0).hasAccount
    && (i > 0 ==> Timely(moments, i, deadline))
  }

  predicate Starts(s: Signals, moments: nat -> Moment, stopFails: bool) {
    Late(Seen(s, moments, 0).state)
        && (Seen(s, moments, 0).state.On? ==> AcceptsBegin(SignalsAt(s, moments, 0)) && !stopFails)
  }

  /** Observation `n` attests the shutdown. */
  predicate AttestedAt(s: Signals, moments: nat -> Moment, stopFails: bool, deadline: int, n: nat) {
    && 1 <= n <= TURNS && Starts(s, moments, stopFails) && (forall i :: 0 <= i <= n ==> Fine(s, moments, i, deadline))
    && (forall i :: 1 <= i < n ==> Seen(s, moments, i).state.On? || Seen(s, moments, i).state.Shutdown?)
    && Seen(s, moments, n).state.Off? && (Seen(s, moments, n).hasAccount ==> Seen(s, moments, n).registrationCleared)
  }

  // ---------------------------------------------------------------- what the loop does

  predicate ShowsOff(e: Effect) { e.Observed? && e.seen.state.Off? }

  /** Once an observation shows Off, the SDK is not called any more. */
  predicate QuietAfterOff(trace: seq<Effect>) {
    forall i, j :: 0 <= i < j < |trace| && ShowsOff(trace[i]) ==> !trace[j].Iterate? && !trace[j].BeginStop?
  }

  predicate BeginsOnce(trace: seq<Effect>) {
    forall i, j :: 0 <= i < j < |trace| && trace[i].BeginStop? ==> !trace[j].BeginStop?
  }

  function Turn(s: Signals, moments: nat -> Moment, i: nat): seq<Effect> {
    [Observed(Seen(s, moments, i)), ClockRead(moments(i).clock), Iterate, Pause]
  }

  function Opening(s: Signals, moments: nat -> Moment): seq<Effect> {
    [ClockRead(moments(0).clock), Observed(Seen(s, moments, 0))]
        + (if Seen(s, moments, 0).state.On? then [BeginStop] else [])
  }

  /** The trace of `n` full turns. */
  function TurnsTaken(s: Signals, moments: nat -> Moment, n: nat): seq<Effect> {
    if n == 0 then Opening(s, moments) else TurnsTaken(s, moments, n - 1) + Turn(s, moments, n)
  }

  lemma {:induction false} FeedingKeepsOff(s: Signals, signals: seq<Signal>)
    requires s.coreOffObserved && (s.invalid || s.state.Off?)
    ensures var s' := FeedAll(s, signals); s'.coreOffObserved && (s'.invalid || s'.state.Off?)
    decreases |signals|
  {
    if signals != [] {
      AfterOffOnlyOffOrUnknown(s, signals[0]);
      FeedingKeepsOff(Feed(s, signals[0]), signals[1..]);
    }
  }

  /** A recorder that shows Off has recorded it. */
  predicate Faithful(s: Signals) { s.state.Off? ==> s.coreOffObserved }

  lemma {:induction false} HistoryIsFaithful(core: int, h: seq<Signal>)
    ensures Faithful(After(core, h))
    decreases |h|
  {
    if h != [] {
      HistoryIsFaithful(core, h[..|h| - 1]);
    }
  }

  lemma {:induction false} FeedingKeepsFaithful(s: Signals, signals: seq<Signal>)
    requires Faithful(s)
    ensures Faithful(FeedAll(s, signals))
    decreases |signals|
  {
    if signals != [] {
      FeedingKeepsFaithful(Feed(s, signals[0]), signals[1..]);
    }
  }

  lemma {:induction false} AlwaysFaithful(s: Signals, moments: nat -> Moment, n: nat)
    requires Faithful(s)
    ensures Faithful(SignalsAt(s, moments, n))
  {
    if n == 0 {
      FeedingKeepsFaithful(s, moments(0).signals);
    } else {
      AlwaysFaithful(s, moments, n - 1);
      FeedingKeepsFaithful(Waiting(SignalsAt(s, moments, n - 1), moments, n - 1), moments(n).signals);
    }
  }

  lemma {:induction false} OffStays(s: Signals, moments: nat -> Moment, i: nat, n: nat)
    requires Faithful(s) && i <= n && Seen(s, moments, i).state.Off?
    ensures Seen(s, moments, n).state.Off? || Seen(s, moments, n).state.Unknown?
    ensures var s' := SignalsAt(s, moments, n); s'.coreOffObserved && (s'.invalid || s'.state.Off?)
    decreases n - i
  {
    if i == n {
      AlwaysFaithful(s, moments, n);
    } else {
      OffStays(s, moments, i, n - 1);
      FeedingKeepsOff(Waiting(SignalsAt(s, moments, n - 1), moments, n - 1), moments(n).signals);
    }
  }

  /** The turns of a loop still running are quiet: nothing but a first observation can have shown Off. */
  lemma {:induction false} TurnsAreQuiet(s: Signals, moments: nat -> Moment, n: nat)
    requires forall i :: 1 <= i <= n ==> Seen(s, moments, i).state.On? || Seen(s, moments, i).state.Shutdown?
    requires Faithful(s)
    ensures QuietAfterOff(TurnsTaken(s, moments, n)) && BeginsOnce(TurnsTaken(s, moments, n))
    ensures n > 0 ==> forall i :: 0 <= i < |TurnsTaken(s, moments, n)| ==> !ShowsOff(TurnsTaken(s, moments, n)[i])
    ensures |TurnsTaken(s, moments, n)| >= 2
    ensures n == 0 ==> (forall i :: 0 <= i < |Opening(s, moments)| && ShowsOff(Opening(s, moments)[i]) ==>
                        Seen(s, moments, 0).state.Off?)
  {
    if n > 0 {
      TurnsAreQuiet(s, moments, n - 1);
      if Seen(s, moments, 0).state.Off? {
        OffStays(s, moments, 0, 1);
      }
      var earlier := TurnsTaken(s, moments, n - 1);
      forall i | 0 <= i < |earlier| ensures !ShowsOff(earlier[i]) {
      }
    }
  }

  predicate Orderly(trace: seq<Effect>) { QuietAfterOff(trace) && BeginsOnce(trace) }

  lemma Watching(trace: seq<Effect>, o: Observation, now: int)
    requires Orderly(trace)
    ensures Orderly(trace + [Observed(o)]) && Orderly(trace + [Observed(o), ClockRead(now)])
  {
  }

  /** Observations up to `n` let the loop go on. */
  predicate Passed(s: Signals, moments: nat -> Moment, stopFails: bool, deadline: int, n: nat) {
    && n <= TURNS && Starts(s, moments, stopFails) && (forall i :: 0 <= i <= n ==> Fine(s, moments, i, deadline))
    && (forall i :: 1 <= i <= n ==> Seen(s, moments, i).state.On? || Seen(s, moments, i).state.Shutdown?)
  }

  ghost predicate NeverAttested(s: Signals, moments: nat -> Moment, stopFails: bool, deadline: int) {
    forall k: nat :: !AttestedAt(s, moments, stopFails, deadline, k)
  }

  /** Where the loop gives up, no observation attests the shutdown, not even a later one. */
  lemma GivingUp(s: Signals, moments: nat -> Moment, stopFails: bool, deadline: int, n: nat)
    requires 1 <= n <= TURNS && Passed(s, moments, stopFails, deadline, n - 1)
    requires var o := Seen(s, moments, n);
      !Fine(s, moments, n, deadline) || !Late(o.state) || (o.state.Off? && o.hasAccount && !o.registrationCleared)
    ensures NeverAttested(s, moments, stopFails, deadline)
  {
    forall k: nat ensures !AttestedAt(s, moments, stopFails, deadline, k) {
      if k > n {
        assert AttestedAt(s, moments, stopFails, deadline, k) ==> Fine(s, moments, n, deadline);
      }
    }
  }

  lemma RunningOut(s: Signals, moments: nat -> Moment, stopFails: bool, deadline: int)
    requires Passed(s, moments, stopFails, deadline, TURNS) && 0 < deadline <= LONGEST_DEADLINE && Faithful(s)
    ensures Outcome(s, moments, stopFails, deadline, TURNS, Refused("SDK_SHUTDOWN_TIMEOUT"),
                    TurnsTaken(s, moments, TURNS))
    ensures Orderly(TurnsTaken(s, moments, TURNS))
  {
    TurnsAreQuiet(s, moments, TURNS);
    forall k: nat ensures !AttestedAt(s, moments, stopFails, deadline, k) {
    }
  }

  lemma NothingWithoutOpening(s: Signals, moments: nat -> Moment, stopFails: bool, deadline: int)
    requires !(Idle(Seen(s, moments, 0)) && Starts(s, moments, stopFails))
    ensures NeverAttested(s, moments, stopFails, deadline)
  {
    forall k: nat ensures !AttestedAt(s, moments, stopFails, deadline, k) {
      assert AttestedAt(s, moments, stopFails, deadline, k) ==> Fine(s, moments, 0, deadline);
    }
  }

  // ---------------------------------------------------------------- the loop

  method Deliver(recorder: Recorder, signals: seq<Signal>)
    requires recorder.Valid() && forall e :: e in signals ==> !e.Begin?
    modifies recorder
    ensures recorder.Valid() && recorder.View() == FeedAll(old(recorder.View()), signals)
    ensures recorder.history == old(recorder.history) + signals
  {
    for i := 0 to |signals|
      invariant recorder.Valid() && recorder.View() == FeedAll(old(recorder.View()), signals[..i])
      invariant recorder.history == old(recorder.history) + signals[..i]
    {
      FeedAllSplit(old(recorder.View()), signals[..i], signals[i]);
      assert signals[..i + 1] == signals[..i] + [signals[i]];
      assert signals[i] in signals;
      match signals[i]
      case Bind(identity) => recorder.BindAccount(identity);
      case Global(core, value) => recorder.OnGlobalState(core, value);
      case Registration(core, account, cleared) => recorder.OnRegistrationState(core, account, cleared);
    }
    assert signals[..|signals|] == signals;
  }

  function IdleRefusal(o: Observation): Option<string> {
    if o.hasCalls then Some("PROFILE_MAINTENANCE_CALL_ACTIVE")
        else if o.audioActive then Some("PROFILE_MAINTENANCE_AUDIO_ACTIVE") else None
  }

  /** Why an observation of the loop ends it without a receipt. */
  predicate Fault(error: string, o: Observation, hasAccount: bool, timely: bool) {
    if o.hasCalls then error == "PROFILE_MAINTENANCE_CALL_ACTIVE"
    else if o.audioActive then error == "PROFILE_MAINTENANCE_AUDIO_ACTIVE"
    else if o.hasAccount != hasAccount then error == "SDK_SHUTDOWN_ACCOUNT_CHANGED"
    else if !timely then error == "SDK_SHUTDOWN_TIMEOUT"
    else if o.state.Off? then error == "SDK_UNREGISTER_UNPROVEN"
    else !Late(o.state) && error == "SDK_SHUTDOWN_STATE_UNPROVEN"
  }

  /** Why the loop gave up at observation `n`. */
  predicate Explains(error: string, s: Signals, moments: nat -> Moment, deadline: int, n: nat) {
    var o, first := Seen(s, moments, n), Seen(s, moments, 0);
    if n == 0 && Idle(o) then error == "SDK_SHUTDOWN_STATE_UNPROVEN" || error == "SDK_STOP_FAILED"
    else
      || Fault(error, o, first.hasAccount, n == 0 || Timely(moments, n, deadline))
      || (n == TURNS && (o.state.On? || o.state.Shutdown?) && error == "SDK_SHUTDOWN_TIMEOUT")
  }

  /** The first observation and the beginning of the stop. */
  method Open(recorder: Recorder, moments: nat -> Moment, stopFails: bool, deadline: int)
    returns (r: Result<bool, string>, trace: seq<Effect>)
    requires recorder.Valid()
    requires forall e :: e in moments(0).signals ==> !e.Begin?
    modifies recorder
    ensures recorder.Valid() && Orderly(trace)
    ensures r.Ok? <==> Idle(Seen(old(recorder.View()), moments, 0)) && Starts(old(recorder.View()), moments, stopFails)
    ensures r.Ok? ==> r.value == Seen(old(recorder.View()), moments, 0).hasAccount
    ensures r.Ok? ==> trace == Opening(old(recorder.View()), moments)
    ensures r.Ok? ==> recorder.View() == Waiting(SignalsAt(old(recorder.View()), moments, 0), moments, 0)
    ensures r.Refused? ==> Explains(r.error, old(recorder.View()), moments, deadline, 0)
  {
    trace := [ClockRead(moments(0).clock)];
    Deliver(recorder, moments(0).signals);
    var first := Observe(recorder.View(), moments(0).hasCalls, moments(0).audioActive);
    trace := trace + [Observed(first)];
    if IdleRefusal(first).Some? {
      return Refused(IdleRefusal(first).value), trace;
    }
    if !Late(first.state) {
      return Refused("SDK_SHUTDOWN_STATE_UNPROVEN"), trace;
    }
    if first.state == On {
      trace := trace + [BeginStop];
      var begun := recorder.BeginShutdown();
      if begun.Refused? {
        return Refused(begun.error), trace;
      }
      if stopFails {
        return Refused("SDK_STOP_FAILED"), trace;
      }
    }
    return Ok(first.hasAccount), trace;
  }

  /** What a receipt tells about everything the recorder received. */
  predicate ReceiptHolds(r: Receipt, core: int, h: seq<Signal>) {
    && r.coreOffObserved && OffIn(core, h)
    && (r.registrationClearedObserved <==> exists e :: e in h && e.Bind?)
    && (forall e :: e in h && e.Bind? ==> LastAnswerClears(core, e.identity, h))
  }

  lemma OffReceiptHolds(s: Signals, o: Observation, core: int, h: seq<Signal>)
    requires s == After(core, h) && o == Observe(s, o.hasCalls, o.audioActive) && o.state.Off?
    requires o.hasAccount ==> o.registrationCleared
    ensures ReceiptHolds(Receipt(true, o.hasAccount), core, h)
  {
    OffObservationMeans(core, h);
    forall e | e in h && e.Bind? ensures LastAnswerClears(core, e.identity, h) && o.hasAccount {
      assert Bind(e.identity) in h;
    }
    if o.hasAccount {
      var a :| a != 0 && Bind(a) in h;
    }
  }

  /** What one turn concludes from its observation and its clock reading, and what it does. */
  predicate TurnEnds(o: Observation, now: int, hasAccount: bool, started: int, previous: int, deadline: int,
                     verdict: Option<Result<Receipt, string>>, steps: seq<Effect>) {
    var timely := previous <= now && 0 <= now - started < deadline;
    var good := Idle(o) && o.hasAccount == hasAccount && timely;
    match verdict
    case None => good && (o.state.On? || o.state.Shutdown?) && steps == [Observed(o), ClockRead(now), Iterate, Pause]
    case Some(Ok(receipt)) =>
      && good && o.state.Off? && (hasAccount ==> o.registrationCleared)
      && receipt == Receipt(true, hasAccount) && steps == [Observed(o), ClockRead(now)]
    case Some(Refused(error)) =>
      && Fault(error, o, hasAccount, timely)
      && (error == "SDK_UNREGISTER_UNPROVEN" ==> hasAccount && !o.registrationCleared)
      && (steps == [Observed(o)] || steps == [Observed(o), ClockRead(now)])
  }

  /** One turn of the loop: observe, read the clock, and end or pump the SDK once; `verdict` ends the loop. */
  method TakeTurn(recorder: Recorder, m: Moment, hasAccount: bool, started: int, previous: int, deadline: int)
    returns (verdict: Option<Result<Receipt, string>>, steps: seq<Effect>)
    requires recorder.Valid() && forall e :: e in m.signals ==> !e.Begin?
    modifies recorder
    ensures recorder.Valid() && recorder.View() == FeedAll(old(recorder.View()), m.signals)
    ensures TurnEnds(SeenFrom(recorder.View(), m), m.clock, hasAccount, started, previous, deadline, verdict, steps)
    ensures verdict.Some? && verdict.value.Ok? ==>
        ReceiptHolds(verdict.value.value, recorder.coreIdentity, recorder.history)
  {
    Deliver(recorder, m.signals);
    var current := Observe(recorder.View(), m.hasCalls, m.audioActive);
    steps := [Observed(current)];
    if IdleRefusal(current).Some? {
      return Some(Refused(IdleRefusal(current).value)), steps;
    }
    if current.hasAccount != hasAccount {
      return Some(Refused("SDK_SHUTDOWN_ACCOUNT_CHANGED")), steps;
    }
    var now := m.clock;
    steps := steps + [ClockRead(now)];
    if now < previous || now - started < 0 || now - started >= deadline {
      return Some(Refused("SDK_SHUTDOWN_TIMEOUT")), steps;
    }
    if current.state == Off {
      if hasAccount && !current.registrationCleared {
        return Some(Refused("SDK_UNREGISTER_UNPROVEN")), steps;
      }
      OffReceiptHolds(recorder.View(), current, recorder.coreIdentity, recorder.history);
      return Some(Ok(Receipt(true, hasAccount && current.registrationCleared))), steps;
    }
    if current.state != On && current.state != Shutdown {
      return Some(Refused("SDK_SHUTDOWN_STATE_UNPROVEN")), steps;
    }
    return None, steps + [Iterate, Pause];
  }

  /** The outcome of the stop: a receipt exactly when some observation attests the shutdown, else the reason. */
  ghost predicate Outcome(s: Signals, moments: nat -> Moment, stopFails: bool, deadline: int, n: nat,
                          r: Result<Receipt, string>, trace: seq<Effect>) {
    if !(0 < deadline <= LONGEST_DEADLINE) then r == Refused("SDK_SHUTDOWN_DEADLINE_INVALID") && trace == []
    else
      match r
      case Refused(e) => Explains(e, s, moments, deadline, n) && NeverAttested(s, moments, stopFails, deadline)
      case Ok(receipt) =>
        && AttestedAt(s, moments, stopFails, deadline, n) && receipt == Receipt(true, Seen(s, moments, 0).hasAccount)
        && trace == TurnsTaken(s, moments, n - 1) + [Observed(Seen(s, moments, n)), ClockRead(moments(n).clock)]
  }

  lemma LoopEnds(s: Signals, moments: nat -> Moment, stopFails: bool, deadline: int, n: nat, r: Result<Receipt, string>,
                 steps: seq<Effect>)
    requires 1 <= n <= TURNS && 0 < deadline <= LONGEST_DEADLINE && Faithful(s)
    requires Passed(s, moments, stopFails, deadline, n - 1)
    requires TurnEnds(Seen(s, moments, n), moments(n).clock, Seen(s, moments, 0).hasAccount, moments(0).clock,
                      moments(n - 1).clock, deadline, Some(r), steps)
    ensures Outcome(s, moments, stopFails, deadline, n, r, TurnsTaken(s, moments, n - 1) + steps)
    ensures Orderly(TurnsTaken(s, moments, n - 1) + steps)
  {
    TurnsAreQuiet(s, moments, n - 1);
    Watching(TurnsTaken(s, moments, n - 1), Seen(s, moments, n), moments(n).clock);
    if r.Refused? {
      GivingUp(s, moments, stopFails, deadline, n);
    }
  }

  lemma TurnIsFine(s: Signals, moments: nat -> Moment, stopFails: bool, deadline: int, n: nat, steps: seq<Effect>)
    requires 1 <= n <= TURNS && 0 < deadline <= LONGEST_DEADLINE && Faithful(s)
    requires Passed(s, moments, stopFails, deadline, n - 1)
    requires TurnEnds(Seen(s, moments, n), moments(n).clock, Seen(s, moments, 0).hasAccount, moments(0).clock,
                      moments(n - 1).clock, deadline, None, steps)
    ensures TurnsTaken(s, moments, n - 1) + steps == TurnsTaken(s, moments, n)
    ensures Passed(s, moments, stopFails, deadline, n)
  {
  }

  lemma OpeningPasses(s: Signals, moments: nat -> Moment, stopFails: bool, deadline: int)
    requires Idle(Seen(s, moments, 0)) && Starts(s, moments, stopFails)
    ensures Passed(s, moments, stopFails, deadline, 0)
  {
  }

  /** Bounded both in time and in turns. */
  method Watch(recorder: Recorder, ghost s: Signals, moments: nat -> Moment, ghost stopFails: bool, deadline: int,
               hasAccount: bool)
    returns (r: Result<Receipt, string>, trace: seq<Effect>, n: nat)
    requires recorder.Valid() && Faithful(s) && recorder.View() == Waiting(SignalsAt(s, moments, 0), moments, 0)
    requires forall i: nat, e :: e in moments(i).signals ==> !e.Begin?
    requires 0 < deadline <= LONGEST_DEADLINE && Passed(s, moments, stopFails, deadline, 0)
    requires hasAccount == Seen(s, moments, 0).hasAccount
    modifies recorder
    ensures recorder.Valid() && 0 < n <= TURNS && recorder.View() == SignalsAt(s, moments, n)
    ensures Outcome(s, moments, stopFails, deadline, n, r, Opening(s, moments) + trace)
    ensures Orderly(Opening(s, moments) + trace)
    ensures r.Ok? ==> ReceiptHolds(r.value, recorder.coreIdentity, recorder.history)
  {
    var started, previous := moments(0).clock, moments(0).clock;
    trace, n := [], 0;
    assert Opening(s, moments) + [] == TurnsTaken(s, moments, 0);
    while n < TURNS
      invariant n <= TURNS && recorder.Valid() && previous == moments(n).clock
      invariant recorder.View() == Waiting(SignalsAt(s, moments, n), moments, n)
      invariant Opening(s, moments) + trace == TurnsTaken(s, moments, n)
      invariant Passed(s, moments, stopFails, deadline, n)
    {
      n := n + 1;
      var verdict, steps := TakeTurn(recorder, moments(n), hasAccount, started, previous, deadline);
      assert Opening(s, moments) + (trace + steps) == TurnsTaken(s, moments, n - 1) + steps;
      trace := trace + steps;
      if verdict.Some? {
        LoopEnds(s, moments, stopFails, deadline, n, verdict.value, steps);
        return verdict.value, trace, n;
      }
      previous := moments(n).clock;
      TurnIsFine(s, moments, stopFails, deadline, n, steps);
    }
    RunningOut(s, moments, stopFails, deadline);
    return Refused("SDK_SHUTDOWN_TIMEOUT"), trace, n;
  }

  method Stop(recorder: Recorder, moments: nat -> Moment, stopFails: bool, deadline: int)
    returns (r: Result<Receipt, string>, trace: seq<Effect>, n: nat)
    requires recorder.Valid()
    requires forall i: nat, e :: e in moments(i).signals ==> !e.Begin?
    modifies recorder
    ensures recorder.Valid() && n <= TURNS && Orderly(trace)
    ensures n > 0 ==> recorder.View() == SignalsAt(old(recorder.View()), moments, n)
    ensures Outcome(old(recorder.View()), moments, stopFails, deadline, n, r, trace)
    ensures r.Ok? ==> ReceiptHolds(r.value, recorder.coreIdentity, recorder.history)
  {
    n := 0;
    if deadline <= 0 || deadline > LONGEST_DEADLINE {
      return Refused("SDK_SHUTDOWN_DEADLINE_INVALID"), [], n;
    }
    ghost var s := recorder.View();
    HistoryIsFaithful(recorder.coreIdentity, recorder.history);
    var beginning;
    beginning, trace := Open(recorder, moments, stopFails, deadline);
    if beginning.Refused? {
      NothingWithoutOpening(s, moments, stopFails, deadline);
      return Refused(beginning.error), trace, n;
    }
    OpeningPasses(s, moments, stopFails, deadline);
    var turns;
    r, turns, n := Watch(recorder, s, moments, stopFails, deadline, beginning.value);
    trace := trace + turns;
  }
}
