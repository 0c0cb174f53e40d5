/**
 What a withdrawal does when nothing goes wrong, what it leaves when the reply fails, and what must
 have happened before it sends or deletes anything.
 */
module WithdrawalRuns {
  import opened Prelude
  import opened WithdrawalStore
  import opened WithdrawalFlow

  // ---------------------------------------------------------------- the uninterrupted run

  /** The request and the state a first attempt on this profile is about. */
  function Attempt(p: Snapshot, id: string): State
    requires p.settings.associationId.Some?
  {
    State(1, Attempted, Request(id, p.settings.associationId.value, p.settings.workstationId, p.settings.profileId),
          p.settings.apiBase, p.sha, None)
  }

  /** The engine runs on exactly this profile, or was stopped for it with an attestation. */
  predicate SdkBound(process: Process, p: Snapshot) {
    if process.engine.Some? then process.engine == Some(p.settings) && process.runtime == Some(p.settings)
    else process.attested == Some(p)
  }

  /** No request is unfinished, the id is new, and the profile is complete and bound to the SDK. */
  ghost predicate ReadyFor(w: World, p: Snapshot, id: string) {
    && w.pc.Idle? && w.dir.temps == 0 && w.profile == Some(p)
    && (forall n :: n in w.dir.files ==> n.requestId != id && Name(n.requestId, 3) in w.dir.files)
    && ValidUuid(id) && p.settings.associationId.Some? && ValidUuid(p.settings.associationId.value)
    && ValidUuid(p.settings.workstationId) && ValidUuid(p.settings.profileId) && ValidSha(p.sha)
    && SdkBound(w.process, p)
  }

  /** Start, attested stop, flush and rename of ATTEMPTED, POST. */
  function PostScript(id: string): seq<Event> {
    [Start(false, id), Stop(true), Go()] + [Go(), Go()]
  }

  /** The profile is written once more, the reply arrives; receipt, removal and completion follow. */
  function AnswerScript(q: Option<Snapshot>, r: Option<Receipt>): seq<Event> {
    [ProfileWritten(q), Reply(r), Go()] + [Go(), Go(), Go()]
  }

  /** The reply confirms the withdrawal of exactly this profile. */
  predicate Confirms(t: Receipt, p: Snapshot, id: string) {
    && t.schemaVersion == 1 && t.outcome == "WITHDRAWN" && t.requestId == id
    && Some(t.associationId) == p.settings.associationId
    && t.workstationId == p.settings.workstationId && t.profileId == p.settings.profileId
    && t.workstationVersion >= 2 && t.profileVersion >= 2 && t.withdrawnAt.Canonical?
  }

  /** The same file for the same association, workstation, profile and service. */
  predicate StillBound(p: Snapshot, q: Snapshot) {
    && q.sha == p.sha && q.settings.associationId == p.settings.associationId
    && q.settings.workstationId == p.settings.workstationId && q.settings.profileId == p.settings.profileId
    && q.settings.apiBase == p.settings.apiBase
  }

  lemma NothingUnfinished(w: World, p: Snapshot, id: string)
    requires Inv(w) && ReadyFor(w, p, id)
    ensures ReadPending(w.dir) == Ok(None) && Unfinished(w.dir.files) == {} && id !in Ids(w.dir.files)
  {
    forall x | x in Ids(w.dir.files) ensures x != id && Name(x, 3) in w.dir.files {
      var n :| n in w.dir.files && n.requestId == x;
    }
    SoundIsReadable(w.dir, id);
  }

  lemma StartsToStop(w: World, p: Snapshot, id: string)
    requires Inv(w) && ReadyFor(w, p, id)
    ensures Next(w, Start(false, id)) == w.(pc := Stopping(p, Attempt(p, id).request))
  {
    NothingUnfinished(w, p, id);
  }

  function Quieted(process: Process, p: Snapshot): Process {
    if process.engine.Some? then process.(engine := None, attested := Some(p)) else process
  }

  lemma StopsAttested(w: World, p: Snapshot, request: Request)
    requires w.pc == Stopping(p, request) && SdkBound(w.process, p)
    ensures Next(w, Stop(true)) == w.(process := Quieted(w.process, p), pc := Stopped(p, request))
  {
  }

  lemma FlushesAttempt(w: World, p: Snapshot, id: string)
    requires Sound(w.dir.files) && ReadyFor(w.(pc := Idle, process := Process(None, None, false, Some(p))), p, id)
    requires Unfinished(w.dir.files) == {} && id !in Ids(w.dir.files)
    requires w.pc == Stopped(p, Attempt(p, id).request)
    ensures Next(w, Go()) == w.(dir := Dir(w.dir.files, 1), pc := Beginning(Attempt(p, id)))
  {
    SoundIsReadable(w.dir, id);
    assert ValidState(Attempt(p, id));
    assert BeginCheck(w.dir, Attempt(p, id)) == None;
  }

  lemma RenamesAttempt(w: World, s: State)
    requires w.pc == Beginning(s) && w.dir.temps == 1 && NameOf(s) !in w.dir.files
    ensures Next(w, Go()) == w.(dir := Dir(w.dir.files[NameOf(s) := s], 0), pc := Begun(s))
  {
  }

  lemma Posts(w: World, p: Snapshot, id: string)
    requires p.settings.associationId.Some? && w.pc == Begun(Attempt(p, id)) && w.profile == Some(p)
    requires Capturable(w.profile)
    ensures Next(w, Go()) == w.(posts := w.posts + [id], pc := Posted(Attempt(p, id)))
  {
  }

  /** The world that awaits the reply. */
  function Waiting(w: World, p: Snapshot, id: string): World
    requires p.settings.associationId.Some?
  {
    var s := Attempt(p, id);
    w.(dir := Dir(w.dir.files[Name(id, 1) := s], 0), process := Quieted(w.process, p), posts := w.posts + [id],
       pc := Posted(s))
  }

  lemma ReachesThePost(w: World, p: Snapshot, id: string)
    requires Inv(w) && ReadyFor(w, p, id)
    ensures Run(w, PostScript(id)) == Waiting(w, p, id)
  {
    var s := Attempt(p, id);
    StartsToStop(w, p, id);
    NothingUnfinished(w, p, id);
    var w1 := w.(pc := Stopping(p, s.request));
    StopsAttested(w1, p, s.request);
    var w2 := w1.(process := Quieted(w.process, p), pc := Stopped(p, s.request));
    FlushesAttempt(w2, p, id);
    var w3 := w2.(dir := Dir(w.dir.files, 1), pc := Beginning(s));
    assert NameOf(s) == Name(id, 1);
    RenamesAttempt(w3, s);
    var w4 := w3.(dir := Dir(w.dir.files[Name(id, 1) := s], 0), pc := Begun(s));
    Posts(w4, p, id);
    RunThree(w, Start(false, id), Stop(true), Go());
    RunTwo(w3, Go(), Go());
    RunSplit(w, [Start(false, id), Stop(true), Go()], [Go(), Go()]);
  }

  lemma RunTwo(w: World, a: Event, b: Event)
    ensures Run(w, [a, b]) == Next(Next(w, a), b)
  {
    assert [a, b][1..] == [b] && [b][1..] == [];
    RunStep(w, [a, b]);
    RunStep(Next(w, a), [b]);
  }

  lemma ConfirmsIsMatch(t: Receipt, p: Snapshot, id: string)
    requires p.settings.associationId.Some? && ValidRequest(Attempt(p, id).request)
    ensures ReceiptMatches(t, Attempt(p, id).request) <==> Confirms(t, p, id)
  {
  }

  /** A matching reply is stored. */
  lemma StoresTheReply(w: World, s: State, t: Receipt)
    requires Inv(w) && w.pc == Posted(s) && ReceiptMatches(t, s.request)
    ensures var next := s.(phase := ReceiptStored, receipt := Some(t));
      Next(Next(w, Reply(Some(t))), Go()) == w.(dir := Dir(w.dir.files[NameOf(next) := next], 0), pc := Received(next))
  {
    var next := s.(phase := ReceiptStored, receipt := Some(t));
    ReceiptPublishes(w.dir, s, t);
    assert Next(w, Reply(Some(t))) == w.(dir := Dir(w.dir.files, 1), pc := Storing(next));
    assert NameOf(next) == Name(s.request.requestId, 2) && NameOf(s) == Name(s.request.requestId, 1);
    RenameStep(w.(dir := Dir(w.dir.files, 1), pc := Storing(next)));
  }

  /** Any other reply ends the run with the attempt as it was. */
  lemma RefusesTheReply(w: World, s: State, r: Option<Receipt>)
    requires w.pc == Posted(s) && (r.Some? ==> !ReceiptMatches(r.value, s.request))
    ensures Next(w, Reply(r)) == w.(pc := Idle)
  {
  }

  lemma BoundStaysBound(p: Snapshot, id: string, q: Option<Snapshot>, t: Receipt)
    requires p.settings.associationId.Some? && ValidRequest(Attempt(p, id).request)
    ensures var next := Attempt(p, id).(phase := ReceiptStored, receipt := Some(t));
      ResumableProfile(next, q) <==> q == None || StillBound(p, q.value)
  {
  }

  lemma AnswerFails(w: World, s: State, q: Option<Snapshot>, r: Option<Receipt>)
    requires w.pc == Posted(s) && (r.Some? ==> !ReceiptMatches(r.value, s.request))
    ensures Run(w, AnswerScript(q, r)) == w.(profile := q, pc := Idle)
  {
    RunThree(w, ProfileWritten(q), Reply(r), Go());
    RefusesTheReply(w.(profile := q), s, r);
    RunSplit(w, [ProfileWritten(q), Reply(r), Go()], [Go(), Go(), Go()]);
    IdleStaysIdle(w.(profile := q, pc := Idle), [Go()]);
    RunStep(w.(profile := q, pc := Idle), [Go()]);
    IdleStaysIdle(w.(profile := q, pc := Idle), [Go(), Go(), Go()]);
  }

  lemma AnswerSucceeds(w: World, s: State, q: Option<Snapshot>, t: Receipt)
    requires Inv(w) && w.pc == Posted(s) && ReceiptMatches(t, s.request)
    ensures var next := s.(phase := ReceiptStored, receipt := Some(t));
      var stored := w.(profile := q, dir := Dir(w.dir.files[NameOf(next) := next], 0), pc := Received(next));
      && Run(w, AnswerScript(q, Some(t))) == Run(stored, [Go(), Go(), Go()]) && Inv(stored)
  {
    var w1 := Next(w, ProfileWritten(q));
    NextKeepsInv(w, ProfileWritten(q));
    StoresTheReply(w1, s, t);
    NextKeepsInv(w1, Reply(Some(t)));
    NextKeepsInv(Next(w1, Reply(Some(t))), Go());
    RunThree(w, ProfileWritten(q), Reply(Some(t)), Go());
    RunSplit(w, [ProfileWritten(q), Reply(Some(t)), Go()], [Go(), Go(), Go()]);
  }

  /** What the script ends with. */
  ghost predicate FirstOutcome(w: World, p: Snapshot, id: string, q: Option<Snapshot>, r: Option<Receipt>, end: World)
    requires p.settings.associationId.Some?
  {
    && end.pc.Idle? && end.posts == w.posts + [id]
    && Name(id, 1) in end.dir.files && end.dir.files[Name(id, 1)] == Attempt(p, id)
    && (end.profile == None && Name(id, 3) in end.dir.files
        <==> r.Some? && Confirms(r.value, p, id) && (q == None || StillBound(p, q.value)))
    && (r.None? || !Confirms(r.value, p, id) ==>
          end.profile == q && end.dir == Dir(w.dir.files[Name(id, 1) := Attempt(p, id)], 0))
  }

  lemma AnswerDecides(w: World, p: Snapshot, id: string, q: Option<Snapshot>, r: Option<Receipt>)
    requires Inv(w) && ReadyFor(w, p, id) && Inv(Waiting(w, p, id))
    ensures FirstOutcome(w, p, id, q, r, Run(Waiting(w, p, id), AnswerScript(q, r)))
  {
    var s, posted := Attempt(p, id), Waiting(w, p, id);
    NothingUnfinished(w, p, id);
    assert Name(id, 2) !in w.dir.files && Name(id, 3) !in w.dir.files && ValidRequest(s.request);
    if r.Some? {
      ConfirmsIsMatch(r.value, p, id);
    }
    if r.Some? && Confirms(r.value, p, id) {
      var next := s.(phase := ReceiptStored, receipt := r);
      AnswerSucceeds(posted, s, q, r.value);
      assert NameOf(next) == Name(id, 2);
      FinishFromReceipt(posted.(profile := q, dir := Dir(posted.dir.files[NameOf(next) := next], 0),
                                pc := Received(next)));
      BoundStaysBound(p, id, q, r.value);
    } else {
      AnswerFails(posted, s, q, r);
    }
  }

  /**
   From any reachable idle world with nothing unfinished, a complete profile bound to the SDK and a
   new id, the uninterrupted run sends exactly this id, after ATTEMPTED is durable.  It ends
   completed without a profile if and only if the reply confirms the request and the profile is
   still the attempted one, or gone; a reply that fails leaves the attempt durable and no more.
   */
  lemma FirstRunCompletesIff(profile: Option<Snapshot>, events: seq<Event>, p: Snapshot, id: string,
                             q: Option<Snapshot>, r: Option<Receipt>)
    requires ReadyFor(Run(Initial(profile), events), p, id)
    ensures var w := Run(Initial(profile), events); var posted := Run(w, PostScript(id));
      && posted.posts == w.posts + [id] && posted.pc == Posted(Attempt(p, id))
      && posted.dir == Dir(w.dir.files[Name(id, 1) := Attempt(p, id)], 0)
      && FirstOutcome(w, p, id, q, r, Run(posted, AnswerScript(q, r)))
  {
    var w := Run(Initial(profile), events);
    RunKeepsInv(Initial(profile), events);
    ReachesThePost(w, p, id);
    RunKeepsInv(w, PostScript(id));
    AnswerDecides(w, p, id, q, r);
  }

  // ---------------------------------------------------------------- what comes before a POST and a deletion

  lemma {:induction false} RunThenNext(w: World, events: seq<Event>, n: nat)
    requires n < |events|
    ensures Run(w, events[..n + 1]) == Next(Run(w, events[..n]), events[n])
    decreases n
  {
    if n == 0 {
      assert events[..0] == [] && events[..1][1..] == [] && events[..1][0] == events[0];
      RunStep(w, events[..1]);
    } else {
      RunThenNext(Next(w, events[0]), events[1..], n - 1);
      assert events[..n + 1][1..] == events[1..][..n] && events[..n][1..] == events[1..][..n - 1];
      assert events[1..][..n - 1 + 1] == events[1..][..n];
      RunStep(w, events[..n + 1]);
      RunStep(w, events[..n]);
    }
  }

  /** The stop of a first attempt on `s` is answered as attested. */
  predicate FirstStop(w: World, e: Event, s: State) {
    && e == Stop(true) && w.pc.Stopping? && w.pc.original.settings.associationId.Some?
    && s == State(1, Attempted, w.pc.request, w.pc.original.settings.apiBase, w.pc.original.sha, None)
    && SdkBound(w.process, w.pc.original)
  }

  /** The stop of a resumed request: no SDK was ever created, or it ran on, or was stopped for, the same profile. */
  predicate ResumedStop(w: World, e: Event, s: State) {
    && e == Stop(true) && w.pc.ResumeStopping? && w.pc.state == s
    && if w.process.engine.Some? then w.pc.target.Some? && SdkBound(w.process, w.pc.target.value)
       else !w.process.sdkEverCreated || (w.process.attested.Some? && OfProfile(s, w.process.attested.value))
  }

  predicate OfProfile(s: State, p: Snapshot) {
    && s.sha == p.sha && Some(s.request.associationId) == p.settings.associationId
    && s.request.workstationId == p.settings.workstationId && s.request.profileId == p.settings.profileId
    && s.origin == p.settings.apiBase
  }

  /** What a point before the POST is about. */
  function FirstState(pc: Pc): Option<State> {
    match pc
    case Stopped(original, request) =>
      Some(State(1, Attempted, request, original.settings.apiBase, original.sha, None))
    case Beginning(s) => Some(s)
    case Begun(s) => Some(s)
    case _ => None
  }

  lemma StopsHaveAnAssociation(w: World)
    requires Inv(w)
    ensures w.pc.Stopping? ==> w.pc.original.settings.associationId.Some?
  {
  }

  lemma FirstStep(w: World, e: Event)
    requires w.pc.Stopping? ==> w.pc.original.settings.associationId.Some?
    ensures var s := FirstState(Next(w, e).pc); s.Some? ==> FirstState(w.pc) == s || FirstStop(w, e, s.value)
  {
    match e
    case Proceed(cancelled) =>
      assert FirstState(AtProceed(w, cancelled).pc).Some? ==> w.pc.Stopped? || w.pc.Beginning?;
    case _ =>
  }

  ghost predicate StoppedFirst(profile: Option<Snapshot>, events: seq<Event>, n: nat, s: State)
    requires n <= |events|
  {
    exists m :: 0 <= m < n && FirstStop(Run(Initial(profile), events[..m]), events[m], s)
  }

  lemma {:induction false} FirstStatesWereStopped(profile: Option<Snapshot>, events: seq<Event>, n: nat)
    requires n <= |events|
    ensures var s := FirstState(Run(Initial(profile), events[..n]).pc);
      s.Some? ==> StoppedFirst(profile, events, n, s.value)
    decreases n
  {
    if n == 0 {
      assert events[..0] == [];
    } else {
      FirstStatesWereStopped(profile, events, n - 1);
      RunKeepsInv(Initial(profile), events[..n - 1]);
      RunThenNext(Initial(profile), events, n - 1);
      StopsHaveAnAssociation(Run(Initial(profile), events[..n - 1]));
      FirstStep(Run(Initial(profile), events[..n - 1]), events[n - 1]);
    }
  }

  lemma OnlyBegunPosts(w: World, e: Event)
    requires Next(w, e).posts != w.posts
    ensures w.pc.Begun? && Next(w, e).posts == w.posts + [w.pc.state.request.requestId]
  {
  }

  /** Over every run, nothing is sent unless a stop was answered as attested for the very profile it is about. */
  lemma NoPostWithoutAnAttestedStop(profile: Option<Snapshot>, events: seq<Event>, n: nat)
    requires n < |events|
    ensures var w, w' := Run(Initial(profile), events[..n]), Run(Initial(profile), events[..n + 1]);
      w'.posts == w.posts
      || exists s :: StoppedFirst(profile, events, n, s) && w'.posts == w.posts + [s.request.requestId]
  {
    RunThenNext(Initial(profile), events, n);
    var w := Run(Initial(profile), events[..n]);
    if Next(w, events[n]).posts != w.posts {
      OnlyBegunPosts(w, events[n]);
      FirstStatesWereStopped(profile, events, n);
    }
  }

  /** The operation a point behind the stop is about. */
  function OperationOf(pc: Pc): Option<State> {
    match pc
    case Stopped(_, _) => FirstState(pc)
    case Beginning(s) => Some(Operation(s))
    case Begun(s) => Some(Operation(s))
    case Posted(s) => Some(Operation(s))
    case ResumeStopped(s) => Some(Operation(s))
    case LookingUp(s) => Some(Operation(s))
    case Storing(s) => Some(Operation(s))
    case Received(s) => Some(Operation(s))
    case _ => None
  }

  /** The attempt of which the state is a phase. */
  function Operation(s: State): State { State(1, Attempted, s.request, s.origin, s.sha, None) }

  predicate StopFor(w: World, e: Event, s: State) {
    FirstStop(w, e, s) || (w.pc.ResumeStopping? && ResumedStop(w, e, w.pc.state) && s == Operation(w.pc.state))
  }

  lemma OperationStep(w: World, e: Event)
    requires w.pc.Stopping? ==> w.pc.original.settings.associationId.Some?
    ensures var s := OperationOf(Next(w, e).pc); s.Some? ==> OperationOf(w.pc) == s || StopFor(w, e, s.value)
  {
    match e
    case Proceed(cancelled) => ProceedKeepsTheOperation(w, cancelled);
    case Reply(receipt) => ReplyKeepsTheOperation(w, receipt);
    case _ =>
  }

  lemma ReplyKeepsTheOperation(w: World, receipt: Option<Receipt>)
    ensures OperationOf(AtReply(w, receipt).pc).Some? ==> OperationOf(AtReply(w, receipt).pc) == OperationOf(w.pc)
  {
  }

  lemma ProceedKeepsTheOperation(w: World, cancelled: bool)
    ensures OperationOf(AtProceed(w, cancelled).pc).Some? ==>
        OperationOf(AtProceed(w, cancelled).pc) == OperationOf(w.pc)
  {
  }

  ghost predicate StoppedBefore(profile: Option<Snapshot>, events: seq<Event>, n: nat, s: State)
    requires n <= |events|
  {
    exists m :: 0 <= m < n && StopFor(Run(Initial(profile), events[..m]), events[m], s)
  }

  lemma {:induction false} OperationsWereStopped(profile: Option<Snapshot>, events: seq<Event>, n: nat)
    requires n <= |events|
    ensures var s := OperationOf(Run(Initial(profile), events[..n]).pc);
      s.Some? ==> StoppedBefore(profile, events, n, s.value)
    decreases n
  {
    if n == 0 {
      assert events[..0] == [];
    } else {
      OperationsWereStopped(profile, events, n - 1);
      RunKeepsInv(Initial(profile), events[..n - 1]);
      RunThenNext(Initial(profile), events, n - 1);
      StopsHaveAnAssociation(Run(Initial(profile), events[..n - 1]));
      OperationStep(Run(Initial(profile), events[..n - 1]), events[n - 1]);
    }
  }

  /** The deletion is of the attempted file, and its receipt confirms the withdrawal of that profile. */
  predicate Exact(d: Deletion) {
    && OfProfile(d.state, d.snapshot) && d.state.receipt.Some?
    && Confirms(d.state.receipt.value, d.snapshot, d.state.request.requestId)
  }

  lemma OnlyReceivedDeletes(w: World, e: Event)
    requires Inv(w) && Next(w, e).deletions != w.deletions
    ensures w.pc.Received? && w.profile.Some? && Exact(Deletion(w.profile.value, w.pc.state))
    ensures Next(w, e).deletions == w.deletions + [Deletion(w.profile.value, w.pc.state)]
  {
    assert e.Proceed?;
  }

  /** Over every run, each deletion removes the attempted file after its confirmation and an attested stop for it. */
  lemma NoDeletionWithoutAnAttestedStop(profile: Option<Snapshot>, events: seq<Event>, n: nat)
    requires n < |events|
    ensures var w, w' := Run(Initial(profile), events[..n]), Run(Initial(profile), events[..n + 1]);
      w'.deletions == w.deletions
      || exists d :: Exact(d) && w'.deletions == w.deletions + [d] && w.profile == Some(d.snapshot)
                     && StoppedBefore(profile, events, n, Operation(d.state))
  {
    RunThenNext(Initial(profile), events, n);
    var w := Run(Initial(profile), events[..n]);
    RunKeepsInv(Initial(profile), events[..n]);
    if Next(w, events[n]).deletions != w.deletions {
      OnlyReceivedDeletes(w, events[n]);
      OperationsWereStopped(profile, events, n);
      assert Exact(Deletion(w.profile.value, w.pc.state));
    }
  }

  /** What ResumeCompletesIff asks of the profile, in its fields. */
  lemma ResumableIsOfProfile(s: State, profile: Option<Snapshot>)
    requires ValidState(s)
    ensures ResumableProfile(s, profile) <==>
      if profile.Some? then OfProfile(s, profile.value) else s.phase == ReceiptStored
  {
  }

  // ---------------------------------------------------------------- each step on its own

  /** The profile file has an association and well-formed identifiers. */
  predicate Whole(p: Snapshot) {
    && p.settings.associationId.Some? && ValidUuid(p.settings.associationId.value)
    && ValidUuid(p.settings.workstationId) && ValidUuid(p.settings.profileId)
  }

  /**
   With nothing unfinished, only a fresh start goes on, and only on a complete profile and a
   well-formed id; an attempt is resumed on its own profile only, a stored receipt in any case.
   */
  lemma StartContract(w: World, resumeOnly: bool, id: string)
    requires w.pc.Idle?
    ensures var w' := Next(w, Start(resumeOnly, id));
      match ReadPending(w.dir)
      case Refused(_) => w' == w
      case Ok(None) =>
        w' == if !resumeOnly && w.profile.Some? && Whole(w.profile.value) && ValidUuid(id)
              then w.(pc := Stopping(w.profile.value, Attempt(w.profile.value, id).request)) else w
      case Ok(Some(s)) =>
        && (s.phase != Attempted ==> w' == w.(pc := ResumeStopping(s, None)))
        && (s.phase == Attempted ==>
              w' == if w.profile.Some? && Whole(w.profile.value) && OfProfile(s, w.profile.value)
                    then w.(pc := ResumeStopping(s, w.profile)) else w)
  {
  }

  /** The SDK may be stopped for this: it runs on the profile, was stopped for it, or was never there to resume from. */
  predicate MayStop(w: World) {
    match w.pc
    case Stopping(p, _) => SdkBound(w.process, p)
    case ResumeStopping(s, target) =>
      if w.process.engine.Some? then target.Some? && SdkBound(w.process, target.value)
      else !w.process.sdkEverCreated || (w.process.attested.Some? && OfProfile(s, w.process.attested.value))
    case _ => false
  }

  /** A stop goes on exactly when it may and ended idle; an engine it stopped is gone, and attested for its profile. */
  lemma StopContract(w: World, idle: bool)
    requires w.pc.Stopping? || w.pc.ResumeStopping?
    ensures var w' := Next(w, Stop(idle));
      && (if MayStop(w) && idle then w'.pc == (if w.pc.Stopping? then Stopped(w.pc.original, w.pc.request)
                                               else ResumeStopped(w.pc.state))
          else w'.pc == Idle)
      && (MayStop(w) && idle && w.process.engine.Some? ==>
            w'.process.engine.None?
            && w'.process.attested == if w.pc.Stopping? then Some(w.pc.original) else w.pc.target)
      && (MayStop(w) && !idle && w.process.engine.Some? ==> w'.process == w.process.(attested := None))
      && (w.process.engine.None? || !MayStop(w) ==> w'.process == w.process)
      && w' == w.(pc := w'.pc, process := w'.process)
  {
  }

  /**
   After the stop, ATTEMPTED is written exactly if nothing was cancelled, the profile is unchanged
   and the store lets it begin.
   */
  lemma StoppedContract(w: World, p: Snapshot, request: Request, cancelled: bool)
    requires w.pc == Stopped(p, request)
    ensures var s := State(1, Attempted, request, p.settings.apiBase, p.sha, None);
      Next(w, Proceed(cancelled)) ==
        if !cancelled && w.profile == Some(p) && Whole(p)
           && Perform(w.dir, BeginOp(request, p.settings.apiBase, p.sha, true)).0 != w.dir
        then w.(dir := Dir(w.dir.files, w.dir.temps + 1), pc := Beginning(s)) else w.(pc := Idle)
  {
  }

  /** The request is sent exactly while the profile is the attempted one. */
  lemma PostContract(w: World, s: State, cancelled: bool)
    requires w.pc == Begun(s) && ValidState(s)
    ensures Next(w, Proceed(cancelled)) ==
      if w.profile.Some? && OfProfile(s, w.profile.value)
      then w.(posts := w.posts + [s.request.requestId], pc := Posted(s)) else w.(pc := Idle)
  {
  }

  /** A resumed attempt looks its receipt up on the attempted profile only; a stored receipt needs no profile. */
  lemma LookupContract(w: World, s: State, cancelled: bool)
    requires w.pc == ResumeStopped(s) && ValidState(s)
    ensures Next(w, Proceed(cancelled)) ==
      if s.phase != Attempted then w.(pc := Received(s))
      else if w.profile.Some? && OfProfile(s, w.profile.value) then w.(pc := LookingUp(s))
      else w.(pc := Idle)
  {
  }

  /**
   Behind a stored receipt, unless cancelled, the attempted profile is deleted, an absent one taken
   as deleted, another kept.
   */
  lemma DeletionContract(w: World, s: State, cancelled: bool)
    requires w.pc == Received(s) && ValidState(s) && s.phase == ReceiptStored
    ensures Next(w, Proceed(cancelled)) ==
      if cancelled then w.(pc := Idle)
      else if w.profile.None? then w.(pc := Removed(s))
      else if OfProfile(s, w.profile.value)
      then w.(profile := None, deletions := w.deletions + [Deletion(w.profile.value, s)], pc := Removed(s))
      else w.(pc := Idle)
  {
  }

  /**
   What a crash leaves, and when the profile may be rewritten: at any time but between its deletion
   and the completion.
   */
  lemma EnvironmentContract(w: World, p: Option<Snapshot>)
    ensures Next(w, Crash) == w.(pc := Idle, process := Process(None, None, false, None))
    ensures Next(w, ProfileWritten(p)) == if w.pc.Removed? || w.pc.Completing? then w else w.(profile := p)
  {
  }
}
