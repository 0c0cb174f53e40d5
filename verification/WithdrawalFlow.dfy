/**
 The withdrawal of a workstation profile: stop the SDK, persist the attempt, POST once,
 store the receipt, compare and delete the profile, complete.  Each value of `Pc` is a
 point at which the process may wait or crash; the environment may rewrite the profile at
 any of them except between the deletion and the completion, which the maintenance lease
 protects.
 */
module WithdrawalFlow {
  import opened Prelude
  import opened WithdrawalStore

  datatype Settings = Settings(apiBase: Endpoint, associationId: Option<string>, workstationId: string,
                               profileId: string, other: string)
  datatype Snapshot = Snapshot(settings: Settings, sha: string)

  /** What the process remembers about the SDK. */
  datatype Process = Process(engine: Option<Settings>, runtime: Option<Settings>, sdkEverCreated: bool,
                             attested: Option<Snapshot>)

  function FreshProcess(): Process { Process(None, None, false, None) }

  datatype Pc =
    | Idle
    | Stopping(original: Snapshot, request: Request)
    | Stopped(original: Snapshot, request: Request)
    | Beginning(state: State)                          // temporary file of ATTEMPTED flushed
    | Begun(state: State)                              // ATTEMPTED durable, nothing sent
    | Posted(state: State)                             // request sent, reply awaited
    | ResumeStopping(state: State, target: Option<Snapshot>)
    | ResumeStopped(state: State)
    | LookingUp(state: State)
    | Storing(state: State)                            // temporary file of RECEIPT_STORED flushed
    | Received(state: State)                           // RECEIPT_STORED durable
    | Removed(state: State)                            // profile absent
    | Completing(state: State)                         // temporary file of COMPLETED flushed

  datatype Deletion = Deletion(snapshot: Snapshot, state: State)

  datatype World = World(dir: Dir, profile: Option<Snapshot>, process: Process, pc: Pc,
                         posts: seq<string>, deletions: seq<Deletion>)

  datatype Event =
    | Start(resumeOnly: bool, newId: string)
    | Stop(idle: bool)                                 // outcome of the attested SDK stop
    | Proceed(cancelled: bool)
    | Reply(receipt: Option<Receipt>)                  // None: the call failed
    | Crash
    | ProfileWritten(profile: Option<Snapshot>)
    | ProcessChanged(process: Process)

  // ---------------------------------------------------------------- checks

  function RequestFor(s: Settings, id: string): Option<Request> {
    if s.associationId.None? then None
    else
      var r := Request(id, s.associationId.value, s.workstationId, s.profileId);
      if ValidRequest(r) then Some(r) else None
  }

  /** The profile file decodes and carries an association. */
  predicate Capturable(p: Option<Snapshot>) {
    && p.Some? && p.value.settings.associationId.Some? && ValidUuid(p.value.settings.associationId.value)
    && ValidUuid(p.value.settings.workstationId) && ValidUuid(p.value.settings.profileId)
  }

  /** RequireBoundProfile accepts; Remove makes the same comparisons. */
  predicate Bound(s: State, p: Snapshot) {
    && p.sha == s.sha && p.settings.associationId == Some(s.request.associationId)
    && p.settings.workstationId == s.request.workstationId && p.settings.profileId == s.request.profileId
    && p.settings.apiBase == s.origin
  }

  /** StopForWithdrawalAsync: the answer and the process afterwards. */
  function StopFor(p: Process, target: Option<Snapshot>, pending: Option<State>, idle: bool): (bool, Process) {
    if p.engine.Some? then
      if target.None? || p.runtime != Some(target.value.settings)
          || p.engine != Some(target.value.settings) then (false, p)
      else if !idle then (false, p.(attested := None))
      else (true, p.(engine := None, attested := target))
    else
      var allowed :=
        if pending.None? then target.Some? && p.attested == target
        else !p.sdkEverCreated || (p.attested.Some? && Bound(pending.value, p.attested.value));
      (allowed && idle, p)
  }

  // ---------------------------------------------------------------- steps

  function Abort(w: World): World { w.(pc := Idle) }

  ghost function AtStart(w: World, resumeOnly: bool, newId: string): World {
    match ReadPending(w.dir)
    case Refused(_) => w
    case Ok(None) =>
      if resumeOnly || !Capturable(w.profile) then w
      else
        var r := RequestFor(w.profile.value.settings, newId);
        if r.None? then w else w.(pc := Stopping(w.profile.value, r.value))
    case Ok(Some(s)) =>
      if s.phase == Attempted then
        if Capturable(w.profile) && Bound(s, w.profile.value) then w.(pc := ResumeStopping(s, w.profile)) else w
      else w.(pc := ResumeStopping(s, None))
  }

  function AtStop(w: World, idle: bool): World {
    match w.pc
    case Stopping(original, request) =>
      var (ok, process) := StopFor(w.process, Some(original), None, idle);
      w.(process := process, pc := if ok then Stopped(original, request) else Idle)
    case ResumeStopping(s, target) =>
      var (ok, process) := StopFor(w.process, target, Some(s), idle);
      w.(process := process, pc := if ok then ResumeStopped(s) else Idle)
    case _ => w
  }

  /** A flushed temporary file is renamed; the rename never overwrites. */
  function AtRename(w: World, s: State, then_: Pc): World {
    if w.dir.temps == 0 || NameOf(s) in w.dir.files then Abort(w)
    else w.(dir := Renamed(w.dir, s), pc := then_)
  }

  ghost function Flush(w: World, a: Advance, publishing: State -> Pc, done: State -> Pc): World {
    match a
    case Fails(_) => Abort(w)
    case Unchanged(s) => w.(pc := done(s))
    case Publish(s) => w.(dir := w.dir.(temps := w.dir.temps + 1), pc := publishing(s))
  }

  ghost function AtProceed(w: World, cancelled: bool): World {
    match w.pc
    case Stopped(original, request) =>
      var s := State(1, Attempted, request, original.settings.apiBase, original.sha, None);
      if !Capturable(w.profile) || w.profile.value != original || cancelled || BeginCheck(w.dir, s).Some? then Abort(w)
      else w.(dir := w.dir.(temps := w.dir.temps + 1), pc := Beginning(s))
    case Beginning(s) => AtRename(w, s, Begun(s))
    case Begun(s) =>
      if !Capturable(w.profile) || !Bound(s, w.profile.value) then Abort(w)
      else w.(posts := w.posts + [s.request.requestId], pc := Posted(s))
    case ResumeStopped(s) =>
      if s.phase == Attempted then
        if !Capturable(w.profile) || !Bound(s, w.profile.value) then Abort(w) else w.(pc := LookingUp(s))
      else w.(pc := Received(s))
    case Storing(s) => AtRename(w, s, Received(s))
    case Received(s) =>
      if s.phase != ReceiptStored || cancelled || !ValidState(s) then Abort(w)
      else if w.profile.None? then w.(pc := Removed(s))
      else if !Capturable(w.profile) || !Bound(s, w.profile.value) then Abort(w)
      else w.(profile := None, deletions := w.deletions + [Deletion(w.profile.value, s)], pc := Removed(s))
    case Removed(s) =>
      Flush(w, AdvanceCheck(w.dir, s, Completed, s.receipt), x => Completing(x), x => Idle)
    case Completing(s) => AtRename(w, s, Idle)
    case _ => w
  }

  ghost function AtReply(w: World, receipt: Option<Receipt>): World {
    match w.pc
    case Posted(s) => StoreReply(w, s, receipt)
    case LookingUp(s) => StoreReply(w, s, receipt)
    case _ => w
  }

  ghost function StoreReply(w: World, s: State, receipt: Option<Receipt>): World {
    if receipt.None? || !ReceiptMatches(receipt.value, s.request) then Abort(w)
    else Flush(w, AdvanceCheck(w.dir, s, ReceiptStored, receipt), x => Storing(x), x => Received(x))
  }

  predicate Leased(pc: Pc) { pc.Removed? || pc.Completing? }

  ghost function Next(w: World, e: Event): World {
    match e
    case Start(resumeOnly, newId) => if w.pc.Idle? then AtStart(w, resumeOnly, newId) else w
    case Stop(idle) => AtStop(w, idle)
    case Proceed(cancelled) => AtProceed(w, cancelled)
    case Reply(receipt) => AtReply(w, receipt)
    case Crash => w.(pc := Idle, process := FreshProcess())
    case ProfileWritten(p) => if Leased(w.pc) then w else w.(profile := p)
    case ProcessChanged(p) => if w.pc.Idle? then w.(process := p) else w
  }

  ghost function Run(w: World, events: seq<Event>): World
    decreases |events|
  {
    if events == [] then w else Run(Next(w, events[0]), events[1..])
  }

  function Initial(profile: Option<Snapshot>): World {
    World(Dir(map[], 0), profile, FreshProcess(), Idle, [], [])
  }

  // ---------------------------------------------------------------- invariant

  predicate Publishing(pc: Pc) { pc.Beginning? || pc.Storing? || pc.Completing? }

  /** The state is published and is the last phase of its request. */
  ghost predicate Current(files: Files, s: State) {
    && NameOf(s) in files && files[NameOf(s)] == s && ValidState(s)
    && Name(s.request.requestId, Rank(s.phase) + 1) !in files
  }

  ghost predicate PcInv(w: World) {
    match w.pc
    case Idle => true
    case Stopping(original, request) =>
      ValidRequest(request) && RequestFor(original.settings, request.requestId) == Some(request)
    case Stopped(original, request) =>
      ValidRequest(request) && RequestFor(original.settings, request.requestId) == Some(request)
    case Beginning(s) => s.phase == Attempted && Addable(w.dir.files, s)
    case Begun(s) => s.phase == Attempted && Current(w.dir.files, s) && s.request.requestId !in w.posts
    case Posted(s) => s.phase == Attempted && Current(w.dir.files, s)
    case ResumeStopping(s, _) => s.phase != Completed && Current(w.dir.files, s)
    case ResumeStopped(s) => s.phase != Completed && Current(w.dir.files, s)
    case LookingUp(s) => s.phase == Attempted && Current(w.dir.files, s)
    case Storing(s) => s.phase == ReceiptStored && Addable(w.dir.files, s)
    case Received(s) => s.phase == ReceiptStored && Current(w.dir.files, s)
    case Removed(s) => s.phase == ReceiptStored && Current(w.dir.files, s) && w.profile == None
    case Completing(s) => s.phase == Completed && Addable(w.dir.files, s) && w.profile == None
  }

  /** A deletion is backed by a durable receipt for exactly the deleted file and identity. */
  ghost predicate Justified(files: Files, d: Deletion) {
    && d.state.phase == ReceiptStored && NameOf(d.state) in files && files[NameOf(d.state)] == d.state
    && d.state.receipt.Some? && ReceiptMatches(d.state.receipt.value, d.state.request) && Bound(d.state, d.snapshot)
  }

  ghost predicate Inv(w: World) {
    && Sound(w.dir.files)
    && (if Publishing(w.pc) then w.dir.temps == 1 else if w.pc.Idle? then w.dir.temps <= 1 else w.dir.temps == 0)
    && PcInv(w) && Traced(w.dir.files, w.posts, w.deletions)
  }

  /** The request ids sent are distinct and durable, and the deletions justified. */
  ghost predicate Traced(files: Files, posts: seq<string>, deletions: seq<Deletion>) {
    && (forall i, j :: 0 <= i < j < |posts| ==> posts[i] != posts[j])
    && (forall id :: id in posts ==> Name(id, 1) in files)
    && (forall d :: d in deletions ==> Justified(files, d))
  }

  lemma TraceSurvives(files: Files, s: State, posts: seq<string>, deletions: seq<Deletion>)
    requires Traced(files, posts, deletions) && NameOf(s) !in files
    ensures Traced(files[NameOf(s) := s], posts, deletions)
  {
    forall d | d in deletions ensures Justified(files[NameOf(s) := s], d) {
      assert Justified(files, d);
    }
  }

  lemma RenamedPcInv(w: World, s: State, next: Pc)
    requires Inv(w) && Publishing(w.pc) && s == w.pc.state
    requires next == match w.pc case Beginning(_) => Begun(s) case Storing(_) => Received(s) case _ => Idle
    ensures NameOf(s) !in w.dir.files && AtRename(w, s, next).dir.files == w.dir.files[NameOf(s) := s]
    ensures PcInv(AtRename(w, s, next))
  {
    NamesOf(w.dir.files, s.request.requestId);
    AddedIsCurrent(w.dir.files, s);
  }

  lemma AddedIsCurrent(files: Files, s: State)
    requires Sound(files) && Addable(files, s)
    ensures Current(files[NameOf(s) := s], s)
  {
    NamesOf(files, s.request.requestId);
    assert Name(s.request.requestId, Rank(s.phase)) == NameOf(s);
  }

  lemma RenameKeepsInv(w: World, s: State, next: Pc)
    requires Inv(w) && Publishing(w.pc) && s == w.pc.state && !Publishing(next)
    requires next == match w.pc case Beginning(_) => Begun(s) case Storing(_) => Received(s) case _ => Idle
    ensures Inv(AtRename(w, s, next))
    ensures NameOf(s) !in w.dir.files && AtRename(w, s, next).dir.files == w.dir.files[NameOf(s) := s]
  {
    RenamedPcInv(w, s, next);
    AddKeepsSound(w.dir.files, s);
    TraceSurvives(w.dir.files, s, w.posts, w.deletions);
  }

  lemma FlushKeepsInv(w: World, s: State, phase: Phase, receipt: Option<Receipt>)
    requires Inv(w) && w.dir.temps == 0 && Current(w.dir.files, s)
    requires (s.phase == Attempted && phase == ReceiptStored)
        || (s.phase == ReceiptStored && phase == Completed && receipt == s.receipt)
    ensures var a := AdvanceCheck(w.dir, s, phase, receipt);
      && (a.Publish? ==> a.next.phase == phase && Addable(w.dir.files, a.next))
      && !a.Unchanged?
  {
    var id := s.request.requestId;
    assert id in Ids(w.dir.files) by { assert NameOf(s).requestId == id; }
    SoundIsReadable(w.dir, id);
    LatestOf(w.dir.files, id);
    NamesOf(w.dir.files, id);
    if AdvanceCheck(w.dir, s, phase, receipt).Publish? {
      AdvanceIsAddable(w.dir, s, phase, receipt);
    }
    CurrentIsLatest(w.dir.files, s);
  }

  lemma CurrentIsLatest(files: Files, s: State)
    requires Sound(files) && Current(files, s)
    ensures s.request.requestId in Ids(files) && Latest(files, s.request.requestId) == s
  {
    var id := s.request.requestId;
    assert NameOf(s).requestId == id;
    assert ChainOk(files, id);
    NamesOf(files, id);
  }

  lemma StartKeepsInv(w: World, resumeOnly: bool, newId: string)
    requires Inv(w) && w.pc.Idle?
    ensures Inv(AtStart(w, resumeOnly, newId))
  {
    if w.dir.temps == 0 {
      SoundIsReadable(w.dir, "");
      if ReadPending(w.dir).value.Some? {
        LatestOf(w.dir.files, ReadPending(w.dir).value.value.request.requestId);
      }
    } else {
      TempBlocksReading(w.dir);
    }
  }

  lemma TempBlocksReading(d: Dir)
    requires d.temps > 0
    ensures ReadPending(d) == Refused(PartialWrite)
  {
    if Unfinished(d.files) != {} {
      var x :| x in Unfinished(d.files) && ReadPending(d) == ReadOne(d, x);
    }
  }

  lemma BeginKeepsInv(w: World, cancelled: bool)
    requires Inv(w) && w.pc.Stopped?
    ensures Inv(AtProceed(w, cancelled))
  {
    var s := State(1, Attempted, w.pc.request, w.pc.original.settings.apiBase, w.pc.original.sha, None);
    if BeginCheck(w.dir, s) == None {
      BeginIsAddable(w.dir, s);
    }
  }

  lemma OnePostMore(files: Files, posts: seq<string>, deletions: seq<Deletion>, id: string)
    requires Traced(files, posts, deletions) && id !in posts && Name(id, 1) in files
    ensures Traced(files, posts + [id], deletions)
  {
    var more := posts + [id];
    assert forall i :: 0 <= i < |posts| ==> more[i] == posts[i] && posts[i] in posts;
  }

  lemma PostKeepsInv(w: World, cancelled: bool)
    requires Inv(w) && w.pc.Begun?
    ensures Inv(AtProceed(w, cancelled))
  {
    var s, w' := w.pc.state, AtProceed(w, cancelled);
    assert NameOf(s) == Name(s.request.requestId, 1);
    if w' != Abort(w) {
      OnePostMore(w.dir.files, w.posts, w.deletions, s.request.requestId);
      assert w' == w.(posts := w.posts + [s.request.requestId], pc := Posted(s));
    }
  }

  lemma RemoveKeepsInv(w: World, cancelled: bool)
    requires Inv(w) && w.pc.Received?
    ensures Inv(AtProceed(w, cancelled))
  {
    var s, w' := w.pc.state, AtProceed(w, cancelled);
    if w'.deletions != w.deletions {
      OneDeletionMore(w.dir.files, w.posts, w.deletions, Deletion(w.profile.value, s));
      assert w' == w.(profile := None, deletions := w.deletions + [Deletion(w.profile.value, s)], pc := Removed(s));
    } else {
      assert w' == Abort(w) || w' == w.(pc := Removed(s));
    }
  }

  lemma OneDeletionMore(files: Files, posts: seq<string>, deletions: seq<Deletion>, d: Deletion)
    requires Traced(files, posts, deletions) && Justified(files, d)
    ensures Traced(files, posts, deletions + [d])
  {
  }

  lemma ProceedKeepsInv(w: World, cancelled: bool)
    requires Inv(w)
    ensures Inv(AtProceed(w, cancelled))
  {
    if Publishing(w.pc) {
      var s := w.pc.state;
      RenameKeepsInv(w, s, if w.pc.Beginning? then Begun(s) else if w.pc.Storing? then Received(s) else Idle);
    } else if w.pc.Stopped? {
      BeginKeepsInv(w, cancelled);
    } else if w.pc.Begun? {
      PostKeepsInv(w, cancelled);
    } else if w.pc.Received? {
      RemoveKeepsInv(w, cancelled);
    } else if w.pc.Removed? {
      CompleteKeepsInv(w, cancelled);
    } else {
      ResumeKeepsInv(w, cancelled);
    }
  }

  lemma ResumeKeepsInv(w: World, cancelled: bool)
    requires Inv(w) && !Publishing(w.pc) && !w.pc.Stopped? && !w.pc.Begun? && !w.pc.Received? && !w.pc.Removed?
    ensures Inv(AtProceed(w, cancelled))
  {
    var w' := AtProceed(w, cancelled);
    assert w' == w.(pc := w'.pc);
    if w.pc.ResumeStopped? {
      assert w'.pc == Idle || w'.pc == if w.pc.state.phase == Attempted then LookingUp(w.pc.state)
          else Received(w.pc.state);
    } else {
      assert w' == w;
    }
  }

  lemma CompleteKeepsInv(w: World, cancelled: bool)
    requires Inv(w) && w.pc.Removed?
    ensures Inv(AtProceed(w, cancelled))
  {
    FlushKeepsInv(w, w.pc.state, Completed, w.pc.state.receipt);
  }

  lemma ReplyKeepsInv(w: World, receipt: Option<Receipt>)
    requires Inv(w)
    ensures Inv(AtReply(w, receipt))
  {
    if w.pc.Posted? || w.pc.LookingUp? {
      FlushKeepsInv(w, w.pc.state, ReceiptStored, receipt);
    } else {
      assert AtReply(w, receipt) == w;
    }
  }

  lemma NextKeepsInv(w: World, e: Event)
    requires Inv(w)
    ensures Inv(Next(w, e))
  {
    match e
    case Start(resumeOnly, newId) =>
      if w.pc.Idle? {
        StartKeepsInv(w, resumeOnly, newId);
      }
    case Proceed(cancelled) => ProceedKeepsInv(w, cancelled);
    case Reply(receipt) => ReplyKeepsInv(w, receipt);
    case Stop(idle) => StopKeepsInv(w, idle);
    case _ => OutsideKeepsInv(w, e);
  }

  lemma StopKeepsInv(w: World, idle: bool)
    requires Inv(w)
    ensures Inv(AtStop(w, idle))
  {
  }

  lemma OutsideKeepsInv(w: World, e: Event)
    requires Inv(w) && (e.Crash? || e.ProfileWritten? || e.ProcessChanged?)
    ensures Inv(Next(w, e))
  {
  }

  lemma {:induction false} RunKeepsInv(w: World, events: seq<Event>)
    requires Inv(w)
    ensures Inv(Run(w, events))
    decreases |events|
  {
    if events != [] {
      NextKeepsInv(w, events[0]);
      RunKeepsInv(Next(w, events[0]), events[1..]);
    }
  }

  // ---------------------------------------------------------------- main results

  /**
   Over every run, with crashes and restarts anywhere, a request id is POSTed at most once, and
   never before it is durable.
   */
  lemma PostedAtMostOnce(profile: Option<Snapshot>, events: seq<Event>, i: nat, j: nat)
    requires var w := Run(Initial(profile), events); i < |w.posts| && j < |w.posts|
    ensures var w := Run(Initial(profile), events);
      && (w.posts[i] == w.posts[j] ==> i == j)
      && Name(w.posts[i], 1) in w.dir.files
  {
    RunKeepsInv(Initial(profile), events);
    var w := Run(Initial(profile), events);
    assert w.posts[i] in w.posts;
  }

  /**
   Over every run, the agent removes the profile only with a durable matching receipt, and completes
   only once it is gone.
   */
  lemma RemovalAndCompletionAreGuarded(profile: Option<Snapshot>, events: seq<Event>, e: Event)
    ensures var w := Run(Initial(profile), events); var w' := Next(w, e);
      && (forall d :: d in w'.deletions ==> Justified(w'.dir.files, d))
      && (w.profile.Some? && w'.profile.None? && !e.ProfileWritten? ==>
            exists s :: w'.deletions == w.deletions + [Deletion(w.profile.value, s)]
                && Justified(w.dir.files, Deletion(w.profile.value, s)))
      && (forall id :: Name(id, 3) in w'.dir.files && Name(id, 3) !in w.dir.files ==>
          w.profile == None && w'.profile == None)
  {
    var w := Run(Initial(profile), events);
    RunKeepsInv(Initial(profile), events);
    NextKeepsInv(w, e);
    OnlyCompletingCompletes(w, e);
    if w.profile.Some? && Next(w, e).profile.None? && !e.ProfileWritten? {
      OnlyRemovalRemoves(w, e);
    }
  }

  lemma OnlyRemovalRemoves(w: World, e: Event)
    requires Inv(w) && w.profile.Some? && Next(w, e).profile.None? && !e.ProfileWritten?
    ensures w.pc.Received? && Next(w, e).deletions == w.deletions + [Deletion(w.profile.value, w.pc.state)]
    ensures Justified(w.dir.files, Deletion(w.profile.value, w.pc.state))
  {
    OnlyProceedRemoves(w, e);
    var s := w.pc.state;
    assert Next(w, e) == w.(profile := None, deletions := w.deletions + [Deletion(w.profile.value, s)],
                            pc := Removed(s));
  }

  lemma OnlyProceedRemoves(w: World, e: Event)
    requires w.profile.Some? && Next(w, e).profile.None? && !e.ProfileWritten?
    ensures e.Proceed? && w.pc.Received?
  {
  }

  /** Files appear only when a flushed temporary file is renamed. */
  lemma OnlyRenamesAdd(w: World, e: Event)
    requires !(e.Proceed? && Publishing(w.pc))
    ensures Next(w, e).dir.files == w.dir.files
  {
  }

  lemma OnlyCompletingCompletes(w: World, e: Event)
    requires Inv(w)
    ensures forall id :: Name(id, 3) in Next(w, e).dir.files && Name(id, 3) !in w.dir.files ==>
        w.profile == None && Next(w, e).profile == None
  {
    if e.Proceed? && Publishing(w.pc) {
      var s := w.pc.state;
      RenameKeepsInv(w, s, if w.pc.Beginning? then Begun(s) else if w.pc.Storing? then Received(s) else Idle);
      assert forall id :: Name(id, 3) == NameOf(s) ==> s.phase == Completed;
    } else {
      OnlyRenamesAdd(w, e);
    }
  }

  /**
   A crash inside a publication leaves a temporary file, and then no run changes the store or sends
   a request again.
   */
  lemma {:induction false} InterruptedPublicationFreezes(w: World, events: seq<Event>)
    requires w.pc.Idle? && w.dir.temps > 0
    ensures var w' := Run(w, events);
      w'.dir == w.dir && w'.posts == w.posts && w'.deletions == w.deletions && w'.pc.Idle?
    decreases |events|
  {
    if events != [] {
      TempBlocksReading(w.dir);
      InterruptedPublicationFreezes(Next(w, events[0]), events[1..]);
    }
  }

  lemma CrashWhilePublishingFreezes(profile: Option<Snapshot>, events: seq<Event>, later: seq<Event>)
    requires Publishing(Run(Initial(profile), events).pc)
    ensures var w := Run(Initial(profile), events); var end := Run(Next(w, Crash), later);
      end.dir == w.dir && end.dir.temps > 0 && end.posts == w.posts && end.deletions == w.deletions
  {
    RunKeepsInv(Initial(profile), events);
    InterruptedPublicationFreezes(Next(Run(Initial(profile), events), Crash), later);
  }

  // ---------------------------------------------------------------- resuming

  /** A restart and one resume whose lookup answers `receipt`. */
  function ResumeScript(phase: Phase, receipt: Receipt): seq<Event> {
    if phase == Attempted then
      [Crash, Start(true, ""), Stop(true), Proceed(false), Reply(Some(receipt)), Proceed(false), Proceed(false),
       Proceed(false), Proceed(false)]
    else
      [Crash, Start(true, ""), Stop(true), Proceed(false), Proceed(false), Proceed(false), Proceed(false)]
  }

  /** The profile is the attempted one, or it is already gone after the receipt was stored. */
  predicate ResumableProfile(s: State, profile: Option<Snapshot>) {
    (Capturable(profile) && Bound(s, profile.value)) || (s.phase == ReceiptStored && profile == None)
  }

  lemma RunStep(w: World, events: seq<Event>)
    requires events != []
    ensures Run(w, events) == Run(Next(w, events[0]), events[1..])
  {
  }

  lemma {:induction false} RunSplit(w: World, first: seq<Event>, second: seq<Event>)
    ensures Run(w, first + second) == Run(Run(w, first), second)
    decreases |first|
  {
    if first == [] {
      assert first + second == second;
    } else {
      assert (first + second)[1..] == first[1..] + second;
      RunSplit(Next(w, first[0]), first[1..], second);
    }
  }

  /** The profile after the compare-and-delete step, which either removes it or gives up. */
  lemma RemovalStep(w: World)
    requires Inv(w) && w.pc.Received?
    ensures var s, w1 := w.pc.state, Next(w, Proceed(false));
      && w1.dir == w.dir && w1.posts == w.posts
      && (if ResumableProfile(s, w.profile) then w1.pc == Removed(s) && w1.profile == None else w1.pc == Idle)
  {
  }

  lemma FlushStep(w: World, next: State)
    requires w.dir.temps == 0
    requires match w.pc
      case Removed(s) => AdvanceCheck(w.dir, s, Completed, s.receipt) == Publish(next)
      case _ => false
    ensures Next(w, Proceed(false)) == w.(dir := Dir(w.dir.files, 1), pc := Completing(next))
  {
  }

  lemma RenameStep(w: World)
    requires w.dir.temps == 1 && Publishing(w.pc) && NameOf(w.pc.state) !in w.dir.files
    ensures var s := w.pc.state;
      Next(w, Proceed(false)) == w.(dir := Dir(w.dir.files[NameOf(s) := s], 0),
                                    pc := match w.pc case Beginning(_) => Begun(s) case Storing(_) => Received(s)
                                        case _ => Idle)
  {
  }

  lemma CompletionSteps(w: World, s: State)
    requires Sound(w.dir.files) && w.dir.temps == 0 && w.pc == Removed(s) && s.phase == ReceiptStored
    requires Current(w.dir.files, s)
    ensures Next(Next(w, Proceed(false)), Proceed(false)) ==
      w.(dir := Dir(w.dir.files[Name(s.request.requestId, 3) := s.(phase := Completed)], 0), pc := Idle)
  {
    var next := s.(phase := Completed);
    CompletionPublishes(w.dir, s);
    FlushStep(w, next);
    assert NameOf(next) == Name(s.request.requestId, 3);
    RenameStep(w.(dir := Dir(w.dir.files, 1), pc := Completing(next)));
  }

  lemma RunThree(w: World, a: Event, b: Event, c: Event)
    ensures Run(w, [a, b, c]) == Next(Next(Next(w, a), b), c)
  {
    assert [a, b, c][1..] == [b, c] && [b, c][1..] == [c] && [c][1..] == [];
    RunStep(w, [a, b, c]);
    RunStep(Next(w, a), [b, c]);
    RunStep(Next(Next(w, a), b), [c]);
  }

  /** From a stored receipt: remove, then publish the completion. */
  lemma FinishFromReceipt(w: World)
    requires Inv(w) && w.pc.Received?
    ensures var s, end := w.pc.state, Run(w, [Proceed(false), Proceed(false), Proceed(false)]);
      && end.posts == w.posts && end.pc.Idle?
      && (ResumableProfile(s, w.profile) ==>
            && end.profile == None
            && end.dir == Dir(w.dir.files[Name(s.request.requestId, 3) := s.(phase := Completed)], 0))
      && (!ResumableProfile(s, w.profile) ==> end.dir == w.dir)
  {
    RunThree(w, Proceed(false), Proceed(false), Proceed(false));
    RemovalStep(w);
    var w1 := Next(w, Proceed(false));
    if ResumableProfile(w.pc.state, w.profile) {
      CompletionSteps(w1, w.pc.state);
    } else {
      assert Next(w1, Proceed(false)) == w1;
    }
  }

  lemma CompletionPublishes(d: Dir, s: State)
    requires Sound(d.files) && d.temps == 0 && s.phase == ReceiptStored && Current(d.files, s)
    ensures AdvanceCheck(d, s, Completed, s.receipt) == Publish(s.(phase := Completed))
  {
    CurrentIsLatest(d.files, s);
    SoundIsReadable(d, s.request.requestId);
  }

  lemma ReceiptPublishes(d: Dir, s: State, receipt: Receipt)
    requires Sound(d.files) && d.temps == 0 && s.phase == Attempted && Current(d.files, s)
    requires ReceiptMatches(receipt, s.request)
    ensures AdvanceCheck(d, s, ReceiptStored, Some(receipt))
        == Publish(s.(phase := ReceiptStored, receipt := Some(receipt)))
  {
    CurrentIsLatest(d.files, s);
    SoundIsReadable(d, s.request.requestId);
  }

  /** A fresh process may resume: no SDK was created, so nothing has to be attested. */
  lemma FreshProcessMayResume(w: World, s: State, target: Option<Snapshot>)
    requires w.process == FreshProcess() && w.pc == ResumeStopping(s, target)
    ensures Next(w, Stop(true)) == w.(pc := ResumeStopped(s))
  {
  }

  lemma ResumeStart(w: World, s: State)
    requires w.pc.Idle? && ReadPending(w.dir) == Ok(Some(s))
    ensures Next(w, Start(true, "")) ==
      if s.phase != Attempted then w.(pc := ResumeStopping(s, None))
      else if Capturable(w.profile) && Bound(s, w.profile.value) then w.(pc := ResumeStopping(s, w.profile))
      else w
  {
  }

  function Restarted(w: World): World {
    w.(pc := Idle, process := FreshProcess())
  }

  predicate ResumeMayStart(w: World, s: State) {
    s.phase != Attempted || (Capturable(w.profile) && Bound(s, w.profile.value))
  }

  lemma StartAndStop(w: World, s: State)
    requires w == Restarted(w) && ReadPending(w.dir) == Ok(Some(s))
    ensures Next(Next(w, Start(true, "")), Stop(true)) == if ResumeMayStart(w, s) then w.(pc := ResumeStopped(s)) else w
  {
    ResumeStart(w, s);
    if ResumeMayStart(w, s) {
      var target := if s.phase == Attempted then w.profile else None;
      FreshProcessMayResume(w.(pc := ResumeStopping(s, target)), s, target);
    } else {
      assert AtStop(w, true) == w;
    }
  }

  /** After the restart, the process that finds an unfinished request goes through the stop without an SDK. */
  lemma RestartReachesTheResume(w: World, s: State)
    requires ReadPending(w.dir) == Ok(Some(s))
    ensures Run(w, [Crash, Start(true, ""), Stop(true)]) ==
      if ResumeMayStart(w, s) then Restarted(w).(pc := ResumeStopped(s)) else Restarted(w)
  {
    RunThree(w, Crash, Start(true, ""), Stop(true));
    CrashStep(w);
    StartAndStop(Restarted(w), s);
  }

  lemma CrashStep(w: World)
    ensures Next(w, Crash) == Restarted(w)
  {
  }

  lemma ReplyStep(w: World, s: State, receipt: Receipt, next: State)
    requires w.dir.temps == 0 && w.pc == LookingUp(s) && ReceiptMatches(receipt, s.request)
    requires AdvanceCheck(w.dir, s, ReceiptStored, Some(receipt)) == Publish(next)
    ensures Next(w, Reply(Some(receipt))) == w.(dir := Dir(w.dir.files, 1), pc := Storing(next))
  {
  }

  lemma LookupStep(w: World, s: State)
    requires w.pc == ResumeStopped(s) && s.phase == Attempted && ResumableProfile(s, w.profile)
    ensures Next(w, Proceed(false)) == w.(pc := LookingUp(s))
  {
  }

  /** The lookup, its reply and the rename lead to a stored receipt. */
  lemma LookupStoresTheReceipt(w: World, s: State, receipt: Receipt)
    requires Sound(w.dir.files) && w.dir.temps == 0 && w.pc == ResumeStopped(s) && s.phase == Attempted
    requires Current(w.dir.files, s)
    requires ReceiptMatches(receipt, s.request) && ResumableProfile(s, w.profile)
    ensures var next := s.(phase := ReceiptStored, receipt := Some(receipt));
      Run(w, [Proceed(false), Reply(Some(receipt)), Proceed(false)]) ==
      w.(dir := Dir(w.dir.files[NameOf(next) := next], 0), pc := Received(next))
  {
    var next := s.(phase := ReceiptStored, receipt := Some(receipt));
    RunThree(w, Proceed(false), Reply(Some(receipt)), Proceed(false));
    LookupStep(w, s);
    ReceiptPublishes(w.dir, s, receipt);
    ReplyStep(w.(pc := LookingUp(s)), s, receipt, next);
    assert NameOf(next) == Name(s.request.requestId, 2) && NameOf(s) == Name(s.request.requestId, 1);
    RenameStep(w.(dir := Dir(w.dir.files, 1), pc := Storing(next)));
  }

  /** What the resume must achieve, and without which change. */
  ghost predicate ResumeOutcome(w: World, s: State, end: World) {
    && end.posts == w.posts
    && (ResumableProfile(s, w.profile) <==> Name(s.request.requestId, 3) in end.dir.files)
    && (ResumableProfile(s, w.profile) ==> end.profile == None && end.pc.Idle? && end.dir.temps == 0)
  }

  lemma PendingFacts(w: World, s: State)
    requires Inv(w) && w.dir.temps == 0 && ReadPending(w.dir) == Ok(Some(s))
    ensures s.phase != Completed && Current(w.dir.files, s) && Name(s.request.requestId, 3) !in w.dir.files
  {
    SoundIsReadable(w.dir, "");
    LatestOf(w.dir.files, s.request.requestId);
  }

  function Go(): Event { Proceed(false) }

  function Restart(): seq<Event> { [Crash, Start(true, ""), Stop(true)] }

  function LookupScript(receipt: Receipt): seq<Event> { [Go(), Reply(Some(receipt)), Go()] }

  lemma AttemptedScript(w: World, receipt: Receipt)
    ensures Run(w, ResumeScript(Attempted, receipt))
        == Run(Run(Run(w, Restart()), LookupScript(receipt)), [Go(), Go(), Go()])
  {
    var lookup, finish := LookupScript(receipt), [Go(), Go(), Go()];
    assert ResumeScript(Attempted, receipt) == Restart() + (lookup + finish);
    RunSplit(w, Restart(), lookup + finish);
    RunSplit(Run(w, Restart()), lookup, finish);
  }

  lemma AttemptedIsRefused(w: World, s: State, receipt: Receipt)
    requires ReadPending(w.dir) == Ok(Some(s)) && s.phase == Attempted && !ResumableProfile(s, w.profile)
    requires Name(s.request.requestId, 3) !in w.dir.files
    ensures ResumeOutcome(w, s, Run(w, ResumeScript(Attempted, receipt)))
  {
    RestartReachesTheResume(w, s);
    AttemptedScript(w, receipt);
    IdleStaysIdle(Restarted(w), LookupScript(receipt));
    IdleStaysIdle(Restarted(w), [Go(), Go(), Go()]);
  }

  lemma AttemptedReachesReceived(w: World, s: State, receipt: Receipt)
    requires Sound(w.dir.files) && Current(w.dir.files, s) && w.dir.temps == 0 && ReadPending(w.dir) == Ok(Some(s))
    requires s.phase == Attempted
    requires ReceiptMatches(receipt, s.request) && ResumableProfile(s, w.profile)
    ensures var next := s.(phase := ReceiptStored, receipt := Some(receipt));
      Run(Run(w, Restart()), LookupScript(receipt))
      == Restarted(w).(dir := Dir(w.dir.files[NameOf(next) := next], 0), pc := Received(next))
  {
    RestartReachesTheResume(w, s);
    LookupStoresTheReceipt(Restarted(w).(pc := ResumeStopped(s)), s, receipt);
  }

  lemma FinishAttempted(w: World, w6: World, s: State, next: State)
    requires w6 == Restarted(w).(dir := Dir(w.dir.files[NameOf(next) := next], 0), pc := Received(next)) && Inv(w6)
    requires s.phase == Attempted && next.phase == ReceiptStored && SameOperation(next, s)
    requires ResumableProfile(s, w.profile)
    ensures ResumeOutcome(w, s, Run(w6, [Go(), Go(), Go()]))
  {
    FinishFromReceipt(w6);
  }

  lemma ResumeAttempted(w: World, s: State, receipt: Receipt)
    requires Inv(w) && w.dir.temps == 0 && ReadPending(w.dir) == Ok(Some(s)) && ReceiptMatches(receipt, s.request)
    requires s.phase == Attempted
    ensures ResumeOutcome(w, s, Run(w, ResumeScript(s.phase, receipt)))
  {
    PendingFacts(w, s);
    if ResumableProfile(s, w.profile) {
      var next := s.(phase := ReceiptStored, receipt := Some(receipt));
      AttemptedReachesReceived(w, s, receipt);
      RunKeepsInv(w, Restart());
      RunKeepsInv(Run(w, Restart()), LookupScript(receipt));
      FinishAttempted(w, Run(Run(w, Restart()), LookupScript(receipt)), s, next);
      AttemptedScript(w, receipt);
    } else {
      AttemptedIsRefused(w, s, receipt);
    }
  }

  lemma StoredStep(w: World, s: State)
    requires w.pc == ResumeStopped(s) && s.phase == ReceiptStored
    ensures Run(w, [Go()]) == w.(pc := Received(s))
  {
    RunStep(w, [Go()]);
    assert [Go()][1..] == [];
    assert AtProceed(w, false) == w.(pc := Received(s));
  }

  lemma StoredReachesReceived(w: World, s: State)
    requires ReadPending(w.dir) == Ok(Some(s)) && s.phase == ReceiptStored
    ensures Run(Run(w, Restart()), [Go()]) == Restarted(w).(pc := Received(s))
  {
    RestartReachesTheResume(w, s);
    StoredStep(Restarted(w).(pc := ResumeStopped(s)), s);
  }

  lemma FinishStored(w: World, w4: World, s: State)
    requires w4 == Restarted(w).(pc := Received(s)) && Inv(w4) && Name(s.request.requestId, 3) !in w.dir.files
    ensures ResumeOutcome(w, s, Run(w4, [Go(), Go(), Go()]))
  {
    FinishFromReceipt(w4);
  }

  lemma StoredScript(w: World, receipt: Receipt)
    ensures Run(w, ResumeScript(ReceiptStored, receipt)) == Run(Run(Run(w, Restart()), [Go()]), [Go(), Go(), Go()])
  {
    var finish := [Go(), Go(), Go()];
    assert ResumeScript(ReceiptStored, receipt) == Restart() + ([Go()] + finish);
    RunSplit(w, Restart(), [Go()] + finish);
    RunSplit(Run(w, Restart()), [Go()], finish);
  }

  lemma ResumeStored(w: World, s: State, receipt: Receipt)
    requires Inv(w) && w.dir.temps == 0 && ReadPending(w.dir) == Ok(Some(s)) && s.phase == ReceiptStored
    ensures ResumeOutcome(w, s, Run(w, ResumeScript(s.phase, receipt)))
  {
    PendingFacts(w, s);
    StoredReachesReceived(w, s);
    RunKeepsInv(w, Restart());
    RunKeepsInv(Run(w, Restart()), [Go()]);
    FinishStored(w, Restarted(w).(pc := Received(s)), s);
    StoredScript(w, receipt);
  }

  /**
   From any point outside a publication, a restart and one resume with a matching receipt
   complete the request, without a further POST, exactly when the profile is the attempted
   one or was already removed after its receipt; otherwise the request stays unfinished.
   */
  lemma ResumeCompletesIff(profile: Option<Snapshot>, events: seq<Event>, s: State, receipt: Receipt)
    requires var w := Run(Initial(profile), events);
      w.dir.temps == 0 && ReadPending(w.dir) == Ok(Some(s)) && ReceiptMatches(receipt, s.request)
    ensures var w := Run(Initial(profile), events); ResumeOutcome(w, s, Run(w, ResumeScript(s.phase, receipt)))
  {
    var w := Run(Initial(profile), events);
    RunKeepsInv(Initial(profile), events);
    PendingFacts(w, s);
    if s.phase == Attempted {
      ResumeAttempted(w, s, receipt);
    } else {
      ResumeStored(w, s, receipt);
    }
  }

  lemma {:induction false} IdleStaysIdle(w: World, events: seq<Event>)
    requires w.pc.Idle? && forall e :: e in events ==> e.Proceed? || e.Reply?
    ensures Run(w, events) == w
    decreases |events|
  {
    if events != [] {
      assert events[0] in events && Next(w, events[0]) == w;
      IdleStaysIdle(w, events[1..]);
    }
  }
}
