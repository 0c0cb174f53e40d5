/**
 The append-only store of profile withdrawals: one file per request and phase, written
 through a temporary file and a rename that never overwrites.
 */
module WithdrawalStore {
  import opened Prelude
  import opened Collections

  // ---------------------------------------------------------------- values

  datatype Request = Request(requestId: string, associationId: string, workstationId: string, profileId: string)
  datatype Timestamp = Canonical(milliseconds: int) | Malformed(text: string)
  datatype Receipt = Receipt(schemaVersion: int, requestId: string, associationId: string, workstationId: string,
                             profileId: string, outcome: string, withdrawnAt: Timestamp, workstationVersion: int,
                                 profileVersion: int)
  datatype Phase = Attempted | ReceiptStored | Completed
  datatype Endpoint = Endpoint(scheme: string, host: string, port: int, path: string)
  datatype State = State(schemaVersion: int, phase: Phase, request: Request, origin: Endpoint, sha: string,
                         receipt: Option<Receipt>)

  predicate Hex(c: char) {
    '0' <= c <= '9' || 'a' <= c <= 'f'
  }

  /** What the lower-case hyphenated form of version 1 to 8 and the RFC 9562 variant has at place `i`. */
  predicate UuidChar(c: char, i: int) {
    if i == 8 || i == 13 || i == 18 || i == 23 then c == '-'
    else if i == 14 then '1' <= c <= '8'
    else if i == 19 then c == '8' || c == '9' || c == 'a' || c == 'b'
    else Hex(c)
  }

  predicate ValidUuid(s: string) {
    |s| == 36 && forall i :: 0 <= i < 36 ==> UuidChar(s[i], i)
  }

  predicate ValidSha(s: string) {
    |s| == 64 && forall i :: 0 <= i < 64 ==> Hex(s[i])
  }

  lemma HexDigits(c: char)
    ensures Hex(c) <==> c in "0123456789abcdef"
  {
    if '0' <= c <= '9' {
      assert "0123456789abcdef"[c as int - '0' as int] == c;
    } else if 'a' <= c <= 'f' {
      assert "0123456789abcdef"[10 + (c as int - 'a' as int)] == c;
    }
  }

  /**
   Five groups of 8, 4, 4, 4 and 12 small hexadecimal digits; the third begins with the version, the
   fourth with the variant.
   */
  lemma UuidContract(s: string)
    ensures ValidUuid(s) <==>
      && |s| == 36 && s[8] == s[13] == s[18] == s[23] == '-' && s[14] in "12345678" && s[19] in "89ab"
      && forall i :: 0 <= i < 36 && i != 8 && i != 13 && i != 18 && i != 23 ==> s[i] in "0123456789abcdef"
  {
    if |s| == 36 {
      forall i | 0 <= i < 36 ensures Hex(s[i]) <==> s[i] in "0123456789abcdef" {
        HexDigits(s[i]);
      }
      VersionDigits(s[14]);
      assert UuidChar(s[8], 8) && UuidChar(s[13], 13) && UuidChar(s[18], 18) && UuidChar(s[23], 23)
          <==> s[8] == s[13] == s[18] == s[23] == '-';
      assert UuidChar(s[14], 14) <==> s[14] in "12345678";
      assert UuidChar(s[19], 19) <==> s[19] in "89ab";
      forall i | 0 <= i < 36 && i != 8 && i != 13 && i != 14 && i != 18 && i != 19 && i != 23
        ensures UuidChar(s[i], i) <==> s[i] in "0123456789abcdef"
      {
        HexDigits(s[i]);
      }
    }
  }

  lemma VersionDigits(c: char)
    ensures '1' <= c <= '8' <==> c in "12345678"
    ensures c in "12345678" || c in "89ab" ==> c in "0123456789abcdef"
  {
    if '1' <= c <= '8' {
      assert "12345678"[c as int - '1' as int] == c;
    }
    HexDigits(c);
  }

  lemma ShaContract(s: string)
    ensures ValidSha(s) <==> |s| == 64 && forall i :: 0 <= i < 64 ==> s[i] in "0123456789abcdef"
  {
    forall i | 0 <= i < |s| ensures Hex(s[i]) <==> s[i] in "0123456789abcdef" {
      HexDigits(s[i]);
    }
  }

  predicate ValidRequest(r: Request) {
    ValidUuid(r.requestId) && ValidUuid(r.associationId) && ValidUuid(r.workstationId) && ValidUuid(r.profileId)
  }

  /** RequireReceipt accepts. */
  predicate ReceiptMatches(t: Receipt, r: Request) {
    && ValidRequest(r) && t.schemaVersion == 1 && t.outcome == "WITHDRAWN"
    && t.requestId == r.requestId && t.associationId == r.associationId
    && t.workstationId == r.workstationId && t.profileId == r.profileId
    && t.workstationVersion >= 2 && t.profileVersion >= 2 && t.withdrawnAt.Canonical?
  }

  predicate ValidState(s: State) {
    && ValidRequest(s.request) && s.schemaVersion == 1
    && ValidSha(s.sha)
    && (if s.phase == Attempted then s.receipt == None
        else s.receipt.Some? && ReceiptMatches(s.receipt.value, s.request))
  }

  predicate SameOperation(a: State, b: State) {
    a.request == b.request && a.origin == b.origin && a.sha == b.sha
  }

  function Rank(p: Phase): nat {
    match p case Attempted => 1 case ReceiptStored => 2 case Completed => 3
  }

  // ---------------------------------------------------------------- the directory

  datatype Name = Name(requestId: string, rank: nat)
  type Files = map<Name, State>
  /** Published states, and the number of temporary files left behind. */
  datatype Dir = Dir(files: Files, temps: nat)

  datatype Fault =
    | PartialWrite | Unreadable | HistoryInvalid | HistoryAmbiguous
    | StateInvalid | StateChanged | AlreadyAttempted | AlreadyPending | StateMissing | TransitionRefused
    | TargetExists | Interrupted

  function NameOf(s: State): Name { Name(s.request.requestId, Rank(s.phase)) }

  predicate Readable(files: Files) {
    forall n :: n in files ==> NameOf(files[n]) == n && ValidState(files[n])
  }

  /** The phases of one request are a gap-free prefix of one operation with an unchanged receipt. */
  predicate ChainOk(files: Files, id: string) {
    && (Name(id, 2) in files ==> Name(id, 1) in files && SameOperation(files[Name(id, 1)], files[Name(id, 2)]))
    && (Name(id, 3) in files ==>
          && Name(id, 1) in files && Name(id, 2) in files && SameOperation(files[Name(id, 1)], files[Name(id, 3)])
          && files[Name(id, 3)].receipt == files[Name(id, 2)].receipt)
  }

  function Ids(files: Files): set<string> {
    set n | n in files :: n.requestId
  }

  function Unfinished(files: Files): set<string> {
    set id | id in Ids(files) && Name(id, 3) !in files
  }

  /** The last phase of a request whose chain is sound. */
  function Latest(files: Files, id: string): State
    requires Readable(files) && ChainOk(files, id) && id in Ids(files)
  {
    if Name(id, 3) in files then files[Name(id, 3)]
    else if Name(id, 2) in files then files[Name(id, 2)]
    else
      assert exists n :: n in files && n.requestId == id;
      files[Name(id, 1)]
  }

  /** Everything ReadLatest checks of the published files. */
  ghost predicate Sound(files: Files) {
    && Readable(files) && (forall id :: id in Ids(files) ==> ChainOk(files, id))
    && (forall a, b :: a in Unfinished(files) && b in Unfinished(files) ==> a == b)
  }

  ghost function ReadOne(d: Dir, id: string): Result<Option<State>, Fault> {
    if d.temps > 0 then Refused(PartialWrite)
    else if !Readable(d.files) then Refused(Unreadable)
    else if exists x :: x in Ids(d.files) && !ChainOk(d.files, x) then Refused(HistoryInvalid)
    else if exists a, b :: a in Unfinished(d.files) && b in Unfinished(d.files) && a != b then Refused(HistoryAmbiguous)
    else Ok(if id in Ids(d.files) then Some(Latest(d.files, id)) else None)
  }

  /** Load without an id: the unfinished request, if any. */
  ghost function ReadPending(d: Dir): Result<Option<State>, Fault> {
    if Unfinished(d.files) == {} then
      match ReadOne(d, "") { case Refused(e) => Refused(e) case Ok(_) => Ok(None) }
    else
      var id :| id in Unfinished(d.files);
      ReadOne(d, id)
  }

  ghost function BeginCheck(d: Dir, attempted: State): Option<Fault> {
    if !ValidState(attempted) then Some(StateInvalid)
    else
      match ReadOne(d, attempted.request.requestId)
      case Refused(e) => Some(e)
      case Ok(Some(previous)) => Some(if SameOperation(previous, attempted) then AlreadyAttempted else StateChanged)
      case Ok(None) => if Unfinished(d.files) != {} then Some(AlreadyPending) else None
  }

  datatype Advance = Publish(next: State) | Unchanged(current: State) | Fails(error: Fault)

  ghost function AdvanceCheck(d: Dir, expected: State, phase: Phase, receipt: Option<Receipt>): Advance {
    if !ValidState(expected) then Fails(StateInvalid)
    else
      match ReadOne(d, expected.request.requestId)
      case Refused(e) => Fails(e)
      case Ok(None) => Fails(StateMissing)
      case Ok(Some(current)) =>
        var next := expected.(phase := phase, receipt := receipt);
        if !SameOperation(current, expected) then Fails(StateChanged)
        else if !ValidState(next) then Fails(StateInvalid)
        else if current == next then Unchanged(current)
        else if current != expected || Rank(phase) != Rank(current.phase) + 1 then Fails(TransitionRefused)
        else Publish(next)
  }

  /** The temporary file becomes the published one, unless the name is taken. */
  function Renamed(d: Dir, s: State): Dir
    requires d.temps > 0
  {
    if NameOf(s) in d.files then d else Dir(d.files[NameOf(s) := s], d.temps - 1)
  }

  // ---------------------------------------------------------------- the store keeps its files sound

  /** `s` may be added: it starts a request while none is unfinished, or it is the next phase of the unfinished one. */
  ghost predicate Addable(files: Files, s: State) {
    && ValidState(s) && NameOf(s) !in files
    && match s.phase
       case Attempted => s.request.requestId !in Ids(files) && Unfinished(files) == {}
       case ReceiptStored => var n := Name(s.request.requestId, 1);
         n in files && SameOperation(files[n], s) && Name(s.request.requestId, 3) !in files
       case Completed => var n := Name(s.request.requestId, 2);
         n in files && SameOperation(files[n], s) && files[n].receipt == s.receipt
  }

  lemma IdsAfterAdd(files: Files, s: State)
    ensures Ids(files[NameOf(s) := s]) == Ids(files) + {s.request.requestId}
  {
    var files' := files[NameOf(s) := s];
    assert NameOf(s) in files' && NameOf(s).requestId == s.request.requestId;
    forall id | id in Ids(files) ensures id in Ids(files') {
      var n :| n in files && n.requestId == id;
      assert n in files';
    }
  }

  lemma AddKeepsChains(files: Files, s: State, id: string)
    requires Sound(files) && Addable(files, s) && id in Ids(files[NameOf(s) := s])
    ensures ChainOk(files[NameOf(s) := s], id)
  {
    IdsAfterAdd(files, s);
    NamesOf(files, id);
    if id in Ids(files) {
      assert ChainOk(files, id);
    }
  }

  /** A request has published files exactly when one of its three names exists. */
  lemma NamesOf(files: Files, id: string)
    requires Readable(files)
    ensures id in Ids(files) <==> Name(id, 1) in files || Name(id, 2) in files || Name(id, 3) in files
  {
    if id in Ids(files) {
      var n :| n in files && n.requestId == id;
      assert n == NameOf(files[n]);
      assert n == Name(id, Rank(files[n].phase));
    }
  }

  lemma AddKeepsSound(files: Files, s: State)
    requires Sound(files) && Addable(files, s)
    ensures Sound(files[NameOf(s) := s])
  {
    var files' := files[NameOf(s) := s];
    IdsAfterAdd(files, s);
    forall id | id in Ids(files') ensures ChainOk(files', id) {
      AddKeepsChains(files, s, id);
    }
    NamesOf(files, s.request.requestId);
    forall id | id in Unfinished(files') ensures id == s.request.requestId || id in Unfinished(files) {
    }
    if s.phase != Attempted {
      assert s.request.requestId in Unfinished(files) by { NamesOf(files, s.request.requestId); }
    }
  }

  /** On sound files without a temporary, reading never fails. */
  lemma SoundIsReadable(d: Dir, id: string)
    requires Sound(d.files) && d.temps == 0
    ensures ReadOne(d, id) == Ok(if id in Ids(d.files) then Some(Latest(d.files, id)) else None)
    ensures ReadPending(d).Ok?
    ensures ReadPending(d).value == None <==> Unfinished(d.files) == {}
    ensures ReadPending(d).value.Some? ==>
      var s := ReadPending(d).value.value;
      s.request.requestId in Unfinished(d.files) && s == Latest(d.files, s.request.requestId) && s.phase != Completed
  {
    if Unfinished(d.files) != {} {
      var x :| x in Unfinished(d.files) && ReadPending(d) == ReadOne(d, x);
      LatestOf(d.files, x);
    }
  }

  lemma LatestOf(files: Files, id: string)
    requires Sound(files) && id in Ids(files)
    ensures var s := Latest(files, id);
      && s.request.requestId == id && ValidState(s) && NameOf(s) in files && files[NameOf(s)] == s
      && (s.phase == Completed <==> id !in Unfinished(files))
      && Name(id, Rank(s.phase) + 1) !in files
  {
    NamesOf(files, id);
    forall n | n in files && n.requestId == id ensures 1 <= n.rank <= 3 {
      assert n == NameOf(files[n]);
    }
  }

  lemma BeginIsAddable(d: Dir, attempted: State)
    requires Sound(d.files) && attempted.phase == Attempted && BeginCheck(d, attempted) == None
    ensures d.temps == 0 && Addable(d.files, attempted)
  {
    assert d.temps == 0;
    SoundIsReadable(d, attempted.request.requestId);
    NamesOf(d.files, attempted.request.requestId);
  }

  lemma AdvanceIsAddable(d: Dir, expected: State, phase: Phase, receipt: Option<Receipt>)
    requires Sound(d.files) && AdvanceCheck(d, expected, phase, receipt).Publish?
    requires phase == ReceiptStored || (phase == Completed && receipt == expected.receipt)
    ensures d.temps == 0 && Addable(d.files, AdvanceCheck(d, expected, phase, receipt).next)
  {
    var id := expected.request.requestId;
    assert d.temps == 0;
    SoundIsReadable(d, id);
    LatestOf(d.files, id);
    NamesOf(d.files, id);
  }

  // ---------------------------------------------------------------- whole operations

  /** `interrupted` is a crash between the flushed temporary file and its rename. */
  function Published(d: Dir, s: State, interrupted: bool): (Dir, Result<State, Fault>) {
    var written := d.(temps := d.temps + 1);
    if interrupted then (written, Refused(Interrupted))
    else (Renamed(written, s), if NameOf(s) in d.files then Refused(TargetExists) else Ok(s))
  }

  ghost function Begun(d: Dir, attempted: State, interrupted: bool): (Dir, Result<State, Fault>) {
    match BeginCheck(d, attempted)
    case Some(e) => (d, Refused(e))
    case None => Published(d, attempted, interrupted)
  }

  ghost function Advanced(d: Dir, expected: State, phase: Phase, receipt: Option<Receipt>,
                          interrupted: bool): (Dir, Result<State, Fault>) {
    match AdvanceCheck(d, expected, phase, receipt)
    case Fails(e) => (d, Refused(e))
    case Unchanged(current) => (d, Ok(current))
    case Publish(next) => Published(d, next, interrupted)
  }

  datatype Operation =
    | BeginOp(request: Request, origin: Endpoint, sha: string, interrupted: bool)
    | StoreReceiptOp(expected: State, receipt: Receipt, interrupted: bool)
    | CompleteOp(expected: State, interrupted: bool)

  ghost function Perform(d: Dir, op: Operation): (Dir, Result<State, Fault>) {
    match op
    case BeginOp(request, origin, sha, interrupted) =>
      Begun(d, State(1, Attempted, request, origin, sha, None), interrupted)
    case StoreReceiptOp(expected, receipt, interrupted) =>
      Advanced(d, expected, ReceiptStored, Some(receipt), interrupted)
    case CompleteOp(expected, interrupted) => Advanced(d, expected, Completed, expected.receipt, interrupted)
  }

  /** One operation on a sound directory fails without a trace, leaves a temporary file, or adds one state. */
  ghost predicate CleanStep(d: Dir, d': Dir, r: Result<State, Fault>) {
    && Sound(d'.files) && r != Refused(TargetExists)
    && (r.Ok? ==> d'.temps == d.temps == 0 && NameOf(r.value) in d'.files && d'.files[NameOf(r.value)] == r.value)
    && (r.Ok? ==> d'.files == d.files || (NameOf(r.value) !in d.files
                                          && d'.files == d.files[NameOf(r.value) := r.value]))
    && (r.Refused? ==> d'.files == d.files)
    && (d.temps > 0 ==> d' == d && r.Refused?)
  }

  lemma PublishedIsClean(d: Dir, s: State, interrupted: bool)
    requires Sound(d.files) && d.temps == 0 && Addable(d.files, s)
    ensures CleanStep(d, Published(d, s, interrupted).0, Published(d, s, interrupted).1)
  {
    AddKeepsSound(d.files, s);
  }

  lemma PerformKeepsSound(d: Dir, op: Operation)
    requires Sound(d.files)
    ensures CleanStep(d, Perform(d, op).0, Perform(d, op).1)
  {
    match op
    case BeginOp(request, origin, sha, interrupted) =>
      var s := State(1, Attempted, request, origin, sha, None);
      if BeginCheck(d, s) == None {
        BeginIsAddable(d, s);
        PublishedIsClean(d, s, interrupted);
      } else {
        SafeFaults(d, request.requestId);
      }
    case StoreReceiptOp(expected, receipt, interrupted) =>
      AdvancedKeepsSound(d, expected, ReceiptStored, Some(receipt), interrupted);
    case CompleteOp(expected, interrupted) =>
      AdvancedKeepsSound(d, expected, Completed, expected.receipt, interrupted);
  }

  lemma AdvancedKeepsSound(d: Dir, expected: State, phase: Phase, receipt: Option<Receipt>, interrupted: bool)
    requires Sound(d.files)
    requires phase == ReceiptStored || (phase == Completed && receipt == expected.receipt)
    ensures var (d', r) := Advanced(d, expected, phase, receipt, interrupted); CleanStep(d, d', r)
  {
    var id, check := expected.request.requestId, AdvanceCheck(d, expected, phase, receipt);
    if check.Fails? {
      SafeFaults(d, id);
    } else if check.Publish? {
      AdvanceIsAddable(d, expected, phase, receipt);
      PublishedIsClean(d, check.next, interrupted);
    } else {
      UnchangedIsStored(d, expected, phase, receipt);
    }
  }

  lemma UnchangedIsStored(d: Dir, expected: State, phase: Phase, receipt: Option<Receipt>)
    requires Sound(d.files) && AdvanceCheck(d, expected, phase, receipt).Unchanged?
    ensures var s := AdvanceCheck(d, expected, phase, receipt).current;
      d.temps == 0 && NameOf(s) in d.files && d.files[NameOf(s)] == s
  {
    var id := expected.request.requestId;
    assert d.temps == 0;
    SoundIsReadable(d, id);
    LatestOf(d.files, id);
  }

  lemma SafeFaults(d: Dir, id: string)
    ensures ReadOne(d, id) != Refused(TargetExists)
  {
  }

  ghost function PerformAll(d: Dir, ops: seq<Operation>): Dir
    decreases |ops|
  {
    if ops == [] then d else PerformAll(Perform(d, ops[0]).0, ops[1..])
  }

  lemma {:induction false} PerformAllKeepsSound(d: Dir, ops: seq<Operation>)
    requires Sound(d.files)
    ensures Sound(PerformAll(d, ops).files)
    ensures d.temps > 0 ==> PerformAll(d, ops) == d
    decreases |ops|
  {
    if ops != [] {
      PerformKeepsSound(d, ops[0]);
      PerformAllKeepsSound(Perform(d, ops[0]).0, ops[1..]);
    }
  }

  /**
   On every directory the operations can reach, the files of each request are a gap-free
   phase prefix of one operation, at most one request is unfinished, and no rename meets an
   existing target; reading fails only on a leftover temporary file, which then blocks the
   store for good.
   */
  lemma ReachableDirectories(ops: seq<Operation>, id: string, next: Operation, later: seq<Operation>)
    ensures var d := PerformAll(Dir(map[], 0), ops);
      && Sound(d.files) && Perform(d, next).1 != Refused(TargetExists)
      && (d.temps == 0 ==> ReadOne(d, id).Ok? && ReadPending(d).Ok?)
      && (d.temps > 0 ==> ReadOne(d, id) == Refused(PartialWrite) && PerformAll(d, later) == d)
  {
    PerformAllKeepsSound(Dir(map[], 0), ops);
    var d := PerformAll(Dir(map[], 0), ops);
    PerformKeepsSound(d, next);
    if d.temps == 0 {
      SoundIsReadable(d, id);
    } else {
      PerformAllKeepsSound(d, later);
    }
  }
}
