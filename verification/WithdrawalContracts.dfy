/** What the store of withdrawals reads, begins and advances, said on its files. */
module WithdrawalContracts {
  import opened Prelude
  import opened WithdrawalStore

  // ---------------------------------------------------------------- states and files

  /** The receipt is of this request, withdrew it, and moved workstation and profile on. */
  predicate Confirmed(r: Request, t: Receipt) {
    && t.schemaVersion == 1 && t.outcome == "WITHDRAWN" && t.withdrawnAt.Canonical?
    && t.requestId == r.requestId && t.associationId == r.associationId && t.workstationId == r.workstationId
    && t.profileId == r.profileId && t.workstationVersion > 1 && t.profileVersion > 1
  }

  /** Four identifiers, a hash, and a confirmed receipt exactly behind the first phase. */
  predicate WellFormed(s: State) {
    && s.schemaVersion == 1 && ValidSha(s.sha) && ValidUuid(s.request.requestId) && ValidUuid(s.request.associationId)
    && ValidUuid(s.request.workstationId) && ValidUuid(s.request.profileId)
    && match s.phase
       case Attempted => s.receipt.None?
       case _ => s.receipt.Some? && Confirmed(s.request, s.receipt.value)
  }

  lemma StateContract(s: State)
    ensures ValidState(s) <==> WellFormed(s)
  {
  }

  /** The file is named after the request and the phase it holds. */
  predicate WellNamed(n: Name, s: State) {
    && n.requestId == s.request.requestId
    && match s.phase case Attempted => n.rank == 1 case ReceiptStored => n.rank == 2 case Completed => n.rank == 3
  }

  /** Behind each later phase stands the one before it, of the same operation; the receipt never changes. */
  predicate Preceded(files: Files, n: Name) {
    n in files && n.rank > 1 ==>
      && Name(n.requestId, n.rank - 1) in files
      && var before, after := files[Name(n.requestId, n.rank - 1)], files[n];
      && before.request == after.request && before.origin == after.origin && before.sha == after.sha
      && (n.rank == 3 ==> before.receipt == after.receipt)
  }

  predicate Coherent(files: Files) {
    && (forall n :: n in files ==> WellNamed(n, files[n]) && WellFormed(files[n]))
    && (forall n :: n in files ==> Preceded(files, n))
  }

  /** The request has a file, but not the last one. */
  predicate Open(files: Files, id: string) {
    (Name(id, 1) in files || Name(id, 2) in files) && Name(id, 3) !in files
  }

  ghost predicate OneOpen(files: Files) {
    forall a, b :: Open(files, a) && Open(files, b) ==> a == b
  }

  lemma CoherentIsReadable(files: Files)
    ensures Coherent(files) <==> Readable(files) && forall id :: id in Ids(files) ==> ChainOk(files, id)
  {
    forall n | n in files ensures WellNamed(n, files[n]) <==> NameOf(files[n]) == n {
    }
    if Readable(files) && forall id :: id in Ids(files) ==> ChainOk(files, id) {
      forall n | n in files ensures Preceded(files, n) {
        assert n.requestId in Ids(files) && n == NameOf(files[n]);
        assert n == Name(n.requestId, n.rank);
      }
    }
    if Coherent(files) {
      assert Readable(files);
      forall id | id in Ids(files) ensures ChainOk(files, id) {
        assert Name(id, 2) in files ==> Preceded(files, Name(id, 2));
        assert Name(id, 3) in files ==> Preceded(files, Name(id, 3));
      }
    }
  }

  lemma OpenIsUnfinished(files: Files)
    requires Readable(files)
    ensures forall id :: id in Unfinished(files) <==> Open(files, id)
  {
    forall id ensures id in Unfinished(files) <==> Open(files, id) {
      NamesOf(files, id);
    }
  }

  lemma SoundIsCoherent(files: Files)
    ensures Sound(files) <==> Coherent(files) && OneOpen(files)
  {
    CoherentIsReadable(files);
    if Readable(files) {
      OpenIsUnfinished(files);
    }
  }

  /** The directory has no temporary file, its files are coherent, and at most one request is open. */
  ghost predicate Reads(d: Dir) { d.temps == 0 && Coherent(d.files) && OneOpen(d.files) }

  /** The last phase there is of a request. */
  function Last(files: Files, id: string): Option<State> {
    if Name(id, 3) in files then Some(files[Name(id, 3)])
    else if Name(id, 2) in files then Some(files[Name(id, 2)])
    else if Name(id, 1) in files then Some(files[Name(id, 1)])
    else None
  }

  /**
   A directory is read exactly when it has no temporary file, its files are coherent and at most one
   request is open; the answer is the last phase of the request, if it has any.
   */
  lemma ReadContract(d: Dir, id: string)
    ensures ReadOne(d, id).Ok? <==> Reads(d)
    ensures ReadOne(d, id).Ok? ==> ReadOne(d, id).value == Last(d.files, id)
    ensures d.temps > 0 ==> ReadOne(d, id) == Refused(PartialWrite)
  {
    SoundIsCoherent(d.files);
    if d.temps == 0 && Sound(d.files) {
      SoundIsReadable(d, id);
      NamesOf(d.files, id);
    }
  }

  // ---------------------------------------------------------------- operations

  /**
   A request begins exactly with well-formed identifiers, in a store that can be read, where it has
   no file and none is open.
   */
  lemma BeginContract(d: Dir, request: Request, origin: Endpoint, sha: string)
    ensures var s := State(1, Attempted, request, origin, sha, None);
      var (d', r) := Perform(d, BeginOp(request, origin, sha, false));
      && (r.Ok? <==> d.temps == 0 && Coherent(d.files) && WellFormed(s) && Last(d.files, request.requestId).None?
                     && forall id :: !Open(d.files, id))
      && (r.Ok? ==> r == Ok(s) && d' == Dir(d.files[Name(request.requestId, 1) := s], 0))
  {
    var s := State(1, Attempted, request, origin, sha, None);
    StateContract(s);
    ReadContract(d, request.requestId);
    assert NameOf(s) == Name(request.requestId, 1);
    if d.temps == 0 && Coherent(d.files) {
      CoherentIsReadable(d.files);
      OpenIsUnfinished(d.files);
      assert Unfinished(d.files) == {} <==> forall id :: !Open(d.files, id);
    }
  }

  /** The next phase of a state, with its receipt. */
  function NextPhase(s: State, phase: Phase, receipt: Option<Receipt>): State {
    State(s.schemaVersion, phase, s.request, s.origin, s.sha, receipt)
  }

  /** The phase after this one. */
  predicate Follows(phase: Phase, before: Phase) {
    (before == Attempted && phase == ReceiptStored) || (before == ReceiptStored && phase == Completed)
  }

  lemma LastIsWellNamed(d: Dir, id: string)
    requires Reads(d) && Last(d.files, id).Some?
    ensures Last(d.files, id).value.request.requestId == id && WellFormed(Last(d.files, id).value)
    ensures Name(id, Rank(Last(d.files, id).value.phase) + 1) !in d.files
  {
    assert forall n :: n in d.files ==> WellNamed(n, d.files[n]) && WellFormed(d.files[n]);
  }

  /**
   A phase is published exactly behind the expected state, if that is the last one of its request,
   and only the next phase; the same phase once more, with the same content, changes nothing.
   */
  lemma AdvanceContract(d: Dir, expected: State, phase: Phase, receipt: Option<Receipt>, next: State,
                        last: Option<State>)
    requires next == NextPhase(expected, phase, receipt) && last == Last(d.files, expected.request.requestId)
    ensures var (d', r) := Advanced(d, expected, phase, receipt, false);
      && (r.Ok? <==> Reads(d) && WellFormed(expected) && WellFormed(next)
                     && (last == Some(next) || (last == Some(expected) && Follows(phase, expected.phase))))
      && (r.Ok? && last == Some(next) ==> r == Ok(next) && d' == d)
      && (r.Ok? && last != Some(next) ==>
            r == Ok(next) && d' == Dir(d.files[Name(next.request.requestId, Rank(phase)) := next], 0))
  {
    StateContract(expected);
    StateContract(next);
    ReadContract(d, expected.request.requestId);
    assert next == expected.(phase := phase, receipt := receipt);
    assert NameOf(next) == Name(next.request.requestId, Rank(phase));
    if Reads(d) && last.Some? {
      LastIsWellNamed(d, expected.request.requestId);
    }
  }
}
