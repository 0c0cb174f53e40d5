/** The store as an object: directory scans are loops, a publication is a write followed by a rename. */
module WithdrawalStateStore {
  import opened Prelude
  import opened Collections
  import opened WithdrawalStore

  class StateStore {
    var files: Files
    var temps: nat

    function View(): Dir
      reads this
    {
      Dir(files, temps)
    }

    /** What the store leaves behind; a directory found otherwise is read and refused. */
    ghost predicate Valid()
      reads this
    {
      Sound(files)
    }

    constructor ()
      ensures Valid() && View() == Dir(map[], 0)
    {
      files, temps := map[], 0;
    }

    /** First loop of ReadLatest: every published file parses and carries its own name. */
    method ReadStates() returns (ok: bool)
      ensures ok <==> Readable(files)
    {
      var names := Enumerate<Name>(files.Keys);
      for i := 0 to |names|
        invariant forall j :: 0 <= j < i ==>
            names[j] in files && NameOf(files[names[j]]) == names[j] && ValidState(files[names[j]])
      {
        assert names[i] in names;
        if NameOf(files[names[i]]) != names[i] || !ValidState(files[names[i]]) {
          return false;
        }
      }
      assert forall n :: n in files ==> n in names;
      return true;
    }

    /** Second loop: the groups are checked and those not yet completed collected. */
    method ReadGroups() returns (ok: bool, pending: set<string>)
      ensures ok <==> forall x :: x in Ids(files) ==> ChainOk(files, x)
      ensures ok ==> pending == Unfinished(files)
    {
      var rest := Ids(files);
      pending := {};
      while rest != {}
        invariant rest <= Ids(files)
        invariant forall x :: x in Ids(files) && x !in rest ==> ChainOk(files, x)
        invariant pending == Unfinished(files) - rest
      {
        var id :| id in rest;
        if !ChainOk(files, id) {
          return false, {};
        }
        if Name(id, 3) !in files {
          pending := pending + {id};
        }
        rest := rest - {id};
      }
      return true, pending;
    }

    method ReadLatest(id: Option<string>) returns (r: Result<Option<State>, Fault>)
      ensures r == if id.Some? then ReadOne(View(), id.value) else ReadPending(View())
      ensures Valid() ==> (r.Refused? <==> temps > 0)
    {
      if Valid() && temps == 0 {
        SoundIsReadable(View(), if id.Some? then id.value else "");
      }
      if temps > 0 {
        return Refused(PartialWrite);
      }
      var readable := ReadStates();
      if !readable {
        return Refused(Unreadable);
      }
      var ok, pending := ReadGroups();
      if !ok {
        return Refused(HistoryInvalid);
      }
      SizeOf(pending);
      if |pending| > 1 {
        return Refused(HistoryAmbiguous);
      }
      if id.Some? {
        return Ok(if id.value in Ids(files) then Some(Latest(files, id.value)) else None);
      }
      if pending == {} {
        return Ok(None);
      }
      var only :| only in pending;
      return Ok(Some(Latest(files, only)));
    }

    method Publish(s: State, interrupted: bool) returns (r: Result<State, Fault>)
      modifies this
      ensures (View(), r) == Published(old(View()), s, interrupted)
    {
      temps := temps + 1;
      if interrupted {
        return Refused(Interrupted);
      }
      if NameOf(s) in files {
        return Refused(TargetExists);
      }
      files, temps := files[NameOf(s) := s], temps - 1;
      return Ok(s);
    }

    method Begin(request: Request, origin: Endpoint, sha: string, interrupted: bool) returns (r: Result<State, Fault>)
      modifies this
      ensures (View(), r) == Perform(old(View()), BeginOp(request, origin, sha, interrupted))
      ensures old(Valid()) ==> Valid() && CleanStep(old(View()), View(), r)
    {
      if Valid() {
        PerformKeepsSound(View(), BeginOp(request, origin, sha, interrupted));
      }
      var attempted := State(1, Attempted, request, origin, sha, None);
      if !ValidState(attempted) {
        return Refused(StateInvalid);
      }
      var historical := ReadLatest(Some(request.requestId));
      if historical.Refused? {
        return Refused(historical.error);
      }
      if historical.value.Some? {
        return Refused(if SameOperation(historical.value.value, attempted) then AlreadyAttempted else StateChanged);
      }
      assert Sound(files);
      SoundIsReadable(View(), "");
      var previous := ReadLatest(None);
      if previous.value.Some? {
        return Refused(AlreadyPending);
      }
      r := Publish(attempted, interrupted);
    }

    method Advance(expected: State, phase: Phase, receipt: Option<Receipt>, interrupted: bool)
      returns (r: Result<State, Fault>)
      modifies this
      ensures (View(), r) == Advanced(old(View()), expected, phase, receipt, interrupted)
    {
      if !ValidState(expected) {
        return Refused(StateInvalid);
      }
      var read := ReadLatest(Some(expected.request.requestId));
      if read.Refused? {
        return Refused(read.error);
      }
      if read.value.None? {
        return Refused(StateMissing);
      }
      var current := read.value.value;
      var next := expected.(phase := phase, receipt := receipt);
      if !SameOperation(current, expected) {
        return Refused(StateChanged);
      }
      if !ValidState(next) {
        return Refused(StateInvalid);
      }
      if current == next {
        return Ok(current);
      }
      if current != expected || Rank(phase) != Rank(current.phase) + 1 {
        return Refused(TransitionRefused);
      }
      r := Publish(next, interrupted);
    }

    method StoreReceipt(expected: State, receipt: Receipt, interrupted: bool) returns (r: Result<State, Fault>)
      modifies this
      ensures (View(), r) == Perform(old(View()), StoreReceiptOp(expected, receipt, interrupted))
      ensures old(Valid()) ==> Valid() && CleanStep(old(View()), View(), r)
    {
      if Valid() {
        PerformKeepsSound(View(), StoreReceiptOp(expected, receipt, interrupted));
      }
      r := Advance(expected, ReceiptStored, Some(receipt), interrupted);
    }

    method Complete(expected: State, interrupted: bool) returns (r: Result<State, Fault>)
      modifies this
      ensures (View(), r) == Perform(old(View()), CompleteOp(expected, interrupted))
      ensures old(Valid()) ==> Valid() && CleanStep(old(View()), View(), r)
    {
      if Valid() {
        PerformKeepsSound(View(), CompleteOp(expected, interrupted));
      }
      r := Advance(expected, Completed, expected.receipt, interrupted);
    }
  }

  lemma SizeOf(s: set<string>)
    ensures |s| > 1 <==> exists a, b :: a in s && b in s && a != b
  {
    if a :| a in s {
      assert |s| == |s - {a}| + 1;
      if |s| > 1 {
        var b :| b in s - {a};
      } else {
        assert s == {a};
      }
    }
  }
}
