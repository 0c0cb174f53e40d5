/** The import over whole runs: what always holds, and what never changes back. */
module ImportRuns {
  import opened Prelude
  import opened Collections
  import opened ImportContacts
  import opened ImportLedger
  import opened ImportSafety
  import opened ImportBlocks

  // ---------------------------------------------------------------- every transaction keeps the invariant

  /** The store with new rows in review. */
  lemma MappedRowsOk(s: Store, ctx: Ctx, package: PackageId, expectedVersion: int, found: map<RowId, (string, Values)>)
    requires RowsOk(s) && ReceiptsOk(s) && Map(s, ctx, package, expectedVersion, found).Ok?
    ensures RowsOk(Map(s, ctx, package, expectedVersion, found).value)
  {
    var s' := Map(s, ctx, package, expectedVersion, found).value;
    forall id | id in s'.rows ensures RowOk(s', id) {
      if id in s.rows {
        SameRowStaysOk(s, s', id);
      } else {
        NoReceiptWithoutRow(s, package, id);
        MappedRowOk(s', package, id);
      }
    }
  }

  lemma MappedRowOk(s: Store, package: PackageId, id: RowId)
    requires id in s.rows && package in s.packages && s.packages[package].state == Mapped
    requires s.rows[id] == Row(package, s.rows[id].fingerprint, s.rows[id].mapped, Review, 1, None, None)
    requires CommitKey(package, id) !in s.receipts
    ensures RowOk(s, id)
  {
  }

  lemma SameRowStaysOk(s: Store, s': Store, id: RowId)
    requires id in s.rows && id in s'.rows && RowOk(s, id) && s'.rows[id] == s.rows[id] && s'.receipts == s.receipts
    requires s.rows[id].package in s'.packages && LeadsStay(s, s')
    requires s'.packages[s.rows[id].package].campus == s.packages[s.rows[id].package].campus
    requires s'.packages[s.rows[id].package].state != Uploading && s'.packages[s.rows[id].package].state != Sealed
    ensures RowOk(s', id)
  {
    OwnLeadStays(s, s', s.rows[id]);
  }

  lemma NoReceiptWithoutRow(s: Store, package: PackageId, id: RowId)
    requires ReceiptsOk(s) && id !in s.rows
    ensures CommitKey(package, id) !in s.receipts
  {
  }

  lemma MappedKeysOk(s: Store, ctx: Ctx, package: PackageId, expectedVersion: int, found: map<RowId, (string, Values)>)
    requires KeysUnique(s) && RetiredUnused(s) && Map(s, ctx, package, expectedVersion, found).Ok?
    ensures KeysUnique(Map(s, ctx, package, expectedVersion, found).value)
    ensures RetiredUnused(Map(s, ctx, package, expectedVersion, found).value)
  {
    var s' := Map(s, ctx, package, expectedVersion, found).value;
    forall id, p, k | id in s'.rows && Holds(s'.rows[id], p, k) ensures id in s.rows && Holds(s.rows[id], p, k) {
    }
    assert forall p, k :: Retired(s', p, k) ==> Retired(s, p, k);
  }

  lemma MappedRestOk(s: Store, ctx: Ctx, package: PackageId, expectedVersion: int, found: map<RowId, (string, Values)>)
    requires ReceiptsOk(s) && CompletedIsTerminal(s) && ReportsBalanced(s) && ContactsUnique(s)
    requires Map(s, ctx, package, expectedVersion, found).Ok?
    ensures var s' := Map(s, ctx, package, expectedVersion, found).value;
      ReceiptsOk(s') && CompletedIsTerminal(s') && ReportsBalanced(s') && ContactsUnique(s')
  {
    var s' := Map(s, ctx, package, expectedVersion, found).value;
    forall k | k in s'.receipts ensures WellKeyed(k, s'.receipts[k]) && Past(s', k, s'.receipts[k]) {
      assert WellKeyed(k, s.receipts[k]) && Past(s, k, s.receipts[k]);
    }
    SameLeads(s, s');
  }

  lemma MapKeepsInv(s: Store, ctx: Ctx, package: PackageId, expectedVersion: int, found: map<RowId, (string, Values)>)
    requires Inv(s) && Map(s, ctx, package, expectedVersion, found).Ok?
    ensures Inv(Map(s, ctx, package, expectedVersion, found).value)
  {
    MappedRowsOk(s, ctx, package, expectedVersion, found);
    MappedKeysOk(s, ctx, package, expectedVersion, found);
    MappedRestOk(s, ctx, package, expectedVersion, found);
  }

  lemma CreateKeepsInv(s: Store, ctx: Ctx, package: PackageId, campus: CampusId, sha: string)
    requires Inv(s) && CreatePackage(s, ctx, package, campus, sha).Ok?
    ensures Inv(CreatePackage(s, ctx, package, campus, sha).value)
  {
    PackageChange(s, CreatePackage(s, ctx, package, campus, sha).value, package);
  }

  lemma SealKeepsInv(s: Store, ctx: Ctx, package: PackageId)
    requires Inv(s) && Seal(s, ctx, package).Ok?
    ensures Inv(Seal(s, ctx, package).value)
  {
    if Seal(s, ctx, package).value != s {
      PackageChange(s, Seal(s, ctx, package).value, package);
    }
  }

  /** A package without rows may change as long as its version does not fall. */
  lemma PackageChange(s: Store, s': Store, package: PackageId)
    requires Inv(s) && package in s'.packages && s' == s.(packages := s.packages[package := s'.packages[package]])
    requires package in s.packages ==>
        s.packages[package].state == Uploading && s.packages[package].version <= s'.packages[package].version
    ensures Inv(s')
  {
    forall id | id in s'.rows ensures RowOk(s', id) {
      assert RowOk(s, id);
    }
    assert forall p, k :: Retired(s', p, k) ==> Retired(s, p, k);
    forall k | k in s'.receipts ensures WellKeyed(k, s'.receipts[k]) && Past(s', k, s'.receipts[k]) {
      assert WellKeyed(k, s.receipts[k]) && Past(s, k, s.receipts[k]);
    }
    SameLeads(s, s');
  }

  lemma OtherLeadKeepsInv(s: Store, id: LeadId, lead: Lead)
    requires Inv(s)
    ensures Inv(Next(s, OtherLead(id, lead)))
  {
    var s' := Next(s, OtherLead(id, lead));
    assert s' == s.(leads := s'.leads) && LeadsStay(s, s');
    OnlyLeadsChange(s, s');
    assert ContactsUnique(s') by {
      forall l | l in s'.leads && s'.leads[l].imported ensures l in s.leads && s'.leads[l] == s.leads[l] {
      }
    }
  }

  lemma OnlyLeadsChange(s: Store, s': Store)
    requires RowsOk(s) && RetiredUnused(s) && ReceiptsOk(s) && s' == s.(leads := s'.leads) && LeadsStay(s, s')
    ensures RowsOk(s') && RetiredUnused(s') && ReceiptsOk(s')
  {
    forall r | r in s'.rows ensures RowOk(s', r) {
      assert RowOk(s, r);
      OwnLeadStays(s, s', s.rows[r]);
    }
    RetiredStays(s', s);
    forall k | k in s'.receipts ensures WellKeyed(k, s'.receipts[k]) && Past(s', k, s'.receipts[k]) {
      assert WellKeyed(k, s.receipts[k]) && Past(s, k, s.receipts[k]);
    }
  }

  lemma RowRequestKeepsInv(s: Store, ctx: Ctx, package: PackageId, r: Request)
    requires Inv(s) && Handle(s, ctx, package, r).Ok? && (r.Deciding? || r.Reopening?)
    ensures Inv(Handle(s, ctx, package, r).value)
    ensures var s' := Handle(s, ctx, package, r).value; s' == s || Touched(s, s', r.row)
  {
    var s' := Handle(s, ctx, package, r).value;
    if r.Reopening? {
      ReopenSteps(s, ctx, package, r.row, r.reopened);
    } else if r.decision.action == Defer {
      DeferSteps(s, ctx, package, r.row, r.decision);
    } else {
      DecideSteps(s, ctx, package, r.row, r.decision);
    }
    if s' != s {
      SteppedKeepsInv(s, s', r.row);
    }
  }

  lemma NextKeepsInv(s: Store, e: Event)
    requires Inv(s)
    ensures Inv(Next(s, e))
  {
    if e.OtherLead? {
      OtherLeadKeepsInv(s, e.id, e.lead);
    } else if Handle(s, e.ctx, e.package, e.request).Ok? {
      match e.request
      case Creating(campus, sha) => CreateKeepsInv(s, e.ctx, e.package, campus, sha);
      case Sealing => SealKeepsInv(s, e.ctx, e.package);
      case Mapping(expectedVersion, found) => MapKeepsInv(s, e.ctx, e.package, expectedVersion, found);
      case Confirming(input) => ConfirmKeepsInv(s, e.ctx, e.package, input);
      case ExecutingBlock(input) => BlockKeepsInv(s, e.ctx, e.package, input);
      case _ => RowRequestKeepsInv(s, e.ctx, e.package, e.request);
    }
  }

  lemma {:induction false} RunKeepsInv(s: Store, events: seq<Event>)
    requires Inv(s)
    ensures Inv(Run(s, events))
    decreases |events|
  {
    if events != [] {
      NextKeepsInv(s, events[0]);
      RunKeepsInv(Next(s, events[0]), events[1..]);
    }
  }

  // ---------------------------------------------------------------- what never changes back

  /** A row stays in its package; a terminal one stays as it is; a decision stays until its key is retired. */
  ghost predicate RowEvolves(s: Store, s': Store, r: RowId)
    requires r in s.rows
  {
    && r in s'.rows && s'.rows[r].package == s.rows[r].package && s'.rows[r].fingerprint == s.rows[r].fingerprint
    && s'.rows[r].mapped == s.rows[r].mapped
    && (Terminal(s.rows[r]) ==> s'.rows[r] == s.rows[r])
    && (s.rows[r].decision.Some? ==>
          s'.rows[r].decision == s.rows[r].decision
              || Retired(s', s.rows[r].package, s.rows[r].decision.value.input.key))
  }

  /** Receipts are never withdrawn or rewritten, and a package keeps its source. */
  ghost predicate Evolves(s: Store, s': Store) {
    && (forall r :: r in s.rows ==> RowEvolves(s, s', r))
    && (forall k :: k in s.receipts ==> k in s'.receipts && s'.receipts[k] == s.receipts[k])
    && (forall p :: p in s.packages ==> p in s'.packages && s'.packages[p].sha == s.packages[p].sha)
  }

  lemma ConfirmedRowEvolves(s: Store, committed: Store, ctx: Ctx, package: PackageId, ready: seq<RowId>, r: RowId)
    requires CommittedFrom(s, committed, ctx, package, ready) && AllReady(s, package, ready) && r in s.rows
    ensures RowEvolves(s, committed, r)
  {
    if r in ready {
      assert CommittedRow(s, committed, ctx, package, r);
    }
  }

  lemma ConfirmEvolves(s: Store, ctx: Ctx, package: PackageId, input: ConfirmInput)
    requires Inv(s) && Confirm(s, ctx, package, input).Ok?
    ensures Evolves(s, Confirm(s, ctx, package, input).value)
  {
    if Fresh(s, package, input) {
      ConfirmCommits(s, ctx, package, input);
      SelectedAreReady(s, ctx, package, input);
      var ready := Selected(s, ctx, package, input);
      var committed := CommitRows(s, ctx, ready).value;
      forall r | r in s.rows ensures RowEvolves(s, committed, r) {
        ConfirmedRowEvolves(s, committed, ctx, package, ready, r);
      }
      SettledEvolves(s, committed, ctx, package, input, ready);
    }
  }

  lemma SettledEvolves(s: Store, committed: Store, ctx: Ctx, package: PackageId, input: ConfirmInput, ready: seq<RowId>)
    requires (forall r :: r in s.rows ==> RowEvolves(s, committed, r))
    requires CommittedFrom(s, committed, ctx, package, ready)
    requires package in committed.packages && Fresh(s, package, input)
    ensures Evolves(s, Settled(committed, ctx, package, input, ready))
  {
    var s' := Settled(committed, ctx, package, input, ready);
    RetiredStays(committed, s');
    forall r | r in s.rows ensures RowEvolves(s, s', r) {
      assert RowEvolves(s, committed, r) && s'.rows[r] == committed.rows[r];
    }
  }

  lemma RetiredStays(s: Store, s': Store)
    requires forall k :: k in s.receipts && k.ReopenKey? ==> k in s'.receipts && s'.receipts[k] == s.receipts[k]
    ensures forall p, k :: Retired(s, p, k) ==> Retired(s', p, k)
  {
    forall p, k | Retired(s, p, k) ensures Retired(s', p, k) {
      var rk :| rk in s.receipts && rk.ReopenKey? && rk.package == p && RetiredBy(s.receipts[rk], k);
      assert rk in s'.receipts && RetiredBy(s'.receipts[rk], k);
    }
  }

  lemma ListedRowEvolves(s: Store, s': Store, decided: Store, ctx: Ctx, package: PackageId, item: BlockItem)
    requires RowsOk(s) && DecidedBy(s, decided, ctx, package, item) && EndedBy(s, s', ctx, package, item)
    ensures RowEvolves(s, s', item.rowId)
  {
    assert RowOk(s, item.rowId);
  }

  lemma BlockEvolves(s: Store, ctx: Ctx, package: PackageId, input: BlockInput)
    requires Inv(s) && ExecuteBlock(s, ctx, package, input).Ok?
    ensures Evolves(s, ExecuteBlock(s, ctx, package, input).value)
  {
    if NewBlock(s, package, input) {
      BlockChangesExactlyItsRows(s, ctx, package, input);
      NewBlockIsBody(s, ctx, package, input);
      DecideAllDecides(s, ctx, package, input.items);
      BlockRowsEvolve(s, ExecuteBlock(s, ctx, package, input).value, DecideAll(s, ctx, package, input.items).value, ctx,
                      package, input);
    }
  }

  lemma BlockRowsEvolve(s: Store, s': Store, decided: Store, ctx: Ctx, package: PackageId, input: BlockInput)
    requires RowsOk(s) && BlockEffect(s, s', ctx, package, input) && DecidedFrom(s, decided, ctx, package, input.items)
    ensures Evolves(s, s')
  {
    forall r | r in s.rows ensures RowEvolves(s, s', r) {
      if Listed(input.items, r) {
        var i :| 0 <= i < |input.items| && input.items[i].rowId == r;
        ListedRowEvolves(s, s', decided, ctx, package, input.items[i]);
      }
    }
  }

  lemma RowRequestEvolves(s: Store, ctx: Ctx, package: PackageId, r: Request)
    requires Inv(s) && Handle(s, ctx, package, r).Ok? && (r.Deciding? || r.Reopening?)
    ensures Evolves(s, Handle(s, ctx, package, r).value)
  {
    if Handle(s, ctx, package, r).value != s {
      match r
      case Reopening(id, input) =>
        ReopenSteps(s, ctx, package, id, input);
        TouchedEvolves(s, Reopen(s, ctx, package, id, input).value, id);
      case Deciding(id, input) => DecisionEvolves(s, ctx, package, id, input);
    }
  }

  lemma DecisionEvolves(s: Store, ctx: Ctx, package: PackageId, id: RowId, input: DecisionInput)
    requires Inv(s) && Decide(s, ctx, package, id, input).Ok? && Decide(s, ctx, package, id, input).value != s
    ensures Evolves(s, Decide(s, ctx, package, id, input).value)
  {
    if input.action == Defer {
      DeferSteps(s, ctx, package, id, input);
    } else {
      DecideSteps(s, ctx, package, id, input);
    }
    assert RowOk(s, id);
    TouchedEvolves(s, Decide(s, ctx, package, id, input).value, id);
  }

  lemma TouchedEvolves(s: Store, s': Store, id: RowId)
    requires Touched(s, s', id)
    requires s.rows[id].decision.Some? ==>
      s'.rows[id].decision == s.rows[id].decision
          || Retired(s', s.rows[id].package, s.rows[id].decision.value.input.key)
    ensures Evolves(s, s')
  {
    forall r | r in s.rows ensures RowEvolves(s, s', r) {
      assert r != id ==> s'.rows[r] == s.rows[r];
    }
  }

  lemma SameRowsEvolve(s: Store, s': Store)
    requires s'.receipts == s.receipts && forall r :: r in s.rows ==> r in s'.rows && s'.rows[r] == s.rows[r]
    requires forall p :: p in s.packages ==> p in s'.packages && s'.packages[p].sha == s.packages[p].sha
    ensures Evolves(s, s')
  {
  }

  /** The life of a package and other writers leave the rows as they are. */
  lemma OutsideEvolves(s: Store, e: Event)
    requires e.Transaction? ==> e.request.Creating? || e.request.Sealing?
    ensures Evolves(s, Next(s, e))
  {
    assert Next(s, e).rows == s.rows && Next(s, e).receipts == s.receipts;
    SameRowsEvolve(s, Next(s, e));
  }

  lemma MapEvolves(s: Store, ctx: Ctx, package: PackageId, expectedVersion: int, found: map<RowId, (string, Values)>)
    requires Map(s, ctx, package, expectedVersion, found).Ok?
    ensures Evolves(s, Map(s, ctx, package, expectedVersion, found).value)
  {
    SameRowsEvolve(s, Map(s, ctx, package, expectedVersion, found).value);
  }

  lemma HandledEvolves(s: Store, ctx: Ctx, package: PackageId, r: Request)
    requires Inv(s) && Handle(s, ctx, package, r).Ok? && !r.Creating? && !r.Sealing?
    ensures Evolves(s, Handle(s, ctx, package, r).value)
  {
    if r.Confirming? {
      ConfirmEvolves(s, ctx, package, r.confirmed);
    } else if r.ExecutingBlock? {
      BlockEvolves(s, ctx, package, r.block);
    } else if r.Mapping? {
      MapEvolves(s, ctx, package, r.expectedVersion, r.found);
    } else {
      RowRequestEvolves(s, ctx, package, r);
    }
  }

  lemma NextEvolves(s: Store, e: Event)
    requires Inv(s)
    ensures Evolves(s, Next(s, e))
  {
    if e.OtherLead? || e.request.Creating? || e.request.Sealing? {
      OutsideEvolves(s, e);
    } else if Handle(s, e.ctx, e.package, e.request).Ok? {
      HandledEvolves(s, e.ctx, e.package, e.request);
    } else {
      SameRowsEvolve(s, s);
    }
  }

  lemma EvolvesCompose(a: Store, b: Store, c: Store)
    requires Evolves(a, b) && Evolves(b, c)
    ensures Evolves(a, c)
  {
    RetiredStays(b, c);
    forall r | r in a.rows ensures RowEvolves(a, c, r) {
      assert RowEvolves(a, b, r) && RowEvolves(b, c, r);
    }
    forall p | p in a.packages ensures p in c.packages && c.packages[p].sha == a.packages[p].sha {
      assert p in b.packages;
    }
  }

  lemma {:induction false} RunEvolves(s: Store, events: seq<Event>)
    requires Inv(s)
    ensures Evolves(s, Run(s, events))
    decreases |events|
  {
    if events != [] {
      NextKeepsInv(s, events[0]);
      NextEvolves(s, events[0]);
      RunEvolves(Next(s, events[0]), events[1..]);
      EvolvesCompose(s, Next(s, events[0]), Run(s, events));
    } else {
      SameRowsEvolve(s, s);
    }
  }

  // ---------------------------------------------------------------- main results

  lemma InitialInv()
    ensures Inv(Initial())
  {
  }

  /** ACCEPTED and IGNORED are for good, and mean exactly that the row has its commit receipt. */
  lemma CommittedRowsAreAbsorbing(events: seq<Event>, later: seq<Event>, r: RowId)
    requires r in Run(Initial(), events).rows
    ensures var s := Run(Initial(), events); var s' := Run(s, later);
      && (Terminal(s.rows[r]) <==> CommitKey(s.rows[r].package, r) in s.receipts)
      && (Terminal(s.rows[r]) ==> r in s'.rows && s'.rows[r] == s.rows[r])
  {
    InitialInv();
    RunKeepsInv(Initial(), events);
    assert RowOk(Run(Initial(), events), r);
    RunEvolves(Run(Initial(), events), later);
    assert RowEvolves(Run(Initial(), events), Run(Run(Initial(), events), later), r);
  }

  /**
   A row has a decision exactly when it has left REVIEW, a deferred row is bound to its receipt, and
   a created dossier to its lead.
   */
  lemma DecisionsFollowStates(events: seq<Event>, r: RowId)
    requires r in Run(Initial(), events).rows
    ensures var s := Run(Initial(), events); var row := s.rows[r];
      && (row.decision.Some? <==> row.state != Review) && (row.lead.Some? <==> row.state == Accepted)
      && (row.state == Deferred <==> ValidDeferral(s, r))
  {
    InitialInv();
    RunKeepsInv(Initial(), events);
    assert RowOk(Run(Initial(), events), r);
  }

  lemma RetiredIsUnused(s: Store, package: PackageId, key: Key, r: RowId)
    requires RetiredUnused(s) && Retired(s, package, key)
    ensures r in s.rows ==> !Holds(s.rows[r], package, key)
  {
  }

  /** A key that reopening retired never decides a row of the package again. */
  lemma RetiredKeysNeverDecide(events: seq<Event>, later: seq<Event>, package: PackageId, key: Key, r: RowId)
    requires Retired(Run(Initial(), events), package, key)
    ensures var s' := Run(Run(Initial(), events), later);
      Retired(s', package, key) && (r in s'.rows ==> !Holds(s'.rows[r], package, key))
  {
    var s := Run(Initial(), events);
    InitialInv();
    RunKeepsInv(Initial(), events);
    RunKeepsInv(s, later);
    RunEvolves(s, later);
    var k :| k in s.receipts && k.ReopenKey? && k.package == package && RetiredBy(s.receipts[k], key);
    assert k in Run(s, later).receipts && RetiredBy(Run(s, later).receipts[k], key);
    RetiredIsUnused(Run(s, later), package, key, r);
  }

  /** A key decides at most one row of its package. */
  lemma KeysDecideOneRow(events: seq<Event>, package: PackageId, key: Key, a: RowId, b: RowId)
    requires var s := Run(Initial(), events);
      a in s.rows && b in s.rows && Holds(s.rows[a], package, key) && Holds(s.rows[b], package, key)
    ensures a == b
  {
    InitialInv();
    RunKeepsInv(Initial(), events);
  }

  /** COMPLETED means that every row of the package is terminal, and every report adds up. */
  lemma CompletedMeansDone(events: seq<Event>, package: PackageId)
    ensures var s := Run(Initial(), events);
      && (package in s.packages && s.packages[package].state == Completed ==>
            forall r :: r in s.rows && s.rows[r].package == package ==> Terminal(s.rows[r]))
      && (package in s.reports ==> Balanced(s.reports[package]))
  {
    InitialInv();
    RunKeepsInv(Initial(), events);
  }

  ghost predicate AllTerminal(s: Store, package: PackageId) {
    forall r :: r in s.rows && s.rows[r].package == package ==> Terminal(s.rows[r])
  }

  lemma ConfirmCompletes(s: Store, ctx: Ctx, package: PackageId, input: ConfirmInput)
    requires Inv(s) && Fresh(s, package, input) && Confirm(s, ctx, package, input).Ok?
    ensures var s' := Confirm(s, ctx, package, input).value;
      && package in s'.packages && package in s'.reports && Balanced(s'.reports[package])
      && (s'.packages[package].state == Completed <==> AllTerminal(s', package))
      && (s'.packages[package].state == Completed <==> s'.reports[package].error == 0)
  {
    ConfirmCommits(s, ctx, package, input);
    SelectedAreReady(s, ctx, package, input);
    CommitRowsCommit(s, ctx, package, Selected(s, ctx, package, input));
    ClosedIsTerminal(CommitRows(s, ctx, Selected(s, ctx, package, input)).value, package);
  }

  /** A new confirmation closes the package exactly when nothing is left open. */
  lemma ConfirmationCompletesIff(events: seq<Event>, ctx: Ctx, package: PackageId, input: ConfirmInput)
    requires var s := Run(Initial(), events); Fresh(s, package, input) && Confirm(s, ctx, package, input).Ok?
    ensures var s' := Confirm(Run(Initial(), events), ctx, package, input).value;
      && package in s'.packages && package in s'.reports && Balanced(s'.reports[package])
      && (s'.packages[package].state == Completed <==> AllTerminal(s', package))
      && (s'.packages[package].state == Completed <==> s'.reports[package].error == 0)
  {
    InitialInv();
    RunKeepsInv(Initial(), events);
    ConfirmCompletes(Run(Initial(), events), ctx, package, input);
  }

  /**
   No two leads the import created in one campus share a normalized e-mail or phone, in any order of
   decisions and confirmations.
   */
  lemma CreatedContactsAreUnique(events: seq<Event>, a: LeadId, b: LeadId)
    requires var s := Run(Initial(), events);
      a in s.leads && b in s.leads && s.leads[a].imported && s.leads[b].imported && a != b
    ensures var s := Run(Initial(), events);
      && (s.leads[a].campus == s.leads[b].campus && s.leads[a].email.Some? ==> s.leads[a].email != s.leads[b].email)
      && (s.leads[a].campus == s.leads[b].campus && s.leads[a].phone.Some? ==> s.leads[a].phone != s.leads[b].phone)
      && NormalizeEmail(s.leads[a].email) == s.leads[a].email && NormalizePhone(s.leads[a].phone) == s.leads[a].phone
  {
    InitialInv();
    RunKeepsInv(Initial(), events);
    assert Canonical(Run(Initial(), events).leads[a]);
    assert !Share(Run(Initial(), events).leads[a], Run(Initial(), events).leads[b]);
  }

  // ---------------------------------------------------------------- replaying a block

  /** What later events leave of an item of the block. */
  lemma ItemLater(s: Store, t: Store, ctx: Ctx, package: PackageId, item: BlockItem)
    requires RowsOk(t) && RetiredUnused(t) && Evolves(s, t) && EndedBy(s, s, ctx, package, item)
    ensures SettledItem(t, ctx, package, item)
  {
    var r := item.rowId;
    assert RowEvolves(s, t, r) && RowOk(t, r);
    if item.decision.action == Defer && Holds(t.rows[r], package, item.decision.key) {
      assert !Retired(t, package, item.decision.key);
      assert t.rows[r].decision == s.rows[r].decision;
    }
  }

  /**
   However much later a block is sent again, its replay writes nothing.  As long as the actor
   keeps its access, it succeeds if and only if every row the block deferred is still deferred
   under its key; reopening one makes the replay refuse.
   */
  lemma ReplayChangesNothing(s: Store, ctx: Ctx, package: PackageId, input: BlockInput, events: seq<Event>, later: Ctx)
    requires Inv(s) && ExecuteBlock(s, ctx, package, input).Ok? && NewBlock(s, package, input)
    ensures var t := Run(ExecuteBlock(s, ctx, package, input).value, events);
      var replay := ExecuteBlock(t, later, package, input);
      && (replay.Ok? ==> replay == Ok(t))
      && (later.actor == ctx.actor && StillGranted(t, later, input.items) ==>
            replay == if StillDeferred(t, package, input.items) then Ok(t) else Refused(BlockReceiptChanged))
  {
    var s' := ExecuteBlock(s, ctx, package, input).value;
    var t := Run(s', events);
    BlockChangesExactlyItsRows(s, ctx, package, input);
    NewBlockIsBody(s, ctx, package, input);
    RunKeepsInv(s', events);
    RunEvolves(s', events);
    assert s'.receipts[BlockKey(package, input.key)].BlockReceipt? && BlockKey(package, input.key) in t.receipts;
    if later.actor == ctx.actor && StillGranted(t, later, input.items) {
      forall i | 0 <= i < |input.items| ensures SettledItem(t, later, package, input.items[i]) {
        EndedLater(s, s', ctx, later, package, input, i);
        ItemLater(s', t, later, package, input.items[i]);
      }
      ReplayPassesIff(t, later, package, input.items);
    }
  }

  lemma EndedLater(s: Store, s': Store, ctx: Ctx, later: Ctx, package: PackageId, input: BlockInput, i: nat)
    requires BlockEffect(s, s', ctx, package, input) && i < |input.items| && later.actor == ctx.actor
    ensures EndedBy(s', s', later, package, input.items[i])
  {
    assert EndedBy(s, s', ctx, package, input.items[i]);
  }
}
