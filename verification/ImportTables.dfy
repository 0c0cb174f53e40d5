/**
 The import as statements over mutable tables, which keep the invariant of the ledger.  A
 method that may refuse after a first write restores what it found, as the transaction it
 runs in does.
 */
module ImportTables {
  import opened Prelude
  import opened Collections
  import opened ImportContacts
  import opened ImportLedger
  import opened ImportSafety
  import opened ImportBlocks
  import opened ImportRuns

  /** The tables after a transaction, and what its caller is told. */
  predicate Transacted(before: Store, after: Store, spec: Result<Store, Refusal>, r: Result<(), Refusal>) {
    match spec
    case Ok(s) => after == s && r == Ok(())
    case Refused(e) => after == before && r == Refused(e)
  }

  /** The row is decided by the key, which was not retired, with its contacts; nothing final changed. */
  ghost predicate DecidedRow(before: Store, after: Store, package: PackageId, id: RowId, key: Key) {
    && Evolves(before, after) && id in after.rows && Holds(after.rows[id], package, key)
    && !Retired(after, package, key) && Overridden(after.rows[id])
  }

  lemma DecisionKeeps(s: Store, ctx: Ctx, package: PackageId, id: RowId, input: DecisionInput)
    requires Inv(s) && Decide(s, ctx, package, id, input).Ok?
    ensures var s' := Decide(s, ctx, package, id, input).value; Inv(s') && DecidedRow(s, s', package, id, input.key)
  {
    RowRequestKeepsInv(s, ctx, package, Deciding(id, input));
    RowRequestEvolves(s, ctx, package, Deciding(id, input));
    var s' := Decide(s, ctx, package, id, input).value;
    HeldAfterDecision(s, ctx, package, id, input);
    assert RetiredUnused(s') && RowOk(s', id);
  }

  lemma HeldAfterDecision(s: Store, ctx: Ctx, package: PackageId, id: RowId, input: DecisionInput)
    requires Decide(s, ctx, package, id, input).Ok?
    ensures var s' := Decide(s, ctx, package, id, input).value; id in s'.rows && Holds(s'.rows[id], package, input.key)
  {
  }

  /** The row is in review without a decision, unless this was a replay, and the key it had decides nothing any more. */
  ghost predicate ReopenedRow(before: Store, after: Store, package: PackageId, id: RowId) {
    && Evolves(before, after) && id in before.rows && id in after.rows
    && (after != before ==>
          && after.rows[id].state == Review && after.rows[id].decision.None? && before.rows[id].decision.Some?
          && Retired(after, package, before.rows[id].decision.value.input.key))
  }

  lemma ReopeningKeeps(s: Store, ctx: Ctx, package: PackageId, id: RowId, input: ReopenInput)
    requires Inv(s) && Reopen(s, ctx, package, id, input).Ok?
    ensures var s' := Reopen(s, ctx, package, id, input).value; Inv(s') && ReopenedRow(s, s', package, id)
  {
    RowRequestKeepsInv(s, ctx, package, Reopening(id, input));
    RowRequestEvolves(s, ctx, package, Reopening(id, input));
    ReopenSteps(s, ctx, package, id, input);
    var s' := Reopen(s, ctx, package, id, input).value;
    assert id in s'.rows && RowOk(s', id);
  }

  /** A new confirmation writes a balanced report, and completes the package exactly when every row is terminal. */
  ghost predicate Confirmed(before: Store, after: Store, package: PackageId, input: ConfirmInput) {
    && Evolves(before, after) && package in after.packages
    && (Fresh(before, package, input) ==>
          && package in after.reports && Balanced(after.reports[package])
          && (after.packages[package].state == Completed <==> AllTerminal(after, package)))
  }

  lemma ConfirmationKeeps(s: Store, ctx: Ctx, package: PackageId, input: ConfirmInput)
    requires Inv(s) && Confirm(s, ctx, package, input).Ok?
    ensures var s' := Confirm(s, ctx, package, input).value; Inv(s') && Confirmed(s, s', package, input)
  {
    ConfirmKeepsInv(s, ctx, package, input);
    ConfirmEvolves(s, ctx, package, input);
    if Fresh(s, package, input) {
      ConfirmCommits(s, ctx, package, input);
      ConfirmCompletes(s, ctx, package, input);
    }
  }

  lemma BlockKeeps(s: Store, ctx: Ctx, package: PackageId, input: BlockInput)
    requires Inv(s) && ExecuteBlock(s, ctx, package, input).Ok?
    ensures var s' := ExecuteBlock(s, ctx, package, input).value;
      Inv(s') && (NewBlock(s, package, input) ==> BlockEffect(s, s', ctx, package, input))
  {
    BlockKeepsInv(s, ctx, package, input);
    if NewBlock(s, package, input) {
      BlockChangesExactlyItsRows(s, ctx, package, input);
    }
  }

  /** The row committed with this lead, and its receipt. */
  function WithCommit(s: Store, ctx: Ctx, id: RowId, lead: Option<LeadId>): Store
    requires id in s.rows && s.rows[id].decision.Some?
  {
    var row := s.rows[id];
    Committed(s, ctx, id, row.(state := if row.decision.value.input.action == Ignore then Ignored else Accepted,
                               version := row.version + 1, lead := lead), lead)
  }

  lemma CommitKeeps(s: Store, ctx: Ctx, package: PackageId, id: RowId)
    requires Inv(s) && AllReady(s, package, [id]) && id in s.rows && s.rows[id].package == package
    requires package in s.packages
    requires CommitRow(s, ctx, id).Ok?
    ensures var s' := CommitRow(s, ctx, id).value;
      Inv(s') && id in s'.rows && Terminal(s'.rows[id]) && CommitKey(package, id) in s'.receipts
  {
    ImportSafety.CommitOne(s, ctx, package, id);
    assert id in [id];
  }

  lemma ReadyIsUncommitted(s: Store, package: PackageId, id: RowId)
    requires Inv(s) && AllReady(s, package, [id])
    ensures id in s.rows && s.rows[id].package == package && package in s.packages
    ensures CommitKey(package, id) !in s.receipts
    ensures s.rows[id].lead == None
  {
    assert id in [id];
    assert RowOk(s, id);
  }

  function ReopenReplay(s: Store, ctx: Ctx, package: PackageId, id: RowId, input: ReopenInput): Result<(), Refusal>
    requires id in s.rows && ReopenKey(package, input.key) in s.receipts
  {
    var saved, row := s.receipts[ReopenKey(package, input.key)], s.rows[id];
    if saved.actor != ctx.actor || !saved.ReopenReceipt? || saved.previous.actor != ctx.actor
       || (row.decision.Some? && row.decision.value.actor != ctx.actor) then Refused(PermissionDenied)
    else if saved.input != input || saved.row != id then Refused(ReopenKeyConflict)
    else Ok(())
  }

  lemma DistinctTail(ids: seq<RowId>, i: nat)
    requires DistinctRows(ids) && i <= |ids|
    ensures DistinctRows(ids[i..])
  {
  }

  class Tables {
    var packages: map<PackageId, Package>
    var rows: map<RowId, Row>
    var receipts: map<ReceiptKey, Receipt>
    var leads: map<LeadId, Lead>
    var reports: map<PackageId, Report>

    function View(): Store
      reads this
    {
      Store(packages, rows, receipts, leads, reports)
    }

    ghost predicate Valid()
      reads this
    {
      Inv(View())
    }

    constructor ()
      ensures Valid() && View() == Initial()
    {
      packages, rows, receipts, leads, reports := map[], map[], map[], map[], map[];
    }

    method Restore(s: Store)
      modifies this
      ensures View() == s
    {
      packages, rows, receipts, leads, reports := s.packages, s.rows, s.receipts, s.leads, s.reports;
    }

    method DecideRow(ctx: Ctx, package: PackageId, id: RowId, input: DecisionInput) returns (r: Result<(), Refusal>)
      requires Valid()
      modifies this`rows, this`receipts
      ensures Valid() && Transacted(old(View()), View(), Decide(old(View()), ctx, package, id, input), r)
      ensures r.Ok? ==> DecidedRow(old(View()), View(), package, id, input.key)
    {
      ghost var before := View();
      if !WellFormed(input) {
        return Refused(InputInvalid);
      }
      var missing := Find(View(), ctx, package, id);
      if missing.Some? {
        return Refused(missing.value);
      }
      if Retired(View(), package, input.key) {
        return Refused(SupersededKey);
      }
      if input.action == Defer {
        r := DeferOne(ctx, package, id, input);
        if r.Ok? {
          DecisionKeeps(before, ctx, package, id, input);
        }
        return;
      }
      if id !in ctx.annotated {
        return Refused(AnnotationsRefused);
      }
      var row := rows[id];
      if row.decision.Some? && row.decision.value.input.key == input.key {
        var replay := ReplayDecision(View(), ctx, id, input);
        if replay.Ok? {
          DecisionKeeps(before, ctx, package, id, input);
        }
        return if replay.Ok? then Ok(()) else Refused(replay.error);
      }
      if row.state != Review || row.version != input.expectedVersion || row.decision.Some? {
        return Refused(DecisionConflict);
      }
      var values := Resolved(row.mapped, input);
      var refusal := Admissible(View(), ctx, id, input, values);
      if refusal.Some? {
        return Refused(refusal.value);
      }
      if KeyInUse(View(), package, input.key) {
        return Refused(KeyTaken);
      }
      rows := rows[id := row.(state := Ready, version := row.version + 1,
                              decision := Some(Decision(input, ctx.actor, values)))];
      assert View() == Decide(before, ctx, package, id, input).value;
      DecisionKeeps(before, ctx, package, id, input);
      return Ok(());
    }

    method DeferOne(ctx: Ctx, package: PackageId, id: RowId, input: DecisionInput) returns (r: Result<(), Refusal>)
      requires id in rows
      modifies this`rows, this`receipts
      ensures Transacted(old(View()), View(), DeferRow(old(View()), ctx, package, id, input), r)
    {
      var row, k := rows[id], DeferKey(package, input.key);
      if row.lead.Some? || CommitKey(package, id) in receipts {
        return Refused(CommittedCannotDefer);
      }
      if k in receipts {
        var existing := receipts[k];
        if row.decision.None? || row.decision.value.input.key != input.key {
          return Refused(DeferralKeyConflict);
        }
        if existing.actor != ctx.actor || !existing.DeferReceipt? || !SameDecision(existing.decision.input, input)
           || existing.decision.input.expectedVersion != row.decision.value.input.expectedVersion
           || !ValidDeferral(View(), id) {
          return Refused(DeferralKeyConflict);
        }
        return Ok(());
      }
      if row.state != Review || row.version != input.expectedVersion || row.decision.Some? || package !in packages
          || packages[package].state == Uploading {
        return Refused(DeferralConflict);
      }
      if KeyInUse(View(), package, input.key) {
        return Refused(KeyTaken);
      }
      var decision := Decision(input, ctx.actor, row.mapped);
      rows := rows[id := row.(state := Deferred, version := row.version + 1, decision := Some(decision))];
      receipts := receipts[k := DeferReceipt(ctx.actor, id, decision)];
      return Ok(());
    }

    /** A reopening sent again: the saved receipt must be the same and the actor's own. */
    method ReplayReopening(ctx: Ctx, package: PackageId, id: RowId, input: ReopenInput) returns (r: Result<(), Refusal>)
      requires id in rows && ReopenKey(package, input.key) in receipts
      ensures r == ReopenReplay(View(), ctx, package, id, input)
    {
      var saved, row := receipts[ReopenKey(package, input.key)], rows[id];
      if saved.actor != ctx.actor || !saved.ReopenReceipt? || saved.previous.actor != ctx.actor
         || (row.decision.Some? && row.decision.value.actor != ctx.actor) {
        return Refused(PermissionDenied);
      }
      return if saved.input != input || saved.row != id then Refused(ReopenKeyConflict) else Ok(());
    }

    method ReopenRow(ctx: Ctx, package: PackageId, id: RowId, input: ReopenInput) returns (r: Result<(), Refusal>)
      requires Valid()
      modifies this`rows, this`receipts
      ensures Valid() && Transacted(old(View()), View(), Reopen(old(View()), ctx, package, id, input), r)
      ensures r.Ok? ==> ReopenedRow(old(View()), View(), package, id)
    {
      ghost var before := View();
      if input.expectedVersion < 1 {
        return Refused(InputInvalid);
      }
      var missing := Find(View(), ctx, package, id);
      if missing.Some? {
        return Refused(missing.value);
      }
      var row, k := rows[id], ReopenKey(package, input.key);
      if row.lead.Some? || row.state == Accepted || row.state == Ignored || CommitKey(package, id) in receipts {
        return Refused(CommittedCannotReopen);
      }
      if k in receipts {
        r := ReplayReopening(ctx, package, id, input);
        if r.Ok? {
          ReopeningKeeps(before, ctx, package, id, input);
        }
        return;
      }
      if row.decision.None? || row.decision.value.actor != ctx.actor {
        return Refused(PermissionDenied);
      }
      if (row.state != Ready && row.state != Deferred) || row.version != input.expectedVersion
          || input.key == row.decision.value.input.key {
        return Refused(ReopenConflict);
      }
      if row.state == Deferred && !ValidDeferral(View(), id) {
        return Refused(DeferralIntegrity);
      }
      rows := rows[id := row.(state := Review, version := row.version + 1, decision := None)];
      receipts := receipts[k := ReopenReceipt(ctx.actor, id, input, row.decision.value)];
      assert View() == Reopen(before, ctx, package, id, input).value;
      ReopeningKeeps(before, ctx, package, id, input);
      return Ok(());
    }

    /** The lead a decided row is committed to: none, a new one, or the one it names. */
    method CommitLead(ctx: Ctx, id: RowId) returns (r: Result<Option<LeadId>, Refusal>)
      requires id in rows && rows[id].package in packages && rows[id].decision.Some?
      requires rows[id].decision.value.actor == ctx.actor
      requires CommitKey(rows[id].package, id) !in receipts && rows[id].lead == None
      modifies this`leads
      ensures r.Refused? ==> View() == old(View()) && CommitRow(old(View()), ctx, id) == Refused(r.error)
      ensures r.Ok? ==> CommitRow(old(View()), ctx, id) == Ok(WithCommit(View(), ctx, id, r.value))
    {
      var d := rows[id].decision.value;
      if d.input.action == Ignore {
        return Ok(None);
      }
      if d.input.action == Create {
        var refusal := ValidateCreate(View(), ctx, id, d.values);
        if refusal.Some? {
          return Refused(refusal.value);
        }
        var leadId := ctx.newLeads(id);
        if leadId in leads {
          return Refused(IdentifierTaken);
        }
        leads := leads[leadId := Lead(packages[rows[id].package].campus, NormalizeEmail(d.values.email),
                                      NormalizePhone(d.values.phone), true)];
        assert CommitRow(old(View()), ctx, id) == Ok(WithCommit(View(), ctx, id, Some(leadId)));
        return Ok(Some(leadId));
      }
      if d.input.action == Link {
        if id !in ctx.acceptable {
          return Refused(ContentRefused);
        }
        if d.input.target.None? {
          return Refused(DecisionConflict);
        }
        return if d.input.target.value !in ctx.linkable then Refused(LinkRefused) else Ok(d.input.target);
      }
      return Refused(DecisionConflict);
    }

    method CommitOne(ctx: Ctx, package: PackageId, id: RowId) returns (r: Result<(), Refusal>)
      requires Valid() && package in packages && AllReady(View(), package, [id])
      modifies this`rows, this`receipts, this`leads
      ensures Valid() && Transacted(old(View()), View(), CommitRow(old(View()), ctx, id), r)
      ensures r.Ok? ==> id in rows && Terminal(rows[id]) && CommitKey(package, id) in receipts
    {
      ghost var before := View();
      ReadyIsUncommitted(before, package, id);
      if rows[id].decision.None? || rows[id].decision.value.actor != ctx.actor {
        return Refused(SourceIntegrity);
      }
      var lead := CommitLead(ctx, id);
      if lead.Refused? {
        return Refused(lead.error);
      }
      ghost var led := View();
      var row := rows[id];
      var state := if row.decision.value.input.action == Ignore then Ignored else Accepted;
      rows := rows[id := row.(state := state, version := row.version + 1, lead := lead.value)];
      receipts := receipts[CommitKey(row.package, id) := CommitReceipt(ctx.actor, id, lead.value)];
      assert View() == WithCommit(led, ctx, id, lead.value);
      assert View() == CommitRow(before, ctx, id).value;
      CommitKeeps(before, ctx, package, id);
      return Ok(());
    }

    method CommitEach(ctx: Ctx, package: PackageId, ready: seq<RowId>) returns (r: Result<(), Refusal>)
      requires Valid() && package in packages && AllReady(View(), package, ready) && DistinctRows(ready)
      modifies this
      ensures Valid() && Transacted(old(View()), View(), CommitRows(old(View()), ctx, ready), r)
    {
      var before := View();
      for i := 0 to |ready|
        invariant Valid() && package in packages && AllReady(View(), package, ready[i..])
        invariant CommitRows(View(), ctx, ready[i..]) == CommitRows(before, ctx, ready)
      {
        assert ready[i..][1..] == ready[i + 1..] && ready[i] in ready[i..];
        ghost var here := View();
        assert AllReady(here, package, [ready[i]]) && ready[i] in rows && rows[ready[i]].package == package;
        var committed := CommitOne(ctx, package, ready[i]);
        if committed.Refused? {
          Restore(before);
          return committed;
        }
        DistinctTail(ready, i);
        ImportSafety.CommitOne(here, ctx, package, ready[i]);
        RestIsReady(here, View(), ctx, package, ready[i..]);
      }
      return Ok(());
    }

    /** The decided rows of the actor, in order, up to the limit. */
    method SelectReady(ctx: Ctx, package: PackageId, input: ConfirmInput) returns (ready: seq<RowId>)
      requires WellFormedConfirm(input)
      ensures ready == Selected(View(), ctx, package, input)
    {
      var owned := OwnedReady(View(), ctx, package, input.rowIds);
      ready := Sorted(owned);
      InOrderIsTheSorting(owned, ready);
      if |ready| > input.limit {
        ready := ready[..input.limit];
      }
    }

    /** The saved rows are validated again; nothing is written. */
    method ReplayConfirmation(ctx: Ctx, package: PackageId, input: ConfirmInput) returns (r: Result<(), Refusal>)
      requires WellFormedConfirm(input) && package in packages && ctx.authorized
      requires ConfirmKey(package, input.key) in receipts
      ensures Transacted(View(), View(), Confirm(View(), ctx, package, input), r)
    {
      var saved := receipts[ConfirmKey(package, input.key)];
      if saved.actor != ctx.actor || !saved.ConfirmReceipt? || saved.confirmed != input {
        return Refused(ConfirmKeyConflict);
      }
      for i := 0 to |saved.rows|
        invariant RevalidateAll(View(), ctx, package, saved.rows[i..])
            == RevalidateAll(View(), ctx, package, saved.rows)
      {
        assert saved.rows[i..][1..] == saved.rows[i + 1..];
        var refusal := Revalidate(View(), ctx, package, saved.rows[i]);
        if refusal.Some? {
          return Refused(refusal.value);
        }
      }
      return Ok(());
    }

    method ConfirmRows(ctx: Ctx, package: PackageId, input: ConfirmInput) returns (r: Result<(), Refusal>)
      requires Valid()
      modifies this
      ensures Valid() && Transacted(old(View()), View(), Confirm(old(View()), ctx, package, input), r)
      ensures r.Ok? ==> Confirmed(old(View()), View(), package, input)
    {
      ghost var before := View();
      if !WellFormedConfirm(input) {
        return Refused(InputInvalid);
      }
      if package !in packages {
        return Refused(NotFound);
      }
      if !ctx.authorized {
        return Refused(PermissionDenied);
      }
      if ConfirmKey(package, input.key) in receipts {
        r := ReplayConfirmation(ctx, package, input);
      } else {
        r := ConfirmNew(ctx, package, input);
      }
      if r.Ok? {
        ConfirmationKeeps(before, ctx, package, input);
      }
    }

    method ConfirmNew(ctx: Ctx, package: PackageId, input: ConfirmInput) returns (r: Result<(), Refusal>)
      requires Valid() && WellFormedConfirm(input) && package in packages && ctx.authorized
      requires ConfirmKey(package, input.key) !in receipts
      modifies this
      ensures Transacted(old(View()), View(), Confirm(old(View()), ctx, package, input), r)
    {
      var p := packages[package];
      if (p.state != Mapped && p.state != Partial) || p.version != input.expectedVersion {
        return Refused(ConfirmConflict);
      }
      var ready := SelectReady(ctx, package, input);
      if input.rowIds.Some? && |ready| != |input.rowIds.value| {
        return Refused(RowsChanged);
      }
      if ready == [] {
        return Refused(NoOwnedRows);
      }
      SelectedAreReady(View(), ctx, package, input);
      r := CommitEach(ctx, package, ready);
      if r.Ok? {
        Settle(ctx, package, input, ready);
      }
    }

    method Settle(ctx: Ctx, package: PackageId, input: ConfirmInput, ready: seq<RowId>)
      requires package in packages
      modifies this`reports, this`packages, this`receipts
      ensures View() == Settled(old(View()), ctx, package, input, ready)
    {
      var counts, p := ReportOf(View(), package), packages[package];
      reports := reports[package := counts];
      packages := packages[package :=
          p.(state := if counts.error > 0 then Partial else Completed, version := p.version + 1)];
      receipts := receipts[ConfirmKey(package, input.key) := ConfirmReceipt(ctx.actor, input, ready)];
    }

    method DecideEach(ctx: Ctx, package: PackageId, items: seq<BlockItem>) returns (r: Result<(), Refusal>)
      requires Valid()
      modifies this
      ensures Valid() && Transacted(old(View()), View(), DecideAll(old(View()), ctx, package, items), r)
    {
      var before := View();
      for i := 0 to |items|
        invariant Valid()
        invariant DecideAll(View(), ctx, package, items[i..]) == DecideAll(before, ctx, package, items)
      {
        assert items[i..][1..] == items[i + 1..];
        if !Current(View(), package, items[i]) {
          Restore(before);
          return Refused(BlockRowChanged);
        }
        var decided := DecideRow(ctx, package, items[i].rowId, items[i].decision);
        if decided.Refused? {
          Restore(before);
          return decided;
        }
      }
      return Ok(());
    }

    /** The decisions, then the confirmation of those that are not deferrals, or the bare move of the package. */
    method DecideAndConfirm(ctx: Ctx, package: PackageId, input: BlockInput) returns (r: Result<(), Refusal>)
      requires Valid() && package in packages
      modifies this
      ensures match DecideAll(old(View()), ctx, package, input.items)
        case Refused(e) => r == Refused(e)
        case Ok(decided) =>
          if RowIds(input.items, false) == [] then r == Ok(()) && View() == Bumped(decided, package)
          else Transacted(decided, View(), Confirm(decided, ctx, package, BlockConfirm(input)), r)
    {
      r := DecideEach(ctx, package, input.items);
      if r.Refused? {
        return;
      }
      if RowIds(input.items, false) != [] {
        r := ConfirmRows(ctx, package, BlockConfirm(input));
        return;
      }
      packages := packages[package := packages[package].(state := Partial, version := packages[package].version + 1)];
    }

    /** Every item is checked against its row again; nothing is written. */
    method ReplayBlock(ctx: Ctx, package: PackageId, input: BlockInput) returns (r: Result<(), Refusal>)
      requires BlockKey(package, input.key) in receipts
      ensures var saved := receipts[BlockKey(package, input.key)];
        r == if saved.actor != ctx.actor || !saved.BlockReceipt? || saved.block != input then Refused(BlockKeyConflict)
             else if BlockReplay(View(), ctx, package, input.items).Some?
                 then Refused(BlockReplay(View(), ctx, package, input.items).value)
             else Ok(())
    {
      var saved := receipts[BlockKey(package, input.key)];
      if saved.actor != ctx.actor || !saved.BlockReceipt? || saved.block != input {
        return Refused(BlockKeyConflict);
      }
      for i := 0 to |input.items|
        invariant BlockReplay(View(), ctx, package, input.items[i..]) == BlockReplay(View(), ctx, package, input.items)
      {
        assert input.items[i..][1..] == input.items[i + 1..];
        var refusal := ReplayItem(View(), ctx, package, input.items[i]);
        if refusal.Some? {
          return Refused(refusal.value);
        }
      }
      return Ok(());
    }

    method RunBlock(ctx: Ctx, package: PackageId, input: BlockInput) returns (r: Result<(), Refusal>)
      requires Valid()
      modifies this
      ensures Valid() && Transacted(old(View()), View(), ExecuteBlock(old(View()), ctx, package, input), r)
      ensures r.Ok? && old(NewBlock(View(), package, input)) ==> BlockEffect(old(View()), View(), ctx, package, input)
    {
      if !WellFormedBlock(input) {
        return Refused(InputInvalid);
      }
      if package !in packages {
        return Refused(NotFound);
      }
      if !ctx.authorized {
        return Refused(PermissionDenied);
      }
      if packages[package].sha != input.sha {
        return Refused(BlockSourceChanged);
      }
      var k := BlockKey(package, input.key);
      if k in receipts {
        r := ReplayBlock(ctx, package, input);
        return;
      }
      if packages[package].version != input.expectedVersion
          || (packages[package].state != Mapped && packages[package].state != Partial) {
        return Refused(BlockVersionChanged);
      }
      var before := View();
      r := DecideAndConfirm(ctx, package, input);
      if r.Ok? && !ctx.reconciled {
        r := Refused(ReconciliationFailed);
      }
      if r.Refused? {
        Restore(before);
        return;
      }
      receipts := receipts[k := BlockReceipt(ctx.actor, input, RowIds(input.items, false), RowIds(input.items, true))];
      assert View() == ExecuteBlock(before, ctx, package, input).value;
      BlockKeeps(before, ctx, package, input);
    }
  }
}
