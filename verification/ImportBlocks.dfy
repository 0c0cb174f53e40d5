/**
 A block is the plain sequence of its decisions followed by one confirmation, in a single
 transaction: what it changes, that a replay changes nothing, and that the sequence of
 separate transactions would leave the same store.
 */
module ImportBlocks {
  import opened Prelude
  import opened Collections
  import opened ImportContacts
  import opened ImportLedger
  import opened ImportSafety

  // ---------------------------------------------------------------- the decisions

  predicate Listed(items: seq<BlockItem>, r: RowId) {
    exists i :: 0 <= i < |items| && items[i].rowId == r
  }

  /** The row was decided by the item, and deferred with its receipt if the item says so. */
  predicate DecidedBy(s: Store, s': Store, ctx: Ctx, package: PackageId, item: BlockItem) {
    && item.rowId in s.rows && item.rowId in s'.rows
    && s'.rows[item.rowId].package == package && s'.rows[item.rowId].version == s.rows[item.rowId].version + 1
    && s.rows[item.rowId].state == Review && s.rows[item.rowId].package == package
    && s.rows[item.rowId].fingerprint == s'.rows[item.rowId].fingerprint == item.fingerprint
    && s'.rows[item.rowId].state == (if item.decision.action == Defer then Deferred else Ready)
    && s'.rows[item.rowId].decision.Some? && s'.rows[item.rowId].decision.value.input == item.decision
    && s'.rows[item.rowId].decision.value.actor == ctx.actor && s'.rows[item.rowId].mapped == s.rows[item.rowId].mapped
    && Overridden(s'.rows[item.rowId])
    && (item.decision.action == Defer ==> DeferKey(package, item.decision.key) in s'.receipts)
  }

  /** Exactly the listed rows were decided. */
  ghost predicate DecidedFrom(s: Store, s': Store, ctx: Ctx, package: PackageId, items: seq<BlockItem>) {
    && s'.rows.Keys == s.rows.Keys && s'.packages == s.packages && s'.reports == s.reports && s'.leads == s.leads
    && (forall r :: r in s.rows && !Listed(items, r) ==> s'.rows[r] == s.rows[r])
    && (forall i :: 0 <= i < |items| ==> DecidedBy(s, s', ctx, package, items[i]))
    && (forall k :: k in s.receipts ==> k in s'.receipts && s'.receipts[k] == s.receipts[k])
    && (forall k :: k in s'.receipts && k !in s.receipts ==> k.DeferKey? && k.package == package)
  }

  predicate DistinctItems(items: seq<BlockItem>) {
    forall i, j :: 0 <= i < j < |items| ==> items[i].rowId != items[j].rowId
  }

  lemma DecideOne(s: Store, ctx: Ctx, package: PackageId, item: BlockItem)
    requires Inv(s) && Current(s, package, item) && Decide(s, ctx, package, item.rowId, item.decision).Ok?
    ensures var s' := Decide(s, ctx, package, item.rowId, item.decision).value;
      Inv(s') && DecidedFrom(s, s', ctx, package, [item])
  {
    var s' := Decide(s, ctx, package, item.rowId, item.decision).value;
    if item.decision.action == Defer {
      DeferSteps(s, ctx, package, item.rowId, item.decision);
      NewDeferralChanges(s, ctx, package, item);
    } else {
      DecideSteps(s, ctx, package, item.rowId, item.decision);
    }
    SteppedKeepsInv(s, s', item.rowId);
    assert forall r :: !Listed([item], r) ==> r != item.rowId by {
      assert [item][0].rowId == item.rowId;
    }
  }

  /** The row of a current item has no decision, so its decision cannot be a replay. */
  lemma NewDeferralChanges(s: Store, ctx: Ctx, package: PackageId, item: BlockItem)
    requires Current(s, package, item) && item.decision.action == Defer
    requires Decide(s, ctx, package, item.rowId, item.decision).Ok?
    ensures Decide(s, ctx, package, item.rowId, item.decision).value != s
  {
  }

  lemma DecideMore(s: Store, s1: Store, s': Store, ctx: Ctx, package: PackageId, items: seq<BlockItem>)
    requires items != [] && DistinctItems(items)
    requires DecidedFrom(s, s1, ctx, package, [items[0]]) && DecidedFrom(s1, s', ctx, package, items[1..])
    ensures DecidedFrom(s, s', ctx, package, items)
  {
    var rest := items[1..];
    assert forall i :: 0 <= i < |rest| ==> rest[i] == items[i + 1];
    assert [items[0]][0] == items[0];
    assert !Listed(rest, items[0].rowId);
    forall i | 0 <= i < |items| ensures DecidedBy(s, s', ctx, package, items[i]) {
      if i == 0 {
        assert DecidedBy(s, s1, ctx, package, [items[0]][0]);
      } else {
        assert DecidedBy(s1, s', ctx, package, rest[i - 1]);
        assert !Listed([items[0]], items[i].rowId);
      }
    }
    forall r | r in s.rows && !Listed(items, r) ensures s'.rows[r] == s.rows[r] {
      assert !Listed([items[0]], r) by { assert items[0].rowId != r; }
      assert !Listed(rest, r) by {
        assert forall i :: 0 <= i < |rest| ==> rest[i].rowId != r;
      }
    }
  }

  lemma {:induction false} DecideAllDecides(s: Store, ctx: Ctx, package: PackageId, items: seq<BlockItem>)
    requires Inv(s) && DistinctItems(items) && DecideAll(s, ctx, package, items).Ok?
    ensures Inv(DecideAll(s, ctx, package, items).value)
    ensures DecidedFrom(s, DecideAll(s, ctx, package, items).value, ctx, package, items)
    decreases |items|
  {
    if items != [] {
      var s1, s' := Decide(s, ctx, package, items[0].rowId, items[0].decision).value,
          DecideAll(s, ctx, package, items).value;
      DecideOne(s, ctx, package, items[0]);
      assert DistinctItems(items[1..]);
      DecideAllDecides(s1, ctx, package, items[1..]);
      DecideMore(s, s1, s', ctx, package, items);
    }
  }

  // ---------------------------------------------------------------- the rows to confirm

  lemma {:induction false} RowIdsOf(items: seq<BlockItem>, deferred: bool)
    requires DistinctItems(items)
    ensures forall r :: r in RowIds(items, deferred) <==>
      exists i :: 0 <= i < |items| && items[i].rowId == r && (items[i].decision.action == Defer) == deferred
    ensures DistinctRows(RowIds(items, deferred)) && |RowIds(items, deferred)| <= |items|
    decreases |items|
  {
    if items != [] {
      var rest := items[1..];
      assert forall i :: 0 <= i < |rest| ==> rest[i] == items[i + 1];
      RowIdsOf(rest, deferred);
      var ids := RowIds(rest, deferred);
      forall r ensures r in RowIds(items, deferred) <==>
        exists i :: 0 <= i < |items| && items[i].rowId == r && (items[i].decision.action == Defer) == deferred
      {
        if i :| 0 <= i < |items| && items[i].rowId == r && (items[i].decision.action == Defer) == deferred {
          if i > 0 {
            assert rest[i - 1].rowId == r && (rest[i - 1].decision.action == Defer) == deferred;
            assert r in ids;
          }
        }
        if r in ids {
          var i :| 0 <= i < |rest| && rest[i].rowId == r && (rest[i].decision.action == Defer) == deferred;
          assert items[i + 1].rowId == r;
        }
      }
      assert items[0].rowId !in ids;
      assert RowIds(items, deferred) == [items[0].rowId] + ids || RowIds(items, deferred) == ids;
    }
  }

  lemma {:induction false} SetOfRows(ids: seq<RowId>)
    requires DistinctRows(ids)
    ensures |set r | r in ids| == |ids|
    decreases |ids|
  {
    if ids != [] {
      assert ids == [ids[0]] + ids[1..];
      SetOfRows(ids[1..]);
      assert ids[0] !in ids[1..];
      SetOfCons(ids[0], ids[1..]);
    }
  }

  /** After the decisions, the confirmation selects exactly the rows that were not deferred. */
  lemma BlockSelectsItsRows(s: Store, s': Store, ctx: Ctx, package: PackageId, input: BlockInput)
    requires WellFormedBlock(input) && DecidedFrom(s, s', ctx, package, input.items) && RowIds(input.items, false) != []
    ensures WellFormedConfirm(BlockConfirm(input))
    ensures var ready := Selected(s', ctx, package, BlockConfirm(input));
      |ready| == |RowIds(input.items, false)| && forall r :: r in ready <==> r in RowIds(input.items, false)
  {
    var ids := RowIds(input.items, false);
    RowIdsOf(input.items, false);
    SetOfRows(ids);
    var owned := OwnedReady(s', ctx, package, Some(ids));
    forall r | r in ids ensures r in owned {
      var i :| 0 <= i < |input.items| && input.items[i].rowId == r
          && (input.items[i].decision.action == Defer) == false;
      assert DecidedBy(s, s', ctx, package, input.items[i]);
    }
    assert forall r :: r in owned ==> r in ids;
    SameElements(owned, set r | r in ids);
    InOrderSorts(owned);
  }

  // ---------------------------------------------------------------- the whole block

  /** The receipts of confirmations made at this version do not exist yet. */
  lemma BlockConfirmationIsNew(s: Store, decided: Store, ctx: Ctx, package: PackageId, input: BlockInput)
    requires Inv(s) && DecidedFrom(s, decided, ctx, package, input.items)
    requires package in s.packages && s.packages[package].version == input.expectedVersion
    requires Confirm(decided, ctx, package, BlockConfirm(input)).Ok?
    ensures Fresh(decided, package, BlockConfirm(input))
  {
    ConfirmationsArePast(s);
    assert ConfirmKey(package, OfBlock(input)) in decided.receipts ==>
        ConfirmKey(package, OfBlock(input)) in s.receipts;
  }

  lemma ConfirmationsArePast(s: Store)
    requires ReceiptsOk(s)
    ensures forall k :: k in s.receipts && k.ConfirmKey? ==>
      s.receipts[k].ConfirmReceipt? && k.package in s.packages
          && s.receipts[k].confirmed.expectedVersion < s.packages[k.package].version
  {
  }

  /**
   The item's contacts where it gives them, and the mapped ones elsewhere; a created row has a lead
   of the package's campus with their normal forms, a linked row has its target.
   */
  predicate Carries(s: Store, s': Store, package: PackageId, item: BlockItem)
    requires item.rowId in s.rows && item.rowId in s'.rows && s'.rows[item.rowId].decision.Some?
  {
    var row, mapped, wanted := s'.rows[item.rowId], s.rows[item.rowId].mapped, item.decision;
    var values := row.decision.value.values;
    && values.email == (if wanted.email.Some? then wanted.email else mapped.email)
    && values.phone == (if wanted.phone.Some? then wanted.phone else mapped.phone)
    && (wanted.action == Link ==> row.lead == wanted.target)
    && (wanted.action == Create ==>
          && row.lead.Some? && row.lead.value in s'.leads && package in s.packages
          && s'.leads[row.lead.value] == Lead(s.packages[package].campus, NormalizeEmail(values.email),
                                              NormalizePhone(values.phone), true))
  }

  /** The row of an item ended as its decision says, with its receipt. */
  predicate EndedBy(s: Store, s': Store, ctx: Ctx, package: PackageId, item: BlockItem) {
    && item.rowId in s.rows && item.rowId in s'.rows
    && s'.rows[item.rowId].package == package && s'.rows[item.rowId].fingerprint == item.fingerprint
    && s'.rows[item.rowId].decision.Some? && s'.rows[item.rowId].decision.value.input == item.decision
    && s'.rows[item.rowId].decision.value.actor == ctx.actor && s'.rows[item.rowId].mapped == s.rows[item.rowId].mapped
    && Carries(s, s', package, item)
    && match item.decision.action
       case Defer => s'.rows[item.rowId].state == Deferred && DeferKey(package, item.decision.key) in s'.receipts
       case Ignore => s'.rows[item.rowId].state == Ignored && CommitKey(package, item.rowId) in s'.receipts
       case _ => s'.rows[item.rowId].state == Accepted && CommitKey(package, item.rowId) in s'.receipts
  }

  /** Exactly the listed rows change, each as its decision says, and the version of the package rises by one. */
  ghost predicate BlockEffect(s: Store, s': Store, ctx: Ctx, package: PackageId, input: BlockInput) {
    && package in s.packages && package in s'.packages
    && s'.rows.Keys == s.rows.Keys && (forall r :: r in s.rows && !Listed(input.items, r) ==> s'.rows[r] == s.rows[r])
    && (forall i :: 0 <= i < |input.items| ==> EndedBy(s, s', ctx, package, input.items[i]))
    && s'.packages == s.packages[package := s'.packages[package]]
    && s'.packages[package].version == s.packages[package].version + 1
    && s'.packages[package].campus == s.packages[package].campus && s'.packages[package].sha == s.packages[package].sha
    && (forall k :: k in s.receipts ==> k in s'.receipts && s'.receipts[k] == s.receipts[k])
  }

  lemma ConfirmedEffect(s: Store, decided: Store, committed: Store, ctx: Ctx, package: PackageId, input: BlockInput,
                        ready: seq<RowId>)
    requires WellFormedBlock(input) && DecidedFrom(s, decided, ctx, package, input.items)
    requires CommittedFrom(decided, committed, ctx, package, ready)
    requires package in s.packages && (forall r :: r in ready <==> r in RowIds(input.items, false))
    requires Fresh(decided, package, BlockConfirm(input))
    ensures BlockEffect(s, Settled(committed, ctx, package, BlockConfirm(input), ready), ctx, package, input)
  {
    var s' := Settled(committed, ctx, package, BlockConfirm(input), ready);
    forall i | 0 <= i < |input.items| ensures EndedBy(s, s', ctx, package, input.items[i]) {
      ItemEnds(s, decided, committed, ctx, package, input, ready, i);
    }
    forall r | r in s.rows && !Listed(input.items, r) ensures s'.rows[r] == s.rows[r] {
      UnlistedStays(s, decided, committed, ctx, package, input, ready, r);
    }
    OldReceiptsStay(s, decided, committed, ctx, package, input, ready);
  }

  lemma UnlistedStays(s: Store, decided: Store, committed: Store, ctx: Ctx, package: PackageId, input: BlockInput,
                      ready: seq<RowId>, r: RowId)
    requires WellFormedBlock(input) && DecidedFrom(s, decided, ctx, package, input.items)
    requires CommittedFrom(decided, committed, ctx, package, ready)
    requires (forall r :: r in ready <==> r in RowIds(input.items, false)) && r in s.rows && !Listed(input.items, r)
    ensures committed.rows[r] == s.rows[r]
  {
    RowIdsOf(input.items, false);
    assert r !in ready;
  }

  lemma OldReceiptsStay(s: Store, decided: Store, committed: Store, ctx: Ctx, package: PackageId, input: BlockInput,
                        ready: seq<RowId>)
    requires DecidedFrom(s, decided, ctx, package, input.items)
    requires CommittedFrom(decided, committed, ctx, package, ready)
    requires package in committed.packages && Fresh(decided, package, BlockConfirm(input))
    ensures var s' := Settled(committed, ctx, package, BlockConfirm(input), ready);
      forall k :: k in s.receipts ==> k in s'.receipts && s'.receipts[k] == s.receipts[k]
  {
  }

  lemma ItemEnds(s: Store, decided: Store, committed: Store, ctx: Ctx, package: PackageId, input: BlockInput,
                 ready: seq<RowId>, i: nat)
    requires WellFormedBlock(input) && DecidedFrom(s, decided, ctx, package, input.items)
    requires CommittedFrom(decided, committed, ctx, package, ready)
    requires package in s.packages && forall r :: r in ready <==> r in RowIds(input.items, false)
    requires i < |input.items|
    ensures EndedBy(s, Settled(committed, ctx, package, BlockConfirm(input), ready), ctx, package, input.items[i])
  {
    var item := input.items[i];
    RowIdsOf(input.items, false);
    assert DecidedBy(s, decided, ctx, package, item);
    if item.decision.action == Defer {
      assert item.rowId !in ready by {
        assert forall j :: 0 <= j < |input.items| && input.items[j].rowId == item.rowId ==> j == i;
      }
      assert committed.rows[item.rowId] == decided.rows[item.rowId];
    } else {
      assert item.rowId in ready;
      assert CommittedRow(decided, committed, ctx, package, item.rowId);
    }
  }

  predicate NewBlock(s: Store, package: PackageId, input: BlockInput) { BlockKey(package, input.key) !in s.receipts }

  /** The store before the block's own receipt: the decisions, then the confirmation or the bare move. */
  ghost function BlockBody(s: Store, ctx: Ctx, package: PackageId, input: BlockInput): Result<Store, Refusal>
    requires package in s.packages
  {
    match DecideAll(s, ctx, package, input.items)
    case Refused(e) => Refused(e)
    case Ok(decided) =>
      if RowIds(input.items, false) != [] then Confirm(decided, ctx, package, BlockConfirm(input))
          else Ok(Bumped(decided, package))
  }

  lemma NewBlockIsBody(s: Store, ctx: Ctx, package: PackageId, input: BlockInput)
    requires ExecuteBlock(s, ctx, package, input).Ok? && NewBlock(s, package, input)
    ensures package in s.packages && WellFormedBlock(input) && s.packages[package].version == input.expectedVersion
    ensures s.packages[package].state == Mapped || s.packages[package].state == Partial
    ensures BlockBody(s, ctx, package, input).Ok?
    ensures var body := BlockBody(s, ctx, package, input).value;
      ExecuteBlock(s, ctx, package, input).value ==
      body.(receipts := body.receipts[BlockKey(package, input.key) :=
          BlockReceipt(ctx.actor, input, RowIds(input.items, false), RowIds(input.items, true))])
  {
  }

  lemma ConfirmedBody(s: Store, decided: Store, ctx: Ctx, package: PackageId, input: BlockInput)
    requires Inv(s) && Inv(decided) && WellFormedBlock(input) && package in s.packages
    requires s.packages[package].version == input.expectedVersion
    requires DecidedFrom(s, decided, ctx, package, input.items) && RowIds(input.items, false) != []
    requires Confirm(decided, ctx, package, BlockConfirm(input)).Ok?
    ensures var body := Confirm(decided, ctx, package, BlockConfirm(input)).value;
      Inv(body) && BlockEffect(s, body, ctx, package, input)
  {
    BlockSelectsItsRows(s, decided, ctx, package, input);
    BlockConfirmationIsNew(s, decided, ctx, package, input);
    ConfirmCommits(decided, ctx, package, BlockConfirm(input));
    var ready := Selected(decided, ctx, package, BlockConfirm(input));
    ConfirmedEffect(s, decided, CommitRows(decided, ctx, ready).value, ctx, package, input, ready);
  }

  lemma BumpedBody(s: Store, decided: Store, ctx: Ctx, package: PackageId, input: BlockInput)
    requires Inv(decided) && WellFormedBlock(input) && package in s.packages
    requires s.packages[package].state == Mapped || s.packages[package].state == Partial
    requires DecidedFrom(s, decided, ctx, package, input.items) && RowIds(input.items, false) == []
    ensures Inv(Bumped(decided, package)) && BlockEffect(s, Bumped(decided, package), ctx, package, input)
  {
    var body := Bumped(decided, package);
    RowIdsOf(input.items, false);
    BumpKeepsInv(decided, package);
    forall i | 0 <= i < |input.items| ensures EndedBy(s, body, ctx, package, input.items[i]) {
      assert input.items[i].decision.action == Defer by {
        assert input.items[i].rowId !in RowIds(input.items, false);
      }
      assert DecidedBy(s, decided, ctx, package, input.items[i]);
    }
  }

  lemma BumpKeepsInv(s: Store, package: PackageId)
    requires Inv(s) && package in s.packages
    requires s.packages[package].state == Mapped || s.packages[package].state == Partial
    ensures Inv(Bumped(s, package))
  {
    var s' := Bumped(s, package);
    forall id | id in s'.rows ensures RowOk(s', id) {
      assert RowOk(s, id);
    }
    assert RetiredUnused(s') by {
      assert forall p, k :: Retired(s', p, k) ==> Retired(s, p, k);
    }
    forall k | k in s'.receipts ensures WellKeyed(k, s'.receipts[k]) && Past(s', k, s'.receipts[k]) {
      assert WellKeyed(k, s.receipts[k]) && Past(s, k, s.receipts[k]);
    }
    SameLeads(s, s');
  }

  lemma BodyEffect(s: Store, ctx: Ctx, package: PackageId, input: BlockInput)
    requires Inv(s) && ExecuteBlock(s, ctx, package, input).Ok? && NewBlock(s, package, input)
    ensures package in s.packages && BlockBody(s, ctx, package, input).Ok?
    ensures Inv(BlockBody(s, ctx, package, input).value)
    ensures BlockEffect(s, BlockBody(s, ctx, package, input).value, ctx, package, input)
  {
    NewBlockIsBody(s, ctx, package, input);
    DecideAllDecides(s, ctx, package, input.items);
    var decided := DecideAll(s, ctx, package, input.items).value;
    if RowIds(input.items, false) != [] {
      ConfirmedBody(s, decided, ctx, package, input);
    } else {
      BumpedBody(s, decided, ctx, package, input);
    }
  }

  lemma BlockReceiptKeepsInv(s: Store, package: PackageId, key: string, r: Receipt)
    requires Inv(s) && package in s.packages && r.BlockReceipt? && r.block.expectedVersion < s.packages[package].version
    ensures Inv(s.(receipts := s.receipts[BlockKey(package, key) := r]))
  {
    var s' := s.(receipts := s.receipts[BlockKey(package, key) := r]);
    forall id | id in s'.rows ensures RowOk(s', id) {
      assert RowOk(s, id);
      assert CommitKey(s.rows[id].package, id) in s'.receipts <==> CommitKey(s.rows[id].package, id) in s.receipts;
    }
    assert RetiredUnused(s') by {
      assert forall p, k :: Retired(s', p, k) ==> Retired(s, p, k);
    }
    forall k | k in s'.receipts ensures WellKeyed(k, s'.receipts[k]) && Past(s', k, s'.receipts[k]) {
      assert k in s.receipts ==> WellKeyed(k, s.receipts[k]) && Past(s, k, s.receipts[k]);
    }
    SameLeads(s, s');
  }

  /**
   A new block that succeeds changes exactly its rows: each ends ACCEPTED, IGNORED or
   DEFERRED as its decision says, with its receipt; the package version rises by exactly
   one, with or without a confirmation.
   */
  lemma BlockChangesExactlyItsRows(s: Store, ctx: Ctx, package: PackageId, input: BlockInput)
    requires Inv(s) && ExecuteBlock(s, ctx, package, input).Ok? && NewBlock(s, package, input)
    ensures var s' := ExecuteBlock(s, ctx, package, input).value;
      Inv(s') && BlockEffect(s, s', ctx, package, input) && BlockKey(package, input.key) in s'.receipts
  {
    NewBlockIsBody(s, ctx, package, input);
    BodyEffect(s, ctx, package, input);
    var body, s' := BlockBody(s, ctx, package, input).value, ExecuteBlock(s, ctx, package, input).value;
    BlockReceiptKeepsInv(body, package, input.key,
                         BlockReceipt(ctx.actor, input, RowIds(input.items, false), RowIds(input.items, true)));
    forall i | 0 <= i < |input.items| ensures EndedBy(s, s', ctx, package, input.items[i]) {
      assert EndedBy(s, body, ctx, package, input.items[i]);
    }
  }

  lemma BlockKeepsInv(s: Store, ctx: Ctx, package: PackageId, input: BlockInput)
    requires Inv(s) && ExecuteBlock(s, ctx, package, input).Ok?
    ensures Inv(ExecuteBlock(s, ctx, package, input).value)
  {
    if NewBlock(s, package, input) {
      BlockChangesExactlyItsRows(s, ctx, package, input);
    }
  }

  // ---------------------------------------------------------------- replay

  /** The context still lets the actor see and edit what the block touched. */
  predicate StillGranted(s: Store, ctx: Ctx, items: seq<BlockItem>) {
    && ctx.authorized
    && (forall i :: 0 <= i < |items| ==> items[i].rowId in ctx.annotated && items[i].rowId in ctx.acceptable)
    && (forall r :: r in s.rows && s.rows[r].lead.Some? ==> s.rows[r].lead.value in ctx.linkable)
  }

  /** The row of the item is still of the package and was not changed since it was committed. */
  predicate SettledItem(s: Store, ctx: Ctx, package: PackageId, item: BlockItem) {
    && item.rowId in s.rows && s.rows[item.rowId].package == package
    && s.rows[item.rowId].fingerprint == item.fingerprint
    && (item.decision.action != Defer ==> EndedBy(s, s, ctx, package, item))
    && (item.decision.action == Defer && Holds(s.rows[item.rowId], package, item.decision.key) ==>
        s.rows[item.rowId].state == Deferred)
  }

  /** The deferrals among the items still stand. */
  predicate StillDeferred(s: Store, package: PackageId, items: seq<BlockItem>) {
    forall i :: 0 <= i < |items| && items[i].decision.action == Defer ==>
      items[i].rowId in s.rows && s.rows[items[i].rowId].state == Deferred
          && Holds(s.rows[items[i].rowId], package, items[i].decision.key)
  }

  /** The replay of settled items refuses exactly at a deferral that no longer stands. */
  lemma {:induction false} ReplayPassesIff(s: Store, ctx: Ctx, package: PackageId, items: seq<BlockItem>)
    requires Inv(s) && StillGranted(s, ctx, items)
    requires forall i :: 0 <= i < |items| ==> SettledItem(s, ctx, package, items[i])
    ensures BlockReplay(s, ctx, package, items) == if StillDeferred(s, package, items) then None
        else Some(BlockReceiptChanged)
    decreases |items|
  {
    if items != [] {
      var item, rest := items[0], items[1..];
      assert forall i :: 0 <= i < |rest| ==> rest[i] == items[i + 1];
      ReplayPassesIff(s, ctx, package, rest);
      assert SettledItem(s, ctx, package, item) && RowOk(s, item.rowId);
      DeferralsOf(s, package, items);
    }
  }

  lemma DeferralsOf(s: Store, package: PackageId, items: seq<BlockItem>)
    requires items != []
    ensures StillDeferred(s, package, items) <==>
        StillDeferred(s, package, [items[0]]) && StillDeferred(s, package, items[1..])
  {
    assert forall i :: 0 <= i < |items[1..]| ==> items[1..][i] == items[i + 1];
    assert [items[0]][0] == items[0];
    if StillDeferred(s, package, [items[0]]) && StillDeferred(s, package, items[1..]) {
      forall i | 0 <= i < |items| && items[i].decision.action == Defer
        ensures items[i].rowId in s.rows && s.rows[items[i].rowId].state == Deferred
        ensures Holds(s.rows[items[i].rowId], package, items[i].decision.key)
      {
        if i == 0 {
          assert [items[0]][0].decision.action == Defer;
        } else {
          assert items[1..][i - 1].decision.action == Defer;
        }
      }
    } else if StillDeferred(s, package, items) {
      assert StillDeferred(s, package, items[1..]);
    }
  }

  // ---------------------------------------------------------------- refinement

  /** The decisions of the block as transactions of their own. */
  function Separately(ctx: Ctx, package: PackageId, items: seq<BlockItem>): seq<Event>
    decreases |items|
  {
    if items == [] then []
    else
      [Transaction(ctx, package, Deciding(items[0].rowId, items[0].decision))] + Separately(ctx, package, items[1..])
  }

  lemma RunCons(s: Store, e: Event, rest: seq<Event>)
    ensures Run(s, [e] + rest) == Run(Next(s, e), rest)
  {
    assert ([e] + rest)[1..] == rest;
  }

  lemma DecidesInNext(s: Store, ctx: Ctx, package: PackageId, row: RowId, decision: DecisionInput)
    requires Decide(s, ctx, package, row, decision).Ok?
    ensures Next(s, Transaction(ctx, package, Deciding(row, decision))) == Decide(s, ctx, package, row, decision).value
  {
  }

  lemma DecideFirst(s: Store, ctx: Ctx, package: PackageId, item: BlockItem, s1: Store, rest: seq<Event>)
    requires Decide(s, ctx, package, item.rowId, item.decision) == Ok(s1)
    ensures Run(s, [Transaction(ctx, package, Deciding(item.rowId, item.decision))] + rest) == Run(s1, rest)
  {
    DecidesInNext(s, ctx, package, item.rowId, item.decision);
    RunCons(s, Transaction(ctx, package, Deciding(item.rowId, item.decision)), rest);
  }

  lemma {:induction false} SeparateDecisions(s: Store, ctx: Ctx, package: PackageId, items: seq<BlockItem>,
                                             last: seq<Event>)
    requires DecideAll(s, ctx, package, items).Ok?
    ensures Run(s, Separately(ctx, package, items) + last) == Run(DecideAll(s, ctx, package, items).value, last)
    decreases |items|
  {
    if items == [] {
      assert Separately(ctx, package, items) + last == last;
    } else {
      var s1, rest := Decide(s, ctx, package, items[0].rowId, items[0].decision).value,
          Separately(ctx, package, items[1..]) + last;
      DecideFirst(s, ctx, package, items[0], s1, rest);
      assert Separately(ctx, package, items) + last
          == [Transaction(ctx, package, Deciding(items[0].rowId, items[0].decision))] + rest;
      SeparateDecisions(s1, ctx, package, items[1..], last);
    }
  }

  /** The plain sequence of transactions: the decisions, then the confirmation if a row is to be confirmed. */
  ghost function Sequence(s: Store, ctx: Ctx, package: PackageId, input: BlockInput): Store {
    Run(s, Separately(ctx, package, input.items)
           + if RowIds(input.items, false) != [] then [Transaction(ctx, package, Confirming(BlockConfirm(input)))]
               else [])
  }

  lemma RunOne(s: Store, e: Event)
    ensures Run(s, [e]) == Next(s, e)
  {
    assert [e][1..] == [];
    assert Run(Next(s, e), []) == Next(s, e);
  }

  lemma SequenceIsBody(s: Store, ctx: Ctx, package: PackageId, input: BlockInput)
    requires package in s.packages && BlockBody(s, ctx, package, input).Ok?
    ensures package in Sequence(s, ctx, package, input).packages
    ensures BlockBody(s, ctx, package, input).value ==
      if RowIds(input.items, false) != [] then Sequence(s, ctx, package, input)
          else Bumped(Sequence(s, ctx, package, input), package)
  {
    var decided := DecideAll(s, ctx, package, input.items).value;
    if RowIds(input.items, false) != [] {
      var confirm := Transaction(ctx, package, Confirming(BlockConfirm(input)));
      SeparateDecisions(s, ctx, package, input.items, [confirm]);
      RunOne(decided, confirm);
      ConfirmsInNext(decided, ctx, package, BlockConfirm(input));
      ConfirmKeepsThePackage(decided, ctx, package, BlockConfirm(input));
    } else {
      SeparateDecisions(s, ctx, package, input.items, []);
    }
  }

  lemma ConfirmsInNext(s: Store, ctx: Ctx, package: PackageId, input: ConfirmInput)
    requires Confirm(s, ctx, package, input).Ok?
    ensures Next(s, Transaction(ctx, package, Confirming(input))) == Confirm(s, ctx, package, input).value
  {
  }

  lemma ConfirmKeepsThePackage(s: Store, ctx: Ctx, package: PackageId, input: ConfirmInput)
    requires Confirm(s, ctx, package, input).Ok?
    ensures package in Confirm(s, ctx, package, input).value.packages
  {
  }

  /**
   A new block refines the plain sequence: deciding the rows one by one and confirming them
   leaves the same store, up to the receipt of the block; a block of deferrals leaves the
   store of the decisions with the version of the package moved on.
   */
  lemma BlockRefinesTheSequence(s: Store, ctx: Ctx, package: PackageId, input: BlockInput)
    requires ExecuteBlock(s, ctx, package, input).Ok? && NewBlock(s, package, input)
    ensures var s', k := ExecuteBlock(s, ctx, package, input).value, BlockKey(package, input.key);
      var plain := Sequence(s, ctx, package, input);
      && k in s'.receipts && package in plain.packages
      && s' == (if RowIds(input.items, false) != [] then plain else Bumped(plain, package)).(receipts :=
            plain.receipts[k := s'.receipts[k]])
  {
    NewBlockIsBody(s, ctx, package, input);
    SequenceIsBody(s, ctx, package, input);
  }
}
