/** What every run of the import keeps, whatever the order of decisions, reopenings, confirmations and blocks. */
module ImportSafety {
  import opened Prelude
  import opened Collections
  import opened ImportContacts
  import opened ImportLedger

  // ---------------------------------------------------------------- invariant

  predicate Terminal(row: Row) { row.state == Accepted || row.state == Ignored }

  /** A created row passed the contact checks, a linked row has its target as lead. */
  predicate Checked(row: Row) {
    row.state == Accepted && row.decision.Some? ==>
      match row.decision.value.input.action
      case Create =>
        var v := row.decision.value.values;
        && !(Blank(v.email) && Blank(v.phone)) && (Blank(v.email) || NormalizeEmail(v.email).Some?)
        && (Blank(v.phone) || NormalizePhone(v.phone).Some?)
      case Link => row.lead == row.decision.value.input.target
      case _ => true
  }

  /** A decision stands for the operator's contacts where they are given, and for the mapped ones elsewhere. */
  predicate Overridden(row: Row) {
    row.decision.Some? ==>
      var d := row.decision.value;
      && d.values.email == (if d.input.email.Some? then d.input.email else row.mapped.email)
      && d.values.phone == (if d.input.phone.Some? then d.input.phone else row.mapped.phone)
  }

  /** A created row has a lead of its own campus with the normal forms of exactly these contacts. */
  predicate OwnLead(s: Store, row: Row)
    requires row.package in s.packages
  {
    row.state == Accepted && row.decision.Some? && row.decision.value.input.action == Create ==>
      && row.lead.Some? && row.lead.value in s.leads
      && s.leads[row.lead.value] == Lead(s.packages[row.package].campus,
                                         NormalizeEmail(row.decision.value.values.email),
                                         NormalizePhone(row.decision.value.values.phone), true)
  }

  /** A row has a decision exactly when it left review, and a commit receipt exactly when it is terminal. */
  ghost predicate RowOk(s: Store, id: RowId)
    requires id in s.rows
  {
    var row := s.rows[id];
    && row.package in s.packages
    && s.packages[row.package].state != Uploading && s.packages[row.package].state != Sealed
    && (row.decision.None? <==> row.state == Review)
    && (Terminal(row) <==> CommitKey(row.package, id) in s.receipts)
    && (row.lead.Some? <==> row.state == Accepted)
    && (row.state == Ready ==> row.decision.value.input.action != Defer)
    && (row.state == Deferred ==> ValidDeferral(s, id))
    && (row.state == Accepted ==> row.decision.value.input.action == Create || row.decision.value.input.action == Link)
    && (row.state == Ignored ==> row.decision.value.input.action == Ignore)
    && (row.decision.Some? ==> WellFormed(row.decision.value.input))
    && Checked(row) && Overridden(row) && OwnLead(s, row)
  }

  /** The leads of the import are never rewritten. */
  predicate LeadsStay(s: Store, s': Store) {
    forall l :: l in s.leads && s.leads[l].imported ==> l in s'.leads && s'.leads[l] == s.leads[l]
  }

  lemma OwnLeadStays(s: Store, s': Store, row: Row)
    requires row.package in s.packages && row.package in s'.packages && OwnLead(s, row) && LeadsStay(s, s')
    requires s'.packages[row.package].campus == s.packages[row.package].campus
    ensures OwnLead(s', row)
  {
    if row.state == Accepted && row.decision.Some? && row.decision.value.input.action == Create {
      var l := row.lead.value;
      assert l in s.leads && s.leads[l].imported;
    }
  }

  ghost predicate RowsOk(s: Store) {
    forall id :: id in s.rows ==> RowOk(s, id)
  }

  ghost predicate KeysUnique(s: Store) {
    forall a, b, p, k :: a in s.rows && b in s.rows && Holds(s.rows[a], p, k) && Holds(s.rows[b], p, k) ==> a == b
  }

  /** No row of the package is decided by a retired key. */
  ghost predicate RetiredUnused(s: Store) {
    forall id, p, k :: id in s.rows && Holds(s.rows[id], p, k) ==> !Retired(s, p, k)
  }

  predicate WellKeyed(k: ReceiptKey, r: Receipt) {
    match k
    case DeferKey(_, _) => r.DeferReceipt?
    case ReopenKey(_, _) => r.ReopenReceipt?
    case CommitKey(_, row) => r.CommitReceipt? && r.row == row
    case ConfirmKey(_, _) => r.ConfirmReceipt?
    case BlockKey(_, _) => r.BlockReceipt?
  }

  /** The version a confirmation or a block was made at is past; a committed row exists. */
  predicate Past(s: Store, k: ReceiptKey, r: Receipt) {
    && (k.ConfirmKey? && r.ConfirmReceipt? ==>
        k.package in s.packages && r.confirmed.expectedVersion < s.packages[k.package].version)
    && (k.BlockKey? && r.BlockReceipt? ==>
        k.package in s.packages && r.block.expectedVersion < s.packages[k.package].version)
    && (k.CommitKey? ==> k.row in s.rows)
  }

  ghost predicate ReceiptsOk(s: Store) {
    forall k :: k in s.receipts ==> WellKeyed(k, s.receipts[k]) && Past(s, k, s.receipts[k])
  }

  ghost predicate CompletedIsTerminal(s: Store) {
    forall id ::
      id in s.rows && s.rows[id].package in s.packages && s.packages[s.rows[id].package].state == Completed ==>
        Terminal(s.rows[id])
  }

  predicate Balanced(r: Report) { r.total == r.created + r.updated + r.ignored + r.duplicate + r.error }

  ghost predicate ReportsBalanced(s: Store) {
    forall p :: p in s.reports ==> Balanced(s.reports[p])
  }

  /** A stored contact is a normalized one. */
  predicate Canonical(l: Lead) { NormalizeEmail(l.email) == l.email && NormalizePhone(l.phone) == l.phone }

  predicate Share(a: Lead, b: Lead) {
    a.campus == b.campus && ((a.email.Some? && a.email == b.email) || (a.phone.Some? && a.phone == b.phone))
  }

  ghost predicate ContactsUnique(s: Store) {
    && (forall l :: l in s.leads && s.leads[l].imported ==> Canonical(s.leads[l]))
    && (forall a, b :: a in s.leads && b in s.leads && s.leads[a].imported && s.leads[b].imported ==>
          Share(s.leads[a], s.leads[b]) ==> a == b)
  }

  ghost predicate Inv(s: Store) {
    && RowsOk(s) && KeysUnique(s) && RetiredUnused(s) && ReceiptsOk(s)
    && CompletedIsTerminal(s) && ReportsBalanced(s) && ContactsUnique(s)
  }

  // ---------------------------------------------------------------- one row changes

  predicate OfRow(k: ReceiptKey, package: PackageId, id: RowId) {
    match k
    case DeferKey(p, _) => p == package
    case ReopenKey(p, _) => p == package
    case CommitKey(p, r) => p == package && r == id
    case _ => false
  }

  /** Only row `id` changes, it was not terminal, and receipts about it are added. */
  ghost predicate Touched(s: Store, s': Store, id: RowId) {
    && id in s.rows && s'.rows.Keys == s.rows.Keys && s'.rows[id].package == s.rows[id].package && !Terminal(s.rows[id])
    && s'.rows[id].fingerprint == s.rows[id].fingerprint && s'.rows[id].mapped == s.rows[id].mapped
    && s'.rows[id].version == s.rows[id].version + 1
    && (forall r :: r in s.rows && r != id ==> s'.rows[r] == s.rows[r])
    && s'.packages == s.packages && s'.reports == s.reports && LeadsStay(s, s')
    && (forall k :: k in s.receipts ==> k in s'.receipts && s'.receipts[k] == s.receipts[k])
    && (forall k :: k in s'.receipts && k !in s.receipts ==>
        OfRow(k, s.rows[id].package, id) && WellKeyed(k, s'.receipts[k]))
  }

  lemma OtherRowsStayOk(s: Store, s': Store, id: RowId, other: RowId)
    requires Touched(s, s', id) && other in s.rows && other != id && RowOk(s, other)
    ensures RowOk(s', other)
  {
    assert s'.rows[other] == s.rows[other];
    OwnLeadStays(s, s', s.rows[other]);
    var k := CommitKey(s.rows[other].package, other);
    assert k in s'.receipts ==> k in s.receipts;
  }

  lemma TouchedKeepsRows(s: Store, s': Store, id: RowId)
    requires Touched(s, s', id) && RowsOk(s) && RowOk(s', id)
    ensures RowsOk(s')
  {
    forall other | other in s'.rows ensures RowOk(s', other) {
      if other != id {
        OtherRowsStayOk(s, s', id, other);
      }
    }
  }

  lemma TouchedKeepsTheRest(s: Store, s': Store, id: RowId)
    requires Touched(s, s', id) && ReceiptsOk(s) && CompletedIsTerminal(s) && ReportsBalanced(s)
    ensures ReceiptsOk(s') && CompletedIsTerminal(s') && ReportsBalanced(s')
  {
    forall k | k in s'.receipts ensures WellKeyed(k, s'.receipts[k]) && Past(s', k, s'.receipts[k]) {
    }
  }

  /** The key of the row is the same as before, gone, or new to the package. */
  predicate KeyStep(s: Store, before: Row, after: Row) {
    || after.decision == before.decision
    || after.decision.None?
    || (!KeyInUse(s, after.package, after.decision.value.input.key)
        && !Retired(s, after.package, after.decision.value.input.key))
  }

  lemma TouchedKeepsKeys(s: Store, s': Store, id: RowId)
    requires Touched(s, s', id) && KeysUnique(s) && KeyStep(s, s.rows[id], s'.rows[id])
    ensures KeysUnique(s')
  {
    forall a, b, p, k | a in s'.rows && b in s'.rows && Holds(s'.rows[a], p, k) && Holds(s'.rows[b], p, k)
      ensures a == b {
      assert a != id ==> Holds(s.rows[a], p, k);
      assert b != id ==> Holds(s.rows[b], p, k);
    }
  }

  /** Retiring a key frees it first. */
  predicate RetireStep(s: Store, s': Store, id: RowId)
    requires id in s.rows && id in s'.rows
  {
    forall k :: k in s'.receipts && k !in s.receipts && k.ReopenKey? ==>
      s.rows[id].decision.Some? && s'.rows[id].decision.None?
          && RetiredBy(s'.receipts[k], s.rows[id].decision.value.input.key)
  }

  lemma TouchedKeepsRetired(s: Store, s': Store, id: RowId)
    requires Touched(s, s', id) && KeysUnique(s) && RetiredUnused(s) && ReceiptsOk(s)
    requires KeyStep(s, s.rows[id], s'.rows[id]) && RetireStep(s, s', id)
    ensures RetiredUnused(s')
  {
    forall a, p, k | a in s'.rows && Holds(s'.rows[a], p, k) ensures !Retired(s', p, k) {
      forall rk | rk in s'.receipts && rk.ReopenKey? && rk.package == p ensures !RetiredBy(s'.receipts[rk], k) {
        NewlyRetired(s, s', id, a, p, k, rk);
      }
    }
  }

  lemma NewlyRetired(s: Store, s': Store, id: RowId, a: RowId, p: PackageId, k: Key, rk: ReceiptKey)
    requires Touched(s, s', id) && KeysUnique(s) && RetiredUnused(s)
    requires KeyStep(s, s.rows[id], s'.rows[id]) && RetireStep(s, s', id)
    requires a in s'.rows && Holds(s'.rows[a], p, k) && rk in s'.receipts && rk.ReopenKey? && rk.package == p
    ensures !RetiredBy(s'.receipts[rk], k)
  {
    assert !Retired(s, p, k) by {
      assert a != id ==> Holds(s.rows[a], p, k);
      assert a == id && s'.rows[id].decision == s.rows[id].decision ==> Holds(s.rows[a], p, k);
    }
    if rk !in s.receipts {
      assert OfRow(rk, s.rows[id].package, id);
      assert a != id && Holds(s.rows[a], p, k);
      assert Holds(s.rows[id], p, s.rows[id].decision.value.input.key);
    }
  }

  /** The steps a single row can take. */
  ghost predicate Stepped(s: Store, s': Store, id: RowId) {
    && Touched(s, s', id) && RowOk(s', id) && KeyStep(s, s.rows[id], s'.rows[id]) && RetireStep(s, s', id)
    && ContactsUnique(s')
  }

  lemma SteppedKeepsInv(s: Store, s': Store, id: RowId)
    requires Inv(s) && Stepped(s, s', id)
    ensures Inv(s')
  {
    TouchedKeepsRows(s, s', id);
    TouchedKeepsKeys(s, s', id);
    TouchedKeepsRetired(s, s', id);
    TouchedKeepsTheRest(s, s', id);
  }

  // ---------------------------------------------------------------- decide, defer, reopen

  /** What one decision other than a deferral changes. */
  ghost predicate DecidedTo(s: Store, s': Store, ctx: Ctx, id: RowId, input: DecisionInput)
    requires id in s.rows && id in s'.rows
  {
    && s'.rows[id].state == Ready && s'.rows[id].decision.Some? && s'.rows[id].decision.value.input == input
    && s'.rows[id].decision.value.actor == ctx.actor && s'.receipts == s.receipts && s.rows[id].state == Review
  }

  lemma DecideTouches(s: Store, ctx: Ctx, package: PackageId, id: RowId, input: DecisionInput)
    requires id in s.rows && RowOk(s, id) && input.action != Defer
    requires Decide(s, ctx, package, id, input).Ok? && Decide(s, ctx, package, id, input).value != s
    ensures var s' := Decide(s, ctx, package, id, input).value;
      && Touched(s, s', id) && DecidedTo(s, s', ctx, id, input)
      && KeyStep(s, s.rows[id], s'.rows[id]) && RetireStep(s, s', id)
  {
  }

  lemma DecidedRowIsOk(s: Store, ctx: Ctx, package: PackageId, id: RowId, input: DecisionInput)
    requires id in s.rows && RowOk(s, id) && input.action != Defer
    requires Decide(s, ctx, package, id, input).Ok? && Decide(s, ctx, package, id, input).value != s
    ensures RowOk(Decide(s, ctx, package, id, input).value, id)
  {
    assert CommitKey(package, id) !in s.receipts;
  }

  lemma DecideSteps(s: Store, ctx: Ctx, package: PackageId, id: RowId, input: DecisionInput)
    requires Inv(s) && Decide(s, ctx, package, id, input).Ok? && input.action != Defer
    ensures id in s.rows && id in Decide(s, ctx, package, id, input).value.rows
    ensures var s' := Decide(s, ctx, package, id, input).value;
      s' == s || (Stepped(s, s', id) && DecidedTo(s, s', ctx, id, input))
  {
    var s' := Decide(s, ctx, package, id, input).value;
    assert RowOk(s, id);
    if s' != s {
      SameLeads(s, s');
      DecideTouches(s, ctx, package, id, input);
      DecidedRowIsOk(s, ctx, package, id, input);
    }
  }

  lemma SameLeads(s: Store, s': Store)
    requires ContactsUnique(s) && s'.leads == s.leads
    ensures ContactsUnique(s')
  {
  }

  /** What one deferral changes. */
  ghost predicate DeferredTo(s: Store, s': Store, ctx: Ctx, package: PackageId, id: RowId, input: DecisionInput)
    requires id in s.rows && id in s'.rows
  {
    && s'.rows[id].state == Deferred && s'.rows[id].decision.Some? && s'.rows[id].decision.value.input == input
    && s'.rows[id].decision.value.actor == ctx.actor && s.rows[id].state == Review
    && s'.receipts == s.receipts[DeferKey(package, input.key) :=
          DeferReceipt(ctx.actor, id, s'.rows[id].decision.value)]
  }

  lemma DeferTouches(s: Store, ctx: Ctx, package: PackageId, id: RowId, input: DecisionInput)
    requires id in s.rows && RowOk(s, id) && input.action == Defer
    requires Decide(s, ctx, package, id, input).Ok? && Decide(s, ctx, package, id, input).value != s
    ensures var s' := Decide(s, ctx, package, id, input).value;
      Touched(s, s', id) && DeferredTo(s, s', ctx, package, id, input) && KeyStep(s, s.rows[id], s'.rows[id])
  {
  }

  lemma DeferredRowIsOk(s: Store, ctx: Ctx, package: PackageId, id: RowId, input: DecisionInput)
    requires id in s.rows && RowOk(s, id) && input.action == Defer
    requires Decide(s, ctx, package, id, input).Ok? && Decide(s, ctx, package, id, input).value != s
    ensures RowOk(Decide(s, ctx, package, id, input).value, id)
  {
  }

  lemma DeferSteps(s: Store, ctx: Ctx, package: PackageId, id: RowId, input: DecisionInput)
    requires Inv(s) && Decide(s, ctx, package, id, input).Ok? && input.action == Defer
    ensures id in s.rows && id in Decide(s, ctx, package, id, input).value.rows
    ensures var s' := Decide(s, ctx, package, id, input).value;
      s' == s || (Stepped(s, s', id) && DeferredTo(s, s', ctx, package, id, input))
  {
    var s' := Decide(s, ctx, package, id, input).value;
    assert RowOk(s, id);
    if s' != s {
      SameLeads(s, s');
      DeferTouches(s, ctx, package, id, input);
      DeferredRowIsOk(s, ctx, package, id, input);
    }
  }

  /** What one reopening changes. */
  ghost predicate ReopenedTo(s: Store, s': Store, package: PackageId, id: RowId)
    requires id in s.rows && id in s'.rows
  {
    && s'.rows[id].state == Review && s.rows[id].decision.Some?
    && Retired(s', package, s.rows[id].decision.value.input.key)
  }

  lemma ReopenTouches(s: Store, ctx: Ctx, package: PackageId, id: RowId, input: ReopenInput)
    requires id in s.rows && RowOk(s, id) && Reopen(s, ctx, package, id, input).Ok?
    requires Reopen(s, ctx, package, id, input).value != s
    ensures var s' := Reopen(s, ctx, package, id, input).value;
      && Touched(s, s', id) && ReopenedTo(s, s', package, id)
      && KeyStep(s, s.rows[id], s'.rows[id]) && RetireStep(s, s', id)
  {
    var s', k := Reopen(s, ctx, package, id, input).value, ReopenKey(package, input.key);
    assert k in s'.receipts && RetiredBy(s'.receipts[k], s.rows[id].decision.value.input.key);
  }

  lemma ReopenedRowIsOk(s: Store, ctx: Ctx, package: PackageId, id: RowId, input: ReopenInput)
    requires id in s.rows && RowOk(s, id) && Reopen(s, ctx, package, id, input).Ok?
    requires Reopen(s, ctx, package, id, input).value != s
    ensures RowOk(Reopen(s, ctx, package, id, input).value, id)
  {
  }

  lemma ReopenSteps(s: Store, ctx: Ctx, package: PackageId, id: RowId, input: ReopenInput)
    requires Inv(s) && Reopen(s, ctx, package, id, input).Ok?
    ensures id in s.rows && id in Reopen(s, ctx, package, id, input).value.rows
    ensures var s' := Reopen(s, ctx, package, id, input).value;
      s' == s || (Stepped(s, s', id) && ReopenedTo(s, s', package, id))
  {
    var s' := Reopen(s, ctx, package, id, input).value;
    assert RowOk(s, id);
    if s' != s {
      SameLeads(s, s');
      ReopenTouches(s, ctx, package, id, input);
      ReopenedRowIsOk(s, ctx, package, id, input);
    }
  }

  // ---------------------------------------------------------------- commits

  /** A creation that passes the search shares no contact with any lead of its campus. */
  lemma CreatedIsAlone(s: Store, ctx: Ctx, id: RowId, values: Values, l: LeadId)
    requires ContactsUnique(s) && id in s.rows && s.rows[id].package in s.packages && s.rows[id].state != Accepted
    requires ValidateCreate(s, ctx, id, values) == None && l in s.leads && s.leads[l].imported
    ensures !Share(s.leads[l], Lead(s.packages[s.rows[id].package].campus, NormalizeEmail(values.email),
                                    NormalizePhone(values.phone), true))
  {
    var campus := s.packages[s.rows[id].package].campus;
    var stored := s.leads[l];
    SearchFindsStoredContacts(stored.email, values.email);
    SearchFindsStoredContacts(stored.phone, values.phone);
    EmailIsAFixpoint(stored.email);
    PhoneIsAFixpoint(stored.phone);
    assert Collision(s, campus, id, NormalizeEmail(values.email), NormalizePhone(values.phone)) == None;
    assert stored.campus == campus ==> l in ScopedLeads(s, campus);
    assert stored.campus == campus ==>
        !SameContact(stored.email, stored.phone, NormalizeEmail(values.email), NormalizePhone(values.phone));
  }

  lemma CreatedKeepsContacts(s: Store, s': Store, ctx: Ctx, id: RowId, values: Values, l: LeadId)
    requires ContactsUnique(s) && id in s.rows && s.rows[id].package in s.packages && s.rows[id].state != Accepted
    requires ValidateCreate(s, ctx, id, values) == None && l !in s.leads
    requires s'.leads == s.leads[l :=
        Lead(s.packages[s.rows[id].package].campus, NormalizeEmail(values.email), NormalizePhone(values.phone), true)]
    ensures ContactsUnique(s')
  {
    EmailIsAFixpoint(values.email);
    PhoneIsAFixpoint(values.phone);
    forall a, b | a in s'.leads && b in s'.leads && s'.leads[a].imported && s'.leads[b].imported
        && Share(s'.leads[a], s'.leads[b]) ensures a == b {
      if a == l && b != l {
        CreatedIsAlone(s, ctx, id, values, b);
      } else if b == l && a != l {
        CreatedIsAlone(s, ctx, id, values, a);
      }
    }
  }

  /** What one commit changes. */
  ghost predicate CommittedTo(s: Store, s': Store, ctx: Ctx, id: RowId)
    requires id in s.rows && id in s'.rows
  {
    && Terminal(s'.rows[id]) && s'.rows[id].decision == s.rows[id].decision
    && s'.receipts == s.receipts[CommitKey(s.rows[id].package, id) := CommitReceipt(ctx.actor, id, s'.rows[id].lead)]
    && (s'.rows[id].state == Ignored <==> s.rows[id].decision.Some? && s.rows[id].decision.value.input.action == Ignore)
    && LeadWritten(s, s', s'.rows[id])
  }

  /** A creation adds exactly its own lead; nothing else writes leads. */
  predicate LeadWritten(s: Store, s': Store, row: Row) {
    if row.decision.Some? && row.decision.value.input.action == Create then
      row.lead.Some? && row.lead.value in s'.leads && row.lead.value !in s.leads
      && s'.leads == s.leads[row.lead.value := s'.leads[row.lead.value]]
    else s'.leads == s.leads
  }

  lemma CommitWrites(s: Store, ctx: Ctx, id: RowId)
    requires id in s.rows && s.rows[id].package in s.packages && s.rows[id].lead == None && CommitRow(s, ctx, id).Ok?
    ensures s.rows[id].decision.Some? && id in CommitRow(s, ctx, id).value.rows
    ensures var s' := CommitRow(s, ctx, id).value;
      && s' == Committed(s.(leads := s'.leads), ctx, id, s'.rows[id], s'.rows[id].lead)
      && s'.rows[id] == s.rows[id].(state := if s.rows[id].decision.value.input.action == Ignore then Ignored
                                    else Accepted,
                                    version := s.rows[id].version + 1, lead := s'.rows[id].lead)
      && CommitKey(s.rows[id].package, id) !in s.receipts && LeadWritten(s, s', s'.rows[id])
  {
    var s' := CommitRow(s, ctx, id).value;
    assert s'.rows == s.rows[id := s'.rows[id]];
    assert s'.receipts == Committed(s, ctx, id, s'.rows[id], s'.rows[id].lead).receipts;
  }

  lemma CommitTouches(s: Store, ctx: Ctx, id: RowId)
    requires id in s.rows && RowOk(s, id) && s.rows[id].state == Ready && CommitRow(s, ctx, id).Ok?
    ensures Touched(s, CommitRow(s, ctx, id).value, id) && CommittedTo(s, CommitRow(s, ctx, id).value, ctx, id)
  {
    CommitWrites(s, ctx, id);
  }

  lemma CommittedRowIsOk(s: Store, ctx: Ctx, id: RowId)
    requires id in s.rows && RowOk(s, id) && s.rows[id].state == Ready && CommitRow(s, ctx, id).Ok?
    ensures RowOk(CommitRow(s, ctx, id).value, id)
  {
  }

  lemma CommitKeepsContacts(s: Store, ctx: Ctx, id: RowId)
    requires ContactsUnique(s) && id in s.rows && RowOk(s, id) && s.rows[id].state == Ready && CommitRow(s, ctx, id).Ok?
    ensures ContactsUnique(CommitRow(s, ctx, id).value)
  {
    var s', row := CommitRow(s, ctx, id).value, s.rows[id];
    if row.decision.value.input.action == Create {
      CreatedKeepsContacts(s, s', ctx, id, row.decision.value.values, ctx.newLeads(id));
    } else {
      SameLeads(s, s');
    }
  }

  lemma CommitSteps(s: Store, ctx: Ctx, id: RowId)
    requires Inv(s) && id in s.rows && s.rows[id].package in s.packages && s.rows[id].state == Ready
    requires CommitRow(s, ctx, id).Ok?
    ensures Stepped(s, CommitRow(s, ctx, id).value, id) && CommittedTo(s, CommitRow(s, ctx, id).value, ctx, id)
  {
    assert RowOk(s, id);
    CommitTouches(s, ctx, id);
    CommittedRowIsOk(s, ctx, id);
    CommitKeepsContacts(s, ctx, id);
  }

  // ---------------------------------------------------------------- the report

  /** The rows of a package by state. */
  lemma StatesPartition(s: Store, package: PackageId)
    requires RowsOk(s)
    ensures var r := ReportOf(s, package); r.total == r.created + r.ignored + r.duplicate + r.error
  {
    var review, ready, deferred := InState(s, package, Review), InState(s, package, Ready),
        InState(s, package, Deferred);
    var created, linked, ignored := AcceptedAs(s, package, Create), AcceptedAs(s, package, Link),
        InState(s, package, Ignored);
    forall id ensures id in RowsOf(s, package) <==> id in review + ready + deferred + created + linked + ignored {
      if id in RowsOf(s, package) {
        assert RowOk(s, id);
      }
    }
    SameElements(RowsOf(s, package), review + ready + deferred + created + linked + ignored);
    SizeOfSix(review, ready, deferred, created, linked, ignored);
  }

  lemma SizeOfSix<T>(a: set<T>, b: set<T>, c: set<T>, d: set<T>, e: set<T>, f: set<T>)
    requires a !! b && a !! c && a !! d && a !! e && a !! f && b !! c && b !! d && b !! e && b !! f
    requires c !! d && c !! e && c !! f && d !! e && d !! f && e !! f
    ensures |a + b + c + d + e + f| == |a| + |b| + |c| + |d| + |e| + |f|
  {
  }

  lemma SameElements<T>(a: set<T>, b: set<T>)
    requires forall x :: x in a <==> x in b
    ensures a == b
  {
  }

  /** Nothing is open exactly when every row is terminal. */
  lemma ClosedIsTerminal(s: Store, package: PackageId)
    requires RowsOk(s)
    ensures Open(s, package) == 0 <==> forall id :: id in s.rows && s.rows[id].package == package ==>
        Terminal(s.rows[id])
  {
    var review, ready, deferred := InState(s, package, Review), InState(s, package, Ready),
        InState(s, package, Deferred);
    if Open(s, package) == 0 {
      assert review == {} && ready == {} && deferred == {};
      forall id | id in s.rows && s.rows[id].package == package ensures Terminal(s.rows[id]) {
        assert id !in review && id !in ready && id !in deferred;
      }
    } else if review != {} {
      var id := Pick(review);
    } else if ready != {} {
      var id := Pick(ready);
    } else {
      var id := Pick(deferred);
    }
  }

  // ---------------------------------------------------------------- confirmations

  /** Exactly these rows were committed, each with its receipt. */
  ghost predicate CommittedFrom(s: Store, s': Store, ctx: Ctx, package: PackageId, ids: seq<RowId>) {
    && s'.rows.Keys == s.rows.Keys && s'.packages == s.packages && s'.reports == s.reports
    && LeadsAdded(s, s', ids)
    && (forall r :: r in s.rows && r !in ids ==> s'.rows[r] == s.rows[r])
    && (forall r :: r in ids ==> r in s.rows && CommittedRow(s, s', ctx, package, r))
    && (forall k :: k in s.receipts ==> k in s'.receipts && s'.receipts[k] == s.receipts[k])
    && (forall k :: k in s'.receipts && k !in s.receipts ==> k.CommitKey? && k.package == package && k.row in ids)
  }

  /** Leads are only added, each for one of these rows decided to create it. */
  ghost predicate LeadsAdded(s: Store, s': Store, ids: seq<RowId>) {
    && (forall l :: l in s.leads ==> l in s'.leads && s'.leads[l] == s.leads[l])
    && (forall l :: l in s'.leads && l !in s.leads ==> Created(s', ids, l))
  }

  ghost predicate Created(s: Store, ids: seq<RowId>, l: LeadId) {
    exists r :: r in ids && r in s.rows && CreatedBy(s.rows[r], l)
  }

  predicate CreatedBy(row: Row, l: LeadId) {
    row.lead == Some(l) && row.decision.Some? && row.decision.value.input.action == Create
  }

  ghost predicate CommittedRow(s: Store, s': Store, ctx: Ctx, package: PackageId, r: RowId)
    requires r in s.rows
  {
    && r in s'.rows && s'.rows[r].package == package && s'.rows[r].version == s.rows[r].version + 1
    && s'.rows[r].fingerprint == s.rows[r].fingerprint && s'.rows[r].mapped == s.rows[r].mapped
    && package in s'.packages && Checked(s'.rows[r]) && OwnLead(s', s'.rows[r])
    && s'.rows[r].decision == s.rows[r].decision && s.rows[r].decision.Some?
    && s.rows[r].decision.value.actor == ctx.actor
    && s'.rows[r].state == (if s.rows[r].decision.value.input.action == Ignore then Ignored else Accepted)
    && CommitKey(package, r) in s'.receipts
    && s'.receipts[CommitKey(package, r)] == CommitReceipt(ctx.actor, r, s'.rows[r].lead)
  }

  predicate AllReady(s: Store, package: PackageId, ids: seq<RowId>) {
    forall r :: r in ids ==> r in s.rows && s.rows[r].package == package && s.rows[r].state == Ready
  }

  lemma CommitOne(s: Store, ctx: Ctx, package: PackageId, id: RowId)
    requires Inv(s) && AllReady(s, package, [id]) && package in s.packages && CommitRow(s, ctx, id).Ok?
    ensures Inv(CommitRow(s, ctx, id).value) && CommittedFrom(s, CommitRow(s, ctx, id).value, ctx, package, [id])
  {
    assert id in [id];
    assert RowOk(s, id);
    CommitSteps(s, ctx, id);
    SteppedKeepsInv(s, CommitRow(s, ctx, id).value, id);
    CommitAddsItsLead(s, CommitRow(s, ctx, id).value, id);
  }

  lemma CommitAddsItsLead(s: Store, s': Store, id: RowId)
    requires id in s'.rows && LeadWritten(s, s', s'.rows[id])
    ensures LeadsAdded(s, s', [id])
  {
    forall l | l in s'.leads && l !in s.leads ensures Created(s', [id], l) {
      assert id in [id] && CreatedBy(s'.rows[id], l);
    }
  }

  lemma CommitMore(s: Store, s1: Store, s': Store, ctx: Ctx, package: PackageId, id: RowId, rest: seq<RowId>)
    requires CommittedFrom(s, s1, ctx, package, [id]) && CommittedFrom(s1, s', ctx, package, rest) && id !in rest
    ensures CommittedFrom(s, s', ctx, package, [id] + rest)
  {
    var ids := [id] + rest;
    assert forall r :: r in ids <==> r == id || r in rest;
    assert id in [id];
    LeadsAddedBy(s, s1, s', id, rest);
    forall r | r in ids ensures r in s.rows && CommittedRow(s, s', ctx, package, r) {
      if r == id {
        assert CommittedRow(s, s1, ctx, package, id) && s'.rows[id] == s1.rows[id];
        OwnLeadStays(s1, s', s1.rows[id]);
      } else {
        assert CommittedRow(s1, s', ctx, package, r) && s1.rows[r] == s.rows[r];
      }
    }
  }

  lemma LeadsAddedBy(s: Store, s1: Store, s': Store, id: RowId, rest: seq<RowId>)
    requires LeadsAdded(s, s1, [id]) && LeadsAdded(s1, s', rest)
    requires id in s1.rows ==> id in s'.rows && s'.rows[id] == s1.rows[id]
    ensures LeadsAdded(s, s', [id] + rest)
  {
    forall l | l in s'.leads && l !in s.leads ensures Created(s', [id] + rest, l) {
      if l in s1.leads {
        assert Created(s1, [id], l);
        assert id in [id] + rest;
      } else {
        assert Created(s', rest, l);
        var r :| r in rest && r in s'.rows && CreatedBy(s'.rows[r], l);
        assert r in [id] + rest;
      }
    }
  }

  lemma RestIsReady(s: Store, s1: Store, ctx: Ctx, package: PackageId, ids: seq<RowId>)
    requires ids != [] && AllReady(s, package, ids) && DistinctRows(ids) && CommittedFrom(s, s1, ctx, package, [ids[0]])
    ensures AllReady(s, package, [ids[0]]) && AllReady(s1, package, ids[1..]) && DistinctRows(ids[1..])
    ensures ids[0] !in ids[1..]
  {
    var rest := ids[1..];
    assert forall i :: 0 <= i < |rest| ==> rest[i] == ids[i + 1];
    forall r | r in rest ensures r in s1.rows && s1.rows[r] == s.rows[r] && r in ids && r != ids[0] {
      var i :| 0 <= i < |rest| && rest[i] == r;
      assert ids[i + 1] == r;
    }
    assert ids[0] in ids;
  }

  /** The first commit, and what it leaves to the others. */
  lemma FirstCommit(s: Store, ctx: Ctx, package: PackageId, ids: seq<RowId>)
    requires Inv(s) && AllReady(s, package, ids) && DistinctRows(ids) && package in s.packages
    requires ids != [] && CommitRows(s, ctx, ids).Ok?
    ensures ids[0] in s.rows && s.rows[ids[0]].package in s.packages && CommitRow(s, ctx, ids[0]).Ok?
    ensures var s1 := CommitRow(s, ctx, ids[0]).value;
      && CommitRows(s1, ctx, ids[1..]) == CommitRows(s, ctx, ids) && s1.packages == s.packages
      && Inv(s1) && CommittedFrom(s, s1, ctx, package, [ids[0]])
      && AllReady(s1, package, ids[1..]) && DistinctRows(ids[1..]) && ids[0] !in ids[1..]
  {
    assert AllReady(s, package, [ids[0]]) by { assert ids[0] in ids; }
    CommitOne(s, ctx, package, ids[0]);
    RestIsReady(s, CommitRow(s, ctx, ids[0]).value, ctx, package, ids);
  }

  lemma {:induction false} CommitRowsKeepInv(s: Store, ctx: Ctx, package: PackageId, ids: seq<RowId>)
    requires Inv(s) && AllReady(s, package, ids) && DistinctRows(ids) && package in s.packages
    requires CommitRows(s, ctx, ids).Ok?
    ensures Inv(CommitRows(s, ctx, ids).value)
    decreases |ids|
  {
    if ids != [] {
      FirstCommit(s, ctx, package, ids);
      CommitRowsKeepInv(CommitRow(s, ctx, ids[0]).value, ctx, package, ids[1..]);
    }
  }

  lemma {:induction false} CommitRowsFrom(s: Store, ctx: Ctx, package: PackageId, ids: seq<RowId>)
    requires Inv(s) && AllReady(s, package, ids) && DistinctRows(ids) && package in s.packages
    requires CommitRows(s, ctx, ids).Ok?
    ensures CommittedFrom(s, CommitRows(s, ctx, ids).value, ctx, package, ids)
    decreases |ids|
  {
    if ids != [] {
      FirstCommit(s, ctx, package, ids);
      var s1, s' := CommitRow(s, ctx, ids[0]).value, CommitRows(s, ctx, ids).value;
      CommitRowsFrom(s1, ctx, package, ids[1..]);
      CommitMore(s, s1, s', ctx, package, ids[0], ids[1..]);
      assert [ids[0]] + ids[1..] == ids;
    }
  }

  lemma CommitRowsCommit(s: Store, ctx: Ctx, package: PackageId, ids: seq<RowId>)
    requires Inv(s) && AllReady(s, package, ids) && DistinctRows(ids) && package in s.packages
    requires CommitRows(s, ctx, ids).Ok?
    ensures Inv(CommitRows(s, ctx, ids).value) && CommittedFrom(s, CommitRows(s, ctx, ids).value, ctx, package, ids)
  {
    CommitRowsKeepInv(s, ctx, package, ids);
    CommitRowsFrom(s, ctx, package, ids);
  }

  lemma SettledKeepsRows(s: Store, ctx: Ctx, package: PackageId, input: ConfirmInput, ready: seq<RowId>)
    requires RowsOk(s) && KeysUnique(s) && RetiredUnused(s) && package in s.packages
    ensures var s' := Settled(s, ctx, package, input, ready); RowsOk(s') && KeysUnique(s') && RetiredUnused(s')
  {
    var s' := Settled(s, ctx, package, input, ready);
    forall id | id in s'.rows ensures RowOk(s', id) {
      assert RowOk(s, id);
      assert CommitKey(s.rows[id].package, id) in s'.receipts <==> CommitKey(s.rows[id].package, id) in s.receipts;
    }
    assert forall p, k :: Retired(s', p, k) ==> Retired(s, p, k);
  }

  lemma SettledKeepsInv(s: Store, ctx: Ctx, package: PackageId, input: ConfirmInput, ready: seq<RowId>)
    requires Inv(s) && package in s.packages && input.expectedVersion == s.packages[package].version
    ensures Inv(Settled(s, ctx, package, input, ready))
    ensures Balanced(Settled(s, ctx, package, input, ready).reports[package])
  {
    SettledKeepsRows(s, ctx, package, input, ready);
    SettledKeepsReceipts(s, ctx, package, input, ready);
    SettledCompletes(s, ctx, package, input, ready);
    SettledReports(s, ctx, package, input, ready);
    SameLeads(s, Settled(s, ctx, package, input, ready));
  }

  lemma SettledKeepsReceipts(s: Store, ctx: Ctx, package: PackageId, input: ConfirmInput, ready: seq<RowId>)
    requires ReceiptsOk(s) && package in s.packages && input.expectedVersion == s.packages[package].version
    ensures ReceiptsOk(Settled(s, ctx, package, input, ready))
  {
    var s' := Settled(s, ctx, package, input, ready);
    forall k | k in s'.receipts ensures WellKeyed(k, s'.receipts[k]) && Past(s', k, s'.receipts[k]) {
      assert k in s.receipts ==> WellKeyed(k, s.receipts[k]) && Past(s, k, s.receipts[k]);
    }
  }

  lemma SettledCompletes(s: Store, ctx: Ctx, package: PackageId, input: ConfirmInput, ready: seq<RowId>)
    requires RowsOk(s) && CompletedIsTerminal(s) && package in s.packages
    ensures CompletedIsTerminal(Settled(s, ctx, package, input, ready))
  {
    ClosedIsTerminal(s, package);
  }

  lemma SettledReports(s: Store, ctx: Ctx, package: PackageId, input: ConfirmInput, ready: seq<RowId>)
    requires RowsOk(s) && ReportsBalanced(s) && package in s.packages
    ensures ReportsBalanced(Settled(s, ctx, package, input, ready))
    ensures Balanced(Settled(s, ctx, package, input, ready).reports[package])
  {
    StatesPartition(s, package);
  }

  predicate Fresh(s: Store, package: PackageId, input: ConfirmInput) { ConfirmKey(package, input.key) !in s.receipts }

  lemma SelectedAreReady(s: Store, ctx: Ctx, package: PackageId, input: ConfirmInput)
    requires WellFormedConfirm(input)
    ensures var ready := Selected(s, ctx, package, input);
      && AllReady(s, package, ready) && DistinctRows(ready) && |ready| <= input.limit
      && (forall r :: r in ready ==> r in OwnedReady(s, ctx, package, input.rowIds))
  {
    var owned := OwnedReady(s, ctx, package, input.rowIds);
    InOrderSorts(owned);
    var ready := Selected(s, ctx, package, input);
    forall r | r in ready ensures r in owned {
      assert r in InOrder(owned);
    }
    assert forall i :: 0 <= i < |ready| ==> ready[i] == InOrder(owned)[i];
  }

  /** A new confirmation commits the selected rows, writes a balanced report and moves the version by one. */
  lemma ConfirmCommits(s: Store, ctx: Ctx, package: PackageId, input: ConfirmInput)
    requires Inv(s) && Confirm(s, ctx, package, input).Ok? && Fresh(s, package, input)
    ensures var ready, s' := Selected(s, ctx, package, input), Confirm(s, ctx, package, input).value;
      && Inv(s') && CommitRows(s, ctx, ready).Ok? && package in s.packages
      && var committed := CommitRows(s, ctx, ready).value;
         && CommittedFrom(s, committed, ctx, package, ready) && s' == Settled(committed, ctx, package, input, ready)
         && s'.packages == s.packages[package := s'.packages[package]]
         && s'.packages[package].version == s.packages[package].version + 1
         && Balanced(s'.reports[package])
  {
    var ready := Selected(s, ctx, package, input);
    SelectedAreReady(s, ctx, package, input);
    CommitRowsCommit(s, ctx, package, ready);
    SettledKeepsInv(CommitRows(s, ctx, ready).value, ctx, package, input, ready);
  }

  lemma ConfirmKeepsInv(s: Store, ctx: Ctx, package: PackageId, input: ConfirmInput)
    requires Inv(s) && Confirm(s, ctx, package, input).Ok?
    ensures Inv(Confirm(s, ctx, package, input).value)
  {
    if Fresh(s, package, input) {
      ConfirmCommits(s, ctx, package, input);
    }
  }
}
