/**
 What each operation of the import demands and leaves, said on the stored rows, receipts and leads
 and on the input, and the contacts every decision carries to its lead.
 */
module ImportContracts {
  import opened Prelude
  import opened Collections
  import opened Text
  import opened ImportContacts
  import opened ImportLedger
  import opened ImportSafety
  import opened ImportRuns

  // ---------------------------------------------------------------- the contacts of a decision

  /**
   After any run, a decided row stands for the operator's e-mail and phone where they were given and
   for the mapped ones elsewhere; an accepted creation has an imported lead of the package's campus
   with the normal forms of exactly these, and an accepted link has the lead it names.
   */
  lemma DecisionsCarryTheirContacts(events: seq<Event>, id: RowId)
    requires id in Run(Initial(), events).rows && Run(Initial(), events).rows[id].decision.Some?
    ensures var s := Run(Initial(), events); var row := s.rows[id];
      var wanted, values := row.decision.value.input, row.decision.value.values;
      && values.email == (if wanted.email.Some? then wanted.email else row.mapped.email)
      && values.phone == (if wanted.phone.Some? then wanted.phone else row.mapped.phone)
      && row.package in s.packages
      && (row.state == Accepted && wanted.action == Create ==>
            && row.lead.Some? && row.lead.value in s.leads
            && s.leads[row.lead.value] == Lead(s.packages[row.package].campus, NormalizeEmail(values.email),
                                               NormalizePhone(values.phone), true))
      && (row.state == Accepted && wanted.action == Link ==> row.lead == wanted.target)
  {
    InitialInv();
    RunKeepsInv(Initial(), events);
    assert RowOk(Run(Initial(), events), id);
  }

  // ---------------------------------------------------------------- decisions

  /** The row is one of the package, which exists, and the actor may work on it. */
  predicate Found(s: Store, ctx: Ctx, package: PackageId, id: RowId) {
    package in s.packages && ctx.authorized && id in s.rows && s.rows[id].package == package
  }

  /** Some row of the package was reopened that this key had decided. */
  predicate WasReopened(s: Store, package: PackageId, key: Key) {
    exists k :: k in s.receipts && Frees(k, s.receipts[k], package, key)
  }

  predicate Frees(k: ReceiptKey, r: Receipt, package: PackageId, key: Key) {
    k.ReopenKey? && k.package == package && r.ReopenReceipt? && r.previous.input.key == key
  }

  /** Some row of the package is decided by this key. */
  predicate Decides(s: Store, package: PackageId, key: Key) {
    exists r :: r in s.rows && s.rows[r].package == package && s.rows[r].decision.Some?
      && s.rows[r].decision.value.input.key == key
  }

  /** The row waits in review, at the version seen. */
  predicate Waits(row: Row, input: DecisionInput) {
    row.state == Review && row.version == input.expectedVersion && row.decision.None?
  }

  /** A link names a lead and only a link; only a deferral is confirmed, and it overrides nothing. */
  predicate Shaped(input: DecisionInput) {
    && input.expectedVersion >= 1
    && match input.action
       case Link => input.target.Some? && !input.confirmed
       case Defer => input.target.None? && input.confirmed && input.email.None? && input.phone.None?
       case _ => input.target.None? && !input.confirmed
  }

  /** A lead of the campus, or another row about to be created in it, has this contact. */
  predicate Taken(s: Store, campus: CampusId, id: RowId, email: Option<string>, phone: Option<string>) {
    || (exists l :: l in s.leads && HasContact(s.leads[l], campus, email, phone))
    || (exists r :: r in s.rows && r != id && Pending(s, campus, s.rows[r])
                    && Same(s.rows[r].decision.value.values.email, s.rows[r].decision.value.values.phone, email, phone))
  }

  predicate HasContact(l: Lead, campus: CampusId, email: Option<string>, phone: Option<string>) {
    l.campus == campus && Same(l.email, l.phone, email, phone)
  }

  predicate Pending(s: Store, campus: CampusId, row: Row) {
    && row.state == Ready && row.decision.Some? && row.decision.value.input.action == Create
    && row.package in s.packages && s.packages[row.package].campus == campus
  }

  predicate Same(email: Option<string>, phone: Option<string>, wantedEmail: Option<string>,
                 wantedPhone: Option<string>) {
    || (wantedEmail.Some? && EmailKey(email) == wantedEmail)
    || (wantedPhone.Some? && PhoneKey(phone) == wantedPhone)
  }

  predicate Given(value: Option<string>) { value.Some? && Trim(value.value) != "" }

  predicate Presentable(values: Values) {
    && (Given(values.email) || Given(values.phone))
    && (Given(values.email) ==> NormalizeEmail(values.email).Some?)
    && (Given(values.phone) ==> NormalizePhone(values.phone).Some?)
  }

  /**
   The contacts of a creation: at least one, each of them well-formed, and none taken, by a search
   that saw every lead and every pending creation of the campus.
   */
  predicate Contactable(s: Store, id: RowId, values: Values)
    requires id in s.rows && s.rows[id].package in s.packages
  {
    var campus := s.packages[s.rows[id].package].campus;
    && Presentable(values)
    && |ScopedLeads(s, campus)| <= 10000 && |ScopedDecisions(s, campus, id)| <= 10000
    && !Taken(s, campus, id, NormalizeEmail(values.email), NormalizePhone(values.phone))
  }

  lemma TakenIsCollision(s: Store, campus: CampusId, id: RowId, email: Option<string>, phone: Option<string>)
    ensures Collision(s, campus, id, email, phone) == None <==>
      |ScopedLeads(s, campus)| <= 10000 && |ScopedDecisions(s, campus, id)| <= 10000
          && !Taken(s, campus, id, email, phone)
  {
    if l :| l in s.leads && HasContact(s.leads[l], campus, email, phone) {
      assert l in ScopedLeads(s, campus) && SameContact(s.leads[l].email, s.leads[l].phone, email, phone);
    }
    if r :| r in s.rows && r != id && Pending(s, campus, s.rows[r])
            && Same(s.rows[r].decision.value.values.email, s.rows[r].decision.value.values.phone, email, phone) {
      assert r in ScopedDecisions(s, campus, id);
      assert SameContact(s.rows[r].decision.value.values.email, s.rows[r].decision.value.values.phone, email, phone);
    }
  }

  lemma ContactableIsValid(s: Store, ctx: Ctx, id: RowId, values: Values)
    requires id in s.rows && s.rows[id].package in s.packages && s.rows[id].state != Accepted
    ensures ValidateCreate(s, ctx, id, values) == None <==> id in ctx.acceptable && Contactable(s, id, values)
  {
    TakenIsCollision(s, s.packages[s.rows[id].package].campus, id, NormalizeEmail(values.email),
                     NormalizePhone(values.phone));
  }

  lemma ReopenedIsRetired(s: Store, package: PackageId, key: Key)
    ensures Retired(s, package, key) <==> WasReopened(s, package, key)
    ensures KeyInUse(s, package, key) <==> Decides(s, package, key)
  {
    if k :| k in s.receipts && Frees(k, s.receipts[k], package, key) {
      assert RetiredBy(s.receipts[k], key);
    }
    if k :| k in s.receipts && k.ReopenKey? && k.package == package && RetiredBy(s.receipts[k], key) {
      assert Frees(k, s.receipts[k], package, key);
    }
    if r :| r in s.rows && s.rows[r].package == package && s.rows[r].decision.Some?
            && s.rows[r].decision.value.input.key == key {
      assert Holds(s.rows[r], package, key);
    }
    if r :| r in s.rows && Holds(s.rows[r], package, key) {
      assert s.rows[r].decision.value.input.key == key;
    }
  }

  /** What the action itself asks for. */
  predicate Acceptable(s: Store, ctx: Ctx, id: RowId, input: DecisionInput)
    requires id in s.rows && s.rows[id].package in s.packages
  {
    var mapped := s.rows[id].mapped;
    match input.action
    case Create =>
      && id in ctx.acceptable
      && Contactable(s, id, Values(if input.email.Some? then input.email else mapped.email,
                                   if input.phone.Some? then input.phone else mapped.phone))
    case Link => id in ctx.acceptable && input.target.Some? && input.target.value in ctx.linkable
    case _ => true
  }

  /**
   A key new to the row decides it exactly when the input is well-shaped, the row is found, waits
   and passes the checks of its action, and the key was neither freed nor used in the package; the
   row is then ready with that input, actor and contacts, and nothing else changes.
   */
  lemma DecisionContract(s: Store, ctx: Ctx, package: PackageId, id: RowId, input: DecisionInput)
    requires input.action != Defer
    requires id in s.rows && s.rows[id].decision.Some? ==> s.rows[id].decision.value.input.key != input.key
    ensures Decide(s, ctx, package, id, input).Ok? <==>
      && Shaped(input) && Found(s, ctx, package, id) && id in ctx.annotated && Waits(s.rows[id], input)
      && !WasReopened(s, package, input.key) && !Decides(s, package, input.key) && Acceptable(s, ctx, id, input)
    ensures Decide(s, ctx, package, id, input).Ok? ==>
      var mapped := s.rows[id].mapped;
      var values := Values(if input.email.Some? then input.email else mapped.email,
                           if input.phone.Some? then input.phone else mapped.phone);
      Decide(s, ctx, package, id, input).value ==
        s.(rows := s.rows[id := s.rows[id].(state := Ready, version := s.rows[id].version + 1,
                                            decision := Some(Decision(input, ctx.actor, values)))])
  {
    ReopenedIsRetired(s, package, input.key);
    if Shaped(input) && Found(s, ctx, package, id) && Waits(s.rows[id], input) {
      ContactableIsValid(s, ctx, id, Values(if input.email.Some? then input.email else s.rows[id].mapped.email,
                                            if input.phone.Some? then input.phone else s.rows[id].mapped.phone));
    }
  }

  /**
   A deferral asks for no contacts, but for an uncommitted row of a package that is no longer
   uploading; it has a receipt.
   */
  lemma DeferralContract(s: Store, ctx: Ctx, package: PackageId, id: RowId, input: DecisionInput)
    requires input.action == Defer && DeferKey(package, input.key) !in s.receipts
    ensures Decide(s, ctx, package, id, input).Ok? <==>
      && Shaped(input) && Found(s, ctx, package, id) && Waits(s.rows[id], input)
      && s.rows[id].lead.None? && CommitKey(package, id) !in s.receipts && s.packages[package].state != Uploading
      && !WasReopened(s, package, input.key) && !Decides(s, package, input.key)
    ensures Decide(s, ctx, package, id, input).Ok? ==>
      var decision := Decision(input, ctx.actor, s.rows[id].mapped);
      Decide(s, ctx, package, id, input).value ==
        s.(rows := s.rows[id := s.rows[id].(state := Deferred, version := s.rows[id].version + 1,
                                            decision := Some(decision))],
           receipts := s.receipts[DeferKey(package, input.key) := DeferReceipt(ctx.actor, id, decision)])
  {
    ReopenedIsRetired(s, package, input.key);
  }

  /**
   Only the actor of a decision reopens it, with a new key, at the version seen and before its
   commit; the row is in review again and the receipt keeps the decision.
   */
  lemma ReopeningContract(s: Store, ctx: Ctx, package: PackageId, id: RowId, input: ReopenInput)
    requires ReopenKey(package, input.key) !in s.receipts
    ensures Reopen(s, ctx, package, id, input).Ok? <==>
      && input.expectedVersion >= 1 && Found(s, ctx, package, id)
      && s.rows[id].lead.None? && CommitKey(package, id) !in s.receipts
      && s.rows[id].state in {Ready, Deferred} && s.rows[id].version == input.expectedVersion
      && s.rows[id].decision.Some? && s.rows[id].decision.value.actor == ctx.actor
      && s.rows[id].decision.value.input.key != input.key
      && (s.rows[id].state == Deferred ==> BoundDeferral(s, id))
    ensures Reopen(s, ctx, package, id, input).Ok? ==>
      Reopen(s, ctx, package, id, input).value ==
        s.(rows := s.rows[id := s.rows[id].(state := Review, version := s.rows[id].version + 1, decision := None)],
           receipts := s.receipts[ReopenKey(package, input.key) :=
                         ReopenReceipt(ctx.actor, id, input, s.rows[id].decision.value)])
  {
  }

  /** The deferred row is as its receipt says, one version after the one it was deferred at. */
  predicate BoundDeferral(s: Store, id: RowId)
    requires id in s.rows && s.rows[id].decision.Some?
  {
    var row, d := s.rows[id], s.rows[id].decision.value;
    && row.state == Deferred && row.lead.None? && d.input.action == Defer && d.input.confirmed
    && row.version == d.input.expectedVersion + 1 && row.version > 1
    && DeferKey(row.package, d.input.key) in s.receipts
    && s.receipts[DeferKey(row.package, d.input.key)] == DeferReceipt(d.actor, id, d)
  }

  // ---------------------------------------------------------------- decisions and reopenings sent again

  /** The same request but for the version it was made at. */
  predicate SameRequest(a: DecisionInput, b: DecisionInput) {
    && a.key == b.key && a.action == b.action && a.confirmed == b.confirmed && a.target == b.target
    && a.email == b.email && a.phone == b.phone && a.detail == b.detail
  }

  /**
   What a stored decision must still pass: a creation its checks, the search only while uncommitted;
   a link its access.
   */
  predicate StillAcceptable(s: Store, ctx: Ctx, id: RowId, d: Decision)
    requires id in s.rows && s.rows[id].package in s.packages
  {
    match d.input.action
    case Create =>
      id in ctx.acceptable && if s.rows[id].state == Accepted then Presentable(d.values)
          else Contactable(s, id, d.values)
    case Link => d.input.target.Some? && d.input.target.value in ctx.linkable
    case _ => true
  }

  lemma StillAcceptableIsValid(s: Store, ctx: Ctx, id: RowId, values: Values)
    requires id in s.rows && s.rows[id].package in s.packages
    ensures ValidateCreate(s, ctx, id, values) == None <==>
      id in ctx.acceptable && if s.rows[id].state == Accepted then Presentable(values) else Contactable(s, id, values)
  {
    TakenIsCollision(s, s.packages[s.rows[id].package].campus, id, NormalizeEmail(values.email),
                     NormalizePhone(values.phone));
  }

  /**
   The key that decided the row is accepted again for the same request of the same actor while it is
   still acceptable; nothing is written.
   */
  lemma DecisionReplay(s: Store, ctx: Ctx, package: PackageId, id: RowId, input: DecisionInput)
    requires input.action != Defer && id in s.rows && s.rows[id].decision.Some?
    requires s.rows[id].decision.value.input.key == input.key
    ensures var saved := s.rows[id].decision.value;
      Decide(s, ctx, package, id, input).Ok? <==>
        && Shaped(input) && Found(s, ctx, package, id) && id in ctx.annotated && !WasReopened(s, package, input.key)
        && SameRequest(saved.input, input) && saved.actor == ctx.actor && StillAcceptable(s, ctx, id, saved)
    ensures Decide(s, ctx, package, id, input).Ok? ==> Decide(s, ctx, package, id, input).value == s
  {
    ReopenedIsRetired(s, package, input.key);
    var saved := s.rows[id].decision.value;
    assert SameDecision(saved.input, input) <==> SameRequest(saved.input, input);
    if Found(s, ctx, package, id) {
      StillAcceptableIsValid(s, ctx, id, saved.values);
    }
  }

  /** A deferral sent again is accepted while the row still holds exactly it. */
  lemma DeferralReplay(s: Store, ctx: Ctx, package: PackageId, id: RowId, input: DecisionInput)
    requires input.action == Defer && DeferKey(package, input.key) in s.receipts
    ensures var saved := s.receipts[DeferKey(package, input.key)];
      Decide(s, ctx, package, id, input).Ok? <==>
        && Shaped(input) && Found(s, ctx, package, id) && !WasReopened(s, package, input.key)
        && CommitKey(package, id) !in s.receipts && s.rows[id].decision.Some? && BoundDeferral(s, id)
        && s.rows[id].decision.value.input.key == input.key && saved.actor == ctx.actor && saved.DeferReceipt?
        && SameRequest(saved.decision.input, input)
        && saved.decision.input.expectedVersion == s.rows[id].decision.value.input.expectedVersion
    ensures Decide(s, ctx, package, id, input).Ok? ==> Decide(s, ctx, package, id, input).value == s
  {
    ReopenedIsRetired(s, package, input.key);
    var saved := s.receipts[DeferKey(package, input.key)];
    assert saved.DeferReceipt? ==>
        (SameDecision(saved.decision.input, input) <==> SameRequest(saved.decision.input, input));
  }

  /** A reopening sent again by its actor is accepted for the same row and input, before a commit. */
  lemma ReopeningReplay(s: Store, ctx: Ctx, package: PackageId, id: RowId, input: ReopenInput)
    requires ReopenKey(package, input.key) in s.receipts
    ensures var saved := s.receipts[ReopenKey(package, input.key)];
      Reopen(s, ctx, package, id, input).Ok? <==>
        && input.expectedVersion >= 1 && Found(s, ctx, package, id)
        && s.rows[id].lead.None? && s.rows[id].state !in {Accepted, Ignored} && CommitKey(package, id) !in s.receipts
        && saved.actor == ctx.actor && saved.ReopenReceipt? && saved.previous.actor == ctx.actor
        && (s.rows[id].decision.Some? ==> s.rows[id].decision.value.actor == ctx.actor)
        && saved.input == input && saved.row == id
    ensures Reopen(s, ctx, package, id, input).Ok? ==> Reopen(s, ctx, package, id, input).value == s
  {
  }

  // ---------------------------------------------------------------- commits

  /**
   A ready row is committed by the actor of its decision exactly when the checks of its action still
   pass and the identifiers are free; a creation adds its lead, and a receipt is kept.
   */
  lemma CommitContract(s: Store, ctx: Ctx, id: RowId)
    requires id in s.rows && s.rows[id].package in s.packages && s.rows[id].state == Ready && s.rows[id].decision.Some?
    ensures var row, d, k := s.rows[id], s.rows[id].decision.value, CommitKey(s.rows[id].package, id);
      CommitRow(s, ctx, id).Ok? <==>
        && d.actor == ctx.actor && k !in s.receipts
        && match d.input.action
           case Create => id in ctx.acceptable && Contactable(s, id, d.values) && ctx.newLeads(id) !in s.leads
           case Link => id in ctx.acceptable && d.input.target.Some? && d.input.target.value in ctx.linkable
           case Ignore => true
           case Defer => false
    ensures CommitRow(s, ctx, id).Ok? ==>
      var row, d, k := s.rows[id], s.rows[id].decision.value, CommitKey(s.rows[id].package, id);
      CommitRow(s, ctx, id).value ==
        match d.input.action
        case Create =>
          s.(leads := s.leads[ctx.newLeads(id) := Lead(s.packages[row.package].campus, NormalizeEmail(d.values.email),
                                                       NormalizePhone(d.values.phone), true)],
             rows := s.rows[id := row.(state := Accepted, version := row.version + 1, lead := Some(ctx.newLeads(id)))],
             receipts := s.receipts[k := CommitReceipt(ctx.actor, id, Some(ctx.newLeads(id)))])
        case Link =>
          s.(rows := s.rows[id := row.(state := Accepted, version := row.version + 1, lead := d.input.target)],
             receipts := s.receipts[k := CommitReceipt(ctx.actor, id, d.input.target)])
        case _ =>
          s.(rows := s.rows[id := row.(state := Ignored, version := row.version + 1)],
             receipts := s.receipts[k := CommitReceipt(ctx.actor, id, None)])
  {
    ContactableIsValid(s, ctx, id, s.rows[id].decision.value.values);
  }

  // ---------------------------------------------------------------- confirmations

  /** A ready row of the package, decided by the actor and, if rows were named, one of these. */
  predicate MayConfirm(s: Store, ctx: Ctx, package: PackageId, input: ConfirmInput, r: RowId) {
    && r in s.rows && s.rows[r].package == package && s.rows[r].state == Ready
    && s.rows[r].decision.Some? && s.rows[r].decision.value.actor == ctx.actor
    && (input.rowIds.Some? ==> r in input.rowIds.value)
  }

  lemma MayConfirmIsOwned(s: Store, ctx: Ctx, package: PackageId, input: ConfirmInput)
    ensures forall r :: r in OwnedReady(s, ctx, package, input.rowIds) <==> MayConfirm(s, ctx, package, input, r)
  {
  }

  /** The rows confirmed are the first ones that may be, in increasing order, as many as the limit allows. */
  lemma SelectionContract(s: Store, ctx: Ctx, package: PackageId, input: ConfirmInput)
    requires WellFormedConfirm(input)
    ensures var ready := Selected(s, ctx, package, input);
      && StrictlyIncreasing(ready) && |ready| <= input.limit
      && (forall r :: r in ready ==> MayConfirm(s, ctx, package, input, r))
      && (forall r :: MayConfirm(s, ctx, package, input, r) && r !in ready ==>
            |ready| == input.limit && forall q :: q in ready ==> q < r)
  {
    var owned, ready := OwnedReady(s, ctx, package, input.rowIds), Selected(s, ctx, package, input);
    MayConfirmIsOwned(s, ctx, package, input);
    InOrderSorts(owned);
    var all := InOrder(owned);
    forall r | r in ready ensures r in all {
      var i :| 0 <= i < |ready| && ready[i] == r;
      assert all[i] == r;
    }
    forall r | MayConfirm(s, ctx, package, input, r) && r !in ready
      ensures |ready| == input.limit && forall q :: q in ready ==> q < r
    {
      assert r in all;
      var i :| 0 <= i < |all| && all[i] == r;
      assert forall j :: 0 <= j < |ready| ==> ready[j] == all[j] && ready[j] in ready;
    }
  }

  /**
   A new confirmation succeeds exactly when its input is in bounds, the package is mapped and at the
   version seen, there is a row to confirm and every named row is one, and each commit in turn
   passes its own checks.
   */
  lemma ConfirmationContract(s: Store, ctx: Ctx, package: PackageId, input: ConfirmInput)
    requires ConfirmKey(package, input.key) !in s.receipts
    ensures Confirm(s, ctx, package, input).Ok? <==>
      && input.expectedVersion >= 1 && 1 <= input.limit <= 25
      && (input.rowIds.Some? ==>
            && 1 <= |input.rowIds.value| <= input.limit && DistinctRows(input.rowIds.value)
            && forall r :: r in input.rowIds.value ==> MayConfirm(s, ctx, package, input, r))
      && package in s.packages && ctx.authorized && s.packages[package].state in {Mapped, Partial}
      && s.packages[package].version == input.expectedVersion
      && (exists r :: MayConfirm(s, ctx, package, input, r))
      && CommitRows(s, ctx, Selected(s, ctx, package, input)).Ok?
  {
    if WellFormedConfirm(input) {
      SelectionContract(s, ctx, package, input);
      if input.rowIds.Some? {
        NamedRowsAreConfirmed(s, ctx, package, input);
      }
      var ready := Selected(s, ctx, package, input);
      if ready != [] {
        assert ready[0] in ready && MayConfirm(s, ctx, package, input, ready[0]);
      }
    }
  }

  lemma {:induction false} SetOfDistinct(q: seq<RowId>)
    requires DistinctRows(q)
    ensures |set r | r in q| == |q|
    decreases |q|
  {
    if q != [] {
      var rest := q[1..];
      assert forall i :: 0 <= i < |rest| ==> rest[i] == q[i + 1];
      SetOfDistinct(rest);
      assert q == [q[0]] + rest;
      SetOfCons(q[0], rest);
    }
  }

  /** All named rows are taken exactly when each of them may be confirmed. */
  lemma NamedRowsAreConfirmed(s: Store, ctx: Ctx, package: PackageId, input: ConfirmInput)
    requires WellFormedConfirm(input) && input.rowIds.Some?
    ensures |Selected(s, ctx, package, input)| == |input.rowIds.value| <==>
      forall r :: r in input.rowIds.value ==> MayConfirm(s, ctx, package, input, r)
  {
    var owned, named := OwnedReady(s, ctx, package, input.rowIds), input.rowIds.value;
    var all := set r | r in named;
    MayConfirmIsOwned(s, ctx, package, input);
    InOrderSorts(owned);
    SetOfDistinct(named);
    Within(owned, all);
  }

  lemma Within<T>(a: set<T>, b: set<T>)
    requires a <= b
    ensures |a| <= |b| && (|a| == |b| <==> a == b)
  {
    assert b == a + (b - a);
  }

  /** What the report counts. */
  lemma ReportContract(s: Store, package: PackageId)
    requires RowsOk(s)
    ensures var r := ReportOf(s, package);
      && r.total == |set id | id in s.rows && s.rows[id].package == package|
      && r.created == |set id | id in s.rows && s.rows[id].package == package && s.rows[id].state == Accepted
                               && s.rows[id].decision.Some? && s.rows[id].decision.value.input.action == Create|
      && r.duplicate == |set id | id in s.rows && s.rows[id].package == package && s.rows[id].state == Accepted
                                 && s.rows[id].decision.Some? && s.rows[id].decision.value.input.action == Link|
      && r.ignored == |set id | id in s.rows && s.rows[id].package == package && s.rows[id].state == Ignored|
      && r.error == |set id | id in s.rows && s.rows[id].package == package
      && s.rows[id].state in {Review, Ready, Deferred}|
      && r.updated == 0
  {
    var review, ready, deferred := InState(s, package, Review), InState(s, package, Ready),
        InState(s, package, Deferred);
    assert (set id | id in s.rows && s.rows[id].package == package && s.rows[id].state in {Review, Ready, Deferred})
        == review + deferred + ready;
    SizeOfThree(review, deferred, ready);
  }

  lemma SizeOfThree<T>(a: set<T>, b: set<T>, c: set<T>)
    requires a !! b && a !! c && b !! c
    ensures |a + b + c| == |a| + |b| + |c|
  {
  }

  /** The committed row is as it was: decided by the actor, still acceptable, and its lead still in reach. */
  predicate Stands(s: Store, ctx: Ctx, package: PackageId, id: RowId) {
    && package in s.packages && id in s.rows && s.rows[id].package == package
    && s.rows[id].decision.Some? && s.rows[id].decision.value.actor == ctx.actor && id in ctx.annotated
    && StillAcceptable(s, ctx, id, s.rows[id].decision.value)
    && (s.rows[id].decision.value.input.action == Create ==>
          s.rows[id].lead.Some? && s.rows[id].lead.value in ctx.linkable)
  }

  lemma StandsIsValid(s: Store, ctx: Ctx, package: PackageId, id: RowId)
    ensures Revalidate(s, ctx, package, id) == None <==> Stands(s, ctx, package, id)
  {
    if id in s.rows && s.rows[id].package in s.packages && s.rows[id].decision.Some? {
      StillAcceptableIsValid(s, ctx, id, s.rows[id].decision.value.values);
    }
  }

  lemma {:induction false} AllStand(s: Store, ctx: Ctx, package: PackageId, ids: seq<RowId>)
    ensures RevalidateAll(s, ctx, package, ids) == None <==> forall id :: id in ids ==> Stands(s, ctx, package, id)
    decreases |ids|
  {
    if ids != [] {
      StandsIsValid(s, ctx, package, ids[0]);
      AllStand(s, ctx, package, ids[1..]);
      assert ids == [ids[0]] + ids[1..];
    }
  }

  /**
   A confirmation sent again is accepted for the same input of the same actor while all its rows
   stand; nothing is written.
   */
  lemma ConfirmationReplay(s: Store, ctx: Ctx, package: PackageId, input: ConfirmInput)
    requires ConfirmKey(package, input.key) in s.receipts
    ensures var saved := s.receipts[ConfirmKey(package, input.key)];
      Confirm(s, ctx, package, input).Ok? <==>
        && WellFormedConfirm(input) && package in s.packages && ctx.authorized
        && saved.actor == ctx.actor && saved.ConfirmReceipt? && saved.confirmed == input
        && forall id :: id in saved.rows ==> Stands(s, ctx, package, id)
    ensures Confirm(s, ctx, package, input).Ok? ==> Confirm(s, ctx, package, input).value == s
  {
    var saved := s.receipts[ConfirmKey(package, input.key)];
    if saved.ConfirmReceipt? {
      AllStand(s, ctx, package, saved.rows);
    }
  }

  // ---------------------------------------------------------------- blocks

  /**
   A new block succeeds exactly when it has 1 to 25 different rows, its source, version and package
   are the stored ones, its decisions succeed in turn on rows still as they were seen, those that
   are no deferrals are confirmed, and the reconciliation holds; its receipt lists both kinds.
   */
  lemma BlockContract(s: Store, ctx: Ctx, package: PackageId, input: BlockInput)
    requires BlockKey(package, input.key) !in s.receipts
    ensures ExecuteBlock(s, ctx, package, input).Ok? <==>
      && input.expectedVersion >= 1 && 1 <= |input.items| <= 25
      && (forall i, j :: 0 <= i < j < |input.items| ==> input.items[i].rowId != input.items[j].rowId)
      && package in s.packages && ctx.authorized && s.packages[package].sha == input.sha
      && s.packages[package].version == input.expectedVersion && s.packages[package].state in {Mapped, Partial}
      && ctx.reconciled && DecideAll(s, ctx, package, input.items).Ok?
      && ((exists i :: 0 <= i < |input.items| && input.items[i].decision.action != Defer) ==>
            Confirm(DecideAll(s, ctx, package, input.items).value, ctx, package, BlockConfirm(input)).Ok?)
    ensures ExecuteBlock(s, ctx, package, input).Ok? ==>
      var k := BlockKey(package, input.key);
      && k in ExecuteBlock(s, ctx, package, input).value.receipts
      && ExecuteBlock(s, ctx, package, input).value.receipts[k] ==
           BlockReceipt(ctx.actor, input, RowIds(input.items, false), RowIds(input.items, true))
  {
    SomeReady(input.items);
  }

  lemma {:induction false} SomeReady(items: seq<BlockItem>)
    ensures RowIds(items, false) != [] <==> exists i :: 0 <= i < |items| && items[i].decision.action != Defer
    decreases |items|
  {
    if items != [] {
      SomeReady(items[1..]);
      assert forall i :: 1 <= i < |items| ==> items[i] == items[1..][i - 1];
      if i :| 0 <= i < |items| && items[i].decision.action != Defer {
        assert i > 0 ==> items[1..][i - 1].decision.action != Defer;
      }
    }
  }

  /** The items are decided in turn, each on a row that waits at the version and with the fingerprint it was seen at. */
  lemma DecideAllContract(s: Store, ctx: Ctx, package: PackageId, items: seq<BlockItem>)
    requires items != []
    ensures var item := items[0];
      var current := && item.rowId in s.rows && s.rows[item.rowId].package == package
                     && s.rows[item.rowId].fingerprint == item.fingerprint && Waits(s.rows[item.rowId], item.decision);
      var first := Decide(s, ctx, package, item.rowId, item.decision);
      DecideAll(s, ctx, package, items) ==
        if !current then Refused(BlockRowChanged)
        else if first.Refused? then Refused(first.error)
        else DecideAll(first.value, ctx, package, items[1..])
  {
  }

  // ---------------------------------------------------------------- packages

  /** A source is imported once, sealed, and mapped once into rows in review. */
  lemma PackageContract(s: Store, ctx: Ctx, package: PackageId, campus: CampusId, sha: string)
    ensures CreatePackage(s, ctx, package, campus, sha) ==
      if ctx.authorized && package !in s.packages && (forall p :: p in s.packages ==> s.packages[p].sha != sha)
      then Ok(s.(packages := s.packages[package := Package(campus, sha, Uploading, 1)]))
      else Refused(if ctx.authorized then PackageConflict else PermissionDenied)
    ensures package in s.packages && ctx.authorized ==>
      var p := s.packages[package];
      Seal(s, ctx, package) ==
        Ok(if p.state == Uploading then s.(packages :=
            s.packages[package := Package(p.campus, p.sha, Sealed, p.version + 1)])
           else s)
  {
  }

  lemma MappingContract(s: Store, ctx: Ctx, package: PackageId, version: int, found: map<RowId, (string, Values)>)
    ensures Map(s, ctx, package, version, found).Ok? <==>
      && package in s.packages && ctx.authorized && s.packages[package].state == Sealed
      && s.packages[package].version == version && |found| <= 10000 && forall r :: r in found ==> r !in s.rows
    ensures Map(s, ctx, package, version, found).Ok? ==>
      var s' := Map(s, ctx, package, version, found).value;
      && s'.packages == s.packages[package := s.packages[package].(state := Mapped, version := version + 1)]
      && s'.rows.Keys == s.rows.Keys + found.Keys && (forall r :: r in s.rows ==> s'.rows[r] == s.rows[r])
      && (forall r :: r in found ==>
            s'.rows[r] == Row(package, found[r].0, found[r].1, Review, 1, None, None))
      && s' == s.(packages := s'.packages, rows := s'.rows)
  {
  }
}
