/**
 The ledger of a historical import: packages, their rows, the receipts that make every
 write replayable, the leads it creates and the report of each batch.  Every operation is
 one transaction: it returns the whole new store, or a refusal and nothing else.
 */
module ImportLedger {
  import opened Prelude
  import opened Collections
  import opened Text
  import opened ImportContacts

  type PackageId = int
  type RowId = int
  type LeadId = int
  type CampusId = int

  // ---------------------------------------------------------------- inputs

  /** A caller's key, or the key a block derives for its own confirmation. */
  datatype Key = Text(text: string) | OfBlock(block: BlockInput)
  datatype Action = Create | Link | Ignore | Defer

  /** `detail` is the rest of the body: reason, overrides of other fields, cycle, annotations. */
  datatype DecisionInput = DecisionInput(expectedVersion: int, key: Key, action: Action, confirmed: bool,
                                         target: Option<LeadId>,
                                         email: Option<string>, phone: Option<string>, detail: string)
  datatype ReopenInput = ReopenInput(expectedVersion: int, key: Key, reason: string)
  datatype ConfirmInput = ConfirmInput(expectedVersion: int, key: Key, limit: int, rowIds: Option<seq<RowId>>)
  datatype BlockItem = BlockItem(rowId: RowId, fingerprint: string, decision: DecisionInput)
  datatype BlockInput = BlockInput(expectedVersion: int, sha: string, key: string, items: seq<BlockItem>)

  // ---------------------------------------------------------------- stored entities

  datatype Values = Values(email: Option<string>, phone: Option<string>)
  datatype Decision = Decision(input: DecisionInput, actor: string, values: Values)

  datatype RowState = Review | Ready | Deferred | Accepted | Ignored
  datatype Row = Row(package: PackageId, fingerprint: string, mapped: Values, state: RowState, version: int,
                     decision: Option<Decision>, lead: Option<LeadId>)

  datatype PackageState = Uploading | Sealed | Mapped | Partial | Completed
  datatype Package = Package(campus: CampusId, sha: string, state: PackageState, version: int)

  datatype Lead = Lead(campus: CampusId, email: Option<string>, phone: Option<string>, imported: bool)
  datatype Report = Report(total: int, created: int, updated: int, ignored: int, duplicate: int, error: int)

  datatype ReceiptKey =
    | DeferKey(package: PackageId, key: Key)
    | ReopenKey(package: PackageId, key: Key)
    | CommitKey(package: PackageId, row: RowId)
    | ConfirmKey(package: PackageId, key: Key)
    | BlockKey(package: PackageId, text: string)

  datatype Receipt =
    | DeferReceipt(actor: string, row: RowId, decision: Decision)
    | ReopenReceipt(actor: string, row: RowId, input: ReopenInput, previous: Decision)
    | CommitReceipt(actor: string, row: RowId, lead: Option<LeadId>)
    | ConfirmReceipt(actor: string, confirmed: ConfirmInput, rows: seq<RowId>)
    | BlockReceipt(actor: string, block: BlockInput, ready: seq<RowId>, deferred: seq<RowId>)

  datatype Store = Store(packages: map<PackageId, Package>, rows: map<RowId, Row>, receipts: map<ReceiptKey, Receipt>,
                         leads: map<LeadId, Lead>, reports: map<PackageId, Report>)

  /**
   What a transaction finds outside the ledger: the actor and its authorization, the rows
   whose annotations and whose other values pass their checks, the leads it may link, the
   random identifiers, and the verdict of the final reconciliation.
   */
  datatype Ctx = Ctx(actor: string, authorized: bool, annotated: set<RowId>, acceptable: set<RowId>,
                     linkable: set<LeadId>,
                     newLeads: RowId -> LeadId, reconciled: bool)

  datatype Refusal =
    | InputInvalid | NotFound | PermissionDenied | SupersededKey | AnnotationsRefused | DecisionKeyConflict
    | DecisionConflict | KeyTaken
    | ContentRefused | ContactRequired | EmailInvalid | PhoneInvalid | ScopeReviewRequired | ContactCollision
    | LinkRefused
    | CommittedCannotDefer | DeferralKeyConflict | DeferralConflict
    | CommittedCannotReopen | ReopenKeyConflict | ReopenConflict | DeferralIntegrity
    | ConfirmKeyConflict | ReceiptIntegrity | ConfirmConflict | RowsChanged | NoOwnedRows | SourceIntegrity
    | IdentifierTaken
    | BlockSourceChanged | BlockKeyConflict | BlockReceiptChanged | BlockVersionChanged | BlockRowChanged
    | ReconciliationFailed
    | PackageConflict

  // ---------------------------------------------------------------- contact collisions

  const SCOPE_LIMIT: nat := 10000

  function ScopedLeads(s: Store, campus: CampusId): set<LeadId> {
    set l | l in s.leads && s.leads[l].campus == campus
  }

  /** Rows decided as creations of the campus and not committed yet, other than `row`. */
  function ScopedDecisions(s: Store, campus: CampusId, row: RowId): set<RowId> {
    set r | r in s.rows && r != row && s.rows[r].state == Ready && s.rows[r].decision.Some?
        && s.rows[r].decision.value.input.action == Create
      && s.rows[r].package in s.packages && s.packages[s.rows[r].package].campus == campus
  }

  predicate SameContact(email: Option<string>, phone: Option<string>, wantedEmail: Option<string>,
                        wantedPhone: Option<string>) {
    (wantedEmail.Some? && EmailKey(email) == wantedEmail) || (wantedPhone.Some? && PhoneKey(phone) == wantedPhone)
  }

  /** An incomplete search is a refusal, never an absence. */
  function Collision(s: Store, campus: CampusId, row: RowId, email: Option<string>,
                     phone: Option<string>): Option<Refusal> {
    if |ScopedLeads(s, campus)| > SCOPE_LIMIT
        || |ScopedDecisions(s, campus, row)| > SCOPE_LIMIT then Some(ScopeReviewRequired)
    else if (exists l :: l in ScopedLeads(s, campus) && SameContact(s.leads[l].email, s.leads[l].phone, email, phone))
         || (exists r :: r in ScopedDecisions(s, campus, row)
              && SameContact(s.rows[r].decision.value.values.email, s.rows[r].decision.value.values.phone, email,
                             phone)) then Some(ContactCollision)
    else None
  }

  predicate Blank(value: Option<string>) { value.None? || Trim(value.value) == "" }

  function ValidateCreate(s: Store, ctx: Ctx, row: RowId, values: Values): Option<Refusal>
    requires row in s.rows && s.rows[row].package in s.packages
  {
    if row !in ctx.acceptable then Some(ContentRefused)
    else if Blank(values.email) && Blank(values.phone) then Some(ContactRequired)
    else if !Blank(values.email) && NormalizeEmail(values.email).None? then Some(EmailInvalid)
    else if !Blank(values.phone) && NormalizePhone(values.phone).None? then Some(PhoneInvalid)
    else if s.rows[row].state == Accepted then None
    else Collision(s, s.packages[s.rows[row].package].campus, row, NormalizeEmail(values.email),
                   NormalizePhone(values.phone))
  }

  // ---------------------------------------------------------------- decisions

  predicate WellFormed(input: DecisionInput) {
    && input.expectedVersion >= 1 && (input.target.Some? <==> input.action == Link)
    && (input.confirmed <==> input.action == Defer)
    && (input.action == Defer ==> input.email.None? && input.phone.None?)
  }

  /** The fingerprints are equal: everything but the expected version. */
  predicate SameDecision(a: DecisionInput, b: DecisionInput) { a.(expectedVersion := 0) == b.(expectedVersion := 0) }

  function Resolved(mapped: Values, input: DecisionInput): Values {
    Values(if input.email.Some? then input.email else mapped.email,
           if input.phone.Some? then input.phone else mapped.phone)
  }

  predicate RetiredBy(r: Receipt, key: Key) { r.ReopenReceipt? && r.previous.input.key == key }

  /** The key decided a row of the package that was reopened since. */
  predicate Retired(s: Store, package: PackageId, key: Key) {
    exists k :: k in s.receipts && k.ReopenKey? && k.package == package && RetiredBy(s.receipts[k], key)
  }

  predicate Holds(row: Row, package: PackageId, key: Key) {
    row.package == package && row.decision.Some? && row.decision.value.input.key == key
  }

  /** The unique index on the decision keys of a package. */
  predicate KeyInUse(s: Store, package: PackageId, key: Key) {
    exists r :: r in s.rows && Holds(s.rows[r], package, key)
  }

  function WithRow(s: Store, id: RowId, row: Row): Store { s.(rows := s.rows[id := row]) }

  function Find(s: Store, ctx: Ctx, package: PackageId, row: RowId): Option<Refusal> {
    if package !in s.packages then Some(NotFound)
    else if !ctx.authorized then Some(PermissionDenied)
    else if row !in s.rows || s.rows[row].package != package then Some(NotFound)
    else None
  }

  function Decide(s: Store, ctx: Ctx, package: PackageId, id: RowId, input: DecisionInput): (r: Result<Store, Refusal>)
    ensures r.Ok? ==> r.value.packages == s.packages && r.value.reports == s.reports && r.value.leads == s.leads
  {
    if !WellFormed(input) then Refused(InputInvalid)
    else if Find(s, ctx, package, id).Some? then Refused(Find(s, ctx, package, id).value)
    else if Retired(s, package, input.key) then Refused(SupersededKey)
    else if input.action == Defer then DeferRow(s, ctx, package, id, input)
    else if id !in ctx.annotated then Refused(AnnotationsRefused)
    else
      var row := s.rows[id];
      if row.decision.Some? && row.decision.value.input.key == input.key then ReplayDecision(s, ctx, id, input)
      else if row.state != Review || row.version != input.expectedVersion
          || row.decision.Some? then Refused(DecisionConflict)
      else
        var values := Resolved(row.mapped, input);
        var refusal := Admissible(s, ctx, id, input, values);
        if refusal.Some? then Refused(refusal.value)
        else if KeyInUse(s, package, input.key) then Refused(KeyTaken)
        else Ok(WithRow(s, id, row.(state := Ready, version := row.version + 1,
                                    decision := Some(Decision(input, ctx.actor, values)))))
  }

  /** The checks of a new decision by its action. */
  function Admissible(s: Store, ctx: Ctx, id: RowId, input: DecisionInput, values: Values): Option<Refusal>
    requires id in s.rows && s.rows[id].package in s.packages && WellFormed(input)
  {
    match input.action
    case Create => ValidateCreate(s, ctx, id, values)
    case Link => if id !in ctx.acceptable then Some(ContentRefused)
        else if input.target.value !in ctx.linkable then Some(LinkRefused) else None
    case _ => None
  }

  function ReplayDecision(s: Store, ctx: Ctx, id: RowId, input: DecisionInput): Result<Store, Refusal>
    requires id in s.rows && s.rows[id].package in s.packages && s.rows[id].decision.Some? && WellFormed(input)
  {
    var saved := s.rows[id].decision.value;
    if !SameDecision(saved.input, input) || saved.actor != ctx.actor then Refused(DecisionKeyConflict)
    else if input.action == Create
        && ValidateCreate(s, ctx, id, saved.values).Some? then Refused(ValidateCreate(s, ctx, id, saved.values).value)
    else if input.action == Link && input.target.value !in ctx.linkable then Refused(LinkRefused)
    else Ok(s)
  }

  /** The deferral of the row is still bound to its receipt. */
  predicate ValidDeferral(s: Store, id: RowId) {
    && id in s.rows && s.rows[id].state == Deferred && s.rows[id].lead == None && s.rows[id].version > 1
    && s.rows[id].decision.Some?
    && var d := s.rows[id].decision.value;
       && d.input.action == Defer && d.input.confirmed && d.input.expectedVersion == s.rows[id].version - 1
       && var k := DeferKey(s.rows[id].package, d.input.key);
          k in s.receipts && s.receipts[k] == DeferReceipt(d.actor, id, d)
  }

  function DeferRow(s: Store, ctx: Ctx, package: PackageId, id: RowId, input: DecisionInput): Result<Store, Refusal>
    requires id in s.rows
  {
    var row, k := s.rows[id], DeferKey(package, input.key);
    if row.lead.Some? || CommitKey(package, id) in s.receipts then Refused(CommittedCannotDefer)
    else if k in s.receipts then
      if row.decision.Some? && row.decision.value.input.key == input.key && s.receipts[k].actor == ctx.actor
          && s.receipts[k].DeferReceipt?
         && SameDecision(s.receipts[k].decision.input, input)
         && s.receipts[k].decision.input.expectedVersion == row.decision.value.input.expectedVersion
         && ValidDeferral(s, id)
      then Ok(s) else Refused(DeferralKeyConflict)
    else if row.state != Review || row.version != input.expectedVersion || row.decision.Some? || package !in s.packages
        || s.packages[package].state == Uploading
    then Refused(DeferralConflict)
    else if KeyInUse(s, package, input.key) then Refused(KeyTaken)
    else
      var decision := Decision(input, ctx.actor, row.mapped);
      Ok(WithRow(s, id, row.(state := Deferred, version := row.version + 1, decision := Some(decision)))
         .(receipts := s.receipts[k := DeferReceipt(ctx.actor, id, decision)]))
  }

  function Reopen(s: Store, ctx: Ctx, package: PackageId, id: RowId, input: ReopenInput): Result<Store, Refusal> {
    if input.expectedVersion < 1 then Refused(InputInvalid)
    else if Find(s, ctx, package, id).Some? then Refused(Find(s, ctx, package, id).value)
    else
      var row, k := s.rows[id], ReopenKey(package, input.key);
      if row.lead.Some? || row.state == Accepted || row.state == Ignored
          || CommitKey(package, id) in s.receipts then Refused(CommittedCannotReopen)
      else if k in s.receipts then
        var saved := s.receipts[k];
        if saved.actor != ctx.actor || !saved.ReopenReceipt? || saved.previous.actor != ctx.actor
           || (row.decision.Some? && row.decision.value.actor != ctx.actor) then Refused(PermissionDenied)
        else if saved.input != input || saved.row != id then Refused(ReopenKeyConflict)
        else Ok(s)
      else if row.decision.None? || row.decision.value.actor != ctx.actor then Refused(PermissionDenied)
      else if (row.state != Ready && row.state != Deferred) || row.version != input.expectedVersion
          || input.key == row.decision.value.input.key then Refused(ReopenConflict)
      else if row.state == Deferred && !ValidDeferral(s, id) then Refused(DeferralIntegrity)
      else
        Ok(WithRow(s, id, row.(state := Review, version := row.version + 1, decision := None))
           .(receipts := s.receipts[k := ReopenReceipt(ctx.actor, id, input, row.decision.value)]))
  }

  // ---------------------------------------------------------------- commits

  function CommitRow(s: Store, ctx: Ctx, id: RowId): (r: Result<Store, Refusal>)
    requires id in s.rows && s.rows[id].package in s.packages
    ensures r.Ok? ==> r.value.packages == s.packages && r.value.reports == s.reports
  {
    var row := s.rows[id];
    var k := CommitKey(row.package, id);
    if row.decision.None? || row.decision.value.actor != ctx.actor then Refused(SourceIntegrity)
    else
      var d := row.decision.value;
      match d.input.action
      case Ignore =>
        if k in s.receipts then Refused(IdentifierTaken)
        else Ok(Committed(s, ctx, id, row.(state := Ignored, version := row.version + 1), None))
      case Create =>
        var refusal := ValidateCreate(s, ctx, id, d.values);
        if refusal.Some? then Refused(refusal.value)
        else if ctx.newLeads(id) in s.leads || k in s.receipts then Refused(IdentifierTaken)
        else
          var lead := Lead(s.packages[row.package].campus, NormalizeEmail(d.values.email),
                           NormalizePhone(d.values.phone), true);
          Ok(Committed(s.(leads := s.leads[ctx.newLeads(id) := lead]), ctx, id,
                       row.(state := Accepted, version := row.version + 1, lead := Some(ctx.newLeads(id))),
                           Some(ctx.newLeads(id))))
      case Link =>
        if id !in ctx.acceptable then Refused(ContentRefused)
        else if d.input.target.None? then Refused(DecisionConflict)
        else if d.input.target.value !in ctx.linkable then Refused(LinkRefused)
        else if k in s.receipts then Refused(IdentifierTaken)
        else Ok(Committed(s, ctx, id, row.(state := Accepted, version := row.version + 1, lead := d.input.target),
                          d.input.target))
      case Defer => Refused(DecisionConflict)
  }

  function Committed(s: Store, ctx: Ctx, id: RowId, row: Row, lead: Option<LeadId>): Store {
    WithRow(s, id, row).(receipts := s.receipts[CommitKey(row.package, id) := CommitReceipt(ctx.actor, id, lead)])
  }

  function CommitRows(s: Store, ctx: Ctx, ids: seq<RowId>): (r: Result<Store, Refusal>)
    ensures r.Ok? ==> r.value.packages == s.packages && r.value.reports == s.reports
    decreases |ids|
  {
    if ids == [] then Ok(s)
    else if ids[0] !in s.rows || s.rows[ids[0]].package !in s.packages then Refused(NotFound)
    else
      match CommitRow(s, ctx, ids[0])
      case Refused(e) => Refused(e)
      case Ok(s') => CommitRows(s', ctx, ids[1..])
  }

  // ---------------------------------------------------------------- counts and report

  function InState(s: Store, package: PackageId, state: RowState): set<RowId> {
    set r | r in s.rows && s.rows[r].package == package && s.rows[r].state == state
  }

  function AcceptedAs(s: Store, package: PackageId, action: Action): set<RowId> {
    set r | r in s.rows && s.rows[r].package == package && s.rows[r].state == Accepted
      && s.rows[r].decision.Some? && s.rows[r].decision.value.input.action == action
  }

  function RowsOf(s: Store, package: PackageId): set<RowId> {
    set r | r in s.rows && s.rows[r].package == package
  }

  /** Rows still to be decided, deferred or to be confirmed. */
  function Open(s: Store, package: PackageId): int {
    |InState(s, package, Review)| + |InState(s, package, Deferred)| + |InState(s, package, Ready)|
  }

  function ReportOf(s: Store, package: PackageId): Report {
    Report(|RowsOf(s, package)|, |AcceptedAs(s, package, Create)|, 0, |InState(s, package, Ignored)|,
           |AcceptedAs(s, package, Link)|, Open(s, package))
  }

  // ---------------------------------------------------------------- confirmation

  predicate DistinctRows(ids: seq<RowId>) {
    forall i, j :: 0 <= i < j < |ids| ==> ids[i] != ids[j]
  }

  predicate WellFormedConfirm(input: ConfirmInput) {
    && input.expectedVersion >= 1 && 1 <= input.limit <= 25
    && (input.rowIds.Some? ==>
        input.rowIds.value != [] && |input.rowIds.value| <= input.limit && DistinctRows(input.rowIds.value))
  }

  /** The decided rows of the actor, restricted to the requested ones. */
  function OwnedReady(s: Store, ctx: Ctx, package: PackageId, rowIds: Option<seq<RowId>>): set<RowId> {
    set r | r in InState(s, package, Ready) && s.rows[r].decision.Some? && s.rows[r].decision.value.actor == ctx.actor
      && (rowIds.Some? ==> r in rowIds.value)
  }

  function Take(ids: seq<RowId>, limit: int): seq<RowId>
    requires limit >= 0
  {
    if |ids| <= limit then ids else ids[..limit]
  }

  ghost function Selected(s: Store, ctx: Ctx, package: PackageId, input: ConfirmInput): seq<RowId>
    requires WellFormedConfirm(input)
  {
    Take(InOrder(OwnedReady(s, ctx, package, input.rowIds)), input.limit)
  }

  /** A replay checks the saved rows again; it writes nothing. */
  function Revalidate(s: Store, ctx: Ctx, package: PackageId, id: RowId): Option<Refusal> {
    if id !in s.rows || s.rows[id].package != package || package !in s.packages then Some(ReceiptIntegrity)
    else
      var row := s.rows[id];
      if row.decision.None? || row.decision.value.actor != ctx.actor then Some(SourceIntegrity)
      else if id !in ctx.annotated then Some(AnnotationsRefused)
      else
        var d := row.decision.value;
        match d.input.action
        case Create =>
          if ValidateCreate(s, ctx, id, d.values).Some? then ValidateCreate(s, ctx, id, d.values)
              else if row.lead.None? then Some(ReceiptIntegrity)
          else if row.lead.value !in ctx.linkable then Some(PermissionDenied) else None
        case Link => if d.input.target.None? || d.input.target.value !in ctx.linkable then Some(LinkRefused) else None
        case _ => None
  }

  function RevalidateAll(s: Store, ctx: Ctx, package: PackageId, ids: seq<RowId>): Option<Refusal>
    decreases |ids|
  {
    if ids == [] then None
    else if Revalidate(s, ctx, package, ids[0]).Some? then Revalidate(s, ctx, package, ids[0])
    else RevalidateAll(s, ctx, package, ids[1..])
  }

  ghost function Confirm(s: Store, ctx: Ctx, package: PackageId, input: ConfirmInput): Result<Store, Refusal> {
    var k := ConfirmKey(package, input.key);
    if !WellFormedConfirm(input) then Refused(InputInvalid)
    else if package !in s.packages then Refused(NotFound)
    else if !ctx.authorized then Refused(PermissionDenied)
    else if k in s.receipts then
      var saved := s.receipts[k];
      if saved.actor != ctx.actor || !saved.ConfirmReceipt? || saved.confirmed != input then Refused(ConfirmKeyConflict)
      else if RevalidateAll(s, ctx, package, saved.rows).Some?
          then Refused(RevalidateAll(s, ctx, package, saved.rows).value)
      else Ok(s)
    else
      var p := s.packages[package];
      if (p.state != Mapped && p.state != Partial) || p.version != input.expectedVersion then Refused(ConfirmConflict)
      else
        var ready := Selected(s, ctx, package, input);
        if input.rowIds.Some? && |ready| != |input.rowIds.value| then Refused(RowsChanged)
        else if ready == [] then Refused(NoOwnedRows)
        else
          match CommitRows(s, ctx, ready)
          case Refused(e) => Refused(e)
          case Ok(s') => Ok(Settled(s', ctx, package, input, ready))
  }

  /** The report, the new package state and version, and the receipt. */
  function Settled(s: Store, ctx: Ctx, package: PackageId, input: ConfirmInput, ready: seq<RowId>): Store
    requires package in s.packages
  {
    var p := s.packages[package];
    s.(reports := s.reports[package := ReportOf(s, package)],
       packages := s.packages[package :=
           p.(state := if Open(s, package) > 0 then Partial else Completed, version := p.version + 1)],
       receipts := s.receipts[ConfirmKey(package, input.key) := ConfirmReceipt(ctx.actor, input, ready)])
  }

  // ---------------------------------------------------------------- blocks

  predicate WellFormedBlock(input: BlockInput) {
    && input.expectedVersion >= 1 && 1 <= |input.items| <= 25
    && forall i, j :: 0 <= i < j < |input.items| ==> input.items[i].rowId != input.items[j].rowId
  }

  /** The row a replayed item left, with its decision and still settled. */
  function ReplayItem(s: Store, ctx: Ctx, package: PackageId, item: BlockItem): Option<Refusal> {
    if item.rowId !in s.rows || s.rows[item.rowId].package != package
        || s.rows[item.rowId].fingerprint != item.fingerprint
       || s.rows[item.rowId].decision.None?
       || s.rows[item.rowId].decision.value.input.key != item.decision.key then Some(BlockReceiptChanged)
    else
      match s.rows[item.rowId].state
      case Deferred => if ValidDeferral(s, item.rowId) then None else Some(DeferralIntegrity)
      case Accepted => Revalidate(s, ctx, package, item.rowId)
      case Ignored => Revalidate(s, ctx, package, item.rowId)
      case _ => Some(BlockReceiptChanged)
  }

  function BlockReplay(s: Store, ctx: Ctx, package: PackageId, items: seq<BlockItem>): Option<Refusal>
    decreases |items|
  {
    if items == [] then None
    else if ReplayItem(s, ctx, package, items[0]).Some? then ReplayItem(s, ctx, package, items[0])
    else BlockReplay(s, ctx, package, items[1..])
  }

  /** The item names a row still to be decided, at the version it was seen at. */
  predicate Current(s: Store, package: PackageId, item: BlockItem) {
    && item.rowId in s.rows && s.rows[item.rowId].package == package
    && s.rows[item.rowId].fingerprint == item.fingerprint
    && s.rows[item.rowId].version == item.decision.expectedVersion && s.rows[item.rowId].state == Review
    && s.rows[item.rowId].decision.None?
  }

  function DecideAll(s: Store, ctx: Ctx, package: PackageId, items: seq<BlockItem>): (r: Result<Store, Refusal>)
    ensures r.Ok? ==> r.value.packages == s.packages && r.value.reports == s.reports && r.value.leads == s.leads
    decreases |items|
  {
    if items == [] then Ok(s)
    else if !Current(s, package, items[0]) then Refused(BlockRowChanged)
    else
      match Decide(s, ctx, package, items[0].rowId, items[0].decision)
      case Refused(e) => Refused(e)
      case Ok(s') => DecideAll(s', ctx, package, items[1..])
  }

  function RowIds(items: seq<BlockItem>, deferred: bool): seq<RowId>
    decreases |items|
  {
    if items == [] then []
    else
      (if (items[0].decision.action == Defer) == deferred then [items[0].rowId] else []) + RowIds(items[1..], deferred)
  }

  function BlockConfirm(input: BlockInput): ConfirmInput {
    var ready := RowIds(input.items, false);
    ConfirmInput(input.expectedVersion, OfBlock(input), |ready|, Some(ready))
  }

  /** Only deferrals: nothing to confirm, the package moves on. */
  function Bumped(s: Store, package: PackageId): Store
    requires package in s.packages
  {
    s.(packages := s.packages[package :=
        s.packages[package].(state := Partial, version := s.packages[package].version + 1)])
  }

  ghost function ExecuteBlock(s: Store, ctx: Ctx, package: PackageId, input: BlockInput): Result<Store, Refusal> {
    var k := BlockKey(package, input.key);
    if !WellFormedBlock(input) then Refused(InputInvalid)
    else if package !in s.packages then Refused(NotFound)
    else if !ctx.authorized then Refused(PermissionDenied)
    else if s.packages[package].sha != input.sha then Refused(BlockSourceChanged)
    else if k in s.receipts then
      if s.receipts[k].actor != ctx.actor || !s.receipts[k].BlockReceipt?
          || s.receipts[k].block != input then Refused(BlockKeyConflict)
      else if BlockReplay(s, ctx, package, input.items).Some?
          then Refused(BlockReplay(s, ctx, package, input.items).value)
      else Ok(s)
    else
      var p := s.packages[package];
      if p.version != input.expectedVersion
          || (p.state != Mapped && p.state != Partial) then Refused(BlockVersionChanged)
      else
        match DecideAll(s, ctx, package, input.items)
        case Refused(e) => Refused(e)
        case Ok(decided) =>
          var ready, deferred := RowIds(input.items, false), RowIds(input.items, true);
          var settled :=
            if ready != [] then Confirm(decided, ctx, package, BlockConfirm(input)) else Ok(Bumped(decided, package));
          if settled.Refused? then Refused(settled.error)
          else if !ctx.reconciled then Refused(ReconciliationFailed)
          else Ok(settled.value.(receipts :=
              settled.value.receipts[k := BlockReceipt(ctx.actor, input, ready, deferred)]))
  }

  // ---------------------------------------------------------------- the life of a package

  function CreatePackage(s: Store, ctx: Ctx, package: PackageId, campus: CampusId,
                         sha: string): Result<Store, Refusal> {
    if !ctx.authorized then Refused(PermissionDenied)
    else if package in s.packages || (exists p :: p in s.packages && s.packages[p].sha == sha)
        then Refused(PackageConflict)
    else Ok(s.(packages := s.packages[package := Package(campus, sha, Uploading, 1)]))
  }

  function Seal(s: Store, ctx: Ctx, package: PackageId): Result<Store, Refusal> {
    if package !in s.packages then Refused(NotFound)
    else if !ctx.authorized then Refused(PermissionDenied)
    else if s.packages[package].state != Uploading then Ok(s)
    else Ok(s.(packages := s.packages[package :=
        s.packages[package].(state := Sealed, version := s.packages[package].version + 1)]))
  }

  /** The rows found in the snapshot; all of them start in review. */
  function Map(s: Store, ctx: Ctx, package: PackageId, expectedVersion: int,
               found: map<RowId, (string, Values)>): Result<Store, Refusal> {
    if package !in s.packages then Refused(NotFound)
    else if !ctx.authorized then Refused(PermissionDenied)
    else if s.packages[package].state != Sealed
        || s.packages[package].version != expectedVersion then Refused(PackageConflict)
    else if |found| > 10000 || (exists r :: r in found && r in s.rows) then Refused(IdentifierTaken)
    else
      Ok(s.(rows := s.rows + map r | r in found :: Row(package, found[r].0, found[r].1, Review, 1, None, None),
            packages := s.packages[package := s.packages[package].(state := Mapped, version := expectedVersion + 1)]))
  }

  // ---------------------------------------------------------------- runs

  datatype Request =
    | Creating(campus: CampusId, sha: string)
    | Sealing
    | Mapping(expectedVersion: int, found: map<RowId, (string, Values)>)
    | Deciding(row: RowId, decision: DecisionInput)
    | Reopening(row: RowId, reopened: ReopenInput)
    | Confirming(confirmed: ConfirmInput)
    | ExecutingBlock(block: BlockInput)

  datatype Event =
    | Transaction(ctx: Ctx, package: PackageId, request: Request)
    | OtherLead(id: LeadId, lead: Lead)                // another writer creates or edits a lead of its own

  ghost function Handle(s: Store, ctx: Ctx, package: PackageId, r: Request): Result<Store, Refusal> {
    match r
    case Creating(campus, sha) => CreatePackage(s, ctx, package, campus, sha)
    case Sealing => Seal(s, ctx, package)
    case Mapping(expectedVersion, found) => Map(s, ctx, package, expectedVersion, found)
    case Deciding(row, decision) => Decide(s, ctx, package, row, decision)
    case Reopening(row, input) => Reopen(s, ctx, package, row, input)
    case Confirming(input) => Confirm(s, ctx, package, input)
    case ExecutingBlock(input) => ExecuteBlock(s, ctx, package, input)
  }

  /** A refused transaction leaves the store as it was. */
  ghost function Next(s: Store, e: Event): Store {
    match e
    case Transaction(ctx, package, r) => (match Handle(s, ctx, package, r) case Ok(s') => s' case Refused(_) => s)
    case OtherLead(id, lead) =>
      if lead.imported || (id in s.leads && s.leads[id].imported) then s else s.(leads := s.leads[id := lead])
  }

  ghost function Run(s: Store, events: seq<Event>): Store
    decreases |events|
  {
    if events == [] then s else Run(Next(s, events[0]), events[1..])
  }

  function Initial(): Store { Store(map[], map[], map[], map[], map[]) }
}
