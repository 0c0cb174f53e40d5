/**
 The balanced assignment of new entrants: a reservation chooses at random among the least
 served eligible users, and a later commit counts the lead if the reservation is still
 current.  The counters and receipts are kept per campus, configuration version and rule.
 */
module NewEntrants {
  import opened Prelude
  import opened AssignmentCandidates

  type LeadId = int

  datatype Rule = Rule(campusId: string, version: int, ruleId: string)
  datatype Key = Key(rule: Rule, userId: UserId)
  /** The SHA-256 of the campus and the event key. */
  datatype EventHash = EventHash(campusId: string, eventKey: string)
  datatype Reservation = Reservation(rule: Rule, userId: UserId, previousCount: int, eventHash: EventHash)
  datatype Receipt = Receipt(leadId: LeadId, key: Key, countAfter: int)
  datatype Lead = Lead(isNew: bool, assignedTo: Option<UserId>, campusId: string)

  datatype Refusal = BalanceCapacity | RandomInvalid | ReplayConflict | NewLeadRequired | ReservationStale
    | LeadAlreadyCounted

  datatype Ledger = Ledger(counters: map<Key, int>, receipts: map<EventHash, Receipt>, leads: map<LeadId, Lead>)

  const COUNT_LIMIT: int := 0x7fff_ffff

  // ---------------------------------------------------------------- choice

  function CountOf(counts: map<UserId, int>, u: UserId): int { if u in counts then counts[u] else 0 }

  function Least(users: seq<UserId>, counts: map<UserId, int>): int
    requires users != []
    decreases |users|
  {
    var c := CountOf(counts, users[0]);
    if |users| == 1 then c else var m := Least(users[1..], counts); if c < m then c else m
  }

  function WithCount(users: seq<UserId>, counts: map<UserId, int>, n: int): seq<UserId>
    decreases |users|
  {
    if users == [] then []
    else (if CountOf(counts, users[0]) == n then [users[0]] else []) + WithCount(users[1..], counts, n)
  }

  /** `pick` is what the random source returns. */
  function Choose(candidates: seq<Candidate>, counts: map<UserId, int>,
                  pick: int): Result<Option<(UserId, int)>, Refusal> {
    var eligible := Ranking(candidates);
    if eligible == [] then Ok(None)
    else if exists u :: u in counts && (counts[u] < 0 || counts[u] >= COUNT_LIMIT) then Refused(BalanceCapacity)
    else
      var minimum := Least(eligible, counts);
      var peers := WithCount(eligible, counts, minimum);
      if pick < 0 || pick >= |peers| then Refused(RandomInvalid) else Ok(Some((peers[pick], minimum)))
  }

  lemma {:induction false} LeastIsMinimum(users: seq<UserId>, counts: map<UserId, int>)
    requires users != []
    ensures forall u :: u in users ==> Least(users, counts) <= CountOf(counts, u)
    ensures exists u :: u in users && CountOf(counts, u) == Least(users, counts)
    decreases |users|
  {
    if |users| > 1 {
      LeastIsMinimum(users[1..], counts);
      assert users == [users[0]] + users[1..];
      var u :| u in users[1..] && CountOf(counts, u) == Least(users[1..], counts);
      assert u in users && users[0] in users;
      assert CountOf(counts, if CountOf(counts, users[0]) < Least(users[1..], counts) then users[0] else u)
          == Least(users, counts);
    } else {
      assert users[0] in users && CountOf(counts, users[0]) == Least(users, counts);
    }
  }

  lemma {:induction false} WithCountIsFilter(users: seq<UserId>, counts: map<UserId, int>, n: int)
    ensures forall u :: u in WithCount(users, counts, n) <==> u in users && CountOf(counts, u) == n
    ensures Ordered(users) ==> Ordered(WithCount(users, counts, n))
    decreases |users|
  {
    if users != [] {
      WithCountIsFilter(users[1..], counts, n);
      assert users == [users[0]] + users[1..];
      if Ordered(users) {
        OrderedCons(users[0], WithCount(users[1..], counts, n));
      }
    }
  }

  /** The choice serves an eligible user that no eligible user is behind, and each of those can be the one. */
  lemma ChoiceIsLeastServed(candidates: seq<Candidate>, counts: map<UserId, int>, pick: int)
    ensures var r := Choose(candidates, counts, pick);
      && (r == Ok(None) <==> EligibleUsers(candidates) == {})
      && (r.Ok? && r.value.Some? ==>
            var (u, n) := r.value.value;
            && u in EligibleUsers(candidates) && CountOf(counts, u) == n && 0 <= n < COUNT_LIMIT
            && forall v :: v in EligibleUsers(candidates) ==> n <= CountOf(counts, v))
  {
    RankingIsEligible(candidates);
    var eligible := Ranking(candidates);
    if eligible != [] {
      assert eligible[0] in EligibleUsers(candidates);
      LeastIsMinimum(eligible, counts);
      var minimum := Least(eligible, counts);
      WithCountIsFilter(eligible, counts, minimum);
      var peers := WithCount(eligible, counts, minimum);
      if 0 <= pick < |peers| {
        assert peers[pick] in peers;
      }
    }
  }

  lemma EveryPeerCanBeChosen(candidates: seq<Candidate>, counts: map<UserId, int>, u: UserId)
    requires forall v :: v in counts ==> 0 <= counts[v] < COUNT_LIMIT
    requires u in EligibleUsers(candidates) && forall v :: v in EligibleUsers(candidates) ==>
        CountOf(counts, u) <= CountOf(counts, v)
    ensures exists pick :: Choose(candidates, counts, pick) == Ok(Some((u, CountOf(counts, u))))
  {
    RankingIsEligible(candidates);
    var eligible := Ranking(candidates);
    assert u in eligible;
    LeastIsMinimum(eligible, counts);
    var minimum := Least(eligible, counts);
    WithCountIsFilter(eligible, counts, minimum);
    var pick :| 0 <= pick < |WithCount(eligible, counts, minimum)| && WithCount(eligible, counts, minimum)[pick] == u;
    assert Choose(candidates, counts, pick) == Ok(Some((u, CountOf(counts, u))));
  }

  // ---------------------------------------------------------------- transactions

  function Counter(l: Ledger, k: Key): int { if k in l.counters then l.counters[k] else 0 }

  function Rows(l: Ledger, rule: Rule): set<Key> {
    set k | k in l.counters && k.rule == rule
  }

  function Counts(l: Ledger, rule: Rule): map<UserId, int> {
    map k | k in Rows(l, rule) :: k.userId := l.counters[k]
  }

  lemma CountsAreCounters(l: Ledger, rule: Rule, u: UserId)
    ensures CountOf(Counts(l, rule), u) == Counter(l, Key(rule, u))
  {
    if Key(rule, u) in l.counters {
      assert Key(rule, u) in Rows(l, rule);
    }
  }

  function Reserve(l: Ledger, rule: Rule, eventKey: string, candidates: seq<Candidate>,
                   pick: int): Result<Option<Reservation>, Refusal> {
    if |Rows(l, rule)| > 100 then Refused(BalanceCapacity)
    else
      match Choose(candidates, Counts(l, rule), pick)
      case Refused(e) => Refused(e)
      case Ok(None) => Ok(None)
      case Ok(Some((u, n))) => Ok(Some(Reservation(rule, u, n, EventHash(rule.campusId, eventKey))))
  }

  /** The key has a unique lead: a second receipt for a lead violates the constraint and rolls back. */
  function Commit(l: Ledger, r: Reservation, leadId: LeadId): Result<Ledger, Refusal> {
    var key := Key(r.rule, r.userId);
    if r.eventHash in l.receipts then
      if l.receipts[r.eventHash].leadId != leadId || l.receipts[r.eventHash].key != key then Refused(ReplayConflict)
          else Ok(l)
    else if leadId !in l.leads || !l.leads[leadId].isNew || l.leads[leadId].assignedTo != Some(r.userId)
            || l.leads[leadId].campusId != r.rule.campusId then Refused(NewLeadRequired)
    else if Counter(l, key) != r.previousCount then Refused(ReservationStale)
    else if exists h :: h in l.receipts && l.receipts[h].leadId == leadId then Refused(LeadAlreadyCounted)
    else
      Ok(l.(counters := l.counters[key := if key in l.counters then l.counters[key] + 1 else 1],
            receipts := l.receipts[r.eventHash := Receipt(leadId, key, r.previousCount + 1)]))
  }

  /** The lead is new, still without a count, assigned to the reserved user and of the campus. */
  predicate Countable(l: Ledger, r: Reservation, leadId: LeadId) {
    && leadId in l.leads && l.leads[leadId] == Lead(true, Some(r.userId), r.rule.campusId)
    && forall h :: h in l.receipts ==> l.receipts[h].leadId != leadId
  }

  /**
   A new event counts exactly if its lead may be counted and the user's counter is the one reserved
   at; the counter rises by one and the receipt carries its new value.
   */
  lemma CommitContract(l: Ledger, r: Reservation, leadId: LeadId)
    requires r.eventHash !in l.receipts
    ensures Commit(l, r, leadId).Ok? <==>
      Countable(l, r, leadId) && r.previousCount == Counter(l, Key(r.rule, r.userId))
    ensures Commit(l, r, leadId).Ok? ==>
      var key := Key(r.rule, r.userId);
      Commit(l, r, leadId).value ==
        Ledger(l.counters[key := r.previousCount + 1],
               l.receipts[r.eventHash := Receipt(leadId, key, r.previousCount + 1)],
               l.leads)
  {
  }

  /** The eligible users of whom none has a lower counter. */
  ghost predicate IsLeastServed(l: Ledger, rule: Rule, candidates: seq<Candidate>, u: UserId) {
    && u in EligibleUsers(candidates)
    && forall v :: v in EligibleUsers(candidates) ==> Counter(l, Key(rule, u)) <= Counter(l, Key(rule, v))
  }

  function Peers(l: Ledger, rule: Rule, candidates: seq<Candidate>): seq<UserId>
    requires Ranking(candidates) != []
  {
    WithCount(Ranking(candidates), Counts(l, rule), Least(Ranking(candidates), Counts(l, rule)))
  }

  lemma PeersAreLeastServed(l: Ledger, rule: Rule, candidates: seq<Candidate>)
    requires Ranking(candidates) != []
    ensures forall u :: u in Peers(l, rule, candidates) <==> IsLeastServed(l, rule, candidates, u)
    ensures Ordered(Peers(l, rule, candidates))
  {
    var eligible, counts := Ranking(candidates), Counts(l, rule);
    RankingIsEligible(candidates);
    LeastIsMinimum(eligible, counts);
    WithCountIsFilter(eligible, counts, Least(eligible, counts));
    forall u ensures CountOf(counts, u) == Counter(l, Key(rule, u)) {
      CountsAreCounters(l, rule, u);
    }
  }

  predicate InBounds(l: Ledger, rule: Rule) {
    forall k :: k in l.counters && k.rule == rule ==> 0 <= l.counters[k] < 2147483647
  }

  lemma CountsInBounds(l: Ledger, rule: Rule)
    ensures InBounds(l, rule) <==> forall u :: u in Counts(l, rule) ==> 0 <= Counts(l, rule)[u] < COUNT_LIMIT
  {
    forall k | k in l.counters && k.rule == rule
      ensures k.userId in Counts(l, rule) && Counts(l, rule)[k.userId] == l.counters[k]
    {
      assert k in Rows(l, rule) && k == Key(rule, k.userId);
      CountsAreCounters(l, rule, k.userId);
    }
    forall u | u in Counts(l, rule) ensures Counts(l, rule)[u] == Counter(l, Key(rule, u)) {
      CountsAreCounters(l, rule, u);
    }
  }

  lemma PickedPeer(l: Ledger, rule: Rule, candidates: seq<Candidate>, pick: nat)
    requires Ranking(candidates) != [] && pick < |Peers(l, rule, candidates)|
    ensures Counter(l, Key(rule, Peers(l, rule, candidates)[pick])) == Least(Ranking(candidates), Counts(l, rule))
  {
    var counts, u := Counts(l, rule), Peers(l, rule, candidates)[pick];
    WithCountIsFilter(Ranking(candidates), counts, Least(Ranking(candidates), counts));
    assert u in Peers(l, rule, candidates);
    CountsAreCounters(l, rule, u);
  }

  lemma ChoiceOfPeers(candidates: seq<Candidate>, counts: map<UserId, int>, pick: int, peers: seq<UserId>)
    requires Ranking(candidates) != []
    requires peers == WithCount(Ranking(candidates), counts, Least(Ranking(candidates), counts))
    ensures Choose(candidates, counts, pick) ==
      if !(forall u :: u in counts ==> 0 <= counts[u] < COUNT_LIMIT) then Refused(BalanceCapacity)
      else if 0 <= pick < |peers| then Ok(Some((peers[pick], Least(Ranking(candidates), counts))))
          else Refused(RandomInvalid)
  {
  }

  /** A reservation is made for the picked one of the least served eligible users, in order, at its counter. */
  lemma ReservationContract(l: Ledger, rule: Rule, eventKey: string, candidates: seq<Candidate>, pick: nat, u: UserId)
    requires |Rows(l, rule)| <= 100 && InBounds(l, rule) && Ranking(candidates) != []
    requires pick < |Peers(l, rule, candidates)| && u == Peers(l, rule, candidates)[pick]
    ensures Reserve(l, rule, eventKey, candidates, pick) ==
      Ok(Some(Reservation(rule, u, Counter(l, Key(rule, u)), EventHash(rule.campusId, eventKey))))
  {
    CountsInBounds(l, rule);
    ChoiceOfPeers(candidates, Counts(l, rule), pick, Peers(l, rule, candidates));
    PickedPeer(l, rule, candidates, pick);
  }

  /** It is refused beyond a hundred counters, for a count out of bounds, and for a pick outside these users. */
  lemma ReservationRefused(l: Ledger, rule: Rule, eventKey: string, candidates: seq<Candidate>, pick: int)
    requires Ranking(candidates) != []
    ensures |Rows(l, rule)| > 100 || !InBounds(l, rule) ==>
      Reserve(l, rule, eventKey, candidates, pick) == Refused(BalanceCapacity)
    ensures |Rows(l, rule)| <= 100 && InBounds(l, rule) && !(0 <= pick < |Peers(l, rule, candidates)|) ==>
      Reserve(l, rule, eventKey, candidates, pick) == Refused(RandomInvalid)
  {
    CountsInBounds(l, rule);
    ChoiceOfPeers(candidates, Counts(l, rule), pick, Peers(l, rule, candidates));
  }

  /** Nobody eligible is no reservation. */
  lemma NobodyIsReserved(l: Ledger, rule: Rule, eventKey: string, candidates: seq<Candidate>, pick: int)
    requires EligibleUsers(candidates) == {} && |Rows(l, rule)| <= 100
    ensures Reserve(l, rule, eventKey, candidates, pick) == Ok(None)
  {
    ChoiceIsLeastServed(candidates, Counts(l, rule), pick);
  }

  // ---------------------------------------------------------------- runs

  datatype World = World(ledger: Ledger, issued: set<Reservation>)

  datatype Event =
    | Reserving(rule: Rule, eventKey: string, candidates: seq<Candidate>, pick: int)
    | Committing(reservation: Reservation, leadId: LeadId)
    | LeadWritten(leadId: LeadId, lead: Lead)

  function Next(w: World, e: Event): World {
    match e
    case Reserving(rule, eventKey, candidates, pick) =>
      (match Reserve(w.ledger, rule, eventKey, candidates, pick)
       case Ok(Some(r)) => w.(issued := w.issued + {r})
       case _ => w)
    case Committing(r, leadId) =>
      if r !in w.issued then w
      else (match Commit(w.ledger, r, leadId) case Ok(l) => w.(ledger := l) case Refused(_) => w)
    case LeadWritten(leadId, lead) => w.(ledger := w.ledger.(leads := w.ledger.leads[leadId := lead]))
  }

  function Run(w: World, events: seq<Event>): World
    decreases |events|
  {
    if events == [] then w else Run(Next(w, events[0]), events[1..])
  }

  function Initial(): World { World(Ledger(map[], map[], map[]), {}) }

  // ---------------------------------------------------------------- receipts and counters

  /** The receipts of a user carry exactly the numbers 1 to the counter, each once. */
  ghost predicate ReceiptsNumbered(l: Ledger) {
    && (forall k :: k in l.counters ==> l.counters[k] > 0)
    && (forall h :: h in l.receipts ==> 1 <= l.receipts[h].countAfter <= Counter(l, l.receipts[h].key))
    && (forall g, h :: g in l.receipts && h in l.receipts && SameNumber(l.receipts[g], l.receipts[h]) ==> g == h)
    && (forall k, n :: k in l.counters && 1 <= n <= l.counters[k] ==> Numbered(l, k, n))
    && (forall g, h :: g in l.receipts && h in l.receipts && l.receipts[g].leadId == l.receipts[h].leadId ==> g == h)
  }

  predicate SameNumber(a: Receipt, b: Receipt) { a.key == b.key && a.countAfter == b.countAfter }

  ghost predicate Numbered(l: Ledger, k: Key, n: int) {
    exists h :: h in l.receipts && l.receipts[h].key == k && l.receipts[h].countAfter == n
  }

  lemma CommitKeepsNumbering(l: Ledger, r: Reservation, leadId: LeadId)
    requires ReceiptsNumbered(l) && Commit(l, r, leadId).Ok? && Commit(l, r, leadId).value != l
    ensures ReceiptsNumbered(Commit(l, r, leadId).value)
  {
    var l', key := Commit(l, r, leadId).value, Key(r.rule, r.userId);
    assert Counter(l', key) == Counter(l, key) + 1;
    forall k, n | k in l'.counters && 1 <= n <= l'.counters[k] ensures Numbered(l', k, n) {
      if k == key && n == Counter(l, key) + 1 {
        assert l'.receipts[r.eventHash].countAfter == n;
      } else {
        assert Numbered(l, k, n);
        var h :| h in l.receipts && l.receipts[h].key == k && l.receipts[h].countAfter == n;
        assert h in l'.receipts && l'.receipts[h] == l.receipts[h];
      }
    }
  }

  lemma NextKeepsNumbering(w: World, e: Event)
    requires ReceiptsNumbered(w.ledger)
    ensures ReceiptsNumbered(Next(w, e).ledger)
  {
    if e.Committing? && e.reservation in w.issued {
      var c := Commit(w.ledger, e.reservation, e.leadId);
      if c.Ok? && c.value != w.ledger {
        CommitKeepsNumbering(w.ledger, e.reservation, e.leadId);
      }
    } else if e.LeadWritten? {
      var l, l' := w.ledger, Next(w, e).ledger;
      forall k, n | k in l'.counters && 1 <= n <= l'.counters[k] ensures Numbered(l', k, n) {
        assert Numbered(l, k, n);
      }
    }
  }

  lemma {:induction false} RunKeepsNumbering(w: World, events: seq<Event>)
    requires ReceiptsNumbered(w.ledger)
    ensures ReceiptsNumbered(Run(w, events).ledger)
    decreases |events|
  {
    if events != [] {
      NextKeepsNumbering(w, events[0]);
      RunKeepsNumbering(Next(w, events[0]), events[1..]);
    }
  }

  function ReceiptsOf(l: Ledger, k: Key): set<EventHash> {
    set h | h in l.receipts && l.receipts[h].key == k
  }

  lemma {:induction false} NumberedUpTo(l: Ledger, k: Key, hs: set<EventHash>, n: int)
    requires ReceiptsNumbered(l) && 0 <= n <= Counter(l, k)
    requires hs == set h | h in l.receipts && l.receipts[h].key == k && l.receipts[h].countAfter <= n
    ensures |hs| == n
    decreases n
  {
    if n > 0 {
      assert Numbered(l, k, n);
      var last :| last in l.receipts && l.receipts[last].key == k && l.receipts[last].countAfter == n;
      NumberedUpTo(l, k, hs - {last}, n - 1);
    } else {
      assert hs == {};
    }
  }

  /**
   Over every run, each counter is the number of its receipts, which carry exactly 1 to the counter;
   no lead is counted twice.
   */
  lemma CountersAreReceipts(events: seq<Event>, k: Key)
    ensures var l := Run(Initial(), events).ledger;
      && ReceiptsNumbered(l) && Counter(l, k) == |ReceiptsOf(l, k)|
  {
    var l := Run(Initial(), events).ledger;
    RunKeepsNumbering(Initial(), events);
    NumberedUpTo(l, k, ReceiptsOf(l, k), Counter(l, k));
  }

  lemma {:induction false} ReceiptsStay(w: World, events: seq<Event>, h: EventHash)
    requires h in w.ledger.receipts
    ensures var l := Run(w, events).ledger; h in l.receipts && l.receipts[h] == w.ledger.receipts[h]
    decreases |events|
  {
    if events != [] {
      ReceiptsStay(Next(w, events[0]), events[1..], h);
    }
  }

  /** However much later an event is committed again, nothing changes: the answer is the first one or a conflict. */
  lemma ReplayCountsOnce(w: World, r: Reservation, leadId: LeadId, events: seq<Event>, r': Reservation, leadId': LeadId)
    requires r in w.issued && Commit(w.ledger, r, leadId).Ok? && r'.eventHash == r.eventHash
    ensures var l := Run(Next(w, Committing(r, leadId)), events).ledger;
      Commit(l, r', leadId') == if leadId' == leadId && r'.rule == r.rule && r'.userId == r.userId then Ok(l)
          else Refused(ReplayConflict)
  {
    ReceiptsStay(Next(w, Committing(r, leadId)), events, r.eventHash);
  }

  // ---------------------------------------------------------------- fairness

  type Pool = Rule -> set<UserId>

  /** Every reservation for a rule sees the same eligible users. */
  predicate FixedPool(events: seq<Event>, pool: Pool) {
    forall e :: e in events && e.Reserving? ==> EligibleUsers(e.candidates) == pool(e.rule)
  }

  ghost predicate Issued(w: World, pool: Pool, r: Reservation) {
    && r.userId in pool(r.rule) && r.previousCount >= 0
    && forall v :: v in pool(r.rule) ==> r.previousCount <= Counter(w.ledger, Key(r.rule, v))
  }

  ghost predicate Balanced(l: Ledger, pool: Pool) {
    forall rule, u, v :: u in pool(rule) && v in pool(rule) ==> Counter(l, Key(rule, u)) <= Counter(l, Key(rule, v)) + 1
  }

  ghost predicate Fair(w: World, pool: Pool) {
    Balanced(w.ledger, pool) && forall r :: r in w.issued ==> Issued(w, pool, r)
  }

  lemma ReservationIsIssued(w: World, pool: Pool, rule: Rule, eventKey: string, candidates: seq<Candidate>, pick: int)
    requires EligibleUsers(candidates) == pool(rule)
    ensures var r := Reserve(w.ledger, rule, eventKey, candidates, pick);
      r.Ok? && r.value.Some? ==> Issued(w, pool, r.value.value) && r.value.value.rule == rule
  {
    ChoiceIsLeastServed(candidates, Counts(w.ledger, rule), pick);
    forall v ensures CountOf(Counts(w.ledger, rule), v) == Counter(w.ledger, Key(rule, v)) {
      CountsAreCounters(w.ledger, rule, v);
    }
  }

  lemma NextKeepsFair(w: World, pool: Pool, e: Event)
    requires Fair(w, pool) && (e.Reserving? ==> EligibleUsers(e.candidates) == pool(e.rule))
    ensures Fair(Next(w, e), pool)
  {
    match e
    case Reserving(rule, eventKey, candidates, pick) =>
      ReservationIsIssued(w, pool, rule, eventKey, candidates, pick);
      assert forall r :: Issued(w, pool, r) ==> Issued(Next(w, e), pool, r);
    case Committing(r, leadId) =>
      if r in w.issued {
        assert Issued(w, pool, r);
        if Commit(w.ledger, r, leadId).Ok? {
          CommitKeepsFair(w, pool, r, leadId);
        }
      }
    case LeadWritten(leadId, lead) =>
      assert forall k :: Counter(Next(w, e).ledger, k) == Counter(w.ledger, k);
  }

  /** However stale the reservation, a commit that passes serves a user that no other is behind. */
  lemma CommitKeepsFair(w: World, pool: Pool, r: Reservation, leadId: LeadId)
    requires Fair(w, pool) && Issued(w, pool, r) && Commit(w.ledger, r, leadId).Ok?
    ensures Fair(w.(ledger := Commit(w.ledger, r, leadId).value), pool)
  {
    var l, key := w.ledger, Key(r.rule, r.userId);
    var l' := Commit(l, r, leadId).value;
    if l' != l {
      assert forall k :: Counter(l', k) == Counter(l, k) + if k == key then 1 else 0;
    }
  }

  lemma {:induction false} RunKeepsFair(w: World, pool: Pool, events: seq<Event>)
    requires Fair(w, pool) && FixedPool(events, pool)
    ensures Fair(Run(w, events), pool)
    decreases |events|
  {
    if events != [] {
      assert events[0] in events;
      NextKeepsFair(w, pool, events[0]);
      assert FixedPool(events[1..], pool);
      RunKeepsFair(Next(w, events[0]), pool, events[1..]);
    }
  }

  /**
   While the eligible users of a rule stay the same, the numbers of new entrants they got
   differ by at most one, whatever the random picks and however reservations and commits
   interleave.
   */
  lemma CountsDifferByAtMostOne(events: seq<Event>, pool: Pool, rule: Rule, u: UserId, v: UserId)
    requires FixedPool(events, pool) && u in pool(rule) && v in pool(rule)
    ensures var l := Run(Initial(), events).ledger;
      -1 <= Counter(l, Key(rule, u)) - Counter(l, Key(rule, v)) <= 1
  {
    RunKeepsFair(Initial(), pool, events);
  }

  lemma {:induction false} CountersOnlyGrow(w: World, events: seq<Event>, k: Key)
    ensures Counter(w.ledger, k) <= Counter(Run(w, events).ledger, k)
    decreases |events|
  {
    if events != [] {
      CountersOnlyGrow(Next(w, events[0]), events[1..], k);
    }
  }

  /**
   Also when the pool changes: a commit that counts serves a user none of those eligible at its
   reservation is behind.
   */
  lemma CountedCommitServesTheLeast(w: World, rule: Rule, eventKey: string, candidates: seq<Candidate>, pick: int,
                                    events: seq<Event>, leadId: LeadId, v: UserId)
    requires var r := Reserve(w.ledger, rule, eventKey, candidates, pick); r.Ok? && r.value.Some?
    requires v in EligibleUsers(candidates)
    ensures var r := Reserve(w.ledger, rule, eventKey, candidates, pick).value.value;
      var l := Run(w, events).ledger;
      var c := Commit(l, r, leadId);
      c.Ok? && c.value != l ==>
        && Counter(l, Key(rule, r.userId)) <= Counter(l, Key(rule, v))
        && Counter(c.value, Key(rule, r.userId)) == Counter(l, Key(rule, r.userId)) + 1
  {
    ChoiceIsLeastServed(candidates, Counts(w.ledger, rule), pick);
    CountsAreCounters(w.ledger, rule, v);
    CountersOnlyGrow(w, events, Key(rule, v));
  }

  /** The reservation is for an eligible user whose counter none of the eligible is below, and carries that counter. */
  ghost predicate ReservedLeast(l: Ledger, rule: Rule, candidates: seq<Candidate>, r: Reservation) {
    && r.userId in EligibleUsers(candidates) && r.previousCount == Counter(l, Key(rule, r.userId))
    && forall v :: v in EligibleUsers(candidates) ==> r.previousCount <= Counter(l, Key(rule, v))
  }

  lemma ReservationIsLeast(l: Ledger, rule: Rule, eventKey: string, candidates: seq<Candidate>, pick: int)
    requires var r := Reserve(l, rule, eventKey, candidates, pick); r.Ok? && r.value.Some?
    ensures ReservedLeast(l, rule, candidates, Reserve(l, rule, eventKey, candidates, pick).value.value)
  {
    ChoiceIsLeastServed(candidates, Counts(l, rule), pick);
    CountsAreCounters(l, rule, Reserve(l, rule, eventKey, candidates, pick).value.value.userId);
    forall v | v in EligibleUsers(candidates)
      ensures Reserve(l, rule, eventKey, candidates, pick).value.value.previousCount <= Counter(l, Key(rule, v))
    {
      CountsAreCounters(l, rule, v);
    }
  }

  // ---------------------------------------------------------------- the ledger as tables

  class Tables {
    var counters: map<Key, int>
    var receipts: map<EventHash, Receipt>
    var leads: map<LeadId, Lead>

    function View(): Ledger
      reads this
    {
      Ledger(counters, receipts, leads)
    }

    /** Every counter has its receipts, numbered from one, and no lead has two. */
    ghost predicate Valid()
      reads this
    {
      ReceiptsNumbered(View())
    }

    constructor ()
      ensures Valid() && View() == Initial().ledger
    {
      counters, receipts, leads := map[], map[], map[];
    }

    method ReserveNewEntrant(rule: Rule, eventKey: string, candidates: seq<Candidate>, pick: int)
      returns (r: Result<Option<Reservation>, Refusal>)
      requires Valid()
      ensures r == Reserve(View(), rule, eventKey, candidates, pick)
      ensures r.Ok? && r.value.Some? ==> ReservedLeast(View(), rule, candidates, r.value.value)
    {
      var rows := set k | k in counters && k.rule == rule;
      assert rows == Rows(View(), rule);
      if |rows| > 100 {
        return Refused(BalanceCapacity);
      }
      var counts := map k | k in rows :: k.userId := counters[k];
      assert counts == Counts(View(), rule);
      var selected := Choose(candidates, counts, pick);
      if selected.Refused? {
        return Refused(selected.error);
      }
      if selected.value.None? {
        return Ok(None);
      }
      ReservationIsLeast(View(), rule, eventKey, candidates, pick);
      return Ok(Some(Reservation(rule, selected.value.value.0, selected.value.value.1,
                                 EventHash(rule.campusId, eventKey))));
    }

    method CommitNewEntrant(reservation: Reservation, leadId: LeadId) returns (r: Result<(), Refusal>)
      requires Valid()
      modifies this`counters, this`receipts
      ensures Valid()
      ensures r.Ok? ==> reservation.eventHash in receipts && receipts[reservation.eventHash].leadId == leadId
      ensures r.Ok? && reservation.eventHash !in old(receipts) ==> Countable(old(View()), reservation, leadId)
      ensures r.Ok? && reservation.eventHash !in old(receipts) ==>
        var key := Key(reservation.rule, reservation.userId);
        |ReceiptsOf(View(), key)| == |ReceiptsOf(old(View()), key)| + 1
      ensures match Commit(old(View()), reservation, leadId)
        case Ok(l) => r == Ok(()) && View() == l
        case Refused(e) => r == Refused(e) && View() == old(View())
    {
      var key := Key(reservation.rule, reservation.userId);
      if reservation.eventHash in receipts {
        var previous := receipts[reservation.eventHash];
        if previous.leadId != leadId || previous.key != key {
          return Refused(ReplayConflict);
        }
        return Ok(());
      }
      if leadId !in leads || !leads[leadId].isNew || leads[leadId].assignedTo != Some(reservation.userId)
         || leads[leadId].campusId != reservation.rule.campusId {
        return Refused(NewLeadRequired);
      }
      var count := if key in counters then counters[key] else 0;
      if count != reservation.previousCount {
        return Refused(ReservationStale);
      }
      if exists h :: h in receipts && receipts[h].leadId == leadId {
        return Refused(LeadAlreadyCounted);
      }
      ghost var before := View();
      counters := counters[key := if key in counters then counters[key] + 1 else 1];
      receipts := receipts[reservation.eventHash := Receipt(leadId, key, reservation.previousCount + 1)];
      assert View() == Commit(before, reservation, leadId).value;
      CommitKeepsNumbering(before, reservation, leadId);
      NumberedUpTo(before, key, ReceiptsOf(before, key), Counter(before, key));
      NumberedUpTo(View(), key, ReceiptsOf(View(), key), Counter(View(), key));
      return Ok(());
    }
  }
}
