/**
 Automatic assignment in memory: rules configured as a whole, decisions remembered by event
 key, and a round-robin cursor per rule.  A map whose iteration order counts is the sequence
 of its values in insertion order.
 */
module AssignmentService {
  import opened Prelude
  import opened AssignmentCandidates
  import opened Text

  datatype Strategy = RoundRobin | ControlledRandom
  datatype Scope = Global | Source | Campaign

  datatype RuleInput = RuleInput(id: Option<string>, scope: Scope, matchValue: Option<string>, strategy: Strategy,
                                 balanceNewEntrants: bool, enabled: bool, candidates: seq<Candidate>)
  datatype Rule = Rule(id: string, scope: Scope, matchValue: string, strategy: Strategy, balanceNewEntrants: bool,
                       enabled: bool, candidates: seq<Candidate>, version: int, cursor: nat)

  datatype Context = Context(leadId: string, source: string, campaign: string, eventKey: string)
  datatype Selection = Selection(ruleId: string, strategy: Strategy, selectedUserId: UserId, candidateIds: seq<UserId>)
  datatype Decision = Decision(eventKey: string, leadId: string, selection: Selection)

  datatype Refusal =
    | RulesEmpty | ManagerRequired | RoleForbidden | BalancePolicyInvalid | MatchInvalid | CandidateInvalid
    | CandidateDuplicate
    | DuplicateScope | GlobalRuleRequired | OffsetInvalid | ContextInvalid | RuleAmbiguous | RuleNotFound
    | PersistenceRequired | CandidateUnavailable

  /** The rules, in insertion order with distinct ids, and the decisions by event key. */
  datatype State = State(rules: seq<Rule>, decisions: map<string, Decision>)

  /** The first four bytes of the SHA-256 of a rule and an event key. */
  type Draw = (string, string) -> nat

  // ---------------------------------------------------------------- configuration

  predicate IdentifierChar(c: char) {
    'a' <= c <= 'z' || 'A' <= c <= 'Z' || '0' <= c <= '9' || c == '_' || c == '-'
  }

  predicate Identifier(s: string) { 2 <= |s| <= 64 && forall i :: 0 <= i < |s| ==> IdentifierChar(s[i]) }

  predicate Malformed(c: Candidate) { c.userId < 0 || c.capacity < 1 || c.activeLeadCount < 0 }

  /** `generated` is the random identifier given when the input has none of its own. */
  function Normalize(input: RuleInput, generated: string): Result<Rule, Refusal> {
    var matched := if input.matchValue.Some? then Trim(input.matchValue.value) else "";
    if input.balanceNewEntrants && input.strategy != ControlledRandom then Refused(BalancePolicyInvalid)
    else if (input.scope == Global) != (matched == "") then Refused(MatchInvalid)
    else if input.candidates == [] || (exists c :: c in input.candidates && Malformed(c)) then Refused(CandidateInvalid)
    else if !Unique(input.candidates) then Refused(CandidateDuplicate)
    else
      var id := if input.id.Some? && Identifier(input.id.value) then input.id.value else generated;
      Ok(Rule(id, input.scope, matched, input.strategy, input.balanceNewEntrants, input.enabled, input.candidates, 1,
              0))
  }

  function NormalizeAll(inputs: seq<RuleInput>, generated: seq<string>): Result<seq<Rule>, Refusal>
    requires |generated| == |inputs|
    decreases |inputs|
  {
    if inputs == [] then Ok([])
    else
      match Normalize(inputs[0], generated[0])
      case Refused(e) => Refused(e)
      case Ok(rule) =>
        match NormalizeAll(inputs[1..], generated[1..])
        case Refused(e) => Refused(e)
        case Ok(rest) => Ok([rule] + rest)
  }

  predicate SameScope(a: Rule, b: Rule) { a.scope == b.scope && a.matchValue == b.matchValue }

  function Matching(rules: seq<Rule>, p: Rule -> bool): seq<Rule>
    decreases |rules|
  {
    if rules == [] then [] else (if p(rules[0]) then [rules[0]] else []) + Matching(rules[1..], p)
  }

  function Snapshot(inputs: seq<RuleInput>, generated: seq<string>): Result<seq<Rule>, Refusal>
    requires |generated| == |inputs|
  {
    match NormalizeAll(inputs, generated)
    case Refused(e) => Refused(e)
    case Ok(rules) =>
      if exists i, j :: 0 <= i < j < |rules| && SameScope(rules[i], rules[j]) then Refused(DuplicateScope)
      else if |GlobalRules(rules)| != 1 then Refused(GlobalRuleRequired)
      else Ok(rules)
  }

  /** Map.set: an existing key keeps its place. */
  function Put(rules: seq<Rule>, rule: Rule): seq<Rule>
    decreases |rules|
  {
    if rules == [] then [rule] else if rules[0].id == rule.id then [rule] + rules[1..]
        else [rules[0]] + Put(rules[1..], rule)
  }

  function PutAll(rules: seq<Rule>, more: seq<Rule>): seq<Rule>
    decreases |more|
  {
    if more == [] then rules else PutAll(Put(rules, more[0]), more[1..])
  }

  function ConfigureState(s: State, manager: bool, inputs: seq<RuleInput>,
                          generated: seq<string>): Result<State, Refusal>
    requires |generated| == |inputs|
  {
    if !manager then Refused(ManagerRequired)
    else if inputs == [] then Refused(RulesEmpty)
    else
      match Snapshot(inputs, generated)
      case Refused(e) => Refused(e)
      case Ok(rules) => Ok(s.(rules := PutAll([], rules)))
  }

  // ---------------------------------------------------------------- selection

  function SelectCandidate(rule: Rule, eventKey: string, offset: nat, draw: Draw): Result<Selection, Refusal> {
    var eligible := Ranking(rule.candidates);
    if eligible == [] then Refused(CandidateUnavailable)
    else
      var index := if rule.strategy == RoundRobin then (rule.cursor + offset) % |eligible|
          else draw(rule.id, eventKey) % |eligible|;
      Ok(Selection(rule.id, rule.strategy, eligible[index], eligible))
  }

  predicate Specific(r: Rule, c: Context) {
    r.enabled && ((r.scope == Source && r.matchValue == Trim(c.source))
                  || (r.scope == Campaign && r.matchValue == Trim(c.campaign)))
  }

  predicate IsGlobal(r: Rule) { r.enabled && r.scope == Global }

  function SpecificRules(rules: seq<Rule>, c: Context): seq<Rule> { Matching(rules, r => Specific(r, c)) }

  function GlobalRules(rules: seq<Rule>): seq<Rule> { Matching(rules, r => IsGlobal(r)) }

  function RuleFor(rules: seq<Rule>, c: Context): Result<Rule, Refusal> {
    var specific := SpecificRules(rules, c);
    if c.leadId == "" || c.eventKey == "" || Trim(c.source) == "" || Trim(c.campaign) == "" then Refused(ContextInvalid)
    else if |specific| > 1 then Refused(RuleAmbiguous)
    else
      var found := if specific != [] then specific else GlobalRules(rules);
      if found == [] then Refused(RuleNotFound)
      else if found[0].balanceNewEntrants then Refused(PersistenceRequired)
      else Ok(found[0])
  }

  /** What `select` answers, and the rules afterwards. */
  function Select(rules: seq<Rule>, c: Context, mutateCursor: bool, offset: nat,
                  draw: Draw): Result<(Selection, seq<Rule>), Refusal> {
    match RuleFor(rules, c)
    case Refused(e) => Refused(e)
    case Ok(rule) =>
      match SelectCandidate(rule, c.eventKey, offset, draw)
      case Refused(e) => Refused(e)
      case Ok(selection) =>
        Ok((selection, if mutateCursor
            && rule.strategy == RoundRobin then Put(rules, rule.(cursor := rule.cursor + 1)) else rules))
  }

  function SimulateState(s: State, manager: bool, c: Context, offset: int, draw: Draw): Result<Selection, Refusal> {
    if !manager then Refused(ManagerRequired)
    else if offset < 0 then Refused(OffsetInvalid)
    else
      match Select(s.rules, c, false, offset, draw)
      case Refused(e) => Refused(e)
      case Ok((selection, _)) => Ok(selection)
  }

  function AssignState(s: State, allowed: bool, c: Context, draw: Draw): Result<(State, Decision), Refusal> {
    if !allowed then Refused(RoleForbidden)
    else if c.eventKey in s.decisions then Ok((s, s.decisions[c.eventKey]))
    else
      match Select(s.rules, c, true, 0, draw)
      case Refused(e) => Refused(e)
      case Ok((selection, rules)) =>
        var decision := Decision(c.eventKey, c.leadId, selection);
        Ok((State(rules, s.decisions[c.eventKey := decision]), decision))
  }

  // ---------------------------------------------------------------- rules by id

  /** The rule with this id, if any. */
  function ById(rules: seq<Rule>, id: string): Option<Rule>
    decreases |rules|
  {
    if rules == [] then None else if rules[0].id == id then Some(rules[0]) else ById(rules[1..], id)
  }

  lemma {:induction false} PutIsUpdate(rules: seq<Rule>, rule: Rule, id: string)
    ensures ById(Put(rules, rule), id) == if id == rule.id then Some(rule) else ById(rules, id)
    decreases |rules|
  {
    if rules != [] && rules[0].id != rule.id {
      PutIsUpdate(rules[1..], rule, id);
    }
  }

  /** No two rules have the same id, and each has candidates, none of them twice. */
  predicate WellConfigured(rules: seq<Rule>)
    decreases |rules|
  {
    rules == [] || (WellFormed(rules[0]) && ById(rules[1..], rules[0].id).None? && WellConfigured(rules[1..]))
  }

  predicate WellFormed(rule: Rule) { rule.candidates != [] && Unique(rule.candidates) }

  lemma {:induction false} PutKeepsWellConfigured(rules: seq<Rule>, rule: Rule)
    requires WellConfigured(rules) && WellFormed(rule)
    ensures WellConfigured(Put(rules, rule))
    decreases |rules|
  {
    if rules != [] && rules[0].id != rule.id {
      PutKeepsWellConfigured(rules[1..], rule);
      PutIsUpdate(rules[1..], rule, rules[0].id);
      var rest := Put(rules[1..], rule);
      assert Put(rules, rule) == [rules[0]] + rest && ([rules[0]] + rest)[1..] == rest;
    } else if rules != [] {
      assert ([rule] + rules[1..])[1..] == rules[1..];
    } else {
      assert [rule][1..] == [];
    }
  }

  lemma {:induction false} PutMembers(rules: seq<Rule>, rule: Rule)
    ensures forall r :: r in Put(rules, rule) ==> r == rule || r in rules
    decreases |rules|
  {
    if rules != [] && rules[0].id != rule.id {
      PutMembers(rules[1..], rule);
    }
  }

  lemma {:induction false} MatchingIsFilter(rules: seq<Rule>, p: Rule -> bool)
    ensures forall r :: r in Matching(rules, p) <==> r in rules && p(r)
    decreases |rules|
  {
    if rules != [] {
      MatchingIsFilter(rules[1..], p);
      assert rules == [rules[0]] + rules[1..];
    }
  }

  lemma {:induction false} ByIdOfMember(rules: seq<Rule>, r: Rule)
    requires WellConfigured(rules) && r in rules
    ensures ById(rules, r.id) == Some(r) && WellFormed(r)
    decreases |rules|
  {
    if r != rules[0] {
      assert rules == [rules[0]] + rules[1..];
      ByIdOfMember(rules[1..], r);
    }
  }

  lemma {:induction false} ByIdIsMember(rules: seq<Rule>, id: string)
    ensures ById(rules, id).Some? ==> ById(rules, id).value in rules && ById(rules, id).value.id == id
    decreases |rules|
  {
    if rules != [] && rules[0].id != id {
      ByIdIsMember(rules[1..], id);
    }
  }

  /** Everything that decides which rule applies, so everything but the cursor. */
  predicate SameButCursor(a: Rule, b: Rule) { a == b.(cursor := a.cursor) }

  predicate SameChoices(a: seq<Rule>, b: seq<Rule>) {
    |a| == |b| && forall i :: 0 <= i < |a| ==> SameButCursor(a[i], b[i])
  }

  lemma {:induction false} SameChoicesMatch(a: seq<Rule>, b: seq<Rule>, p: Rule -> bool)
    requires SameChoices(a, b)
    requires forall x, y :: SameButCursor(x, y) ==> p(x) == p(y)
    ensures SameChoices(Matching(a, p), Matching(b, p))
    decreases |a|
  {
    if a != [] {
      SameChoicesMatch(a[1..], b[1..], p);
    }
  }

  lemma {:induction false} PutCursorKeepsChoices(rules: seq<Rule>, r: Rule, cursor: nat)
    requires ById(rules, r.id) == Some(r)
    ensures SameChoices(Put(rules, r.(cursor := cursor)), rules)
    decreases |rules|
  {
    if rules[0].id != r.id {
      PutCursorKeepsChoices(rules[1..], r, cursor);
    }
  }

  lemma RulesIgnoreCursors(a: seq<Rule>, b: seq<Rule>, c: Context)
    requires SameChoices(a, b)
    ensures SameChoices(SpecificRules(a, c), SpecificRules(b, c)) && SameChoices(GlobalRules(a), GlobalRules(b))
  {
    SameChoicesMatch(a, b, r => Specific(r, c));
    SameChoicesMatch(a, b, r => IsGlobal(r));
  }

  /** Cursors do not influence which rule applies. */
  lemma RuleForIgnoresCursors(a: seq<Rule>, b: seq<Rule>, c: Context)
    requires SameChoices(a, b)
    ensures RuleFor(a, c).Ok? <==> RuleFor(b, c).Ok?
    ensures RuleFor(a, c).Ok? ==> SameButCursor(RuleFor(a, c).value, RuleFor(b, c).value)
    ensures RuleFor(a, c).Refused? ==> RuleFor(a, c) == RuleFor(b, c)
  {
    RulesIgnoreCursors(a, b, c);
  }

  lemma RuleForIsMember(rules: seq<Rule>, c: Context)
    ensures RuleFor(rules, c).Ok? ==> RuleFor(rules, c).value in rules
  {
    MatchingIsFilter(rules, r => Specific(r, c));
    MatchingIsFilter(rules, r => IsGlobal(r));
  }

  lemma {:induction false} PutAllIsWellConfigured(rules: seq<Rule>, more: seq<Rule>)
    requires WellConfigured(rules) && forall r :: r in more ==> WellFormed(r)
    ensures WellConfigured(PutAll(rules, more))
    ensures forall r :: r in PutAll(rules, more) ==> r in rules || r in more
    decreases |more|
  {
    if more != [] {
      assert more[0] in more && more == [more[0]] + more[1..];
      PutKeepsWellConfigured(rules, more[0]);
      PutMembers(rules, more[0]);
      PutAllIsWellConfigured(Put(rules, more[0]), more[1..]);
    }
  }

  lemma {:induction false} NormalizedRules(inputs: seq<RuleInput>, generated: seq<string>)
    requires |generated| == |inputs| && NormalizeAll(inputs, generated).Ok?
    ensures forall r :: r in NormalizeAll(inputs, generated).value ==> WellFormed(r) && r.cursor == 0
    decreases |inputs|
  {
    if inputs != [] {
      NormalizedRules(inputs[1..], generated[1..]);
    }
  }

  // ---------------------------------------------------------------- runs

  predicate Valid(s: State) { WellConfigured(s.rules) }

  /** A configuration leaves distinct rules, all cursors at zero, and the decisions as they were. */
  lemma ConfigureIsValid(s: State, manager: bool, inputs: seq<RuleInput>, generated: seq<string>)
    requires |generated| == |inputs| && ConfigureState(s, manager, inputs, generated).Ok?
    ensures var s' := ConfigureState(s, manager, inputs, generated).value;
      Valid(s') && s'.decisions == s.decisions && forall r :: r in s'.rules ==> r.cursor == 0
  {
    NormalizedRules(inputs, generated);
    PutAllIsWellConfigured([], Snapshot(inputs, generated).value);
  }

  datatype Event =
    | Assigning(allowed: bool, context: Context)
    | Simulating(manager: bool, simulated: Context, offset: int)

  function Next(s: State, e: Event, draw: Draw): State {
    match e
    case Assigning(allowed, c) => (match AssignState(s, allowed, c, draw) case Ok((s', _)) => s' case Refused(_) => s)
    case Simulating(_, _, _) => s
  }

  function Run(s: State, events: seq<Event>, draw: Draw): State
    decreases |events|
  {
    if events == [] then s else Run(Next(s, events[0], draw), events[1..], draw)
  }

  /** The event takes a new decision on this rule. */
  predicate Decides(s: State, e: Event, id: string, draw: Draw) {
    && e.Assigning? && e.allowed && e.context.eventKey !in s.decisions
    && AssignState(s, e.allowed, e.context, draw).Ok? && RuleFor(s.rules, e.context).value.id == id
  }

  /** The user named by the event, if it decides on the rule. */
  function Served(s: State, e: Event, id: string, draw: Draw): (named: seq<UserId>)
    ensures |named| == if Decides(s, e, id, draw) then 1 else 0
  {
    if Decides(s, e, id, draw) then [AssignState(s, true, e.context, draw).value.1.selection.selectedUserId] else []
  }

  /** The users named by the new decisions on a rule, in order. */
  function Named(s: State, events: seq<Event>, id: string, draw: Draw): seq<UserId>
    decreases |events|
  {
    if events == [] then []
    else
      Served(s, events[0], id, draw) + Named(Next(s, events[0], draw), events[1..], id, draw)
  }

  /** The rules after a decision by `rule`. */
  function AfterDecision(rules: seq<Rule>, rule: Rule): seq<Rule> {
    if rule.strategy == RoundRobin then Put(rules, rule.(cursor := rule.cursor + 1)) else rules
  }

  lemma NewDecision(s: State, c: Context, rule: Rule, draw: Draw)
    requires c.eventKey !in s.decisions && AssignState(s, true, c, draw).Ok? && RuleFor(s.rules, c) == Ok(rule)
    ensures AssignState(s, true, c, draw).value.0.rules == AfterDecision(s.rules, rule)
    ensures SelectCandidate(rule, c.eventKey, 0, draw) == Ok(AssignState(s, true, c, draw).value.1.selection)
  {
  }

  lemma DecisionHasARule(s: State, c: Context, draw: Draw) returns (rule: Rule)
    requires c.eventKey !in s.decisions && AssignState(s, true, c, draw).Ok?
    ensures RuleFor(s.rules, c) == Ok(rule) && rule in s.rules
  {
    rule := RuleFor(s.rules, c).value;
    RuleForIsMember(s.rules, c);
  }

  /** The rules after the cursor of `rule` moved. */
  lemma MovedStateIsValid(s: State, s': State, rule: Rule, id: string)
    requires Valid(s) && rule in s.rules && s'.rules == Put(s.rules, rule.(cursor := rule.cursor + 1))
    ensures Valid(s') && SameChoices(s'.rules, s.rules)
    ensures ById(s'.rules, id) == if id == rule.id then Some(rule.(cursor := rule.cursor + 1)) else ById(s.rules, id)
  {
    ByIdOfMember(s.rules, rule);
    PutIsUpdate(s.rules, rule.(cursor := rule.cursor + 1), id);
    PutKeepsWellConfigured(s.rules, rule.(cursor := rule.cursor + 1));
    PutCursorKeepsChoices(s.rules, rule, rule.cursor + 1);
  }

  predicate Deciding(s: State, e: Event, draw: Draw) {
    e.Assigning? && e.allowed && e.context.eventKey !in s.decisions && AssignState(s, true, e.context, draw).Ok?
  }

  /** What an event that decides does to the rules. */
  lemma DecidingEvent(s: State, e: Event, id: string, rule: Rule, draw: Draw)
    requires Deciding(s, e, draw) && RuleFor(s.rules, e.context) == Ok(rule)
    ensures Decides(s, e, id, draw) <==> rule.id == id
    ensures Next(s, e, draw).rules == AfterDecision(s.rules, rule)
  {
    NewDecision(s, e.context, rule, draw);
  }

  lemma IdleEvent(s: State, e: Event, id: string, draw: Draw)
    requires !Deciding(s, e, draw)
    ensures Next(s, e, draw) == s && !Decides(s, e, id, draw)
  {
  }

  /** `s'` is `s` with the cursor of rule `id` moved by `n`. */
  predicate CursorMoved(s: State, s': State, id: string, n: nat) {
    && Valid(s') && SameChoices(s'.rules, s.rules)
    && ById(s.rules, id).Some?
    && ById(s'.rules, id) == Some(ById(s.rules, id).value.(cursor := ById(s.rules, id).value.cursor + n))
  }

  lemma RuleStep(s: State, s': State, rule: Rule, id: string)
    requires Valid(s) && rule in s.rules && ById(s.rules, id).Some? && ById(s.rules, id).value.strategy == RoundRobin
    requires s'.rules == AfterDecision(s.rules, rule)
    ensures CursorMoved(s, s', id, if rule.id == id then 1 else 0)
  {
    ByIdOfMember(s.rules, rule);
    if rule.strategy == RoundRobin {
      MovedStateIsValid(s, s', rule, id);
    }
  }

  /**
   One event moves the cursor of a round-robin rule exactly when it decides on it; nothing else
   about the rules changes.
   */
  lemma NextMovesTheCursor(s: State, e: Event, id: string, draw: Draw)
    requires Valid(s) && ById(s.rules, id).Some? && ById(s.rules, id).value.strategy == RoundRobin
    ensures CursorMoved(s, Next(s, e, draw), id, if Decides(s, e, id, draw) then 1 else 0)
  {
    if Deciding(s, e, draw) {
      var rule := DecisionHasARule(s, e.context, draw);
      DecidingEvent(s, e, id, rule, draw);
      RuleStep(s, Next(s, e, draw), rule, id);
    } else {
      IdleEvent(s, e, id, draw);
    }
  }

  lemma DecisionIsTheTurn(s: State, e: Event, id: string, draw: Draw)
    requires Valid(s) && Decides(s, e, id, draw) && ById(s.rules, id).Some?
    requires ById(s.rules, id).value.strategy == RoundRobin
    ensures var r := ById(s.rules, id).value; var eligible := Ranking(r.candidates);
      eligible != [] && AssignState(s, true, e.context, draw).value.1.selection.selectedUserId
          == eligible[r.cursor % |eligible|]
  {
    var rule := DecisionHasARule(s, e.context, draw);
    NewDecision(s, e.context, rule, draw);
    ByIdOfMember(s.rules, rule);
  }

  /** The users are those of `eligible`, round and round from the cursor. */
  predicate InTurn(named: seq<UserId>, eligible: seq<UserId>, cursor: nat) {
    && (named != [] ==> eligible != [])
    && forall k :: 0 <= k < |named| ==> named[k] == eligible[(cursor + k) % |eligible|]
  }

  lemma InTurnCons(u: UserId, rest: seq<UserId>, eligible: seq<UserId>, cursor: nat)
    requires InTurn(rest, eligible, cursor + 1) && eligible != [] && u == eligible[cursor % |eligible|]
    ensures InTurn([u] + rest, eligible, cursor)
  {
    var named := [u] + rest;
    forall k | 0 <= k < |named| ensures named[k] == eligible[(cursor + k) % |eligible|] {
      if k > 0 {
        assert named[k] == rest[k - 1] && cursor + k == cursor + 1 + (k - 1);
      }
    }
  }

  /** New decisions on a round-robin rule move its cursor one by one; replays, simulations and other rules do not. */
  lemma {:induction false} DecisionsMoveTheCursor(s: State, events: seq<Event>, id: string, draw: Draw)
    requires Valid(s) && ById(s.rules, id).Some? && ById(s.rules, id).value.strategy == RoundRobin
    ensures CursorMoved(s, Run(s, events, draw), id, |Named(s, events, id, draw)|)
    decreases |events|
  {
    if events != [] {
      var s1 := Next(s, events[0], draw);
      NextMovesTheCursor(s, events[0], id, draw);
      DecisionsMoveTheCursor(s1, events[1..], id, draw);
      MovesCompose(s, s1, Run(s, events, draw), id, if Decides(s, events[0], id, draw) then 1 else 0,
                   |Named(s1, events[1..], id, draw)|);
    }
  }

  lemma MovesCompose(a: State, b: State, c: State, id: string, m: nat, n: nat)
    requires CursorMoved(a, b, id, m) && CursorMoved(b, c, id, n)
    ensures CursorMoved(a, c, id, m + n)
  {
  }

  /** The users are served in turn from the cursor of the rule. */
  predicate GoesRound(s: State, named: seq<UserId>, id: string) {
    ById(s.rules, id).Some? && InTurn(named, Ranking(ById(s.rules, id).value.candidates),
                                      ById(s.rules, id).value.cursor)
  }

  lemma ServedIsTheTurn(s: State, e: Event, id: string, draw: Draw)
    requires Valid(s) && ById(s.rules, id).Some? && ById(s.rules, id).value.strategy == RoundRobin
    ensures GoesRound(s, Served(s, e, id, draw), id)
  {
    if Decides(s, e, id, draw) {
      DecisionIsTheTurn(s, e, id, draw);
    }
  }

  /** One event in front of the later decisions. */
  lemma GoRoundStep(s: State, s1: State, served: seq<UserId>, rest: seq<UserId>, id: string)
    requires CursorMoved(s, s1, id, |served|) && |served| <= 1 && GoesRound(s, served, id) && GoesRound(s1, rest, id)
    ensures GoesRound(s, served + rest, id)
  {
    var r := ById(s.rules, id).value;
    if served != [] {
      InTurnCons(served[0], rest, Ranking(r.candidates), r.cursor);
      assert served == [served[0]];
    } else {
      assert served + rest == rest;
    }
  }

  /** The k-th new decision on a round-robin rule names the k-th user after the cursor, in turn. */
  lemma {:induction false} DecisionsGoRound(s: State, events: seq<Event>, id: string, draw: Draw)
    requires Valid(s) && ById(s.rules, id).Some? && ById(s.rules, id).value.strategy == RoundRobin
    ensures GoesRound(s, Named(s, events, id, draw), id)
    decreases |events|
  {
    if events != [] {
      var s1 := Next(s, events[0], draw);
      NextMovesTheCursor(s, events[0], id, draw);
      DecisionsGoRound(s1, events[1..], id, draw);
      ServedIsTheTurn(s, events[0], id, draw);
      GoRoundStep(s, s1, Served(s, events[0], id, draw), Named(s1, events[1..], id, draw), id);
    }
  }

  // ---------------------------------------------------------------- fairness

  /** How often `u` occurs. */
  function Occurrences(s: seq<UserId>, u: UserId): nat { multiset(s)[u] }

  lemma QuotientStep(x: int, n: nat)
    requires n > 0
    ensures x / n - (x - 1) / n == if x % n == 0 then 1 else 0
  {
    var q, r := x / n, x % n;
    assert x == q * n + r;
    if r == 0 {
      QuotientIs(x - 1, n, q - 1, n - 1);
    } else {
      QuotientIs(x - 1, n, q, r - 1);
    }
  }

  lemma QuotientIs(x: int, n: nat, q: int, r: int)
    requires n > 0 && x == q * n + r && 0 <= r < n
    ensures x / n == q && x % n == r
  {
    var d := x / n - q;
    assert x == (x / n) * n + x % n;
    assert d * n == (x / n) * n - q * n;
    assert d * n == r - x % n;
    assert d * n < n && 0 < n + d * n;
    Multiples(d, n);
  }

  lemma Multiples(d: int, n: int)
    requires n > 0
    ensures (d >= 1 ==> d * n >= n) && (d <= -1 ==> d * n <= 0 - n)
  {
    if d >= 1 {
      assert (d - 1) * n >= 0;
    } else {
      assert (0 - d) * n >= 0;
      assert d <= -1 ==> (0 - d - 1) * n >= 0;
    }
  }

  lemma SameResidue(x: int, m: int, n: nat)
    requires n > 0 && 0 <= m < n
    ensures (x - m) % n == 0 <==> x % n == m
  {
    var q, r := x / n, x % n;
    assert x == q * n + r;
    if r >= m {
      QuotientIs(x - m, n, q, r - m);
    } else {
      QuotientIs(x - m, n, q - 1, r - m + n);
    }
  }

  /** Going round `eligible` from `cursor`, the user at place `m` occurs this often. */
  lemma {:induction false} TurnsOf(named: seq<UserId>, eligible: seq<UserId>, cursor: nat, m: nat)
    requires Distinct(eligible) && m < |eligible| && InTurn(named, eligible, cursor)
    ensures Occurrences(named, eligible[m]) == (cursor + |named| - 1 - m) / |eligible| - (cursor - 1 - m) / |eligible|
    decreases |named|
  {
    if named != [] {
      var last, rest, n := |named| - 1, named[..|named| - 1], |eligible|;
      TurnsOf(rest, eligible, cursor, m);
      assert named == rest + [named[last]];
      QuotientStep(cursor + last - m, n);
      SameResidue(cursor + last, m, n);
      var place := (cursor + last) % n;
      assert named[last] == eligible[place];
      assert named[last] == eligible[m] <==> place == m;
    }
  }

  lemma QuotientOfSum(x: int, k: nat, n: nat)
    requires n > 0
    ensures k / n <= (x + k) / n - x / n <= k / n + if k % n == 0 then 0 else 1
  {
    var q, r, p, t := x / n, x % n, k / n, k % n;
    assert x == q * n + r && k == p * n + t;
    assert (q + p) * n == q * n + p * n && (q + p + 1) * n == q * n + p * n + n;
    if r + t < n {
      QuotientIs(x + k, n, q + p, r + t);
    } else {
      QuotientIs(x + k, n, q + p + 1, r + t - n);
    }
  }

  /** `share` is k / n, rounded down or up. */
  predicate FairShare(share: nat, k: nat, n: nat) {
    n > 0 && k / n <= share <= k / n + if k % n == 0 then 0 else 1
  }

  lemma EqualShare(named: seq<UserId>, eligible: seq<UserId>, cursor: nat, u: UserId)
    requires Distinct(eligible) && InTurn(named, eligible, cursor) && u in eligible
    ensures FairShare(Occurrences(named, u), |named|, |eligible|)
  {
    var m :| 0 <= m < |eligible| && eligible[m] == u;
    TurnsOf(named, eligible, cursor, m);
    QuotientOfSum(cursor - 1 - m, |named|, |eligible|);
  }

  lemma EqualShareOfRule(s: State, named: seq<UserId>, rule: Rule, u: UserId)
    requires Valid(s) && ById(s.rules, rule.id) == Some(rule) && GoesRound(s, named, rule.id)
    requires u in EligibleUsers(rule.candidates)
    ensures FairShare(Occurrences(named, u), |named|, |EligibleUsers(rule.candidates)|)
  {
    ByIdIsMember(s.rules, rule.id);
    ByIdOfMember(s.rules, rule);
    RankingIsEligible(rule.candidates);
    RankingIsDistinct(rule.candidates);
    EqualShare(named, Ranking(rule.candidates), rule.cursor, u);
  }

  /**
   Between two configurations, k new decisions on a round-robin rule with n eligible users
   give each of them k / n decisions, rounded down or up, and move the cursor by k.
   */
  lemma EachGetsAnEqualShare(s: State, events: seq<Event>, rule: Rule, draw: Draw, u: UserId)
    requires Valid(s) && ById(s.rules, rule.id) == Some(rule) && rule.strategy == RoundRobin
    requires u in EligibleUsers(rule.candidates)
    ensures FairShare(Occurrences(Named(s, events, rule.id, draw), u), |Named(s, events, rule.id, draw)|,
                      |EligibleUsers(rule.candidates)|)
    ensures CursorMoved(s, Run(s, events, draw), rule.id, |Named(s, events, rule.id, draw)|)
  {
    DecisionsGoRound(s, events, rule.id, draw);
    DecisionsMoveTheCursor(s, events, rule.id, draw);
    EqualShareOfRule(s, Named(s, events, rule.id, draw), rule, u);
  }

  /** The decision selects what the simulation answered, or both refuse. */
  predicate Foretells(simulated: Result<Selection, Refusal>, decided: Result<(State, Decision), Refusal>) {
    (simulated.Ok? <==> decided.Ok?) && (simulated.Ok? ==> decided.value.1.selection == simulated.value)
  }

  /**
   A simulation with offset n names the user that a new assignment gets after n more decisions
   on the rule.
   */
  lemma SimulationForetells(s: State, events: seq<Event>, s': State, n: nat, rule: Rule, c: Context, later: Context,
                            draw: Draw)
    requires Valid(s) && RuleFor(s.rules, c) == Ok(rule) && rule.strategy == RoundRobin
    requires s' == Run(s, events, draw) && n == |Named(s, events, rule.id, draw)|
    requires later.source == c.source && later.campaign == c.campaign && later.leadId != "" && later.eventKey != ""
    requires later.eventKey !in s'.decisions
    ensures Foretells(SimulateState(s, true, c, n, draw), AssignState(s', true, later, draw))
  {
    RuleAfterRun(s, events, s', n, rule, c, draw);
    SameContextSameRule(s'.rules, c, later);
    Foretold(s, s', c, later, rule, n, draw);
  }

  lemma Foretold(s: State, s': State, c: Context, later: Context, rule: Rule, j: nat, draw: Draw)
    requires RuleFor(s.rules, c) == Ok(rule) && rule.strategy == RoundRobin
    requires RuleFor(s'.rules, later) == Ok(rule.(cursor := rule.cursor + j)) && later.eventKey !in s'.decisions
    ensures Foretells(SimulateState(s, true, c, j, draw), AssignState(s', true, later, draw))
  {
    OffsetIsLater(rule, j, c.eventKey, later.eventKey, draw);
    SimulationSelects(s, c, j, draw);
    AssignmentSelects(s', later, draw);
  }

  lemma SimulationSelects(s: State, c: Context, offset: nat, draw: Draw)
    requires RuleFor(s.rules, c).Ok?
    ensures SimulateState(s, true, c, offset, draw)
        == SelectCandidate(RuleFor(s.rules, c).value, c.eventKey, offset, draw)
  {
  }

  lemma AssignmentSelects(s: State, c: Context, draw: Draw)
    requires RuleFor(s.rules, c).Ok? && c.eventKey !in s.decisions
    ensures var selection, decided := SelectCandidate(RuleFor(s.rules, c).value, c.eventKey, 0, draw),
        AssignState(s, true, c, draw);
      && (decided.Ok? <==> selection.Ok?) && (decided.Ok? ==> decided.value.1.selection == selection.value)
  {
  }

  /** The same rule applies after any events, with its cursor moved by the decisions on it. */
  lemma RuleAfterRun(s: State, events: seq<Event>, s': State, n: nat, rule: Rule, c: Context, draw: Draw)
    requires Valid(s) && RuleFor(s.rules, c) == Ok(rule) && rule.strategy == RoundRobin
    requires s' == Run(s, events, draw) && n == |Named(s, events, rule.id, draw)|
    ensures RuleFor(s'.rules, c) == Ok(rule.(cursor := rule.cursor + n))
  {
    RuleOfMember(s, c, rule);
    DecisionsMoveTheCursor(s, events, rule.id, draw);
    RuleAfterMove(s, s', c, rule, n);
  }

  lemma RuleOfMember(s: State, c: Context, rule: Rule)
    requires Valid(s) && RuleFor(s.rules, c) == Ok(rule)
    ensures ById(s.rules, rule.id) == Some(rule)
  {
    RuleForIsMember(s.rules, c);
    ByIdOfMember(s.rules, rule);
  }

  lemma RuleAfterMove(s: State, s': State, c: Context, rule: Rule, n: nat)
    requires Valid(s) && RuleFor(s.rules, c) == Ok(rule) && CursorMoved(s, s', rule.id, n)
    ensures RuleFor(s'.rules, c) == Ok(rule.(cursor := rule.cursor + n))
  {
    RuleForIsMember(s.rules, c);
    ByIdOfMember(s.rules, rule);
    RuleForIgnoresCursors(s'.rules, s.rules, c);
    RuleForIsMember(s'.rules, c);
    ByIdOfMember(s'.rules, RuleFor(s'.rules, c).value);
  }

  lemma OffsetIsLater(rule: Rule, j: nat, eventKey: string, later: string, draw: Draw)
    requires rule.strategy == RoundRobin
    ensures SelectCandidate(rule.(cursor := rule.cursor + j), later, 0, draw)
        == SelectCandidate(rule, eventKey, j, draw)
  {
  }

  lemma {:induction false} MatchingSame(rules: seq<Rule>, p: Rule -> bool, q: Rule -> bool)
    requires forall r :: p(r) == q(r)
    ensures Matching(rules, p) == Matching(rules, q)
    decreases |rules|
  {
    if rules != [] {
      MatchingSame(rules[1..], p, q);
    }
  }

  lemma SameContextSameRule(rules: seq<Rule>, c: Context, later: Context)
    requires later.source == c.source && later.campaign == c.campaign && later.leadId != "" && later.eventKey != ""
    requires RuleFor(rules, c) != Refused(ContextInvalid)
    ensures RuleFor(rules, later) == RuleFor(rules, c)
  {
    MatchingSame(rules, r => Specific(r, later), r => Specific(r, c));
  }

  /** What can happen to the service, configurations included. */
  datatype Change = Happens(event: Event) | Configures(manager: bool, inputs: seq<RuleInput>, generated: seq<string>)

  function Changed(s: State, change: Change, draw: Draw): State {
    match change
    case Happens(e) => Next(s, e, draw)
    case Configures(manager, inputs, generated) =>
      if |generated| != |inputs| then s
      else match ConfigureState(s, manager, inputs, generated) case Ok(s') => s' case Refused(_) => s
  }

  function ChangedBy(s: State, changes: seq<Change>, draw: Draw): State
    decreases |changes|
  {
    if changes == [] then s else ChangedBy(Changed(s, changes[0], draw), changes[1..], draw)
  }

  lemma {:induction false} DecisionsStay(s: State, changes: seq<Change>, key: string, draw: Draw)
    requires key in s.decisions
    ensures key in ChangedBy(s, changes, draw).decisions
    ensures ChangedBy(s, changes, draw).decisions[key] == s.decisions[key]
    decreases |changes|
  {
    if changes != [] {
      DecisionsStay(Changed(s, changes[0], draw), changes[1..], key, draw);
    }
  }

  /** The first decision for an event key is the decision for it ever after, whatever is configured or assigned. */
  lemma ReplayKeepsTheDecision(s: State, allowed: bool, c: Context, draw: Draw, changes: seq<Change>, later: Context)
    requires AssignState(s, allowed, c, draw).Ok? && later.eventKey == c.eventKey
    ensures var (s1, decision) := AssignState(s, allowed, c, draw).value;
      var s2 := ChangedBy(s1, changes, draw);
      AssignState(s2, true, later, draw) == Ok((s2, decision))
  {
    DecisionsStay(AssignState(s, allowed, c, draw).value.0, changes, c.eventKey, draw);
  }

  lemma DecisionKeepsRules(rules: seq<Rule>, rule: Rule)
    requires WellConfigured(rules) && ScopesUnique(rules) && rule in rules
    ensures WellConfigured(AfterDecision(rules, rule)) && ScopesUnique(AfterDecision(rules, rule))
  {
    ByIdOfMember(rules, rule);
    PutKeepsWellConfigured(rules, rule.(cursor := rule.cursor + 1));
    CursorKeepsScopes(rules, rule);
  }

  lemma SelectMoves(rules: seq<Rule>, c: Context, mutateCursor: bool, offset: nat, draw: Draw, rule: Rule)
    requires RuleFor(rules, c) == Ok(rule) && Select(rules, c, mutateCursor, offset, draw).Ok?
    ensures Select(rules, c, mutateCursor, offset, draw).value.1 == if mutateCursor then AfterDecision(rules, rule)
        else rules
  {
  }

  lemma SelectKeepsRules(rules: seq<Rule>, c: Context, mutateCursor: bool, offset: nat, draw: Draw)
    requires WellConfigured(rules) && ScopesUnique(rules) && Select(rules, c, mutateCursor, offset, draw).Ok?
    ensures WellConfigured(Select(rules, c, mutateCursor, offset, draw).value.1)
    ensures ScopesUnique(Select(rules, c, mutateCursor, offset, draw).value.1)
  {
    var rule := RuleFor(rules, c).value;
    RuleForIsMember(rules, c);
    SelectMoves(rules, c, mutateCursor, offset, draw, rule);
    DecisionKeepsRules(rules, rule);
  }

  // ---------------------------------------------------------------- which rule, which user

  /** Lead and event are named, and so are, after trimming, the source and the campaign. */
  predicate Complete(c: Context) {
    c.leadId != "" && c.eventKey != "" && Trim(c.source) != "" && Trim(c.campaign) != ""
  }

  /** The rule is enabled for the source or the campaign of the context. */
  predicate Fits(r: Rule, c: Context) {
    && r.enabled
    && match r.scope
       case Source => r.matchValue == Trim(c.source)
       case Campaign => r.matchValue == Trim(c.campaign)
       case Global => false
  }

  /** No two rules are for the same source, campaign or everything else, which has no value of its own. */
  predicate ScopesUnique(rules: seq<Rule>) {
    && (forall a, b :: a in rules && b in rules && SameScope(a, b) ==> a == b)
    && (forall r :: r in rules && r.scope == Global ==> r.matchValue == "")
  }

  lemma {:induction false} NormalizedScopes(inputs: seq<RuleInput>, generated: seq<string>)
    requires |generated| == |inputs| && NormalizeAll(inputs, generated).Ok?
    ensures forall r :: r in NormalizeAll(inputs, generated).value ==> (r.scope == Global <==> r.matchValue == "")
    decreases |inputs|
  {
    if inputs != [] {
      NormalizedScopes(inputs[1..], generated[1..]);
    }
  }

  lemma DistinctScopes(rules: seq<Rule>)
    requires forall i, j :: 0 <= i < j < |rules| ==> !SameScope(rules[i], rules[j])
    requires forall r :: r in rules && r.scope == Global ==> r.matchValue == ""
    ensures ScopesUnique(rules)
  {
    forall a, b | a in rules && b in rules && SameScope(a, b) ensures a == b {
      var i :| 0 <= i < |rules| && rules[i] == a;
      var j :| 0 <= j < |rules| && rules[j] == b;
      assert SameScope(rules[i], rules[j]) && SameScope(rules[j], rules[i]);
    }
  }

  lemma SnapshotScopes(inputs: seq<RuleInput>, generated: seq<string>)
    requires |generated| == |inputs| && Snapshot(inputs, generated).Ok?
    ensures ScopesUnique(Snapshot(inputs, generated).value)
    ensures forall r :: r in Snapshot(inputs, generated).value ==> WellFormed(r)
  {
    NormalizedScopes(inputs, generated);
    NormalizedRules(inputs, generated);
    DistinctScopes(Snapshot(inputs, generated).value);
  }

  lemma ConfiguredScopesAreUnique(s: State, manager: bool, inputs: seq<RuleInput>, generated: seq<string>)
    requires |generated| == |inputs| && ConfigureState(s, manager, inputs, generated).Ok?
    ensures ScopesUnique(ConfigureState(s, manager, inputs, generated).value.rules)
  {
    SnapshotScopes(inputs, generated);
    PutAllIsWellConfigured([], Snapshot(inputs, generated).value);
  }

  lemma {:induction false} PutReplaces(rules: seq<Rule>, rule: Rule)
    requires WellConfigured(rules)
    ensures forall r :: r in Put(rules, rule) ==> r == rule || (r in rules && r.id != rule.id)
    decreases |rules|
  {
    if rules != [] {
      if rules[0].id != rule.id {
        PutReplaces(rules[1..], rule);
      } else {
        forall r | r in rules[1..] ensures r.id != rule.id {
          ByIdOfMember(rules[1..], r);
        }
      }
    }
  }

  lemma CursorKeepsScopes(rules: seq<Rule>, rule: Rule)
    requires WellConfigured(rules) && ScopesUnique(rules) && rule in rules
    ensures ScopesUnique(Put(rules, rule.(cursor := rule.cursor + 1)))
  {
    var moved := rule.(cursor := rule.cursor + 1);
    PutReplaces(rules, moved);
    forall a, b | a in Put(rules, moved) && b in Put(rules, moved) && SameScope(a, b) ensures a == b {
      var a', b' := if a == moved then rule else a, if b == moved then rule else b;
      assert a' in rules && b' in rules && SameScope(a', b');
    }
  }

  /** The rule fits the context and no other does; or none fits, and it is the one for everything else. */
  ghost predicate Governs(rules: seq<Rule>, c: Context, r: Rule) {
    && r in rules && !r.balanceNewEntrants
    && if Fits(r, c) then forall q :: q in rules && Fits(q, c) ==> q == r
       else
         && r.enabled && r.scope == Global && (forall q :: q in rules ==> !Fits(q, c))
         && forall q :: q in rules && q.enabled && q.scope == Global ==> q == r
  }

  /** Two rules fit: one for the source, one for the campaign. */
  ghost predicate Ambiguous(rules: seq<Rule>, c: Context) {
    Complete(c) && exists a, b :: a in rules && b in rules && Fits(a, c) && Fits(b, c) && a != b
  }

  lemma {:induction false} MatchingCount(rules: seq<Rule>, p: Rule -> bool)
    requires WellConfigured(rules)
    ensures |Matching(rules, p)| <= 1 <==> forall a, b :: a in rules && b in rules && p(a) && p(b) ==> a == b
    decreases |rules|
  {
    if rules != [] {
      var rest := rules[1..];
      assert rules == [rules[0]] + rest;
      MatchingCount(rest, p);
      MatchingIsFilter(rest, p);
      FirstIsNotInTheRest(rules);
      if Matching(rest, p) != [] {
        var other := Matching(rest, p)[0];
        assert other in Matching(rest, p);
      }
    }
  }

  lemma FirstIsNotInTheRest(rules: seq<Rule>)
    requires WellConfigured(rules) && rules != []
    ensures rules[0] !in rules[1..]
  {
    if rules[0] in rules[1..] {
      ByIdOfMember(rules[1..], rules[0]);
    }
  }

  lemma SpecificIsFitting(rules: seq<Rule>, c: Context)
    requires WellConfigured(rules)
    ensures forall r :: r in SpecificRules(rules, c) <==> r in rules && Fits(r, c)
    ensures |SpecificRules(rules, c)| <= 1 <==> forall a, b :: a in rules && b in rules && Fits(a, c) && Fits(b, c) ==>
        a == b
  {
    assert forall r :: Specific(r, c) <==> Fits(r, c);
    MatchingIsFilter(rules, r => Specific(r, c));
    MatchingCount(rules, r => Specific(r, c));
  }

  /**
   A complete context is answered by the one rule that fits it, by the global one if none fits, and
   refused as ambiguous if two fit.
   */
  lemma RuleContract(rules: seq<Rule>, c: Context)
    requires WellConfigured(rules) && ScopesUnique(rules)
    ensures RuleFor(rules, c).Ok? ==> Complete(c) && Governs(rules, c, RuleFor(rules, c).value)
    ensures RuleFor(rules, c) == Refused(RuleAmbiguous) <==> Ambiguous(rules, c)
    ensures Complete(c) && (exists r :: Governs(rules, c, r)) ==> RuleFor(rules, c).Ok?
  {
    SpecificIsFitting(rules, c);
    MatchingIsFilter(rules, r => IsGlobal(r));
    var specific, general := SpecificRules(rules, c), GlobalRules(rules);
    assert specific != [] ==> specific[0] in specific;
    assert general != [] ==> general[0] in general;
    assert forall q :: q in rules && q.enabled && q.scope == Global ==> q in general;
    assert forall q :: q in rules && Fits(q, c) ==> q in specific;
    GlobalIsOne(rules);
    if r :| Governs(rules, c, r) {
      assert Fits(r, c) ==> r in specific && |specific| == 1;
      assert !Fits(r, c) ==> r in general;
    }
  }

  lemma GlobalIsOne(rules: seq<Rule>)
    requires ScopesUnique(rules)
    ensures forall a, b :: a in rules && b in rules && a.scope == Global && b.scope == Global ==> a == b
  {
    forall a, b | a in rules && b in rules && a.scope == Global && b.scope == Global ensures a == b {
      assert SameScope(a, b);
    }
  }

  /** The candidate takes leads, and has room for one more. */
  predicate HasRoom(c: Candidate) {
    c.active && !c.suspended && !c.excluded && c.activeLeadCount < c.capacity
  }

  /** Some candidate with room has this identifier. */
  predicate RoomFor(cs: seq<Candidate>, u: UserId) { exists c :: c in cs && HasRoom(c) && c.userId == u }

  lemma RankingHasRoom(cs: seq<Candidate>)
    ensures Ordered(Ranking(cs)) && forall u :: u in Ranking(cs) <==> RoomFor(cs, u)
    ensures Ranking(cs) == [] <==> forall c :: c in cs ==> !HasRoom(c)
  {
    RankingIsEligible(cs);
    forall u ensures u in EligibleUsers(cs) <==> RoomFor(cs, u) {
      if RoomFor(cs, u) {
        var c :| c in cs && HasRoom(c) && c.userId == u;
        assert Eligible(c);
      }
      if u in EligibleUsers(cs) {
        var c :| c in cs && Eligible(c) && c.userId == u;
        assert HasRoom(c);
      }
    }
    if Ranking(cs) != [] {
      assert Ranking(cs)[0] in Ranking(cs);
    }
    if c :| c in cs && HasRoom(c) {
      assert RoomFor(cs, c.userId);
    }
  }

  /**
   The answer names the rule and its strategy, all its candidates with room in increasing order, and
   one of these: the one at the cursor, or at the offset from it, round and round, or the drawn one.
   */
  lemma SelectionContract(rule: Rule, eventKey: string, offset: nat, draw: Draw)
    ensures SelectCandidate(rule, eventKey, offset, draw).Ok? <==> exists c :: c in rule.candidates && HasRoom(c)
    ensures SelectCandidate(rule, eventKey, offset, draw).Ok? ==>
      var a := SelectCandidate(rule, eventKey, offset, draw).value;
      && a.ruleId == rule.id && a.strategy == rule.strategy && Ordered(a.candidateIds) && a.candidateIds != []
      && (forall u :: u in a.candidateIds <==> RoomFor(rule.candidates, u))
      && a.selectedUserId == a.candidateIds[
           (if rule.strategy == RoundRobin then rule.cursor + offset else draw(rule.id, eventKey)) % |a.candidateIds|]
  {
    RankingHasRoom(rule.candidates);
  }

  /** The answer is of the rule that governs the context, and names a candidate of it with room. */
  ghost predicate Answers(rules: seq<Rule>, c: Context, a: Selection) {
    exists rule :: Governs(rules, c, rule) && a.ruleId == rule.id && a.strategy == rule.strategy
                   && RoomFor(rule.candidates, a.selectedUserId)
  }

  lemma SelectAnswers(rules: seq<Rule>, c: Context, mutateCursor: bool, offset: nat, draw: Draw)
    requires WellConfigured(rules) && ScopesUnique(rules) && Select(rules, c, mutateCursor, offset, draw).Ok?
    ensures Answers(rules, c, Select(rules, c, mutateCursor, offset, draw).value.0)
  {
    var rule := RuleFor(rules, c).value;
    RuleContract(rules, c);
    SelectionContract(rule, c.eventKey, offset, draw);
    var a := SelectCandidate(rule, c.eventKey, offset, draw).value;
    assert a.selectedUserId in a.candidateIds;
    assert RoomFor(rule.candidates, a.selectedUserId);
  }

  /**
   Whoever is allowed gets the decision of an event key again, or a new one of the lead for it, by
   the rule that governs the context; only a round-robin rule moves, by one.
   */
  lemma AssignmentContract(s: State, allowed: bool, c: Context, draw: Draw)
    requires WellConfigured(s.rules) && ScopesUnique(s.rules)
    ensures !allowed ==> AssignState(s, allowed, c, draw) == Refused(RoleForbidden)
    ensures allowed && c.eventKey in s.decisions ==>
        AssignState(s, allowed, c, draw) == Ok((s, s.decisions[c.eventKey]))
    ensures allowed && c.eventKey !in s.decisions && AssignState(s, allowed, c, draw).Ok? ==>
      var (s', d) := AssignState(s, allowed, c, draw).value;
      && d.eventKey == c.eventKey && d.leadId == c.leadId && Answers(s.rules, c, d.selection)
      && s'.decisions == s.decisions[c.eventKey := d]
      && exists rule :: Governs(s.rules, c, rule) && s'.rules == AfterDecision(s.rules, rule)
  {
    if allowed && c.eventKey !in s.decisions && AssignState(s, allowed, c, draw).Ok? {
      var rule := DecisionHasARule(s, c, draw);
      NewDecision(s, c, rule, draw);
      RuleContract(s.rules, c);
      SelectAnswers(s.rules, c, true, 0, draw);
    }
  }

  // ---------------------------------------------------------------- configurations

  /** The input may become a rule: a value exactly if it is not global, and candidates, all in bounds and different. */
  predicate Configurable(x: RuleInput) {
    && (x.balanceNewEntrants ==> x.strategy == ControlledRandom)
    && (x.scope == Global <==> Value(x) == "")
    && x.candidates != []
    && (forall c :: c in x.candidates ==> c.userId >= 0 && c.capacity >= 1 && c.activeLeadCount >= 0)
    && (forall i, j :: 0 <= i < j < |x.candidates| ==> x.candidates[i].userId != x.candidates[j].userId)
  }

  function Value(x: RuleInput): string { if x.matchValue.Some? then Trim(x.matchValue.value) else "" }

  /** The rule an input becomes, with its own identifier if that is well-formed. */
  predicate Becomes(x: RuleInput, generated: string, r: Rule) {
    && r == Rule(r.id, x.scope, Value(x), x.strategy, x.balanceNewEntrants, x.enabled, x.candidates, 1, 0)
    && r.id == if x.id.Some? && 2 <= |x.id.value| <= 64 && (forall i :: 0 <= i < |x.id.value| ==> Plain(x.id.value[i]))
               then x.id.value else generated
  }

  predicate Plain(c: char) {
    'a' <= c <= 'z' || 'A' <= c <= 'Z' || '0' <= c <= '9' || c in {'_', '-'}
  }

  lemma NormalizeContract(x: RuleInput, generated: string)
    ensures Normalize(x, generated).Ok? <==> Configurable(x)
    ensures Normalize(x, generated).Ok? ==> Becomes(x, generated, Normalize(x, generated).value)
  {
    if x.id.Some? {
      assert Identifier(x.id.value) <==>
        2 <= |x.id.value| <= 64 && (forall i :: 0 <= i < |x.id.value| ==> Plain(x.id.value[i])) by {
        assert forall c: char :: IdentifierChar(c) <==> Plain(c);
      }
    }
    assert Unique(x.candidates) <==>
      forall i, j :: 0 <= i < j < |x.candidates| ==> x.candidates[i].userId != x.candidates[j].userId;
    assert (exists c :: c in x.candidates && Malformed(c)) <==>
      !(forall c :: c in x.candidates ==> c.userId >= 0 && c.capacity >= 1 && c.activeLeadCount >= 0);
  }

  lemma {:induction false} NormalizeAllContract(inputs: seq<RuleInput>, generated: seq<string>)
    requires |generated| == |inputs|
    ensures NormalizeAll(inputs, generated).Ok? <==> forall i :: 0 <= i < |inputs| ==> Configurable(inputs[i])
    ensures NormalizeAll(inputs, generated).Ok? ==>
      var rules := NormalizeAll(inputs, generated).value;
      |rules| == |inputs| && forall i :: 0 <= i < |inputs| ==> Becomes(inputs[i], generated[i], rules[i])
    decreases |inputs|
  {
    if inputs != [] {
      NormalizeContract(inputs[0], generated[0]);
      NormalizeAllContract(inputs[1..], generated[1..]);
      assert forall i :: 1 <= i < |inputs| ==> inputs[i] == inputs[1..][i - 1] && generated[i] == generated[1..][i - 1];
    }
  }

  /** Which inputs are enabled for everything. */
  function Catching(inputs: seq<RuleInput>): set<nat> {
    set i: nat | i < |inputs| && inputs[i].scope == Global && inputs[i].enabled
  }

  lemma GlobalSnoc(rules: seq<Rule>, r: Rule)
    ensures GlobalRules(rules + [r]) == GlobalRules(rules) + if IsGlobal(r) then [r] else []
  {
    MatchingSnoc(rules, r, x => IsGlobal(x));
  }

  lemma CatchingSnoc(inputs: seq<RuleInput>, x: RuleInput)
    ensures |Catching(inputs + [x])| == |Catching(inputs)| + if x.scope == Global && x.enabled then 1 else 0
  {
    var all := inputs + [x];
    assert Catching(all) == Catching(inputs) + if x.scope == Global && x.enabled then {|inputs|} else {};
  }

  lemma {:induction false} CatchingCount(inputs: seq<RuleInput>, rules: seq<Rule>)
    requires |rules| == |inputs|
    requires forall i :: 0 <= i < |inputs| ==>
        rules[i].scope == inputs[i].scope && rules[i].enabled == inputs[i].enabled
    ensures |GlobalRules(rules)| == |Catching(inputs)|
    decreases |inputs|
  {
    if inputs == [] {
      assert Catching(inputs) == {};
    } else {
      var last := |inputs| - 1;
      CatchingCount(inputs[..last], rules[..last]);
      GlobalSnoc(rules[..last], rules[last]);
      CatchingSnoc(inputs[..last], inputs[last]);
      assert rules[..last] + [rules[last]] == rules && inputs[..last] + [inputs[last]] == inputs;
    }
  }

  lemma {:induction false} MatchingSnoc(rules: seq<Rule>, r: Rule, p: Rule -> bool)
    ensures Matching(rules + [r], p) == Matching(rules, p) + if p(r) then [r] else []
    decreases |rules|
  {
    var all := rules + [r];
    if rules == [] {
      assert all == [r] && all[1..] == [];
    } else {
      var rest := rules[1..];
      MatchingSnoc(rest, r, p);
      assert all[0] == rules[0] && all[1..] == rest + [r];
      var first := if p(rules[0]) then [rules[0]] else [];
      assert first + (Matching(rest, p) + if p(r) then [r] else []) == (first + Matching(rest, p)) + if p(r) then [r]
          else [];
    }
  }

  lemma {:induction false} PutKeepsOthers(rules: seq<Rule>, rule: Rule)
    ensures rule in Put(rules, rule) && forall r :: r in rules && r.id != rule.id ==> r in Put(rules, rule)
    decreases |rules|
  {
    if rules != [] && rules[0].id != rule.id {
      PutKeepsOthers(rules[1..], rule);
    }
  }

  lemma {:induction false} PutAllKeepsOthers(rules: seq<Rule>, more: seq<Rule>, r: Rule)
    requires r in rules && forall q :: q in more ==> q.id != r.id
    ensures r in PutAll(rules, more)
    decreases |more|
  {
    if more != [] {
      assert more[0] in more && forall q :: q in more[1..] ==> q in more;
      PutKeepsOthers(rules, more[0]);
      PutAllKeepsOthers(Put(rules, more[0]), more[1..], r);
    }
  }

  /** The i-th rule is put last of its id. */
  predicate LastOfItsId(rules: seq<Rule>, i: nat)
    requires i < |rules|
  {
    forall j :: i < j < |rules| ==> rules[j].id != rules[i].id
  }

  lemma {:induction false} PutAllEndsWith(rules: seq<Rule>, more: seq<Rule>, i: nat)
    requires i < |more| && LastOfItsId(more, i)
    ensures more[i] in PutAll(rules, more)
    decreases |more|
  {
    var rest := more[1..];
    assert forall j :: 0 <= j < |rest| ==> rest[j] == more[j + 1];
    if i == 0 {
      PutKeepsOthers(rules, more[0]);
      PutAllKeepsOthers(Put(rules, more[0]), rest, more[0]);
    } else {
      PutAllEndsWith(Put(rules, more[0]), rest, i - 1);
    }
  }

  /** No two inputs are for the same source, campaign or everything else. */
  predicate DifferentScopes(inputs: seq<RuleInput>) {
    forall i, j :: 0 <= i < j < |inputs| ==> inputs[i].scope != inputs[j].scope || Value(inputs[i]) != Value(inputs[j])
  }

  lemma SnapshotContract(inputs: seq<RuleInput>, generated: seq<string>)
    requires |generated| == |inputs|
    ensures Snapshot(inputs, generated).Ok? <==>
      (forall i :: 0 <= i < |inputs| ==> Configurable(inputs[i])) && DifferentScopes(inputs) && |Catching(inputs)| == 1
    ensures Snapshot(inputs, generated).Ok? ==>
      var rules := Snapshot(inputs, generated).value;
      |rules| == |inputs| && forall i :: 0 <= i < |inputs| ==> Becomes(inputs[i], generated[i], rules[i])
  {
    NormalizeAllContract(inputs, generated);
    if NormalizeAll(inputs, generated).Ok? {
      var rules := NormalizeAll(inputs, generated).value;
      CatchingCount(inputs, rules);
      assert DifferentScopes(inputs) <==> !(exists i, j :: 0 <= i < j < |rules| && SameScope(rules[i], rules[j]));
    }
  }

  /** A manager configures exactly such inputs, no two for the same thing and one enabled for everything. */
  lemma ConfigurationContract(s: State, manager: bool, inputs: seq<RuleInput>, generated: seq<string>)
    requires |generated| == |inputs|
    ensures ConfigureState(s, manager, inputs, generated).Ok? <==>
      && manager && (forall i :: 0 <= i < |inputs| ==> Configurable(inputs[i]))
      && DifferentScopes(inputs) && |Catching(inputs)| == 1
  {
    SnapshotContract(inputs, generated);
    assert inputs == [] ==> Catching(inputs) == {};
  }

  /** The rules are then those of the inputs, a later one in place of the earlier ones of its identifier. */
  lemma ConfiguredRules(s: State, manager: bool, inputs: seq<RuleInput>, generated: seq<string>)
    requires |generated| == |inputs| && ConfigureState(s, manager, inputs, generated).Ok?
    ensures var rules, normal := ConfigureState(s, manager, inputs, generated).value.rules,
        Snapshot(inputs, generated).value;
      && |normal| == |inputs| && (forall i :: 0 <= i < |inputs| ==> Becomes(inputs[i], generated[i], normal[i]))
      && (forall r :: r in rules ==> r in normal)
      && (forall i :: 0 <= i < |normal| && LastOfItsId(normal, i) ==> normal[i] in rules)
  {
    SnapshotContract(inputs, generated);
    SnapshotScopes(inputs, generated);
    var normal := Snapshot(inputs, generated).value;
    PutAllIsWellConfigured([], normal);
    forall i | 0 <= i < |normal| && LastOfItsId(normal, i) ensures normal[i] in PutAll([], normal) {
      PutAllEndsWith([], normal, i);
    }
  }

  // ---------------------------------------------------------------- the service

  class Service {
    const draw: Draw
    var rules: seq<Rule>
    var decisions: map<string, Decision>

    function View(): State
      reads this
    {
      State(rules, decisions)
    }

    /** The rules have distinct ids and candidates, and each decision is stored under its event key. */
    ghost predicate Valid()
      reads this
    {
      WellConfigured(rules) && ScopesUnique(rules) && forall k :: k in decisions ==> decisions[k].eventKey == k
    }

    constructor (draw: Draw)
      ensures Valid() && View() == State([], map[]) && this.draw == draw
    {
      this.draw := draw;
      rules, decisions := [], map[];
    }

    method Configure(manager: bool, inputs: seq<RuleInput>, generated: seq<string>) returns (r: Result<(), Refusal>)
      requires Valid() && |generated| == |inputs|
      modifies this`rules
      ensures Valid() && (r.Ok? ==> forall rule :: rule in rules ==> rule.cursor == 0)
      ensures match ConfigureState(old(View()), manager, inputs, generated)
        case Ok(s) => r == Ok(()) && View() == s
        case Refused(e) => r == Refused(e) && View() == old(View())
    {
      if !manager {
        return Refused(ManagerRequired);
      }
      if inputs == [] {
        return Refused(RulesEmpty);
      }
      var normalized := Snapshot(inputs, generated);
      if normalized.Refused? {
        return Refused(normalized.error);
      }
      ConfigureIsValid(View(), manager, inputs, generated);
      ConfiguredScopesAreUnique(View(), manager, inputs, generated);
      rules := [];
      for i := 0 to |normalized.value|
        invariant PutAll(rules, normalized.value[i..]) == PutAll([], normalized.value)
      {
        assert normalized.value[i..][1..] == normalized.value[i + 1..];
        rules := Put(rules, normalized.value[i]);
      }
      return Ok(());
    }

    method SelectRule(c: Context, mutateCursor: bool, offset: nat) returns (r: Result<Selection, Refusal>)
      requires Valid()
      modifies this`rules
      ensures Valid()
      ensures r.Ok? ==> Answers(old(rules), c, r.value)
      ensures old(Ambiguous(rules, c)) ==> r == Refused(RuleAmbiguous)
      ensures match Select(old(rules), c, mutateCursor, offset, draw)
        case Ok((selection, moved)) => r == Ok(selection) && rules == moved
        case Refused(e) => r == Refused(e) && rules == old(rules)
    {
      RuleContract(rules, c);
      var rule := RuleFor(rules, c);
      if rule.Refused? {
        return Refused(rule.error);
      }
      r := SelectCandidate(rule.value, c.eventKey, offset, draw);
      if r.Ok? {
        SelectKeepsRules(rules, c, mutateCursor, offset, draw);
        SelectAnswers(rules, c, mutateCursor, offset, draw);
      }
      if r.Ok? && mutateCursor && rule.value.strategy == RoundRobin {
        rules := Put(rules, rule.value.(cursor := rule.value.cursor + 1));
      }
    }

    method Simulate(manager: bool, c: Context, offset: int) returns (r: Result<Selection, Refusal>)
      requires Valid()
      modifies this`rules
      ensures r.Ok? ==> Answers(rules, c, r.value)
      ensures manager && offset >= 0 && Ambiguous(rules, c) ==> r == Refused(RuleAmbiguous)
      ensures Valid() && View() == old(View()) && r == SimulateState(View(), manager, c, offset, draw)
    {
      if !manager {
        return Refused(ManagerRequired);
      }
      if offset < 0 {
        return Refused(OffsetInvalid);
      }
      r := SelectRule(c, false, offset);
    }

    method Assign(allowed: bool, c: Context) returns (r: Result<Decision, Refusal>)
      requires Valid()
      modifies this
      ensures Valid() && (r.Ok? ==> c.eventKey in decisions && r.value == decisions[c.eventKey])
      ensures r.Ok? && c.eventKey !in old(decisions) ==> Answers(old(rules), c, r.value.selection)
      ensures r.Ok? && c.eventKey !in old(decisions) ==>
        && r.value.eventKey == c.eventKey && r.value.leadId == c.leadId
        && decisions == old(decisions)[c.eventKey := r.value]
      ensures !allowed ==> r == Refused(RoleForbidden)
      ensures allowed && c.eventKey !in old(decisions) && old(Ambiguous(rules, c)) ==> r == Refused(RuleAmbiguous)
      ensures match AssignState(old(View()), allowed, c, draw)
        case Ok((s, decision)) => r == Ok(decision) && View() == s
        case Refused(e) => r == Refused(e) && View() == old(View())
    {
      if !allowed {
        return Refused(RoleForbidden);
      }
      if c.eventKey in decisions {
        return Ok(decisions[c.eventKey]);
      }
      var selection := SelectRule(c, true, 0);
      if selection.Refused? {
        return Refused(selection.error);
      }
      var decision := Decision(c.eventKey, c.leadId, selection.value);
      decisions := decisions[c.eventKey := decision];
      return Ok(decision);
    }
  }
}
