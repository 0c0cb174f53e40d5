/** Candidates of an assignment rule: eligibility, and the order every choice starts from. */
module AssignmentCandidates {
  import opened Collections

  /** The order of the numbers stands for the collation order of the identifiers. */
  type UserId = int

  datatype Candidate = Candidate(userId: UserId, active: bool, suspended: bool, excluded: bool, capacity: int,
                                 activeLeadCount: int)

  predicate Eligible(c: Candidate) { c.active && !c.suspended && !c.excluded && c.activeLeadCount < c.capacity }

  function EligibleUsers(cs: seq<Candidate>): set<UserId> {
    set c | c in cs && Eligible(c) :: c.userId
  }

  function Filter(cs: seq<Candidate>): seq<UserId>
    decreases |cs|
  {
    if cs == [] then [] else (if Eligible(cs[0]) then [cs[0].userId] else []) + Filter(cs[1..])
  }

  function Insert(u: UserId, s: seq<UserId>): seq<UserId>
    decreases |s|
  {
    if s == [] || u <= s[0] then [u] + s else [s[0]] + Insert(u, s[1..])
  }

  function Sort(s: seq<UserId>): seq<UserId>
    decreases |s|
  {
    if s == [] then [] else Insert(s[0], Sort(s[1..]))
  }

  /** The eligible users, in order. */
  function Ranking(cs: seq<Candidate>): seq<UserId> { Sort(Filter(cs)) }

  predicate Ordered(s: seq<UserId>) {
    forall i, j :: 0 <= i < j < |s| ==> s[i] <= s[j]
  }

  lemma {:induction false} InsertAdds(u: UserId, s: seq<UserId>)
    ensures multiset(Insert(u, s)) == multiset(s) + multiset{u}
    decreases |s|
  {
    if s != [] && u > s[0] {
      InsertAdds(u, s[1..]);
      assert s == [s[0]] + s[1..];
    }
  }

  lemma OrderedCons(u: UserId, s: seq<UserId>)
    requires Ordered(s) && forall x :: x in s ==> u <= x
    ensures Ordered([u] + s)
  {
    var t := [u] + s;
    forall i, j | 0 <= i < j < |t| ensures t[i] <= t[j] {
      assert t[j] == s[j - 1] && s[j - 1] in s;
      assert i > 0 ==> t[i] == s[i - 1];
    }
  }

  lemma {:induction false} InsertOrders(u: UserId, s: seq<UserId>)
    requires Ordered(s)
    ensures Ordered(Insert(u, s))
    decreases |s|
  {
    if s != [] && u > s[0] {
      var rest := Insert(u, s[1..]);
      InsertOrders(u, s[1..]);
      InsertAdds(u, s[1..]);
      forall x | x in rest ensures s[0] <= x {
        assert x in multiset(rest);
        assert x in multiset(s[1..]) || x == u;
      }
      OrderedCons(s[0], rest);
    } else if s != [] {
      OrderedCons(u, s);
    }
  }

  lemma {:induction false} SortOrders(s: seq<UserId>)
    ensures Ordered(Sort(s)) && multiset(Sort(s)) == multiset(s)
    decreases |s|
  {
    if s != [] {
      SortOrders(s[1..]);
      InsertOrders(s[0], Sort(s[1..]));
      InsertAdds(s[0], Sort(s[1..]));
      assert s == [s[0]] + s[1..];
    }
  }

  lemma {:induction false} FilterIsEligible(cs: seq<Candidate>)
    ensures forall u :: u in Filter(cs) <==> u in EligibleUsers(cs)
    decreases |cs|
  {
    if cs != [] {
      FilterIsEligible(cs[1..]);
      assert cs == [cs[0]] + cs[1..];
    }
  }

  /** The ranking is the eligible users in increasing order. */
  lemma RankingIsEligible(cs: seq<Candidate>)
    ensures Ordered(Ranking(cs)) && multiset(Ranking(cs)) == multiset(Filter(cs))
    ensures forall u :: u in Ranking(cs) <==> u in EligibleUsers(cs)
  {
    SortOrders(Filter(cs));
    FilterIsEligible(cs);
    forall u ensures u in Ranking(cs) <==> u in EligibleUsers(cs) {
      assert u in Ranking(cs) <==> u in multiset(Ranking(cs));
      assert u in Filter(cs) <==> u in multiset(Filter(cs));
    }
  }

  predicate Unique(cs: seq<Candidate>) {
    forall i, j :: 0 <= i < j < |cs| ==> cs[i].userId != cs[j].userId
  }

  predicate Distinct(s: seq<UserId>) {
    forall i, j :: 0 <= i < j < |s| ==> s[i] != s[j]
  }

  lemma DistinctCons(u: UserId, s: seq<UserId>)
    requires Distinct(s) && u !in s
    ensures Distinct([u] + s)
  {
    var t := [u] + s;
    forall i, j | 0 <= i < j < |t| ensures t[i] != t[j] {
      assert t[j] == s[j - 1] && s[j - 1] in s;
      assert i > 0 ==> t[i] == s[i - 1];
    }
  }

  lemma {:induction false} FilterIsDistinct(cs: seq<Candidate>)
    requires Unique(cs)
    ensures Distinct(Filter(cs))
    decreases |cs|
  {
    if cs != [] {
      FilterIsDistinct(cs[1..]);
      FilterIsEligible(cs[1..]);
      forall u | u in Filter(cs[1..]) ensures u != cs[0].userId {
        var c :| c in cs[1..] && c.userId == u;
      }
      DistinctCons(cs[0].userId, Filter(cs[1..]));
      assert Eligible(cs[0]) ==> Filter(cs) == [cs[0].userId] + Filter(cs[1..]);
    }
  }

  lemma {:induction false} SetOfDistinct(s: seq<UserId>)
    requires Distinct(s)
    ensures forall u :: multiset(s)[u] <= 1
    ensures |set u | u in s| == |s|
    decreases |s|
  {
    if s != [] {
      var rest := s[1..];
      SetOfDistinct(rest);
      assert s == [s[0]] + rest && s[0] !in rest;
      SetOfCons(s[0], rest);
      OnceMore(s[0], rest);
    }
  }

  lemma OnceMore(u: UserId, rest: seq<UserId>)
    requires u !in rest && forall v :: multiset(rest)[v] <= 1
    ensures forall v :: multiset([u] + rest)[v] <= 1
  {
    forall v ensures multiset([u] + rest)[v] <= 1 {
      assert multiset([u] + rest) == multiset{u} + multiset(rest);
    }
  }

  lemma OnceIsDistinct(s: seq<UserId>)
    requires forall u :: multiset(s)[u] <= 1
    ensures Distinct(s)
  {
    forall i, j | 0 <= i < j < |s| ensures s[i] != s[j] {
      var first, rest := s[..j], s[j..];
      assert s == first + rest;
      assert first[i] == s[i] && rest[0] == s[j];
      assert multiset(s) == multiset(first) + multiset(rest);
      assert s[i] in multiset(first) && s[j] in multiset(rest);
      assert multiset(s)[s[i]] == multiset(first)[s[i]] + multiset(rest)[s[i]];
    }
  }

  /** Without duplicate candidates, each eligible user has exactly one rank. */
  lemma RankingIsDistinct(cs: seq<Candidate>)
    requires Unique(cs)
    ensures Distinct(Ranking(cs)) && |Ranking(cs)| == |EligibleUsers(cs)|
  {
    FilterIsDistinct(cs);
    SetOfDistinct(Filter(cs));
    RankingIsEligible(cs);
    assert forall u :: multiset(Ranking(cs))[u] <= 1;
    OnceIsDistinct(Ranking(cs));
    SetOfDistinct(Ranking(cs));
    assert (set u | u in Ranking(cs)) == EligibleUsers(cs);
  }
}
