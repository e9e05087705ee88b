/**
 * The tally of one ballot box (or of an aggregate of ballot boxes): its labels, its four
 * counts and its votes per party, with the derived share map, the combination operator
 * used by every fold, and the three internal consistency checks.
 */
module Voting {
  import opened Parties
  import opened MapSums
  import opened Issues

  datatype VotingData = VotingData(
    settlement: string,
    symbol: string,
    ballotBoxId: string,
    suffrageSize: int,
    totalVotes: int,
    disqualifiedVotes: int,
    validVotes: int,
    votesByParty: map<Party, int>)

  /** The votes for `p` in `votes`, 0 when `p` has no entry (Java's getOrDefault(p, 0)). */
  function VotesFor(votes: map<Party, int>, p: Party): int
  {
    if p in votes then votes[p] else 0
  }

  /**
   * The normalized vote map: each party's share of the sum of all party votes. When that
   * sum is not positive the map is empty, not zero-filled, and nothing is divided.
   */
  ghost function Normalize(votes: map<Party, int>): (shares: map<Party, real>)
    ensures shares.Keys == if SumInt(votes) > 0 then votes.Keys else {}
    ensures forall p :: p in shares ==> shares[p] * SumInt(votes) as real == votes[p] as real
  {
    var total := SumInt(votes);
    if total > 0 then map p | p in votes :: votes[p] as real / total as real else map[]
  }

  /** The normalized vote map of a record. */
  ghost function Normalized(v: VotingData): map<Party, real>
  {
    Normalize(v.votesByParty)
  }

  /**
   * The arithmetic of one step of a scaled sum: when the scaled rest is the rest divided by
   * `d`, the scaled whole is the whole divided by `d`.
   */
  lemma DivideSum(scaledSum: real, x: int, scaledRest: real, rest: int, sum: int, d: real)
    requires d != 0.0 && sum == x + rest
    requires scaledRest == rest as real / d
    requires scaledSum == x as real / d + scaledRest
    ensures scaledSum == sum as real / d
  {
    assert x as real / d + rest as real / d == (x as real + rest as real) / d;
  }

  /** A map holding every count divided by `d` sums to the sum of the counts divided by `d`. */
  lemma {:induction false} SumOfDividedCounts(shares: map<Party, real>, votes: map<Party, int>, d: real)
    requires d != 0.0 && shares.Keys == votes.Keys
    requires forall p :: p in votes ==> shares[p] == votes[p] as real / d
    ensures SumReal(shares) == SumInt(votes) as real / d
    decreases votes.Keys
  {
    if votes == map[] {
      assert shares == map[];
    } else {
      var k :| k in votes;
      SumRealRemove(shares, k);
      SumIntRemove(votes, k);
      assert (shares - {k}).Keys == (votes - {k}).Keys;
      SumOfDividedCounts(shares - {k}, votes - {k}, d);
      DivideSum(SumReal(shares), votes[k], SumReal(shares - {k}), SumInt(votes - {k}), SumInt(votes), d);
    }
  }

  /** When there are party votes at all, the shares add up to exactly 1. */
  lemma NormalizedSharesSumToOne(votes: map<Party, int>)
    requires SumInt(votes) > 0
    ensures SumReal(Normalize(votes)) == 1.0
  {
    var total := SumInt(votes) as real;
    assert total / total == 1.0;
    SumOfDividedCounts(Normalize(votes), votes, total);
  }

  /** With non-negative counts every share lies between 0 and 1. */
  lemma NormalizedShareBounds(votes: map<Party, int>)
    requires forall p :: p in votes ==> votes[p] >= 0
    ensures forall p :: p in Normalize(votes) ==> 0.0 <= Normalize(votes)[p] <= 1.0
  {
    SumIntBoundsEntries(votes);
    var total := SumInt(votes);
    forall p | p in Normalize(votes)
      ensures 0.0 <= Normalize(votes)[p] <= 1.0
    {
      FractionBounds(votes[p], total);
    }
  }

  /** A count between 0 and a positive total is a fraction between 0 and 1 of it. */
  lemma FractionBounds(count: int, total: int)
    requires 0 <= count <= total && total > 0
    ensures 0.0 <= count as real / total as real <= 1.0
  {
    assert count as real / total as real <= total as real / total as real;
  }

  /**
   * A vote map that contains `votes` and has at least its party sum has every share key of
   * `votes` among its own share keys.
   */
  lemma NormalizedKeysCovered(votes: map<Party, int>, total: map<Party, int>)
    requires votes.Keys <= total.Keys
    requires SumInt(votes) <= SumInt(total)
    ensures Normalize(votes).Keys <= Normalize(total).Keys
  {
  }

  /** The sum of the party votes, as the source's stream sum computes it. */
  method SumVotes(votes: map<Party, int>) returns (total: int)
    ensures total == SumInt(votes)
  {
    total := 0;
    var rest := votes;
    while rest != map[]
      invariant total + SumInt(rest) == SumInt(votes)
      decreases rest.Keys
    {
      var p :| p in rest;
      SumIntRemove(rest, p);
      total := total + rest[p];
      rest := rest - {p};
    }
  }

  /** The constructor's normalization loop: one `put` per party when the party sum is positive. */
  method NormalizeVotes(votes: map<Party, int>) returns (shares: map<Party, real>)
    ensures shares == Normalize(votes)
  {
    var total := SumVotes(votes);
    shares := map[];
    if total > 0 {
      var pending := votes.Keys;
      while pending != {}
        invariant pending <= votes.Keys
        invariant shares.Keys == votes.Keys - pending
        invariant forall p :: p in shares ==> shares[p] == votes[p] as real / total as real
        decreases pending
      {
        var p :| p in pending;
        shares := shares[p := votes[p] as real / total as real];
        pending := pending - {p};
      }
    }
  }

  /** The keyed union-sum of two vote maps: a party missing from one map counts as 0 there. */
  function UnionSum(a: map<Party, int>, b: map<Party, int>): map<Party, int>
  {
    map p | p in a.Keys + b.Keys :: VotesFor(a, p) + VotesFor(b, p)
  }

  /**
   * The combination of two tallies: counts and party votes are added, the labels are the
   * left operand's.
   */
  function Combine(v1: VotingData, v2: VotingData): VotingData
  {
    VotingData(v1.settlement, v1.symbol, v1.ballotBoxId,
               v1.suffrageSize + v2.suffrageSize,
               v1.totalVotes + v2.totalVotes,
               v1.disqualifiedVotes + v2.disqualifiedVotes,
               v1.validVotes + v2.validVotes,
               UnionSum(v1.votesByParty, v2.votesByParty))
  }

  /** The loop that adds a record's party votes into an accumulating map, one `put` per party. */
  method AddPartyVotes(v: VotingData, votes: map<Party, int>) returns (updated: map<Party, int>)
    ensures updated == UnionSum(votes, v.votesByParty)
  {
    updated := votes;
    var pending := v.votesByParty.Keys;
    while pending != {}
      invariant pending <= v.votesByParty.Keys
      invariant updated == UnionSum(votes, v.votesByParty - pending)
      decreases pending
    {
      var p :| p in pending;
      updated := updated[p := VotesFor(updated, p) + v.votesByParty[p]];
      pending := pending - {p};
    }
    assert v.votesByParty - {} == v.votesByParty;
  }

  /** The source's `combine`: fills a fresh map from both records, then builds the sum record. */
  method CombineRecords(v1: VotingData, v2: VotingData) returns (combined: VotingData)
    ensures combined == Combine(v1, v2)
  {
    var aggregated := AddPartyVotes(v1, map[]);
    assert aggregated == v1.votesByParty;
    aggregated := AddPartyVotes(v2, aggregated);
    combined := VotingData(v1.settlement, v1.symbol, v1.ballotBoxId,
                           v1.suffrageSize + v2.suffrageSize,
                           v1.totalVotes + v2.totalVotes,
                           v1.disqualifiedVotes + v2.disqualifiedVotes,
                           v1.validVotes + v2.validVotes,
                           aggregated);
  }

  /** The votes for any party in a union-sum are the votes in both operands added. */
  lemma UnionSumVotes(a: map<Party, int>, b: map<Party, int>, p: Party)
    ensures VotesFor(UnionSum(a, b), p) == VotesFor(a, p) + VotesFor(b, p)
  {
  }

  /** Union-sum is associative. */
  lemma UnionSumAssociative(a: map<Party, int>, b: map<Party, int>, c: map<Party, int>)
    ensures UnionSum(UnionSum(a, b), c) == UnionSum(a, UnionSum(b, c))
  {
    var left := UnionSum(UnionSum(a, b), c);
    var right := UnionSum(a, UnionSum(b, c));
    assert left.Keys == right.Keys;
    forall p | p in left
      ensures left[p] == right[p]
    {
      assert left[p] == VotesFor(a, p) + VotesFor(b, p) + VotesFor(c, p);
    }
  }

  /** A union-sum has a key exactly when an operand has it. */
  lemma UnionSumKeys(a: map<Party, int>, b: map<Party, int>)
    ensures UnionSum(a, b).Keys == a.Keys + b.Keys
  {
  }

  /** Removing a key from both operands removes it from their union-sum. */
  lemma UnionSumRemove(a: map<Party, int>, b: map<Party, int>, k: Party)
    ensures UnionSum(a, b) - {k} == UnionSum(a - {k}, b - {k})
  {
  }

  /** Taking a key of `b` out of a union-sum first. */
  lemma SumIntUnionRemove(a: map<Party, int>, b: map<Party, int>, k: Party)
    requires k in b
    ensures SumInt(UnionSum(a, b)) == VotesFor(a, k) + b[k] + SumInt(UnionSum(a - {k}, b - {k}))
  {
    var u := UnionSum(a, b);
    assert u[k] == VotesFor(a, k) + b[k];
    SumIntRemove(u, k);
    UnionSumRemove(a, b, k);
  }

  /** Taking a key out of a sum first, whether or not it has an entry. */
  lemma SumIntRemoveAny(a: map<Party, int>, k: Party)
    ensures SumInt(a) == VotesFor(a, k) + SumInt(a - {k})
  {
    if k in a {
      SumIntRemove(a, k);
    } else {
      assert a - {k} == a;
    }
  }

  /** The party-vote sum of a union-sum is the sum of the operands' party-vote sums. */
  lemma {:induction false} SumIntUnion(a: map<Party, int>, b: map<Party, int>)
    ensures SumInt(UnionSum(a, b)) == SumInt(a) + SumInt(b)
    decreases b.Keys
  {
    if b == map[] {
      assert UnionSum(a, b) == a;
    } else {
      var k :| k in b;
      SumIntUnionRemove(a, b, k);
      SumIntUnion(a - {k}, b - {k});
      SumIntRemove(b, k);
      SumIntRemoveAny(a, k);
    }
  }

  /** The counts and party votes of a tally, without its labels. */
  datatype Tally = Tally(suffrageSize: int, totalVotes: int, disqualifiedVotes: int,
                         validVotes: int, votesByParty: map<Party, int>)

  function TallyOf(v: VotingData): Tally
  {
    Tally(v.suffrageSize, v.totalVotes, v.disqualifiedVotes, v.validVotes, v.votesByParty)
  }

  /** A zero-count record with an empty vote map, labelled as given: the base of every fold. */
  function Zero(settlement: string, symbol: string, ballotBoxId: string): VotingData
  {
    VotingData(settlement, symbol, ballotBoxId, 0, 0, 0, 0, map[])
  }

  /** Combination is associative, labels included. */
  lemma CombineAssociative(a: VotingData, b: VotingData, c: VotingData)
    ensures Combine(Combine(a, b), c) == Combine(a, Combine(b, c))
  {
    UnionSumAssociative(a.votesByParty, b.votesByParty, c.votesByParty);
  }

  /** Combination commutes in counts and votes; the labels always come from the left operand. */
  lemma CombineCommutesInTally(a: VotingData, b: VotingData)
    ensures TallyOf(Combine(a, b)) == TallyOf(Combine(b, a))
    ensures Combine(a, b).settlement == a.settlement
    ensures Combine(a, b).symbol == a.symbol
    ensures Combine(a, b).ballotBoxId == a.ballotBoxId
  {
    assert UnionSum(a.votesByParty, b.votesByParty) == UnionSum(b.votesByParty, a.votesByParty);
  }

  /** The zero record is a right identity, and a left identity for counts and votes. */
  lemma CombineWithZero(v: VotingData, settlement: string, symbol: string, ballotBoxId: string)
    ensures Combine(v, Zero(settlement, symbol, ballotBoxId)) == v
    ensures TallyOf(Combine(Zero(settlement, symbol, ballotBoxId), v)) == TallyOf(v)
  {
    assert UnionSum(v.votesByParty, map[]) == v.votesByParty;
    assert UnionSum(map[], v.votesByParty) == v.votesByParty;
  }

  /** The consistency the checks below look for: counts that add up. */
  ghost predicate CountsAddUp(v: VotingData)
  {
    && v.totalVotes == v.disqualifiedVotes + v.validVotes
    && SumInt(v.votesByParty) == v.validVotes
  }

  /** Turnout within the suffrage size (boxes without a suffrage size are exempt). */
  predicate WithinSuffrage(v: VotingData)
  {
    v.suffrageSize > 0 ==> v.totalVotes <= v.suffrageSize
  }

  /** Combining records whose counts add up gives a record whose counts add up. */
  lemma CombineKeepsCountsAddingUp(a: VotingData, b: VotingData)
    requires CountsAddUp(a) && CountsAddUp(b)
    ensures CountsAddUp(Combine(a, b))
  {
    SumIntUnion(a.votesByParty, b.votesByParty);
  }

  /**
   * The three consistency checks, in their fixed order: turnout over the suffrage size
   * (only when there is one), total versus disqualified plus valid, party sum versus valid.
   */
  ghost function SimpleIssues(v: VotingData): seq<Issue>
  {
    var partyTotal := SumInt(v.votesByParty);
    (if v.suffrageSize > 0 && v.totalVotes > v.suffrageSize
     then [OverSuffrage(v.suffrageSize, v.totalVotes)] else [])
    + (if v.totalVotes != v.disqualifiedVotes + v.validVotes
       then [TotalMismatch(v.validVotes, v.disqualifiedVotes, v.totalVotes)] else [])
    + (if partyTotal != v.validVotes
       then [PartySumMismatch(partyTotal, v.validVotes)] else [])
  }

  /**
   * Each check contributes its issue exactly when it fails, in rank order, and a record has
   * no simple issue exactly when its turnout is within the suffrage size and its counts add up.
   */
  lemma SimpleIssuesFollowChecks(v: VotingData)
    ensures |SimpleIssues(v)| <= 3
    ensures forall i, j :: 0 <= i < j < |SimpleIssues(v)| ==> Rank(SimpleIssues(v)[i]) < Rank(SimpleIssues(v)[j])
    ensures forall i :: 0 <= i < |SimpleIssues(v)| ==>
      SimpleIssues(v)[i] in [OverSuffrage(v.suffrageSize, v.totalVotes),
                             TotalMismatch(v.validVotes, v.disqualifiedVotes, v.totalVotes),
                             PartySumMismatch(SumInt(v.votesByParty), v.validVotes)]
    ensures OverSuffrage(v.suffrageSize, v.totalVotes) in SimpleIssues(v)
      <==> v.suffrageSize > 0 && v.totalVotes > v.suffrageSize
    ensures TotalMismatch(v.validVotes, v.disqualifiedVotes, v.totalVotes) in SimpleIssues(v)
      <==> v.totalVotes != v.disqualifiedVotes + v.validVotes
    ensures PartySumMismatch(SumInt(v.votesByParty), v.validVotes) in SimpleIssues(v)
      <==> SumInt(v.votesByParty) != v.validVotes
    ensures SimpleIssues(v) == [] <==> WithinSuffrage(v) && CountsAddUp(v)
  {
  }

  /** The source's `getSimpleIssues`: the checks appended to a list one after another. */
  method GetSimpleIssues(v: VotingData) returns (issues: seq<Issue>)
    ensures issues == SimpleIssues(v)
  {
    issues := [];
    if v.suffrageSize > 0 && v.totalVotes > v.suffrageSize {
      issues := issues + [OverSuffrage(v.suffrageSize, v.totalVotes)];
    }
    if v.totalVotes != v.disqualifiedVotes + v.validVotes {
      issues := issues + [TotalMismatch(v.validVotes, v.disqualifiedVotes, v.totalVotes)];
    }
    var partyTotal := SumVotes(v.votesByParty);
    if partyTotal != v.validVotes {
      issues := issues + [PartySumMismatch(partyTotal, v.validVotes)];
    }
  }
}
