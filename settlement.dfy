/**
 * The settlement outlier score: the sum, over the parties with a share in a ballot box,
 * of the squared difference between the box's share and its settlement's share.
 */
module SettlementScore {
  import opened Parties
  import opened MapSums
  import opened Voting
  import opened Aggregation

  /** Settlements with fewer ballot boxes than this are not scored. */
  const MinGroupSize: nat := 5

  function Square(x: real): real
  {
    x * x
  }

  /** The squared difference of each share of `shares` from the same party's share in `reference`. */
  function SquaredDifferences(shares: map<Party, real>, reference: map<Party, real>): map<Party, real>
    requires shares.Keys <= reference.Keys
  {
    map p | p in shares :: Square(shares[p] - reference[p])
  }

  /** The score: squared differences summed over the keys of `shares` only. */
  ghost function SquareDist(shares: map<Party, real>, reference: map<Party, real>): real
    requires shares.Keys <= reference.Keys
  {
    SumReal(SquaredDifferences(shares, reference))
  }

  /** Any party of `shares` may be summed first. */
  lemma SquareDistRemove(shares: map<Party, real>, reference: map<Party, real>, p: Party)
    requires shares.Keys <= reference.Keys && p in shares
    ensures SquareDist(shares, reference)
         == Square(shares[p] - reference[p]) + SquareDist(shares - {p}, reference)
  {
    SumRealRemove(SquaredDifferences(shares, reference), p);
    assert SquaredDifferences(shares, reference) - {p} == SquaredDifferences(shares - {p}, reference);
  }

  /**
   * The score is a sum of squares: never negative, and zero when the ballot box has the
   * reference share for every party it has a share for.
   */
  lemma SquareDistOfEqualShares(shares: map<Party, real>, reference: map<Party, real>)
    requires shares.Keys <= reference.Keys
    ensures SquareDist(shares, reference) >= 0.0
    ensures (forall p :: p in shares ==> shares[p] == reference[p]) ==> SquareDist(shares, reference) == 0.0
  {
    var terms := SquaredDifferences(shares, reference);
    SumRealNonNegative(terms);
    if forall p :: p in shares ==> shares[p] == reference[p] {
      SumRealZero(terms);
    }
  }

  /** A ballot box without party votes has no shares and scores 0. */
  lemma EmptyBallotScoresZero(ballot: VotingData, settlementTotal: VotingData)
    requires SumInt(ballot.votesByParty) <= 0
    ensures Normalized(ballot).Keys <= Normalized(settlementTotal).Keys
    ensures SquareDist(Normalized(ballot), Normalized(settlementTotal)) == 0.0
  {
    assert SquaredDifferences(Normalized(ballot), Normalized(settlementTotal)) == map[];
  }

  /**
   * The source's `getSumSquareDist(settlementTotal, ballot)`: accumulates the squared share
   * differences over the ballot box's parties. A ballot party without a settlement share
   * would be a null dereference, hence the precondition.
   */
  method GetSumSquareDist(settlementTotal: VotingData, ballot: VotingData) returns (dist: real)
    requires Normalized(ballot).Keys <= Normalized(settlementTotal).Keys
    ensures dist == SquareDist(Normalized(ballot), Normalized(settlementTotal))
  {
    var ballotShares := NormalizeVotes(ballot.votesByParty);
    var settlementShares := NormalizeVotes(settlementTotal.votesByParty);
    dist := 0.0;
    var rest := ballotShares;
    while rest != map[]
      invariant rest.Keys <= ballotShares.Keys
      invariant dist + SquareDist(rest, settlementShares) == SquareDist(ballotShares, settlementShares)
      decreases rest.Keys
    {
      var p :| p in rest;
      SquareDistRemove(rest, settlementShares, p);
      dist := dist + Square(rest[p] - settlementShares[p]);
      rest := rest - {p};
    }
    assert SquaredDifferences(rest, settlementShares) == map[];
  }

  /** Every count multiplied by `k`. */
  function Times(k: int, votes: map<Party, int>): map<Party, int>
  {
    map p | p in votes :: k * votes[p]
  }

  /** Taking a party out commutes with multiplying the counts. */
  lemma TimesRemove(k: int, votes: map<Party, int>, p: Party)
    requires p in votes
    ensures p in Times(k, votes) && Times(k, votes)[p] == k * votes[p]
    ensures Times(k, votes) - {p} == Times(k, votes - {p})
  {
  }

  /** Multiplying every count by `k` multiplies the party sum by `k`. */
  lemma {:induction false} SumIntTimes(k: int, votes: map<Party, int>)
    ensures SumInt(Times(k, votes)) == k * SumInt(votes)
    decreases votes.Keys
  {
    if votes == map[] {
      assert Times(k, votes) == map[];
    } else {
      var p :| p in votes;
      var scaled := Times(k, votes);
      TimesRemove(k, votes, p);
      SumIntRemove(scaled, p);
      SumIntTimes(k, votes - {p});
      SumIntRemove(votes, p);
      assert k * votes[p] + k * SumInt(votes - {p}) == k * (votes[p] + SumInt(votes - {p}));
    }
  }

  /** Shares do not change when every count is multiplied by the same positive number. */
  lemma NormalizeTimes(k: int, votes: map<Party, int>)
    requires k > 0
    ensures Normalize(Times(k, votes)) == Normalize(votes)
  {
    SumIntTimes(k, votes);
    var s := SumInt(votes);
    if s > 0 {
      forall p | p in votes
        ensures (k * votes[p]) as real / (k * s) as real == votes[p] as real / s as real
      {
        CancelFactor(k, votes[p], s);
      }
    } else {
      assert k * s <= 0;
    }
  }

  /** A common positive factor of numerator and denominator cancels. */
  lemma CancelFactor(k: int, c: int, s: int)
    requires k > 0 && s > 0
    ensures (k * c) as real / (k * s) as real == c as real / s as real
  {
    var kr := k as real;
    assert (k * c) as real == kr * (c as real);
    assert (k * s) as real == kr * (s as real);
    assert (kr * (c as real)) / (kr * (s as real)) == (c as real) / (s as real);
  }

  /** Adding one more copy of a vote map to `k` copies gives `k + 1` copies. */
  lemma UnionSumTimes(k: int, votes: map<Party, int>)
    ensures UnionSum(votes, Times(k, votes)) == Times(k + 1, votes)
  {
    forall p | p in votes
      ensures VotesFor(votes, p) + VotesFor(Times(k, votes), p) == (k + 1) * votes[p]
    {
      assert VotesFor(Times(k, votes), p) == k * votes[p];
    }
  }

  /** The union-sum of the vote maps of records that all have the same votes is that map times their number. */
  lemma {:induction false} VotesOfCopies(records: seq<VotingData>, v: VotingData)
    requires |records| >= 1
    requires forall j :: 0 <= j < |records| ==> records[j].votesByParty == v.votesByParty
    ensures VotesOf(records) == Times(|records|, v.votesByParty)
    decreases |records|
  {
    if |records| == 1 {
      assert VotesOf(records[1..]) == map[];
      assert UnionSum(v.votesByParty, map[]) == Times(1, v.votesByParty);
    } else {
      VotesOfCopies(records[1..], v);
      UnionSumTimes(|records| - 1, v.votesByParty);
    }
  }

  /** A settlement whose ballot boxes all have the same party votes scores 0 for each of them. */
  lemma IdenticalBallotsScoreZero(records: seq<VotingData>, v: VotingData,
                                  settlement: string, symbol: string, ballotBoxId: string)
    requires |records| >= 1
    requires forall j :: 0 <= j < |records| ==> records[j].votesByParty == v.votesByParty
    ensures Normalized(v) == Normalized(FoldCombine(Zero(settlement, symbol, ballotBoxId), records))
    ensures SquareDist(Normalized(v), Normalized(FoldCombine(Zero(settlement, symbol, ballotBoxId), records))) == 0.0
  {
    var total := FoldCombine(Zero(settlement, symbol, ballotBoxId), records);
    FoldOfCopies(records, v, Zero(settlement, symbol, ballotBoxId));
    NormalizeTimes(|records|, v.votesByParty);
    SquareDistOfEqualShares(Normalized(v), Normalized(total));
  }

  /** Folding records with one vote map into a base without votes gives that map times their number. */
  lemma FoldOfCopies(records: seq<VotingData>, v: VotingData, base: VotingData)
    requires |records| >= 1 && base.votesByParty == map[]
    requires forall j :: 0 <= j < |records| ==> records[j].votesByParty == v.votesByParty
    ensures FoldCombine(base, records).votesByParty == Times(|records|, v.votesByParty)
  {
    FoldTotals(base, records);
    VotesOfCopies(records, v);
    assert UnionSum(map[], VotesOf(records)) == VotesOf(records);
  }
}
