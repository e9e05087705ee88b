/**
 * The vote count over a list of records: the records are filtered by two wildcard patterns
 * and folded with `Combine` into a zero-valued base record that carries the requested labels.
 */
module Aggregation {
  import opened Wrappers
  import opened Parties
  import opened MapSums
  import opened Voting
  import opened Wildcard

  /** The stream reduction with `combine`: a left fold starting from `acc`. */
  function FoldCombine(acc: VotingData, records: seq<VotingData>): VotingData
    decreases |records|
  {
    if records == [] then acc else FoldCombine(Combine(acc, records[0]), records[1..])
  }

  /** Whether a record passes one filter; no pattern (a null pattern) passes every record. */
  predicate PassesFilter(pattern: Option<string>, r: VotingData)
  {
    pattern.None? || WildcardMatches(pattern.value, r.ballotBoxId)
  }

  /**
   * The records that pass one filter, in their order. Both filters of the source test the
   * ballot-box id, including the one given the settlement-symbol pattern.
   */
  function FilterRecords(records: seq<VotingData>, pattern: Option<string>): (kept: seq<VotingData>)
    ensures |kept| <= |records|
    ensures forall r :: r in kept <==> r in records && PassesFilter(pattern, r)
  {
    if records == [] then []
    else
      (if PassesFilter(pattern, records[0]) then [records[0]] else [])
      + FilterRecords(records[1..], pattern)
  }

  /** Each record the filter keeps appears in the result as often as in the input. */
  lemma {:induction false} FilterMultiplicity(records: seq<VotingData>, pattern: Option<string>)
    ensures forall r :: multiset(FilterRecords(records, pattern))[r]
                     == if PassesFilter(pattern, r) then multiset(records)[r] else 0
  {
    if records != [] {
      FilterMultiplicity(records[1..], pattern);
      assert records == [records[0]] + records[1..];
    }
  }

  /** The records counted by `CountVotes`: those passing both filters, each as often as listed. */
  lemma CountedRecords(records: seq<VotingData>, symbolPattern: Option<string>, ballotBoxPattern: Option<string>)
    ensures var kept := FilterRecords(FilterRecords(records, symbolPattern), ballotBoxPattern);
      forall r :: multiset(kept)[r]
               == if PassesFilter(symbolPattern, r) && PassesFilter(ballotBoxPattern, r) then multiset(records)[r] else 0
  {
    FilterMultiplicity(records, symbolPattern);
    FilterMultiplicity(FilterRecords(records, symbolPattern), ballotBoxPattern);
  }

  /** The label a pattern gives the base record (a null label is written as an empty cell). */
  function Label(pattern: Option<string>): string
  {
    match pattern
    case Some(p) => p
    case None => ""
  }

  /**
   * The source's `countVotes`: a record labelled with the settlement and the two patterns,
   * holding each count and the party votes summed over the records that pass both filters,
   * each counted as often as it is listed.
   */
  function CountVotes(records: seq<VotingData>, settlement: string,
                      symbolPattern: Option<string>, ballotBoxPattern: Option<string>): (total: VotingData)
    ensures var kept := FilterRecords(FilterRecords(records, symbolPattern), ballotBoxPattern);
      && total.settlement == settlement
      && total.symbol == Label(symbolPattern) && total.ballotBoxId == Label(ballotBoxPattern)
      && total.suffrageSize == SumCounts(kept, (r: VotingData) => r.suffrageSize)
      && total.totalVotes == SumCounts(kept, (r: VotingData) => r.totalVotes)
      && total.disqualifiedVotes == SumCounts(kept, (r: VotingData) => r.disqualifiedVotes)
      && total.validVotes == SumCounts(kept, (r: VotingData) => r.validVotes)
      && total.votesByParty == VotesOf(kept)
  {
    var base := Zero(settlement, Label(symbolPattern), Label(ballotBoxPattern));
    var kept := FilterRecords(FilterRecords(records, symbolPattern), ballotBoxPattern);
    FoldTotals(base, kept);
    assert UnionSum(map[], VotesOf(kept)) == VotesOf(kept);
    FoldCombine(base, kept)
  }

  /** The sum of one count over the records. */
  function SumCounts(records: seq<VotingData>, count: VotingData -> int): int
  {
    if records == [] then 0 else count(records[0]) + SumCounts(records[1..], count)
  }

  /** The union-sum of the vote maps of the records. */
  function VotesOf(records: seq<VotingData>): map<Party, int>
  {
    if records == [] then map[] else UnionSum(records[0].votesByParty, VotesOf(records[1..]))
  }

  /**
   * A fold keeps the labels of its starting record, adds each count over the records and
   * union-sums their vote maps into the starting map.
   */
  lemma {:induction false} FoldTotals(acc: VotingData, records: seq<VotingData>)
    ensures FoldCombine(acc, records).settlement == acc.settlement
    ensures FoldCombine(acc, records).symbol == acc.symbol
    ensures FoldCombine(acc, records).ballotBoxId == acc.ballotBoxId
    ensures FoldCombine(acc, records).suffrageSize == acc.suffrageSize + SumCounts(records, (r: VotingData) => r.suffrageSize)
    ensures FoldCombine(acc, records).totalVotes == acc.totalVotes + SumCounts(records, (r: VotingData) => r.totalVotes)
    ensures FoldCombine(acc, records).disqualifiedVotes
         == acc.disqualifiedVotes + SumCounts(records, (r: VotingData) => r.disqualifiedVotes)
    ensures FoldCombine(acc, records).validVotes == acc.validVotes + SumCounts(records, (r: VotingData) => r.validVotes)
    ensures FoldCombine(acc, records).votesByParty == UnionSum(acc.votesByParty, VotesOf(records))
    decreases |records|
  {
    if records == [] {
      assert UnionSum(acc.votesByParty, map[]) == acc.votesByParty;
    } else {
      FoldTotals(Combine(acc, records[0]), records[1..]);
      UnionSumAssociative(acc.votesByParty, records[0].votesByParty, VotesOf(records[1..]));
    }
  }

  /** The votes for a party in the union-sum of the records are the sum of its votes in each. */
  lemma {:induction false} VotesOfParty(records: seq<VotingData>, p: Party)
    ensures VotesFor(VotesOf(records), p) == SumCounts(records, (r: VotingData) => VotesFor(r.votesByParty, p))
  {
    if records != [] {
      VotesOfParty(records[1..], p);
      UnionSumVotes(records[0].votesByParty, VotesOf(records[1..]), p);
    }
  }

  /** The party-vote sum of the union-sum is the sum of the records' party-vote sums. */
  lemma {:induction false} VotesOfPartyTotal(records: seq<VotingData>)
    ensures SumInt(VotesOf(records)) == SumCounts(records, (r: VotingData) => SumInt(r.votesByParty))
  {
    if records != [] {
      VotesOfPartyTotal(records[1..]);
      SumIntUnion(records[0].votesByParty, VotesOf(records[1..]));
    }
  }

  predicate NonNegativeVotes(v: VotingData)
  {
    forall p :: p in v.votesByParty ==> v.votesByParty[p] >= 0
  }

  /**
   * With non-negative votes the union-sum of the records contains every record's parties
   * and has at least every record's party sum.
   */
  lemma {:induction false} VotesOfCovers(records: seq<VotingData>, i: nat)
    requires i < |records|
    requires forall j :: 0 <= j < |records| ==> NonNegativeVotes(records[j])
    ensures records[i].votesByParty.Keys <= VotesOf(records).Keys
    ensures SumInt(records[i].votesByParty) <= SumInt(VotesOf(records))
    ensures SumInt(VotesOf(records)) >= 0
  {
    var head := records[0].votesByParty;
    var rest := records[1..];
    UnionSumKeys(head, VotesOf(rest));
    SumIntUnion(head, VotesOf(rest));
    SumIntBoundsEntries(head);
    if i == 0 {
      if rest != [] {
        VotesOfCovers(rest, 0);
      }
    } else {
      VotesOfCovers(rest, i - 1);
    }
  }

  /**
   * Every record that a fold from a zero base takes in has its share keys among the share
   * keys of the result, when votes are non-negative.
   */
  lemma FoldCoversShares(settlement: string, symbol: string, ballotBoxId: string,
                         records: seq<VotingData>, i: nat)
    requires i < |records|
    requires forall j :: 0 <= j < |records| ==> NonNegativeVotes(records[j])
    ensures Normalized(records[i]).Keys
         <= Normalized(FoldCombine(Zero(settlement, symbol, ballotBoxId), records)).Keys
  {
    FoldTotals(Zero(settlement, symbol, ballotBoxId), records);
    VotesOfCovers(records, i);
    assert UnionSum(map[], VotesOf(records)) == VotesOf(records);
    NormalizedKeysCovered(records[i].votesByParty, VotesOf(records));
  }

  /** When every record passes a filter, the filter keeps the list as it is. */
  lemma {:induction false} FilterKeepsAll(records: seq<VotingData>, pattern: Option<string>)
    requires forall j :: 0 <= j < |records| ==> PassesFilter(pattern, records[j])
    ensures FilterRecords(records, pattern) == records
  {
    if records != [] {
      FilterKeepsAll(records[1..], pattern);
    }
  }

  predicate PlainBallotBoxIds(records: seq<VotingData>)
  {
    forall j :: 0 <= j < |records| ==> NoLineTerminator(records[j].ballotBoxId)
  }

  /**
   * Counting with the pattern `*` for both filters keeps every record whose ballot-box id
   * has no line terminator, so the count is the fold of all records from a zero base
   * labelled `settlement`, `*`, `*`.
   */
  lemma CountAllVotes(records: seq<VotingData>, settlement: string)
    requires PlainBallotBoxIds(records)
    ensures CountVotes(records, settlement, Some("*"), Some("*")) == FoldCombine(Zero(settlement, "*", "*"), records)
  {
    forall j | 0 <= j < |records|
      ensures PassesFilter(Some("*"), records[j])
    {
      StarMatches(records[j].ballotBoxId);
    }
    FilterKeepsAll(records, Some("*"));
    FilterKeepsAll(records, Some("*"));
  }

  /**
   * As written, the settlement-symbol filter tests the ballot-box id: a record of settlement
   * "5000" with ballot box "1" is not counted under the symbol pattern "5000".
   */
  lemma SymbolFilterTestsBallotBoxId()
    ensures var r := VotingData("A", "5000", "1", 10, 8, 0, 8, map[]);
            CountVotes([r], "A", Some("5000"), None).suffrageSize == 0
  {
    var r := VotingData("A", "5000", "1", 10, 8, 0, 8, map[]);
    var regex := ToWildcard("5000");
    assert regex[0] == '5';
    assert ParseRegex(regex)[0] == Lit('5');
    assert !PassesFilter(Some("5000"), r);
    assert FilterRecords([r], Some("5000")) == [];
  }
}
