/**
 * The switch detector: flags a ballot box where a party that is fringe nationally is
 * strong locally while a party that is major nationally is almost absent locally, the
 * pattern of votes tallied to the wrong party.
 */
module Switches {
  import opened Parties
  import opened MapSums
  import opened Voting
  import opened Issues

  /** A local share above this makes a nationally fringe party suspicious. */
  const HighFringeMinShare: real := 0.05
  /** Nationally fringe: a national share below this. */
  const FringePartyMaxRatio: real := 0.01
  /** A local share below this makes a nationally major party suspicious. */
  const LowMajorMaxShare: real := 0.001
  /** Nationally major: a national share above this. */
  const MajorPartyMinRatio: real := 0.2

  predicate IsHighFringe(share: real, nationalShare: real)
  {
    share > HighFringeMinShare && nationalShare < FringePartyMaxRatio
  }

  predicate IsLowMajor(share: real, nationalShare: real)
  {
    share < LowMajorMaxShare && nationalShare > MajorPartyMinRatio
  }

  /** `order` lists every key of `keys` exactly once, as iterating a hash map does. */
  predicate IsEnumeration(order: seq<Party>, keys: set<Party>)
  {
    && (forall i, j :: 0 <= i < j < |order| ==> order[i] != order[j])
    && (forall i :: 0 <= i < |order| ==> order[i] in keys)
    && (forall p :: p in keys ==> p in order)
  }

  /** The high-fringe parties among `order`, in that order. */
  function HighFringe(order: seq<Party>, shares: map<Party, real>, national: map<Party, real>)
    : (parties: seq<Party>)
    requires forall p :: p in order ==> p in shares && p in national
    ensures forall p :: p in parties <==> p in order && IsHighFringe(shares[p], national[p])
  {
    if order == [] then []
    else
      (if IsHighFringe(shares[order[0]], national[order[0]]) then [order[0]] else [])
      + HighFringe(order[1..], shares, national)
  }

  /** The low-major parties among `order`, in that order. */
  function LowMajor(order: seq<Party>, shares: map<Party, real>, national: map<Party, real>)
    : (parties: seq<Party>)
    requires forall p :: p in order ==> p in shares && p in national
    ensures forall p :: p in parties <==> p in order && IsLowMajor(shares[p], national[p])
  {
    if order == [] then []
    else
      (if IsLowMajor(shares[order[0]], national[order[0]]) then [order[0]] else [])
      + LowMajor(order[1..], shares, national)
  }

  /** The elements of `sub` occur in `s` in the same order, `s` possibly having others between. */
  predicate IsSubsequence(sub: seq<Party>, s: seq<Party>)
    decreases |s|
  {
    if sub == [] then true
    else if s == [] then false
    else if sub[0] == s[0] then IsSubsequence(sub[1..], s[1..])
    else IsSubsequence(sub, s[1..])
  }

  /** The high-fringe list keeps the order of `order`. */
  lemma {:induction false} HighFringeInOrder(order: seq<Party>, shares: map<Party, real>, national: map<Party, real>)
    requires forall p :: p in order ==> p in shares && p in national
    ensures IsSubsequence(HighFringe(order, shares, national), order)
  {
    if order != [] {
      var parties := HighFringe(order, shares, national);
      var rest := HighFringe(order[1..], shares, national);
      HighFringeInOrder(order[1..], shares, national);
      if IsHighFringe(shares[order[0]], national[order[0]]) {
        assert parties == [order[0]] + rest && parties[1..] == rest;
      } else if rest != [] {
        assert parties == rest && rest[0] in rest;
      }
    }
  }

  /**
   * The high-fringe list holds each qualifying party as often as `order` does: exactly once
   * when `order` enumerates the share keys.
   */
  lemma {:induction false} HighFringeCounts(order: seq<Party>, shares: map<Party, real>, national: map<Party, real>)
    requires forall p :: p in order ==> p in shares && p in national
    ensures forall p :: multiset(HighFringe(order, shares, national))[p] ==
                        if p in order && IsHighFringe(shares[p], national[p]) then multiset(order)[p] else 0
  {
    if order != [] {
      HighFringeCounts(order[1..], shares, national);
      assert order == [order[0]] + order[1..];
    }
  }

  /** The low-major list keeps the order of `order`. */
  lemma {:induction false} LowMajorInOrder(order: seq<Party>, shares: map<Party, real>, national: map<Party, real>)
    requires forall p :: p in order ==> p in shares && p in national
    ensures IsSubsequence(LowMajor(order, shares, national), order)
  {
    if order != [] {
      var parties := LowMajor(order, shares, national);
      var rest := LowMajor(order[1..], shares, national);
      LowMajorInOrder(order[1..], shares, national);
      if IsLowMajor(shares[order[0]], national[order[0]]) {
        assert parties == [order[0]] + rest && parties[1..] == rest;
      } else if rest != [] {
        assert parties == rest && rest[0] in rest;
      }
    }
  }

  /**
   * The low-major list holds each qualifying party as often as `order` does: exactly once
   * when `order` enumerates the share keys.
   */
  lemma {:induction false} LowMajorCounts(order: seq<Party>, shares: map<Party, real>, national: map<Party, real>)
    requires forall p :: p in order ==> p in shares && p in national
    ensures forall p :: multiset(LowMajor(order, shares, national))[p] ==
                        if p in order && IsLowMajor(shares[p], national[p]) then multiset(order)[p] else 0
  {
    if order != [] {
      LowMajorCounts(order[1..], shares, national);
      assert order == [order[0]] + order[1..];
    }
  }

  /** A list without repeats holds each of its elements exactly once. */
  lemma {:induction false} DistinctOnce(order: seq<Party>)
    requires forall i, j :: 0 <= i < j < |order| ==> order[i] != order[j]
    ensures forall p :: multiset(order)[p] == if p in order then 1 else 0
  {
    if order != [] {
      DistinctOnce(order[1..]);
      assert order == [order[0]] + order[1..];
      assert order[0] !in order[1..];
    }
  }

  /**
   * Over an enumeration of the share keys, each list holds every qualifying party of the
   * ballot box exactly once and nothing else, in the enumeration's order.
   */
  lemma SelectionsListOnce(order: seq<Party>, shares: map<Party, real>, national: map<Party, real>)
    requires IsEnumeration(order, shares.Keys)
    requires shares.Keys <= national.Keys
    ensures IsSubsequence(HighFringe(order, shares, national), order)
    ensures IsSubsequence(LowMajor(order, shares, national), order)
    ensures forall p :: multiset(HighFringe(order, shares, national))[p] ==
                        if p in shares && IsHighFringe(shares[p], national[p]) then 1 else 0
    ensures forall p :: multiset(LowMajor(order, shares, national))[p] ==
                        if p in shares && IsLowMajor(shares[p], national[p]) then 1 else 0
  {
    HighFringeInOrder(order, shares, national);
    LowMajorInOrder(order, shares, national);
    HighFringeCounts(order, shares, national);
    LowMajorCounts(order, shares, national);
    DistinctOnce(order);
  }

  /** One `name=count` entry per party, with the party's raw vote count in the ballot box. */
  function EntriesFor(ballot: VotingData, parties: seq<Party>): seq<SwitchEntry>
    requires forall p :: p in parties ==> p in ballot.votesByParty
  {
    seq(|parties|, i requires 0 <= i < |parties| =>
      SwitchEntry(parties[i].name, ballot.votesByParty[parties[i]]))
  }

  /**
   * Every party with a share in the ballot box has a national share: the national map is
   * read for each of them and reading a missing share is a null dereference.
   */
  ghost predicate SharesDefined(ballot: VotingData, national: VotingData)
  {
    Normalized(ballot).Keys <= Normalized(national).Keys
  }

  /**
   * The switch issues of a ballot box, given the iteration order of its share map: one
   * issue listing the high-fringe and then the low-major parties when both kinds exist.
   */
  ghost function SwitchIssues(ballot: VotingData, national: VotingData, order: seq<Party>): seq<Issue>
    requires SharesDefined(ballot, national)
    requires IsEnumeration(order, Normalized(ballot).Keys)
  {
    var shares := Normalized(ballot);
    var nationalShares := Normalized(national);
    var high := HighFringe(order, shares, nationalShares);
    var low := LowMajor(order, shares, nationalShares);
    if high != [] && low != [] then [Switch(EntriesFor(ballot, high + low))] else []
  }

  /**
   * There is at most one switch issue, and there is one exactly when some party of the
   * ballot box is high-fringe and some party is low-major.
   */
  lemma SwitchIssueWhenBothKinds(ballot: VotingData, national: VotingData, order: seq<Party>)
    requires SharesDefined(ballot, national)
    requires IsEnumeration(order, Normalized(ballot).Keys)
    ensures |SwitchIssues(ballot, national, order)| <= 1
    ensures |SwitchIssues(ballot, national, order)| == 1 <==>
      (exists p :: p in Normalized(ballot) && IsHighFringe(Normalized(ballot)[p], Normalized(national)[p]))
      && (exists q :: q in Normalized(ballot) && IsLowMajor(Normalized(ballot)[q], Normalized(national)[q]))
    ensures forall k :: 0 <= k < |SwitchIssues(ballot, national, order)| ==>
      SwitchIssues(ballot, national, order)[k].Switch?
  {
    SelectionsNonEmpty(order, Normalized(ballot), Normalized(national));
  }

  /** Each selection is non-empty exactly when some party of the share map qualifies. */
  lemma SelectionsNonEmpty(order: seq<Party>, shares: map<Party, real>, national: map<Party, real>)
    requires IsEnumeration(order, shares.Keys)
    requires shares.Keys <= national.Keys
    ensures HighFringe(order, shares, national) != [] <==>
      exists p :: p in shares && IsHighFringe(shares[p], national[p])
    ensures LowMajor(order, shares, national) != [] <==>
      exists q :: q in shares && IsLowMajor(shares[q], national[q])
  {
    var high := HighFringe(order, shares, national);
    var low := LowMajor(order, shares, national);
    if exists p :: p in shares && IsHighFringe(shares[p], national[p]) {
      var p :| p in shares && IsHighFringe(shares[p], national[p]);
      assert p in high;
    }
    if exists q :: q in shares && IsLowMajor(shares[q], national[q]) {
      var q :| q in shares && IsLowMajor(shares[q], national[q]);
      assert q in low;
    }
    if high != [] {
      assert high[0] in high;
    }
    if low != [] {
      assert low[0] in low;
    }
  }

  /** No party is both high-fringe and low-major. */
  lemma FringeAndMajorDisjoint(order: seq<Party>, shares: map<Party, real>, national: map<Party, real>)
    requires forall p :: p in order ==> p in shares && p in national
    ensures forall p :: p in HighFringe(order, shares, national) ==> p !in LowMajor(order, shares, national)
  {
  }

  /** Comparing a share with a fraction is comparing cross-multiplied counts. */
  lemma ShareComparison(share: real, count: int, total: int, num: int, den: int)
    requires total > 0 && den > 0
    requires share * total as real == count as real
    ensures share > num as real / den as real <==> den * count > num * total
    ensures share < num as real / den as real <==> den * count < num * total
  {
    var t := total as real;
    var d := den as real;
    assert share == count as real / t;
    assert (den * count) as real == d * (count as real);
    assert (num * total) as real == (num as real) * t;
    assert share > num as real / d <==> share * t * d > (num as real / d) * t * d;
    assert share < num as real / d <==> share * t * d < (num as real / d) * t * d;
    assert (num as real / d) * t * d == (num as real) * t;
  }

  /**
   * The thresholds in integer arithmetic: with ballot party sum S and national party sum N,
   * a party with ballot votes c and national votes n is high-fringe exactly when 20c > S and
   * 100n < N, and low-major exactly when 1000c < S and 5n > N.
   */
  lemma ThresholdsByCounts(ballot: VotingData, national: VotingData, p: Party)
    requires p in Normalized(ballot) && p in Normalized(national)
    ensures IsHighFringe(Normalized(ballot)[p], Normalized(national)[p]) <==>
      20 * ballot.votesByParty[p] > SumInt(ballot.votesByParty)
      && 100 * national.votesByParty[p] < SumInt(national.votesByParty)
    ensures IsLowMajor(Normalized(ballot)[p], Normalized(national)[p]) <==>
      1000 * ballot.votesByParty[p] < SumInt(ballot.votesByParty)
      && 5 * national.votesByParty[p] > SumInt(national.votesByParty)
  {
    var s := SumInt(ballot.votesByParty);
    var n := SumInt(national.votesByParty);
    var share := Normalized(ballot)[p];
    var nationalShare := Normalized(national)[p];
    ShareComparison(share, ballot.votesByParty[p], s, 1, 20);
    ShareComparison(share, ballot.votesByParty[p], s, 1, 1000);
    ShareComparison(nationalShare, national.votesByParty[p], n, 1, 100);
    ShareComparison(nationalShare, national.votesByParty[p], n, 1, 5);
    assert 1 as real / 20 as real == HighFringeMinShare;
    assert 1 as real / 1000 as real == LowMajorMaxShare;
    assert 1 as real / 100 as real == FringePartyMaxRatio;
    assert 1 as real / 5 as real == MajorPartyMinRatio;
  }

  /** The entries of a concatenation of party lists are the concatenated entries. */
  lemma EntriesForAppend(ballot: VotingData, a: seq<Party>, b: seq<Party>)
    requires forall p :: p in a + b ==> p in ballot.votesByParty
    ensures EntriesFor(ballot, a + b) == EntriesFor(ballot, a) + EntriesFor(ballot, b)
  {
  }

  /** The `forEach` that appends one `name=count` entry per party to the text being built. */
  method AppendEntries(ballot: VotingData, entries: seq<SwitchEntry>, parties: seq<Party>)
    returns (extended: seq<SwitchEntry>)
    requires forall p :: p in parties ==> p in ballot.votesByParty
    ensures extended == entries + EntriesFor(ballot, parties)
  {
    extended := entries;
    for i := 0 to |parties|
      invariant extended == entries + EntriesFor(ballot, parties[..i])
    {
      extended := extended + [SwitchEntry(parties[i].name, ballot.votesByParty[parties[i]])];
      assert parties[..i + 1] == parties[..i] + [parties[i]];
      EntriesForAppend(ballot, parties[..i], [parties[i]]);
    }
    assert parties[..|parties|] == parties;
  }

  /**
   * The source's `checkForSwitches`: the two filtered lists, then one issue built by
   * appending an entry per high-fringe and then per low-major party.
   */
  method CheckForSwitches(ballot: VotingData, national: VotingData, order: seq<Party>)
    returns (issues: seq<Issue>)
    requires SharesDefined(ballot, national)
    requires IsEnumeration(order, Normalized(ballot).Keys)
    ensures issues == SwitchIssues(ballot, national, order)
  {
    var shares := NormalizeVotes(ballot.votesByParty);
    var nationalShares := NormalizeVotes(national.votesByParty);
    var high := HighFringe(order, shares, nationalShares);
    var low := LowMajor(order, shares, nationalShares);
    issues := [];
    if high != [] && low != [] {
      var entries := AppendEntries(ballot, [], high);
      assert entries == EntriesFor(ballot, high);
      entries := AppendEntries(ballot, entries, low);
      EntriesForAppend(ballot, high, low);
      issues := [Switch(entries)];
    }
  }
}
