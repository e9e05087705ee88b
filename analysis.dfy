/**
 * The analysis passes over all ballot boxes: filling in each box's issues and valid
 * percentage, scoring boxes against their settlement, and assembling the report rows.
 */
module Analysis {
  import opened Wrappers
  import opened Parties
  import opened Voting
  import opened Issues
  import opened Aggregation
  import opened Switches
  import opened SettlementScore
  import opened Analyzed
  import opened Wildcard

  /** Lists the keys of a hash map in its (unspecified) iteration order. */
  method Enumerate(keys: set<Party>) returns (order: seq<Party>)
    ensures IsEnumeration(order, keys)
  {
    order := [];
    var rest := keys;
    while rest != {}
      invariant rest <= keys
      invariant forall i, j :: 0 <= i < j < |order| ==> order[i] != order[j]
      invariant forall i :: 0 <= i < |order| ==> order[i] in keys - rest
      invariant forall p :: p in keys - rest ==> p in order
      decreases rest
    {
      var p :| p in rest;
      order := order + [p];
      rest := rest - {p};
    }
  }

  /**
   * What the issue pass leaves in a record of tally `data`: its simple issues followed by its
   * switch issues (for some iteration order of its shares), and its valid percentage.
   */
  ghost predicate IssuesFilled(data: VotingData, issues: Option<seq<Issue>>, validPercent: Percent,
                               national: VotingData)
  {
    && SharesDefined(data, national)
    && issues.Some?
    && (exists order :: IsEnumeration(order, Normalized(data).Keys) &&
          issues.value == SimpleIssues(data) + SwitchIssues(data, national, order))
    && validPercent == ValidPercent(data)
  }

  /** The issue pass on one record. */
  method FillRecordIssues(a: AnalyzedVotingData, national: VotingData)
    requires SharesDefined(a.data, national)
    modifies a
    ensures IssuesFilled(a.data, a.issues, a.validPercent, national)
    ensures a.settlementDistance == old(a.settlementDistance)
  {
    var issues := GetSimpleIssues(a.data);
    var shares := NormalizeVotes(a.data.votesByParty);
    var order := Enumerate(shares.Keys);
    var switches := CheckForSwitches(a.data, national, order);
    issues := issues + switches;
    a.SetIssues(issues);
    a.SetValidPercent(ValidPercent(a.data));
    assert IsEnumeration(order, Normalized(a.data).Keys) &&
      a.issues.value == SimpleIssues(a.data) + SwitchIssues(a.data, national, order);
  }

  /**
   * The issue pass: for each record, its simple issues extended by its switch issues, then
   * its valid percentage. A ballot party missing from the national shares would be a null
   * dereference, hence the precondition.
   */
  method FillIssues(analysis: seq<AnalyzedVotingData>, national: VotingData)
    requires forall i :: 0 <= i < |analysis| ==> SharesDefined(analysis[i].data, national)
    modifies set a | a in analysis
    ensures forall i :: 0 <= i < |analysis| ==> IssuesFilled(analysis[i].data, analysis[i].issues, analysis[i].validPercent, national)
    ensures forall i :: 0 <= i < |analysis| ==>
      analysis[i].settlementDistance == old(analysis[i].settlementDistance)
  {
    for i := 0 to |analysis|
      invariant forall j :: 0 <= j < i ==> IssuesFilled(analysis[j].data, analysis[j].issues, analysis[j].validPercent, national)
      invariant forall j :: 0 <= j < |analysis| ==>
        analysis[j].settlementDistance == old(analysis[j].settlementDistance)
    {
      label Before:
      var a := analysis[i];
      FillRecordIssues(a, national);
      forall j | 0 <= j < i && analysis[j] != a
        ensures analysis[j].issues == old@Before(analysis[j].issues)
        ensures analysis[j].validPercent == old@Before(analysis[j].validPercent)
      {
      }
    }
  }

  /** The tallies of the records, in order. */
  function Datas(analysis: seq<AnalyzedVotingData>): (records: seq<VotingData>)
    ensures |records| == |analysis|
    ensures forall i :: 0 <= i < |analysis| ==> records[i] == analysis[i].data
  {
    if analysis == [] then [] else [analysis[0].data] + Datas(analysis[1..])
  }

  /** The records of one settlement symbol, in encounter order. */
  function Group(records: seq<VotingData>, symbol: string): (group: seq<VotingData>)
    ensures |group| <= |records|
    ensures forall r :: r in group <==> r in records && r.symbol == symbol
    ensures forall r :: multiset(group)[r] == if r.symbol == symbol then multiset(records)[r] else 0
  {
    if records == [] then []
    else
      assert records == [records[0]] + records[1..];
      (if records[0].symbol == symbol then [records[0]] else []) + Group(records[1..], symbol)
  }

  /** The settlement total: every member counted with the patterns `*`, labelled `*`. */
  function SettlementTotal(group: seq<VotingData>): (total: VotingData)
    ensures total.settlement == "*" && total.symbol == "*" && total.ballotBoxId == "*"
    ensures PlainBallotBoxIds(group) ==> total == FoldCombine(Zero("*", "*", "*"), group)
  {
    if PlainBallotBoxIds(group) then
      CountAllVotes(group, "*");
      CountVotes(group, "*", Some("*"), Some("*"))
    else
      CountVotes(group, "*", Some("*"), Some("*"))
  }

  /** A settlement is scored when it has at least `MinGroupSize` ballot boxes. */
  predicate Scored(records: seq<VotingData>, v: VotingData)
  {
    |Group(records, v.symbol)| >= MinGroupSize
  }

  /** The parties of `v` all have a share in `total`. */
  ghost predicate Covered(v: VotingData, total: VotingData)
  {
    Normalized(v).Keys <= Normalized(total).Keys
  }

  /** The score of `v` against the total `total`. */
  ghost function ScoreAgainst(v: VotingData, total: VotingData): real
    requires Covered(v, total)
  {
    SquareDist(Normalized(v), Normalized(total))
  }

  /** The parties of `v` have a share in the total of its settlement. */
  ghost predicate ScoreDefined(records: seq<VotingData>, v: VotingData)
  {
    Covered(v, SettlementTotal(Group(records, v.symbol)))
  }

  /** Every scored record's parties have a share in its settlement total. */
  ghost predicate ScoresDefined(records: seq<VotingData>)
  {
    forall i {:trigger ScoreDefined(records, records[i])} ::
      0 <= i < |records| && Scored(records, records[i]) ==> ScoreDefined(records, records[i])
  }

  /** The distance the settlement pass gives `v`, or `previous` when its settlement is too small. */
  ghost function DistanceAfter(records: seq<VotingData>, v: VotingData, previous: Option<real>): Option<real>
    requires Scored(records, v) ==> ScoreDefined(records, v)
  {
    if Scored(records, v) then Some(ScoreAgainst(v, SettlementTotal(Group(records, v.symbol)))) else previous
  }

  /**
   * Records of a settlement with fewer than `MinGroupSize` ballot boxes keep their previous
   * distance; records of larger settlements get a non-negative score.
   */
  lemma DistanceAfterOutcome(records: seq<VotingData>, v: VotingData, previous: Option<real>)
    requires Scored(records, v) ==> ScoreDefined(records, v)
    ensures |Group(records, v.symbol)| < MinGroupSize ==> DistanceAfter(records, v, previous) == previous
    ensures |Group(records, v.symbol)| >= MinGroupSize ==>
      DistanceAfter(records, v, previous).Some? && DistanceAfter(records, v, previous).value >= 0.0
  {
    if Scored(records, v) {
      SquareDistOfEqualShares(Normalized(v), Normalized(SettlementTotal(Group(records, v.symbol))));
    }
  }

  /**
   * Non-negative votes and ballot-box ids without line breaks make every score defined:
   * each member is then counted in its settlement total, so its parties have shares there.
   */
  lemma ScoresDefinedForPlainRecords(records: seq<VotingData>)
    requires forall j :: 0 <= j < |records| ==> NonNegativeVotes(records[j])
    requires PlainBallotBoxIds(records)
    ensures ScoresDefined(records)
  {
    forall i | 0 <= i < |records| && Scored(records, records[i])
      ensures ScoreDefined(records, records[i])
    {
      var v := records[i];
      var group := Group(records, v.symbol);
      assert v in group;
      var j :| 0 <= j < |group| && group[j] == v;
      forall k | 0 <= k < |group|
        ensures NonNegativeVotes(group[k]) && NoLineTerminator(group[k].ballotBoxId)
      {
        assert group[k] in records;
      }
      CountAllVotes(group, "*");
      FoldCoversShares("*", "*", "*", group, j);
    }
  }

  /** Scores one record against the settlement total `total`. */
  method ScoreRecord(a: AnalyzedVotingData, total: VotingData)
    requires Covered(a.data, total)
    modifies a
    ensures a.settlementDistance == Some(ScoreAgainst(a.data, total))
    ensures a.issues == old(a.issues) && a.validPercent == old(a.validPercent)
  {
    var dist := GetSumSquareDist(total, a.data);
    a.SetSettlementDistanceRatio(Some(dist));
  }

  /** Scores every record of the settlement `s` against the settlement total `total`. */
  method ScoreSettlement(analysis: seq<AnalyzedVotingData>, s: string, total: VotingData)
    requires forall i :: 0 <= i < |analysis| && analysis[i].data.symbol == s ==> Covered(analysis[i].data, total)
    modifies set a | a in analysis
    ensures forall i :: 0 <= i < |analysis| && analysis[i].data.symbol == s ==>
      analysis[i].settlementDistance == Some(ScoreAgainst(analysis[i].data, total))
    ensures forall i :: 0 <= i < |analysis| && analysis[i].data.symbol != s ==>
      analysis[i].settlementDistance == old(analysis[i].settlementDistance)
    ensures forall i :: 0 <= i < |analysis| ==>
      analysis[i].issues == old(analysis[i].issues) &&
      analysis[i].validPercent == old(analysis[i].validPercent)
  {
    for k := 0 to |analysis|
      invariant forall i :: 0 <= i < |analysis| && analysis[i].data.symbol == s ==>
        analysis[i].settlementDistance == Some(ScoreAgainst(analysis[i].data, total))
        || (k <= i && analysis[i].settlementDistance == old(analysis[i].settlementDistance))
      invariant forall i :: 0 <= i < |analysis| && analysis[i].data.symbol != s ==>
        analysis[i].settlementDistance == old(analysis[i].settlementDistance)
      invariant forall i :: 0 <= i < |analysis| ==>
        analysis[i].issues == old(analysis[i].issues) &&
        analysis[i].validPercent == old(analysis[i].validPercent)
    {
      if analysis[k].data.symbol == s {
        ScoreRecord(analysis[k], total);
      }
    }
  }

  /**
   * A scored ballot box whose settlement's boxes all have its party votes, and ids without
   * line terminators, gets a distance of exactly 0 from the settlement pass.
   */
  lemma EqualVotesScoreZero(records: seq<VotingData>, i: nat, previous: Option<real>)
    requires i < |records| && Scored(records, records[i])
    requires forall j :: 0 <= j < |records| && records[j].symbol == records[i].symbol ==>
      records[j].votesByParty == records[i].votesByParty && NoLineTerminator(records[j].ballotBoxId)
    ensures ScoreDefined(records, records[i])
    ensures DistanceAfter(records, records[i], previous) == Some(0.0)
  {
    var v := records[i];
    var group := Group(records, v.symbol);
    forall k | 0 <= k < |group|
      ensures group[k].votesByParty == v.votesByParty && NoLineTerminator(group[k].ballotBoxId)
    {
      assert group[k] in records;
      var j :| 0 <= j < |records| && records[j] == group[k];
    }
    assert v in group;
    CountAllVotes(group, "*");
    IdenticalBallotsScoreZero(group, v, "*", "*", "*");
  }

  /**
   * The program's national total, the count of all records under `*`, has a share for every
   * party of every record when votes are non-negative and ballot-box ids are plain: the
   * issue pass never reads a missing national share.
   */
  lemma NationalSharesDefined(records: seq<VotingData>)
    requires forall j :: 0 <= j < |records| ==> NonNegativeVotes(records[j])
    requires PlainBallotBoxIds(records)
    ensures forall i :: 0 <= i < |records| ==>
      SharesDefined(records[i], CountVotes(records, "*", Some("*"), Some("*")))
  {
    CountAllVotes(records, "*");
    forall i | 0 <= i < |records|
      ensures SharesDefined(records[i], CountVotes(records, "*", Some("*"), Some("*")))
    {
      FoldCoversShares("*", "*", "*", records, i);
    }
  }

  /**
   * One round of the settlement pass: the records of settlement `s` are scored against the
   * settlement total when the settlement has at least `MinGroupSize` records; nothing else
   * changes.
   */
  method ScoreSymbol(analysis: seq<AnalyzedVotingData>, records: seq<VotingData>, s: string)
    requires records == Datas(analysis) && ScoresDefined(records)
    modifies set a | a in analysis
    ensures forall i :: 0 <= i < |analysis| ==>
      analysis[i].settlementDistance ==
        if records[i].symbol == s then DistanceAfter(records, records[i], old(analysis[i].settlementDistance))
        else old(analysis[i].settlementDistance)
    ensures forall i :: 0 <= i < |analysis| ==>
      analysis[i].issues == old(analysis[i].issues) &&
      analysis[i].validPercent == old(analysis[i].validPercent)
  {
    var group := Group(records, s);
    if |group| >= MinGroupSize {
      forall i | 0 <= i < |analysis| && analysis[i].data.symbol == s
        ensures Covered(analysis[i].data, SettlementTotal(group))
      {
        assert Scored(records, records[i]) && ScoreDefined(records, records[i]);
      }
      ScoreSettlement(analysis, s, SettlementTotal(group));
    }
    forall i | 0 <= i < |analysis| && records[i].symbol == s
      ensures Scored(records, records[i]) <==> |group| >= MinGroupSize
    {
    }
  }

  /**
   * The settlement pass: for each settlement symbol (in hash-map order) with at least
   * `MinGroupSize` records, scores every member against the settlement total. Members of
   * smaller settlements keep their distance.
   */
  method CheckBySettlement(analysis: seq<AnalyzedVotingData>)
    requires ScoresDefined(Datas(analysis))
    modifies set a | a in analysis
    ensures forall i :: 0 <= i < |analysis| ==>
      analysis[i].settlementDistance ==
        DistanceAfter(Datas(analysis), analysis[i].data, old(analysis[i].settlementDistance))
    ensures forall i :: 0 <= i < |analysis| ==>
      analysis[i].issues == old(analysis[i].issues) &&
      analysis[i].validPercent == old(analysis[i].validPercent)
  {
    var records := Datas(analysis);
    var symbols := set i | 0 <= i < |records| :: records[i].symbol;
    var pending := symbols;
    while pending != {}
      invariant pending <= symbols
      invariant forall i :: 0 <= i < |analysis| ==>
        analysis[i].settlementDistance ==
          if records[i].symbol in pending then old(analysis[i].settlementDistance)
          else DistanceAfter(records, records[i], old(analysis[i].settlementDistance))
      invariant forall i :: 0 <= i < |analysis| ==>
        analysis[i].issues == old(analysis[i].issues) &&
        analysis[i].validPercent == old(analysis[i].validPercent)
      decreases |pending|
    {
      var s :| s in pending;
      label Before:
      ScoreSymbol(analysis, records, s);
      forall i | 0 <= i < |analysis|
        ensures analysis[i].settlementDistance ==
          if records[i].symbol in pending - {s} then old(analysis[i].settlementDistance)
          else DistanceAfter(records, records[i], old(analysis[i].settlementDistance))
      {
        if records[i].symbol == s {
          assert old@Before(analysis[i].settlementDistance) == old(analysis[i].settlementDistance);
        }
      }
      pending := pending - {s};
    }
    forall i | 0 <= i < |analysis|
      ensures records[i].symbol in symbols
    {
    }
  }

  /** The party columns are in non-increasing order of national votes. */
  predicate SortedByVotes(order: seq<Party>, votes: map<Party, int>)
  {
    forall i, j :: 0 <= i < j < |order| ==> VotesFor(votes, order[i]) >= VotesFor(votes, order[j])
  }

  /** A non-empty set of parties has one with the most votes. */
  lemma {:induction false} MostVotesExists(parties: set<Party>, votes: map<Party, int>)
    requires parties != {}
    ensures exists p :: p in parties && forall q :: q in parties ==> VotesFor(votes, q) <= VotesFor(votes, p)
    decreases parties
  {
    var p :| p in parties;
    if parties != {p} {
      MostVotesExists(parties - {p}, votes);
      var m :| m in parties - {p} && forall q :: q in parties - {p} ==> VotesFor(votes, q) <= VotesFor(votes, m);
      if VotesFor(votes, p) <= VotesFor(votes, m) {
        assert m in parties && forall q :: q in parties ==> VotesFor(votes, q) <= VotesFor(votes, m);
      } else {
        assert forall q :: q in parties ==> VotesFor(votes, q) <= VotesFor(votes, p);
      }
    } else {
      assert forall q :: q in parties ==> q == p;
    }
  }

  /**
   * The report's party columns: every party of the national vote map once, sorted by
   * national votes, highest first (ties in an unspecified order).
   */
  method PartyOrder(votes: map<Party, int>) returns (order: seq<Party>)
    ensures IsEnumeration(order, votes.Keys)
    ensures SortedByVotes(order, votes)
  {
    order := [];
    var rest := votes.Keys;
    while rest != {}
      invariant rest <= votes.Keys
      invariant forall i, j :: 0 <= i < j < |order| ==> order[i] != order[j]
      invariant forall i :: 0 <= i < |order| ==> order[i] in votes.Keys - rest
      invariant forall p :: p in votes.Keys - rest ==> p in order
      invariant SortedByVotes(order, votes)
      invariant forall i, q :: 0 <= i < |order| && q in rest ==> VotesFor(votes, q) <= VotesFor(votes, order[i])
      decreases rest
    {
      MostVotesExists(rest, votes);
      var p :| p in rest && forall q :: q in rest ==> VotesFor(votes, q) <= VotesFor(votes, p);
      order := order + [p];
      rest := rest - {p};
    }
  }

  /** The national row: a fresh record with its valid percentage set and no issues. */
  method NationalRow(national: VotingData, partyOrder: seq<Party>) returns (row: seq<Cell>)
    ensures row == Row(national, [], ValidPercent(national), None, partyOrder)
  {
    var nationalAnalysis := new AnalyzedVotingData(national);
    nationalAnalysis.SetValidPercent(ValidPercent(national));
    nationalAnalysis.SetIssues([]);
    row := nationalAnalysis.ToRecord(partyOrder);
  }

  /** One row per record, in input order. */
  method RecordRows(analysis: seq<AnalyzedVotingData>, partyOrder: seq<Party>)
    returns (rows: seq<seq<Cell>>)
    requires forall i :: 0 <= i < |analysis| ==> analysis[i].issues.Some?
    ensures |rows| == |analysis|
    ensures forall i :: 0 <= i < |analysis| ==>
      rows[i] == Row(analysis[i].data, analysis[i].issues.value, analysis[i].validPercent,
                     analysis[i].settlementDistance, partyOrder)
  {
    rows := [];
    for i := 0 to |analysis|
      invariant |rows| == i
      invariant forall j :: 0 <= j < i ==>
        rows[j] == Row(analysis[j].data, analysis[j].issues.value, analysis[j].validPercent,
                       analysis[j].settlementDistance, partyOrder)
    {
      var row := analysis[i].ToRecord(partyOrder);
      rows := rows + [row];
    }
  }

  /**
   * The report rows: the national row first (its valid percentage set, no issues, no
   * distance), then one row per record in input order, all with the same party columns.
   */
  method GenerateReport(analysis: seq<AnalyzedVotingData>, national: VotingData)
    returns (partyOrder: seq<Party>, rows: seq<seq<Cell>>)
    requires forall i :: 0 <= i < |analysis| ==> analysis[i].issues.Some?
    ensures IsEnumeration(partyOrder, national.votesByParty.Keys)
    ensures SortedByVotes(partyOrder, national.votesByParty)
    ensures |rows| == |analysis| + 1
    ensures rows[0] == Row(national, [], ValidPercent(national), None, partyOrder)
    ensures forall i :: 0 <= i < |analysis| ==>
      rows[i + 1] == Row(analysis[i].data, analysis[i].issues.value, analysis[i].validPercent,
                         analysis[i].settlementDistance, partyOrder)
  {
    partyOrder := PartyOrder(national.votesByParty);
    var nationalRow := NationalRow(national, partyOrder);
    var recordRows := RecordRows(analysis, partyOrder);
    rows := [nationalRow] + recordRows;
  }
}
