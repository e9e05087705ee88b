/**
 * The per-ballot-box analysis wrapper: an immutable tally plus the three results that the
 * analysis passes store into it, and the report row it renders.
 */
module Analyzed {
  import opened Wrappers
  import opened Parties
  import opened Voting
  import opened Issues
  import opened Text

  /**
   * A double-precision percentage: a finite value, or the NaN/infinity that a division by a
   * zero total produces. Finite values are exact reals here.
   */
  datatype Percent = Finite(value: real) | NotFinite

  /** The share of valid votes among all votes, in percent. */
  function ValidPercent(v: VotingData): (r: Percent)
    ensures r.NotFinite? <==> v.totalVotes == 0
  {
    if v.totalVotes == 0 then NotFinite
    else Finite(100.0 * v.validVotes as real / v.totalVotes as real)
  }

  /** With 0 <= valid <= total, the valid percentage lies between 0 and 100. */
  lemma ValidPercentBounds(v: VotingData)
    requires 0 <= v.validVotes <= v.totalVotes && v.totalVotes != 0
    ensures 0.0 <= ValidPercent(v).value <= 100.0
  {
    var t := v.totalVotes as real;
    var x := 100.0 * v.validVotes as real;
    assert x <= 100.0 * t;
    assert x / t <= (100.0 * t) / t;
  }

  /** The report's "invalid percent" column: 100 minus the valid percentage. */
  function InvalidPercent(valid: Percent): (r: Percent)
    ensures r.Finite? <==> valid.Finite?
    ensures r.Finite? ==> r.value + valid.value == 100.0
  {
    match valid
    case Finite(x) => Finite(100.0 - x)
    case NotFinite => NotFinite
  }

  /**
   * When the total is the sum of the disqualified and the valid votes, the invalid
   * percentage is the disqualified votes' share of the total.
   */
  lemma InvalidPercentIsDisqualifiedShare(v: VotingData)
    requires v.totalVotes == v.disqualifiedVotes + v.validVotes && v.totalVotes != 0
    ensures InvalidPercent(ValidPercent(v)).value
         == 100.0 * v.disqualifiedVotes as real / v.totalVotes as real
  {
    var t := v.totalVotes as real;
    var a := 100.0 * v.validVotes as real;
    var b := 100.0 * v.disqualifiedVotes as real;
    assert a + b == 100.0 * t;
    assert (a + b) / t == a / t + b / t;
    assert (100.0 * t) / t == 100.0;
  }

  /** One cell of a report row, before number formatting. */
  datatype Cell =
    | Str(text: string)
    | Count(count: int)
    | Percentage(percent: Percent)
    | Distance(distance: real)

  /** The distance column: empty text for a ballot box that was not scored. */
  function DistanceCell(distance: Option<real>): (c: Cell)
    ensures c == Str("") <==> distance.None?
    ensures distance.Some? ==> c == Distance(distance.value)
  {
    match distance
    case None => Str("")
    case Some(d) => Distance(d)
  }

  /** The vote cells, one per party of `order`, 0 for a party without an entry. */
  function PartyCells(votes: map<Party, int>, order: seq<Party>): (cells: seq<Cell>)
    ensures |cells| == |order|
    ensures forall k :: 0 <= k < |order| ==> cells[k] == Count(VotesFor(votes, order[k]))
  {
    if order == [] then [] else PartyCells(votes, order[..|order| - 1]) + [Count(VotesFor(votes, order[|order| - 1]))]
  }

  /** The ten fixed columns of a row, without the party columns. */
  function FixedCells(data: VotingData, issues: seq<Issue>, validPercent: Percent,
                      distance: Option<real>): (cells: seq<Cell>)
    ensures |cells| == 10
  {
    [ Str(data.settlement), Str(data.symbol), Str(data.ballotBoxId),
      Count(data.suffrageSize), Count(data.totalVotes), Count(data.disqualifiedVotes),
      Count(data.validVotes), Percentage(InvalidPercent(validPercent)),
      DistanceCell(distance), Str(JoinLines(RenderAll(issues))) ]
  }

  /** A whole report row: the fixed columns, then one vote column per party of `order`. */
  function Row(data: VotingData, issues: seq<Issue>, validPercent: Percent,
               distance: Option<real>, order: seq<Party>): seq<Cell>
  {
    FixedCells(data, issues, validPercent, distance) + PartyCells(data.votesByParty, order)
  }

  /**
   * The row layout: the three labels, the four counts, the invalid percentage, the distance
   * (empty when unset), the issues joined by line breaks, then one count per party.
   */
  lemma RowLayout(data: VotingData, issues: seq<Issue>, validPercent: Percent,
                  distance: Option<real>, order: seq<Party>)
    ensures var row := Row(data, issues, validPercent, distance, order);
      && |row| == 10 + |order|
      && row[0] == Str(data.settlement) && row[1] == Str(data.symbol)
      && row[2] == Str(data.ballotBoxId)
      && row[3] == Count(data.suffrageSize) && row[4] == Count(data.totalVotes)
      && row[5] == Count(data.disqualifiedVotes) && row[6] == Count(data.validVotes)
      && row[7] == Percentage(InvalidPercent(validPercent))
      && (row[8] == Str("") <==> distance.None?)
      && row[9] == Str(JoinLines(RenderAll(issues)))
      && forall k :: 0 <= k < |order| ==> row[10 + k] == Count(VotesFor(data.votesByParty, order[k]))
  {
    var fixed := FixedCells(data, issues, validPercent, distance);
    var parties := PartyCells(data.votesByParty, order);
    var row := fixed + parties;
    assert Row(data, issues, validPercent, distance, order) == row;
    forall k | 0 <= k < |order|
      ensures row[10 + k] == Count(VotesFor(data.votesByParty, order[k]))
    {
      assert row[10 + k] == parties[k];
    }
  }

  /** The issues column of a row holds the rendered issues joined by line breaks. */
  lemma IssuesCell(data: VotingData, issues: seq<Issue>, validPercent: Percent,
                   distance: Option<real>, order: seq<Party>)
    ensures Row(data, issues, validPercent, distance, order)[9] == Str(JoinLines(RenderAll(issues)))
  {
    var fixed := FixedCells(data, issues, validPercent, distance);
    assert Row(data, issues, validPercent, distance, order) == fixed + PartyCells(data.votesByParty, order);
  }

  /**
   * The issues column splits back into the rendered issues when there is at least one issue
   * and no rendered issue contains a line break.
   */
  lemma IssuesCellSplits(data: VotingData, issues: seq<Issue>, validPercent: Percent,
                         distance: Option<real>, order: seq<Party>)
    requires |issues| >= 1
    requires forall i :: 0 <= i < |issues| ==> '\n' !in Render(issues[i])
    ensures SplitLines(Row(data, issues, validPercent, distance, order)[9].text) == RenderAll(issues)
  {
    IssuesCell(data, issues, validPercent, distance, order);
    IssueLinesSplit(issues);
  }

  /** Rendered issues without line breaks survive being joined into one cell and split again. */
  lemma IssueLinesSplit(issues: seq<Issue>)
    requires |issues| >= 1
    requires forall i :: 0 <= i < |issues| ==> '\n' !in Render(issues[i])
    ensures SplitLines(JoinLines(RenderAll(issues))) == RenderAll(issues)
  {
    JoinThenSplit(RenderAll(issues));
  }

  /** The mutable analysis record of one ballot box. */
  class AnalyzedVotingData {
    /** The tally, fixed at construction. */
    const data: VotingData
    /** The issues found; absent until the issue pass sets them. */
    var issues: Option<seq<Issue>>
    /** The valid-vote percentage; a double field starts at 0. */
    var validPercent: Percent
    /** The settlement outlier score; absent until the settlement pass sets it. */
    var settlementDistance: Option<real>

    constructor(data: VotingData)
      ensures this.data == data
      ensures issues == None && validPercent == Finite(0.0) && settlementDistance == None
    {
      this.data := data;
      issues := None;
      validPercent := Finite(0.0);
      settlementDistance := None;
    }

    method SetIssues(issues: seq<Issue>)
      modifies this
      ensures this.issues == Some(issues)
      ensures validPercent == old(validPercent) && settlementDistance == old(settlementDistance)
    {
      this.issues := Some(issues);
    }

    method SetValidPercent(validPercent: Percent)
      modifies this
      ensures this.validPercent == validPercent
      ensures issues == old(issues) && settlementDistance == old(settlementDistance)
    {
      this.validPercent := validPercent;
    }

    method SetSettlementDistanceRatio(distance: Option<real>)
      modifies this
      ensures settlementDistance == distance
      ensures issues == old(issues) && validPercent == old(validPercent)
    {
      settlementDistance := distance;
    }

    /**
     * Lays out the report row, appending one vote cell per party of `partiesOrder`.
     * Joining absent issues would be a null dereference, hence the precondition.
     */
    method ToRecord(partiesOrder: seq<Party>) returns (row: seq<Cell>)
      requires issues.Some?
      ensures row == Row(data, issues.value, validPercent, settlementDistance, partiesOrder)
    {
      row := [ Str(data.settlement), Str(data.symbol), Str(data.ballotBoxId),
               Count(data.suffrageSize), Count(data.totalVotes), Count(data.disqualifiedVotes),
               Count(data.validVotes), Percentage(InvalidPercent(validPercent)),
               DistanceCell(settlementDistance), Str(JoinLines(RenderAll(issues.value))) ];
      var fixed := row;
      for k := 0 to |partiesOrder|
        invariant row == fixed + PartyCells(data.votesByParty, partiesOrder[..k])
      {
        assert partiesOrder[..k + 1][..k] == partiesOrder[..k];
        row := row + [Count(VotesFor(data.votesByParty, partiesOrder[k]))];
      }
      assert partiesOrder[..|partiesOrder|] == partiesOrder;
    }
  }
}
