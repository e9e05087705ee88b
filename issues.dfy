/**
 * The advisory issues attached to a ballot box. The program keeps them as text; the model
 * keeps the numbers each message carries and renders the text with `Render`.
 */
module Issues {
  import opened Text

  /** One `name=count` entry of a switch report: a party name and its raw vote count. */
  datatype SwitchEntry = SwitchEntry(name: string, votes: int)

  datatype Issue =
    | OverSuffrage(suffrageSize: int, totalVotes: int)
    | TotalMismatch(validVotes: int, disqualifiedVotes: int, totalVotes: int)
    | PartySumMismatch(partyTotal: int, validVotes: int)
    | Switch(entries: seq<SwitchEntry>)

  /** The position of each kind of issue in a record's issue list. */
  function Rank(issue: Issue): nat
  {
    match issue
    case OverSuffrage(_, _) => 0
    case TotalMismatch(_, _, _) => 1
    case PartySumMismatch(_, _) => 2
    case Switch(_) => 3
  }

  /** The text of one switch entry, with its trailing separator. */
  function EntryText(e: SwitchEntry): string
  {
    e.name + "=" + DecimalString(e.votes) + " ; "
  }

  /** The concatenated texts of switch entries, in order. */
  function EntriesText(entries: seq<SwitchEntry>): string
  {
    if entries == [] then "" else EntryText(entries[0]) + EntriesText(entries[1..])
  }

  /** The message text of an issue (numbers without thousands separators). */
  function Render(issue: Issue): string
  {
    match issue
    case OverSuffrage(s, t) =>
      "Voting over 100%. "
      + ("Suffrage size: " + DecimalString(s) + " ; Total votes: " + DecimalString(t))
    case TotalMismatch(v, d, t) =>
      "Mismatch total votes. "
      + ("Valid + Disqualified != Total: "
         + DecimalString(v) + " + " + DecimalString(d) + " != " + DecimalString(t))
    case PartySumMismatch(p, v) =>
      "Total by party != total (" + (DecimalString(p) + " != " + DecimalString(v) + ")")
    case Switch(entries) => EntriesText(entries)
  }

  /** The message of each check starts with its own phrase, so its kind can be read off the text. */
  lemma RenderedKinds(issue: Issue)
    ensures issue.OverSuffrage? ==> "Voting over 100%. " <= Render(issue)
    ensures issue.TotalMismatch? ==> "Mismatch total votes. " <= Render(issue)
    ensures issue.PartySumMismatch? ==> "Total by party != total (" <= Render(issue)
  {
    match issue
    case OverSuffrage(s, t) =>
      var rest := "Suffrage size: " + DecimalString(s) + " ; Total votes: " + DecimalString(t);
      assert Render(issue) == "Voting over 100%. " + rest;
    case TotalMismatch(v, d, t) =>
      var rest := "Valid + Disqualified != Total: "
        + DecimalString(v) + " + " + DecimalString(d) + " != " + DecimalString(t);
      assert Render(issue) == "Mismatch total votes. " + rest;
    case PartySumMismatch(p, v) =>
      var rest := DecimalString(p) + " != " + DecimalString(v) + ")";
      assert Render(issue) == "Total by party != total (" + rest;
    case Switch(_) =>
  }

  /** The messages of a list of issues, in the same order. */
  function RenderAll(issues: seq<Issue>): (lines: seq<string>)
    ensures |lines| == |issues|
    ensures forall i :: 0 <= i < |issues| ==> lines[i] == Render(issues[i])
  {
    if issues == [] then [] else [Render(issues[0])] + RenderAll(issues[1..])
  }

  /** Switch text is built entry by entry: the text of a concatenation is the concatenated text. */
  lemma {:induction false} EntriesTextAppend(a: seq<SwitchEntry>, b: seq<SwitchEntry>)
    ensures EntriesText(a + b) == EntriesText(a) + EntriesText(b)
  {
    if a == [] {
      assert a + b == b;
    } else {
      assert (a + b)[1..] == a[1..] + b;
      EntriesTextAppend(a[1..], b);
    }
  }

  /** The text of a non-empty switch report keeps the separator after its last entry. */
  lemma {:induction false} EntriesTextEndsWithSeparator(entries: seq<SwitchEntry>)
    requires entries != []
    ensures |EntriesText(entries)| >= 3
    ensures EntriesText(entries)[|EntriesText(entries)| - 3..] == " ; "
  {
    var last := entries[|entries| - 1];
    var front := entries[..|entries| - 1];
    assert entries == front + [last];
    EntriesTextAppend(front, [last]);
    assert EntriesText([last]) == EntryText(last) + EntriesText([]);
  }
}
