/** A party as registered in the party list: its display name and its ballot letter code. */
module Parties {

  /**
   * Both fields are fixed at construction and read back unchanged by the accessors
   * `name` and `ballot`. Equality is by value; the registry (module Registry) guarantees
   * that no two registered parties share a letter code, so keying maps by value is sound.
   */
  datatype Party = Party(name: string, ballot: string)

  /** The text form of a party: its name followed by its letter code in parentheses. */
  function Describe(p: Party): (r: string)
    ensures |r| == |p.name| + |p.ballot| + 3
    ensures r[..|p.name|] == p.name
    ensures r[|p.name|..|p.name| + 2] == " ("
    ensures r[|p.name| + 2..|r| - 1] == p.ballot
    ensures r[|r| - 1] == ')'
  {
    p.name + " (" + p.ballot + ")"
  }
}
