/**
 * The party registry: the letter-code to party map built from the party list, and the
 * check that every party column of the ballot data names a registered party. Both
 * failures are fatal errors.
 */
module Registry {
  import opened Wrappers
  import opened Parties

  datatype RegistryError =
    | DuplicateBallot(letters: string)  // two rows of the party list share a letter code
    | MissingParty(letters: string)     // a ballot-data column names no registered party

  /** One row of the party list: a party name and its ballot letter code. */
  datatype PartyRow = PartyRow(name: string, letters: string)

  /** The index of the last fixed (non-party) column of the ballot data. */
  const LastFixedColumn: nat := 6

  predicate DistinctLetters(rows: seq<PartyRow>)
  {
    forall i, j :: 0 <= i < j < |rows| ==> rows[i].letters != rows[j].letters
  }

  function LettersOf(rows: seq<PartyRow>): set<string>
  {
    set i | 0 <= i < |rows| :: rows[i].letters
  }

  /**
   * The registry the party list defines, read row by row: every row registers its party
   * under its letter code, and the first row whose code is already registered is an error.
   */
  function BuildRegistry(rows: seq<PartyRow>): Result<map<string, Party>, RegistryError>
  {
    if rows == [] then Ok(map[])
    else
      var last := rows[|rows| - 1];
      match BuildRegistry(rows[..|rows| - 1])
      case Err(e) => Err(e)
      case Ok(m) =>
        if last.letters in m then Err(DuplicateBallot(last.letters))
        else Ok(m[last.letters := Party(last.name, last.letters)])
  }

  /** Adding a row to a list adds its code to the codes. */
  lemma LettersOfSnoc(rows: seq<PartyRow>)
    requires rows != []
    ensures LettersOf(rows) == LettersOf(rows[..|rows| - 1]) + {rows[|rows| - 1].letters}
  {
    var front := rows[..|rows| - 1];
    forall c | c in LettersOf(rows)
      ensures c in LettersOf(front) + {rows[|rows| - 1].letters}
    {
      var i :| 0 <= i < |rows| && rows[i].letters == c;
      if i < |rows| - 1 {
        assert front[i] == rows[i];
      }
    }
    forall c | c in LettersOf(front)
      ensures c in LettersOf(rows)
    {
      var i :| 0 <= i < |front| && front[i].letters == c;
      assert rows[i] == front[i];
    }
  }

  /** A row whose code is new keeps the codes of a list distinct. */
  lemma DistinctSnoc(rows: seq<PartyRow>)
    requires rows != [] && DistinctLetters(rows[..|rows| - 1])
    requires rows[|rows| - 1].letters !in LettersOf(rows[..|rows| - 1])
    ensures DistinctLetters(rows)
  {
    var front := rows[..|rows| - 1];
    forall i, j | 0 <= i < j < |rows|
      ensures rows[i].letters != rows[j].letters
    {
      assert front[i] == rows[i];
      if j < |rows| - 1 {
        assert front[j] == rows[j];
      } else {
        assert front[i].letters in LettersOf(front);
      }
    }
  }

  /**
   * The registry builds exactly when the letter codes are distinct; it then maps each code
   * of the list, and nothing else, to that row's party.
   */
  lemma {:induction false} RegistryOfDistinctRows(rows: seq<PartyRow>)
    ensures BuildRegistry(rows).Ok? <==> DistinctLetters(rows)
    ensures BuildRegistry(rows).Ok? ==> BuildRegistry(rows).value.Keys == LettersOf(rows)
    ensures BuildRegistry(rows).Ok? ==> forall i :: 0 <= i < |rows| ==>
      BuildRegistry(rows).value[rows[i].letters] == Party(rows[i].name, rows[i].letters)
  {
    if rows != [] {
      var front := rows[..|rows| - 1];
      var last := rows[|rows| - 1];
      RegistryOfDistinctRows(front);
      LettersOfSnoc(rows);
      if BuildRegistry(front).Ok? {
        var m := BuildRegistry(front).value;
        if last.letters in m {
          var i :| 0 <= i < |front| && front[i].letters == last.letters;
          assert rows[i].letters == rows[|rows| - 1].letters;
        } else {
          DistinctSnoc(rows);
          forall i | 0 <= i < |rows|
            ensures BuildRegistry(rows).value[rows[i].letters] == Party(rows[i].name, rows[i].letters)
          {
            if i < |rows| - 1 {
              assert front[i] == rows[i];
            }
          }
        }
      } else {
        var i, j :| 0 <= i < j < |front| && front[i].letters == front[j].letters;
        assert rows[i] == front[i] && rows[j] == front[j];
      }
    }
  }

  /**
   * A failed build names the code of the first row that repeats an earlier code: the rows
   * before it have distinct codes.
   */
  lemma {:induction false} RegistryNamesFirstDuplicate(rows: seq<PartyRow>)
    requires BuildRegistry(rows).Err?
    ensures exists j :: (0 <= j < |rows| && DistinctLetters(rows[..j])
      && rows[j].letters in LettersOf(rows[..j])
      && BuildRegistry(rows).error == DuplicateBallot(rows[j].letters))
  {
    var front := rows[..|rows| - 1];
    var last := rows[|rows| - 1];
    if BuildRegistry(front).Err? {
      RegistryNamesFirstDuplicate(front);
      var j :| 0 <= j < |front| && DistinctLetters(front[..j])
        && front[j].letters in LettersOf(front[..j])
        && BuildRegistry(front).error == DuplicateBallot(front[j].letters);
      assert rows[..j] == front[..j] && rows[j] == front[j];
    } else {
      RegistryOfDistinctRows(front);
      assert rows[..|rows| - 1] == front;
    }
  }

  /** Once a prefix of the list fails, the whole list fails with the same error. */
  lemma {:induction false} RegistryErrorPersists(rows: seq<PartyRow>, k: nat)
    requires k <= |rows| && BuildRegistry(rows[..k]).Err?
    ensures BuildRegistry(rows) == BuildRegistry(rows[..k])
    decreases |rows|
  {
    if k < |rows| {
      var front := rows[..|rows| - 1];
      assert front[..k] == rows[..k];
      RegistryErrorPersists(front, k);
    } else {
      assert rows[..k] == rows;
    }
  }

  /** The source's `readParties` loop over in-memory rows: put each party, fail on a repeat. */
  method ReadParties(rows: seq<PartyRow>) returns (r: Result<map<string, Party>, RegistryError>)
    ensures r == BuildRegistry(rows)
  {
    var parties: map<string, Party> := map[];
    var i := 0;
    while i < |rows|
      invariant 0 <= i <= |rows|
      invariant BuildRegistry(rows[..i]) == Ok(parties)
    {
      var row := rows[i];
      var previous := row.letters in parties;
      parties := parties[row.letters := Party(row.name, row.letters)];
      assert rows[..i + 1][..i] == rows[..i];
      if previous {
        RegistryErrorPersists(rows, i + 1);
        return Err(DuplicateBallot(row.letters));
      }
      i := i + 1;
    }
    assert rows[..i] == rows;
    r := Ok(parties);
  }

  /** Every party column of the header (those after the fixed columns) names a registered party. */
  predicate CoversColumns(parties: map<string, Party>, header: seq<string>)
  {
    forall i :: LastFixedColumn < i < |header| ==> header[i] in parties
  }

  /**
   * The source's `verifyPartyList`: scans the header columns in order, skips the fixed
   * columns 0 to 6, and fails on the first column whose name is not a registered code.
   */
  method VerifyPartyList(parties: map<string, Party>, header: seq<string>)
    returns (r: Result<(), RegistryError>)
    ensures r.Ok? <==> CoversColumns(parties, header)
    ensures r.Err? ==> exists i :: (LastFixedColumn < i < |header| && header[i] !in parties
      && r.error == MissingParty(header[i])
      && forall j :: LastFixedColumn < j < i ==> header[j] in parties)
  {
    for i := 0 to |header|
      invariant forall j :: LastFixedColumn < j < i ==> header[j] in parties
    {
      if i <= LastFixedColumn {
        continue;
      }
      if header[i] !in parties {
        return Err(MissingParty(header[i]));
      }
    }
    r := Ok(());
  }
}
