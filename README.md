# Ballot-box analysis of the April 2019 Israeli election results

This project models the core of a small Java program that checks the published results
of the April 2019 Knesset election for anomalies, and proves properties of that model
in Dafny.

The program works in these steps:

1. It reads a party registry that maps each ballot letter code to a party.
2. It reads one voting record per ballot box. A record holds the settlement, the
   settlement symbol, the ballot-box id, four counts (suffrage size, total votes,
   disqualified votes, valid votes) and a vote count per party.
3. It sums all the records into a national record.
4. It attaches issues to every ballot box:
   - turnout over the suffrage size;
   - totals that do not add up;
   - party votes that do not add up to the valid votes;
   - a suspected "switch", where a party that is fringe nationally is strong locally
     while a party that is major nationally almost vanishes.
5. It scores every ballot box of a settlement with at least five ballot boxes. The score
   is the sum of squared differences between the box's party shares and the
   settlement's shares.
6. It lays out one report row per ballot box, after a national row. Party columns are
   ordered by national votes.

The modules follow the program's classes:

- `Parties`: the party value.
- `MapSums`: sums over party-keyed maps, independent of iteration order.
- `Voting`: the voting record with normalisation, `combine` and the simple issue checks.
- `Issues`: issue values and their message text.
- `Text`: decimal numerals, and line joining and splitting.
- `Registry`: reading the party registry and checking the CSV header against it.
- `Wildcard`: the wildcard-to-regex translation and the regex subset it produces.
- `Aggregation`: `countVotes`.
- `Switches`: `checkForSwitches`.
- `SettlementScore`: `getSumSquareDist`.
- `Analyzed`: the mutable per-ballot-box analysis object and its report row.
- `Analysis`: the passes over all ballot boxes and the report layout.

Notes on how the model reads the source:

- The Java maps are `HashMap`s, so their iteration order is unspecified. Where an order
  shows in the result, it is a parameter constrained to enumerate the keys exactly once.
- A Java `null` dereference is a precondition, and a lemma shows when it holds. Examples:
  a party missing from the national share map, issues never set, a ballot party missing
  from the settlement total.
- Thrown exceptions become `Result` errors.

`toWildcard` turns `?` into the regex `.?`, which matches zero or one character
(`Analyze.java` line 224; `Wildcard.QuestionMarkMatches`). It turns `*` into `.*?`. Like
every `.`, neither matches a line terminator.

Both wildcard filters of `countVotes` test the ballot-box id, including the one given the
settlement-symbol pattern. `Aggregation.SymbolFilterTestsBallotBoxId` exhibits this. Every
call in the program passes `*`. That keeps every record whose ballot-box id has no line
terminator (`Wildcard.StarMatches`, `Aggregation.CountAllVotes`).

## Model

| member | source | states |
|---|---|---|
| `Parties.Describe` | src/main/java/Party.java:19-22 | The text is the name, then " (", the ballot letters, then ")", and has exactly that length |
| `MapSums.SumIntRemove` | src/main/java/VotingData.java:29 | The sum of a vote map is any entry plus the sum of the rest, so the hash-map iteration order does not change it |
| `MapSums.SumIntBoundsEntries` | src/main/java/VotingData.java:29 | Non-negative counts have a non-negative sum that bounds every entry |
| `Voting.Normalize` | src/main/java/VotingData.java:29-35 | The shares have the parties as keys when the party sum is positive and are empty otherwise; each share times the sum is the party's count |
| `Voting.SumVotes` | src/main/java/VotingData.java:112 | The stream sum of the party counts equals the order-free sum |
| `Voting.NormalizeVotes` | src/main/java/VotingData.java:29-35 | The constructor's loop yields exactly the normalised shares |
| `Voting.SumOfDividedCounts` | src/main/java/VotingData.java:29-34 | A map holding each count divided by the same non-zero divisor sums to the party sum divided by it |
| `Voting.NormalizedSharesSumToOne` | src/main/java/VotingData.java:15-16 | With a positive party sum the shares add up to 1 |
| `Voting.NormalizedShareBounds` | src/main/java/VotingData.java:31-34 | With non-negative counts every share lies in [0, 1] |
| `Voting.NormalizedKeysCovered` | src/main/java/VotingData.java:31-34 | A record whose parties and party sum are within another's has its shares keyed within the other's shares |
| `Voting.AddPartyVotes` | src/main/java/VotingData.java:89-95 | The put/getOrDefault loop adds the record's counts into the map, party by party |
| `Voting.UnionSumVotes` | src/main/java/VotingData.java:93 | In the merged map, a party's count is the sum of its counts in both maps, with 0 for a missing party |
| `Voting.SumIntUnion` | src/main/java/VotingData.java:75-77 | The merged map's party sum is the sum of both party sums |
| `Voting.CombineRecords` | src/main/java/VotingData.java:74-87 | `combine` builds the combined record: labels of the first record, summed counts, merged party votes |
| `Voting.CombineAssociative` | src/main/java/VotingData.java:74-87 | `combine` is associative, so a stream reduction may group the records in any way |
| `Voting.CombineCommutesInTally` | src/main/java/VotingData.java:79-84 | Swapping the arguments keeps the counts and party votes; the labels always come from the first record |
| `Voting.CombineWithZero` | src/main/java/VotingData.java:74-87 | A zero record is a right identity, and a left identity for the counts and votes |
| `Voting.CombineKeepsCountsAddingUp` | src/main/java/VotingData.java:80-84 | Combining consistent records gives a consistent record |
| `Voting.SimpleIssuesFollowChecks` | src/main/java/VotingData.java:101-118 | At most three issues in fixed order. Each issue appears exactly when its check fails: over-suffrage only when a suffrage size exists, total mismatch, party-sum mismatch. The list is empty exactly when the record is consistent |
| `Voting.GetSimpleIssues` | src/main/java/VotingData.java:101-118 | The method appends exactly the issues of `SimpleIssues` |
| `Issues.RenderedKinds` | src/main/java/VotingData.java:105-114 | Each check's message (`Issues.Render`) starts with its own phrase: "Voting over 100%. ", "Mismatch total votes. ", "Total by party != total (" |
| `Issues.EntriesTextAppend` | src/main/java/Analyze.java:147-150 | The switch text of two entry lists in a row is the text of the first followed by the text of the second |
| `Issues.EntriesTextEndsWithSeparator` | src/main/java/Analyze.java:156-158 | A non-empty switch text ends with the " ; " separator of its last entry |
| `Text.DigitsRoundTrip` | src/main/java/Analyze.java:157 | The decimal text of a count parses back to the count |
| `Text.JoinThenSplit` | src/main/java/AnalyzedVotingData.java:54 | Joining lines without line breaks by "\n" and splitting again gives the lines back |
| `Registry.RegistryOfDistinctRows` | src/main/java/Analyze.java:250-257 | Reading succeeds exactly when the ballot letters are distinct. The registry is then keyed by exactly those letters, and each maps to its row's party |
| `Registry.RegistryNamesFirstDuplicate` | src/main/java/Analyze.java:253-256 | A failure names the letters of the first row whose letters repeat an earlier row's |
| `Registry.RegistryErrorPersists` | src/main/java/Analyze.java:254-256 | Once a prefix of the rows fails, reading stops there with that error |
| `Registry.ReadParties` | src/main/java/Analyze.java:245-260 | The row loop computes the registry or the duplicate error |
| `Registry.VerifyPartyList` | src/main/java/Analyze.java:193-204 | Success exactly when every header column past the sixth is a registered letter code; a failure names such an unregistered column |
| `Wildcard.ToWildcardReadsAsGlob` | src/main/java/Analyze.java:223-225 | For a pattern without other regex metacharacters, the translated regex parses to one atom per pattern character: `?` an optional character, `*` a lazy run, anything else a literal |
| `Wildcard.StarMatches` | src/main/java/Analyze.java:223-225 | The pattern `*` matches exactly the strings without a line terminator |
| `Wildcard.QuestionMarkMatches` | src/main/java/Analyze.java:223-225 | The pattern `?` matches exactly the strings of at most one character that is not a line terminator |
| `Wildcard.ToWildcard` | src/main/java/Analyze.java:223-225 | The translation works character by character: `*` becomes `.*?`, `?` becomes `.?`, every other character stays |
| `Wildcard.WildcardMatches` | src/main/java/Analyze.java:218-219 | For a pattern without other regex metacharacters, a string matches exactly when it matches the glob reading of the pattern |
| `Aggregation.FilterRecords` | src/main/java/Analyze.java:218-219 | A record is kept exactly when its ballot-box id matches the pattern, or there is no pattern, and the result is no longer than the input |
| `Aggregation.FilterMultiplicity` | src/main/java/Analyze.java:218-219 | Each record that passes the filter appears in the result as often as in the input; the others do not appear |
| `Aggregation.FoldTotals` | src/main/java/Analyze.java:216-220 | The reduction keeps the base labels, adds every count of every record to the base, and adds the records' party votes to the base's |
| `Aggregation.VotesOfParty` | src/main/java/Analyze.java:217-220 | A party's count in the summed votes is the sum of its counts over the records |
| `Aggregation.VotesOfPartyTotal` | src/main/java/Analyze.java:217-220 | The party sum of the summed votes is the sum of the records' party sums |
| `Aggregation.VotesOfCovers` | src/main/java/Analyze.java:217-220 | With non-negative counts, the summed votes cover every record's parties, and their party sum is at least each record's |
| `Aggregation.FoldCoversShares` | src/main/java/Analyze.java:96-99 | With non-negative counts, every party with a share in a ballot box has a share in the total of its group |
| `Aggregation.FilterKeepsAll` | src/main/java/Analyze.java:218-219 | A filter that every record passes keeps the list unchanged |
| `Aggregation.CountVotes` | src/main/java/Analyze.java:214-221 | The count is labelled with the settlement and the two patterns, and holds every count and the party votes summed over the records that pass both filters |
| `Aggregation.CountedRecords` | src/main/java/Analyze.java:216-220 | The records the count sums are those that pass both filters, each as often as it is listed |
| `Aggregation.CountAllVotes` | src/main/java/Analyze.java:35 | Counting with `*`, `*` sums all records whose ballot-box ids have no line terminator |
| `Aggregation.SymbolFilterTestsBallotBoxId` | src/main/java/Analyze.java:218 | The symbol pattern is matched against the ballot-box id: a record of symbol 5000 and box 1 is not counted under symbol pattern 5000 |
| `Switches.HighFringe` | src/main/java/Analyze.java:135-137 | Exactly the parties with a local share over 0.05 and a national share under 0.01 are selected |
| `Switches.LowMajor` | src/main/java/Analyze.java:140-142 | Exactly the parties with a local share under 0.001 and a national share over 0.2 are selected |
| `Switches.HighFringeInOrder` | src/main/java/Analyze.java:135-137 | The high-fringe list is a subsequence of the iteration order |
| `Switches.HighFringeCounts` | src/main/java/Analyze.java:135-137 | Each qualifying party appears in the high-fringe list as often as in the iteration order, and no other party appears |
| `Switches.LowMajorInOrder` | src/main/java/Analyze.java:140-142 | The low-major list is a subsequence of the iteration order |
| `Switches.LowMajorCounts` | src/main/java/Analyze.java:140-142 | Each qualifying party appears in the low-major list as often as in the iteration order, and no other party appears |
| `Switches.SelectionsListOnce` | src/main/java/Analyze.java:135-142 | Over the iteration order of the share map, each list holds every qualifying party exactly once, and nothing else, in iteration order |
| `Switches.FringeAndMajorDisjoint` | src/main/java/Analyze.java:135-142 | No party is in both lists |
| `Switches.ThresholdsByCounts` | src/main/java/Analyze.java:136-141 | The share thresholds read as integer comparisons of counts against the party sums |
| `Switches.SelectionsNonEmpty` | src/main/java/Analyze.java:135-141 | Each filtered list is non-empty exactly when some party of the ballot box passes its filter |
| `Switches.SwitchIssueWhenBothKinds` | src/main/java/Analyze.java:144-153 | At most one issue, which is a switch issue. It exists exactly when some party is high-fringe and some party is low-major |
| `Switches.EntriesForAppend` | src/main/java/Analyze.java:148-149 | The entries for two party lists in a row are the entries of the first followed by those of the second |
| `Switches.AppendEntries` | src/main/java/Analyze.java:148 | The forEach appends one name/count entry per party, in order |
| `Switches.CheckForSwitches` | src/main/java/Analyze.java:132-154 | The method returns exactly the switch issues: high-fringe entries, then low-major entries |
| `SettlementScore.GetSumSquareDist` | src/main/java/Analyze.java:88-102 | The loop over the ballot's shares adds up the squared share differences against the settlement shares |
| `SettlementScore.SquareDistOfEqualShares` | src/main/java/Analyze.java:95-101 | The score is never negative, and it is zero when every share equals the settlement's |
| `SettlementScore.EmptyBallotScoresZero` | src/main/java/Analyze.java:88-102 | A ballot box with no positive party sum has no shares and scores zero |
| `SettlementScore.NormalizeTimes` | src/main/java/VotingData.java:29-35 | Multiplying every count by a positive factor keeps the shares |
| `SettlementScore.VotesOfCopies` | src/main/java/VotingData.java:74-87 | The merged vote maps of n records that all have the same party votes are those votes times n |
| `SettlementScore.FoldOfCopies` | src/main/java/Analyze.java:66-68 | Summing n records that all have the same party votes into the empty settlement total gives each party n times its count |
| `SettlementScore.IdenticalBallotsScoreZero` | src/main/java/Analyze.java:66-73 | In a settlement whose boxes all have the same party votes, whatever their ids, each box has the settlement's shares and scores zero |
| `Analyzed.ValidPercent` | src/main/java/Analyze.java:160-162 | The percentage is not finite exactly when the total is zero |
| `Analyzed.ValidPercentBounds` | src/main/java/Analyze.java:160-162 | With valid votes between zero and a non-zero total, the percentage is between 0 and 100 |
| `Analyzed.InvalidPercent` | src/main/java/AnalyzedVotingData.java:52 | The invalid percentage is finite exactly when the valid one is, and the two add up to 100 |
| `Analyzed.InvalidPercentIsDisqualifiedShare` | src/main/java/AnalyzedVotingData.java:52 | When the total is disqualified plus valid, the invalid percentage is the disqualified share of the total |
| `Analyzed.DistanceCell` | src/main/java/AnalyzedVotingData.java:53 | The cell is empty exactly when there is no score, and otherwise holds the score |
| `Analyzed.PartyCells` | src/main/java/AnalyzedVotingData.java:55-57 | One cell per party of the order, holding the party's count or 0 |
| `Analyzed.RowLayout` | src/main/java/AnalyzedVotingData.java:43-59 | Row layout: the 3 labels, the 4 counts, the invalid percentage, the distance (empty when unset), the issues joined by line breaks, then one count per party |
| `Analyzed.IssueLinesSplit` | src/main/java/AnalyzedVotingData.java:54 | Rendered issues without line breaks, at least one of them, survive joining with line breaks and splitting again |
| `Analyzed.IssuesCellSplits` | src/main/java/AnalyzedVotingData.java:54 | With at least one issue and no line break inside any message, the issues cell splits back into the messages |
| `Analyzed.AnalyzedVotingData.constructor` | src/main/java/AnalyzedVotingData.java:5-12 | A new analysis holds the record, no issues, a valid percentage of 0 and no distance |
| `Analyzed.AnalyzedVotingData.SetIssues` | src/main/java/AnalyzedVotingData.java:27-29 | Sets the issues and leaves the other fields unchanged |
| `Analyzed.AnalyzedVotingData.SetValidPercent` | src/main/java/AnalyzedVotingData.java:31-33 | Sets the valid percentage and leaves the other fields unchanged |
| `Analyzed.AnalyzedVotingData.SetSettlementDistanceRatio` | src/main/java/AnalyzedVotingData.java:39-41 | Sets the distance and leaves the other fields unchanged |
| `Analyzed.AnalyzedVotingData.ToRecord` | src/main/java/AnalyzedVotingData.java:43-59 | The method builds exactly the row layout of `Row` from the current fields |
| `Analysis.Enumerate` | src/main/java/Analyze.java:135-136 | The iteration over a hash map's entries lists every key exactly once |
| `Analysis.FillRecordIssues` | src/main/java/Analyze.java:105-113 | One ballot box gets the simple issues followed by the switch issues, and its valid percentage; its distance is unchanged |
| `Analysis.FillIssues` | src/main/java/Analyze.java:104-124 | Every ballot box gets its issues and valid percentage; no distance changes |
| `Analysis.Datas` | src/main/java/Analyze.java:66 | The records of the analyses, in order |
| `Analysis.SettlementTotal` | src/main/java/Analyze.java:66-68 | The settlement total is labelled `*`, `*`, `*`; when the ids have no line terminator it sums every record of the settlement |
| `Analysis.Group` | src/main/java/Analyze.java:54-55 | A settlement's group holds exactly the records with that symbol, each as often as in the input, so its length is the number of the settlement's boxes |
| `Analysis.DistanceAfterOutcome` | src/main/java/Analyze.java:62-77 | A box of a settlement with fewer than five boxes keeps its distance; otherwise it gets a non-negative score |
| `Analysis.ScoresDefinedForPlainRecords` | src/main/java/Analyze.java:68-73 | With non-negative counts and ballot-box ids without line terminators, every box that is scored can be scored |
| `Analysis.EqualVotesScoreZero` | src/main/java/Analyze.java:62-77 | A scored box whose settlement's boxes all have its party votes, with ids without line terminators, gets a distance of exactly 0 |
| `Analysis.NationalSharesDefined` | src/main/java/Analyze.java:35-39 | With non-negative counts and ids without line terminators, every party of every box has a share in the national total, so the issue pass never reads a missing share |
| `Analysis.ScoreRecord` | src/main/java/Analyze.java:73-77 | One box gets its score against the settlement total; the other fields are unchanged |
| `Analysis.ScoreSettlement` | src/main/java/Analyze.java:71-78 | Every box of the settlement gets its score; boxes of other settlements keep their distance |
| `Analysis.ScoreSymbol` | src/main/java/Analyze.java:58-78 | One round of the settlement pass: with at least five boxes, every box of the settlement gets its score against the settlement total; with fewer, and for boxes of other settlements, the distance is unchanged; issues and percentages are unchanged |
| `Analysis.CheckBySettlement` | src/main/java/Analyze.java:52-80 | Every box of a settlement with at least five boxes gets its score against the settlement total; every other box keeps its distance; issues and percentages are unchanged |
| `Analysis.MostVotesExists` | src/main/java/Analyze.java:280-282 | Every non-empty set of parties has a party with the most votes |
| `Analysis.PartyOrder` | src/main/java/Analyze.java:280-284 | The party order lists every national party once, by non-increasing national votes |
| `Analysis.NationalRow` | src/main/java/Analyze.java:294-297 | The national row has no issues, the national valid percentage and no distance |
| `Analysis.RecordRows` | src/main/java/Analyze.java:298-300 | One row per analysis, in order, each laid out from that analysis's fields |
| `Analysis.GenerateReport` | src/main/java/Analyze.java:262-302 | The report is the national row followed by one row per ballot box, with the party columns in national vote order |

## Left out

- Reading the CSV files (resources, byte-order mark, ISO-8859-8 and UTF-8 decoding, header parsing) and writing the report file with its Hebrew headers. Each is I/O. The parsed rows, the header, and the laid-out rows are values of the model. `readAllBallots` is not part of this model beyond this.
- Console output (`displayVotes`, the progress prints, the issue listing in `fillIssues`, the key-mismatch message and the distance-over-0.5 message of the scoring pass). These are prints with no effect on the results.
- Number formatting: `%,d` thousands grouping in issue messages, and `%.2f%%` and `%.3f` in report cells. Cells hold the unformatted numbers, and issue messages print counts as plain decimals.
- Double arithmetic. Shares, percentages and distances are exact reals. A division by a zero total, which gives NaN or an infinity in Java, is the single value `NotFinite`.
- Java `int` overflow of the summed counts. Counts are unbounded integers.
- Regex metacharacters other than `*` and `?` in a wildcard pattern. The matcher covers literals, `.?` and `.*?`, the only regexes the translation produces from such patterns.
- The order of hash-map iteration and of equal vote counts in the sort. Both are left open: the model constrains the order without fixing it.
- `main`, its sequencing of the passes and its catch-all exception handler.
- The cached normalised map of a record. The model recomputes it from the votes wherever it is read.
- A null label when a pattern is null. It is modelled as an empty string. The program never passes a null pattern.
- Object identity of `Party` and of analysis objects. Parties are compared by value. Analysis objects may alias, and the passes are proved without assuming they are distinct.
- SettlementScore.SquareDistOfEqualShares: the converse, that a zero score implies equal shares, is not proved. It needs positivity of non-zero real squares, which the solver does not establish in this setting.
- Switches.SwitchIssueWhenBothKinds: the order of the entries (high-fringe parties first, then low-major) is stated by `Switches.CheckForSwitches` and `Switches.EntriesForAppend`, not by this lemma.
