# Nepal election backend — a verified model of its record handling

This project models the logic of an Express/Mongoose backend that stores
constituency results, candidates, districts and elections for a Nepali
general election, and broadcasts changes to live subscribers. The database
collections are sequences of documents. The socket broadcast is an
append-only event log on the store class `Store.Database`. The modules
follow the source's controllers:

- `Common`, `Text`, `ObjectIds`, `Collections`, `Models`: optional values,
  HTTP replies, ASCII string helpers, the 24-hex-digit ObjectId cast, a
  stable sort with a filter and a limit, and one datatype per schema.
- `ResultController`: the keyed upsert behind `createResult` (as values),
  the by-district and live views, and the `getNationalSummary` seat fold.
  The fold is a `method` with a loop, like the source's `forEach`.
- `CandidateController`: the filter built from query parameters, the
  ordered listings, the lookup by id, and how a body becomes or patches a
  candidate.
- `Store`: the class whose methods `CreateResult`, `CreateCandidate`,
  `UpdateCandidate` and `DeleteCandidate` change the stored collections and
  append exactly one event for each request that succeeds.
- `DistrictController`: how `getDistrict` and `getDistrictResults` resolve
  an id, either as an ObjectId or as a district name.
- `ElectionController`: the current-election priority rule, the listing by
  year, and get/create/update/delete by id, over the election collection
  as a value.
- `Seed`: the deterministic part of the seed script. This covers the voter
  totals, the district and party documents, and the candidate grid built by
  nested loops. It also covers the result derived for each leading candidate.

Clocks, `Math.random`, the ids the database assigns and the exceptions it
raises are all inputs:

- a timestamp `now`, or a clock `now: nat -> int` read once per result by
  the seed script;
- `rand: nat -> real` with values in [0, 1);
- id functions `nat -> ObjectId`;
- a `Fault` that says whether a write fails before or after it reaches the
  collection.

The result submission path does not validate its payload. It stores
winner, runner-up, margin and tallies exactly as submitted; none of them
is derived from the tallies. The upsert is not atomic: it looks the key up
and then writes. `lastUpdated` has a default only on creation, so an
update that omits it keeps the old value
(`ResultController.UpsertStoresAsSupplied`).

## Model

| member | source | states |
|---|---|---|
| Text.AllHex | src/controllers/districtController.js:24 | true exactly when every character is one of `[0-9a-fA-F]` |
| Text.EqualsIgnoreCase | src/controllers/districtController.js:29 | true exactly when both strings have the same length and agree at every position after ASCII lower-casing |
| Text.EqualsIgnoreCaseIsLowerEquality | src/controllers/districtController.js:29 | case-insensitive equality is equality of the lower-cased strings |
| Text.ParseDecimal | src/controllers/candidateController.js:14 | a number exactly for a non-empty string of decimal digits, and that number is non-negative |
| Text.ParseDecimalAppend | src/controllers/candidateController.js:14 | appending a digit multiplies the value by ten and adds the digit, so the number is the decimal value of the string |
| Text.Decimal | src/controllers/candidateController.js:14 | the numeral of a number is a non-empty string of digits |
| Text.ParseDecimalOfDecimal | src/controllers/candidateController.js:14 | parsing the numeral of any number gives that number back |
| Text.LexLeTotal | src/controllers/candidateController.js:20 | any two names are ordered one way or the other by the name sort |
| Text.LexLeTransitive | src/controllers/candidateController.js:20 | the name order is transitive |
| Text.LexLeAntisymmetric | src/controllers/candidateController.js:20 | names ordered both ways are equal |
| ObjectIds.Cast | src/controllers/candidateController.js:51 | an id casts exactly when it is 24 hex digits; the cast is lower-case hex and equal to the input ignoring case |
| ObjectIds.CastCanonical | src/controllers/candidateController.js:51 | a cast id is canonical and casts to itself |
| ObjectIds.CastIgnoresCase | src/controllers/candidateController.js:51 | two spellings of an id that differ only in letter case cast to the same ObjectId |
| ObjectIds.CastPath | src/controllers/candidateController.js:83 | a reference path of a body is stored exactly when it is present and casts, as its canonical cast |
| Collections.FirstIndex | src/controllers/candidateController.js:51 | the position of the first document that matches, or none exactly when no document matches |
| Collections.FilterAppend | src/utils/seed.js:103 | filtering keeps the input order: the filter of a concatenation is the concatenation of the filters |
| Collections.SortSorted | src/controllers/electionController.js:8 | the sort used for `sort(...)` orders its output under any total preorder; `Sort` keeps the same multiset |
| Collections.TakeLeavesLater | src/controllers/resultController.js:71-72 | a limit on a sorted list keeps a sub-multiset, and nothing left out comes before the last element kept |
| Models.FindCandidate | src/controllers/candidateController.js:51 | the first candidate with the id, or none when no candidate has it |
| Models.FindParty | src/controllers/resultController.js:88-91 | a stored party with the id, or none when no party has it |
| ResultController.BodyKey | src/controllers/resultController.js:38 | the lookup key exists exactly when the body's district is 24 hex digits; it carries the body's constituency and year |
| ResultController.FindByKey | src/controllers/resultController.js:40 | the first stored result with that key, or none when no result has it |
| ResultController.Upsert | src/controllers/resultController.js:40-51 | the written record is inside the new table |
| ResultController.UpsertKeyCount | src/controllers/resultController.js:38-51 | creates exactly when no record has the key; the table grows by one then and keeps its size otherwise; the key then has exactly one record, and every other key keeps its count |
| ResultController.UpsertKeepsKeysUnique | src/controllers/resultController.js:40-51 | sequential submissions never give a key a second record |
| ResultController.UpsertStoresAsSupplied | src/controllers/resultController.js:43-51 | every path of the written record: a present path as supplied (references and tally candidates as their casts); on creation an absent path is empty and `lastUpdated` is now; on update an absent path keeps the stored value; every other record is untouched |
| ResultController.ResubmissionChangesNothing | src/controllers/resultController.js:40-51 | submitting the same body again is an update that leaves the table unchanged |
| ResultController.ResultsByDistrict | src/controllers/resultController.js:22-31 | 500 for an id that does not cast; otherwise exactly the stored results (with multiplicity) whose district is that id |
| ResultController.NewerFirstIsTotalPreorder | src/controllers/resultController.js:71 | descending `lastUpdated` is a total preorder |
| ResultController.LiveResults | src/controllers/resultController.js:68-80 | at most 10 stored results, exactly 10 when at least 10 are stored, newest first, and no omitted result is newer than the last one returned |
| ResultController.WinnerParty | src/controllers/resultController.js:87-91 | the populated winner party is a stored party that is the party of the winning candidate; none when there is no winner, and none with a winner only when that candidate has no party or names no stored party |
| ResultController.IndexOfName | src/controllers/resultController.js:105 | the entry keyed by a party name, or none when there is none |
| ResultController.GetNationalSummary | src/controllers/resultController.js:85-119 | the loop computes the summary fold: 275 seats, `counted` = number of results, and one seat per result whose winner has a party, under that party's name |
| ResultController.SeatsPerName | src/controllers/resultController.js:100-113 | entries have distinct names; a name has an entry exactly when some result's winner party has that label, and its seats equal the number of such results |
| ResultController.SeatsTotal | src/controllers/resultController.js:100-113 | the seats of all entries add up to the number of results whose winner has a party |
| ResultController.SeatsColourFromFirst | src/controllers/resultController.js:103-111 | every entry's colour comes from the first result that contributed to it (its colour, or `#94A3B8`) |
| ResultController.SummarySeatBound | src/controllers/resultController.js:93-113 | `totalSeats` is 275, `counted` is the number of results, the seat sum is at most `counted`, with equality exactly when every result's winner has a party |
| Store.RemoveAt | src/controllers/candidateController.js:126 | removing one candidate shifts the later ones down by one and keeps the earlier ones |
| Store.RemoveAtDropsId | src/controllers/candidateController.js:122-128 | with distinct ids, no candidate with the removed id is left, and the multiset loses exactly that candidate |
| Store.Database.CreateResult | src/controllers/resultController.js:36-63 | 400 with nothing written or emitted when the key does not cast or the write fails; otherwise the table becomes the upsert, and without a later failure the reply is 201/`result_created` or 200/`result_updated` for the written record; exactly one event exactly when the reply succeeds |
| Store.Database.CreateCandidate | src/controllers/candidateController.js:81-93 | 400 and no change for an invalid body; otherwise one candidate is appended and `candidate_created` is emitted once with 201 unless the re-read fails |
| Store.Database.UpdateCandidate | src/controllers/candidateController.js:98-115 | 400 for an id that does not cast or an invalid patch, 404 for an unknown id, both with no change and no event; otherwise only that candidate is patched and `candidate_updated` is emitted once, or 400 with the patch kept and no event when the re-read fails |
| Store.Database.DeleteCandidate | src/controllers/candidateController.js:120-132 | 500 for an id that does not cast, 404 for an unknown id, both with no change and no event; otherwise exactly that candidate is removed and `candidate_deleted` is emitted with the id as given |
| CandidateController.BuildFilter | src/controllers/candidateController.js:10-15 | a filter field exists exactly when its parameter is truthy; no filter when a supplied value does not cast; a candidate matches the filter exactly when it meets every supplied parameter with its cast value |
| CandidateController.ByNameIsTotalPreorder | src/controllers/candidateController.js:20 | the name order is a total preorder |
| CandidateController.GetCandidates | src/controllers/candidateController.js:8-25 | 500 exactly when a supplied parameter does not cast; otherwise exactly the candidates meeting every supplied parameter, in ascending name order |
| CandidateController.NoParametersListsAll | src/controllers/candidateController.js:10-17 | with no parameters every stored candidate is listed |
| CandidateController.GetCandidatesByConstituency | src/controllers/candidateController.js:30-44 | 500 exactly when a parameter does not cast; otherwise exactly the candidates of that district and constituency, most votes first |
| CandidateController.GetCandidatesByParty | src/controllers/candidateController.js:67-76 | 500 exactly when the id does not cast; otherwise exactly the candidates of that party |
| CandidateController.GetCandidate | src/controllers/candidateController.js:49-62 | 500 exactly when the id does not cast, 404 exactly when no candidate has it, and 200 whenever the id casts and a candidate has it, with the first stored candidate holding that id |
| CandidateController.CandidateFromBody | src/controllers/candidateController.js:83 | among well-typed bodies, a candidate exactly when the name is present and non-empty and each reference present casts; every path: id and name, references as their casts, the other supplied paths as given, the schema defaults 0, 0, trailing and 0 for absent votes, percentage, status and margin |
| CandidateController.PatchCandidate | src/controllers/candidateController.js:100 | each present path replaces the stored one (references as their casts), each absent path keeps the stored one, the id is kept, and an empty body changes nothing |
| DistrictController.UnderscoresToSpaces | src/controllers/districtController.js:29 | same length, no `_` left, every `_` becomes a space and every other character is unchanged |
| DistrictController.Classify | src/controllers/districtController.js:24 | an id is looked up as an ObjectId exactly when it is 24 hex digits; otherwise as its normalised name |
| DistrictController.FindDistrictById | src/controllers/districtController.js:25 | a stored district with that id, or none when no district has it |
| DistrictController.FindDistrictByName | src/controllers/districtController.js:28-30 | the first district whose whole name equals the name ignoring case, or none |
| DistrictController.ResolveCases | src/controllers/districtController.js:24-30 | a 24-hex id resolves only through the id; any other id resolves to the first district whose name equals the normalised id ignoring case |
| DistrictController.GetDistrict | src/controllers/districtController.js:18-40 | 200 exactly when the id resolves (as `ResolveCases` describes), with the resolved stored district; otherwise 404 with "District not found" |
| DistrictController.GetDistrictResults | src/controllers/districtController.js:45-76 | 404 when the id does not resolve; otherwise the resolved district's name and exactly the results whose district is its id |
| DistrictController.SameResolution | src/controllers/districtController.js:18-76 | both handlers resolve an id to the same district, or both answer 404; on success the results reply names that district and holds exactly its results |
| DistrictController.ObjectIdNeverRetriedAsName | src/controllers/districtController.js:24-35 | an unknown 24-hex id is a 404 whatever the district names are |
| ElectionController.GetElections | src/controllers/electionController.js:6-13 | every stored election (same multiset), in descending year order |
| ElectionController.FirstOngoing | src/controllers/electionController.js:20 | an ongoing election, or none when none is ongoing |
| ElectionController.EarliestUpcoming | src/controllers/electionController.js:22 | an upcoming election whose start date is no later than any other upcoming one (a missing date first), or none when none is upcoming |
| ElectionController.GetCurrentElection | src/controllers/electionController.js:18-30 | an ongoing election when one exists; else an upcoming one with the earliest start; else 404; never a completed one |
| ElectionController.FindElection | src/controllers/electionController.js:37 | a stored election with that id, or none |
| ElectionController.GetElection | src/controllers/electionController.js:35-45 | 500 exactly when the id does not cast, 404 exactly when no election has it, and 200 whenever the id casts and an election has it, with the first stored election holding that id |
| ElectionController.CreateElection | src/controllers/electionController.js:50-57 | 400 with nothing added exactly when the year is missing or the database raises; otherwise one election holding every path of the body is appended with 201 |
| ElectionController.PatchElection | src/controllers/electionController.js:64 | each present path replaces the stored one, each absent path keeps it, and the id is kept |
| ElectionController.UpdateElection | src/controllers/electionController.js:62-75 | 400 exactly when the id does not cast or the database raises, 404 exactly when the id is otherwise unknown, both leaving the collection unchanged; 200 whenever the id casts, the database does not raise and an election has the id, with only the first such election patched |
| ElectionController.DeleteElection | src/controllers/electionController.js:80-91 | 500 exactly when the id does not cast or the database raises, 404 exactly when the id is otherwise unknown, both leaving the collection unchanged; 200 whenever the id casts, the database does not raise and an election has the id, with exactly the first such election removed and the id echoed |
| ElectionController.FindElectionUnique | src/controllers/electionController.js:37 | with distinct ids, the lookup finds the election holding the id |
| ElectionController.UpdateThenGet | src/controllers/electionController.js:62-75 | after a successful update, reading the id back gives the updated election, and ids stay distinct |
| ElectionController.DeleteThenGet | src/controllers/electionController.js:80-91 | after a successful delete, reading the id back is a 404, one election fewer is stored, and every other election remains |
| Seed.VoterTotal | src/utils/seed.js:59 | the voter total is non-negative when every count is, and 0 when every count is missing |
| Seed.VoterTotalAppend | src/utils/seed.js:59 | the total of a concatenation is the sum of the totals |
| Seed.MissingCountAddsNothing | src/utils/seed.js:59 | a constituency without a count adds 0 |
| Seed.DistrictDoc | src/utils/seed.js:51-62 | a district document keeps the entry's name and constituency count, and its voter total is the sum of its constituencies' counts |
| Seed.DistrictDocs | src/utils/seed.js:50-63 | one district document per data entry, in order |
| Seed.PartyDocs | src/utils/seed.js:38-46 | the six seed parties in order, with their assigned ids |
| Seed.PartyNamed | src/utils/seed.js:81 | the first party with that name, or none |
| Seed.TemplatePartyFound | src/utils/seed.js:67-81 | every template's party is found, at the template's own position |
| Seed.SlotsShape | src/utils/seed.js:77-94 | five slots per visited constituency, each naming an existing district, constituency and template |
| Seed.SlotsIncreasing | src/utils/seed.js:77-94 | slots come in strictly increasing (district, constituency, template) order |
| Seed.SlotsExact | src/utils/seed.js:77-94 | every (district among the first five, constituency in 1..count, template) occurs exactly once |
| Seed.GeneratedBodies | src/utils/seed.js:82-91 | every generated candidate has the template's name followed by the district's name in parentheses, the template's party, year 2084, type federal, a constituency in 1..count, votes in [5000, 24999], and status leading or trailing |
| Seed.GeneratedCount | src/utils/seed.js:77-94 | the number of generated candidates is 5 times the sum of the first five districts' constituency counts |
| Seed.GenerateCandidates | src/utils/seed.js:75-94 | the nested loops push exactly the bodies of the slots in loop order; fewer than five districts abort |
| Seed.PushDistrict | src/utils/seed.js:79-93 | the constituency loop appends the bodies of one district's slots |
| Seed.PushConstituency | src/utils/seed.js:80-92 | the template loop appends one body per template, each from the next two draws |
| Seed.CreatedCandidates | src/utils/seed.js:95 | every generated body is stored as the candidate create path stores it |
| Seed.RunnerUp | src/utils/seed.js:107-111 | the first created candidate with the winner's district and constituency and a different id, or none |
| Seed.Derive | src/utils/seed.js:113-122 | winner, district and constituency from the leading candidate; the runner-up's id or none; total votes = winner's + runner-up's (or 0) + 1000; the clock reading as `lastUpdated` |
| Seed.Derivations | src/utils/seed.js:103-123 | exactly one derived result per leading candidate, in order, with that leading candidate as winner and the `k`-th clock reading |
| Seed.DeriveResults | src/utils/seed.js:103-123 | the result loop computes exactly the derivations |
| Seed.DeriveEach | src/utils/seed.js:105-123 | the loop derives one result per given candidate, in order |
| Seed.StoredResults | src/utils/seed.js:124 | the derived results stored with year 2084, as derived, with no tallies and the paths the object omits absent |
| Seed.SeededWinnersLead | src/utils/seed.js:103-122 | every seeded result's winner is a leading created candidate of that result's constituency, and its runner-up another created candidate of the same constituency |
| Seed.TwoLeadersTwoResults | src/utils/seed.js:103-117 | two leading candidates in one constituency give two results for the same key |
| Seed.RunnerUpNotSecondBest | src/utils/seed.js:107-119 | the runner-up can have fewer votes than another candidate of the same constituency |
| Seed.RunSeed | src/utils/seed.js:15-133 | the script fails exactly when the district documents cannot be inserted or fewer than five exist; otherwise it stores the seed parties, one district per entry, the generated candidates, and after the results already stored (never cleared) exactly the results derived from the leading candidates |

## Left out

- The Express, socket.io, CORS, helmet and rate-limit wiring in `server.js`. The broadcast is the event log of `Store.Database`, and delivery to subscribers is not modelled.
- The MongoDB connection and the driver. Collections are sequences, and exceptions from the database layer are the `Fault` input (or `dbFails` for the election writes and the deletes).
- `populate` projections. Events and replies carry the stored document, not the joined and projected shape.
- Routes and the auth middleware, the auth controller (bcrypt, JWT) and the party controller, which has only pass-through CRUD.
- `getResults` and `getDistricts`: whole-collection listings with no logic.
- The district controller's create, update and delete writes.
- Concurrency: the find-then-write in `createResult` is a check-then-act race between concurrent requests; the model has sequential requests only.
- Database failures in read-only views. Those handlers answer 500 on any exception. Only the cast failure of an id or parameter is modelled.
- ObjectIds given as 12-byte strings, and `Number()` casts other than plain decimal digit strings (signs, decimals, exponents, whitespace). Such query values are treated as not castable.
- Regular-expression semantics of the district name lookup. The id is matched as a literal string with ASCII case folding, so metacharacters and Unicode case folding are not modelled.
- Result bodies without a district, constituency or year. The model always has the key fields.
- Mongoose `createdAt`/`updatedAt` timestamps and display-only schema paths (geometry, boundaries, images, biographies, election constituencies, voter turnout).
- Party names that collide with members of JavaScript's object prototype (such as `constructor`), and the JavaScript rule that integer-like object keys are listed first. The summary's party entries are listed in first-contribution order.
- The seed script's file read, `process.exit`, the admin user with its bcrypt hash, and the partial writes that remain when an insert aborts the script. The user, district, party and candidate collections are emptied first, so their earlier contents play no part; the result collection is not emptied, and `Seed.RunSeed` keeps its earlier contents as `prior`.
- Seed.RunSeed: the ids the database assigns to districts and parties are taken to be canonical ObjectIds (`AssignsIds`), as MongoDB generates them.
- Seed.Derivations: the clock is one reading per result, `now(k)`; whether the readings increase is not stated.
- CandidateController.CandidateFromBody: an explicit JSON `null` in a body is treated like an absent path. The same holds for `PatchCandidate`, `ElectionController.CreateElection`, `ElectionController.PatchElection` and `ResultController.Upsert`.
- CandidateController.CandidateFromBody: candidate and result bodies are typed, so a path of the wrong type or outside its enumeration is not representable: a `status` or `electionType` outside the schema's values, a non-numeric `votes`, `votePercentage` or `margin`, and in a result body a non-numeric Number path or a non-date Date path. The source answers such a body with 400; the model shows it only as a `Fault` before the write. The same holds for `CandidateController.PatchValid`, `Store.Database.CreateCandidate`, `Store.Database.UpdateCandidate` and `Store.Database.CreateResult`.
- CandidateController.BuildFilter: query values that are arrays or objects (`?party[]=…`) are not representable; every parameter is a string.
- ElectionController.CreateElection: election bodies are typed, so a path of the wrong type or a failing validator is not modelled separately. It shows only as the `dbFails` input, like any other database exception; the same holds for `UpdateElection`.
- ResultController.BodyKey: a district written with upper-case hex digits is cast to lower case before the lookup, as Mongoose does; stored ids are taken to be lower-case.
- Collections.Sort: the order of documents with equal sort keys is left unspecified, as MongoDB leaves it; the contracts state sortedness and the permutation only.
