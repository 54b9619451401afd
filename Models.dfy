/** The documents of the five collections the controllers touch, one
    datatype per schema. A schema path that is not required and has no
    default may be absent from a document, so it is an `Option`; a path with
    a default is always present once the document is stored. Display-only
    paths that no modelled operation reads (geometry, boundaries, images,
    biographies) are not carried. Dates are integer timestamps. */
module Models {

  import opened Common
  import opened ObjectIds
  import opened Collections

  /** One entry of a result's `candidates` array. In a request body
      `candidate` is the string as sent; in a stored document it is the cast
      id. */
  datatype Tally = Tally(
    candidate: Option<ObjectId>,
    votes: Option<int>,
    percentage: Option<real>,
    position: Option<int>)

  /** A stored constituency result. The lookup key of a submission is
      (district, constituency, electionYear); the schema has no unique index
      on it. `candidates` defaults to the empty array and `lastUpdated` to
      the time of creation. */
  datatype ResultDoc = ResultDoc(
    id: ObjectId,
    district: ObjectId,
    constituency: int,
    electionYear: int,
    electionType: Option<string>,
    candidates: seq<Tally>,
    winner: Option<ObjectId>,
    runnerUp: Option<ObjectId>,
    margin: Option<int>,
    totalVotes: Option<int>,
    rejectedVotes: Option<int>,
    turnout: Option<real>,
    lastUpdated: int)

  datatype ElectionType = Federal | Provincial | Past | Future

  datatype CandidateStatus = Elected | Leading | Trailing | Lost

  /** A stored candidate: `name` is required; `votes`, `votePercentage`,
      `status` and `margin` have defaults (0, 0, trailing, 0). */
  datatype CandidateDoc = CandidateDoc(
    id: ObjectId,
    name: string,
    nameNepali: Option<string>,
    party: Option<ObjectId>,
    district: Option<ObjectId>,
    constituency: Option<int>,
    electionYear: Option<int>,
    electionType: Option<ElectionType>,
    votes: int,
    votePercentage: real,
    status: CandidateStatus,
    margin: int)

  /** A candidate request body: any subset of the candidate paths, with the
      references `party` and `district` as the strings sent. */
  datatype CandidateBody = CandidateBody(
    name: Option<string>,
    nameNepali: Option<string>,
    party: Option<string>,
    district: Option<string>,
    constituency: Option<int>,
    electionYear: Option<int>,
    electionType: Option<ElectionType>,
    votes: Option<int>,
    votePercentage: Option<real>,
    status: Option<CandidateStatus>,
    margin: Option<int>)

  /** A stored district; `votersTotal` is `demographics.voters.total`. */
  datatype District = District(
    id: ObjectId,
    name: string,
    nameNepali: Option<string>,
    province: Option<string>,
    provinceNepali: Option<string>,
    totalConstituencies: Option<int>,
    votersTotal: Option<int>)

  /** A stored party; `seatCount` and `voteCount` default to 0. */
  datatype Party = Party(
    id: ObjectId,
    name: string,
    nameNepali: Option<string>,
    symbol: Option<string>,
    color: Option<string>,
    seatCount: int,
    voteCount: int)

  datatype ElectionLevel = FederalLevel | ProvincialLevel | LocalLevel

  datatype ElectionStatus = Upcoming | Ongoing | Completed

  /** A stored election; `year` is the only required path. Dates are
      instants (milliseconds). */
  datatype Election = Election(
    id: ObjectId,
    year: int,
    level: Option<ElectionLevel>,
    startDate: Option<int>,
    endDate: Option<int>,
    status: Option<ElectionStatus>,
    totalVoters: Option<int>,
    totalVotesCast: Option<int>)

  /** The first document of `s` whose id is `id`: `findById`. */
  function FindCandidate(s: seq<CandidateDoc>, id: ObjectId): (r: Option<nat>)
    ensures r.Some? ==> r.value < |s| && s[r.value].id == id
    ensures r.Some? ==> forall j :: 0 <= j < r.value ==> s[j].id != id
    ensures r.None? ==> forall j :: 0 <= j < |s| ==> s[j].id != id
  {
    FirstIndex(s, (c: CandidateDoc) => c.id == id)
  }

  /** The party a populated reference resolves to: `None` for a dangling
      id, which `populate` turns into `null`. */
  function FindParty(s: seq<Party>, id: ObjectId): (r: Option<Party>)
    ensures r.Some? ==> r.value in s && r.value.id == id
    ensures r.None? ==> forall j :: 0 <= j < |s| ==> s[j].id != id
  {
    match FirstIndex(s, (p: Party) => p.id == id)
    case None => None
    case Some(i) => Some(s[i])
  }
}
