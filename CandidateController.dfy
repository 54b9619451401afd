/** The value-level logic of the candidates controller: the query filter
    built from the supplied parameters, the ordered listings, the lookup by
    id, and how a request body becomes a stored candidate or changes one.
    The mutations themselves (and their events) are the `Candidate*`
    methods of `Store.Database`. */
module CandidateController {

  import opened Common
  import opened Text
  import opened ObjectIds
  import opened Collections
  import opened Models

  /** The query string of `GET /candidates`: each parameter may be absent. */
  datatype CandidateQuery = CandidateQuery(
    district: Option<string>,
    constituency: Option<string>,
    party: Option<string>)

  /** A query parameter is used only when it is truthy: present and not the
      empty string. */
  predicate Supplied(p: Option<string>) {
    p.Some? && p.value != ""
  }

  /** The Mongo filter document: one field per supplied parameter, already
      cast to the schema's type. */
  datatype CandidateFilter = CandidateFilter(
    district: Option<ObjectId>,
    constituency: Option<int>,
    party: Option<ObjectId>)

  /** Whether a supplied parameter fails to cast (the query then throws). */
  predicate QueryCastFails(q: CandidateQuery) {
    || (Supplied(q.district) && Cast(q.district.value).None?)
    || (Supplied(q.constituency) && ParseDecimal(q.constituency.value).None?)
    || (Supplied(q.party) && Cast(q.party.value).None?)
  }

  /** The filter `getCandidates` builds: start from an empty filter and add
      a field for each truthy parameter. `None` when a value does not cast. */
  function BuildFilter(q: CandidateQuery): (f: Option<CandidateFilter>)
    ensures f.None? <==> QueryCastFails(q)
    ensures f.Some? ==> (f.value.district.Some? <==> Supplied(q.district))
    ensures f.Some? ==> (f.value.constituency.Some? <==> Supplied(q.constituency))
    ensures f.Some? ==> (f.value.party.Some? <==> Supplied(q.party))
    ensures f.Some? ==> forall c :: Matches(c, f.value) <==> MatchesQuery(c, q)
  {
    var district := if Supplied(q.district) then Cast(q.district.value) else None;
    var constituency := if Supplied(q.constituency) then ParseDecimal(q.constituency.value) else None;
    var party := if Supplied(q.party) then Cast(q.party.value) else None;
    if QueryCastFails(q) then None
    else Some(CandidateFilter(district, constituency, party))
  }

  /** A document matches a filter when it has every field the filter has,
      with the filter's value. */
  predicate Matches(c: CandidateDoc, f: CandidateFilter) {
    && (f.district.Some? ==> c.district == f.district)
    && (f.constituency.Some? ==> c.constituency == f.constituency)
    && (f.party.Some? ==> c.party == f.party)
  }

  /** The reference reading of a query: every supplied parameter is met. */
  predicate MatchesQuery(c: CandidateDoc, q: CandidateQuery) {
    && (Supplied(q.district) ==> c.district == Cast(q.district.value))
    && (Supplied(q.constituency) ==> c.constituency == ParseDecimal(q.constituency.value))
    && (Supplied(q.party) ==> c.party == Cast(q.party.value))
  }

  /** `sort({ name: 1 })`. */
  predicate ByName(a: CandidateDoc, b: CandidateDoc) {
    LexLe(a.name, b.name)
  }

  /** `sort({ votes: -1 })`. */
  predicate MostVotesFirst(a: CandidateDoc, b: CandidateDoc) {
    a.votes >= b.votes
  }

  lemma ByNameIsTotalPreorder()
    ensures TotalPreorder(ByName)
  {
    forall a: CandidateDoc, b: CandidateDoc ensures ByName(a, b) || ByName(b, a) {
      LexLeTotal(a.name, b.name);
    }
    forall a: CandidateDoc, b: CandidateDoc, c: CandidateDoc | ByName(a, b) && ByName(b, c) ensures ByName(a, c) {
      LexLeTransitive(a.name, b.name, c.name);
    }
  }

  /** `getCandidates`: exactly the candidates that meet every supplied
      parameter, in ascending name order; 500 when a supplied parameter
      does not cast. */
  function GetCandidates(table: seq<CandidateDoc>, q: CandidateQuery): (r: Reply<seq<CandidateDoc>>)
    ensures r.Err? <==> QueryCastFails(q)
    ensures r.Err? ==> r.status == 500
    ensures r.Ok? ==> r.status == 200
    ensures r.Ok? ==> forall x :: multiset(r.value)[x] == if MatchesQuery(x, q) then multiset(table)[x] else 0
    ensures r.Ok? ==> forall i, j :: 0 <= i < j < |r.value| ==> LexLe(r.value[i].name, r.value[j].name)
  {
    match BuildFilter(q)
    case None => Err(500, Rejected)
    case Some(f) =>
      var matching := Filter(table, (c: CandidateDoc) => Matches(c, f));
      ByNameIsTotalPreorder();
      SortSorted(matching, ByName);
      Ok(200, Sort(matching, ByName))
  }

  /** With no parameter supplied, every stored candidate is listed. */
  lemma NoParametersListsAll(table: seq<CandidateDoc>)
    ensures var r := GetCandidates(table, CandidateQuery(None, None, None));
      r.Ok? && multiset(r.value) == multiset(table)
  {
    var r := GetCandidates(table, CandidateQuery(None, None, None));
    assert forall x :: multiset(r.value)[x] == multiset(table)[x];
  }

  /** `getCandidatesByConstituency`: exactly the candidates of that district
      and constituency, most votes first; 500 when a parameter does not
      cast. */
  function GetCandidatesByConstituency(table: seq<CandidateDoc>, districtId: string, constituencyNo: string)
    : (r: Reply<seq<CandidateDoc>>)
    ensures r.Err? <==> Cast(districtId).None? || ParseDecimal(constituencyNo).None?
    ensures r.Err? ==> r.status == 500
    ensures r.Ok? ==> r.status == 200
    ensures r.Ok? ==>
              forall x :: multiset(r.value)[x] ==
                (if x.district == Cast(districtId) && x.constituency == ParseDecimal(constituencyNo)
                 then multiset(table)[x] else 0)
    ensures r.Ok? ==> forall i, j :: 0 <= i < j < |r.value| ==> r.value[i].votes >= r.value[j].votes
  {
    match (Cast(districtId), ParseDecimal(constituencyNo))
    case (Some(d), Some(n)) =>
      var matching := Filter(table, (c: CandidateDoc) => c.district == Some(d) && c.constituency == Some(n));
      assert TotalPreorder(MostVotesFirst);
      SortSorted(matching, MostVotesFirst);
      Ok(200, Sort(matching, MostVotesFirst))
    case _ => Err(500, Rejected)
  }

  /** `getCandidatesByParty`: exactly the candidates of that party. */
  function GetCandidatesByParty(table: seq<CandidateDoc>, partyId: string): (r: Reply<seq<CandidateDoc>>)
    ensures r.Err? <==> Cast(partyId).None?
    ensures r.Err? ==> r.status == 500
    ensures r.Ok? ==> r.status == 200
    ensures r.Ok? ==> forall x :: multiset(r.value)[x] == if x.party == Cast(partyId) then multiset(table)[x] else 0
  {
    match Cast(partyId)
    case None => Err(500, Rejected)
    case Some(p) => Ok(200, Filter(table, (c: CandidateDoc) => c.party == Some(p)))
  }

  const CandidateNotFound: string := "Candidate not found"

  /** `getCandidate`: the first candidate with that id, 404 when there is
      none, 500 when the id does not cast. */
  function GetCandidate(table: seq<CandidateDoc>, id: string): (r: Reply<CandidateDoc>)
    ensures r.Err? && r.status == 500 <==> Cast(id).None?
    ensures r.Ok? ==> r.status == 200 && r.value in table && Cast(id) == Some(r.value.id)
    ensures r.Ok? ==> exists i :: 0 <= i < |table| && table[i] == r.value
                                  && forall j :: 0 <= j < i ==> table[j].id != r.value.id
    ensures Cast(id).Some? && (exists j :: 0 <= j < |table| && table[j].id == Cast(id).value) ==> r.Ok?
    ensures r == Err(404, NotFound(CandidateNotFound)) <==>
              Cast(id).Some? && forall j :: 0 <= j < |table| ==> table[j].id != Cast(id).value
  {
    match Cast(id)
    case None => Err(500, Rejected)
    case Some(oid) =>
      match FindCandidate(table, oid)
      case None => Err(404, NotFound(CandidateNotFound))
      case Some(i) => Ok(200, table[i])
  }

  /** The `required` validator on `name`: it fails for an absent name and
      for the empty string. */
  predicate NameValid(name: Option<string>) {
    name.Some? && name.value != ""
  }

  /** `Candidate.create(body)`: `None` when validation fails (no name, or a
      reference that does not cast); otherwise the body's paths, references
      cast, with the schema defaults for `votes`, `votePercentage`, `status`
      and `margin`. */
  function CandidateFromBody(id: ObjectId, body: CandidateBody): (c: Option<CandidateDoc>)
    ensures c.Some? <==> NameValid(body.name) && PathCasts(body.party) && PathCasts(body.district)
    ensures c.Some? ==> c.value.id == id && c.value.name == body.name.value
    ensures c.Some? ==> c.value.party == CastPath(body.party) && c.value.district == CastPath(body.district)
    ensures c.Some? ==> (body.party.Some? <==> c.value.party.Some?) && (body.district.Some? <==> c.value.district.Some?)
    ensures c.Some? ==>
              && c.value.nameNepali == body.nameNepali && c.value.constituency == body.constituency
              && c.value.electionYear == body.electionYear && c.value.electionType == body.electionType
    ensures c.Some? ==>
              && c.value.votes == OrElse(body.votes, 0) && c.value.votePercentage == OrElse(body.votePercentage, 0.0)
              && c.value.status == OrElse(body.status, Trailing) && c.value.margin == OrElse(body.margin, 0)
  {
    if !(NameValid(body.name) && PathCasts(body.party) && PathCasts(body.district)) then None
    else Some(CandidateDoc(id, body.name.value, body.nameNepali, CastPath(body.party), CastPath(body.district),
                           body.constituency, body.electionYear, body.electionType,
                           OrElse(body.votes, 0), OrElse(body.votePercentage, 0.0),
                           OrElse(body.status, Trailing), OrElse(body.margin, 0)))
  }

  /** An update casts the references it sets and, with `runValidators`,
      validates only the paths it sets: it fails when a reference does not
      cast or when it sets `name` to the empty string. */
  predicate PatchValid(body: CandidateBody) {
    body.name != Some("") && PathCasts(body.party) && PathCasts(body.district)
  }

  /** `findByIdAndUpdate(id, body)`: every path present in the body
      overwrites the stored one (a reference as its cast); the id and every
      absent path are kept. */
  function PatchCandidate(c: CandidateDoc, body: CandidateBody): (r: CandidateDoc)
    ensures r.id == c.id
    ensures body.name.Some? ==> r.name == body.name.value
    ensures body.name.None? ==> r.name == c.name
    ensures body.nameNepali.Some? ==> r.nameNepali == body.nameNepali
    ensures body.nameNepali.None? ==> r.nameNepali == c.nameNepali
    ensures body.party.Some? ==> r.party == Cast(body.party.value)
    ensures body.party.None? ==> r.party == c.party
    ensures body.district.Some? ==> r.district == Cast(body.district.value)
    ensures body.district.None? ==> r.district == c.district
    ensures body.constituency.Some? ==> r.constituency == body.constituency
    ensures body.constituency.None? ==> r.constituency == c.constituency
    ensures body.electionYear.Some? ==> r.electionYear == body.electionYear
    ensures body.electionYear.None? ==> r.electionYear == c.electionYear
    ensures body.electionType.Some? ==> r.electionType == body.electionType
    ensures body.electionType.None? ==> r.electionType == c.electionType
    ensures body.votes.Some? ==> r.votes == body.votes.value
    ensures body.votes.None? ==> r.votes == c.votes
    ensures body.votePercentage.Some? ==> r.votePercentage == body.votePercentage.value
    ensures body.votePercentage.None? ==> r.votePercentage == c.votePercentage
    ensures body.status.Some? ==> r.status == body.status.value
    ensures body.status.None? ==> r.status == c.status
    ensures body.margin.Some? ==> r.margin == body.margin.value
    ensures body.margin.None? ==> r.margin == c.margin
    ensures body == CandidateBody(None, None, None, None, None, None, None, None, None, None, None) ==> r == c
  {
    CandidateDoc(c.id, OrElse(body.name, c.name),
                 Overwrite(body.nameNepali, c.nameNepali),
                 if body.party.Some? then CastPath(body.party) else c.party,
                 if body.district.Some? then CastPath(body.district) else c.district,
                 Overwrite(body.constituency, c.constituency),
                 Overwrite(body.electionYear, c.electionYear),
                 Overwrite(body.electionType, c.electionType),
                 OrElse(body.votes, c.votes), OrElse(body.votePercentage, c.votePercentage),
                 OrElse(body.status, c.status), OrElse(body.margin, c.margin))
  }
}
