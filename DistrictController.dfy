/** District identifier resolution, shared word for word by `getDistrict`
    and `getDistrictResults`: an id of exactly 24 hex digits is looked up as
    an ObjectId and never as a name; any other id has its underscores turned
    into spaces and is matched against whole district names, ignoring
    case. The name is matched as a literal string with ASCII case folding. */
module DistrictController {

  import opened Common
  import opened Text
  import opened ObjectIds
  import opened Collections
  import opened Models

  const DistrictNotFound: string := "District not found"

  /** `id.replace(/_/g, ' ')`: the length is kept, no underscore is left,
      and every other character passes through unchanged. */
  function UnderscoresToSpaces(id: string): (r: string)
    ensures |r| == |id|
    ensures '_' !in r
    ensures forall i :: 0 <= i < |id| ==> r[i] == if id[i] == '_' then ' ' else id[i]
  {
    if id == [] then []
    else [if id[0] == '_' then ' ' else id[0]] + UnderscoresToSpaces(id[1..])
  }

  /** How an id is looked up. */
  datatype Lookup = ById(oid: ObjectId) | ByName(name: string)

  function Classify(id: string): (l: Lookup)
    ensures l.ById? <==> LooksLikeObjectId(id)
    ensures l.ByName? ==> l.name == UnderscoresToSpaces(id)
  {
    match Cast(id)
    case Some(oid) => ById(oid)
    case None => ByName(UnderscoresToSpaces(id))
  }

  /** `findById(oid)`. */
  function FindDistrictById(ds: seq<District>, oid: ObjectId): (r: Option<District>)
    ensures r.Some? ==> r.value in ds && r.value.id == oid
    ensures r.None? ==> forall j :: 0 <= j < |ds| ==> ds[j].id != oid
  {
    match FirstIndex(ds, (d: District) => d.id == oid)
    case None => None
    case Some(i) => Some(ds[i])
  }

  /** `findOne({ name: /^name$/i })`: the first district whose whole name
      equals `name` up to case. */
  function FindDistrictByName(ds: seq<District>, name: string): (r: Option<nat>)
    ensures r.Some? ==> r.value < |ds| && EqualsIgnoreCase(ds[r.value].name, name)
    ensures r.Some? ==> forall j :: 0 <= j < r.value ==> !EqualsIgnoreCase(ds[j].name, name)
    ensures r.None? ==> forall j :: 0 <= j < |ds| ==> !EqualsIgnoreCase(ds[j].name, name)
  {
    FirstIndex(ds, (d: District) => EqualsIgnoreCase(d.name, name))
  }

  /** The district an id names, as both `getDistrict` and
      `getDistrictResults` look it up. */
  function Resolve(ds: seq<District>, id: string): Option<District> {
    match Classify(id)
    case ById(oid) => FindDistrictById(ds, oid)
    case ByName(name) =>
      match FindDistrictByName(ds, name)
      case None => None
      case Some(i) => Some(ds[i])
  }

  /** An id of 24 hex digits resolves only through the id: it finds the
      district with that id (in any letter case) or nothing, whatever the
      district names are. Any other id finds the first district whose name
      equals the normalised id up to case. */
  lemma ResolveCases(ds: seq<District>, id: string)
    ensures LooksLikeObjectId(id) ==>
              match Resolve(ds, id)
              case Some(d) => d in ds && EqualsIgnoreCase(d.id, id)
              case None => forall j :: 0 <= j < |ds| ==> ds[j].id != Lower(id)
    ensures !LooksLikeObjectId(id) ==>
              match Resolve(ds, id)
              case Some(d) =>
                exists i :: 0 <= i < |ds| && ds[i] == d && EqualsIgnoreCase(d.name, UnderscoresToSpaces(id))
                            && forall j :: 0 <= j < i ==> !EqualsIgnoreCase(ds[j].name, UnderscoresToSpaces(id))
              case None => forall j :: 0 <= j < |ds| ==> !EqualsIgnoreCase(ds[j].name, UnderscoresToSpaces(id))
  {
  }

  /** `getDistrict`. */
  function GetDistrict(ds: seq<District>, id: string): (r: Reply<District>)
    ensures r.Ok? ==> r.status == 200 && r.value in ds
    ensures r.Ok? <==> Resolve(ds, id).Some?
    ensures r.Ok? ==> r.value == Resolve(ds, id).value
    ensures r.Err? ==> r == Err(404, NotFound(DistrictNotFound))
  {
    match Resolve(ds, id)
    case None => Err(404, NotFound(DistrictNotFound))
    case Some(d) => Ok(200, d)
  }

  /** The body of `getDistrictResults`: the district's name and its
      results. */
  datatype DistrictResults = DistrictResults(district: string, constituencies: seq<ResultDoc>)

  /** `getDistrictResults`: 404 without querying results when the id does
      not resolve; otherwise the district's name and exactly the results
      whose district is that district's id. */
  function GetDistrictResults(ds: seq<District>, results: seq<ResultDoc>, id: string): (r: Reply<DistrictResults>)
    ensures r.Ok? ==> r.status == 200
    ensures r.Err? ==> r == Err(404, NotFound(DistrictNotFound))
    ensures r.Ok? ==> Resolve(ds, id).Some? && r.value.district == Resolve(ds, id).value.name
    ensures r.Ok? ==> forall x :: multiset(r.value.constituencies)[x] ==
                        (if x.district == Resolve(ds, id).value.id then multiset(results)[x] else 0)
  {
    match Resolve(ds, id)
    case None => Err(404, NotFound(DistrictNotFound))
    case Some(d) => Ok(200, DistrictResults(d.name, Filter(results, (x: ResultDoc) => x.district == d.id)))
  }

  /** The two handlers resolve an id the same way: both find the same
      district, and the results listed are exactly those of the district
      `getDistrict` returns; or both answer 404. */
  lemma {:induction false} SameResolution(ds: seq<District>, results: seq<ResultDoc>, id: string)
    ensures GetDistrict(ds, id).Ok? <==> GetDistrictResults(ds, results, id).Ok?
    ensures GetDistrict(ds, id).Ok? ==>
              var d := GetDistrict(ds, id).value;
              var rs := GetDistrictResults(ds, results, id).value;
              && rs.district == d.name
              && forall x :: multiset(rs.constituencies)[x] == if x.district == d.id then multiset(results)[x] else 0
    ensures GetDistrict(ds, id).Err? ==>
              && GetDistrict(ds, id) == Err(404, NotFound(DistrictNotFound))
              && GetDistrictResults(ds, results, id) == Err(404, NotFound(DistrictNotFound))
  {
  }

  /** A 24-hex-digit id that names no district's id is a 404 even when some
      district is named exactly like the id. */
  lemma ObjectIdNeverRetriedAsName(ds: seq<District>, id: string)
    requires LooksLikeObjectId(id)
    requires forall j :: 0 <= j < |ds| ==> ds[j].id != Lower(id)
    ensures GetDistrict(ds, id) == Err(404, NotFound(DistrictNotFound))
  {
  }
}
