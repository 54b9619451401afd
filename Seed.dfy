/** The deterministic part of the seed script: district documents from the
    bundled constituency data, the six parties, one candidate per template
    for every constituency of the first five districts, and one result per
    leading candidate. `Math.random`, the clock and the ids the database
    assigns are inputs. */
module Seed {

  import opened Common
  import opened ObjectIds
  import opened Collections
  import opened Models
  import opened CandidateController

  // ---------------------------------------------------------------------
  // Districts

  /** One constituency entry of the bundled data; `voters` is absent when
      the entry has no count (or a falsy one). */
  datatype ConstituencyData = ConstituencyData(voters: Option<int>)

  /** One district entry of the bundled data. */
  datatype DistrictData = DistrictData(
    name: string,
    nameNepali: Option<string>,
    province: Option<string>,
    provinceNepali: Option<string>,
    totalConstituencies: Option<int>,
    constituencies: seq<ConstituencyData>)

  /** `constituencies.reduce((acc, c) => acc + (c.voters || 0), 0)`: a left
      fold that counts a missing voter count as 0. */
  function VoterTotal(cs: seq<ConstituencyData>): (t: int)
    ensures (forall i :: 0 <= i < |cs| ==> OrElse(cs[i].voters, 0) >= 0) ==> t >= 0
    ensures (forall i :: 0 <= i < |cs| ==> cs[i].voters.None?) ==> t == 0
  {
    if cs == [] then 0
    else VoterTotal(cs[..|cs| - 1]) + OrElse(cs[|cs| - 1].voters, 0)
  }

  /** The total of a concatenation is the sum of the totals, so the total
      does not depend on how the entries are grouped. */
  lemma {:induction false} VoterTotalAppend(a: seq<ConstituencyData>, b: seq<ConstituencyData>)
    ensures VoterTotal(a + b) == VoterTotal(a) + VoterTotal(b)
    decreases |b|
  {
    if b == [] {
      assert a + b == a;
    } else {
      var b' := b[..|b| - 1];
      assert (a + b)[..|a + b| - 1] == a + b';
      VoterTotalAppend(a, b');
    }
  }

  /** A missing count adds nothing to the total. */
  lemma MissingCountAddsNothing(a: seq<ConstituencyData>, b: seq<ConstituencyData>)
    ensures VoterTotal(a + [ConstituencyData(None)] + b) == VoterTotal(a + b)
  {
    VoterTotalAppend(a + [ConstituencyData(None)], b);
    VoterTotalAppend(a, [ConstituencyData(None)]);
    VoterTotalAppend(a, b);
  }

  /** The district document built from one entry, given the id the database
      assigns to it. */
  function DistrictDoc(id: ObjectId, d: DistrictData): (r: District)
    ensures r.id == id && r.name == d.name && r.totalConstituencies == d.totalConstituencies
    ensures r.votersTotal == Some(VoterTotal(d.constituencies))
  {
    District(id, d.name, d.nameNepali, d.province, d.provinceNepali, d.totalConstituencies,
             Some(VoterTotal(d.constituencies)))
  }

  /** `insertMany` accepts the district documents: every name is present
      (`required`) and no two are equal (`unique`). */
  predicate DistrictsInsertable(data: seq<DistrictData>) {
    && (forall i :: 0 <= i < |data| ==> data[i].name != "")
    && (forall i, j :: 0 <= i < j < |data| ==> data[i].name != data[j].name)
  }

  /** `Object.values(districts).map(...)`: one document per data entry, in
      order; the `k`-th gets the id `districtId(k)`. */
  function DistrictDocs(data: seq<DistrictData>, districtId: nat -> ObjectId): (r: seq<District>)
    ensures |r| == |data|
    ensures forall k :: 0 <= k < |data| ==>
              r[k].id == districtId(k) && r[k].name == data[k].name
              && r[k].totalConstituencies == data[k].totalConstituencies
              && r[k].votersTotal == Some(VoterTotal(data[k].constituencies))
  {
    seq(|data|, k requires 0 <= k < |data| => DistrictDoc(districtId(k), data[k]))
  }

  // ---------------------------------------------------------------------
  // Parties and templates

  datatype PartySeed = PartySeed(name: string, nameNepali: string, symbol: string, color: string)

  const SeedParties: seq<PartySeed> := [
    PartySeed("Nepali Congress", "नेपाली कांग्रेस", "Tree", "#32CD32"),
    PartySeed("CPN-UML", "नेकपा (एमाले)", "Sun", "#DC143C"),
    PartySeed("CPN-Maoist", "नेकपा (माओवादी केन्द्र)", "Hammer and Sickle", "#8B0000"),
    PartySeed("RSP", "राष्ट्रिय स्वतन्त्र पार्टी", "Bell", "#FF8C00"),
    PartySeed("RPP", "राष्ट्रिय प्रजातन्त्र पार्टी", "Plow", "#00008B"),
    PartySeed("Others", "अन्य", "Various", "#94A3B8")
  ]

  /** The stored parties: the `k`-th seed party with id `partyId(k)` and
      the schema's zero seat and vote counts. */
  function PartyDocs(partyId: nat -> ObjectId): (r: seq<Party>)
    ensures |r| == |SeedParties|
    ensures forall k :: 0 <= k < |r| ==> r[k].id == partyId(k) && r[k].name == SeedParties[k].name
  {
    seq(|SeedParties|, k requires 0 <= k < |SeedParties| =>
      Party(partyId(k), SeedParties[k].name, Some(SeedParties[k].nameNepali),
            Some(SeedParties[k].symbol), Some(SeedParties[k].color), 0, 0))
  }

  datatype Template = Template(name: string, party: string)

  const Templates: seq<Template> := [
    Template("Gagan Thapa", "Nepali Congress"),
    Template("KP Sharma Oli", "CPN-UML"),
    Template("Pushpa Kamal Dahal", "CPN-Maoist"),
    Template("Rabi Lamichhane", "RSP"),
    Template("Rajendra Lingden", "RPP")
  ]

  const TemplateCount: nat := 5

  /** Only the first five districts get candidates. */
  const SeededDistricts: nat := 5
  const SeedYear: int := 2084

  /** `parties.find(p => p.name === name)`. */
  function PartyNamed(parties: seq<Party>, name: string): (r: Option<nat>)
    ensures r.Some? ==> r.value < |parties| && parties[r.value].name == name
    ensures r.Some? ==> forall j :: 0 <= j < r.value ==> parties[j].name != name
    ensures r.None? ==> forall j :: 0 <= j < |parties| ==> parties[j].name != name
  {
    FirstIndex(parties, (p: Party) => p.name == name)
  }

  /** Every template names a seed party, the one at the template's own
      position. */
  lemma TemplatePartyFound(partyId: nat -> ObjectId, t: nat)
    requires t < |Templates|
    ensures PartyNamed(PartyDocs(partyId), Templates[t].party) == Some(t)
  {
    var ps := PartyDocs(partyId);
    assert forall k :: 0 <= k < |ps| ==> ps[k].name == SeedParties[k].name;
    var r := PartyNamed(ps, Templates[t].party);
    assert Templates[t].party == SeedParties[t].name;
    assert r.Some?;
    assert forall j :: 0 <= j < t ==> SeedParties[j].name != SeedParties[t].name by {
      assert SeedParties[1].name[1] != SeedParties[0].name[1];
      assert SeedParties[3].name[1] != SeedParties[4].name[1];
    }
  }

  // ---------------------------------------------------------------------
  // Candidate generation

  /** The position of one generated candidate: the district index, the
      constituency number and the template index. */
  datatype Slot = Slot(district: nat, constituency: int, template: nat)

  /** How many constituencies `for (c = 1; c <= totalConstituencies; c++)`
      visits: none when the count is missing or not positive. */
  function Constituencies(d: District): (n: nat)
    ensures d.totalConstituencies.Some? && d.totalConstituencies.value > 0 ==> n == d.totalConstituencies.value
    ensures d.totalConstituencies.None? || d.totalConstituencies.value <= 0 ==> n == 0
  {
    match d.totalConstituencies
    case Some(v) => if v > 0 then v else 0
    case None => 0
  }

  /** The slots of constituency `c` of district `i`, one per template. */
  function RowSlots(i: nat, c: int): (r: seq<Slot>)
    ensures |r| == TemplateCount
    ensures forall t :: 0 <= t < |r| ==> r[t] == Slot(i, c, t)
  {
    seq(TemplateCount, t requires 0 <= t < TemplateCount => Slot(i, c, t))
  }

  /** The slots of constituencies 1..n of district `i`, in loop order. */
  function DistrictSlots(i: nat, n: nat): seq<Slot> {
    if n == 0 then [] else DistrictSlots(i, n - 1) + RowSlots(i, n)
  }

  /** The slots of the first `m` districts, in loop order. */
  function Slots(ds: seq<District>, m: nat): seq<Slot>
    requires m <= |ds|
  {
    if m == 0 then [] else Slots(ds, m - 1) + DistrictSlots(m - 1, Constituencies(ds[m - 1]))
  }

  /** A slot whose district, constituency and template exist. */
  predicate SlotOf(ds: seq<District>, m: nat, s: Slot)
    requires m <= |ds|
  {
    s.district < m && 1 <= s.constituency <= Constituencies(ds[s.district]) && s.template < TemplateCount
  }

  /** `Math.floor(Math.random() * 20000) + 5000`. */
  function Votes(x: real): int {
    (x * 20000.0).Floor + 5000
  }

  /** `Math.random() > 0.5 ? 'leading' : 'trailing'`. */
  function Status(x: real): CandidateStatus {
    if x > 0.5 then Leading else Trailing
  }

  /** A value of `Math.random()`. */
  ghost predicate UnitDraws(rand: nat -> real) {
    forall k: nat :: 0.0 <= rand(k) < 1.0
  }

  /** The body pushed for slot `s` as the `k`-th candidate: it is built
      from draw `2k` (votes) and draw `2k + 1` (status). */
  function Body(ds: seq<District>, templates: seq<Template>, partyId: nat -> ObjectId, rand: nat -> real, s: Slot, k: nat)
    : CandidateBody
    requires s.district < |ds| && s.template < |templates|
  {
    var district := ds[s.district];
    CandidateBody(Some(templates[s.template].name + " (" + district.name + ")"), None,
                  Some(partyId(s.template)), Some(district.id), Some(s.constituency),
                  Some(SeedYear), Some(Federal), Some(Votes(rand(2 * k))), None,
                  Some(Status(rand(2 * k + 1))), None)
  }

  predicate SlotsExist(ds: seq<District>, ss: seq<Slot>) {
    forall k :: 0 <= k < |ss| ==> ss[k].district < |ds| && ss[k].template < TemplateCount
  }

  /** The bodies pushed for the slots `ss`, in order: the `k`-th slot
      gives the `k`-th body. */
  function Bodies(ds: seq<District>, templates: seq<Template>, partyId: nat -> ObjectId, rand: nat -> real, ss: seq<Slot>)
    : (r: seq<CandidateBody>)
    requires |templates| == TemplateCount && SlotsExist(ds, ss)
    ensures |r| == |ss|
  {
    seq(|ss|, k requires 0 <= k < |ss| => Body(ds, templates, partyId, rand, ss[k], k))
  }

  lemma BodiesAppend(ds: seq<District>, templates: seq<Template>, partyId: nat -> ObjectId, rand: nat -> real,
                     ss: seq<Slot>, s: Slot)
    requires |templates| == TemplateCount && SlotsExist(ds, ss) && s.district < |ds| && s.template < TemplateCount
    ensures SlotsExist(ds, ss + [s])
    ensures Bodies(ds, templates, partyId, rand, ss + [s])
            == Bodies(ds, templates, partyId, rand, ss) + [Body(ds, templates, partyId, rand, s, |ss|)]
  {
    var ss' := ss + [s];
    assert SlotsExist(ds, ss');
    var l := Bodies(ds, templates, partyId, rand, ss');
    var r := Bodies(ds, templates, partyId, rand, ss) + [Body(ds, templates, partyId, rand, s, |ss|)];
    forall k | 0 <= k < |ss'| ensures l[k] == r[k] {
      if k < |ss| {
        assert ss'[k] == ss[k];
      }
    }
  }

  lemma {:induction false} DistrictSlotsShape(i: nat, n: nat)
    ensures |DistrictSlots(i, n)| == TemplateCount * n
    ensures forall k :: 0 <= k < |DistrictSlots(i, n)| ==>
              var s := DistrictSlots(i, n)[k];
              s.district == i && 1 <= s.constituency <= n && s.template < TemplateCount
              && s.constituency == k / TemplateCount + 1 && s.template == k % TemplateCount
  {
    if n > 0 {
      DistrictSlotsShape(i, n - 1);
      var a: seq<Slot> := DistrictSlots(i, n - 1);
      var b: seq<Slot> := RowSlots(i, n);
      forall k | 0 <= k < |a + b|
        ensures (a + b)[k].district == i && 1 <= (a + b)[k].constituency <= n && (a + b)[k].template < TemplateCount
        ensures (a + b)[k].constituency == k / TemplateCount + 1 && (a + b)[k].template == k % TemplateCount
      {
        if k >= |a| {
          assert (a + b)[k] == b[k - |a|];
          assert k == TemplateCount * (n - 1) + (k - |a|);
        } else {
          assert (a + b)[k] == a[k];
        }
      }
    }
  }

  /** The number of constituencies the first `m` districts visit. */
  function ConstituencySum(ds: seq<District>, m: nat): (n: nat)
    requires m <= |ds|
  {
    if m == 0 then 0 else ConstituencySum(ds, m - 1) + Constituencies(ds[m - 1])
  }

  /** The slots of the first `m` districts: five per visited constituency,
      every one naming an existing district, constituency and template. */
  lemma {:induction false} SlotsShape(ds: seq<District>, m: nat)
    requires m <= |ds|
    ensures |Slots(ds, m)| == TemplateCount * ConstituencySum(ds, m)
    ensures forall k :: 0 <= k < |Slots(ds, m)| ==> SlotOf(ds, m, Slots(ds, m)[k])
  {
    if m > 0 {
      SlotsShape(ds, m - 1);
      var a := Slots(ds, m - 1);
      var b := DistrictSlots(m - 1, Constituencies(ds[m - 1]));
      DistrictSlotsShape(m - 1, Constituencies(ds[m - 1]));
      forall k | 0 <= k < |a + b| ensures SlotOf(ds, m, (a + b)[k]) {
        if k < |a| {
          assert (a + b)[k] == a[k];
        } else {
          assert (a + b)[k] == b[k - |a|];
        }
      }
    }
  }

  /** Slots are listed in strictly increasing (district, constituency,
      template) order, so no position is generated twice. */
  predicate SlotBefore(a: Slot, b: Slot) {
    || a.district < b.district
    || (a.district == b.district && a.constituency < b.constituency)
    || (a.district == b.district && a.constituency == b.constituency && a.template < b.template)
  }

  lemma {:induction false} SlotsIncreasing(ds: seq<District>, m: nat)
    requires m <= |ds|
    ensures forall i, j :: 0 <= i < j < |Slots(ds, m)| ==> SlotBefore(Slots(ds, m)[i], Slots(ds, m)[j])
  {
    if m > 0 {
      SlotsIncreasing(ds, m - 1);
      SlotsShape(ds, m - 1);
      var a := Slots(ds, m - 1);
      var n := Constituencies(ds[m - 1]);
      var b := DistrictSlots(m - 1, n);
      DistrictSlotsShape(m - 1, n);
      forall i, j | 0 <= i < j < |a + b| ensures SlotBefore((a + b)[i], (a + b)[j]) {
        if j < |a| {
          assert (a + b)[i] == a[i] && (a + b)[j] == a[j];
        } else if i < |a| {
          assert (a + b)[i] == a[i] && (a + b)[j] == b[j - |a|];
          assert SlotOf(ds, m - 1, a[i]);
        } else {
          var i', j' := i - |a|, j - |a|;
          assert (a + b)[i] == b[i'] && (a + b)[j] == b[j'];
          var T := TemplateCount;
          assert i' == T * (i' / T) + i' % T && j' == T * (j' / T) + j' % T;
          if i' / T == j' / T {
            assert i' % T < j' % T;
          } else {
            assert i' / T < j' / T;
          }
        }
      }
    }
  }

  /** Every position of the first `m` districts occurs among the slots,
      exactly once. */
  lemma SlotsExact(ds: seq<District>, m: nat, s: Slot)
    requires m <= |ds|
    ensures s in Slots(ds, m) <==> SlotOf(ds, m, s)
    ensures forall i, j :: 0 <= i < j < |Slots(ds, m)| ==> Slots(ds, m)[i] != Slots(ds, m)[j]
  {
    SlotsShape(ds, m);
    SlotsIncreasing(ds, m);
    if SlotOf(ds, m, s) {
      SlotsCover(ds, m, s);
    }
  }

  lemma {:induction false} SlotsCover(ds: seq<District>, m: nat, s: Slot)
    requires m <= |ds| && SlotOf(ds, m, s)
    ensures s in Slots(ds, m)
  {
    if s.district < m - 1 {
      SlotsCover(ds, m - 1, s);
    } else {
      var n := Constituencies(ds[m - 1]);
      DistrictSlotsCover(m - 1, n, s);
    }
  }

  lemma {:induction false} DistrictSlotsCover(i: nat, n: nat, s: Slot)
    requires s.district == i && 1 <= s.constituency <= n && s.template < TemplateCount
    ensures s in DistrictSlots(i, n)
  {
    if s.constituency < n {
      DistrictSlotsCover(i, n - 1, s);
    } else {
      assert RowSlots(i, n)[s.template] == s;
    }
  }

  /** Every generated body: its name is the template's name followed by the
      district's name in parentheses, its party is the template's party,
      its year 2084, its type federal, its constituency within the
      district's count, and its votes within [5000, 24999]. */
  lemma GeneratedBodies(ds: seq<District>, templates: seq<Template>, partyId: nat -> ObjectId, rand: nat -> real, k: nat)
    requires |templates| == TemplateCount && SeededDistricts <= |ds| && UnitDraws(rand)
    requires k < |Slots(ds, SeededDistricts)|
    ensures SlotsExist(ds, Slots(ds, SeededDistricts))
    ensures var s := Slots(ds, SeededDistricts)[k];
      var b := Bodies(ds, templates, partyId, rand, Slots(ds, SeededDistricts))[k];
      && SlotOf(ds, SeededDistricts, s)
      && b.name == Some(templates[s.template].name + " (" + ds[s.district].name + ")")
      && b.party == Some(partyId(s.template))
      && b.district == Some(ds[s.district].id)
      && b.constituency.Some? && 1 <= b.constituency.value <= Constituencies(ds[s.district])
      && b.electionYear == Some(2084) && b.electionType == Some(Federal)
      && b.votes.Some? && 5000 <= b.votes.value <= 24999
      && (b.status == Some(Leading) || b.status == Some(Trailing))
  {
    var ss := Slots(ds, SeededDistricts);
    SlotsShape(ds, SeededDistricts);
        var x := rand(2 * k);
    assert 0.0 <= x * 20000.0 < 20000.0;
  }

  /** The number of generated candidates is five times the number of
      constituencies the first five districts have. */
  lemma GeneratedCount(ds: seq<District>, templates: seq<Template>, partyId: nat -> ObjectId, rand: nat -> real)
    requires |templates| == TemplateCount && SeededDistricts <= |ds|
    ensures SlotsExist(ds, Slots(ds, SeededDistricts))
    ensures |Bodies(ds, templates, partyId, rand, Slots(ds, SeededDistricts))|
            == 5 * (Constituencies(ds[0]) + Constituencies(ds[1]) + Constituencies(ds[2])
                    + Constituencies(ds[3]) + Constituencies(ds[4]))
  {
    SlotsShape(ds, SeededDistricts);
    assert ConstituencySum(ds, 1) == Constituencies(ds[0]);
    assert ConstituencySum(ds, 3) == ConstituencySum(ds, 2) + Constituencies(ds[2]);
    assert ConstituencySum(ds, 5) == ConstituencySum(ds, 4) + Constituencies(ds[4]);
  }

  /** The candidate loops of the seed script: for each of the first five
      districts, each constituency `c` from 1 while `c <= totalConstituencies`,
      and each template, push one body. Fewer than five districts make the
      script throw (`undefined.totalConstituencies`): `None`. */
  method GenerateCandidates(ds: seq<District>, partyId: nat -> ObjectId, rand: nat -> real)
    returns (out: Option<seq<CandidateBody>>)
    ensures out.None? <==> |ds| < SeededDistricts
    ensures out.Some? ==> SlotsExist(ds, Slots(ds, SeededDistricts))
    ensures out.Some? ==> out.value == Bodies(ds, Templates, partyId, rand, Slots(ds, SeededDistricts))
  {
    var parties := PartyDocs(partyId);
    var candidates: seq<CandidateBody> := [];
    var i := 0;
    while i < SeededDistricts
      invariant 0 <= i <= SeededDistricts && i <= |ds|
      invariant SlotsExist(ds, Slots(ds, i))
      invariant candidates == Bodies(ds, Templates, partyId, rand, Slots(ds, i))
    {
      if i >= |ds| {
        return None;
      }
      candidates := PushDistrict(ds, partyId, rand, parties, i, candidates);
      i := i + 1;
    }
    out := Some(candidates);
  }

  /** The constituency loop for district `i`: the bodies of its
      constituencies appended to those of the districts before it. */
  method PushDistrict(ds: seq<District>, partyId: nat -> ObjectId, rand: nat -> real, parties: seq<Party>,
                      i: nat, before: seq<CandidateBody>)
    returns (candidates: seq<CandidateBody>)
    requires parties == PartyDocs(partyId) && i < |ds|
    requires SlotsExist(ds, Slots(ds, i)) && before == Bodies(ds, Templates, partyId, rand, Slots(ds, i))
    ensures SlotsExist(ds, Slots(ds, i + 1))
    ensures candidates == Bodies(ds, Templates, partyId, rand, Slots(ds, i + 1))
  {
    candidates := before;
    var district := ds[i];
    var n := Constituencies(district);
    SlotsShape(ds, i + 1);
    var c := 1;
    while district.totalConstituencies.Some? && c <= district.totalConstituencies.value
      invariant 1 <= c <= n + 1
      invariant SlotsExist(ds, Slots(ds, i) + DistrictSlots(i, c - 1))
      invariant candidates == Bodies(ds, Templates, partyId, rand, Slots(ds, i) + DistrictSlots(i, c - 1))
    {
      candidates := PushConstituency(ds, partyId, rand, parties, i, c, Slots(ds, i) + DistrictSlots(i, c - 1), candidates);
      assert Slots(ds, i) + DistrictSlots(i, c - 1) + RowSlots(i, c) == Slots(ds, i) + DistrictSlots(i, c);
      c := c + 1;
    }
    assert c - 1 == n;
  }

  /** `candidateTemplates.forEach(...)` for constituency `c` of district
      `i`: one body per template, each from the next two draws. */
  method PushConstituency(ds: seq<District>, partyId: nat -> ObjectId, rand: nat -> real, parties: seq<Party>,
                          i: nat, c: int, done: seq<Slot>, before: seq<CandidateBody>)
    returns (candidates: seq<CandidateBody>)
    requires parties == PartyDocs(partyId) && i < |ds|
    requires SlotsExist(ds, done) && before == Bodies(ds, Templates, partyId, rand, done)
    ensures SlotsExist(ds, done + RowSlots(i, c))
    ensures candidates == Bodies(ds, Templates, partyId, rand, done + RowSlots(i, c))
  {
    candidates := before;
    var district := ds[i];
    for t := 0 to |Templates|
      invariant SlotsExist(ds, done + RowSlots(i, c)[..t])
      invariant candidates == Bodies(ds, Templates, partyId, rand, done + RowSlots(i, c)[..t])
    {
      var template := Templates[t];
      var party := PartyNamed(parties, template.party);
      TemplatePartyFound(partyId, t);
      var k := |candidates|;
      BodiesAppend(ds, Templates, partyId, rand, done + RowSlots(i, c)[..t], Slot(i, c, t));
      assert done + RowSlots(i, c)[..t + 1] == done + RowSlots(i, c)[..t] + [Slot(i, c, t)];
      candidates := candidates + [CandidateBody(
        Some(template.name + " (" + district.name + ")"), None,
        Some(parties[party.value].id), Some(district.id), Some(c),
        Some(SeedYear), Some(Federal), Some(Votes(rand(2 * k))), None,
        Some(Status(rand(2 * k + 1))), None)];
    }
    assert RowSlots(i, c)[..|Templates|] == RowSlots(i, c);
  }

  /** `Candidate.insertMany(candidates)`: the `k`-th body stored with id
      `candidateId(k)` and the schema defaults. Every generated body has a
      name and references ids the database assigned, so every one is
      stored. */
  function CreatedCandidates(bodies: seq<CandidateBody>, candidateId: nat -> ObjectId): (r: seq<CandidateDoc>)
    requires forall k :: 0 <= k < |bodies| ==>
               NameValid(bodies[k].name) && PathCasts(bodies[k].party) && PathCasts(bodies[k].district)
    ensures |r| == |bodies|
    ensures forall k :: 0 <= k < |r| ==> Some(r[k]) == CandidateFromBody(candidateId(k), bodies[k])
  {
    seq(|bodies|, k requires 0 <= k < |bodies| => CandidateFromBody(candidateId(k), bodies[k]).value)
  }

  // ---------------------------------------------------------------------
  // Result derivation

  /** The plain object pushed for one leading candidate (`status: 'counted'`
      is not a schema path and is dropped on insert); `lastUpdated` is the
      clock reading taken when it is pushed. */
  datatype DerivedResult = DerivedResult(
    district: ObjectId,
    constituency: int,
    winner: ObjectId,
    runnerUp: Option<ObjectId>,
    totalVotes: int,
    lastUpdated: int)

  /** Every created candidate has a district and a constituency (the
      runner-up search calls `toString` on the district). */
  predicate Placed(created: seq<CandidateDoc>) {
    forall j :: 0 <= j < |created| ==> created[j].district.Some? && created[j].constituency.Some?
  }

  /** `createdCandidates.find(...)`: the first candidate, in creation order,
      with the winner's district and constituency and a different id. */
  function RunnerUp(created: seq<CandidateDoc>, winner: CandidateDoc): (r: Option<nat>)
    ensures r.Some? ==>
              && r.value < |created|
              && created[r.value].district == winner.district
              && created[r.value].constituency == winner.constituency
              && created[r.value].id != winner.id
    ensures r.Some? ==>
              forall j :: 0 <= j < r.value ==>
                !(created[j].district == winner.district && created[j].constituency == winner.constituency
                  && created[j].id != winner.id)
    ensures r.None? ==>
              forall j :: 0 <= j < |created| ==>
                !(created[j].district == winner.district && created[j].constituency == winner.constituency
                  && created[j].id != winner.id)
  {
    FirstIndex(created, (c: CandidateDoc) =>
      c.district == winner.district && c.constituency == winner.constituency && c.id != winner.id)
  }

  /** The result derived for one leading candidate: the winner's district
      and constituency, the winner, the runner-up (or none) and
      `winner.votes + (runnerUp ? runnerUp.votes : 0) + 1000`, stamped
      with the clock reading `at`. */
  function Derive(created: seq<CandidateDoc>, winner: CandidateDoc, at: int): (r: DerivedResult)
    requires winner.district.Some? && winner.constituency.Some?
    ensures r.winner == winner.id && r.district == winner.district.value && r.constituency == winner.constituency.value
    ensures r.lastUpdated == at
    ensures RunnerUp(created, winner).None? ==> r.runnerUp.None? && r.totalVotes == winner.votes + 1000
    ensures RunnerUp(created, winner).Some? ==>
              var u := created[RunnerUp(created, winner).value];
              r.runnerUp == Some(u.id) && r.totalVotes == winner.votes + u.votes + 1000
  {
    var u := RunnerUp(created, winner);
    DerivedResult(winner.district.value, winner.constituency.value, winner.id,
                  if u.Some? then Some(created[u.value].id) else None,
                  winner.votes + (if u.Some? then created[u.value].votes else 0) + 1000, at)
  }

  predicate IsLeading(c: CandidateDoc) {
    c.status == Leading
  }

  /** The results the loop pushes: one per leading candidate, in the order
      of the leading candidates, the `k`-th stamped with the clock reading
      `now(k)` (`new Date()` is evaluated once per result). */
  function Derivations(created: seq<CandidateDoc>, now: nat -> int): (r: seq<DerivedResult>)
    requires Placed(created)
    ensures |r| == |Filter(created, IsLeading)| == Count(created, IsLeading)
    ensures forall k :: 0 <= k < |r| ==>
              var w := Filter(created, IsLeading)[k];
              w in created && w.status == Leading
              && w.district.Some? && w.constituency.Some? && r[k] == Derive(created, w, now(k))
  {
    var leading := Filter(created, IsLeading);
    FilterLength(created, IsLeading);
    assert forall j :: 0 <= j < |leading| ==> leading[j] in created && IsLeading(leading[j]);
    seq(|leading|, k requires 0 <= k < |leading| => Derive(created, leading[k], now(k)))
  }

  /** The result loop: `for (const winner of leadingCandidates)`, pushing
      one result per leading candidate. */
  method DeriveResults(created: seq<CandidateDoc>, now: nat -> int) returns (results: seq<DerivedResult>)
    requires Placed(created)
    ensures results == Derivations(created, now)
  {
    var leading := Filter(created, IsLeading);
    assert forall j :: 0 <= j < |leading| ==> leading[j] in created && IsLeading(leading[j]);
    results := DeriveEach(created, leading, now);
  }

  /** The loop body of the result derivation, for each leading candidate in
      turn. */
  method DeriveEach(created: seq<CandidateDoc>, leading: seq<CandidateDoc>, now: nat -> int)
    returns (results: seq<DerivedResult>)
    requires forall j :: 0 <= j < |leading| ==> leading[j].district.Some? && leading[j].constituency.Some?
    ensures |results| == |leading|
    ensures forall k :: 0 <= k < |results| ==> results[k] == Derive(created, leading[k], now(k))
  {
    results := [];
    for k := 0 to |leading|
      invariant |results| == k
      invariant forall j :: 0 <= j < k ==> results[j] == Derive(created, leading[j], now(j))
    {
      var winner := leading[k];
      var runnerUp := RunnerUp(created, winner);
      var r := DerivedResult(
        winner.district.value, winner.constituency.value, winner.id,
        if runnerUp.Some? then Some(created[runnerUp.value].id) else None,
        winner.votes + (if runnerUp.Some? then created[runnerUp.value].votes else 0) + 1000,
        now(k));
      assert r == Derive(created, winner, now(k));
      results := results + [r];
    }
  }

  /** `Result.insertMany(results)`: the `k`-th derived result stored with id
      `resultId(k)`, year 2084, no tallies, and the paths the object
      does not set absent. */
  function StoredResults(derived: seq<DerivedResult>, resultId: nat -> ObjectId): (r: seq<ResultDoc>)
    ensures |r| == |derived|
    ensures forall k :: 0 <= k < |r| ==>
              && r[k].id == resultId(k) && r[k].district == derived[k].district
              && r[k].constituency == derived[k].constituency && r[k].electionYear == SeedYear
              && r[k].winner == Some(derived[k].winner) && r[k].runnerUp == derived[k].runnerUp
              && r[k].totalVotes == Some(derived[k].totalVotes) && r[k].candidates == []
              && r[k].lastUpdated == derived[k].lastUpdated
              && r[k].electionType.None? && r[k].margin.None?
              && r[k].rejectedVotes.None? && r[k].turnout.None?
  {
    seq(|derived|, k requires 0 <= k < |derived| =>
      ResultDoc(resultId(k), derived[k].district, derived[k].constituency, SeedYear, None, [],
                Some(derived[k].winner), derived[k].runnerUp, None, Some(derived[k].totalVotes),
                None, None, derived[k].lastUpdated))
  }

  /** Every seeded result names as its winner a leading created candidate
      of the result's own district and constituency, and as its runner-up,
      if any, another created candidate of that constituency. */
  lemma SeededWinnersLead(created: seq<CandidateDoc>, now: nat -> int, resultId: nat -> ObjectId, k: nat)
    requires Placed(created) && k < Count(created, IsLeading)
    ensures var r := StoredResults(Derivations(created, now), resultId)[k];
      && r.winner.Some?
      && (exists j :: 0 <= j < |created| && created[j].id == r.winner.value && IsLeading(created[j])
                      && created[j].district == Some(r.district) && created[j].constituency == Some(r.constituency))
      && (r.runnerUp.Some? ==>
            exists j :: 0 <= j < |created| && created[j].id == r.runnerUp.value && created[j].id != r.winner.value
                        && created[j].district == Some(r.district) && created[j].constituency == Some(r.constituency))
  {
    var ds := Derivations(created, now);
    var r := StoredResults(ds, resultId)[k];
    var w := Filter(created, IsLeading)[k];
    assert ds[k] == Derive(created, w, now(k));
    var i :| 0 <= i < |created| && created[i] == w;
    assert created[i].id == r.winner.value;
    var u := RunnerUp(created, w);
    if u.Some? {
      assert created[u.value].id == r.runnerUp.value;
    }
  }

  // ---------------------------------------------------------------------
  // Consequences of the derivation

  /** Two leading candidates in one constituency give two results with the
      same (district, constituency, year) key: nothing checks that a key is
      seeded once. */
  lemma TwoLeadersTwoResults()
    ensures var d := "000000000000000000000001";
      var a := CandidateDoc("00000000000000000000000a", "A", None, None, Some(d), Some(1), Some(2084),
                            Some(Federal), 9000, 0.0, Leading, 0);
      var b := CandidateDoc("00000000000000000000000b", "B", None, None, Some(d), Some(1), Some(2084),
                            Some(Federal), 8000, 0.0, Leading, 0);
      var rs := [Derive([a, b], a, 0), Derive([a, b], b, 0)];
      rs[0].district == rs[1].district && rs[0].constituency == rs[1].constituency
      && rs[0].winner != rs[1].winner
  {
  }

  /** The runner-up is the first other candidate of the constituency in
      creation order, not the one with the most votes after the winner. */
  lemma RunnerUpNotSecondBest()
    ensures var d := "000000000000000000000001";
      var w := CandidateDoc("00000000000000000000000a", "W", None, None, Some(d), Some(1), Some(2084),
                            Some(Federal), 20000, 0.0, Leading, 0);
      var x := CandidateDoc("00000000000000000000000b", "X", None, None, Some(d), Some(1), Some(2084),
                            Some(Federal), 5000, 0.0, Trailing, 0);
      var y := CandidateDoc("00000000000000000000000c", "Y", None, None, Some(d), Some(1), Some(2084),
                            Some(Federal), 15000, 0.0, Trailing, 0);
      var r := Derive([w, x, y], w, 0);
      r.runnerUp == Some(x.id) && y.votes > x.votes && r.totalVotes == 26000
  {
    var d := "000000000000000000000001";
    var w := CandidateDoc("00000000000000000000000a", "W", None, None, Some(d), Some(1), Some(2084),
                          Some(Federal), 20000, 0.0, Leading, 0);
    var x := CandidateDoc("00000000000000000000000b", "X", None, None, Some(d), Some(1), Some(2084),
                          Some(Federal), 5000, 0.0, Trailing, 0);
    var y := CandidateDoc("00000000000000000000000c", "Y", None, None, Some(d), Some(1), Some(2084),
                          Some(Federal), 15000, 0.0, Trailing, 0);
    var p := (c: CandidateDoc) => c.district == w.district && c.constituency == w.constituency && c.id != w.id;
    assert !p(w) && p(x);
    assert [w, x, y][1..] == [x, y];
    assert FirstIndex([x, y], p) == Some(0);
    assert RunnerUp([w, x, y], w) == Some(1);
  }

  // ---------------------------------------------------------------------
  // The whole script

  /** What the script leaves in the four collections it fills. */
  datatype Seeded = Seeded(
    districts: seq<District>,
    parties: seq<Party>,
    candidates: seq<CandidateDoc>,
    results: seq<ResultDoc>)

  /** The seed script: it empties the user, district, party and candidate
      collections (results are never deleted, so the `prior` results stay
      in front of the new ones) and inserts districts, parties, candidates
      and results. It fails (`process.exit(1)`) when the district
      documents are not insertable or there are fewer than five of them. */
  method RunSeed(data: seq<DistrictData>, rand: nat -> real, now: nat -> int, prior: seq<ResultDoc>,
                 districtId: nat -> ObjectId, partyId: nat -> ObjectId,
                 candidateId: nat -> ObjectId, resultId: nat -> ObjectId)
    returns (out: Option<Seeded>)
    requires AssignsIds(districtId) && AssignsIds(partyId)
    ensures out.Some? <==> DistrictsInsertable(data) && |data| >= SeededDistricts
    ensures out.Some? ==>
              && out.value.parties == PartyDocs(partyId)
              && out.value.districts == DistrictDocs(data, districtId)
              && SlotsExist(out.value.districts, Slots(out.value.districts, SeededDistricts))
              && |out.value.candidates| == |Slots(out.value.districts, SeededDistricts)|
              && (forall k :: 0 <= k < |out.value.candidates| ==>
                    Some(out.value.candidates[k]) ==
                    CandidateFromBody(candidateId(k), Bodies(out.value.districts, Templates, partyId, rand,
                                                             Slots(out.value.districts, SeededDistricts))[k]))
              && Placed(out.value.candidates)
              && out.value.results == prior + StoredResults(Derivations(out.value.candidates, now), resultId)
              && |out.value.results| == |prior| + Count(out.value.candidates, IsLeading)
  {
    var parties := PartyDocs(partyId);
    if !DistrictsInsertable(data) {
      return None;
    }
    var districts := DistrictDocs(data, districtId);
    var bodies := GenerateCandidates(districts, partyId, rand);
    if bodies.None? {
      return None;
    }
    var bs := bodies.value;
    var ss := Slots(districts, SeededDistricts);
    SlotsShape(districts, SeededDistricts);
    forall k | 0 <= k < |bs|
      ensures NameValid(bs[k].name) && PathCasts(bs[k].party) && PathCasts(bs[k].district)
      ensures bs[k].district.Some? && bs[k].constituency.Some?
    {
      assert bs[k] == Body(districts, Templates, partyId, rand, ss[k], k);
      assert IsCanonical(partyId(ss[k].template));
      assert IsCanonical(districtId(ss[k].district));
    }
    var created := CreatedCandidates(bs, candidateId);
    assert Placed(created);
    var derived := DeriveResults(created, now);
    out := Some(Seeded(districts, parties, created, prior + StoredResults(derived, resultId)));
  }
}
