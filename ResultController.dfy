/** The value-level logic of the results controller: the key lookup and
    the update-or-insert behind a result submission, the district and live
    views, and the national summary's seat count per party. The state
    change itself (and the event it emits) is `Store.Database.CreateResult`. */
module ResultController {

  import opened Common
  import opened Text
  import opened ObjectIds
  import opened Collections
  import opened Models

  /** (district, constituency, electionYear): the key a submission is
      looked up by. */
  datatype ResultKey = ResultKey(district: ObjectId, constituency: int, electionYear: int)

  /** A result submission body. The three key paths are always given; every
      other path may be absent. The references (`district`, `winner`,
      `runnerUp` and each tally's `candidate`) are the strings as sent; the
      lookup and the write cast them to ObjectIds. */
  datatype ResultBody = ResultBody(
    district: string,
    constituency: int,
    electionYear: int,
    electionType: Option<string>,
    candidates: Option<seq<Tally>>,
    winner: Option<string>,
    runnerUp: Option<string>,
    margin: Option<int>,
    totalVotes: Option<int>,
    rejectedVotes: Option<int>,
    turnout: Option<real>,
    lastUpdated: Option<int>)

  function KeyOf(r: ResultDoc): ResultKey {
    ResultKey(r.district, r.constituency, r.electionYear)
  }

  /** The lookup key of a body, or `None` when its district does not cast
      to an ObjectId (the query then throws). */
  function BodyKey(body: ResultBody): (k: Option<ResultKey>)
    ensures k.Some? <==> LooksLikeObjectId(body.district)
    ensures k.Some? ==> IsCanonical(k.value.district)
    ensures k.Some? ==> k.value.constituency == body.constituency && k.value.electionYear == body.electionYear
  {
    match Cast(body.district)
    case None => None
    case Some(d) => Some(ResultKey(d, body.constituency, body.electionYear))
  }

  /** `findOne(key)`: the first stored result with that key. */
  function FindByKey(table: seq<ResultDoc>, key: ResultKey): (r: Option<nat>)
    ensures r.Some? ==> r.value < |table| && KeyOf(table[r.value]) == key
    ensures r.Some? ==> forall j :: 0 <= j < r.value ==> KeyOf(table[j]) != key
    ensures r.None? ==> forall j :: 0 <= j < |table| ==> KeyOf(table[j]) != key
  {
    FirstIndex(table, (r: ResultDoc) => KeyOf(r) == key)
  }

  /** Every reference the body supplies casts; otherwise the write raises a
      cast error before anything is stored. */
  predicate BodyIdsCast(body: ResultBody) {
    && PathCasts(body.winner)
    && PathCasts(body.runnerUp)
    && (body.candidates.Some? ==>
          forall i :: 0 <= i < |body.candidates.value| ==> PathCasts(body.candidates.value[i].candidate))
  }

  /** The tallies as stored: each entry's candidate reference cast. */
  function CastTallies(ts: seq<Tally>): (r: seq<Tally>)
    ensures |r| == |ts|
    ensures forall i :: 0 <= i < |ts| ==> r[i] == ts[i].(candidate := CastPath(ts[i].candidate))
  {
    seq(|ts|, i requires 0 <= i < |ts| => ts[i].(candidate := CastPath(ts[i].candidate)))
  }

  /** `Result.create(body)`: the body's paths with references cast, `[]`
      for absent candidates and the creation time for an absent
      `lastUpdated`. */
  function Created(id: ObjectId, key: ResultKey, body: ResultBody, now: int): ResultDoc {
    ResultDoc(id, key.district, key.constituency, key.electionYear,
              body.electionType, CastTallies(OrElse(body.candidates, [])),
              CastPath(body.winner), CastPath(body.runnerUp), body.margin, body.totalVotes,
              body.rejectedVotes, body.turnout, OrElse(body.lastUpdated, now))
  }

  /** `findByIdAndUpdate(id, body)`: every path present in the body
      overwrites the stored one; every other path is kept. */
  function Updated(doc: ResultDoc, key: ResultKey, body: ResultBody): ResultDoc {
    ResultDoc(doc.id, key.district, key.constituency, key.electionYear,
              Overwrite(body.electionType, doc.electionType),
              if body.candidates.Some? then CastTallies(body.candidates.value) else doc.candidates,
              if body.winner.Some? then CastPath(body.winner) else doc.winner,
              if body.runnerUp.Some? then CastPath(body.runnerUp) else doc.runnerUp,
              Overwrite(body.margin, doc.margin),
              Overwrite(body.totalVotes, doc.totalVotes),
              Overwrite(body.rejectedVotes, doc.rejectedVotes),
              Overwrite(body.turnout, doc.turnout),
              OrElse(body.lastUpdated, doc.lastUpdated))
  }

  /** The table after a submission: the record found by the key is updated
      in place, or a new record is appended. `index` is where the written
      record sits. */
  datatype Upserted = Upserted(table: seq<ResultDoc>, created: bool, index: nat)

  function Upsert(table: seq<ResultDoc>, key: ResultKey, body: ResultBody, newId: ObjectId, now: int): (u: Upserted)
    ensures u.index < |u.table|
  {
    match FindByKey(table, key)
    case Some(i) => Upserted(table[i := Updated(table[i], key, body)], false, i)
    case None => Upserted(table + [Created(newId, key, body, now)], true, |table|)
  }

  function CountKey(table: seq<ResultDoc>, key: ResultKey): (n: nat)
    ensures n <= |table|
  {
    if table == [] then 0
    else CountKey(table[1..], key) + (if KeyOf(table[0]) == key then 1 else 0)
  }

  lemma {:induction false} CountKeyAppend(table: seq<ResultDoc>, r: ResultDoc, key: ResultKey)
    ensures CountKey(table + [r], key) == CountKey(table, key) + (if KeyOf(r) == key then 1 else 0)
  {
    if table != [] {
      assert (table + [r])[1..] == table[1..] + [r];
      CountKeyAppend(table[1..], r, key);
    } else {
      assert table + [r] == [r];
    }
  }

  lemma {:induction false} CountKeyUpdate(table: seq<ResultDoc>, i: nat, r: ResultDoc, key: ResultKey)
    requires i < |table| && KeyOf(r) == KeyOf(table[i])
    ensures CountKey(table[i := r], key) == CountKey(table, key)
  {
    if i > 0 {
      assert table[i := r][1..] == table[1..][i - 1 := r];
      CountKeyUpdate(table[1..], i - 1, r, key);
    } else {
      assert table[i := r][1..] == table[1..];
    }
  }

  lemma {:induction false} CountKeyZero(table: seq<ResultDoc>, key: ResultKey)
    ensures CountKey(table, key) == 0 <==> forall j :: 0 <= j < |table| ==> KeyOf(table[j]) != key
  {
    if table != [] {
      CountKeyZero(table[1..], key);
      if CountKey(table, key) == 0 {
        assert forall j :: 1 <= j < |table| ==> table[j] == table[1..][j - 1];
      }
    }
  }

  /** A submission never creates a second record for a key already
      present: the number of records with the submitted key becomes 1 when
      it was 0 and is unchanged otherwise, and every other key keeps its
      count. The table grows by exactly one record on creation and keeps its
      size on update. */
  lemma UpsertKeyCount(table: seq<ResultDoc>, key: ResultKey, body: ResultBody, newId: ObjectId, now: int, other: ResultKey)
    ensures var u := Upsert(table, key, body, newId, now);
      && (u.created <==> CountKey(table, key) == 0)
      && |u.table| == |table| + (if u.created then 1 else 0)
      && CountKey(u.table, key) == (if CountKey(table, key) == 0 then 1 else CountKey(table, key))
      && (other != key ==> CountKey(u.table, other) == CountKey(table, other))
  {
    var u := Upsert(table, key, body, newId, now);
    CountKeyZero(table, key);
    match FindByKey(table, key)
    case Some(i) =>
      CountKeyUpdate(table, i, Updated(table[i], key, body), key);
      CountKeyUpdate(table, i, Updated(table[i], key, body), other);
    case None =>
      CountKeyAppend(table, Created(newId, key, body, now), key);
      CountKeyAppend(table, Created(newId, key, body, now), other);
  }

  ghost predicate UniqueKeys(table: seq<ResultDoc>) {
    forall i, j :: 0 <= i < j < |table| ==> KeyOf(table[i]) != KeyOf(table[j])
  }

  /** Sequential submissions keep a table with one record per key that way. */
  lemma UpsertKeepsKeysUnique(table: seq<ResultDoc>, key: ResultKey, body: ResultBody, newId: ObjectId, now: int)
    requires UniqueKeys(table)
    ensures UniqueKeys(Upsert(table, key, body, newId, now).table)
  {
  }

  /** The written record holds every supplied path exactly as supplied,
      references cast (nothing is derived or validated). An absent path
      takes its default on creation and keeps the stored value on update, so
      an update that omits `lastUpdated` leaves it unchanged. Every other
      record is untouched. */
  lemma UpsertStoresAsSupplied(table: seq<ResultDoc>, key: ResultKey, body: ResultBody, newId: ObjectId, now: int)
    ensures var u := Upsert(table, key, body, newId, now);
      var r := u.table[u.index];
      && KeyOf(r) == key
      && (body.electionType.Some? ==> r.electionType == body.electionType)
      && (body.candidates.Some? ==> r.candidates == CastTallies(body.candidates.value))
      && (body.winner.Some? ==> r.winner == Cast(body.winner.value))
      && (body.runnerUp.Some? ==> r.runnerUp == Cast(body.runnerUp.value))
      && (body.margin.Some? ==> r.margin == body.margin)
      && (body.totalVotes.Some? ==> r.totalVotes == body.totalVotes)
      && (body.rejectedVotes.Some? ==> r.rejectedVotes == body.rejectedVotes)
      && (body.turnout.Some? ==> r.turnout == body.turnout)
      && (body.lastUpdated.Some? ==> r.lastUpdated == body.lastUpdated.value)
      && (u.created ==>
            && r.id == newId
            && (body.electionType.None? ==> r.electionType.None?)
            && (body.candidates.None? ==> r.candidates == [])
            && (body.winner.None? ==> r.winner.None?)
            && (body.runnerUp.None? ==> r.runnerUp.None?)
            && (body.margin.None? ==> r.margin.None?)
            && (body.totalVotes.None? ==> r.totalVotes.None?)
            && (body.rejectedVotes.None? ==> r.rejectedVotes.None?)
            && (body.turnout.None? ==> r.turnout.None?)
            && (body.lastUpdated.None? ==> r.lastUpdated == now))
      && (!u.created ==>
            var prev := table[u.index];
            && u.index < |table| && r.id == prev.id
            && (body.electionType.None? ==> r.electionType == prev.electionType)
            && (body.candidates.None? ==> r.candidates == prev.candidates)
            && (body.winner.None? ==> r.winner == prev.winner)
            && (body.runnerUp.None? ==> r.runnerUp == prev.runnerUp)
            && (body.margin.None? ==> r.margin == prev.margin)
            && (body.totalVotes.None? ==> r.totalVotes == prev.totalVotes)
            && (body.rejectedVotes.None? ==> r.rejectedVotes == prev.rejectedVotes)
            && (body.turnout.None? ==> r.turnout == prev.turnout)
            && (body.lastUpdated.None? ==> r.lastUpdated == prev.lastUpdated))
      && (forall j :: 0 <= j < |table| && j != u.index ==> u.table[j] == table[j])
  {
  }

  /** Submitting the same body twice leaves the table as the first
      submission left it. */
  lemma {:induction false} ResubmissionChangesNothing(table: seq<ResultDoc>, key: ResultKey, body: ResultBody, newId: ObjectId, newId2: ObjectId, now: int, later: int)
    ensures var once := Upsert(table, key, body, newId, now).table;
      var twice := Upsert(once, key, body, newId2, later);
      !twice.created && twice.table == once
  {
    var u := Upsert(table, key, body, newId, now);
    var once := u.table;
    assert KeyOf(once[u.index]) == key;
    var k := FindByKey(once, key);
    assert k.Some?;
    if u.created {
      assert forall j :: 0 <= j < |table| ==> once[j] == table[j];
      assert k.value == u.index;
    } else {
      assert forall j :: 0 <= j < |table| && j != u.index ==> once[j] == table[j];
      assert k.value == u.index;
    }
    assert Updated(once[u.index], key, body) == once[u.index];
  }

  // ---- Views ------------------------------------------------------------

  /** `find({ district: districtId })`: exactly the results of that
      district (with their multiplicities), or a 500 reply when the id does
      not cast. */
  function ResultsByDistrict(table: seq<ResultDoc>, districtId: string): (r: Reply<seq<ResultDoc>>)
    ensures r.Err? <==> !LooksLikeObjectId(districtId)
    ensures r.Err? ==> r.status == 500
    ensures r.Ok? ==> r.status == 200
    ensures r.Ok? ==> forall x :: multiset(r.value)[x] ==
                       if EqualsIgnoreCase(x.district, districtId) && IsCanonical(x.district)
                       then multiset(table)[x] else 0
  {
    match Cast(districtId)
    case None => Err(500, Rejected)
    case Some(id) =>
      var rs := Filter(table, (x: ResultDoc) => x.district == id);
      assert forall x: ResultDoc :: x.district == id <==> EqualsIgnoreCase(x.district, districtId) && IsCanonical(x.district) by {
        forall x: ResultDoc ensures x.district == id <==> EqualsIgnoreCase(x.district, districtId) && IsCanonical(x.district) {
          if EqualsIgnoreCase(x.district, districtId) && IsCanonical(x.district) {
            EqualsIgnoreCaseIsLowerEquality(x.district, districtId);
          }
          if x.district == id {
            EqualsIgnoreCaseIsLowerEquality(x.district, districtId);
            EqualsIgnoreCaseIsLowerEquality(id, districtId);
          }
        }
      }
      Ok(200, rs)
  }

  /** `sort({ lastUpdated: -1 })`. */
  predicate NewerFirst(a: ResultDoc, b: ResultDoc) {
    a.lastUpdated >= b.lastUpdated
  }

  lemma NewerFirstIsTotalPreorder()
    ensures TotalPreorder(NewerFirst)
  {
  }

  const LiveLimit: nat := 10

  /** `find().sort({ lastUpdated: -1 }).limit(10)`: at most ten stored
      results, newest first; with ten or more stored exactly ten, and no
      result left out is newer than the last one returned. */
  function LiveResults(table: seq<ResultDoc>): (r: seq<ResultDoc>)
    ensures |r| == if |table| < LiveLimit then |table| else LiveLimit
    ensures multiset(r) <= multiset(table)
    ensures forall i, j :: 0 <= i < j < |r| ==> r[i].lastUpdated >= r[j].lastUpdated
    ensures |r| > 0 ==> forall x :: x in multiset(table) - multiset(r) ==> x.lastUpdated <= r[|r| - 1].lastUpdated
  {
    var sorted := Sort(table, NewerFirst);
    NewerFirstIsTotalPreorder();
    SortSorted(table, NewerFirst);
    TakeLeavesLater(sorted, LiveLimit, NewerFirst);
    Take(sorted, LiveLimit)
  }

  // ---- National summary --------------------------------------------------

  const TotalSeats: nat := 275
  const OthersName: string := "Others"
  const OthersColor: string := "#94A3B8"

  /** One entry of `summary.parties`, in the order the entries were added. */
  datatype PartySeats = PartySeats(name: string, seats: nat, color: string)

  datatype NationalSummary = NationalSummary(
    totalSeats: nat,
    counted: nat,
    parties: seq<PartySeats>,
    lastUpdated: int)

  /** `party.name || 'Others'`: an empty name is falsy. */
  function SeatLabel(p: Party): string {
    if p.name == "" then OthersName else p.name
  }

  /** `party.color || '#94A3B8'`. */
  function SeatColor(p: Party): string {
    match p.color
    case Some(c) => if c == "" then OthersColor else c
    case None => OthersColor
  }

  /** The populated `r.winner.party`: the party of the candidate the
      winner id names. `None` when the result has no winner, the winner id
      names no candidate, or that candidate has no party or one whose id
      names no party. */
  function WinnerParty(r: ResultDoc, candidates: seq<CandidateDoc>, parties: seq<Party>): (p: Option<Party>)
    ensures p.Some? ==>
              && r.winner.Some? && p.value in parties
              && exists i :: 0 <= i < |candidates| && candidates[i].id == r.winner.value
                             && candidates[i].party == Some(p.value.id)
    ensures r.winner.None? ==> p.None?
    ensures r.winner.Some? && p.None? ==>
              forall i :: 0 <= i < |candidates| && candidates[i].id == r.winner.value
                          && (forall j :: 0 <= j < i ==> candidates[j].id != r.winner.value) ==>
                candidates[i].party.None?
                || forall k :: 0 <= k < |parties| ==> parties[k].id != candidates[i].party.value
  {
    match r.winner
    case None => None
    case Some(w) =>
      match FindCandidate(candidates, w)
      case None => None
      case Some(i) =>
        match candidates[i].party
        case None => None
        case Some(pid) => FindParty(parties, pid)
  }

  function WinnerParties(results: seq<ResultDoc>, candidates: seq<CandidateDoc>, parties: seq<Party>): (ws: seq<Option<Party>>)
    ensures |ws| == |results|
    ensures forall i :: 0 <= i < |results| ==> ws[i] == WinnerParty(results[i], candidates, parties)
  {
    seq(|results|, i requires 0 <= i < |results| => WinnerParty(results[i], candidates, parties))
  }

  /** The position of the entry named `name`. */
  function IndexOfName(entries: seq<PartySeats>, name: string): (r: Option<nat>)
    ensures r.Some? ==> r.value < |entries| && entries[r.value].name == name
    ensures r.None? ==> forall j :: 0 <= j < |entries| ==> entries[j].name != name
  {
    FirstIndex(entries, (e: PartySeats) => e.name == name)
  }

  /** One iteration of the summary loop: a result whose winner has a party
      adds a seat to the entry of that party's label, creating the entry
      with the party's colour when there is none yet. */
  function AddSeat(entries: seq<PartySeats>, w: Option<Party>): seq<PartySeats> {
    match w
    case None => entries
    case Some(p) =>
      match IndexOfName(entries, SeatLabel(p))
      case None => entries + [PartySeats(SeatLabel(p), 1, SeatColor(p))]
      case Some(i) => entries[i := entries[i].(seats := entries[i].seats + 1)]
  }

  /** The party entries after the loop has visited every result of `ws`. */
  function Seats(ws: seq<Option<Party>>): seq<PartySeats> {
    if ws == [] then [] else AddSeat(Seats(ws[..|ws| - 1]), ws[|ws| - 1])
  }

  function Summary(results: seq<ResultDoc>, candidates: seq<CandidateDoc>, parties: seq<Party>, now: int): NationalSummary {
    NationalSummary(TotalSeats, |results|, Seats(WinnerParties(results, candidates, parties)), now)
  }

  /** `getNationalSummary`: populate each result's winner and its party,
      then fold the results into per-party seat entries. */
  method GetNationalSummary(results: seq<ResultDoc>, candidates: seq<CandidateDoc>, parties: seq<Party>, now: int)
    returns (summary: NationalSummary)
    ensures summary == Summary(results, candidates, parties, now)
  {
    var winners := WinnerParties(results, candidates, parties);
    summary := NationalSummary(TotalSeats, |results|, [], now);
    for i := 0 to |winners|
      invariant summary == NationalSummary(TotalSeats, |results|, Seats(winners[..i]), now)
    {
      assert winners[..i + 1][..i] == winners[..i];
      if winners[i].Some? {
        var party := winners[i].value;
        var partyName := SeatLabel(party);
        var entries := summary.parties;
        var k := IndexOfName(entries, partyName);
        if k.None? {
          entries := entries + [PartySeats(partyName, 0, SeatColor(party))];
          k := Some(|entries| - 1);
        }
        entries := entries[k.value := entries[k.value].(seats := entries[k.value].seats + 1)];
        summary := summary.(parties := entries);
      }
    }
    assert winners[..|winners|] == winners;
  }

  /** Whether the result with populated winner party `w` counts for the
      label `name`. */
  predicate CountsFor(w: Option<Party>, name: string) {
    w.Some? && SeatLabel(w.value) == name
  }

  function LabelCount(ws: seq<Option<Party>>, name: string): (n: nat)
    ensures n <= |ws|
  {
    if ws == [] then 0
    else LabelCount(ws[..|ws| - 1], name) + (if CountsFor(ws[|ws| - 1], name) then 1 else 0)
  }

  /** The number of results whose winner has a party. */
  function SeatedCount(ws: seq<Option<Party>>): (n: nat)
    ensures n <= |ws|
  {
    if ws == [] then 0
    else SeatedCount(ws[..|ws| - 1]) + (if ws[|ws| - 1].Some? then 1 else 0)
  }

  function SumSeats(entries: seq<PartySeats>): nat {
    if entries == [] then 0 else entries[0].seats + SumSeats(entries[1..])
  }

  lemma {:induction false} SumSeatsAppend(entries: seq<PartySeats>, e: PartySeats)
    ensures SumSeats(entries + [e]) == SumSeats(entries) + e.seats
  {
    if entries != [] {
      assert (entries + [e])[1..] == entries[1..] + [e];
      SumSeatsAppend(entries[1..], e);
    } else {
      assert entries + [e] == [e];
    }
  }

  lemma {:induction false} SumSeatsIncrement(entries: seq<PartySeats>, i: nat)
    requires i < |entries|
    ensures SumSeats(entries[i := entries[i].(seats := entries[i].seats + 1)]) == SumSeats(entries) + 1
  {
    var e := entries[i := entries[i].(seats := entries[i].seats + 1)];
    if i > 0 {
      assert e[1..] == entries[1..][i - 1 := entries[1..][i - 1].(seats := entries[1..][i - 1].seats + 1)];
      SumSeatsIncrement(entries[1..], i - 1);
    } else {
      assert e[1..] == entries[1..];
    }
  }

  /** Each entry is named once (entries are keyed by name, so two parties
      with the same name share one entry), and its seat count is the number
      of results whose winner's party carries that name; a name no such
      result carries has no entry. */
  lemma {:induction false} SeatsPerName(ws: seq<Option<Party>>, name: string)
    ensures forall i, j :: 0 <= i < j < |Seats(ws)| ==> Seats(ws)[i].name != Seats(ws)[j].name
    ensures IndexOfName(Seats(ws), name).None? <==> LabelCount(ws, name) == 0
    ensures IndexOfName(Seats(ws), name).Some? ==> Seats(ws)[IndexOfName(Seats(ws), name).value].seats == LabelCount(ws, name)
  {
    if ws != [] {
      var prefix := ws[..|ws| - 1];
      var w := ws[|ws| - 1];
      SeatsPerName(prefix, name);
      AddSeatShape(Seats(prefix), w);
      if w.Some? {
        SeatsPerName(prefix, SeatLabel(w.value));
      }
      var before := Seats(prefix);
      var after := Seats(ws);
      if !CountsFor(w, name) {
        match IndexOfName(before, name)
        case None =>
          assert forall j :: 0 <= j < |after| ==> after[j].name != name;
        case Some(i) =>
          assert after[i].name == name && after[i].seats == before[i].seats;
          assert forall j :: 0 <= j < i ==> after[j].name != name;
      }
    }
  }

  /** `AddSeat` keeps every entry's name, adds a seat to the entry of the
      winner's label (appending it when absent), and leaves every other
      entry as it was. */
  lemma AddSeatShape(entries: seq<PartySeats>, w: Option<Party>)
    ensures var after := AddSeat(entries, w);
      && |entries| <= |after| <= |entries| + 1
      && (forall j :: 0 <= j < |entries| ==> after[j].name == entries[j].name)
      && (forall j :: 0 <= j < |entries| && !CountsFor(w, entries[j].name) ==> after[j] == entries[j])
      && (|after| == |entries| + 1 ==> CountsFor(w, after[|entries|].name) && after[|entries|].seats == 1)
      && (w.None? ==> after == entries)
  {
  }

  /** The seats of all entries add up to the number of results whose
      winner has a party. */
  lemma {:induction false} SeatsTotal(ws: seq<Option<Party>>)
    ensures SumSeats(Seats(ws)) == SeatedCount(ws)
  {
    if ws != [] {
      var prefix := ws[..|ws| - 1];
      var w := ws[|ws| - 1];
      SeatsTotal(prefix);
      if w.Some? {
        match IndexOfName(Seats(prefix), SeatLabel(w.value))
        case None => SumSeatsAppend(Seats(prefix), PartySeats(SeatLabel(w.value), 1, SeatColor(w.value)));
        case Some(i) => SumSeatsIncrement(Seats(prefix), i);
      }
    }
  }

  /** An entry's colour is the colour of the first result that contributed
      to it; later results only add seats. */
  lemma {:induction false} SeatsColourFromFirst(ws: seq<Option<Party>>, name: string)
    requires IndexOfName(Seats(ws), name).Some?
    ensures exists k ::
              && 0 <= k < |ws| && CountsFor(ws[k], name)
              && Seats(ws)[IndexOfName(Seats(ws), name).value].color == SeatColor(ws[k].value)
              && forall j :: 0 <= j < k ==> !CountsFor(ws[j], name)
  {
    var prefix := ws[..|ws| - 1];
    var w := ws[|ws| - 1];
    assert forall j :: 0 <= j < |prefix| ==> prefix[j] == ws[j];
    SeatsPerName(prefix, name);
    if IndexOfName(Seats(prefix), name).Some? {
      SeatsColourFromFirst(prefix, name);
      var k :| 0 <= k < |prefix| && CountsFor(prefix[k], name)
        && Seats(prefix)[IndexOfName(Seats(prefix), name).value].color == SeatColor(prefix[k].value)
        && forall j :: 0 <= j < k ==> !CountsFor(prefix[j], name);
      if w.Some? && SeatLabel(w.value) != name {
        SeatsPerName(prefix, SeatLabel(w.value));
      }
      assert Seats(ws)[IndexOfName(Seats(ws), name).value].color == SeatColor(ws[k].value);
    } else {
      LabelCountZero(prefix, name);
      assert CountsFor(w, name);
      assert Seats(ws) == Seats(prefix) + [PartySeats(name, 1, SeatColor(w.value))];
      assert IndexOfName(Seats(ws), name).value == |Seats(prefix)|;
    }
  }

  lemma {:induction false} LabelCountZero(ws: seq<Option<Party>>, name: string)
    ensures LabelCount(ws, name) == 0 <==> forall j :: 0 <= j < |ws| ==> !CountsFor(ws[j], name)
  {
    if ws != [] {
      var prefix := ws[..|ws| - 1];
      LabelCountZero(prefix, name);
      assert forall j :: 0 <= j < |prefix| ==> prefix[j] == ws[j];
    }
  }

  lemma {:induction false} SeatedCountAll(ws: seq<Option<Party>>)
    ensures SeatedCount(ws) == |ws| <==> forall j :: 0 <= j < |ws| ==> ws[j].Some?
  {
    if ws != [] {
      var prefix := ws[..|ws| - 1];
      SeatedCountAll(prefix);
      assert forall j :: 0 <= j < |prefix| ==> prefix[j] == ws[j];
    }
  }

  /** The summary counts every stored result, winner or not, against a
      fixed 275 seats; its party entries hold at most `counted` seats in
      all, exactly `counted` when every result's winner has a party. */
  lemma SummarySeatBound(results: seq<ResultDoc>, candidates: seq<CandidateDoc>, parties: seq<Party>, now: int)
    ensures var s := Summary(results, candidates, parties, now);
      && s.totalSeats == 275
      && s.counted == |results|
      && SumSeats(s.parties) <= s.counted
      && (SumSeats(s.parties) == s.counted <==>
          forall i :: 0 <= i < |results| ==> WinnerParty(results[i], candidates, parties).Some?)
  {
    var ws := WinnerParties(results, candidates, parties);
    SeatsTotal(ws);
    SeatedCountAll(ws);
  }
}
