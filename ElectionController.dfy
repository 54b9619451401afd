/** The elections controller over the election collection as a value:
    the listing in descending year order, the choice of the current
    election, and lookup, creation, update and deletion by id. A mutation
    returns the reply together with the collection it leaves behind. */
module ElectionController {

  import opened Common
  import opened ObjectIds
  import opened Collections
  import opened Models

  const ElectionNotFound: string := "Election not found"
  const NoCurrentElection: string := "No active or upcoming election found"

  /** `sort({ year: -1 })`. */
  predicate LaterYearFirst(a: Election, b: Election) {
    a.year >= b.year
  }

  /** `getElections`: every stored election, latest year first. */
  function GetElections(es: seq<Election>): (r: seq<Election>)
    ensures multiset(r) == multiset(es)
    ensures forall i, j :: 0 <= i < j < |r| ==> r[i].year >= r[j].year
  {
    assert TotalPreorder(LaterYearFirst);
    SortSorted(es, LaterYearFirst);
    Sort(es, LaterYearFirst)
  }

  /** `findOne({ status: 'ongoing' })`: the first ongoing election. */
  function FirstOngoing(es: seq<Election>): (r: Option<nat>)
    ensures r.Some? ==> r.value < |es| && es[r.value].status == Some(Ongoing)
    ensures r.None? ==> forall j :: 0 <= j < |es| ==> es[j].status != Some(Ongoing)
  {
    FirstIndex(es, (e: Election) => e.status == Some(Ongoing))
  }

  /** Ascending order on an optional date: a missing date sorts before
      every date. */
  predicate StartsNoLater(a: Option<int>, b: Option<int>) {
    a.None? || (b.Some? && a.value <= b.value)
  }

  /** `findOne({ status: 'upcoming' }).sort({ startDate: 1 })`: an upcoming
      election with the smallest start date (the first such in stored
      order). */
  function EarliestUpcoming(es: seq<Election>): (r: Option<nat>)
    ensures r.Some? ==> r.value < |es| && es[r.value].status == Some(Upcoming)
    ensures r.Some? ==>
              forall j :: 0 <= j < |es| && es[j].status == Some(Upcoming) ==>
                StartsNoLater(es[r.value].startDate, es[j].startDate)
    ensures r.None? ==> forall j :: 0 <= j < |es| ==> es[j].status != Some(Upcoming)
  {
    if es == [] then None
    else
      var rest := EarliestUpcoming(es[1..]);
      if es[0].status != Some(Upcoming) then
        (match rest case None => None case Some(k) => Some(k + 1))
      else match rest
        case None => Some(0)
        case Some(k) => if StartsNoLater(es[0].startDate, es[k + 1].startDate) then Some(0) else Some(k + 1)
  }

  /** `getCurrentElection`: an ongoing election when there is one; else an
      upcoming one with the earliest start date; else 404. A completed
      election is never returned. */
  function GetCurrentElection(es: seq<Election>): (r: Reply<Election>)
    ensures r.Ok? ==> r.status == 200 && r.value in es
    ensures r.Ok? ==> r.value.status == Some(Ongoing) || r.value.status == Some(Upcoming)
    ensures (exists j :: 0 <= j < |es| && es[j].status == Some(Ongoing)) ==> r.Ok? && r.value.status == Some(Ongoing)
    ensures r.Ok? && r.value.status == Some(Upcoming) ==>
              forall j :: 0 <= j < |es| ==>
                es[j].status != Some(Ongoing) && (es[j].status == Some(Upcoming) ==> StartsNoLater(r.value.startDate, es[j].startDate))
    ensures r.Err? <==> forall j :: 0 <= j < |es| ==> es[j].status != Some(Ongoing) && es[j].status != Some(Upcoming)
    ensures r.Err? ==> r == Err(404, NotFound(NoCurrentElection))
  {
    match FirstOngoing(es)
    case Some(i) => Ok(200, es[i])
    case None =>
      match EarliestUpcoming(es)
      case Some(i) => Ok(200, es[i])
      case None => Err(404, NotFound(NoCurrentElection))
  }

  function FindElection(es: seq<Election>, id: ObjectId): (r: Option<nat>)
    ensures r.Some? ==> r.value < |es| && es[r.value].id == id
    ensures r.None? ==> forall j :: 0 <= j < |es| ==> es[j].id != id
  {
    FirstIndex(es, (e: Election) => e.id == id)
  }

  /** `getElection`: the first election with that id; 500 when the id does
      not cast, 404 when no election has it. */
  function GetElection(es: seq<Election>, id: string): (r: Reply<Election>)
    ensures r.Ok? ==> r.status == 200 && r.value in es && Cast(id) == Some(r.value.id)
    ensures r.Ok? ==> exists i :: 0 <= i < |es| && es[i] == r.value
                                  && forall j :: 0 <= j < i ==> es[j].id != r.value.id
    ensures Cast(id).Some? && (exists j :: 0 <= j < |es| && es[j].id == Cast(id).value) ==> r.Ok?
    ensures r == Err(500, Rejected) <==> Cast(id).None?
    ensures r == Err(404, NotFound(ElectionNotFound)) <==>
              Cast(id).Some? && forall j :: 0 <= j < |es| ==> es[j].id != Cast(id).value
  {
    match Cast(id)
    case None => Err(500, Rejected)
    case Some(oid) =>
      match FindElection(es, oid)
      case None => Err(404, NotFound(ElectionNotFound))
      case Some(i) => Ok(200, es[i])
  }

  /** An election request body; `year` is required on creation. */
  datatype ElectionBody = ElectionBody(
    year: Option<int>,
    level: Option<ElectionLevel>,
    startDate: Option<int>,
    endDate: Option<int>,
    status: Option<ElectionStatus>,
    totalVoters: Option<int>,
    totalVotesCast: Option<int>)

  /** A reply and the collection a handler leaves behind. */
  datatype Outcome<T> = Outcome(reply: Reply<T>, table: seq<Election>)

  /** `createElection`: 400, with nothing added, without a year or when the
      database raises (`dbFails`); otherwise one election holding the body's
      paths is appended. */
  function CreateElection(es: seq<Election>, newId: ObjectId, body: ElectionBody, dbFails: bool): (o: Outcome<Election>)
    ensures o.reply.Ok? <==> body.year.Some? && !dbFails
    ensures o.reply.Ok? ==> o.reply.status == 201 && o.table == es + [o.reply.value]
    ensures o.reply.Ok? ==>
              && o.reply.value.id == newId && o.reply.value.year == body.year.value
              && o.reply.value.level == body.level
              && o.reply.value.startDate == body.startDate && o.reply.value.endDate == body.endDate
              && o.reply.value.status == body.status && o.reply.value.totalVoters == body.totalVoters
              && o.reply.value.totalVotesCast == body.totalVotesCast
    ensures o.reply.Err? ==> o.reply == Err(400, Rejected) && o.table == es
  {
    if body.year.None? || dbFails then Outcome(Err(400, Rejected), es)
    else
      var e := Election(newId, body.year.value, body.level, body.startDate, body.endDate,
                        body.status, body.totalVoters, body.totalVotesCast);
      Outcome(Ok(201, e), es + [e])
  }

  /** `findByIdAndUpdate(id, body)`: every path present in the body
      overwrites the stored one. */
  function PatchElection(e: Election, body: ElectionBody): (r: Election)
    ensures r.id == e.id
    ensures body.year.Some? ==> r.year == body.year.value
    ensures body.year.None? ==> r.year == e.year
    ensures body.level.Some? ==> r.level == body.level
    ensures body.level.None? ==> r.level == e.level
    ensures body.startDate.Some? ==> r.startDate == body.startDate
    ensures body.startDate.None? ==> r.startDate == e.startDate
    ensures body.endDate.Some? ==> r.endDate == body.endDate
    ensures body.endDate.None? ==> r.endDate == e.endDate
    ensures body.status.Some? ==> r.status == body.status
    ensures body.status.None? ==> r.status == e.status
    ensures body.totalVoters.Some? ==> r.totalVoters == body.totalVoters
    ensures body.totalVoters.None? ==> r.totalVoters == e.totalVoters
    ensures body.totalVotesCast.Some? ==> r.totalVotesCast == body.totalVotesCast
    ensures body.totalVotesCast.None? ==> r.totalVotesCast == e.totalVotesCast
  {
    Election(e.id, OrElse(body.year, e.year), Overwrite(body.level, e.level),
             Overwrite(body.startDate, e.startDate), Overwrite(body.endDate, e.endDate),
             Overwrite(body.status, e.status), Overwrite(body.totalVoters, e.totalVoters),
             Overwrite(body.totalVotesCast, e.totalVotesCast))
  }

  /** `updateElection`: 400 when the id does not cast or the database
      raises (`dbFails`); 404, with the collection unchanged, when no
      election has the id; otherwise only that election is patched. */
  function UpdateElection(es: seq<Election>, id: string, body: ElectionBody, dbFails: bool): (o: Outcome<Election>)
    ensures o.reply.Err? ==> o.table == es
    ensures o.reply == Err(400, Rejected) <==> Cast(id).None? || dbFails
    ensures o.reply == Err(404, NotFound(ElectionNotFound)) <==>
              Cast(id).Some? && !dbFails && forall j :: 0 <= j < |es| ==> es[j].id != Cast(id).value
    ensures o.reply.Ok? ==>
              && o.reply.status == 200
              && |o.table| == |es|
              && exists i :: 0 <= i < |es| && Some(es[i].id) == Cast(id)
                              && (forall j :: 0 <= j < i ==> es[j].id != es[i].id)
                              && o.table == es[i := PatchElection(es[i], body)] && o.reply.value == o.table[i]
    ensures Cast(id).Some? && !dbFails && (exists j :: 0 <= j < |es| && es[j].id == Cast(id).value) ==> o.reply.Ok?
  {
    match Cast(id)
    case None => Outcome(Err(400, Rejected), es)
    case Some(oid) =>
      if dbFails then Outcome(Err(400, Rejected), es) else
      match FindElection(es, oid)
      case None => Outcome(Err(404, NotFound(ElectionNotFound)), es)
      case Some(i) =>
        var e := PatchElection(es[i], body);
        Outcome(Ok(200, e), es[i := e])
  }

  /** `deleteElection`: 500 when the id does not cast or the database
      raises (`dbFails`); 404, with the collection unchanged, when no
      election has the id; otherwise that one election is removed and the
      reply echoes the id as given. */
  function DeleteElection(es: seq<Election>, id: string, dbFails: bool): (o: Outcome<string>)
    ensures o.reply.Err? ==> o.table == es
    ensures o.reply == Err(500, Rejected) <==> Cast(id).None? || dbFails
    ensures o.reply == Err(404, NotFound(ElectionNotFound)) <==>
              Cast(id).Some? && !dbFails && forall j :: 0 <= j < |es| ==> es[j].id != Cast(id).value
    ensures o.reply.Ok? ==>
              && o.reply == Ok(200, id)
              && exists i :: 0 <= i < |es| && Some(es[i].id) == Cast(id)
                              && (forall j :: 0 <= j < i ==> es[j].id != es[i].id)
                              && o.table == es[..i] + es[i + 1..]
    ensures Cast(id).Some? && !dbFails && (exists j :: 0 <= j < |es| && es[j].id == Cast(id).value) ==> o.reply.Ok?
  {
    match Cast(id)
    case None => Outcome(Err(500, Rejected), es)
    case Some(oid) =>
      if dbFails then Outcome(Err(500, Rejected), es) else
      match FindElection(es, oid)
      case None => Outcome(Err(404, NotFound(ElectionNotFound)), es)
      case Some(i) => Outcome(Ok(200, id), es[..i] + es[i + 1..])
  }

  /** The database gives every election its own id. */
  ghost predicate DistinctIds(es: seq<Election>) {
    forall i, j :: 0 <= i < j < |es| ==> es[i].id != es[j].id
  }

  /** With distinct ids, the election found for an id is the one holding it. */
  lemma {:induction false} FindElectionUnique(es: seq<Election>, i: nat)
    requires DistinctIds(es) && i < |es|
    ensures FindElection(es, es[i].id) == Some(i)
  {
    if i > 0 {
      assert es[0].id != es[i].id;
      assert DistinctIds(es[1..]) by {
        forall a, b | 0 <= a < b < |es[1..]| ensures es[1..][a].id != es[1..][b].id {
          assert es[1..][a] == es[a + 1] && es[1..][b] == es[b + 1];
        }
      }
      assert es[1..][i - 1] == es[i];
      FindElectionUnique(es[1..], i - 1);
    }
  }

  /** Reading an election back after a successful update gives the updated
      election, and ids stay distinct. */
  lemma UpdateThenGet(es: seq<Election>, id: string, body: ElectionBody, dbFails: bool)
    requires DistinctIds(es)
    ensures var o := UpdateElection(es, id, body, dbFails);
      && DistinctIds(o.table)
      && (o.reply.Ok? ==> GetElection(o.table, id) == Ok(200, o.reply.value))
  {
    var o := UpdateElection(es, id, body, dbFails);
    if o.reply.Ok? {
      var i := FindElection(es, Cast(id).value).value;
      assert o.table == es[i := PatchElection(es[i], body)];
      FindElectionUnique(o.table, i);
    }
  }

  /** After a successful delete the election is gone: reading it back is a
      404, and every other election is still there. */
  lemma DeleteThenGet(es: seq<Election>, id: string, dbFails: bool)
    requires DistinctIds(es)
    ensures var o := DeleteElection(es, id, dbFails);
      && DistinctIds(o.table)
      && (o.reply.Ok? ==>
            && GetElection(o.table, id) == Err(404, NotFound(ElectionNotFound))
            && |o.table| == |es| - 1
            && forall e :: e in es && Some(e.id) != Cast(id) ==> e in o.table)
  {
    var o := DeleteElection(es, id, dbFails);
    if o.reply.Ok? {
      var i := FindElection(es, Cast(id).value).value;
      assert o.table == es[..i] + es[i + 1..];
      forall j | 0 <= j < |o.table| ensures o.table[j].id != Cast(id).value {
        if j < i { assert o.table[j] == es[j]; } else { assert o.table[j] == es[j + 1]; }
      }
      forall e | e in es && Some(e.id) != Cast(id) ensures e in o.table {
        var k :| 0 <= k < |es| && es[k] == e;
        if k < i { assert o.table[k] == e; } else { assert k != i; assert o.table[k - 1] == e; }
      }
    }
  }
}
