/** The in-memory stand-in for the two collections that the modelled
    handlers write (results and candidates) together with the broadcast
    channel. Every `io.emit` a handler performs appends one event to
    `events`, which only ever grows; a subscriber sees the events appended
    while it is connected. */
module Store {

  import opened Common
  import opened ObjectIds
  import opened Models
  import opened ResultController
  import opened CandidateController

  datatype Event =
    | ResultCreated(result: ResultDoc)
    | ResultUpdated(result: ResultDoc)
    | CandidateCreated(candidate: CandidateDoc)
    | CandidateUpdated(candidate: CandidateDoc)
    | CandidateDeleted(id: string)

  ghost predicate DistinctResultIds(s: seq<ResultDoc>) {
    forall i, j :: 0 <= i < j < |s| ==> s[i].id != s[j].id
  }

  ghost predicate DistinctCandidateIds(s: seq<CandidateDoc>) {
    forall i, j :: 0 <= i < j < |s| ==> s[i].id != s[j].id
  }

  /** The candidate table without its `i`-th document. */
  function RemoveAt(s: seq<CandidateDoc>, i: nat): (r: seq<CandidateDoc>)
    requires i < |s|
    ensures |r| == |s| - 1
    ensures forall j :: 0 <= j < i ==> r[j] == s[j]
    ensures forall j :: i <= j < |r| ==> r[j] == s[j + 1]
  {
    s[..i] + s[i + 1..]
  }

  class Database {
    var results: seq<ResultDoc>
    var candidates: seq<CandidateDoc>
    var events: seq<Event>

    /** The database gives every document of a collection its own id. */
    ghost predicate Valid()
      reads this
    {
      DistinctResultIds(results) && DistinctCandidateIds(candidates)
    }

    predicate FreshResultId(id: ObjectId)
      reads this
    {
      forall j :: 0 <= j < |results| ==> results[j].id != id
    }

    predicate FreshCandidateId(id: ObjectId)
      reads this
    {
      forall j :: 0 <= j < |candidates| ==> candidates[j].id != id
    }

    constructor (results0: seq<ResultDoc>, candidates0: seq<CandidateDoc>)
      requires DistinctResultIds(results0) && DistinctCandidateIds(candidates0)
      ensures Valid()
      ensures results == results0 && candidates == candidates0 && events == []
    {
      results, candidates, events := results0, candidates0, [];
    }

    /** `createResult`: look the body's key up; update the record found in
        place (200, `result_updated`) or create one (201, `result_created`).
        A key or a reference that does not cast, or a database failure before
        the write, gives 400 with nothing written and nothing emitted; a failure in the
        re-read after the write gives 400 with the write kept and nothing
        emitted. */
    method CreateResult(body: ResultBody, newId: ObjectId, now: int, fault: Fault) returns (reply: Reply<ResultDoc>)
      requires Valid() && FreshResultId(newId)
      modifies this
      ensures Valid()
      ensures candidates == old(candidates)
      ensures reply.Err? ==> reply == Err(400, Rejected)
      ensures BodyKey(body).None? || !BodyIdsCast(body) || fault == BeforeWrite ==>
                reply.Err? && results == old(results) && events == old(events)
      ensures BodyKey(body).Some? && BodyIdsCast(body) && fault != BeforeWrite ==>
                var u := Upsert(old(results), BodyKey(body).value, body, newId, now);
                && results == u.table
                && (fault == AfterWrite ==> reply == Err(400, Rejected) && events == old(events))
                && (fault == NoFault ==>
                      && reply == Ok(if u.created then 201 else 200, u.table[u.index])
                      && events == old(events) + [if u.created then ResultCreated(u.table[u.index])
                                                  else ResultUpdated(u.table[u.index])])
      ensures |events| == |old(events)| + (if reply.Ok? then 1 else 0)
    {
      var key := BodyKey(body);
      if key.None? || !BodyIdsCast(body) || fault == BeforeWrite {
        return Err(400, Rejected);
      }
      var existing := FindByKey(results, key.value);
      if existing.Some? {
        var i := existing.value;
        var written := Updated(results[i], key.value, body);
        results := results[i := written];
        if fault == AfterWrite {
          return Err(400, Rejected);
        }
        events := events + [ResultUpdated(written)];
        reply := Ok(200, written);
      } else {
        var written := Created(newId, key.value, body, now);
        results := results + [written];
        if fault == AfterWrite {
          return Err(400, Rejected);
        }
        events := events + [ResultCreated(written)];
        reply := Ok(201, written);
      }
    }

    /** `createCandidate`: a body that fails validation, or a database
        failure before the write, gives 400 with nothing added; otherwise
        one candidate is appended and, unless the re-read fails,
        `candidate_created` is emitted once with 201. */
    method CreateCandidate(body: CandidateBody, newId: ObjectId, fault: Fault) returns (reply: Reply<CandidateDoc>)
      requires Valid() && FreshCandidateId(newId)
      modifies this
      ensures Valid()
      ensures results == old(results)
      ensures reply.Err? ==> reply == Err(400, Rejected)
      ensures CandidateFromBody(newId, body).None? || fault == BeforeWrite ==>
                reply.Err? && candidates == old(candidates) && events == old(events)
      ensures CandidateFromBody(newId, body).Some? && fault != BeforeWrite ==>
                var c := CandidateFromBody(newId, body).value;
                && candidates == old(candidates) + [c]
                && (fault == AfterWrite ==> reply == Err(400, Rejected) && events == old(events))
                && (fault == NoFault ==> reply == Ok(201, c) && events == old(events) + [CandidateCreated(c)])
      ensures |events| == |old(events)| + (if reply.Ok? then 1 else 0)
    {
      var c := CandidateFromBody(newId, body);
      if c.None? || fault == BeforeWrite {
        return Err(400, Rejected);
      }
      candidates := candidates + [c.value];
      if fault == AfterWrite {
        return Err(400, Rejected);
      }
      events := events + [CandidateCreated(c.value)];
      reply := Ok(201, c.value);
    }

    /** `updateCandidate`: an id that does not cast, a body that fails the
        update validators or holds a reference that does not cast, or a
        database failure before the write gives 400;
        an unknown id gives 404; in all three nothing changes and nothing is
        emitted. Otherwise only that candidate is patched and, unless the
        populate after the write fails, `candidate_updated` is emitted. */
    method UpdateCandidate(id: string, body: CandidateBody, fault: Fault) returns (reply: Reply<CandidateDoc>)
      requires Valid()
      modifies this
      ensures Valid()
      ensures results == old(results)
      ensures reply.Err? ==> reply == Err(400, Rejected) || reply == Err(404, NotFound(CandidateNotFound))
      ensures Cast(id).None? || !PatchValid(body) || fault == BeforeWrite ==>
                reply == Err(400, Rejected) && candidates == old(candidates) && events == old(events)
      ensures Cast(id).Some? && PatchValid(body) && fault != BeforeWrite ==>
                match FindCandidate(old(candidates), Cast(id).value)
                case None =>
                  reply == Err(404, NotFound(CandidateNotFound))
                  && candidates == old(candidates) && events == old(events)
                case Some(i) =>
                  var c := PatchCandidate(old(candidates)[i], body);
                  && candidates == old(candidates)[i := c]
                  && (fault == AfterWrite ==> reply == Err(400, Rejected) && events == old(events))
                  && (fault == NoFault ==> reply == Ok(200, c) && events == old(events) + [CandidateUpdated(c)])
      ensures |events| == |old(events)| + (if reply.Ok? then 1 else 0)
    {
      var oid := Cast(id);
      if oid.None? || !PatchValid(body) || fault == BeforeWrite {
        return Err(400, Rejected);
      }
      var found := FindCandidate(candidates, oid.value);
      if found.None? {
        return Err(404, NotFound(CandidateNotFound));
      }
      var i := found.value;
      var c := PatchCandidate(candidates[i], body);
      candidates := candidates[i := c];
      if fault == AfterWrite {
        return Err(400, Rejected);
      }
      events := events + [CandidateUpdated(c)];
      reply := Ok(200, c);
    }

    /** `deleteCandidate`: an id that does not cast or a failing database
        call gives 500 and an unknown id 404, with nothing removed and
        nothing emitted. Otherwise exactly that candidate is removed and
        `candidate_deleted` is emitted with the id as the request spelled
        it. */
    method DeleteCandidate(id: string, dbFails: bool) returns (reply: Reply<string>)
      requires Valid()
      modifies this
      ensures Valid()
      ensures results == old(results)
      ensures Cast(id).None? || dbFails ==>
                reply == Err(500, Rejected) && candidates == old(candidates) && events == old(events)
      ensures Cast(id).Some? && !dbFails ==>
                match FindCandidate(old(candidates), Cast(id).value)
                case None =>
                  reply == Err(404, NotFound(CandidateNotFound))
                  && candidates == old(candidates) && events == old(events)
                case Some(i) =>
                  && candidates == RemoveAt(old(candidates), i)
                  && reply == Ok(200, id)
                  && events == old(events) + [CandidateDeleted(id)]
      ensures |events| == |old(events)| + (if reply.Ok? then 1 else 0)
    {
      var oid := Cast(id);
      if oid.None? || dbFails {
        return Err(500, Rejected);
      }
      var found := FindCandidate(candidates, oid.value);
      if found.None? {
        return Err(404, NotFound(CandidateNotFound));
      }
      candidates := RemoveAt(candidates, found.value);
      events := events + [CandidateDeleted(id)];
      reply := Ok(200, id);
    }
  }

  /** After a successful delete no candidate with that id is left, because
      ids were distinct. */
  lemma {:induction false} RemoveAtDropsId(s: seq<CandidateDoc>, i: nat)
    requires i < |s| && DistinctCandidateIds(s)
    ensures forall j :: 0 <= j < |RemoveAt(s, i)| ==> RemoveAt(s, i)[j].id != s[i].id
    ensures multiset(RemoveAt(s, i)) == multiset(s) - multiset{s[i]}
  {
    assert s == s[..i] + [s[i]] + s[i + 1..];
    assert multiset(s) == multiset(s[..i]) + multiset{s[i]} + multiset(s[i + 1..]);
    forall j | 0 <= j < |RemoveAt(s, i)| ensures RemoveAt(s, i)[j].id != s[i].id {
      if j < i {
        assert RemoveAt(s, i)[j] == s[j];
      } else {
        assert RemoveAt(s, i)[j] == s[j + 1];
      }
    }
  }
}
