/** Document identifiers. Every collection gives each document an ObjectId,
    written as 24 hexadecimal digits; the model keeps the lower-case
    spelling as the canonical one. A string that a query compares with an id
    field is first cast: the cast accepts exactly the 24-hex-digit strings,
    ignores their case, and raises a cast error for anything else. */
module ObjectIds {

  import opened Common
  import opened Text

  type ObjectId = string

  /** The pattern `^[0-9a-fA-F]{24}$`. */
  predicate LooksLikeObjectId(s: string) {
    |s| == 24 && AllHex(s)
  }

  /** The spelling stored in documents: 24 hex digits, no upper case. */
  predicate IsCanonical(id: ObjectId) {
    LooksLikeObjectId(id) && Lower(id) == id
  }

  function Cast(s: string): (r: Option<ObjectId>)
    ensures r.Some? <==> LooksLikeObjectId(s)
    ensures r.Some? ==> IsCanonical(r.value) && EqualsIgnoreCase(r.value, s)
  {
    if LooksLikeObjectId(s) then
      var id := Lower(s);
      assert forall i :: 0 <= i < 24 ==> LowerChar(id[i]) == id[i];
      assert Lower(id) == id;
      Some(id)
    else None
  }

  /** A canonical id casts to itself, so an id read back from a stored
      document finds that document again. */
  lemma {:induction false} CastCanonical(id: ObjectId)
    requires IsCanonical(id)
    ensures Cast(id) == Some(id)
  {
  }

  /** Two spellings of an id that differ only in the case of their hex
      letters cast to the same id. */
  lemma CastIgnoresCase(s: string, t: string)
    requires LooksLikeObjectId(s) && EqualsIgnoreCase(s, t)
    ensures Cast(t) == Cast(s)
  {
    assert forall i :: 0 <= i < |s| ==> IsHexDigit(t[i]) by {
      forall i | 0 <= i < |s| ensures IsHexDigit(t[i]) {
        assert IsHexDigit(s[i]);
        assert LowerChar(s[i]) == LowerChar(t[i]);
      }
    }
    EqualsIgnoreCaseIsLowerEquality(s, t);
  }

  /** A reference path of a request body: absent, or a string that must
      cast. A document write whose reference does not cast fails with a
      cast error. */
  predicate PathCasts(p: Option<string>) {
    p.None? || LooksLikeObjectId(p.value)
  }

  /** The stored value of a reference path: absent stays absent, a present
      string is stored as its cast. */
  function CastPath(p: Option<string>): (r: Option<ObjectId>)
    ensures r.Some? <==> p.Some? && LooksLikeObjectId(p.value)
    ensures r.Some? ==> IsCanonical(r.value) && EqualsIgnoreCase(r.value, p.value)
  {
    match p
    case None => None
    case Some(s) => Cast(s)
  }

  /** The ids a collection assigns to its documents are canonical. */
  ghost predicate AssignsIds(id: nat -> ObjectId) {
    forall k: nat :: IsCanonical(id(k))
  }
}
