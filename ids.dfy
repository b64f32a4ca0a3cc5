/** Identifiers: the store's `ObjectId` and the parse-or-400 helper `to_obj_id`. */
module Ids {
  import opened Wrappers
  import opened Http
  import opened Text

  predicate IsHexDigit(c: char) {
    '0' <= c <= '9' || 'a' <= c <= 'f' || 'A' <= c <= 'F'
  }

  predicate IsLowerHexDigit(c: char) {
    '0' <= c <= '9' || 'a' <= c <= 'f'
  }

  /** The strings `ObjectId(s)` accepts: 24 hexadecimal digits, of either case. */
  predicate ValidId(s: string) {
    |s| == 24 && forall i :: 0 <= i < |s| ==> IsHexDigit(s[i])
  }

  /** The form `str(oid)` prints: 24 lower-case hexadecimal digits. */
  predicate IsCanonical(s: string) {
    |s| == 24 && forall i :: 0 <= i < |s| ==> IsLowerHexDigit(s[i])
  }

  /** An `ObjectId`, held as its own string form `str(oid)`. */
  type ObjectId = s: string | IsCanonical(s) witness "000000000000000000000000"

  /** The canonical string of a parsed id: `str(ObjectId(s))`. */
  function Canon(s: string): (r: string)
    ensures ValidId(s) ==> IsCanonical(r)
    ensures IsCanonical(s) ==> r == s
    ensures |r| == |s|
  {
    Lower(s)
  }

  /** `to_obj_id` (main.py:24-28): a well-formed id parses to its canonical `ObjectId`; anything else is a 400. */
  function ToObjId(s: string): (r: Result<ObjectId, HttpError>)
    ensures r.Ok? <==> ValidId(s)
    ensures r.Ok? ==> r.value == Canon(s)
    ensures r.Err? ==> r.error == InvalidId
  {
    if ValidId(s) then Ok(Canon(s)) else Err(InvalidId)
  }

  /** Parsing the printed form of an id gives the id back. */
  lemma ParsePrinted(o: ObjectId)
    ensures ToObjId(o) == Ok(o)
  {
  }

  /** Parsing only depends on the canonical form: `s` and `Canon(s)` name the same id. */
  lemma ParseCanon(s: string)
    requires ValidId(s)
    ensures ToObjId(Canon(s)) == ToObjId(s)
  {
  }

  /** A well-formed id with an upper-case digit parses, but is not the printed form of its id. */
  lemma UpperCaseIsNotCanonical(s: string, i: nat)
    requires ValidId(s) && i < |s| && 'A' <= s[i] <= 'F'
    ensures ToObjId(s).Ok? && ToObjId(s).value != s
  {
    assert Canon(s)[i] == LowerChar(s[i]) != s[i];
  }
}
