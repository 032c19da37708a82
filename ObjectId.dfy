/**
 * MongoDB object ids as the route handlers parse them from a path or body
 * string.
 */
module ObjectIds {
  import opened Wrappers

  predicate IsHexDigit(c: char)
  {
    '0' <= c <= '9' || 'a' <= c <= 'f' || 'A' <= c <= 'F'
  }

  function LowerHex(c: char): char
  {
    if 'A' <= c <= 'F' then ((c as int) + 32) as char else c
  }

  /**
   * `ObjectId(s)` for a string, in both backends: 24 hexadecimal digits in
   * either case, kept in lower case; anything else raises (`InvalidId` in
   * Python, `BSONError` in JavaScript).
   */
  function ParseObjectId(s: string): (r: Option<string>)
    ensures r.Some? <==> |s| == 24 && forall k :: 0 <= k < |s| ==> IsHexDigit(s[k])
    ensures r.Some? ==> |r.value| == 24 && forall k :: 0 <= k < 24 ==> r.value[k] == LowerHex(s[k])
  {
    if |s| == 24 && forall k :: 0 <= k < |s| ==> IsHexDigit(s[k]) then
      Some(seq(24, k requires 0 <= k < 24 => LowerHex(s[k])))
    else None
  }

  /** The id string a response carries (`str(ObjectId)`, `toString()`) opens the same document again; upper-case digits name the same id. */
  lemma ParseObjectIdCanonical(s: string)
    requires ParseObjectId(s).Some?
    ensures ParseObjectId(ParseObjectId(s).value) == ParseObjectId(s)
  {
    var h := ParseObjectId(s).value;
    assert forall k :: 0 <= k < 24 ==> IsHexDigit(h[k]) && LowerHex(h[k]) == h[k];
    assert ParseObjectId(h).Some?;
    assert forall k :: 0 <= k < 24 ==> ParseObjectId(h).value[k] == h[k];
    assert ParseObjectId(h).value == h;
  }
}
