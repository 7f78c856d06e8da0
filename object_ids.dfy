/** Document ids. The store keeps an ObjectId as twelve bytes; the model
    writes it in its canonical text form, 24 lower-case hexadecimal digits,
    which is also how it travels in JSON (a token's `userId`, a `sheetId`). */
module ObjectIds {
  import opened Json

  predicate IsHexDigit(c: char)
  {
    '0' <= c <= '9' || 'a' <= c <= 'f' || 'A' <= c <= 'F'
  }

  predicate IsLowerHexDigit(c: char)
  {
    '0' <= c <= '9' || 'a' <= c <= 'f'
  }

  predicate IsCanonical(s: string)
  {
    |s| == 24 && forall i :: 0 <= i < |s| ==> IsLowerHexDigit(s[i])
  }

  type ObjectId = s: string | IsCanonical(s) witness "000000000000000000000000"

  function LowerHexDigit(c: char): (d: char)
    requires IsHexDigit(c)
    ensures IsLowerHexDigit(d)
    ensures IsLowerHexDigit(c) ==> d == c
  {
    if 'A' <= c <= 'F' then (c as int - 'A' as int + 'a' as int) as char else c
  }

  /** `new ObjectId(s)` for a string `s`: exactly 24 hexadecimal digits of
      either case name an id; any other string makes the constructor throw. */
  function ParseObjectId(s: string): (r: Option<ObjectId>)
    ensures r.Some? <==> |s| == 24 && forall i :: 0 <= i < |s| ==> IsHexDigit(s[i])
    ensures r.Some? ==> forall i :: 0 <= i < 24 ==> r.value[i] == LowerHexDigit(s[i])
  {
    if |s| == 24 && forall i :: 0 <= i < |s| ==> IsHexDigit(s[i]) then
      Some(seq(24, i requires 0 <= i < 24 => LowerHexDigit(s[i])))
    else
      None
  }

  /** The id a client received from the store parses back to that same id, so
      the `sheetId` answered by a create names the sheet in a later update. */
  lemma ParseCanonical(id: ObjectId)
    ensures ParseObjectId(id) == Some(id)
  {
    var r := ParseObjectId(id);
    assert r.Some?;
    assert r.value == id;
  }

  /** Case does not matter: two spellings of one id name the same document. */
  lemma ParseIgnoresCase(s: string, t: string)
    requires |s| == |t|
    requires forall i :: 0 <= i < |s| ==> IsHexDigit(s[i]) && IsHexDigit(t[i]) && LowerHexDigit(s[i]) == LowerHexDigit(t[i])
    ensures ParseObjectId(s) == ParseObjectId(t)
  {
    if |s| == 24 {
      var a, b := ParseObjectId(s).value, ParseObjectId(t).value;
      assert forall i :: 0 <= i < 24 ==> a[i] == b[i];
      assert a == b;
    }
  }
}
