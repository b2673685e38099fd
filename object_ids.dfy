/**
 * The document store's 12-byte object identifiers, their 24-character
 * lower-case hexadecimal form (`ObjectID.Hex()`), and parsing a string back
 * into an identifier (`primitive.ObjectIDFromHex`), which accepts exactly 24
 * hexadecimal digits of either case.
 */
module ObjectIds {
  import opened Wrappers

  newtype byte = x: int | 0 <= x < 256

  type ObjectId = b: seq<byte> | |b| == 12 witness [0, 0, 0, 0, 0, 0, 0, 0, 0, 0, 0, 0]

  /** The zero identifier (`primitive.NilObjectID`), which `IsZero` recognises. */
  const Zero: ObjectId := [0, 0, 0, 0, 0, 0, 0, 0, 0, 0, 0, 0]

  predicate IsZero(id: ObjectId) {
    id == Zero
  }

  /** The lower-case digit for a value below 16, as `encoding/hex` writes it. */
  function HexDigit(n: int): (c: char)
    requires 0 <= n < 16
    ensures '0' <= c <= '9' || 'a' <= c <= 'f'
  {
    if n < 10 then ('0' as int + n) as char else ('a' as int + n - 10) as char
  }

  /** The value of a hexadecimal digit of either case, or -1 for any other character. */
  function DigitValue(c: char): (v: int)
    ensures -1 <= v < 16
  {
    if '0' <= c <= '9' then c as int - '0' as int
    else if 'a' <= c <= 'f' then c as int - 'a' as int + 10
    else if 'A' <= c <= 'F' then c as int - 'A' as int + 10
    else -1
  }

  predicate IsHexDigit(c: char) {
    DigitValue(c) >= 0
  }

  function HexOfBytes(b: seq<byte>): (s: string)
    ensures |s| == 2 * |b|
  {
    if b == [] then ""
    else [HexDigit(b[0] as int / 16), HexDigit(b[0] as int % 16)] + HexOfBytes(b[1..])
  }

  /** Decodes pairs of hexadecimal digits; None on a non-digit or an odd length. */
  function BytesOfHex(s: string): (r: Option<seq<byte>>)
    ensures r.Some? ==> 2 * |r.value| == |s|
    ensures r.Some? <==> |s| % 2 == 0 && forall i :: 0 <= i < |s| ==> IsHexDigit(s[i])
  {
    if |s| == 0 then Some([])
    else if |s| == 1 then None
    else if !IsHexDigit(s[0]) || !IsHexDigit(s[1]) then None
    else
      match BytesOfHex(s[2..])
      case None => None
      case Some(rest) => Some([(DigitValue(s[0]) * 16 + DigitValue(s[1])) as byte] + rest)
  }

  /** `id.Hex()`: always 24 lower-case hexadecimal digits. */
  function Hex(id: ObjectId): (s: string)
    ensures |s| == 24
  {
    HexOfBytes(id)
  }

  /** `primitive.ObjectIDFromHex(s)`: None when s is not 24 hexadecimal digits. */
  function FromHex(s: string): (r: Option<ObjectId>)
    ensures r.Some? <==> |s| == 24 && forall i :: 0 <= i < |s| ==> IsHexDigit(s[i])
  {
    if |s| != 24 then None
    else
      match BytesOfHex(s)
      case None => None
      case Some(b) => Some(b)
  }

  predicate ParsesAsObjectId(s: string) {
    FromHex(s).Some?
  }

  /** The identifier a handler works with when it ignores a parse error: the zero one. */
  function FromHexOrZero(s: string): ObjectId {
    FromHex(s).GetOr(Zero)
  }

  lemma {:induction false} BytesOfHexOfBytes(b: seq<byte>)
    ensures BytesOfHex(HexOfBytes(b)) == Some(b)
  {
    if b != [] {
      var s := HexOfBytes(b);
      assert s[2..] == HexOfBytes(b[1..]);
      BytesOfHexOfBytes(b[1..]);
      assert DigitValue(s[0]) * 16 + DigitValue(s[1]) == b[0] as int;
      assert [b[0]] + b[1..] == b;
    }
  }

  /** Parsing the hexadecimal form gives back the identifier. */
  lemma FromHexOfHex(id: ObjectId)
    ensures FromHex(Hex(id)) == Some(id)
    ensures ParsesAsObjectId(Hex(id))
  {
    BytesOfHexOfBytes(id);
  }

  /** Two identifiers with the same hexadecimal form are the same identifier. */
  lemma HexInjective(a: ObjectId, b: ObjectId)
    ensures Hex(a) == Hex(b) <==> a == b
  {
    FromHexOfHex(a);
    FromHexOfHex(b);
  }
}
