/** The 12-byte BSON ObjectID: the zero value, its 24-character lowercase
    hexadecimal form (`Hex`) and the parser `ObjectIDFromHex`, following the
    MongoDB Go driver's documented behaviour. */
module ObjectIds {
  import opened Common

  type Byte = b: int | 0 <= b < 256

  type ObjectId = s: seq<Byte> | |s| == 12 witness [0, 0, 0, 0, 0, 0, 0, 0, 0, 0, 0, 0]

  const NilObjectId: ObjectId := [0, 0, 0, 0, 0, 0, 0, 0, 0, 0, 0, 0]

  predicate IsZero(id: ObjectId) { id == NilObjectId }

  datatype HexError = InvalidHex

  function HexChar(v: int): (c: char)
    requires 0 <= v < 16
  {
    if v < 10 then (48 + v) as char else (97 + v - 10) as char
  }

  /** The value of a hexadecimal digit in either case, as `encoding/hex` reads it. */
  function HexValue(c: char): (r: Option<int>)
    ensures r.Some? ==> 0 <= r.value < 16
  {
    if '0' <= c <= '9' then Some(c as int - 48)
    else if 'a' <= c <= 'f' then Some(c as int - 97 + 10)
    else if 'A' <= c <= 'F' then Some(c as int - 65 + 10)
    else None
  }

  function HexBytes(b: seq<Byte>): (s: string)
    ensures |s| == 2 * |b|
  {
    if b == [] then [] else [HexChar(b[0] / 16), HexChar(b[0] % 16)] + HexBytes(b[1..])
  }

  function DecodeHex(s: string): Option<seq<Byte>>
    requires |s| % 2 == 0
    decreases |s|
  {
    if s == [] then Some([])
    else match (HexValue(s[0]), HexValue(s[1]))
      case (Some(hi), Some(lo)) =>
        (match DecodeHex(s[2..])
          case Some(rest) => Some([hi * 16 + lo] + rest)
          case None => None)
      case _ => None
  }

  /** `ObjectID.Hex()`. */
  function Hex(id: ObjectId): (s: string)
    ensures |s| == 24
  {
    HexBytes(id)
  }

  /** `bson.ObjectIDFromHex`: exactly 24 hexadecimal digits, else `InvalidHex`. */
  function FromHex(s: string): (r: Result<ObjectId, HexError>)
    ensures |s| != 24 ==> r == Err(InvalidHex)
  {
    if |s| != 24 then Err(InvalidHex)
    else match DecodeHex(s)
      case Some(b) => if |b| == 12 then Ok(b) else Err(InvalidHex)
      case None => Err(InvalidHex)
  }

  lemma {:induction false} DecodeHexBytes(b: seq<Byte>)
    ensures DecodeHex(HexBytes(b)) == Some(b)
  {
    if b != [] {
      var s := HexBytes(b);
      assert s[2..] == HexBytes(b[1..]);
      assert HexValue(s[0]) == Some(b[0] / 16);
      assert HexValue(s[1]) == Some(b[0] % 16);
      DecodeHexBytes(b[1..]);
      assert [b[0] / 16 * 16 + b[0] % 16] + b[1..] == b;
    }
  }

  /** Round trip: parsing the hexadecimal form gives back the same ObjectID. */
  lemma HexRoundTrip(id: ObjectId)
    ensures FromHex(Hex(id)) == Ok(id)
  {
    DecodeHexBytes(id);
  }
}
