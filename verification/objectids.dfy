/** Store-assigned document ids (`primitive.ObjectID`) and their hex form, which every
    controller copies into the document's domain id (`food_id`, `order_id`, ...). */
module ObjectIds {

  newtype Byte = b: int | 0 <= b < 256

  /** Twelve bytes, as a BSON ObjectID. */
  type ObjectId = s: seq<Byte> | |s| == 12 witness [0, 0, 0, 0, 0, 0, 0, 0, 0, 0, 0, 0]

  /** A lower-case hexadecimal digit. */
  function HexDigit(n: int): (c: char)
    requires 0 <= n < 16
    ensures '0' <= c <= '9' || 'a' <= c <= 'f'
    ensures n < 10 <==> c <= '9'
  {
    if n < 10 then (48 + n) as char else (87 + n) as char
  }

  /** `hex.EncodeToString`: two digits per byte, high nibble first. */
  function HexOf(bytes: seq<Byte>): (s: string)
    ensures |s| == 2 * |bytes|
  {
    if |bytes| == 0 then ""
    else [HexDigit(bytes[0] as int / 16), HexDigit(bytes[0] as int % 16)] + HexOf(bytes[1..])
  }

  /** `ObjectID.Hex()`. */
  function Hex(id: ObjectId): (s: string)
    ensures |s| == 24
  {
    HexOf(id)
  }

  lemma HexDigitInjective(a: int, b: int)
    requires 0 <= a < 16 && 0 <= b < 16
    requires HexDigit(a) == HexDigit(b)
    ensures a == b
  {
    assert (48 + a) as char as int == 48 + a;
    assert (87 + a) as char as int == 87 + a;
    assert (48 + b) as char as int == 48 + b;
    assert (87 + b) as char as int == 87 + b;
  }

  lemma {:induction false} HexOfInjective(a: seq<Byte>, b: seq<Byte>)
    requires |a| == |b|
    requires HexOf(a) == HexOf(b)
    ensures a == b
  {
    if |a| > 0 {
      var x, y := a[0] as int, b[0] as int;
      assert HexOf(a)[0] == HexDigit(x / 16) && HexOf(b)[0] == HexDigit(y / 16);
      assert HexOf(a)[1] == HexDigit(x % 16) && HexOf(b)[1] == HexDigit(y % 16);
      HexDigitInjective(x / 16, y / 16);
      HexDigitInjective(x % 16, y % 16);
      assert a[0] == b[0];
      assert HexOf(a)[2..] == HexOf(a[1..]);
      assert HexOf(b)[2..] == HexOf(b[1..]);
      HexOfInjective(a[1..], b[1..]);
      assert a == [a[0]] + a[1..];
      assert b == [b[0]] + b[1..];
    }
  }

  /** Distinct store ids give distinct domain ids. */
  lemma HexInjective(a: ObjectId, b: ObjectId)
    ensures Hex(a) == Hex(b) ==> a == b
  {
    if Hex(a) == Hex(b) {
      HexOfInjective(a, b);
    }
  }
}
