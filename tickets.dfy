/**
 * Ticket codes, as registerEvent.js and adminRegister.js derive them from five
 * random bytes: `randomBytes(5).toString('hex').substring(0, 8).toUpperCase()`.
 * The bytes are a parameter.
 */
module Tickets {
  import opened JsString

  newtype Byte = b: int | 0 <= b < 256

  function HexDigit(d: int): (c: char)
    requires 0 <= d < 16
    ensures ('0' <= c <= '9') || ('a' <= c <= 'f')
  {
    if d < 10 then ('0' as int + d) as char else ('a' as int + d - 10) as char
  }

  /** `buffer.toString('hex')`: two lower-case hex digits per byte, high nibble first. */
  function Hex(bytes: seq<Byte>): (r: string)
    ensures |r| == 2 * |bytes|
    ensures forall i :: 0 <= i < |bytes| ==>
      r[2 * i] == HexDigit(bytes[i] as int / 16) && r[2 * i + 1] == HexDigit(bytes[i] as int % 16)
  {
    seq(2 * |bytes|, k requires 0 <= k < 2 * |bytes| =>
      HexDigit(if k % 2 == 0 then bytes[k / 2] as int / 16 else bytes[k / 2] as int % 16))
  }

  /** The characters a ticket code is made of: 0-9 and A-F. */
  predicate TicketChar(c: char) {
    ('0' <= c <= '9') || ('A' <= c <= 'F')
  }

  function TicketCode(bytes: seq<Byte>): (r: string)
    requires |bytes| == 5
    ensures |r| == 8
    ensures forall i :: 0 <= i < |r| ==> TicketChar(r[i])
  {
    Upper(Hex(bytes)[..8])
  }

  /** The eight characters come from the first four bytes; the fifth byte is thrown away. */
  lemma TicketCodeUsesFourBytes(a: seq<Byte>, b: seq<Byte>)
    requires |a| == 5 && |b| == 5 && a[..4] == b[..4]
    ensures TicketCode(a) == TicketCode(b)
  {
    var ha, hb := Hex(a)[..8], Hex(b)[..8];
    forall k | 0 <= k < 8 ensures ha[k] == hb[k] {
      var i := k / 2;
      assert a[i] == a[..4][i] && b[i] == b[..4][i];
      if k % 2 == 0 {
        assert k == 2 * i;
      } else {
        assert k == 2 * i + 1;
      }
    }
    assert ha == hb;
  }

  /** Each byte contributes its two hex digits, upper-cased, in order. */
  lemma TicketCodeDigits(bytes: seq<Byte>, i: int)
    requires |bytes| == 5 && 0 <= i < 4
    ensures TicketCode(bytes)[2 * i] == UpperChar(HexDigit(bytes[i] as int / 16))
    ensures TicketCode(bytes)[2 * i + 1] == UpperChar(HexDigit(bytes[i] as int % 16))
  {
  }
}
