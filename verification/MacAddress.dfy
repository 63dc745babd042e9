/** Six-byte MAC addresses and the strings the associated-device maps are keyed by. */
module MacAddress {
  import opened TlvFraming

  const ETH_ALEN: nat := 6

  type Mac = m: seq<byte> | |m| == ETH_ALEN witness [0, 0, 0, 0, 0, 0]

  function HexDigit(d: nat): char
    requires d < 16
  {
    "0123456789abcdef"[d]
  }

  /** "%02hhx" */
  function HexByte(b: byte): (s: string)
    ensures |s| == 2
  {
    [HexDigit((b / 16) as nat), HexDigit((b % 16) as nat)]
  }

  /** The lower-case, colon-separated form of a MAC; always fits the 18-byte buffer. */
  function MacString(m: Mac): (s: string)
    ensures |s| == 17
  {
    seq(17, i requires 0 <= i < 17 => if i % 3 == 2 then ':' else HexByte(m[i / 3])[i % 3])
  }

  lemma HexByteInjective(a: byte, b: byte)
    requires HexByte(a) == HexByte(b)
    ensures a == b
  {
    assert HexByte(a)[0] == HexByte(b)[0] && HexByte(a)[1] == HexByte(b)[1];
    HexDigitInjective((a / 16) as nat, (b / 16) as nat);
    HexDigitInjective((a % 16) as nat, (b % 16) as nat);
  }

  lemma HexDigitInjective(d: nat, e: nat)
    requires d < 16 && e < 16 && HexDigit(d) == HexDigit(e)
    ensures d == e
  {
  }

  /** Byte i of the address is written at offset 3 * i: high digit, low digit, and a colon unless it is the last. */
  lemma MacStringAt(m: Mac, i: nat)
    requires i < ETH_ALEN
    ensures MacString(m)[3 * i] == HexByte(m[i])[0] == Digit(m[i] as nat / 16)
    ensures MacString(m)[3 * i + 1] == HexByte(m[i])[1] == Digit(m[i] as nat % 16)
    ensures i < 5 ==> MacString(m)[3 * i + 2] == ':'
  {
    DigitIs((m[i] / 16) as nat);
    DigitIs((m[i] % 16) as nat);
  }

  /** '0' to '9', then 'a' to 'f'. */
  function Digit(d: nat): char
    requires d < 16
  {
    if d < 10 then ('0' as int + d) as char else ('a' as int + d - 10) as char
  }

  lemma DigitIs(d: nat)
    requires d < 16
    ensures HexDigit(d) == Digit(d)
  {
    assert "0123456789abcdef"[d] == ['0', '1', '2', '3', '4', '5', '6', '7', '8', '9', 'a', 'b', 'c', 'd', 'e', 'f'][d];
  }

  /** Different stations never share a key: the string determines the address. */
  lemma MacStringInjective(m: Mac, n: Mac)
    requires MacString(m) == MacString(n)
    ensures m == n
  {
    forall i | 0 <= i < ETH_ALEN
      ensures m[i] == n[i]
    {
      MacStringAt(m, i);
      MacStringAt(n, i);
      assert HexByte(m[i]) == [HexByte(m[i])[0], HexByte(m[i])[1]];
      HexByteInjective(m[i], n[i]);
    }
  }
}
