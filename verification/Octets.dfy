/** Octets, MAC addresses and big-endian 16-bit lengths. */
module Octets {
  type Byte = b: int | 0 <= b < 256
  type U32 = n: int | 0 <= n < 0x1_0000_0000
  type U16 = n: int | 0 <= n < 0x1_0000
  type Bytes = seq<Byte>

  /** A 48-bit MAC address. */
  type Mac = m: Bytes | |m| == 6 witness [0, 0, 0, 0, 0, 0]

  /** A 16-octet authenticator or HMAC value. */
  type Digest = d: Bytes | |d| == 16 witness seq(16, _ => 0)

  function WrappingNext(b: Byte): Byte { (b + 1) % 256 }

  function FromBe16(hi: Byte, lo: Byte): U16 { hi * 256 + lo }

  function ToBe16(n: U16): Bytes { [n / 256, n % 256] }

  lemma Be16RoundTrip(n: U16)
    ensures FromBe16(ToBe16(n)[0], ToBe16(n)[1]) == n
  {
  }

  lemma Be16Canonical(hi: Byte, lo: Byte)
    ensures ToBe16(FromBe16(hi, lo)) == [hi, lo]
  {
  }
}
