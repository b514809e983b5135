/**
 * The Adler-32 checksum of RFC 1950 (section 2.2 defines it, section 9 gives
 * the incremental sample code that Go's hash/adler32 computes), applied to the
 * UTF-8 bytes of a Go string (`[]byte(s)`).
 */
module Adler32 {

  const Base := 65521   // largest prime smaller than 65536

  type Byte = x: int | 0 <= x < 256

  /** []byte(s): the UTF-8 encoding of each character of `s`. */
  function Utf8(s: string): (bytes: seq<Byte>)
    ensures |bytes| >= |s|
    ensures (forall i :: 0 <= i < |s| ==> s[i] as int < 0x80) ==>
              bytes == seq(|s|, i requires 0 <= i < |s| => s[i] as int)
  {
    if s == [] then [] else EncodeChar(s[0]) + Utf8(s[1..])
  }

  /** The encoding of a string is the encodings of its characters, one after the other. */
  lemma {:induction false} Utf8Append(s: string, c: char)
    ensures Utf8(s + [c]) == Utf8(s) + EncodeChar(c)
    decreases |s|
  {
    if s == [] {
      assert [c][1..] == [];
    } else {
      assert (s + [c])[0] == s[0] && (s + [c])[1..] == s[1..] + [c];
      Utf8Append(s[1..], c);
    }
  }

  function EncodeChar(c: char): (bytes: seq<Byte>)
    ensures 1 <= |bytes| <= 4
    ensures c as int < 0x80 ==> bytes == [c as int]
  {
    var x := c as int;
    if x < 0x80 then [x]
    else if x < 0x800 then [0xC0 + x / 64, 0x80 + x % 64]
    else if x < 0x10000 then [0xE0 + x / 4096, 0x80 + (x / 64) % 64, 0x80 + x % 64]
    else [0xF0 + x / 262144, 0x80 + (x / 4096) % 64, 0x80 + (x / 64) % 64, 0x80 + x % 64]
  }

  /** The running pair (s1, s2) of section 9 after the bytes of `data`, starting from (1, 0). */
  function Sums(data: seq<Byte>): (p: (nat, nat))
    ensures p.0 < Base && p.1 < Base
  {
    if data == [] then (1, 0)
    else
      var prev := Sums(data[..|data| - 1]);
      var s1 := (prev.0 + data[|data| - 1]) % Base;
      var s2 := (prev.1 + s1) % Base;
      (s1, s2)
  }

  /** adler32.Checksum: s2 in the high 16 bits, s1 in the low 16 bits. */
  function Checksum(data: seq<Byte>): (c: nat)
    ensures c < 0x1_0000_0000
  {
    var p := Sums(data);
    p.1 * 65536 + p.0
  }

  /* ----- the definition of section 2.2, without intermediate reductions ----- */

  function Sum(data: seq<Byte>): nat
  {
    if data == [] then 0 else Sum(data[..|data| - 1]) + data[|data| - 1]
  }

  /** A = 1 + D1 + ... + Dn */
  function A(data: seq<Byte>): nat
  {
    1 + Sum(data)
  }

  /** B = (1 + D1) + (1 + D1 + D2) + ... + (1 + D1 + ... + Dn) */
  function B(data: seq<Byte>): nat
  {
    if data == [] then 0 else B(data[..|data| - 1]) + A(data)
  }

  lemma ModOfSum(x: nat, y: nat)
    ensures (x % Base + y) % Base == (x + y) % Base
  {
    var q := x / Base;
    assert x == q * Base + x % Base;
    assert x + y == q * Base + (x % Base + y);
  }

  /**
   * The incremental computation with a reduction after every byte yields the
   * A and B of section 2.2 modulo 65521.
   */
  lemma {:induction false} SumsMatchDefinition(data: seq<Byte>)
    ensures Sums(data) == (A(data) % Base, B(data) % Base)
    decreases |data|
  {
    if data != [] {
      var init := data[..|data| - 1];
      var d := data[|data| - 1];
      SumsMatchDefinition(init);
      ModOfSum(A(init), d);
      ModOfSum(B(init), A(data) % Base);
      ModOfSum(A(data), B(init));
      assert (B(init) % Base + A(data) % Base) % Base == (B(init) + A(data)) % Base by {
        ModOfSum(B(init), A(data) % Base);
        assert (B(init) + A(data) % Base) % Base == (A(data) % Base + B(init)) % Base;
        ModOfSum(A(data), B(init));
      }
    }
  }

  lemma {:induction false} ChecksumMatchesDefinition(data: seq<Byte>)
    ensures Checksum(data) == (B(data) % Base) * 65536 + A(data) % Base
  {
    SumsMatchDefinition(data);
  }
}
