/** Byte strings and the fields the hand-written codecs are made of: single bytes,
    big-endian numbers and length-prefixed blobs (server/src/codec.rs and
    server/src/crypto.rs).

    A field is read by `Take...`, which gives its value and what is left, and
    written by `Put...` in front of what follows. Each undoes the other. */
module ByteStrings {
  import opened Wrappers

  type Byte = b: nat | b < 256
  type Bytes = seq<Byte>
  type U16 = n: nat | n < 0x1_0000
  type U32 = n: nat | n < 0x1_0000_0000
  type U64 = n: nat | n < 0x1_0000_0000_0000_0000
  type I64 = n: int | -0x8000_0000_0000_0000 <= n < 0x8000_0000_0000_0000

  /** The bytes of an ASCII text. */
  function Ascii(text: string): (b: Bytes)
    requires forall i :: 0 <= i < |text| ==> text[i] < 128 as char
    ensures |b| == |text| && forall i :: 0 <= i < |b| ==> b[i] == text[i] as int
  {
    seq(|text|, i requires 0 <= i < |text| => text[i] as int)
  }

  // ---------- big-endian numbers ----------

  function Pow256(n: nat): (p: nat)
    ensures p > 0
  {
    if n == 0 then 1 else 256 * Pow256(n - 1)
  }

  function Be(width: nat, n: nat): (b: Bytes)
    ensures |b| == width
  {
    if width == 0 then [] else Be(width - 1, n / 256) + [n % 256]
  }

  function FromBe(b: Bytes): (n: nat)
    ensures n < Pow256(|b|)
  {
    if b == [] then 0 else 256 * FromBe(b[..|b| - 1]) + b[|b| - 1]
  }

  lemma {:induction false} FromBeOfBe(width: nat, n: nat)
    requires n < Pow256(width)
    ensures FromBe(Be(width, n)) == n
  {
    if width > 0 {
      FromBeOfBe(width - 1, n / 256);
      assert Be(width, n)[..width - 1] == Be(width - 1, n / 256);
    }
  }

  lemma LastDigit(x: nat, d: Byte)
    ensures (256 * x + d) / 256 == x && (256 * x + d) % 256 == d
  {
  }

  lemma {:induction false} BeOfFromBe(b: Bytes)
    ensures Be(|b|, FromBe(b)) == b
  {
    if b != [] {
      BeOfFromBe(b[..|b| - 1]);
      LastDigit(FromBe(b[..|b| - 1]), b[|b| - 1]);
      assert b == b[..|b| - 1] + [b[|b| - 1]];
    }
  }

  lemma Widths()
    ensures Pow256(2) == 0x1_0000 && Pow256(4) == 0x1_0000_0000 && Pow256(8) == 0x1_0000_0000_0000_0000
  {
    assert Pow256(2) == 0x1_0000;
    assert Pow256(4) == 0x1_0000_0000;
    assert Pow256(6) == 0x1_0000_0000_0000;
  }

  /** A `u64` read as two's complement, and back. */
  function Signed(n: U64): I64 {
    if n < 0x8000_0000_0000_0000 then n else n - 0x1_0000_0000_0000_0000
  }

  function Unsigned(i: I64): U64 {
    if i >= 0 then i else i + 0x1_0000_0000_0000_0000
  }

  lemma SignedUnsigned(i: I64, n: U64)
    ensures Signed(Unsigned(i)) == i && Unsigned(Signed(n)) == n
  {
  }

  // ---------- reading a field ----------

  function TakeOctet(b: Bytes): Option<(Byte, Bytes)> {
    if |b| < 1 then None else Some((b[0], b[1..]))
  }

  function TakeBytes(b: Bytes, n: nat): Option<(Bytes, Bytes)> {
    if |b| < n then None else Some((b[..n], b[n..]))
  }

  function TakeU16(b: Bytes): Option<(U16, Bytes)> {
    Widths();
    if |b| < 2 then None else Some((FromBe(b[..2]), b[2..]))
  }

  function TakeU32(b: Bytes): Option<(U32, Bytes)> {
    Widths();
    if |b| < 4 then None else Some((FromBe(b[..4]), b[4..]))
  }

  function TakeU64(b: Bytes): Option<(U64, Bytes)> {
    Widths();
    if |b| < 8 then None else Some((FromBe(b[..8]), b[8..]))
  }

  function TakeBlob(b: Bytes): (r: Option<(Bytes, Bytes)>)
    ensures r.Some? ==> |r.value.0| < 0x1_0000_0000
  {
    var (n, rest) :- TakeU32(b);
    TakeBytes(rest, n)
  }

  /** A field behind a 16-bit length. */
  function TakeShort(b: Bytes): Option<(Bytes, Bytes)> {
    var (n, rest) :- TakeU16(b);
    TakeBytes(rest, n)
  }

  // ---------- writing a field in front of what follows ----------

  function PutOctet(v: Byte, rest: Bytes): (r: Bytes)
    ensures TakeOctet(r) == Some((v, rest))
  {
    [v] + rest
  }

  function PutU16(v: U16, rest: Bytes): (r: Bytes)
    ensures TakeU16(r) == Some((v, rest))
  {
    Widths();
    FromBeOfBe(2, v);
    assert (Be(2, v) + rest)[..2] == Be(2, v);
    Be(2, v) + rest
  }

  function PutU32(v: U32, rest: Bytes): (r: Bytes)
    ensures TakeU32(r) == Some((v, rest))
  {
    Widths();
    FromBeOfBe(4, v);
    assert (Be(4, v) + rest)[..4] == Be(4, v);
    Be(4, v) + rest
  }

  function PutU64(v: U64, rest: Bytes): (r: Bytes)
    ensures TakeU64(r) == Some((v, rest))
  {
    Widths();
    FromBeOfBe(8, v);
    assert (Be(8, v) + rest)[..8] == Be(8, v);
    Be(8, v) + rest
  }

  function PutBlob(v: Bytes, rest: Bytes): (r: Bytes)
    requires |v| < 0x1_0000_0000
    ensures TakeBlob(r) == Some((v, rest))
  {
    assert (v + rest)[..|v|] == v;
    PutU32(|v|, v + rest)
  }

  function PutShort(v: Bytes, rest: Bytes): (r: Bytes)
    requires |v| < 0x1_0000
    ensures TakeShort(r) == Some((v, rest))
  {
    assert (v + rest)[..|v|] == v;
    PutU16(|v|, v + rest)
  }

  // ---------- what was read is what is written ----------

  lemma OctetBack(b: Bytes)
    ensures TakeOctet(b).Some? ==> PutOctet(TakeOctet(b).value.0, TakeOctet(b).value.1) == b
  {
  }

  lemma U32Back(b: Bytes)
    ensures TakeU32(b).Some? ==> PutU32(TakeU32(b).value.0, TakeU32(b).value.1) == b
  {
    if |b| >= 4 {
      BeOfFromBe(b[..4]);
    }
  }

  lemma U64Back(b: Bytes)
    ensures TakeU64(b).Some? ==> PutU64(TakeU64(b).value.0, TakeU64(b).value.1) == b
  {
    if |b| >= 8 {
      BeOfFromBe(b[..8]);
    }
  }

  lemma BlobBack(b: Bytes)
    ensures TakeBlob(b).Some? ==> PutBlob(TakeBlob(b).value.0, TakeBlob(b).value.1) == b
  {
    U32Back(b);
  }

  // ---------- what follows a field is appended to it ----------

  lemma OctetThen(v: Byte, x: Bytes, y: Bytes)
    ensures PutOctet(v, x + y) == PutOctet(v, x) + y
  {
  }

  lemma U32Then(v: U32, x: Bytes, y: Bytes)
    ensures PutU32(v, x + y) == PutU32(v, x) + y
  {
    assert Be(4, v) + (x + y) == Be(4, v) + x + y;
  }

  lemma U64Then(v: U64, x: Bytes, y: Bytes)
    ensures PutU64(v, x + y) == PutU64(v, x) + y
  {
    assert Be(8, v) + (x + y) == Be(8, v) + x + y;
  }

  lemma BlobThen(v: Bytes, x: Bytes, y: Bytes)
    requires |v| < 0x1_0000_0000
    ensures PutBlob(v, x + y) == PutBlob(v, x) + y
  {
    assert v + (x + y) == v + x + y;
    assert Be(4, |v|) + (v + x + y) == Be(4, |v|) + (v + x) + y;
  }

  /** A field behind its length. */
  function Short(f: Bytes): Bytes { Be(2, |f|) + f }

  lemma ShortThenRest(out: Bytes, f: Bytes, rest: Bytes)
    requires |f| < 0x1_0000
    ensures (out + Short(f)) + rest == out + PutShort(f, rest)
  {
    assert PutShort(f, rest) == Be(2, |f|) + (f + rest);
  }
}
