/**
  Fixed-width big-endian integers as the player reads them from inbound frames:
  a 32-bit sequence number at the head of a key response and a 16-bit channel
  id at the head of a chunk response (Go's `binary.Read` with
  `binary.BigEndian`). Bytes and
  fixed-width integers are integer newtypes bounded to their Go ranges.

  `BigEndian` is the reference meaning of a byte string (most significant byte
  first); the readers are stated against it, and the writers are their inverses.
 */
module Wire {

  newtype byte = x: int | 0 <= x < 0x100
  newtype uint16 = x: int | 0 <= x < 0x1_0000
  newtype uint32 = x: int | 0 <= x < 0x1_0000_0000

  /** The unsigned value of s read most significant byte first. */
  function BigEndian(s: seq<byte>): nat
  {
    if s == [] then 0 else BigEndian(s[..|s| - 1]) * 256 + s[|s| - 1] as int
  }

  /** Two byte strings of the same length with the same value are the same bytes. */
  lemma {:induction false} BigEndianInjective(a: seq<byte>, b: seq<byte>)
    requires |a| == |b|
    requires BigEndian(a) == BigEndian(b)
    ensures a == b
  {
    if a != [] {
      var n := |a| - 1;
      var x, y := BigEndian(a[..n]), BigEndian(b[..n]);
      var p, q := a[n] as int, b[n] as int;
      assert x * 256 + p == y * 256 + q;
      assert p == q by {
        assert (x * 256 + p) % 256 == p;
        assert (y * 256 + q) % 256 == q;
      }
      assert x == y;
      BigEndianInjective(a[..n], b[..n]);
      assert a == a[..n] + [a[n]];
      assert b == b[..n] + [b[n]];
    }
  }

  /** Unfolds BigEndian on a two-byte prefix. */
  lemma BigEndian2(b: seq<byte>)
    requires |b| >= 2
    ensures BigEndian(b[..2]) == b[0] as int * 256 + b[1] as int
  {
    var b2, b1 := b[..2], b[..1];
    assert b2[..1] == b1 && b1[..0] == [];
    assert BigEndian(b1) == b[0] as int;
    assert BigEndian(b2) == BigEndian(b1) * 256 + b[1] as int;
  }

  /** Unfolds BigEndian on a four-byte prefix. */
  lemma BigEndian4(b: seq<byte>)
    requires |b| >= 4
    ensures BigEndian(b[..4])
         == ((b[0] as int * 256 + b[1] as int) * 256 + b[2] as int) * 256 + b[3] as int
  {
    var b4, b3 := b[..4], b[..3];
    assert b4[..3] == b3 && b3[..2] == b[..2];
    BigEndian2(b);
    assert BigEndian(b3) == BigEndian(b[..2]) * 256 + b[2] as int;
    assert BigEndian(b4) == BigEndian(b3) * 256 + b[3] as int;
  }

  /** The 16-bit big-endian value at the head of b. */
  function ReadUint16(b: seq<byte>): (r: uint16)
    requires |b| >= 2
    ensures r as int == BigEndian(b[..2])
  {
    BigEndian2(b);
    (b[0] as int * 256 + b[1] as int) as uint16
  }

  /** The 32-bit big-endian value at the head of b. */
  function ReadUint32(b: seq<byte>): (r: uint32)
    requires |b| >= 4
    ensures r as int == BigEndian(b[..4])
  {
    BigEndian4(b);
    (((b[0] as int * 256 + b[1] as int) * 256 + b[2] as int) * 256 + b[3] as int) as uint32
  }

  /** The two big-endian bytes of x. */
  function PutUint16(x: uint16): (r: seq<byte>)
    ensures |r| == 2 && BigEndian(r) == x as int
  {
    var n := x as int;
    var r := [(n / 256) as byte, (n % 256) as byte];
    BigEndian2(r);
    assert r[..2] == r;
    r
  }

  /** The four big-endian bytes of x. */
  function PutUint32(x: uint32): (r: seq<byte>)
    ensures |r| == 4 && BigEndian(r) == x as int
  {
    var q1 := x as int / 256;
    var q2 := q1 / 256;
    var q3 := q2 / 256;
    var r := [q3 as byte, (q2 % 256) as byte, (q1 % 256) as byte, (x as int % 256) as byte];
    BigEndian4(r);
    assert r[..4] == r;
    r
  }

  /** Reading back what PutUint16 wrote yields x, whatever follows it. */
  lemma ReadPutUint16(x: uint16, rest: seq<byte>)
    ensures ReadUint16(PutUint16(x) + rest) == x
  {
    assert (PutUint16(x) + rest)[..2] == PutUint16(x);
  }

  /** Reading back what PutUint32 wrote yields x, whatever follows it. */
  lemma ReadPutUint32(x: uint32, rest: seq<byte>)
    ensures ReadUint32(PutUint32(x) + rest) == x
  {
    assert (PutUint32(x) + rest)[..4] == PutUint32(x);
  }

  /** A frame head decodes to id exactly when its first two bytes are id's encoding. */
  lemma ReadUint16Exact(b: seq<byte>, id: uint16)
    requires |b| >= 2
    ensures ReadUint16(b) == id <==> b[..2] == PutUint16(id)
  {
    if ReadUint16(b) == id {
      BigEndianInjective(b[..2], PutUint16(id));
    }
  }

  /** A frame head decodes to s exactly when its first four bytes are s's encoding. */
  lemma ReadUint32Exact(b: seq<byte>, s: uint32)
    requires |b| >= 4
    ensures ReadUint32(b) == s <==> b[..4] == PutUint32(s)
  {
    if ReadUint32(b) == s {
      BigEndianInjective(b[..4], PutUint32(s));
    }
  }
}
