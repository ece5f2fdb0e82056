/**
 * The stored boost format: a float64's bit pattern as eight big-endian
 * bytes (`float64ToBytes` and `float64FromBytes`), together with the two
 * `encoding/binary` routines they are built on.
 */
module BoostCodec {
  import opened Floats

  /** Go's `byte(v)`: the low eight bits of `v`. */
  function Low8(v: bv64): bv8
  {
    (v & 0xFF) as bv8
  }

  /** The bytes `binary.BigEndian.PutUint64` writes for `v`, most significant first. */
  function BigEndian(v: bv64): (r: seq<bv8>)
    ensures |r| == 8
  {
    [Low8(v >> 56), Low8(v >> 48), Low8(v >> 40), Low8(v >> 32),
     Low8(v >> 24), Low8(v >> 16), Low8(v >> 8), Low8(v)]
  }

  /**
   * `binary.BigEndian.Uint64(b)`: reads the first eight bytes, most
   * significant first; a shorter slice makes it panic.
   */
  function Uint64(b: seq<bv8>): (r: bv64)
    requires |b| >= 8
    ensures BigEndian(r) == b[..8]
  {
    assert b[..8] == [b[0], b[1], b[2], b[3], b[4], b[5], b[6], b[7]];
    Unpack(b[0], b[1], b[2], b[3], b[4], b[5], b[6], b[7]);
    Combine(b[0], b[1], b[2], b[3], b[4], b[5], b[6], b[7])
  }

  /** Eight bytes combined into one pattern, the first as the most significant. */
  function Combine(b0: bv8, b1: bv8, b2: bv8, b3: bv8, b4: bv8, b5: bv8, b6: bv8, b7: bv8): bv64
  {
    ((b0 as bv64) << 56) | ((b1 as bv64) << 48) | ((b2 as bv64) << 40) | ((b3 as bv64) << 32) |
    ((b4 as bv64) << 24) | ((b5 as bv64) << 16) | ((b6 as bv64) << 8) | (b7 as bv64)
  }

  /**
   * Byte `i` of the encoding holds bits `56 - 8i` to `63 - 8i` of the pattern.
   * `i` is a `bv8` so that the shift amount stays a bit-vector; an integer
   * shift amount makes the solver convert between integers and bit-vectors,
   * which it cannot do within its limits here.
   */
  lemma BigEndianByte(v: bv64, i: bv8)
    requires i < 8
    ensures BigEndian(v)[i] == Low8(v >> (56 - 8 * i))
  {
    if i == 0 {
    } else if i == 1 {
    } else if i == 2 {
    } else if i == 3 {
    } else if i == 4 {
    } else if i == 5 {
    } else if i == 6 {
    } else {
      assert i == 7;
    }
  }

  /** Reading back what `PutUint64` wrote gives the pattern that was written. */
  lemma DecodeEncode(v: bv64)
    ensures Uint64(BigEndian(v)) == v
  {
  }

  /** The eight bytes `Combine` joins can be read back from its result. */
  lemma Unpack(b0: bv8, b1: bv8, b2: bv8, b3: bv8, b4: bv8, b5: bv8, b6: bv8, b7: bv8)
    ensures var v := Combine(b0, b1, b2, b3, b4, b5, b6, b7);
      && Low8(v >> 56) == b0 && Low8(v >> 48) == b1 && Low8(v >> 40) == b2 && Low8(v >> 32) == b3
      && Low8(v >> 24) == b4 && Low8(v >> 16) == b5 && Low8(v >> 8) == b6 && Low8(v) == b7
  {
  }

  /** Writing back what `Uint64` read gives the bytes that were read. */
  lemma EncodeDecode(b: seq<bv8>)
    requires |b| >= 8
    ensures BigEndian(Uint64(b)) == b[..8]
  {
  }

  /** `binary.BigEndian.PutUint64(b, v)`: overwrites the first eight bytes of `b` and nothing else. */
  method PutUint64(b: array<bv8>, v: bv64)
    requires b.Length >= 8
    modifies b
    ensures b[..8] == BigEndian(v)
    ensures b[8..] == old(b[8..])
  {
    b[0] := Low8(v >> 56);
    b[1] := Low8(v >> 48);
    b[2] := Low8(v >> 40);
    b[3] := Low8(v >> 32);
    b[4] := Low8(v >> 24);
    b[5] := Low8(v >> 16);
    b[6] := Low8(v >> 8);
    b[7] := Low8(v);
  }

  /** The bytes `float64ToBytes(f)` returns. */
  function Encode(f: Float64): (r: seq<bv8>)
    ensures |r| == 8
  {
    BigEndian(Float64bits(f))
  }

  /** `float64FromBytes(b)`: the float64 whose pattern the first eight bytes of `b` hold. */
  function Float64FromBytes(b: seq<bv8>): (f: Float64)
    requires |b| >= 8
    ensures Encode(f) == b[..8]
  {
    EncodeDecode(b);
    Float64frombits(Uint64(b))
  }

  /** `float64ToBytes(f)`: a fresh eight-byte slice holding `f`'s bit pattern, big-endian. */
  method Float64ToBytes(f: Float64) returns (rv: array<bv8>)
    ensures fresh(rv) && rv.Length == 8
    ensures rv[..] == Encode(f)
    ensures Float64FromBytes(rv[..]) == f
  {
    rv := new bv8[8];
    var bits := Float64bits(f);
    PutUint64(rv, bits);
    assert rv[..] == rv[..8];
    RoundTrip(f);
  }

  /** Decoding an encoding gives back the float64 that was encoded, bit for bit. */
  lemma RoundTrip(f: Float64)
    ensures Float64FromBytes(Encode(f)) == f
  {
    DecodeEncode(Float64bits(f));
    BitsBijection(f, 0);
  }

  /** Encoding a decoded value gives back the eight bytes it was decoded from. */
  lemma BytesRoundTrip(b: seq<bv8>)
    requires |b| >= 8
    ensures Encode(Float64FromBytes(b)) == b[..8]
  {
    EncodeDecode(b);
    BitsBijection(Float64(0), Uint64(b));
  }

  /** The stored boosts of the two example documents: 1.0 and 2.0. */
  lemma ExampleEncodings()
    ensures Encode(One) == [0x3F, 0xF0, 0, 0, 0, 0, 0, 0]
    ensures Encode(Two) == [0x40, 0, 0, 0, 0, 0, 0, 0]
  {
  }
}
