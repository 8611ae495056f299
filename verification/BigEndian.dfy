/** Fixed-width big-endian integers, the layout of every number and identifier in the database. */
module BigEndian {
  import opened Common

  function Pow256(width: nat): nat {
    if width == 0 then 1 else 256 * Pow256(width - 1)
  }

  function Encode(width: nat, n: nat): (b: bytes)
    ensures |b| == width
  {
    if width == 0 then [] else Encode(width - 1, n / 256) + [n % 256]
  }

  function Decode(b: bytes): nat {
    if b == [] then 0 else 256 * Decode(b[..|b| - 1]) + b[|b| - 1]
  }

  lemma {:induction false} DecodeEncode(width: nat, n: nat)
    requires n < Pow256(width)
    ensures Decode(Encode(width, n)) == n
  {
    if width > 0 {
      DecodeEncode(width - 1, n / 256);
      assert Encode(width, n)[..width - 1] == Encode(width - 1, n / 256);
    }
  }

  /** The most significant byte comes first: the byte at `i` is the digit of weight 256 to the `width - 1 - i`. */
  lemma {:induction false} EncodedDigit(width: nat, n: nat, i: nat)
    requires i < width
    ensures Pow256(width - 1 - i) > 0 && Encode(width, n)[i] == n / Pow256(width - 1 - i) % 256
  {
    if i < width - 1 {
      EncodedDigit(width - 1, n / 256, i);
      var p := Pow256(width - 2 - i);
      DivideTwice(n, p);
    }
  }

  lemma {:induction false} Multiple(p: nat, d: nat)
    requires d > 0
    ensures p <= p * d
  {
  }

  lemma Quotient(m: nat, p: nat, q: nat, r: nat)
    requires m == p * q + r && r < p
    ensures m / p == q
  {
    var e, f := m / p, m % p;
    assert m == p * e + f && 0 <= f < p;
    assert p * (e - q) == p * e - p * q;
    if e > q {
      Multiple(p, e - q);
    } else if e < q {
      assert p * (q - e) == -(p * (e - q));
      Multiple(p, q - e);
    }
  }

  lemma DivideTwice(n: nat, p: nat)
    requires p > 0
    ensures n / 256 / p == n / (256 * p)
  {
    var q, r := n / 256 / p, n / 256 % p;
    assert n == 256 * (p * q + r) + n % 256;
    assert 256 * (p * q) == 256 * p * q;
    Quotient(n, 256 * p, q, 256 * r + n % 256);
  }

  lemma {:induction false} DecodeBound(b: bytes)
    ensures Decode(b) < Pow256(|b|)
  {
    if b != [] {
      DecodeBound(b[..|b| - 1]);
    }
  }

  lemma {:induction false} EncodeDecode(b: bytes)
    ensures Encode(|b|, Decode(b)) == b
  {
    if b != [] {
      EncodeDecode(b[..|b| - 1]);
    }
  }

  lemma Widths()
    ensures Pow256(2) == 0x1_0000
    ensures Pow256(8) == MAX_UINT64 + 1
    ensures Pow256(32)
         == 0x1_0000_0000_0000_0000_0000_0000_0000_0000_0000_0000_0000_0000_0000_0000_0000_0000
  {
    assert Pow256(16) == 0x1_0000_0000_0000_0000_0000_0000_0000_0000;
    assert Pow256(24) == 0x1_0000_0000_0000_0000_0000_0000_0000_0000_0000_0000_0000_0000;
  }

  function Uint64Bytes(n: uint64): (b: bytes)
    ensures |b| == 8
  {
    Encode(8, n)
  }

  function BytesUint64(b: bytes): uint64
    requires |b| == 8
  {
    DecodeBound(b);
    Widths();
    Decode(b)
  }

  function IdBytes(id: Id): (b: bytes)
    ensures |b| == ID_LEN
  {
    Encode(32, id)
  }

  function BytesId(b: bytes): Id
    requires |b| == ID_LEN
  {
    DecodeBound(b);
    Widths();
    Decode(b)
  }

  lemma Uint64RoundTrip(n: uint64)
    ensures BytesUint64(Uint64Bytes(n)) == n
  {
    Widths();
    DecodeEncode(8, n);
  }

  lemma IdRoundTrip(id: Id)
    ensures BytesId(IdBytes(id)) == id
  {
    Widths();
    DecodeEncode(32, id);
  }

  lemma BytesIdRoundTrip(b: bytes)
    requires |b| == ID_LEN
    ensures IdBytes(BytesId(b)) == b
  {
    EncodeDecode(b);
  }
}
