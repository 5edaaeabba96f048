/** The bit writer and reader and the Golomb-Rice code (core/bip158_filter.py, lines 85-177; BIP 158, "Golomb-Rice Coding"). */
module BitStrom {
  import opened Ordnung

  type Byte = b: int | 0 <= b < 256

  /** v >> k */
  function Rechts(v: nat, k: nat): nat { if k == 0 then v else Rechts(v / 2, k - 1) }

  /** v << k */
  function Links(v: nat, k: nat): nat
    decreases k
  {
    if k == 0 then v else Links(2 * v, k - 1)
  }

  /** v & ((1 << k) - 1) */
  function Niedrig(v: nat, k: nat): nat { if k == 0 then 0 else 2 * Niedrig(v / 2, k - 1) + v % 2 }

  /** The low k bits of v, most significant first. */
  function BitsVon(v: nat, k: nat): (r: seq<bool>)
    ensures |r| == k
  {
    if k == 0 then [] else BitsVon(v / 2, k - 1) + [v % 2 == 1]
  }

  function Wert(bits: seq<bool>): nat {
    if bits == [] then 0 else 2 * Wert(bits[..|bits| - 1]) + (if bits[|bits| - 1] then 1 else 0)
  }

  function BytesZuBits(data: seq<Byte>): (r: seq<bool>)
    ensures |r| == 8 * |data|
  {
    if data == [] then [] else BitsVon(data[0], 8) + BytesZuBits(data[1..])
  }

  function Nullen(k: nat): (r: seq<bool>) { seq(k, _ => false) }

  function Einsen(k: nat): (r: seq<bool>) { seq(k, _ => true) }

  lemma {:induction false} RechtsHalb(v: nat, k: nat)
    ensures Rechts(v, k) / 2 == Rechts(v, k + 1)
  {
    if k > 0 { RechtsHalb(v / 2, k - 1); }
  }

  lemma {:induction false} LinksDoppelt(v: nat, k: nat)
    ensures Links(2 * v, k) == 2 * Links(v, k)
    decreases k
  {
    if k > 0 { LinksDoppelt(2 * v, k - 1); }
  }

  /** Shifting down and up again loses exactly the low bits. */
  lemma {:induction false} TeileZusammen(v: nat, k: nat)
    ensures Links(Rechts(v, k), k) + Niedrig(v, k) == v
    ensures Niedrig(v, k) < Pow2(k)
    ensures BitsVon(Niedrig(v, k), k) == BitsVon(v, k)
  {
    if k > 0 {
      TeileZusammen(v / 2, k - 1);
      LinksDoppelt(Rechts(v, k), k - 1);
    }
  }

  lemma {:induction false} RechtsMal(v: nat, k: nat)
    ensures Rechts(v, k) * Pow2(k) <= v
  {
    if k > 0 {
      RechtsMal(v / 2, k - 1);
      assert Rechts(v, k) * Pow2(k) == 2 * (Rechts(v / 2, k - 1) * Pow2(k - 1));
    }
  }

  lemma {:induction false} BitAn(v: nat, k: nat, j: nat)
    requires j < k
    ensures BitsVon(v, k)[j] <==> Rechts(v, k - 1 - j) % 2 == 1
  {
    if j < k - 1 { BitAn(v / 2, k - 1, j); }
  }

  lemma {:induction false} BytesBitAn(data: seq<Byte>, i: nat, j: nat)
    requires i < |data| && j < 8
    ensures BytesZuBits(data)[8 * i + j] == BitsVon(data[i], 8)[j]
  {
    if i > 0 { BytesBitAn(data[1..], i - 1, j); }
  }

  lemma {:induction false} BytesAnhaengen(data: seq<Byte>, b: Byte)
    ensures BytesZuBits(data + [b]) == BytesZuBits(data) + BitsVon(b, 8)
  {
    if data == [] { assert data + [b] == [b]; } else {
      BytesAnhaengen(data[1..], b);
      assert (data + [b])[1..] == data[1..] + [b];
    }
  }

  lemma {:induction false} WertVonBits(v: nat, k: nat)
    requires v < Pow2(k)
    ensures Wert(BitsVon(v, k)) == v
  {
    if k > 0 {
      WertVonBits(v / 2, k - 1);
      assert BitsVon(v, k)[..k - 1] == BitsVon(v / 2, k - 1);
    }
  }

  lemma {:induction false} BitsAuffuellen(v: nat, k: nat, z: nat)
    requires v < Pow2(k)
    ensures BitsVon(Links(v, z), k + z) == BitsVon(v, k) + Nullen(z)
    ensures Links(v, z) < Pow2(k + z)
    decreases z
  {
    if z > 0 {
      BitsAuffuellen(2 * v, k + 1, z - 1);
      assert Nullen(z) == [false] + Nullen(z - 1);
    }
  }

  // ------------------------------------------------------------------- writer

  class Schreiber {
    var buffer: seq<Byte>
    var current: nat
    var bitCount: nat

    ghost predicate Valid()
      reads this
    {
      bitCount < 8 && current < Pow2(bitCount)
    }

    ghost function Bits(): seq<bool>
      reads this
    {
      BytesZuBits(buffer) + BitsVon(current, bitCount)
    }

    constructor ()
      ensures Valid() && Bits() == []
    {
      buffer, current, bitCount := [], 0, 0;
    }

    method WriteBit(value: nat)
      requires Valid()
      modifies this
      ensures Valid() && Bits() == old(Bits()) + [value % 2 == 1]
    {
      ghost var vorher := current;
      current := 2 * current + value % 2;
      bitCount := bitCount + 1;
      assert BitsVon(current, bitCount) == BitsVon(vorher, bitCount - 1) + [value % 2 == 1];
      if bitCount == 8 {
        assert Pow2(8) == 256;
        BytesAnhaengen(buffer, current);
        buffer := buffer + [current];
        current, bitCount := 0, 0;
      }
    }

    method WriteBits(value: nat, count: nat)
      requires Valid()
      modifies this
      ensures Valid() && Bits() == old(Bits()) + BitsVon(value, count)
    {
      for shift := count downto 0
        invariant Valid() && Bits() == old(Bits()) + BitsVon(Rechts(value, shift), count - shift)
      {
        RechtsHalb(value, shift);
        WriteBit(Rechts(value, shift) % 2);
      }
    }

    /** Pads the last byte with zero bits. */
    method Flush() returns (bytes: seq<Byte>)
      requires Valid()
      modifies this
      ensures Valid() && bytes == buffer && bitCount == 0
      ensures |bytes| == (|old(Bits())| + 7) / 8
      ensures BytesZuBits(bytes) == old(Bits()) + Nullen(8 * |bytes| - |old(Bits())|)
    {
      if bitCount != 0 {
        ghost var z := 8 - bitCount;
        assert Pow2(8) == 256;
        BitsAuffuellen(current, bitCount, z);
        BytesAnhaengen(buffer, Links(current, z));
        current := Links(current, 8 - bitCount);
        buffer := buffer + [current];
        current, bitCount := 0, 0;
      } else {
        assert Nullen(0) == [];
      }
      bytes := buffer;
    }
  }

  // ------------------------------------------------------------------- reader

  class Leser {
    const data: seq<Byte>
    var byte: nat
    var bit: nat
    var current: Byte

    ghost predicate Valid()
      reads this
    {
      byte <= |data| && bit < 8 && (bit > 0 ==> byte > 0 && current == data[byte - 1])
    }

    /** The bits not read yet. */
    ghost function Rest(): seq<bool>
      requires Valid()
      reads this
    {
      BytesZuBits(data)[8 * byte - bit..]
    }

    constructor (data: seq<Byte>)
      ensures Valid() && this.data == data && Rest() == BytesZuBits(data)
    {
      this.data, byte, bit, current := data, 0, 0, 0;
    }

    /** None when the stream is exhausted. */
    method ReadBit() returns (r: Option<nat>)
      requires Valid()
      modifies this
      ensures Valid()
      ensures old(Rest()) == [] ==> r == None && Rest() == []
      ensures old(Rest()) != [] ==> r == Some(if old(Rest())[0] then 1 else 0) && Rest() == old(Rest())[1..]
    {
      if bit == 0 {
        if byte >= |data| { return None; }
        current := data[byte];
        byte, bit := byte + 1, 8;
      }
      bit := bit - 1;
      BytesBitAn(data, byte - 1, 7 - bit);
      BitAn(current, 8, 7 - bit);
      r := Some(Rechts(current, bit) % 2);
    }

    method ReadBits(count: nat) returns (r: Option<nat>)
      requires Valid()
      modifies this
      ensures Valid()
      ensures |old(Rest())| < count ==> r == None
      ensures |old(Rest())| >= count ==> r == Some(Wert(old(Rest())[..count])) && Rest() == old(Rest())[count..]
    {
      var value := 0;
      for i := 0 to count
        invariant Valid() && i <= |old(Rest())|
        invariant Rest() == old(Rest())[i..] && value == Wert(old(Rest())[..i])
      {
        var b := ReadBit();
        if b.None? { return None; }
        assert old(Rest())[..i + 1][..i] == old(Rest())[..i];
        value := 2 * value + b.value;
      }
      r := Some(value);
    }
  }

  // -------------------------------------------------------------- Golomb-Rice

  /** The code of one delta: its quotient in unary, a zero, its remainder in p bits. */
  function Golomb(p: nat, delta: nat): seq<bool> {
    Einsen(Rechts(delta, p)) + [false] + BitsVon(Niedrig(delta, p), p)
  }

  function QuotientLesen(bits: seq<bool>): (r: Option<(nat, seq<bool>)>)
    ensures r.Some? ==> |r.value.1| < |bits|
  {
    if bits == [] then None else if !bits[0] then Some((0, bits[1..]))
    else match QuotientLesen(bits[1..]) case None => None case Some((q, rest)) => Some((q + 1, rest))
  }

  /** What a decoder makes of any bits: the delta and the bits left, None when they run out. */
  function GolombLesen(p: nat, bits: seq<bool>): (r: Option<(nat, seq<bool>)>)
    ensures r.Some? ==> |r.value.1| < |bits|
  {
    match QuotientLesen(bits)
    case None => None
    case Some((q, rest)) => if |rest| < p then None else Some((Links(q, p) + Wert(rest[..p]), rest[p..]))
  }

  lemma {:induction false} QuotientRundreise(q: nat, rest: seq<bool>)
    ensures QuotientLesen(Einsen(q) + [false] + rest) == Some((q, rest))
  {
    var bits := Einsen(q) + [false] + rest;
    if q == 0 { assert bits[1..] == rest; } else {
      QuotientRundreise(q - 1, rest);
      assert bits[1..] == Einsen(q - 1) + [false] + rest;
    }
  }

  /** Decoding an encoded delta gives it back and consumes exactly its code. */
  lemma GolombRundreise(p: nat, delta: nat, rest: seq<bool>)
    ensures GolombLesen(p, Golomb(p, delta) + rest) == Some((delta, rest))
  {
    var q, r := Rechts(delta, p), BitsVon(Niedrig(delta, p), p);
    assert Golomb(p, delta) + rest == Einsen(q) + [false] + (r + rest);
    QuotientRundreise(q, r + rest);
    assert (r + rest)[..p] == r && (r + rest)[p..] == rest;
    TeileZusammen(delta, p);
    WertVonBits(Niedrig(delta, p), p);
  }

  method SchreibeEinsen(writer: Schreiber, quotient: nat)
    requires writer.Valid()
    modifies writer
    ensures writer.Valid() && writer.Bits() == old(writer.Bits()) + Einsen(quotient)
  {
    for i := 0 to quotient
      invariant writer.Valid() && writer.Bits() == old(writer.Bits()) + Einsen(i)
    {
      assert Einsen(i + 1) == Einsen(i) + [true];
      writer.WriteBit(1);
    }
  }

  method GolombRiceEncode(writer: Schreiber, p: nat, delta: nat)
    requires writer.Valid()
    modifies writer
    ensures writer.Valid() && writer.Bits() == old(writer.Bits()) + Golomb(p, delta)
  {
    SchreibeEinsen(writer, Rechts(delta, p));
    writer.WriteBit(0);
    writer.WriteBits(Niedrig(delta, p), p);
  }

  /** Counts ones up to the first zero. */
  method LiesQuotient(reader: Leser) returns (r: Option<nat>)
    requires reader.Valid()
    modifies reader
    ensures reader.Valid()
    ensures match QuotientLesen(old(reader.Rest()))
            case None => r == None
            case Some((q, rest)) => r == Some(q) && reader.Rest() == rest
  {
    var quotient := 0;
    ghost var bits := reader.Rest();
    while true
      invariant reader.Valid()
      invariant QuotientLesen(bits) == QuotientPlus(QuotientLesen(reader.Rest()), quotient)
      decreases |reader.Rest()|
    {
      var b := reader.ReadBit();
      if b.None? { return None; }
      if b.value != 1 { return Some(quotient); }
      quotient := quotient + 1;
    }
  }

  function QuotientPlus(r: Option<(nat, seq<bool>)>, n: nat): Option<(nat, seq<bool>)> {
    match r case None => None case Some((q, rest)) => Some((q + n, rest))
  }

  method GolombRiceDecode(reader: Leser, p: nat) returns (r: Option<nat>)
    requires reader.Valid()
    modifies reader
    ensures reader.Valid()
    ensures match GolombLesen(p, old(reader.Rest()))
            case None => r == None
            case Some((d, rest)) => r == Some(d) && reader.Rest() == rest
  {
    var quotient := LiesQuotient(reader);
    if quotient.None? { return None; }
    var rest := reader.ReadBits(p);
    if rest.None? { return None; }
    r := Some(Links(quotient.value, p) + rest.value);
  }

  // ------------------------------------------------------------- compact size

  function LittleEndian(v: nat, k: nat): (r: seq<Byte>)
    ensures |r| == k
  {
    if k == 0 then [] else [v % 256] + LittleEndian(v / 256, k - 1)
  }

  function AusLittleEndian(b: seq<Byte>): nat { if b == [] then 0 else b[0] + 256 * AusLittleEndian(b[1..]) }

  function Pow256(k: nat): nat { if k == 0 then 1 else 256 * Pow256(k - 1) }

  lemma {:induction false} LittleEndianRundreise(v: nat, k: nat)
    requires v < Pow256(k)
    ensures AusLittleEndian(LittleEndian(v, k)) == v
  {
    if k > 0 { LittleEndianRundreise(v / 256, k - 1); }
  }

  function WriteCompactSize(v: nat): seq<Byte>
    requires v < 0x1_0000_0000_0000_0000
  {
    if v < 253 then [v]
    else if v <= 0xFFFF then [253] + LittleEndian(v, 2)
    else if v <= 0xFFFF_FFFF then [254] + LittleEndian(v, 4)
    else [255] + LittleEndian(v, 8)
  }

  /** Value and the offset behind it; None where the source raises because bytes are missing. */
  function ReadCompactSize(data: seq<Byte>, offset: nat): (r: Option<(nat, nat)>)
    ensures r.Some? ==> offset < r.value.1 <= |data|
  {
    if offset >= |data| then None
    else
      var first, o := data[offset], offset + 1;
      if first < 253 then Some((first, o))
      else
        var k := if first == 253 then 2 else if first == 254 then 4 else 8;
        if o + k > |data| then None else Some((AusLittleEndian(data[o..o + k]), o + k))
  }

  lemma CompactSizeRundreise(v: nat, rest: seq<Byte>)
    requires v < 0x1_0000_0000_0000_0000
    ensures ReadCompactSize(WriteCompactSize(v) + rest, 0) == Some((v, |WriteCompactSize(v)|))
  {
    if v >= 253 {
      var k := if v <= 0xFFFF then 2 else if v <= 0xFFFF_FFFF then 4 else 8;
      assert (WriteCompactSize(v) + rest)[1..1 + k] == LittleEndian(v, k);
      assert Pow256(2) == 0x1_0000 && Pow256(4) == 0x1_0000_0000 && Pow256(8) == 0x1_0000_0000_0000_0000 by {
        assert Pow256(4) == 256 * 256 * Pow256(2) && Pow256(6) == 256 * 256 * Pow256(4) && Pow256(8) == 256 * 256 * Pow256(6);
      }
      LittleEndianRundreise(v, k);
    }
  }
}
