/** SipHash-2-4 over bytes (core/bip158_filter.py, lines 25-75) against its definition over 64-bit words. */
module SipHash {
  import opened Ordnung
  import opened BitStrom

  const P64 := 0x1_0000_0000_0000_0000

  // ----------------------------------------------- bit operations on unbounded ints

  /** a | b */
  function Oder(a: nat, b: nat): nat
    decreases a + b
  {
    if a == 0 && b == 0 then 0 else 2 * Oder(a / 2, b / 2) + (if a % 2 == 1 || b % 2 == 1 then 1 else 0)
  }

  /** a ^ b */
  function Xor(a: nat, b: nat): nat
    decreases a + b
  {
    if a == 0 && b == 0 then 0 else 2 * Xor(a / 2, b / 2) + (if a % 2 != b % 2 then 1 else 0)
  }

  /** Bit k of a ^ b is set exactly if it is set in one of the two. */
  lemma {:induction false} XorBit(a: nat, b: nat, k: nat)
    ensures Rechts(Xor(a, b), k) % 2 == 1 <==> Rechts(a, k) % 2 != Rechts(b, k) % 2
    decreases k
  {
    if a == 0 && b == 0 {
      RechtsNull(k);
    } else if k > 0 {
      XorBit(a / 2, b / 2, k - 1);
    }
  }

  lemma {:induction false} RechtsNull(k: nat)
    ensures Rechts(0, k) == 0
  {
    if k > 0 { RechtsNull(k - 1); }
  }

  lemma {:induction false} XorSchranke(a: nat, b: nat, k: nat)
    requires a < Pow2(k) && b < Pow2(k)
    ensures Xor(a, b) < Pow2(k)
  {
    if k > 0 && !(a == 0 && b == 0) { XorSchranke(a / 2, b / 2, k - 1); }
  }

  lemma {:induction false} OderNull(a: nat)
    ensures Oder(a, 0) == a && Oder(0, a) == a
  {
    if a > 0 { OderNull(a / 2); }
  }

  /** Bits that do not meet add up. */
  lemma {:induction false} OderDisjunkt(a: nat, b: nat, k: nat)
    requires a < Pow2(k)
    ensures Oder(a, Links(b, k)) == a + Links(b, k)
  {
    if k == 0 { OderNull(b); } else {
      LinksDoppelt(b, k - 1);
      OderDisjunkt(a / 2, b, k - 1);
    }
  }

  lemma {:induction false} LinksMal(v: nat, k: nat)
    ensures Links(v, k) == v * Pow2(k)
    decreases k
  {
    if k > 0 {
      LinksMal(2 * v, k - 1);
      assert (2 * v) * Pow2(k - 1) == v * (2 * Pow2(k - 1));
    }
  }

  lemma {:induction false} PotenzSumme(a: nat, b: nat)
    ensures Pow2(a + b) == Pow2(a) * Pow2(b)
  {
    if a > 0 {
      PotenzSumme(a - 1, b);
      assert Pow2(a) * Pow2(b) == 2 * (Pow2(a - 1) * Pow2(b));
    }
  }

  lemma Potenz8()
    ensures Pow2(8) == 256
  {}

  lemma Potenz16()
    ensures Pow2(16) == 0x1_0000
  {
    Potenz8();
    PotenzSumme(8, 8);
  }

  lemma Potenz32()
    ensures Pow2(32) == 0x1_0000_0000
  {
    Potenz16();
    PotenzSumme(16, 16);
  }

  lemma Potenz64()
    ensures Pow2(64) == P64
  {
    Potenz32();
    PotenzSumme(32, 32);
  }

  lemma {:induction false} MalMehr(q: nat, mehr: nat, p: nat)
    requires q < mehr
    ensures mehr * p >= q * p + p
    decreases mehr
  {
    assert mehr * p == (mehr - 1) * p + p;
    if q < mehr - 1 { MalMehr(q, mehr - 1, p); }
  }

  lemma RestGenau(v: nat, q: nat, p: nat, r: nat)
    requires v == q * p + r && r < p
    ensures r == v % p
  {
    var q' := v / p;
    assert v == q' * p + v % p;
    if q < q' { MalMehr(q, q', p); }
    if q' < q { MalMehr(q', q, p); }
  }

  lemma Maske(v: nat, k: nat)
    ensures Niedrig(v, k) == v % Pow2(k)
  {
    TeileZusammen(v, k);
    LinksMal(Rechts(v, k), k);
    RestGenau(v, Rechts(v, k), Pow2(k), Niedrig(v, k));
  }

  /** Masking to 64 bits is the remainder modulo 2^64. */
  lemma Maske64(v: nat)
    ensures Niedrig(v, 64) == v % P64
  {
    Maske(v, 64);
    Potenz64();
  }

  // ---------------------------------------------------------- rounds of the source

  function Rotl64(value: nat, bits: nat): nat
    requires bits <= 64
  {
    Niedrig(Oder(Rechts(value, 64 - bits), Links(Niedrig(value, 64 - bits), bits)), 64)
  }

  datatype Zustand = Zustand(v0: nat, v1: nat, v2: nat, v3: nat) {
    predicate Klein() { v0 < P64 && v1 < P64 && v2 < P64 && v3 < P64 }
  }

  /** Half of `_siphash_round`: lines 32-38 on (v0, v1, v2, v3), lines 39-45 on (v2, v1, v0, v3). */
  function HalbRunde(a: nat, b: nat, c: nat, d: nat, r: nat, s: nat): (nat, nat, nat, nat)
    requires r <= 64 && s <= 64
  {
    var a', c' := Niedrig(a + b, 64), Niedrig(c + d, 64);
    (Rotl64(a', 32), Xor(Rotl64(b, r), a'), c', Xor(Rotl64(d, s), c'))
  }

  function Runde(z: Zustand): Zustand {
    var (v0, v1, v2, v3) := HalbRunde(z.v0, z.v1, z.v2, z.v3, 13, 16);
    var (x2, x1, x0, x3) := HalbRunde(v2, v1, v0, v3, 17, 21);
    Zustand(x0, x1, x2, x3)
  }

  // -------------------------------------------- the definition over 64-bit words

  /** Rotation to the left on the 64 bits of a word. */
  function Rotiert(w: nat, bits: nat): nat
    requires bits <= 64
  {
    Wert(BitsVon(w, 64)[bits..] + BitsVon(w, 64)[..bits])
  }

  function HalbSipRound(a: nat, b: nat, c: nat, d: nat, r: nat, s: nat): (nat, nat, nat, nat)
    requires r <= 64 && s <= 64
  {
    var a', c' := (a + b) % P64, (c + d) % P64;
    (Rotiert(a', 32), Xor(Rotiert(b, r), a'), c', Xor(Rotiert(d, s), c'))
  }

  /** SipRound, section 2 of the SipHash paper (Aumasson and Bernstein, 2012). */
  function SipRound(z: Zustand): Zustand {
    var (v0, v1, v2, v3) := HalbSipRound(z.v0, z.v1, z.v2, z.v3, 13, 16);
    var (x2, x1, x0, x3) := HalbSipRound(v2, v1, v0, v3, 17, 21);
    Zustand(x0, x1, x2, x3)
  }

  function Verdichte(z: Zustand, m: nat): Zustand {
    var x := SipRound(SipRound(z.(v3 := Xor(z.v3, m))));
    x.(v0 := Xor(x.v0, m))
  }

  /** The words absorbed from left to right by a compression step. */
  function Gefaltet(f: (Zustand, nat) -> Zustand, z: Zustand, m: seq<nat>): Zustand {
    if m == [] then z else f(Gefaltet(f, z, m[..|m| - 1]), m[|m| - 1])
  }

  /** Eight bytes a word, the least significant first; the last word ends with the length modulo 256. */
  function Nachricht(data: seq<Byte>): seq<nat> {
    var voll := |data| / 8;
    seq(voll, j requires 0 <= j < voll => AusLittleEndian(data[8 * j..8 * j + 8]))
    + [AusLittleEndian(data[8 * voll..]) + (|data| % 256) * 0x100_0000_0000_0000]
  }

  function Anfang(k0: nat, k1: nat): Zustand {
    Zustand(Xor(0x736F6D6570736575, k0), Xor(0x646F72616E646F6D, k1), Xor(0x6C7967656E657261, k0), Xor(0x7465646279746573, k1))
  }

  function SipHash24(k0: nat, k1: nat, data: seq<Byte>): nat {
    var z := Gefaltet(Verdichte, Anfang(k0, k1), Nachricht(data));
    var x := SipRound(SipRound(SipRound(SipRound(z.(v2 := Xor(z.v2, 0xFF))))));
    Xor(Xor(Xor(x.v0, x.v1), x.v2), x.v3)
  }

  // ------------------------------------------------------------------ agreement

  lemma {:induction false} BitsTeilen(v: nat, a: nat, b: nat)
    ensures BitsVon(v, a + b) == BitsVon(Rechts(v, b), a) + BitsVon(v, b)
  {
    if b > 0 { BitsTeilen(v / 2, a, b - 1); }
  }

  lemma {:induction false} WertNiedrig(v: nat, k: nat)
    ensures Wert(BitsVon(v, k)) == Niedrig(v, k)
  {
    if k > 0 {
      WertNiedrig(v / 2, k - 1);
      assert BitsVon(v, k)[..k - 1] == BitsVon(v / 2, k - 1);
    }
  }

  lemma {:induction false} WertVerketten(x: seq<bool>, y: seq<bool>)
    ensures Wert(x + y) == Links(Wert(x), |y|) + Wert(y)
  {
    if y == [] { assert x + y == x; } else {
      var y' := y[..|y| - 1];
      WertVerketten(x, y');
      assert (x + y)[..|x + y| - 1] == x + y';
      LinksDoppelt(Wert(x), |y'|);
    }
  }

  lemma {:induction false} RechtsSchranke(v: nat, k: nat, a: nat)
    requires v < Pow2(a + k)
    ensures Rechts(v, k) < Pow2(a)
  {
    if k > 0 { RechtsSchranke(v / 2, k - 1, a); }
  }

  lemma {:induction false} NiedrigGleich(v: nat, k: nat)
    requires v < Pow2(k)
    ensures Niedrig(v, k) == v
  {
    if k > 0 { NiedrigGleich(v / 2, k - 1); }
  }

  lemma RotiertSumme(w: nat, k: nat, bits: nat)
    requires w < Pow2(k + bits) && k + bits == 64
    ensures Rotiert(w, bits) == Links(Niedrig(w, k), bits) + Rechts(w, k)
  {
    var hoch := Rechts(w, k);
    RechtsSchranke(w, k, bits);
    BitsTeilen(w, bits, k);
    var b := BitsVon(w, 64);
    assert b[bits..] == BitsVon(w, k) && b[..bits] == BitsVon(hoch, bits);
    WertVerketten(BitsVon(w, k), BitsVon(hoch, bits));
    WertNiedrig(w, k);
    WertNiedrig(hoch, bits);
    NiedrigGleich(hoch, bits);
  }

  /** The masked shifts of the source rotate the 64 bits of a word. */
  lemma RotlRotiert(w: nat, bits: nat)
    requires w < P64 && bits <= 64
    ensures Rotl64(w, bits) == Rotiert(w, bits) < P64
  {
    Potenz64();
    var k := 64 - bits;
    var hoch, tief := Rechts(w, k), Niedrig(w, k);
    RotiertSumme(w, k, bits);
    RechtsSchranke(w, k, bits);
    OderDisjunkt(hoch, tief, bits);
    TeileZusammen(w, k);
    LinksPlus(tief, hoch, k, bits);
    NiedrigGleich(hoch + Links(tief, bits), 64);
  }

  lemma {:induction false} LinksPlus(tief: nat, hoch: nat, k: nat, bits: nat)
    requires tief < Pow2(k) && hoch < Pow2(bits)
    ensures Links(tief, bits) + hoch < Pow2(k + bits)
    decreases bits
  {
    if bits > 0 {
      LinksDoppelt(tief, bits - 1);
      LinksPlus(tief, hoch / 2, k, bits - 1);
    }
  }

  lemma HalbRundeGleich(a: nat, b: nat, c: nat, d: nat, r: nat, s: nat)
    requires a < P64 && b < P64 && c < P64 && d < P64 && r <= 64 && s <= 64
    ensures HalbRunde(a, b, c, d, r, s) == HalbSipRound(a, b, c, d, r, s)
    ensures var (w, x, y, z) := HalbSipRound(a, b, c, d, r, s); w < P64 && x < P64 && y < P64 && z < P64
  {
    Potenz64();
    var a', c' := (a + b) % P64, (c + d) % P64;
    Maske64(a + b);
    Maske64(c + d);
    RotlRotiert(a', 32);
    RotlRotiert(b, r);
    RotlRotiert(d, s);
    XorSchranke(Rotiert(b, r), a', 64);
    XorSchranke(Rotiert(d, s), c', 64);
  }

  /** The masked integers of the source are the words of the paper, and never exceed 64 bits. */
  lemma RundeGleich(z: Zustand)
    requires z.Klein()
    ensures Runde(z) == SipRound(z) && SipRound(z).Klein()
  {
    HalbRundeGleich(z.v0, z.v1, z.v2, z.v3, 13, 16);
    var (v0, v1, v2, v3) := HalbSipRound(z.v0, z.v1, z.v2, z.v3, 13, 16);
    HalbRundeGleich(v2, v1, v0, v3, 17, 21);
  }

  // ------------------------------------------------------------------ streaming

  lemma Maske8(v: nat)
    ensures Niedrig(v, 8) == v % 256
  {
    Maske(v, 8);
    Potenz8();
  }

  lemma Maske3(v: nat)
    ensures Niedrig(v, 3) == v % 8
  {
    Maske(v, 3);
    assert Pow2(3) == 8;
  }

  /** Setting the next byte of the tail appends it to the little-endian word. */
  lemma {:induction false} NaechstesByte(s: seq<Byte>, b: Byte)
    ensures AusLittleEndian(s) < Pow2(8 * |s|)
    ensures AusLittleEndian(s + [b]) == Oder(AusLittleEndian(s), Links(b, 8 * |s|))
  {
    WortSchranke(s);
    OderDisjunkt(AusLittleEndian(s), b, 8 * |s|);
    LinksMal(b, 8 * |s|);
    WortAnhaengen(s, b);
  }

  lemma {:induction false} WortSchranke(s: seq<Byte>)
    ensures AusLittleEndian(s) < Pow2(8 * |s|)
  {
    if s != [] {
      WortSchranke(s[1..]);
      AchtMehr(|s| - 1);
    }
  }

  lemma AchtMehr(n: nat)
    ensures Pow2(8 * (n + 1)) == 256 * Pow2(8 * n)
  {
    Potenz8();
    PotenzSumme(8, 8 * n);
  }

  lemma {:induction false} WortAnhaengen(s: seq<Byte>, b: Byte)
    ensures AusLittleEndian(s + [b]) == AusLittleEndian(s) + b * Pow2(8 * |s|)
  {
    if s == [] {
      assert s + [b] == [b];
    } else {
      WortAnhaengen(s[1..], b);
      assert (s + [b])[1..] == s[1..] + [b];
      AchtMehr(|s| - 1);
      assert b * (256 * Pow2(8 * (|s| - 1))) == 256 * (b * Pow2(8 * (|s| - 1)));
    }
  }

  /** The last word: the remaining bytes below, the length modulo 256 on top. */
  lemma LetztesWort(rest: seq<Byte>, laenge: nat)
    requires |rest| < 8
    ensures Oder(AusLittleEndian(rest), Links(laenge, 56)) == AusLittleEndian(rest) + laenge * 0x100_0000_0000_0000
  {
    WortSchranke(rest);
    PotenzMonoton(8 * |rest|, 56);
    OderDisjunkt(AusLittleEndian(rest), laenge, 56);
    LinksMal(laenge, 56);
    Potenz32();
    Potenz16();
    Potenz8();
    PotenzSumme(32, 16);
    PotenzSumme(48, 8);
  }

  lemma {:induction false} PotenzMonoton(a: nat, b: nat)
    requires a <= b
    ensures Pow2(a) <= Pow2(b)
  {
    if a < b { PotenzMonoton(a, b - 1); }
  }

  method VerdichteWort(z: Zustand, m: nat) returns (r: Zustand)
    requires z.Klein() && m < P64
    ensures r == Verdichte(z, m) && r.Klein()
  {
    Potenz64();
    XorSchranke(z.v3, m, 64);
    r := z.(v3 := Xor(z.v3, m));
    RundeGleich(r);
    r := Runde(r);
    RundeGleich(r);
    r := Runde(r);
    XorSchranke(r.v0, m, 64);
    r := r.(v0 := Xor(r.v0, m));
  }

  /** State, 8-bit counter and rolling tail after i bytes. */
  ghost predicate Stand(f: (Zustand, nat) -> Zustand, start: Zustand, data: seq<Byte>, i: nat, z: Zustand, count: nat, tail: nat) {
    && i <= |data| && z.Klein()
    && z == Gefaltet(f, start, Nachricht(data)[..i / 8])
    && count == i % 256 && tail == AusLittleEndian(data[8 * (i / 8)..i])
  }

  lemma Teilen(i: nat, m: nat, q: nat, r: nat)
    requires (m == 8 || m == 256) && i == m * q + r && r < m
    ensures i / m == q && i % m == r
  {}

  lemma AchterRest(i: nat)
    ensures (i % 256) % 8 == i % 8
  {
    var q, r := i / 256, i % 256;
    Teilen(i, 8, 32 * q + r / 8, r % 8);
  }

  lemma Nachfolger(i: nat)
    ensures (i % 256 + 1) % 256 == (i + 1) % 256
    ensures if i % 8 == 7 then (i + 1) / 8 == i / 8 + 1 && (i + 1) % 8 == 0 else (i + 1) / 8 == i / 8 && (i + 1) % 8 != 0
  {
    var q, r, a, b := i / 256, i % 256, i / 8, i % 8;
    if r == 255 { Teilen(i + 1, 256, q + 1, 0); } else { Teilen(i + 1, 256, q, r + 1); }
    if b == 7 { Teilen(i + 1, 8, a + 1, 0); } else { Teilen(i + 1, 8, a, b + 1); }
  }

  lemma NaechsterCount(i: nat, count: nat)
    requires count == i % 256
    ensures Niedrig(count + 1, 8) == (i + 1) % 256
    ensures Niedrig((i + 1) % 256, 3) == (i + 1) % 8
  {
    Nachfolger(i);
    AchterRest(i + 1);
    Maske8(count + 1);
    Maske3((i + 1) % 256);
  }

  lemma NaechsterTail(data: seq<Byte>, i: nat, count: nat, tail: nat)
    requires i < |data| && count == i % 256 && tail == AusLittleEndian(data[8 * (i / 8)..i])
    ensures Oder(tail, Links(data[i], 8 * (count % 8))) == AusLittleEndian(data[8 * (i / 8)..i + 1])
  {
    AchterRest(i);
    NaechstesByte(data[8 * (i / 8)..i], data[i]);
    assert data[8 * (i / 8)..i] + [data[i]] == data[8 * (i / 8)..i + 1];
  }

  lemma NachrichtAn(data: seq<Byte>, j: nat)
    requires j <= |data| / 8
    ensures |Nachricht(data)| == |data| / 8 + 1
    ensures j < |data| / 8 ==> Nachricht(data)[j] == AusLittleEndian(data[8 * j..8 * j + 8])
    ensures j == |data| / 8 ==> Nachricht(data)[j] == AusLittleEndian(data[8 * j..]) + (|data| % 256) * 0x100_0000_0000_0000
  {}

  lemma GefaltetBis(f: (Zustand, nat) -> Zustand, start: Zustand, m: seq<nat>, j: nat)
    requires j < |m|
    ensures Gefaltet(f, start, m[..j + 1]) == f(Gefaltet(f, start, m[..j]), m[j])
  {
    assert m[..j + 1][..j] == m[..j];
  }

  lemma OhneRest(f: (Zustand, nat) -> Zustand, start: Zustand, data: seq<Byte>, i: nat)
    requires i < |data| && (i + 1) % 8 == 0
    ensures var m := AusLittleEndian(data[8 * (i / 8)..i + 1]);
            m < P64 && Gefaltet(f, start, Nachricht(data)[..(i + 1) / 8]) == f(Gefaltet(f, start, Nachricht(data)[..i / 8]), m)
    ensures AusLittleEndian(data[8 * ((i + 1) / 8)..i + 1]) == 0
  {
    Nachfolger(i);
    var j := i / 8;
    assert 8 * j + 8 == i + 1;
    WortKlein(data[8 * j..i + 1]);
    NachrichtAn(data, j);
    GefaltetBis(f, start, Nachricht(data), j);
  }

  method ByteSchritt(ghost start: Zustand, data: seq<Byte>, i: nat, z: Zustand, count: nat, tail: nat)
    returns (z': Zustand, count': nat, tail': nat)
    requires Stand(Verdichte, start, data, i, z, count, tail) && i < |data|
    ensures Stand(Verdichte, start, data, i + 1, z', count', tail')
  {
    NaechsterTail(data, i, count, tail);
    NaechsterCount(i, count);
    tail' := Oder(tail, Links(data[i], 8 * (count % 8)));
    count' := Niedrig(count + 1, 8);
    if Niedrig(count', 3) == 0 {
      OhneRest(Verdichte, start, data, i);
      z' := VerdichteWort(z, tail');
      tail' := 0;
    } else {
      Nachfolger(i);
      z' := z;
    }
  }

  lemma Schluss(f: (Zustand, nat) -> Zustand, start: Zustand, data: seq<Byte>, z: Zustand, count: nat, tail: nat)
    requires Stand(f, start, data, |data|, z, count, tail)
    ensures Oder(tail, Links(count, 56)) < P64
    ensures Gefaltet(f, start, Nachricht(data)) == f(z, Oder(tail, Links(count, 56)))
  {
    var voll := |data| / 8;
    var rest := data[8 * voll..];
    assert data[8 * voll..|data|] == rest;
    LetztesWort(rest, count);
    RestKlein(rest, count);
    NachrichtAn(data, voll);
    GefaltetBis(f, start, Nachricht(data), voll);
    assert Nachricht(data)[..voll + 1] == Nachricht(data);
  }

  /** The byte loop of the source computes SipHash-2-4, for input of any length. */
  method Siphash(k0: nat, k1: nat, data: seq<Byte>) returns (r: nat)
    requires k0 < P64 && k1 < P64
    ensures r == SipHash24(k0, k1, data) && r < P64
  {
    var z := Anfang(k0, k1);
    AnfangKlein(k0, k1);
    ghost var start := z;
    var count, tail := 0, 0;
    for i := 0 to |data|
      invariant Stand(Verdichte, start, data, i, z, count, tail)
    {
      z, count, tail := ByteSchritt(start, data, i, z, count, tail);
    }
    Schluss(Verdichte, start, data, z, count, tail);
    z := VerdichteWort(z, Oder(tail, Links(count, 56)));
    r := Abschluss(z);
  }

  /** Eight characters as one word, the first one on top. */
  function Buchstaben(t: string): nat
    requires |t| == 8
  {
    t[7] as nat + 256 * (t[6] as nat + 256 * (t[5] as nat + 256 * (t[4] as nat
    + 256 * (t[3] as nat + 256 * (t[2] as nat + 256 * (t[1] as nat + 256 * t[0] as nat))))))
  }

  /** The four words start from the text "somepseudorandomlygeneratedbytes", mixed with the two key halves in turn. */
  lemma AnfangText(k0: nat, k1: nat)
    ensures Anfang(k0, k1) == Zustand(Xor(Buchstaben("somepseu"), k0), Xor(Buchstaben("dorandom"), k1),
                                      Xor(Buchstaben("lygenera"), k0), Xor(Buchstaben("tedbytes"), k1))
  {
    assert Buchstaben("somepseu") == 0x736F6D6570736575 && Buchstaben("dorandom") == 0x646F72616E646F6D;
    assert Buchstaben("lygenera") == 0x6C7967656E657261 && Buchstaben("tedbytes") == 0x7465646279746573;
  }

  lemma AnfangKlein(k0: nat, k1: nat)
    requires k0 < P64 && k1 < P64
    ensures Anfang(k0, k1).Klein()
  {
    Potenz64();
    XorSchranke(0x736F6D6570736575, k0, 64);
    XorSchranke(0x646F72616E646F6D, k1, 64);
    XorSchranke(0x6C7967656E657261, k0, 64);
    XorSchranke(0x7465646279746573, k1, 64);
  }

  lemma WortKlein(s: seq<Byte>)
    requires |s| <= 8
    ensures AusLittleEndian(s) < P64
  {
    WortSchranke(s);
    PotenzMonoton(8 * |s|, 64);
    Potenz64();
  }

  lemma RestKlein(s: seq<Byte>, laenge: nat)
    requires |s| < 8 && laenge < 256
    ensures AusLittleEndian(s) + laenge * 0x100_0000_0000_0000 < P64
  {
    WortSchranke(s);
    PotenzMonoton(8 * |s|, 56);
    LetztesWort([], 1);
    LinksMal(1, 56);
    OderNull(Links(1, 56));
  }

  method Abschluss(start: Zustand) returns (r: nat)
    requires start.Klein()
    ensures r < P64
    ensures var x := SipRound(SipRound(SipRound(SipRound(start.(v2 := Xor(start.v2, 0xFF))))));
            r == Xor(Xor(Xor(x.v0, x.v1), x.v2), x.v3)
  {
    Potenz64();
    XorSchranke(start.v2, 0xFF, 64);
    var z := start.(v2 := Xor(start.v2, 0xFF));
    ghost var a := z;
    RundeGleich(z);
    z := Runde(z);
    RundeGleich(z);
    z := Runde(z);
    RundeGleich(z);
    z := Runde(z);
    RundeGleich(z);
    z := Runde(z);
    XorSchranke(z.v0, z.v1, 64);
    XorSchranke(Xor(z.v0, z.v1), z.v2, 64);
    XorSchranke(Xor(Xor(z.v0, z.v1), z.v2), z.v3, 64);
    NiedrigGleich(Xor(Xor(Xor(z.v0, z.v1), z.v2), z.v3), 64);
    r := Niedrig(Xor(Xor(Xor(z.v0, z.v1), z.v2), z.v3), 64);
  }

  lemma VerdichteKlein(z: Zustand, m: nat)
    requires z.Klein() && m < P64
    ensures Verdichte(z, m).Klein()
  {
    Potenz64();
    XorSchranke(z.v3, m, 64);
    var x := z.(v3 := Xor(z.v3, m));
    RundeGleich(x);
    RundeGleich(SipRound(x));
    XorSchranke(SipRound(SipRound(x)).v0, m, 64);
  }

  lemma {:induction false} GefaltetKlein(z: Zustand, m: seq<nat>)
    requires z.Klein() && forall w :: w in m ==> w < P64
    ensures Gefaltet(Verdichte, z, m).Klein()
  {
    if m != [] {
      var vor := m[..|m| - 1];
      assert forall w :: w in vor ==> w in m;
      GefaltetKlein(z, vor);
      assert m[|m| - 1] in m;
      VerdichteKlein(Gefaltet(Verdichte, z, vor), m[|m| - 1]);
    }
  }

  lemma NachrichtKlein(data: seq<Byte>)
    ensures forall w :: w in Nachricht(data) ==> w < P64
  {
    forall j | 0 <= j < |Nachricht(data)| ensures Nachricht(data)[j] < P64 {
      NachrichtAn(data, j);
      if j < |data| / 8 { WortKlein(data[8 * j..8 * j + 8]); } else { RestKlein(data[8 * j..], |data| % 256); }
    }
  }

  /** The digest of any message under 64-bit keys is a 64-bit word. */
  lemma DigestKlein(k0: nat, k1: nat, data: seq<Byte>)
    requires k0 < P64 && k1 < P64
    ensures SipHash24(k0, k1, data) < P64
  {
    AnfangKlein(k0, k1);
    NachrichtKlein(data);
    GefaltetKlein(Anfang(k0, k1), Nachricht(data));
    EndeKlein(Gefaltet(Verdichte, Anfang(k0, k1), Nachricht(data)));
  }

  lemma EndeKlein(start: Zustand)
    requires start.Klein()
    ensures var x := SipRound(SipRound(SipRound(SipRound(start.(v2 := Xor(start.v2, 0xFF))))));
            Xor(Xor(Xor(x.v0, x.v1), x.v2), x.v3) < P64
  {
    Potenz64();
    XorSchranke(start.v2, 0xFF, 64);
    var a := start.(v2 := Xor(start.v2, 0xFF));
    RundeGleich(a);
    RundeGleich(SipRound(a));
    RundeGleich(SipRound(SipRound(a)));
    RundeGleich(SipRound(SipRound(SipRound(a))));
    var x := SipRound(SipRound(SipRound(SipRound(a))));
    XorSchranke(x.v0, x.v1, 64);
    XorSchranke(Xor(x.v0, x.v1), x.v2, 64);
    XorSchranke(Xor(Xor(x.v0, x.v1), x.v2), x.v3, 64);
  }
}
