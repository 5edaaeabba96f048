/** Basic block filters: encoding and matching (core/bip158_filter.py, lines 180-252; BIP 158, "Golomb-Coded Sets"). */
module Filter {
  import opened Ordnung
  import opened BitStrom
  import opened SipHash

  const BASIC_FILTER_M := 784_931
  const BASIC_FILTER_P := 19
  const UINT32_MAX := 0xFFFF_FFFF

  type Skript = seq<Byte>

  /** The digest of a script under the keys of one block: 64 bits. */
  type Digest = h: Skript -> nat | forall s :: h(s) < P64 witness (_ => 0)

  function HashInBereich(element: Skript, h: Digest, bereich: nat): nat { (h(element) * bereich) / P64 }

  /** The digest's share of n * 784 931 slots, counted from 0: v slots of 2^64 lie below it, v + 1 do not. */
  ghost predicate FaelltAuf(h: Digest, e: Skript, n: nat, v: int) {
    0x1_0000_0000_0000_0000 * v <= h(e) * (n * 784_931) < 0x1_0000_0000_0000_0000 * (v + 1)
  }

  lemma HashInBereichGenau(element: Skript, h: Digest, n: nat, v: int)
    ensures FaelltAuf(h, element, n, v) <==> v == HashInBereich(element, h, n * BASIC_FILTER_M)
  {
    QuotientGenau(h(element) * (n * BASIC_FILTER_M), v);
  }

  lemma QuotientGenau(x: nat, v: int)
    ensures P64 * v <= x < P64 * (v + 1) <==> v == x / P64
  {}

  lemma BereichSchranke(element: Skript, h: Digest, bereich: nat)
    requires bereich > 0
    ensures HashInBereich(element, h, bereich) < bereich
  {
    MalWenn(h(element), P64 - 1, bereich);
    assert (P64 - 1) * bereich == P64 * bereich - bereich;
  }

  lemma MalWenn(a: nat, b: nat, m: nat)
    requires a <= b
    ensures a * m <= b * m
  {}

  // ----------------------------------------------------------------- code words

  /** The deltas of an ascending list, one code after the other. */
  function Kodiert(p: nat, werte: seq<int>, letzter: int): seq<bool>
    requires Aufsteigend(werte) && (werte != [] ==> letzter <= werte[0])
  {
    if werte == [] then [] else Golomb(p, werte[0] - letzter) + Kodiert(p, werte[1..], werte[0])
  }

  /** The values a decoder reads from any bits, and whether it read all n of them. */
  function Dekodiert(p: nat, bits: seq<bool>, n: nat, letzter: nat): (seq<nat>, bool)
    decreases n
  {
    if n == 0 then ([], true) else
      match GolombLesen(p, bits)
      case None => ([], false)
      case Some((d, rest)) =>
        var (werte, ganz) := Dekodiert(p, rest, n - 1, letzter + d);
        ([letzter + d] + werte, ganz)
  }

  /** Round trip: whatever follows the codes, exactly the encoded values come back. */
  lemma {:induction false} DekodiertKodiert(p: nat, werte: seq<int>, letzter: nat, rest: seq<bool>)
    requires Aufsteigend(werte) && (werte != [] ==> letzter <= werte[0])
    ensures Dekodiert(p, Kodiert(p, werte, letzter) + rest, |werte|, letzter) == (werte, true)
  {
    if werte != [] {
      var d := werte[0] - letzter;
      var weiter := Kodiert(p, werte[1..], werte[0]) + rest;
      assert Kodiert(p, werte, letzter) + rest == Golomb(p, d) + weiter;
      GolombRundreise(p, d, weiter);
      DekodiertKodiert(p, werte[1..], werte[0], rest);
      assert [werte[0]] + werte[1..] == werte;
    }
  }

  lemma QuotientenSumme(q: nat, k: int, m: nat, d: int, rest: int)
    requires q * m <= d && k * m <= rest
    ensures (q + k) * m <= d + rest
  {}

  /** The unary quotients telescope: p + 1 bits a value, plus the last value over 2^p. */
  lemma {:induction false} KodiertLaenge(p: nat, werte: seq<int>, letzter: nat, oben: nat)
    requires Aufsteigend(werte) && (werte != [] ==> letzter <= werte[0] && werte[|werte| - 1] <= oben) && letzter <= oben
    ensures (|Kodiert(p, werte, letzter)| - MalP(p, |werte|)) * Pow2(p) <= oben - letzter
  {
    if werte != [] {
      var d := werte[0] - letzter;
      KodiertLaenge(p, werte[1..], werte[0], oben);
      RechtsMal(d, p);
      QuotientenSumme(Rechts(d, p), |Kodiert(p, werte[1..], werte[0])| - MalP(p, |werte| - 1), Pow2(p), d, oben - werte[0]);
    }
  }

  /** (p + 1) * n */
  function MalP(p: nat, n: nat): nat { if n == 0 then 0 else p + 1 + MalP(p, n - 1) }

  lemma {:induction false} MalZwanzig(n: nat)
    ensures MalP(19, n) == 20 * n
  {
    if n > 0 { MalZwanzig(n - 1); }
  }

  lemma Potenz19()
    ensures Pow2(19) == 0x8_0000
  {
    Potenz16();
    PotenzSumme(16, 3);
    assert Pow2(3) == 8;
  }

  // ------------------------------------------------------------------- encoding

  function Hashes(elements: seq<Skript>, h: Digest, bereich: nat): (r: seq<int>)
    ensures |r| == |elements| && forall v :: v in r ==> v >= 0
  {
    seq(|elements|, i requires 0 <= i < |elements| => HashInBereich(elements[i], h, bereich))
  }

  /** The encoded filter of a list of scripts, with its length bounded. */
  ghost predicate Filterbytes(blob: seq<Byte>, elements: seq<Skript>, h: Digest)
    requires |elements| < P64
  {
    var n := |elements|;
    var werte := Sortiert(IntKleiner, Hashes(elements, h, n * BASIC_FILTER_M));
    exists fuell, bytes :: blob == WriteCompactSize(n) + bytes && Aufsteigend(werte) && (werte != [] ==> 0 <= werte[0])
                           && BytesZuBits(bytes) == Kodiert(BASIC_FILTER_P, werte, 0) + Nullen(fuell)
                           && fuell < 8
  }

  method HashAlle(elements: seq<Skript>, h: Digest, bereich: nat) returns (r: seq<int>)
    requires elements == [] || bereich > 0
    ensures r == Hashes(elements, h, bereich) && forall v :: v in r ==> 0 <= v < bereich
  {
    r := [];
    for i := 0 to |elements|
      invariant r == Hashes(elements, h, bereich)[..i] && forall v :: v in r ==> 0 <= v < bereich
    {
      BereichSchranke(elements[i], h, bereich);
      r := r + [HashInBereich(elements[i], h, bereich)];
    }
  }

  lemma KodiertSchritt(p: nat, werte: seq<int>, i: nat, letzter: int)
    requires i < |werte| && Aufsteigend(werte) && letzter <= werte[i]
    ensures Kodiert(p, werte[i..], letzter) == Golomb(p, werte[i] - letzter) + Kodiert(p, werte[i + 1..], werte[i])
  {
    assert werte[i..][0] == werte[i] && werte[i..][1..] == werte[i + 1..];
  }

  lemma Umklammern(a: seq<bool>, b: seq<bool>, c: seq<bool>)
    ensures a + (b + c) == (a + b) + c
  {}

  /** One code of the sequence. */
  method SchreibeCode(p: nat, writer: Schreiber, werte: seq<int>, i: nat, letzter: nat)
    requires writer.Valid() && i < |werte| && Aufsteigend(werte) && 0 <= werte[0] && letzter <= werte[i]
    requires Kodiert(p, werte, 0) == writer.Bits() + Kodiert(p, werte[i..], letzter)
    modifies writer
    ensures writer.Valid() && Kodiert(p, werte, 0) == writer.Bits() + Kodiert(p, werte[i + 1..], werte[i])
  {
    KodiertSchritt(p, werte, i, letzter);
    Umklammern(writer.Bits(), Golomb(p, werte[i] - letzter), Kodiert(p, werte[i + 1..], werte[i]));
    GolombRiceEncode(writer, p, werte[i] - letzter);
  }

  method SchreibeCodes(p: nat, writer: Schreiber, werte: seq<int>)
    requires writer.Valid() && writer.Bits() == [] && Aufsteigend(werte) && (werte != [] ==> 0 <= werte[0])
    modifies writer
    ensures writer.Valid() && writer.Bits() == Kodiert(p, werte, 0)
  {
    var letzter: int := 0;
    assert werte[0..] == werte && writer.Bits() + Kodiert(p, werte, 0) == Kodiert(p, werte, 0);
    for i := 0 to |werte|
      invariant writer.Valid() && 0 <= letzter && (i < |werte| ==> letzter <= werte[i])
      invariant Kodiert(p, werte, 0) == writer.Bits() + Kodiert(p, werte[i..], letzter)
    {
      SchreibeCode(p, writer, werte, i, letzter);
      letzter := werte[i];
    }
  }

  method SchreibeWerte(p: nat, werte: seq<int>) returns (bytes: seq<Byte>)
    requires Aufsteigend(werte) && (werte != [] ==> 0 <= werte[0])
    ensures |bytes| == (|Kodiert(p, werte, 0)| + 7) / 8
    ensures BytesZuBits(bytes) == Kodiert(p, werte, 0) + Nullen(8 * |bytes| - |Kodiert(p, werte, 0)|)
  {
    var writer := new Schreiber();
    SchreibeCodes(p, writer, werte);
    bytes := writer.Flush();
  }

  /** `_encode_core_basic_filter`; the length bound is 20 bits a script plus the telescoped quotients. */
  method Kodiere(elements: seq<Skript>, h: Digest) returns (blob: seq<Byte>)
    requires |elements| < P64
    ensures Filterbytes(blob, elements, h)
    ensures elements != [] ==>
              |blob| <= |WriteCompactSize(|elements|)| + (20 * |elements| + (|elements| * BASIC_FILTER_M - 1) / 0x8_0000 + 7) / 8
  {
    var n := |elements|;
    var hashed := HashAlle(elements, h, n * BASIC_FILTER_M);
    var werte := Sortiert(IntKleiner, hashed);
    SortiertElemente(IntKleiner, hashed);
    SortiertAufsteigend(hashed);
    blob := WriteCompactSize(n);
    if werte == [] {
      assert blob == WriteCompactSize(n) + [] && BytesZuBits([]) == Kodiert(BASIC_FILTER_P, werte, 0) + Nullen(0);
      return;
    }
    assert werte[0] in werte && werte[|werte| - 1] in werte;
    assert n > 0 && 0 <= werte[0] && werte[|werte| - 1] <= n * BASIC_FILTER_M - 1;
    var bytes := SchreibeWerte(BASIC_FILTER_P, werte);
    KodiertLaenge(BASIC_FILTER_P, werte, 0, n * BASIC_FILTER_M - 1);
    Potenz19();
    MalZwanzig(n);
    blob := blob + bytes;
  }

  // ------------------------------------------------------------------- matching

  datatype Antwort = Ja | Nein | Fehler

  /** What the decoded values mean for the queries: a hit before the bits run out decides. */
  ghost function Abgleich(queries: seq<int>, dekodiert: (seq<nat>, bool)): Antwort {
    if exists v :: v in queries && v in dekodiert.0 then Ja else if dekodiert.1 then Nein else Fehler
  }

  lemma AbgleichSchritt(queries: seq<int>, v: nat, werte: seq<nat>, ganz: bool)
    ensures Abgleich(queries, ([v] + werte, ganz)) == if v in queries then Ja else Abgleich(queries, (werte, ganz))
  {
    assert v in [v] + werte;
    assert forall x :: x in [v] + werte <==> x == v || x in werte;
  }

  lemma AbgleichGleich(q: seq<int>, q': seq<int>, d: (seq<nat>, bool))
    requires forall v :: v in q <==> v in q'
    ensures Abgleich(q, d) == Abgleich(q', d)
  {}

  /** The inner loop: skip the queries below the value. */
  method Vorruecken(queries: seq<int>, index: nat, value: int) returns (treffer: bool, weiter: nat)
    requires Aufsteigend(queries) && index <= |queries| && forall j :: 0 <= j < index ==> queries[j] < value
    ensures treffer <==> value in queries
    ensures weiter <= |queries| && forall j :: 0 <= j < weiter ==> queries[j] < value
  {
    weiter := index;
    while weiter < |queries|
      invariant index <= weiter <= |queries| && forall j :: 0 <= j < weiter ==> queries[j] < value
    {
      if queries[weiter] == value { return true, weiter; }
      if queries[weiter] > value { break; }
      weiter := weiter + 1;
    }
    treffer := false;
  }

  lemma DekodiertSchritt(p: nat, bits: seq<bool>, n: nat, letzter: nat, queries: seq<int>)
    requires n > 0
    ensures Abgleich(queries, Dekodiert(p, bits, n, letzter)) ==
            match GolombLesen(p, bits)
            case None => Fehler
            case Some((d, rest)) =>
              if letzter + d in queries then Ja else Abgleich(queries, Dekodiert(p, rest, n - 1, letzter + d))
  {
    var g := GolombLesen(p, bits);
    if g.Some? {
      var weiter := Dekodiert(p, g.value.1, n - 1, letzter + g.value.0);
      AbgleichSchritt(queries, letzter + g.value.0, weiter.0, weiter.1);
    }
  }

  /** Decodes one value; what follows is the rest of the verdict. */
  method NaechsterWert(p: nat, reader: Leser, ghost n: nat, value: nat, ghost queries: seq<int>) returns (v: Option<nat>)
    requires reader.Valid() && n > 0
    modifies reader
    ensures reader.Valid() && (v.Some? ==> v.value >= value)
    ensures v.None? ==> Abgleich(queries, Dekodiert(p, old(reader.Rest()), n, value)) == Fehler
    ensures v.Some? ==> Abgleich(queries, Dekodiert(p, old(reader.Rest()), n, value)) ==
                        if v.value in queries then Ja else Abgleich(queries, Dekodiert(p, reader.Rest(), n - 1, v.value))
  {
    DekodiertSchritt(p, reader.Rest(), n, value, queries);
    var delta := GolombRiceDecode(reader, p);
    v := if delta.None? then None else Some(value + delta.value);
  }

  /** The merge of the values decoded so far with the ascending queries. */
  method Vergleiche(p: nat, reader: Leser, n: nat, queries: seq<int>) returns (a: Antwort)
    requires reader.Valid() && Aufsteigend(queries)
    modifies reader
    ensures a == Abgleich(queries, Dekodiert(p, old(reader.Rest()), n, 0))
  {
    ghost var gesamt := Abgleich(queries, Dekodiert(p, reader.Rest(), n, 0));
    var value: nat, index: nat := 0, 0;
    for i := 0 to n
      invariant reader.Valid() && index <= |queries|
      invariant gesamt == Abgleich(queries, Dekodiert(p, reader.Rest(), n - i, value))
      invariant forall j :: 0 <= j < index ==> queries[j] < value
    {
      var naechster := NaechsterWert(p, reader, n - i, value, queries);
      if naechster.None? { return Fehler; }
      value := naechster.value;
      var treffer;
      treffer, index := Vorruecken(queries, index, value);
      if treffer { return Ja; }
    }
    a := Nein;
  }

  /** The verdict on a filter of n values, on any bytes behind the count. */
  ghost function Urteil(p: nat, encoded: seq<Byte>, queries: seq<int>): Antwort
    requires ReadCompactSize(encoded, 0).Some?
  {
    var (n, offset) := ReadCompactSize(encoded, 0).value;
    Abgleich(queries, Dekodiert(p, BytesZuBits(encoded[offset..]), n, 0))
  }

  method MatchInternal(p: nat, encoded: seq<Byte>, n: nat, queries: seq<int>) returns (a: Antwort)
    requires Aufsteigend(queries)
    ensures ReadCompactSize(encoded, 0).None? || ReadCompactSize(encoded, 0).value.0 != n ==> a == Fehler
    ensures ReadCompactSize(encoded, 0).Some? && ReadCompactSize(encoded, 0).value.0 == n ==> a == Urteil(p, encoded, queries)
  {
    var kopf := ReadCompactSize(encoded, 0);
    if kopf.None? || kopf.value.0 != n { return Fehler; }
    var reader := new Leser(encoded[kopf.value.1..]);
    a := Vergleiche(p, reader, n, queries);
  }

  /** Some script asked for falls on one of the values. */
  ghost predicate WertTreffer(elements: seq<Skript>, h: Digest, n: nat, werte: seq<nat>) {
    exists e, v :: e in elements && v in werte && FaelltAuf(h, e, n, v)
  }

  lemma WertTrefferGenau(elements: seq<Skript>, h: Digest, n: nat, werte: seq<nat>)
    ensures WertTreffer(elements, h, n, werte) <==> exists v :: v in Hashes(elements, h, n * BASIC_FILTER_M) && v in werte
  {
    if WertTreffer(elements, h, n, werte) {
      var e, v :| e in elements && v in werte && FaelltAuf(h, e, n, v);
      HashInBereichGenau(e, h, n, v);
      HashDrin(elements, h, n * BASIC_FILTER_M, e);
    }
    if v :| v in Hashes(elements, h, n * BASIC_FILTER_M) && v in werte {
      var i :| 0 <= i < |elements| && Hashes(elements, h, n * BASIC_FILTER_M)[i] == v;
      HashInBereichGenau(elements[i], h, n, v);
      assert elements[i] in elements;
    }
  }

  /**
   * The answer on any filter, whoever wrote it: with the count n and the values its Golomb code holds, a hit
   * exactly if some script asked for falls on one of them, an error only if the bits run out before one does.
   */
  ghost predicate Antwortet(a: Antwort, encoded: seq<Byte>, h: Digest, elements: seq<Skript>)
    requires ReadCompactSize(encoded, 0).Some?
  {
    var (n, offset) := ReadCompactSize(encoded, 0).value;
    var (werte, ganz) := Dekodiert(19, BytesZuBits(encoded[offset..]), n, 0);
    a == if WertTreffer(elements, h, n, werte) then Ja else if ganz || elements == [] then Nein else Fehler
  }

  /** `_CoreBasicFilterMatcher(...).match_any(...)`: reads the count, hashes the queries into its range. */
  method MatchAny(encoded: seq<Byte>, h: Digest, elements: seq<Skript>) returns (a: Antwort)
    ensures ReadCompactSize(encoded, 0).None? || ReadCompactSize(encoded, 0).value.0 > 0xFFFF_FFFF ==> a == Fehler
    ensures ReadCompactSize(encoded, 0).Some? && ReadCompactSize(encoded, 0).value.0 <= 0xFFFF_FFFF ==> Antwortet(a, encoded, h, elements)
  {
    var kopf := ReadCompactSize(encoded, 0);
    if kopf.None? || kopf.value.0 > UINT32_MAX { return Fehler; }
    var n := kopf.value.0;
    ghost var hashes, dekodiert := Hashes(elements, h, n * BASIC_FILTER_M), Dekodiert(BASIC_FILTER_P, BytesZuBits(encoded[kopf.value.1..]), n, 0);
    WertTrefferGenau(elements, h, n, dekodiert.0);
    var verschieden: seq<int> := [];
    for i := 0 to |elements|
      invariant forall v :: v in verschieden <==> v in hashes[..i]
      invariant |verschieden| <= i
    {
      var v := HashInBereich(elements[i], h, n * BASIC_FILTER_M);
      assert hashes[..i + 1] == hashes[..i] + [v];
      if v !in verschieden { verschieden := verschieden + [v]; }
    }
    assert hashes[..|elements|] == hashes;
    var queries := Sortiert(IntKleiner, verschieden);
    SortiertElemente(IntKleiner, verschieden);
    SortiertAufsteigend(verschieden);
    assert elements != [] ==> hashes[0] in verschieden;
    if queries == [] { return Nein; }
    a := MatchInternal(BASIC_FILTER_P, encoded, n, queries);
    AbgleichGleich(queries, hashes, dekodiert);
  }

  // -------------------------------------------------------------------- exactness

  /** The hash of some query equals the hash of some script of the block. */
  ghost predicate HashTreffer(elements: seq<Skript>, queries: seq<Skript>, h: Digest) {
    exists e, q :: e in elements && q in queries
                   && HashInBereich(e, h, |elements| * BASIC_FILTER_M) == HashInBereich(q, h, |elements| * BASIC_FILTER_M)
  }

  lemma DekodiertFilter(blob: seq<Byte>, elements: seq<Skript>, h: Digest)
    requires |elements| <= UINT32_MAX && Filterbytes(blob, elements, h)
    ensures var n := |elements|; var kopf := ReadCompactSize(blob, 0);
            && kopf.Some? && kopf.value.0 == n
            && var (werte, ganz) := Dekodiert(BASIC_FILTER_P, BytesZuBits(blob[kopf.value.1..]), n, 0);
               ganz && forall v :: v in werte <==> v in Hashes(elements, h, n * BASIC_FILTER_M)
  {
    var n := |elements|;
    var werte := Sortiert(IntKleiner, Hashes(elements, h, n * BASIC_FILTER_M));
    var fuell, bytes :| blob == WriteCompactSize(n) + bytes && Aufsteigend(werte) && (werte != [] ==> 0 <= werte[0])
                        && BytesZuBits(bytes) == Kodiert(BASIC_FILTER_P, werte, 0) + Nullen(fuell) && fuell < 8;
    SortiertElemente(IntKleiner, Hashes(elements, h, n * BASIC_FILTER_M));
    CompactSizeRundreise(n, bytes);
    assert blob[|WriteCompactSize(n)|..] == bytes;
    DekodiertKodiert(BASIC_FILTER_P, werte, 0, Nullen(fuell));
  }

  /**
   * Matching is exact on every filter of at most 2^32 - 1 scripts, duplicates included: the reader never
   * runs out of bits, no contained script is missed, and only equal hashes match.
   */
  method FilterExakt(elements: seq<Skript>, queries: seq<Skript>, h: Digest) returns (a: Antwort)
    requires |elements| <= UINT32_MAX
    ensures a == (if HashTreffer(elements, queries, h) then Ja else Nein)
    ensures (exists s :: s in elements && s in queries) ==> a == Ja
  {
    var blob := Kodiere(elements, h);
    DekodiertFilter(blob, elements, h);
    a := MatchAny(blob, h, queries);
    ghost var kopf := ReadCompactSize(blob, 0).value;
    WertTrefferGenau(queries, h, kopf.0, Dekodiert(BASIC_FILTER_P, BytesZuBits(blob[kopf.1..]), kopf.0, 0).0);
    TrefferUeberHashes(elements, queries, h);
  }

  lemma TrefferUeberHashes(elements: seq<Skript>, queries: seq<Skript>, h: Digest)
    ensures var f := |elements| * BASIC_FILTER_M;
            HashTreffer(elements, queries, h) <==> exists v :: v in Hashes(queries, h, f) && v in Hashes(elements, h, f)
    ensures (exists s :: s in elements && s in queries) ==> HashTreffer(elements, queries, h)
  {
    var f := |elements| * BASIC_FILTER_M;
    if e, q :| e in elements && q in queries && HashInBereich(e, h, f) == HashInBereich(q, h, f) {
      HashDrin(elements, h, f, e);
      HashDrin(queries, h, f, q);
    }
    if v :| v in Hashes(queries, h, f) && v in Hashes(elements, h, f) {
      var i :| 0 <= i < |queries| && Hashes(queries, h, f)[i] == v;
      var j :| 0 <= j < |elements| && Hashes(elements, h, f)[j] == v;
      assert elements[j] in elements && queries[i] in queries;
    }
    if s :| s in elements && s in queries {
      assert HashInBereich(s, h, f) == HashInBereich(s, h, f);
    }
  }

  lemma HashDrin(elements: seq<Skript>, h: Digest, bereich: nat, e: Skript)
    requires e in elements
    ensures HashInBereich(e, h, bereich) in Hashes(elements, h, bereich)
  {
    var i :| 0 <= i < |elements| && elements[i] == e;
    assert Hashes(elements, h, bereich)[i] == HashInBereich(e, h, bereich);
  }
}
