/** Loading a chunk of filters through the disk cache (core/bip158_scan.py, lines 274-305 and 426-509; core/cfilter_cache.py). */
module FilterCache {
  import opened Ordnung

  type Hash = string
  type Blob = seq<bv8>

  datatype Bereich = Bereich(von: int, bis: int) {
    predicate Hat(h: int) { von <= h <= bis }
  }

  // ------------------------------------------------------------------- ranges

  /** Ascending, not adjacent, not empty: each range is as long as it can be. */
  ghost predicate Getrennt(r: seq<Bereich>) {
    && (forall i :: 0 <= i < |r| ==> r[i].von <= r[i].bis)
    && (forall i, j :: 0 <= i < j < |r| ==> r[i].bis + 1 < r[j].von)
  }

  ghost predicate InBereichen(r: seq<Bereich>, h: int) { exists i :: 0 <= i < |r| && r[i].Hat(h) }

  /** The ranges cover exactly these heights, and no shorter list of ranges does. */
  ghost predicate Deckt(r: seq<Bereich>, hoehen: seq<int>) { Getrennt(r) && forall h :: InBereichen(r, h) <==> h in hoehen }

  lemma InLetztem(r: seq<Bereich>, b: Bereich)
    ensures forall h :: InBereichen(r + [b], h) <==> InBereichen(r, h) || b.Hat(h)
  {
    forall h ensures InBereichen(r + [b], h) <==> InBereichen(r, h) || b.Hat(h) {
      if InBereichen(r, h) { var i :| 0 <= i < |r| && r[i].Hat(h); assert (r + [b])[i].Hat(h); }
      if b.Hat(h) { assert (r + [b])[|r|].Hat(h); }
    }
  }

  lemma HatErsten(r: seq<Bereich>)
    requires Getrennt(r) && r != []
    ensures InBereichen(r, r[0].von)
  {
    assert r[0].Hat(r[0].von);
  }

  /** A last range that grows by its next height, or is followed by a new one further up, stays separated. */
  lemma Angefuegt(r: seq<Bereich>, start: int, prev: int, h: int)
    requires Getrennt(r + [Bereich(start, prev)]) && h > prev
    ensures h == prev + 1 ==> Getrennt(r + [Bereich(start, h)])
    ensures h > prev + 1 ==> Getrennt(r + [Bereich(start, prev)] + [Bereich(h, h)])
  {
    var alt := r + [Bereich(start, prev)];
    assert alt[|r|] == Bereich(start, prev);
    forall i | 0 <= i < |r| ensures r[i].von <= r[i].bis && r[i].bis + 1 < start && r[i].bis + 1 < h { assert alt[i] == r[i]; }
    forall i, j | 0 <= i < j < |r| ensures r[i].bis + 1 < r[j].von { assert alt[i] == r[i] && alt[j] == r[j]; }
  }

  /** One more height in order: the last range holds it already, grows by it, or is followed by a new one. */
  lemma DecktWeiter(r: seq<Bereich>, start: int, prev: int, hoehen: seq<int>, h: int)
    requires Deckt(r + [Bereich(start, prev)], hoehen) && start <= prev <= h
    ensures h == prev ==> Deckt(r + [Bereich(start, prev)], hoehen + [h])
    ensures h == prev + 1 ==> Deckt(r + [Bereich(start, h)], hoehen + [h])
    ensures h > prev + 1 ==> Deckt(r + [Bereich(start, prev)] + [Bereich(h, h)], hoehen + [h])
  {
    InLetztem(r, Bereich(start, prev));
    InLetztem(r, Bereich(start, h));
    InLetztem(r + [Bereich(start, prev)], Bereich(h, h));
    if h > prev { Angefuegt(r, start, prev, h); }
  }

  /** `_zusammenhaengende_bereiche` on sorted heights; a repeated height adds nothing, as in a set. */
  method ZusammenhaengendeBereiche(hoehen: seq<int>) returns (r: seq<Bereich>)
    ensures Deckt(r, hoehen)
  {
    if hoehen == [] { return []; }
    var sortiert := Sortiert(IntKleiner, hoehen);
    SortiertElemente(IntKleiner, hoehen);
    SortiertAufsteigend(hoehen);
    r := [];
    var start, prev := sortiert[0], sortiert[0];
    InLetztem([], Bereich(start, prev));
    assert sortiert[..1] == [sortiert[0]];
    for i := 1 to |sortiert|
      invariant start <= prev == sortiert[i - 1] && Deckt(r + [Bereich(start, prev)], sortiert[..i])
    {
      var h := sortiert[i];
      assert sortiert[..i + 1] == sortiert[..i] + [h];
      DecktWeiter(r, start, prev, sortiert[..i], h);
      if h == prev { continue; }
      if h == prev + 1 {
        prev := h;
      } else {
        r := r + [Bereich(start, prev)];
        start, prev := h, h;
      }
    }
    assert sortiert[..|sortiert|] == sortiert;
    r := r + [Bereich(start, prev)];
  }

  /** Two lists of separated ranges that cover the same heights are the same list. */
  lemma {:induction false} DeckungEindeutig(a: seq<Bereich>, b: seq<Bereich>)
    requires Getrennt(a) && Getrennt(b) && forall h :: InBereichen(a, h) <==> InBereichen(b, h)
    ensures a == b
    decreases |a|
  {
    if a == [] {
      if b != [] { HatErsten(b); }
    } else {
      HatErsten(a);
      ErsterGleich(a, b);
      assert a[1..] == b[1..] by {
        forall h ensures InBereichen(a[1..], h) <==> InBereichen(b[1..], h) { RestBereiche(a, h); RestBereiche(b, h); }
        DeckungEindeutig(a[1..], b[1..]);
      }
      assert a == [a[0]] + a[1..] && b == [b[0]] + b[1..];
    }
  }

  lemma RestBereiche(r: seq<Bereich>, h: int)
    requires Getrennt(r) && r != []
    ensures InBereichen(r[1..], h) <==> InBereichen(r, h) && h > r[0].bis
    ensures h <= r[0].bis + 1 && InBereichen(r, h) ==> r[0].Hat(h)
  {
    if InBereichen(r, h) {
      var i :| 0 <= i < |r| && r[i].Hat(h);
      if i > 0 { assert r[1..][i - 1].Hat(h); }
    }
    if InBereichen(r[1..], h) {
      var i :| 0 <= i < |r[1..]| && r[1..][i].Hat(h);
      assert r[i + 1].Hat(h);
    }
  }

  lemma ErsterGleich(a: seq<Bereich>, b: seq<Bereich>)
    requires Getrennt(a) && Getrennt(b) && a != [] && b != [] && forall h :: InBereichen(a, h) <==> InBereichen(b, h)
    ensures a[0] == b[0]
  {
    forall h ensures a[0].Hat(h) ==> InBereichen(a, h) { if a[0].Hat(h) { assert InBereichen(a, h); } }
    forall h ensures b[0].Hat(h) ==> InBereichen(b, h) { if b[0].Hat(h) { assert InBereichen(b, h); } }
    ErsterMindestens(a, b);
    ErsterMindestens(b, a);
  }

  lemma ErsterMindestens(a: seq<Bereich>, b: seq<Bereich>)
    requires Getrennt(a) && Getrennt(b) && a != [] && b != [] && forall h :: InBereichen(a, h) <==> InBereichen(b, h)
    ensures a[0].von <= b[0].von
    ensures a[0].von == b[0].von ==> a[0].bis >= b[0].bis
  {
    assert b[0].Hat(b[0].von) && InBereichen(b, b[0].von);
    var i :| 0 <= i < |a| && a[i].Hat(b[0].von);
    if a[0].von == b[0].von && a[0].bis < b[0].bis {
      assert b[0].Hat(a[0].bis + 1) && InBereichen(b, a[0].bis + 1);
      RestBereiche(a, a[0].bis + 1);
    }
  }

  // ------------------------------------------------------------------- chunks

  datatype Chunk = Chunk(von: int, bis: int, stop: Hash)

  /** Chunks from a height up to a height follow each other without gap or overlap, all but the last of full length. */
  ghost predicate Aneinander(chunks: seq<Chunk>, von: int, bis: int, schritt: int, hashAt: int -> Hash) {
    && chunks != [] && chunks[0].von == von && chunks[|chunks| - 1].bis == bis
    && (forall i :: 0 <= i < |chunks| ==> chunks[i].von <= chunks[i].bis < chunks[i].von + schritt && chunks[i].stop == hashAt(chunks[i].bis))
    && (forall i :: 0 <= i < |chunks| - 1 ==> chunks[i].bis == chunks[i].von + schritt - 1 && chunks[i].bis + 1 == chunks[i + 1].von)
  }

  ghost predicate Voll(c: Chunk, schritt: int) { c.bis == c.von + schritt - 1 }

  lemma NochEiner(chunks: seq<Chunk>, von: int, bis: int, c: Chunk, schritt: int, hashAt: int -> Hash)
    requires Aneinander(chunks, von, bis, schritt, hashAt) && Voll(chunks[|chunks| - 1], schritt)
    requires c.von == bis + 1 && c.von <= c.bis < c.von + schritt && c.stop == hashAt(c.bis)
    ensures Aneinander(chunks + [c], von, c.bis, schritt, hashAt)
  {}

  /** `_cfilter_chunks` */
  method CfilterChunks(von: int, bis: int, hashAt: int -> Hash, schritt: int) returns (chunks: seq<Chunk>)
    requires schritt > 0
    ensures bis < von ==> chunks == []
    ensures von <= bis ==> Aneinander(chunks, von, bis, schritt, hashAt)
  {
    chunks := [];
    var hoehe := von;
    while hoehe <= bis
      invariant if chunks == [] then hoehe == von else Aneinander(chunks, von, hoehe - 1, schritt, hashAt) && hoehe <= bis + 1
      invariant chunks != [] ==> von <= bis
      invariant chunks != [] && hoehe <= bis ==> Voll(chunks[|chunks| - 1], schritt)
      decreases bis - hoehe
    {
      var ende := if hoehe + schritt - 1 <= bis then hoehe + schritt - 1 else bis;
      var c := Chunk(hoehe, ende, hashAt(ende));
      if chunks != [] { NochEiner(chunks, von, hoehe - 1, c, schritt, hashAt); }
      chunks := chunks + [c];
      hoehe := ende + 1;
    }
  }

  // ------------------------------------------------------------------ loading

  datatype Zeile = Zeile(hash: Hash, blob: Blob)

  type Kette = int -> Zeile

  function Zeilen(wahr: Kette, von: int, bis: int): (r: seq<Zeile>)
    ensures |r| == (if von <= bis then bis - von + 1 else 0) && forall i :: 0 <= i < |r| ==> r[i] == wahr(von + i)
  {
    seq(if von <= bis then bis - von + 1 else 0, i requires 0 <= i => wahr(von + i))
  }

  /** What is stored under the hash of a block is its filter. */
  ghost predicate EhrlichePlatte(blobs: map<(int, Hash), Blob>, wahr: Kette) {
    forall h :: (h, wahr(h).hash) in blobs ==> blobs[(h, wahr(h).hash)] == wahr(h).blob
  }

  /** The header chain may not know a height, but knows none wrongly. */
  ghost predicate EhrlicheHeader(hashAt: int -> Option<Hash>, wahr: Kette) {
    forall h :: hashAt(h).Some? ==> hashAt(h).value == wahr(h).hash
  }

  /** A peer may answer with the wrong number of filters or none; a complete answer is right. */
  ghost predicate EhrlicherPeer(peer: (int, Hash) -> seq<Zeile>, wahr: Kette) {
    forall a, b :: a <= b && |peer(a, wahr(b).hash)| == b - a + 1 ==> peer(a, wahr(b).hash) == Zeilen(wahr, a, b)
  }

  /** The disk under `immutable_cache/cfilter`, if there is one. */
  class Platte {
    const an: bool
    var blobs: map<(int, Hash), Blob>

    constructor (an: bool)
      ensures this.an == an && blobs == map[]
    {
      this.an, blobs := an, map[];
    }

    predicate Da(hashAt: int -> Option<Hash>, h: int)
      reads this
    {
      an && hashAt(h).Some? && (h, hashAt(h).value) in blobs && blobs[(h, hashAt(h).value)] != []
    }

    /** `speichere_cfilter_blob`: nothing is stored for an empty filter. */
    method Speichere(h: int, z: Zeile)
      modifies this
      ensures blobs == if an && z.blob != [] then old(blobs)[(h, z.hash) := z.blob] else old(blobs)
    {
      if an && z.blob != [] { blobs := blobs[(h, z.hash) := z.blob]; }
    }

    /** The cached rows of a chunk and the heights that have to be fetched. */
    method Sichten(von: int, bis: int, hashAt: int -> Option<Hash>, ghost wahr: Kette) returns (cached: map<int, Zeile>, fehlend: seq<int>)
      requires EhrlichePlatte(blobs, wahr) && EhrlicheHeader(hashAt, wahr)
      ensures forall h :: h in cached <==> von <= h <= bis && Da(hashAt, h)
      ensures forall h :: h in cached ==> cached[h] == wahr(h)
      ensures forall h :: h in fehlend <==> von <= h <= bis && !Da(hashAt, h)
    {
      cached, fehlend := map[], [];
      var h := von;
      while h <= bis
        invariant von <= h && (h <= bis + 1 || h == von)
        invariant forall x :: x in cached <==> von <= x < h && Da(hashAt, x)
        invariant forall x :: x in cached ==> cached[x] == wahr(x)
        invariant forall x :: x in fehlend <==> von <= x < h && !Da(hashAt, x)
        decreases bis - h
      {
        if Da(hashAt, h) {
          cached := cached[h := Zeile(hashAt(h).value, blobs[(h, hashAt(h).value)])];
        } else {
          fehlend := fehlend + [h];
        }
        h := h + 1;
      }
    }

    /** One requested range: rows are taken over and stored unless the cache had them. */
    method Uebernehmen(a: int, netz: seq<Zeile>, vorher: map<int, Zeile>, ghost wahr: Kette) returns (byH: map<int, Zeile>)
      requires EhrlichePlatte(blobs, wahr) && netz == Zeilen(wahr, a, a + |netz| - 1)
      requires forall h :: h in vorher ==> vorher[h] == wahr(h)
      modifies this
      ensures EhrlichePlatte(blobs, wahr) && forall k :: k in old(blobs) ==> k in blobs
      ensures forall h :: h in byH <==> h in vorher || a <= h < a + |netz|
      ensures forall h :: h in byH ==> byH[h] == wahr(h)
      ensures an ==> forall h :: h in byH && h !in vorher && wahr(h).blob != [] ==> (h, wahr(h).hash) in blobs
    {
      byH := vorher;
      for offset := 0 to |netz|
        invariant EhrlichePlatte(blobs, wahr) && forall k :: k in old(blobs) ==> k in blobs
        invariant forall h :: h in byH <==> h in vorher || a <= h < a + offset
        invariant forall h :: h in byH ==> byH[h] == wahr(h)
        invariant an ==> forall h :: h in byH && h !in vorher && wahr(h).blob != [] ==> (h, wahr(h).hash) in blobs
      {
        var h := a + offset;
        if h in byH { continue; }
        Speichere(h, netz[offset]);
        byH := byH[h := netz[offset]];
      }
    }
  }

  function HashBei(hashes: Option<int -> Option<Hash>>): int -> Option<Hash> {
    match hashes case None => (h => None) case Some(f) => f
  }

  /** The filter of a height lies on disk under the hash its header names. */
  predicate Gespeichert(blobs: map<(int, Hash), Blob>, an: bool, hashes: Option<int -> Option<Hash>>, h: int) {
    an && hashes.Some? && hashes.value(h).Some? && (h, hashes.value(h).value) in blobs && blobs[(h, hashes.value(h).value)] != []
  }

  /** The stop hash of a requested range. */
  function StopHash(hashes: Option<int -> Option<Hash>>, b: Bereich, ganz: Bereich, stop: Hash): Option<Hash> {
    if hashes.None? then Some(stop)
    else match hashes.value(b.bis) case Some(h) => Some(h) case None => if b == ganz then Some(stop) else None
  }

  /** Nothing stands in the way of a load: every header is known and the peer answers every range in full. */
  ghost predicate Zuverlaessig(hashes: Option<int -> Option<Hash>>, peer: (int, Hash) -> seq<Zeile>, wahr: Kette, von: int, bis: int) {
    && (hashes.Some? ==> forall h :: von <= h <= bis ==> hashes.value(h).Some?)
    && forall a, b :: von <= a <= b <= bis ==> |peer(a, wahr(b).hash)| == b - a + 1
  }

  /** The ranges to request: the missing heights, or the whole chunk when no header is known. */
  method Anfragen(hashes: Option<int -> Option<Hash>>, fehlend: seq<int>, ganz: Bereich) returns (r: seq<Bereich>)
    requires ganz.von <= ganz.bis && (forall h :: h in fehlend ==> ganz.Hat(h)) && (hashes.None? ==> forall h :: ganz.Hat(h) ==> h in fehlend)
    ensures Deckt(r, fehlend) && forall b :: b in r ==> ganz.von <= b.von <= b.bis <= ganz.bis
    ensures hashes.None? ==> r == [ganz]
  {
    r := ZusammenhaengendeBereiche(fehlend);
    forall b | b in r ensures ganz.von <= b.von <= b.bis <= ganz.bis {
      var i :| 0 <= i < |r| && r[i] == b;
      assert r[i].Hat(b.von) && r[i].Hat(b.bis) && InBereichen(r, b.von) && InBereichen(r, b.bis);
    }
    if hashes.None? {
      InLetztem([], ganz);
      assert [] + [ganz] == [ganz];
      DeckungEindeutig(r, [ganz]);
      r := [ganz];
    }
  }

  /** The fetched rows so far: those of the cache and of the ranges answered. */
  ghost predicate Geholt(byH: map<int, Zeile>, cached: map<int, Zeile>, r: seq<Bereich>, wahr: Kette) {
    (forall h :: h in byH <==> h in cached || InBereichen(r, h)) && forall h :: h in byH ==> byH[h] == wahr(h)
  }

  /** The disk is honest and has lost nothing. */
  twostate predicate Gewachsen(platte: Platte, wahr: Kette)
    reads platte
  {
    EhrlichePlatte(platte.blobs, wahr) && forall k :: k in old(platte.blobs) ==> k in platte.blobs
  }

  /** Fetches one range. */
  method HoleBereich(platte: Platte, b: Bereich, ganz: Bereich, stop: Hash, hashes: Option<int -> Option<Hash>>,
                     peer: (int, Hash) -> seq<Zeile>, vorher: map<int, Zeile>, ghost wahr: Kette) returns (byH: Option<map<int, Zeile>>)
    requires EhrlichePlatte(platte.blobs, wahr) && EhrlicheHeader(HashBei(hashes), wahr) && EhrlicherPeer(peer, wahr)
    requires ganz.von <= b.von <= b.bis <= ganz.bis && stop == wahr(ganz.bis).hash && (hashes.None? ==> b == ganz)
    requires forall h :: h in vorher ==> vorher[h] == wahr(h)
    modifies platte
    ensures Gewachsen(platte, wahr)
    ensures byH.Some? ==> (forall h :: h in byH.value <==> h in vorher || b.Hat(h)) && forall h :: h in byH.value ==> byH.value[h] == wahr(h)
    ensures byH.Some? && platte.an ==>
              forall h :: h in byH.value && h !in vorher && wahr(h).blob != [] ==> (h, wahr(h).hash) in platte.blobs
    ensures Zuverlaessig(hashes, peer, wahr, ganz.von, ganz.bis) ==> byH.Some?
  {
    var stop' := StopHash(hashes, b, ganz, stop);
    if stop'.None? { return None; }
    assert stop'.value == wahr(b.bis).hash;
    var netz := peer(b.von, stop'.value);
    if |netz| != b.bis - b.von + 1 { return None; }
    assert netz == Zeilen(wahr, b.von, b.bis);
    var m := platte.Uebernehmen(b.von, netz, vorher, wahr);
    byH := Some(m);
  }

  /** Every fetched height with a filter is on disk now. */
  ghost predicate Abgelegt(blobs: map<(int, Hash), Blob>, byH: map<int, Zeile>, cached: map<int, Zeile>, wahr: Kette) {
    forall h :: h in byH && h !in cached && wahr(h).blob != [] ==> (h, wahr(h).hash) in blobs
  }

  lemma GeholtWeiter(m: map<int, Zeile>, m': map<int, Zeile>, cached: map<int, Zeile>, r: seq<Bereich>, b: Bereich, wahr: Kette)
    requires Geholt(m, cached, r, wahr)
    requires (forall h :: h in m' <==> h in m || b.Hat(h)) && forall h :: h in m' ==> m'[h] == wahr(h)
    ensures Geholt(m', cached, r + [b], wahr)
  {
    InLetztem(r, b);
  }

  /** Fetches all ranges, one after the other; gives up at the first that is not answered in full. */
  method Holen(platte: Platte, ganz: Bereich, stop: Hash, hashes: Option<int -> Option<Hash>>, bereiche: seq<Bereich>,
               peer: (int, Hash) -> seq<Zeile>, cached: map<int, Zeile>, ghost wahr: Kette) returns (byH: Option<map<int, Zeile>>)
    requires EhrlichePlatte(platte.blobs, wahr) && EhrlicheHeader(HashBei(hashes), wahr) && EhrlicherPeer(peer, wahr)
    requires forall b :: b in bereiche ==> ganz.von <= b.von <= b.bis <= ganz.bis
    requires stop == wahr(ganz.bis).hash && (hashes.None? ==> bereiche == [ganz])
    requires forall h :: h in cached ==> cached[h] == wahr(h)
    modifies platte
    ensures Gewachsen(platte, wahr)
    ensures byH.Some? ==> Geholt(byH.value, cached, bereiche, wahr) && (platte.an ==> Abgelegt(platte.blobs, byH.value, cached, wahr))
    ensures Zuverlaessig(hashes, peer, wahr, ganz.von, ganz.bis) ==> byH.Some?
  {
    var m := cached;
    for i := 0 to |bereiche|
      invariant Gewachsen(platte, wahr) && Geholt(m, cached, bereiche[..i], wahr)
      invariant platte.an ==> Abgelegt(platte.blobs, m, cached, wahr)
    {
      assert bereiche[i] in bereiche && bereiche[..i + 1] == bereiche[..i] + [bereiche[i]];
      var neu := HoleBereich(platte, bereiche[i], ganz, stop, hashes, peer, m, wahr);
      if neu.None? { return None; }
      GeholtWeiter(m, neu.value, cached, bereiche[..i], bereiche[i], wahr);
      m := neu.value;
    }
    assert bereiche[..|bereiche|] == bereiche;
    byH := Some(m);
  }

  /** The rows of all heights, in order. */
  method Auflisten(byH: map<int, Zeile>, von: int, bis: int, ghost wahr: Kette) returns (liste: seq<Zeile>)
    requires von <= bis && forall h :: von <= h <= bis ==> h in byH && byH[h] == wahr(h)
    ensures liste == Zeilen(wahr, von, bis)
  {
    liste := [];
    for h := von to bis + 1
      invariant liste == Zeilen(wahr, von, h - 1)
    {
      liste := liste + [byH[h]];
    }
  }

  /**
   * `_lade_cfilter_chunk`, up to the filters: whatever the disk holds and the headers know, a load that
   * succeeds returns one row per height in order, the same as without a cache. It asks for exactly the
   * missing heights, in as few ranges as there can be, and leaves on disk what it fetched.
   */
  method LadeCfilterChunk(platte: Platte, von: int, bis: int, stop: Hash, hashes: Option<int -> Option<Hash>>,
                          peer: (int, Hash) -> seq<Zeile>, ghost wahr: Kette) returns (r: Option<seq<Zeile>>, anfragen: seq<Bereich>)
    requires EhrlichePlatte(platte.blobs, wahr) && EhrlicheHeader(HashBei(hashes), wahr) && EhrlicherPeer(peer, wahr)
    requires von <= bis && stop == wahr(bis).hash
    modifies platte
    ensures r.Some? ==> r.value == Zeilen(wahr, von, bis)
    ensures Getrennt(anfragen) && forall h :: InBereichen(anfragen, h) <==> von <= h <= bis && !Gespeichert(old(platte.blobs), platte.an, hashes, h)
    ensures Zuverlaessig(hashes, peer, wahr, von, bis) ==> r.Some?
    ensures Gewachsen(platte, wahr)
    ensures r.Some? && platte.an && hashes.Some? ==>
              forall h :: von <= h <= bis && hashes.value(h).Some? && wahr(h).blob != [] ==> Gespeichert(platte.blobs, true, hashes, h)
  {
    var hashAt := HashBei(hashes);
    var cached, fehlend := platte.Sichten(von, bis, hashAt, wahr);
    anfragen := Anfragen(hashes, fehlend, Bereich(von, bis));
    var byH := Holen(platte, Bereich(von, bis), stop, hashes, anfragen, peer, cached, wahr);
    if byH.None? { return None, anfragen; }
    var liste := Auflisten(byH.value, von, bis, wahr);
    r := Some(liste);
  }
}
