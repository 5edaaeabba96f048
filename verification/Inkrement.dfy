/** Continuing from a cached scan (core/bip158_wallet.py, lines 806-900). */
module Inkrement {
  import opened Ordnung
  import opened Kassenbuch
  import opened Wiedergabe
  import opened Suchlauf

  const BIP158_REORG_BUFFER := 6
  const SEGWIT_HEIGHT := 481_824

  /** `scan_start_fuer_xpub`: a finished scan's tip goes before the first-seen height, that before the configured one. */
  function ScanStart(konfiguriert: int, fertigerTip: int, firstSeen: Option<int>): (start: int)
    ensures start > 0
  {
    var vorgabe :=
      if fertigerTip > 0 then
        var tipStart := if fertigerTip - BIP158_REORG_BUFFER + 1 > 0 then fertigerTip - BIP158_REORG_BUFFER + 1 else 0;
        if konfiguriert > 0 && konfiguriert > tipStart then konfiguriert else tipStart
      else if firstSeen.Some? then firstSeen.value
      else konfiguriert;
    if vorgabe <= 0 then SEGWIT_HEIGHT else vorgabe
  }

  /**
   * After a finished scan the next one leaves no height out exactly when the configured start is not above
   * the old tip's successor; it then reads at most the last six heights again.
   */
  lemma ScanStartAnschluss(konfiguriert: int, tip: int, firstSeen: Option<int>)
    requires tip > 0
    ensures var start := ScanStart(konfiguriert, tip, firstSeen);
            && (start <= tip + 1 <==> konfiguriert <= tip + 1 && (konfiguriert > 0 || tip >= BIP158_REORG_BUFFER))
            && (start <= tip + 1 ==> tip + 1 - start <= BIP158_REORG_BUFFER)
  {}

  /**
   * After a finished scan the last six heights are read again and nothing below them. A later configured start
   * is taken as it is, and before height 6 the scan falls back to the height of SegWit.
   */
  lemma ScanStartPuffer(konfiguriert: int, tip: int, firstSeen: Option<int>, h: int)
    requires tip > 0
    ensures var start := ScanStart(konfiguriert, tip, firstSeen);
            && (tip >= 6 && konfiguriert <= tip - 5 ==> (start <= h <= tip <==> tip - 6 < h <= tip))
            && (konfiguriert > 0 && konfiguriert > tip - 5 ==> start == konfiguriert)
            && (tip < 6 && konfiguriert <= 0 ==> start == 481_824)
  {}

  /** Without a finished scan the first-seen height decides, whatever is configured, and SegWit if no height is known. */
  lemma ScanStartOhneTip(konfiguriert: int, tip: int, firstSeen: Option<int>)
    requires tip <= 0
    ensures var start := ScanStart(konfiguriert, tip, firstSeen);
            start == if firstSeen.Some? && firstSeen.value > 0 then firstSeen.value
                     else if firstSeen.None? && konfiguriert > 0 then konfiguriert
                     else 481_824
  {}

  /** The cached stock below a height and the whole cached history. */
  function Seed(cache: Stand, ab: nat): Stand {
    Stand(map op | op in cache.bestand && cache.bestand[op].hoehe < ab :: cache.bestand[op], cache.verlauf)
  }

  /** `_seed_aus_cache` */
  method SeedAusCache(cache: Stand, ab: nat) returns (seed: Stand)
    ensures seed == Seed(cache, ab)
  {
    var bestand: map<Outpoint, Ausgang>, offen := map[], cache.bestand.Keys;
    while offen != {}
      invariant offen <= cache.bestand.Keys
      invariant forall op :: op in bestand <==> op in cache.bestand && op !in offen && cache.bestand[op].hoehe < ab
      invariant forall op :: op in bestand ==> bestand[op] == cache.bestand[op]
      decreases |offen|
    {
      var op :| op in offen;
      offen := offen - {op};
      if cache.bestand[op].hoehe < ab { bestand := bestand[op := cache.bestand[op]]; }
    }
    seed := Stand(bestand, cache.verlauf);
  }

  // ----------------------------------------------------------- the incremental scan

  /** A wallet scanned from a up to the end of a chain. */
  ghost predicate Ganz(st: Stand, k: Kette, a: nat, watched: set<Skript>) {
    BereichSpielbar(k, a, |k| - 1) && st == Gespielt(LEER, k, Bereich(a, |k| - 1), watched)
  }

  /** The cached state, cut at s and replayed from s on the chain of today. */
  ghost predicate Inkrementell(st: Stand, cache: Stand, k: Kette, s: nat, watched: set<Skript>) {
    BereichSpielbar(k, s, |k| - 1) && st == Gespielt(Seed(cache, s), k, Bereich(s, |k| - 1), watched)
  }

  function Hoehe(von: int, bis: int): set<int> { Menge(Bereich(von, bis)) }

  /** The chains agree below s: no reorganisation reached below the start. */
  ghost predicate Gemeinsam(alt: Kette, neu: Kette, s: nat) { s <= |alt| && s <= |neu| && alt[..s] == neu[..s] }

  /**
   * An output is lost when it was received below s, spent from s on in the chain scanned before,
   * and is not spent from s on in the chain of today.
   */
  ghost predicate Verloren(alt: Kette, neu: Kette, a: nat, s: nat, op: Outpoint, watched: set<Skript>) {
    && Erzeugt(alt, Hoehe(a, s - 1), op, watched)
    && Ausgegeben(alt, Hoehe(s, |alt| - 1), op) && !Ausgegeben(neu, Hoehe(s, |neu| - 1), op)
  }

  /** Creation and spending, below s and from s on. */
  lemma Geteilt(k: Kette, a: nat, s: nat, bis: int, op: Outpoint, watched: set<Skript>)
    requires Ordentlich(k, watched) && a <= s <= bis + 1
    ensures Erzeugt(k, Hoehe(a, bis), op, watched) <==> Erzeugt(k, Hoehe(a, s - 1), op, watched) || Erzeugt(k, Hoehe(s, bis), op, watched)
    ensures Ausgegeben(k, Hoehe(a, bis), op) <==> Ausgegeben(k, Hoehe(a, s - 1), op) || Ausgegeben(k, Hoehe(s, bis), op)
    ensures !(Erzeugt(k, Hoehe(s, bis), op, watched) && Ausgegeben(k, Hoehe(a, s - 1), op))
    ensures !(Ausgegeben(k, Hoehe(s, bis), op) && Ausgegeben(k, Hoehe(a, s - 1), op))
  {
    BereichMenge(a, bis);
    BereichMenge(a, s - 1);
    BereichMenge(s, bis);
    if Erzeugt(k, Hoehe(a, bis), op, watched) {
      var h := ErzeugtBei(k, Hoehe(a, bis), op, watched);
      assert h in Hoehe(a, s - 1) || h in Hoehe(s, bis);
    }
    if Ausgegeben(k, Hoehe(a, bis), op) {
      var h := AusgegebenBei(k, Hoehe(a, bis), op);
      assert h in Hoehe(a, s - 1) || h in Hoehe(s, bis);
    }
  }

  /** Below s the chains create and spend the same. */
  lemma UnterGemeinsam(alt: Kette, neu: Kette, a: nat, s: nat, op: Outpoint, watched: set<Skript>)
    requires Gemeinsam(alt, neu, s)
    ensures Erzeugt(alt, Hoehe(a, s - 1), op, watched) <==> Erzeugt(neu, Hoehe(a, s - 1), op, watched)
    ensures Ausgegeben(alt, Hoehe(a, s - 1), op) <==> Ausgegeben(neu, Hoehe(a, s - 1), op)
  {
    BereichMenge(a, s - 1);
    forall h | h in Hoehe(a, s - 1) ensures 0 <= h < s && alt[h] == neu[h] {
      assert alt[..s][h] == neu[..s][h];
    }
  }

  lemma HoeheVermerkt(k: Kette, h: nat, op: Outpoint, watched: set<Skript>)
    requires h < |k| && op in N(k, h, watched)
    ensures N(k, h, watched)[op].hoehe == h
  {
    var i := NeuHerkunft(k[h].txs, h, watched, op);
  }

  lemma BestandErzeugt(st: Stand, k: Kette, hs: set<int>, op: Outpoint, watched: set<Skript>)
    requires BestandAn(st, LEER, k, hs, op, watched) && op in st.bestand
    ensures var h := st.bestand[op].hoehe; h < |k| && h in hs && op in N(k, h, watched) && st.bestand[op] == N(k, h, watched)[op]
  {
    HoeheVermerkt(k, ErzeugtBei(k, hs, op, watched), op, watched);
  }

  /** What the seed keeps of an output: it was received below s and not spent on the chain scanned before. */
  lemma SeedAn(alt: Kette, a: nat, s: nat, cache: Stand, op: Outpoint, watched: set<Skript>)
    requires Ordentlich(alt, watched) && a <= s <= |alt| && BestandAn(cache, LEER, alt, Hoehe(a, |alt| - 1), op, watched)
    ensures op in Seed(cache, s).bestand <==> Erzeugt(alt, Hoehe(a, s - 1), op, watched) && !Ausgegeben(alt, Hoehe(a, |alt| - 1), op)
    ensures op in Seed(cache, s).bestand ==> Seed(cache, s).bestand[op] == N(alt, ErzeugtBei(alt, Hoehe(a, s - 1), op, watched), watched)[op]
  {
    Geteilt(alt, a, s, |alt| - 1, op, watched);
    BereichMenge(a, s - 1);
    BereichMenge(a, |alt| - 1);
    if op in cache.bestand { BestandErzeugt(cache, alt, Hoehe(a, |alt| - 1), op, watched); }
  }

  /** The three states a continued scan is about, seen at one output. */
  ghost predicate DreiAn(alt: Kette, neu: Kette, a: nat, s: nat, cache: Stand, inkr: Stand, voll: Stand, op: Outpoint, watched: set<Skript>) {
    && BestandAn(cache, LEER, alt, Hoehe(a, |alt| - 1), op, watched)
    && BestandAn(inkr, Seed(cache, s), neu, Hoehe(s, |neu| - 1), op, watched)
    && BestandAn(voll, LEER, neu, Hoehe(a, |neu| - 1), op, watched)
  }

  lemma BestandInkrement(alt: Kette, neu: Kette, a: nat, s: nat, cache: Stand, inkr: Stand, voll: Stand, op: Outpoint, watched: set<Skript>)
    requires Ordentlich(alt, watched) && Ordentlich(neu, watched) && a <= s && Gemeinsam(alt, neu, s)
    requires DreiAn(alt, neu, a, s, cache, inkr, voll, op, watched)
    ensures op in inkr.bestand ==> op in voll.bestand
    ensures op in voll.bestand ==> (op !in inkr.bestand <==> Verloren(alt, neu, a, s, op, watched))
    ensures Verloren(alt, neu, a, s, op, watched) ==> op in voll.bestand
  {
    hide Ausgegeben;
    SeedAn(alt, a, s, cache, op, watched);
    Geteilt(alt, a, s, |alt| - 1, op, watched);
    Geteilt(neu, a, s, |neu| - 1, op, watched);
    UnterGemeinsam(alt, neu, a, s, op, watched);
  }

  lemma WertInkrement(alt: Kette, neu: Kette, a: nat, s: nat, cache: Stand, inkr: Stand, voll: Stand, op: Outpoint, watched: set<Skript>)
    requires Ordentlich(alt, watched) && Ordentlich(neu, watched) && a <= s && Gemeinsam(alt, neu, s)
    requires DreiAn(alt, neu, a, s, cache, inkr, voll, op, watched) && op in inkr.bestand && op in voll.bestand
    ensures inkr.bestand[op] == voll.bestand[op]
  {
    BestandErzeugt(voll, neu, Hoehe(a, |neu| - 1), op, watched);
    if !Erzeugt(neu, Hoehe(s, |neu| - 1), op, watched) { SeedWert(alt, neu, a, s, cache, op, watched); }
  }

  /** A seeded output is in the block of the new chain as well. */
  lemma SeedWert(alt: Kette, neu: Kette, a: nat, s: nat, cache: Stand, op: Outpoint, watched: set<Skript>)
    requires Ordentlich(alt, watched) && a <= s && Gemeinsam(alt, neu, s) && BestandAn(cache, LEER, alt, Hoehe(a, |alt| - 1), op, watched)
    requires op in Seed(cache, s).bestand
    ensures exists h: nat :: h < |neu| && op in N(neu, h, watched) && N(neu, h, watched)[op] == Seed(cache, s).bestand[op]
  {
    SeedAn(alt, a, s, cache, op, watched);
    var h := ErzeugtBei(alt, Hoehe(a, s - 1), op, watched);
    BereichMenge(a, s - 1);
    assert alt[..s][h] == neu[..s][h];
    assert op in N(neu, h, watched) && N(neu, h, watched)[op] == Seed(cache, s).bestand[op];
  }

  lemma DreiStaende(alt: Kette, neu: Kette, a: nat, s: nat, cache: Stand, inkr: Stand, voll: Stand, watched: set<Skript>)
    requires Gueltig(alt) && Gueltig(neu) && a <= s && Gemeinsam(alt, neu, s)
    requires Ganz(cache, alt, a, watched) && Inkrementell(inkr, cache, neu, s, watched) && Ganz(voll, neu, a, watched)
    ensures StandVon(cache, LEER, alt, Hoehe(a, |alt| - 1), watched)
    ensures StandVon(inkr, Seed(cache, s), neu, Hoehe(s, |neu| - 1), watched)
    ensures StandVon(voll, LEER, neu, Hoehe(a, |neu| - 1), watched)
    ensures Ordentlich(alt, watched) && Ordentlich(neu, watched)
  {
    GueltigOrdentlich(alt, watched);
    GueltigOrdentlich(neu, watched);
    BereichGenau(alt, a, |alt| - 1);
    BereichGenau(neu, a, |neu| - 1);
    BereichGenau(neu, s, |neu| - 1);
    GespieltGenau(LEER, alt, Bereich(a, |alt| - 1), watched);
    GespieltGenau(Seed(cache, s), neu, Bereich(s, |neu| - 1), watched);
    GespieltGenau(LEER, neu, Bereich(a, |neu| - 1), watched);
  }

  /**
   * A continued scan finds the stock of a full one exactly when no output is lost. No other difference is
   * possible: nothing extra appears, and what is missing was received below the start and spent, above it,
   * only in blocks that a reorganisation replaced.
   */
  lemma InkrementGenau(alt: Kette, neu: Kette, a: nat, s: nat, cache: Stand, inkr: Stand, voll: Stand, watched: set<Skript>)
    requires Gueltig(alt) && Gueltig(neu) && a <= s && Gemeinsam(alt, neu, s)
    requires Ganz(cache, alt, a, watched) && Inkrementell(inkr, cache, neu, s, watched) && Ganz(voll, neu, a, watched)
    ensures inkr.bestand == voll.bestand <==> forall op :: !Verloren(alt, neu, a, s, op, watched)
    ensures forall op :: Verloren(alt, neu, a, s, op, watched) ==> op in voll.bestand && op !in inkr.bestand
  {
    DreiStaende(alt, neu, a, s, cache, inkr, voll, watched);
    forall op
      ensures GleichBei(inkr.bestand, voll.bestand, op) <==> !Verloren(alt, neu, a, s, op, watched)
      ensures Verloren(alt, neu, a, s, op, watched) ==> op in voll.bestand && op !in inkr.bestand
    {
      InkrementAn(alt, neu, a, s, cache, inkr, voll, op, watched);
    }
    if forall op :: !Verloren(alt, neu, a, s, op, watched) { Ueberall(inkr.bestand, voll.bestand); }
  }

  lemma InkrementAn(alt: Kette, neu: Kette, a: nat, s: nat, cache: Stand, inkr: Stand, voll: Stand, op: Outpoint, watched: set<Skript>)
    requires Ordentlich(alt, watched) && Ordentlich(neu, watched) && a <= s && Gemeinsam(alt, neu, s)
    requires StandVon(cache, LEER, alt, Hoehe(a, |alt| - 1), watched)
    requires StandVon(inkr, Seed(cache, s), neu, Hoehe(s, |neu| - 1), watched)
    requires StandVon(voll, LEER, neu, Hoehe(a, |neu| - 1), watched)
    ensures GleichBei(inkr.bestand, voll.bestand, op) <==> !Verloren(alt, neu, a, s, op, watched)
    ensures Verloren(alt, neu, a, s, op, watched) ==> op in voll.bestand && op !in inkr.bestand
  {
    assert DreiAn(alt, neu, a, s, cache, inkr, voll, op, watched) by {
      StandAn(cache, LEER, alt, Hoehe(a, |alt| - 1), op, watched);
      StandAn(inkr, Seed(cache, s), neu, Hoehe(s, |neu| - 1), op, watched);
      StandAn(voll, LEER, neu, Hoehe(a, |neu| - 1), op, watched);
    }
    BestandInkrement(alt, neu, a, s, cache, inkr, voll, op, watched);
    if op in inkr.bestand && op in voll.bestand { WertInkrement(alt, neu, a, s, cache, inkr, voll, op, watched); }
  }

  // ------------------------------------------------------------ reorganisations

  /** No cached entry received below s is marked spent at s or above. */
  ghost predicate Randfrei(cache: Stand, s: nat) {
    forall op :: op in cache.verlauf && cache.verlauf[op].ausgang.hoehe < s && cache.verlauf[op].spent.Some? ==> cache.verlauf[op].spent.value.hoehe < s
  }

  /** A cached entry names the heights of its receipt and of its spend. */
  lemma EintragHoehen(k: Kette, hs: set<int>, cache: Stand, op: Outpoint, watched: set<Skript>)
    requires VerlaufAn(cache, LEER, k, hs, op, watched)
    ensures op in cache.verlauf <==> Erzeugt(k, hs, op, watched)
    ensures op in cache.verlauf ==> cache.verlauf[op].ausgang.hoehe == ErzeugtBei(k, hs, op, watched)
    ensures op in cache.verlauf ==> (cache.verlauf[op].spent.Some? <==> Ausgegeben(k, hs, op))
    ensures op in cache.verlauf && Ausgegeben(k, hs, op) ==> cache.verlauf[op].spent.value.hoehe == AusgegebenBei(k, hs, op)
  {
    if op in cache.verlauf { HoeheVermerkt(k, ErzeugtBei(k, hs, op, watched), op, watched); }
  }

  ghost predicate Ueberquert(alt: Kette, a: nat, s: nat, op: Outpoint, watched: set<Skript>) {
    Erzeugt(alt, Hoehe(a, s - 1), op, watched) && Ausgegeben(alt, Hoehe(s, |alt| - 1), op)
  }

  lemma UeberquertVermerkt(alt: Kette, a: nat, s: nat, cache: Stand, op: Outpoint, watched: set<Skript>)
    requires Ordentlich(alt, watched) && a <= s <= |alt| && VerlaufAn(cache, LEER, alt, Hoehe(a, |alt| - 1), op, watched)
    ensures Ueberquert(alt, a, s, op, watched) <==>
            op in cache.verlauf && cache.verlauf[op].ausgang.hoehe < s && cache.verlauf[op].spent.Some? && cache.verlauf[op].spent.value.hoehe >= s
  {
    var hs := Hoehe(a, |alt| - 1);
    Geteilt(alt, a, s, |alt| - 1, op, watched);
    EintragHoehen(alt, hs, cache, op, watched);
    BereichMenge(a, s - 1);
    BereichMenge(s, |alt| - 1);
    BereichMenge(a, |alt| - 1);
  }

  /** The chain cut at s, one empty block on top. */
  function Abgeschnitten(alt: Kette, s: nat): Kette
    requires s <= |alt|
  {
    alt[..s] + [Block(0, [])]
  }

  lemma AbgeschnittenGueltig(alt: Kette, s: nat)
    requires Gueltig(alt) && s <= |alt|
    ensures Gueltig(Abgeschnitten(alt, s)) && Gemeinsam(alt, Abgeschnitten(alt, s), s)
  {
    var neu := Abgeschnitten(alt, s);
    assert neu[..s] == alt[..s];
    forall h, i | Stelle(neu, h, i) ensures Stelle(alt, h, i) && neu[h] == alt[h] {}
  }

  lemma ReorgSicher(alt: Kette, a: nat, s: nat, cache: Stand, op: Outpoint, watched: set<Skript>)
    requires Ordentlich(alt, watched) && a <= s <= |alt| && StandVon(cache, LEER, alt, Hoehe(a, |alt| - 1), watched) && Randfrei(cache, s)
    ensures !Ueberquert(alt, a, s, op, watched)
  {
    StandAn(cache, LEER, alt, Hoehe(a, |alt| - 1), op, watched);
    UeberquertVermerkt(alt, a, s, cache, op, watched);
  }

  lemma ReorgVerlust(alt: Kette, a: nat, s: nat, cache: Stand, watched: set<Skript>) returns (op: Outpoint)
    requires Ordentlich(alt, watched) && a <= s <= |alt| && StandVon(cache, LEER, alt, Hoehe(a, |alt| - 1), watched) && !Randfrei(cache, s)
    ensures Ueberquert(alt, a, s, op, watched)
  {
    op :| op in cache.verlauf && cache.verlauf[op].ausgang.hoehe < s && cache.verlauf[op].spent.Some? && cache.verlauf[op].spent.value.hoehe >= s;
    StandAn(cache, LEER, alt, Hoehe(a, |alt| - 1), op, watched);
    UeberquertVermerkt(alt, a, s, cache, op, watched);
  }

  lemma AbgeschnittenVerliert(alt: Kette, a: nat, s: nat, op: Outpoint, watched: set<Skript>)
    requires s <= |alt| && Ueberquert(alt, a, s, op, watched)
    ensures Verloren(alt, Abgeschnitten(alt, s), a, s, op, watched)
  {
    BereichMenge(s, s);
  }

  /** A chain of today that may have replaced blocks from s on. */
  ghost predicate Nachfolger(alt: Kette, neu: Kette, s: nat) { Gueltig(neu) && Gemeinsam(alt, neu, s) && s < |neu| }

  /**
   * Whatever a reorganisation from s on brings, a continued scan stays correct exactly when no cached entry
   * received below s is marked spent at s or above: a check on the cache alone.
   */
  lemma ReorgSicherGenau(alt: Kette, a: nat, s: nat, cache: Stand, watched: set<Skript>)
    requires Gueltig(alt) && a <= s <= |alt| && Ganz(cache, alt, a, watched)
    ensures Randfrei(cache, s) <==> forall neu, op :: Nachfolger(alt, neu, s) ==> !Verloren(alt, neu, a, s, op, watched)
  {
    GueltigOrdentlich(alt, watched);
    BereichGenau(alt, a, |alt| - 1);
    GespieltGenau(LEER, alt, Bereich(a, |alt| - 1), watched);
    assert StandVon(cache, LEER, alt, Hoehe(a, |alt| - 1), watched);
    if Randfrei(cache, s) {
      forall neu, op | Nachfolger(alt, neu, s) ensures !Verloren(alt, neu, a, s, op, watched) {
        ReorgSicher(alt, a, s, cache, op, watched);
      }
    } else {
      var op := ReorgVerlust(alt, a, s, cache, watched);
      AbgeschnittenGueltig(alt, s);
      AbgeschnittenVerliert(alt, a, s, op, watched);
      assert Nachfolger(alt, Abgeschnitten(alt, s), s);
    }
  }

  /** Received in the first block, spent in the second, which a reorganisation replaces by an empty one. */
  lemma ReorgBeispiel()
    ensures var alt, neu := [Block(0, [ERHALT]), Block(1, [ABGANG])], [Block(0, [ERHALT]), Block(0, [])];
            Gueltig(alt) && Nachfolger(alt, neu, 1) && Verloren(alt, neu, 0, 1, Outpoint("a", 0), {EIGENES})
  {
    var alt, neu, op := [Block(0, [ERHALT]), Block(1, [ABGANG])], [Block(0, [ERHALT]), Block(0, [])], Outpoint("a", 0);
    forall h, i | Stelle(alt, h, i) ensures i == 0 && alt[h].txs[i] == if h == 0 then ERHALT else ABGANG {}
    assert Gueltig(alt);
    AbgeschnittenGueltig(alt, 1);
    assert neu == Abgeschnitten(alt, 1);
    NeuEnthaelt(alt[0].txs, 0, {EIGENES}, 0, op);
    SpentEnthaelt(alt[1].txs, 0, op);
    BereichMenge(0, 1 - 1);
    BereichMenge(1, |alt| - 1);
    assert 0 in Hoehe(0, 1 - 1) && op in N(alt, 0, {EIGENES}) && Erzeugt(alt, Hoehe(0, 1 - 1), op, {EIGENES});
    assert 1 in Hoehe(1, |alt| - 1) && op in S(alt, 1) && Ausgegeben(alt, Hoehe(1, |alt| - 1), op);
    AbgeschnittenVerliert(alt, 0, 1, op, {EIGENES});
  }

  // --------------------------------------------------------- no reorganisation

  /** The heights cached and the heights replayed make up all heights. */
  lemma Vereinigt(k: Kette, a: nat, s: nat, t: nat, op: Outpoint, watched: set<Skript>)
    requires Ordentlich(k, watched) && a <= s <= t <= |k|
    ensures var x, y, z := Hoehe(a, t - 1), Hoehe(s, |k| - 1), Hoehe(a, |k| - 1);
            && (Erzeugt(k, z, op, watched) <==> Erzeugt(k, x, op, watched) || Erzeugt(k, y, op, watched))
            && (Ausgegeben(k, z, op) <==> Ausgegeben(k, x, op) || Ausgegeben(k, y, op))
            && (Erzeugt(k, x, op, watched) ==> ErzeugtBei(k, z, op, watched) == ErzeugtBei(k, x, op, watched))
            && (Erzeugt(k, y, op, watched) ==> ErzeugtBei(k, z, op, watched) == ErzeugtBei(k, y, op, watched))
            && (Ausgegeben(k, x, op) ==> AusgegebenBei(k, z, op) == AusgegebenBei(k, x, op))
            && (Ausgegeben(k, y, op) ==> AusgegebenBei(k, z, op) == AusgegebenBei(k, y, op))
  {
    BereichMenge(a, t - 1);
    BereichMenge(s, |k| - 1);
    BereichMenge(a, |k| - 1);
    assert Hoehe(a, t - 1) + Hoehe(s, |k| - 1) == Hoehe(a, |k| - 1);
    ErzeugtVereint(k, Hoehe(a, t - 1), Hoehe(s, |k| - 1), op, watched);
  }

  /** Marking what was cached with what is replayed is marking all at once. */
  lemma EintragVereint(k: Kette, x: set<int>, y: set<int>, z: set<int>, cache: Stand, s: nat, op: Outpoint, watched: set<Skript>)
    requires op in cache.verlauf <==> Erzeugt(k, x, op, watched)
    requires op in cache.verlauf ==> cache.verlauf[op] == EintragVon(LEER, k, x, op, watched)
    requires Erzeugt(k, z, op, watched) && (Erzeugt(k, x, op, watched) || Erzeugt(k, y, op, watched))
    requires Ausgegeben(k, z, op) <==> Ausgegeben(k, x, op) || Ausgegeben(k, y, op)
    requires Erzeugt(k, x, op, watched) ==> ErzeugtBei(k, z, op, watched) == ErzeugtBei(k, x, op, watched)
    requires Erzeugt(k, y, op, watched) ==> ErzeugtBei(k, z, op, watched) == ErzeugtBei(k, y, op, watched)
    requires Ausgegeben(k, x, op) ==> AusgegebenBei(k, z, op) == AusgegebenBei(k, x, op)
    requires Ausgegeben(k, y, op) ==> AusgegebenBei(k, z, op) == AusgegebenBei(k, y, op)
    requires Erzeugt(k, x, op, watched) || !Ausgegeben(k, x, op)
    ensures EintragVon(Seed(cache, s), k, y, op, watched) == EintragVon(LEER, k, z, op, watched)
  {}

  lemma VerlaufWeiter(neu: Kette, a: nat, s: nat, t: nat, cache: Stand, inkr: Stand, voll: Stand, op: Outpoint, watched: set<Skript>)
    requires Ordentlich(neu, watched) && a <= s <= t <= |neu|
    requires VerlaufAn(cache, LEER, neu, Hoehe(a, t - 1), op, watched)
    requires VerlaufAn(inkr, Seed(cache, s), neu, Hoehe(s, |neu| - 1), op, watched)
    requires VerlaufAn(voll, LEER, neu, Hoehe(a, |neu| - 1), op, watched)
    ensures op in inkr.verlauf <==> op in voll.verlauf
    ensures op in inkr.verlauf ==> inkr.verlauf[op] == voll.verlauf[op]
  {
    Vereinigt(neu, a, s, t, op, watched);
    if op in inkr.verlauf {
      NichtVorher(neu, a, t, op, watched);
      EintragVereint(neu, Hoehe(a, t - 1), Hoehe(s, |neu| - 1), Hoehe(a, |neu| - 1), cache, s, op, watched);
    }
  }

  /** An output created above the cached heights was not spent in them. */
  lemma NichtVorher(k: Kette, a: nat, t: nat, op: Outpoint, watched: set<Skript>)
    requires Ordentlich(k, watched) && a <= t <= |k| && Erzeugt(k, Hoehe(a, |k| - 1), op, watched)
    ensures Erzeugt(k, Hoehe(a, t - 1), op, watched) || !Ausgegeben(k, Hoehe(a, t - 1), op)
  {
    Geteilt(k, a, t, |k| - 1, op, watched);
  }

  /** Heights up to the tip of a chain are the same on every chain that extends it. */
  lemma GanzAufVerlaengerung(cache: Stand, alt: Kette, neu: Kette, a: nat, watched: set<Skript>)
    requires Gueltig(neu) && alt <= neu && a <= |alt| && Ganz(cache, alt, a, watched)
    ensures StandVon(cache, LEER, neu, Hoehe(a, |alt| - 1), watched)
  {
    GueltigOrdentlich(neu, watched);
    BereichGenau(neu, a, |alt| - 1);
    GespieltGenau(LEER, neu, Bereich(a, |alt| - 1), watched);
    GespieltLokal(LEER, alt, neu, Bereich(a, |alt| - 1), watched);
  }

  /** What a cached scan says of one output. */
  ghost predicate Aus(cache: Stand, k: Kette, hs: set<int>, op: Outpoint, watched: set<Skript>) {
    BestandAn(cache, LEER, k, hs, op, watched) && VerlaufAn(cache, LEER, k, hs, op, watched)
  }

  lemma GanzAn(cache: Stand, alt: Kette, neu: Kette, a: nat, hs: set<int>, op: Outpoint, watched: set<Skript>)
    requires Gueltig(neu) && alt <= neu && a <= |alt| && Ganz(cache, alt, a, watched) && hs == Hoehe(a, |alt| - 1)
    ensures Aus(cache, neu, hs, op, watched)
  {
    GanzAufVerlaengerung(cache, alt, neu, a, watched);
    StandAn(cache, LEER, neu, hs, op, watched);
  }

  lemma {:induction false} GespieltLokal(st: Stand, alt: Kette, neu: Kette, ev: seq<int>, watched: set<Skript>)
    requires alt <= neu && Hoehen(alt, ev) && Hoehen(neu, ev)
    ensures Gespielt(st, alt, ev, watched) == Gespielt(st, neu, ev, watched)
  {
    if ev != [] { GespieltLokal(st, alt, neu, ev[..|ev| - 1], watched); }
  }

  /** Without a reorganisation a continued scan leaves the stock and the history of a full one. */
  lemma InkrementOhneReorg(alt: Kette, neu: Kette, a: nat, s: nat, cache: Stand, inkr: Stand, voll: Stand, watched: set<Skript>)
    requires Gueltig(neu) && alt <= neu && a <= s <= |alt|
    requires Ganz(cache, alt, a, watched) && Inkrementell(inkr, cache, neu, s, watched) && Ganz(voll, neu, a, watched)
    ensures inkr == voll
  {
    GueltigPraefix(alt, neu);
    assert alt[..s] == neu[..s];
    forall op ensures !Verloren(alt, neu, a, s, op, watched) { NichtsVerloren(alt, neu, a, s, op, watched); }
    InkrementGenau(alt, neu, a, s, cache, inkr, voll, watched);
    VerlaufOhneReorg(alt, neu, a, s, cache, inkr, voll, watched);
  }

  lemma GueltigPraefix(alt: Kette, neu: Kette)
    requires Gueltig(neu) && alt <= neu
    ensures Gueltig(alt)
  {
    forall h, i | Stelle(alt, h, i) ensures Stelle(neu, h, i) && alt[h] == neu[h] {}
  }

  lemma NichtsVerloren(alt: Kette, neu: Kette, a: nat, s: nat, op: Outpoint, watched: set<Skript>)
    requires alt <= neu
    ensures !Verloren(alt, neu, a, s, op, watched)
  {
    if Ausgegeben(alt, Hoehe(s, |alt| - 1), op) {
      var h := AusgegebenBei(alt, Hoehe(s, |alt| - 1), op);
      BereichMenge(s, |alt| - 1);
      BereichMenge(s, |neu| - 1);
      assert h in Hoehe(s, |neu| - 1) && op in S(neu, h);
    }
  }

  lemma VerlaufAnOhneReorg(neu: Kette, a: nat, s: nat, t: nat, cache: Stand, inkr: Stand, voll: Stand, op: Outpoint, watched: set<Skript>)
    requires Ordentlich(neu, watched) && a <= s <= t <= |neu|
    requires StandVon(cache, LEER, neu, Hoehe(a, t - 1), watched)
    requires StandVon(inkr, Seed(cache, s), neu, Hoehe(s, |neu| - 1), watched)
    requires StandVon(voll, LEER, neu, Hoehe(a, |neu| - 1), watched)
    ensures GleichBei(inkr.verlauf, voll.verlauf, op)
  {
    assert VerlaufAn(cache, LEER, neu, Hoehe(a, t - 1), op, watched) by { StandAn(cache, LEER, neu, Hoehe(a, t - 1), op, watched); }
    assert VerlaufAn(inkr, Seed(cache, s), neu, Hoehe(s, |neu| - 1), op, watched) by { StandAn(inkr, Seed(cache, s), neu, Hoehe(s, |neu| - 1), op, watched); }
    assert VerlaufAn(voll, LEER, neu, Hoehe(a, |neu| - 1), op, watched) by { StandAn(voll, LEER, neu, Hoehe(a, |neu| - 1), op, watched); }
    VerlaufWeiter(neu, a, s, t, cache, inkr, voll, op, watched);
  }

  lemma VerlaufOhneReorg(alt: Kette, neu: Kette, a: nat, s: nat, cache: Stand, inkr: Stand, voll: Stand, watched: set<Skript>)
    requires Gueltig(neu) && alt <= neu && a <= s <= |alt| && Gueltig(alt) && Gemeinsam(alt, neu, s)
    requires Ganz(cache, alt, a, watched) && Inkrementell(inkr, cache, neu, s, watched) && Ganz(voll, neu, a, watched)
    ensures inkr.verlauf == voll.verlauf
  {
    GanzAufVerlaengerung(cache, alt, neu, a, watched);
    DreiStaende(alt, neu, a, s, cache, inkr, voll, watched);
    VerlaufGleich(neu, a, s, |alt|, cache, inkr, voll, watched);
  }

  lemma VerlaufGleich(neu: Kette, a: nat, s: nat, t: nat, cache: Stand, inkr: Stand, voll: Stand, watched: set<Skript>)
    requires Ordentlich(neu, watched) && a <= s <= t <= |neu|
    requires StandVon(cache, LEER, neu, Hoehe(a, t - 1), watched)
    requires StandVon(inkr, Seed(cache, s), neu, Hoehe(s, |neu| - 1), watched)
    requires StandVon(voll, LEER, neu, Hoehe(a, |neu| - 1), watched)
    ensures inkr.verlauf == voll.verlauf
  {
    forall op ensures GleichBei(inkr.verlauf, voll.verlauf, op) {
      VerlaufAnOhneReorg(neu, a, s, t, cache, inkr, voll, op, watched);
    }
    Ueberall(inkr.verlauf, voll.verlauf);
  }
}
