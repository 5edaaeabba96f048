/** The scan of one wallet with known scripts (core/bip158_scan.py, `_scan_script_map`, lines 1870-2107). */
module Folgescan {
  import opened Ordnung
  import opened Kassenbuch
  import opened Wiedergabe
  import opened Luecke
  import opened Suchlauf
  import opened Union
  import opened Bekannt
  import opened Unionscan
  import opened Unionkonto
  import opened Unionergebnis
  import opened Inkrement
  import opened Pause

  /** The stock and history that the passes update as they go. */
  class Strom {
    const k: Kette
    const kt: Konto
    const buch: Buch
    var ereignisse: seq<int>

    constructor (k: Kette, kt: Konto)
      ensures this.k == k && this.kt == kt && ereignisse == [] && Valid() && fresh(buch)
    {
      this.k, this.kt, ereignisse := k, kt, [];
      buch := new Buch(kt.seed);
    }

    ghost predicate Valid()
      reads this, buch
    {
      Hoehen(k, ereignisse) && buch.Inhalt() == Gespielt(kt.seed, k, ereignisse, kt.w.Watched())
    }

    method BlockGefunden(h: nat)
      requires Valid() && h < |k|
      modifies this, buch
      ensures Valid() && ereignisse == old(ereignisse) + [h]
    {
      assert (ereignisse + [h])[..|ereignisse|] == ereignisse;
      var _ := buch.WendeAn(k[h], h, kt.w.Watched());
      ereignisse := ereignisse + [h];
    }

    method Filterhoehe(trifft: (int, set<Skript>) -> bool, h: nat, scripts: set<Skript>) returns (ghost neu: seq<int>)
      requires Valid() && h < |k| && FilterEhrlich(k, trifft)
      modifies this, buch
      ensures Valid() && ereignisse == old(ereignisse) + neu && ImBereich(k, neu, h, h)
      ensures Gesucht(k, ereignisse, h, h, scripts) && NurTreffer(k, trifft, neu, scripts)
    {
      neu := [];
      if trifft(h, scripts) {
        EinTreffer(k, trifft, h, scripts);
        BlockGefunden(h);
        neu := [h];
      }
      EineHoehe(k, trifft, ereignisse, h, scripts);
    }

    /** One pass; nothing is applied a second time. */
    method Filterpass(trifft: (int, set<Skript>) -> bool, von: nat, bis: int, scripts: set<Skript>) returns (ghost neu: seq<int>)
      requires Valid() && bis < |k| && FilterEhrlich(k, trifft)
      modifies this, buch
      ensures Valid() && ereignisse == old(ereignisse) + neu && ImBereich(k, neu, von, bis)
      ensures Gesucht(k, ereignisse, von, bis, scripts) && NurTreffer(k, trifft, neu, scripts)
    {
      var h := von;
      neu := [];
      while h <= bis
        invariant von <= h && (h <= bis || h == bis + 1 || h == von) && Valid()
        invariant ereignisse == old(ereignisse) + neu && ImBereich(k, neu, von, h - 1)
        invariant Gesucht(k, ereignisse, von, h - 1, scripts) && NurTreffer(k, trifft, neu, scripts)
        decreases bis - h
      {
        ghost var ev := ereignisse;
        ghost var dazu := Filterhoehe(trifft, h, scripts);
        GesuchtWeiter(k, ev, ereignisse, von, h, scripts);
        BereichWeiter(k, neu, dazu, von, h);
        MehrTreffer(k, trifft, neu, scripts, dazu, scripts);
        assert scripts + scripts == scripts;
        neu := neu + dazu;
        h := h + 1;
      }
    }
  }

  /** The passes over a wallet with known scripts, in height order. */
  method Paesse(k: Kette, kt: Konto, trifft: (int, set<Skript>) -> bool, end: int) returns (strom: Strom)
    requires Gueltig(k) && kt.start <= end < |k| && FilterEhrlich(k, trifft) && !kt.Erstscan()
    ensures fresh(strom) && fresh(strom.buch) && strom.Valid() && strom.k == k && strom.kt == kt
    ensures ImBereich(k, strom.ereignisse, kt.start, end) && KontoDurchsucht(k, kt, end, strom.ereignisse, FilterGenau(k, trifft), kt.used)
  {
    var passe := PlaneFilterPasses(kt.start, end, kt.w.Watched(), kt.used, {});
    strom := new Strom(k, kt);
    ghost var alt := strom.Filterpass(trifft, passe[0].von, passe[0].bis, passe[0].scripts);
    assert [] + alt == alt;
    if |passe| == 2 {
      ghost var ev := strom.ereignisse;
      ghost var neu := strom.Filterpass(trifft, passe[1].von, passe[1].bis, passe[1].scripts);
      GesuchtMehr(k, ev, strom.ereignisse, kt.start, TurboVon(end) - 1, kt.used);
      VerkettetAufsteigend(alt, neu);
    }
  }

  /** Complete where nothing new hides below the newest window, so always when started inside it; under exact conditions only there. */
  ghost predicate Folge(fertig: bool, imFenster: bool, nichtsNeues: bool, genau: bool) {
    (nichtsNeues ==> fertig) && (imFenster ==> fertig) && (genau ==> (fertig <==> nichtsNeues))
  }

  ghost predicate Folgeergebnis(k: Kette, kt: Konto, end: int, genau: bool, st: Stand) {
    SeedEcht(k, kt) ==>
      && Folge(AlleBloecke(k, kt, end, st), end - TURBO_WINDOW + 1 <= kt.start, NichtsNeues(k, kt, end, kt.used), genau && SeedBekannt(k, kt, kt.used))
      && (genau && SeedBekannt(k, kt, kt.used) ==> end < |k| && Verfehlt(k, kt, end, kt.used, st, Voll(k, kt, end)))
  }

  /** Whatever the seed: the replay of all blocks that touch the wallet in the window, and a known script below it. */
  ghost predicate AusDurchsuchten(k: Kette, kt: Konto, end: int, genau: bool, st: Stand) {
    && (exists ev :: ImBereich(k, ev, kt.start, end) && KontoDurchsucht(k, kt, end, ev, genau, kt.used)
                     && st == Gespielt(kt.seed, k, ev, kt.w.Watched()))
    && ImVerlauf(k, kt.w, Spaeter(kt.start, TurboVon(end)), end, st)
  }

  /**
   * With known scripts the passes run in height order, so nothing is rebuilt: streaming the matched blocks
   * onto the seed leaves the state of a replay of ALL blocks from the start, if every block below the newest
   * window that changes the wallet touches a known script. With an exact filter it does so only then, and
   * misses every output of a block there that touches none.
   */
  method ScanBekannt(k: Kette, kt: Konto, trifft: (int, set<Skript>) -> bool, end: int) returns (st: Stand)
    requires Gueltig(k) && end < |k| && FilterEhrlich(k, trifft) && !kt.Erstscan()
    ensures end < kt.start ==> st == LEER
    ensures kt.start <= end ==> Folgeergebnis(k, kt, end, FilterGenau(k, trifft), st) && AusDurchsuchten(k, kt, end, FilterGenau(k, trifft), st)
  {
    if end < kt.start { return LEER; }
    var strom := Paesse(k, kt, trifft, end);
    st := strom.buch.Inhalt();
    FensterEmpfangen(k, kt, end, strom.ereignisse, kt.used, strom.ereignisse);
    if SeedEcht(k, kt) {
      BekannteMitUmbau(k, kt, end, strom.ereignisse, FilterGenau(k, trifft), kt.used, strom.ereignisse);
      if end - TURBO_WINDOW + 1 <= kt.start { ImFensterNichtsNeues(k, kt, end, kt.used); }
    }
  }

  lemma CacheAus(alt: Kette, neu: Kette, a: nat, cache: Stand, hs: set<int>, watched: set<Skript>)
    requires Gueltig(neu) && alt <= neu && a <= |alt| && Ganz(cache, alt, a, watched) && hs == Hoehe(a, |alt| - 1)
    ensures forall op :: Aus(cache, neu, hs, op, watched)
  {
    forall op { GanzAn(cache, alt, neu, a, hs, op, watched); }
  }

  lemma SeedHerkunft(k: Kette, hs: set<int>, cache: Stand, s: nat, op: Outpoint, watched: set<Skript>)
    requires Aus(cache, k, hs, op, watched) && (op in Seed(cache, s).bestand || op in Seed(cache, s).verlauf)
    ensures Irgendwo(k, op, watched)
  {}

  /** What a cached scan seeds was created on the chain that continues it. */
  lemma SeedEchtAus(k: Kette, hs: set<int>, kt: Konto, cache: Stand)
    requires (forall op :: Aus(cache, k, hs, op, kt.w.Watched())) && kt.seed == Seed(cache, kt.start)
    ensures SeedEcht(k, kt)
  {
    forall op | op in kt.seed.bestand || op in kt.seed.verlauf ensures Irgendwo(k, op, kt.w.Watched()) {
      SeedHerkunft(k, hs, cache, kt.start, op, kt.w.Watched());
    }
  }

  /** The known scripts contain those of the cached history. */
  predicate CacheBekannt(cache: Stand, scripts: set<Skript>) {
    forall op :: op in cache.verlauf ==> cache.verlauf[op].ausgang.skript in scripts
  }

  lemma VerlaufBekannt(k: Kette, hs: set<int>, cache: Stand, s: nat, scripts: set<Skript>, h: nat, op: Outpoint, watched: set<Skript>)
    requires Ordentlich(k, watched) && StandVon(cache, LEER, k, hs, watched) && CacheBekannt(cache, scripts)
    requires (op in Seed(cache, s).bestand || op in Seed(cache, s).verlauf) && h < |k| && op in N(k, h, watched)
    ensures N(k, h, watched)[op].skript in scripts
  {
    StandAn(cache, LEER, k, hs, op, watched);
    assert op in cache.verlauf && ErzeugtBei(k, hs, op, watched) == h;
  }

  /** A wallet that knows the scripts of its cached history knows those of its seed. */
  lemma SeedAusCacheBekannt(alt: Kette, neu: Kette, a: nat, kt: Konto, cache: Stand)
    requires Gueltig(neu) && alt <= neu && a <= |alt| && Ganz(cache, alt, a, kt.w.Watched()) && kt.seed == Seed(cache, kt.start)
    requires CacheBekannt(cache, kt.used)
    ensures SeedBekannt(neu, kt, kt.used)
  {
    var watched := kt.w.Watched();
    GueltigOrdentlich(neu, watched);
    GanzAufVerlaengerung(cache, alt, neu, a, watched);
    forall h, op | (op in kt.seed.bestand || op in kt.seed.verlauf) && 0 <= h < |neu| && op in N(neu, h, watched)
      ensures N(neu, h, watched)[op].skript in kt.used
    {
      VerlaufBekannt(neu, Hoehe(a, |alt| - 1), cache, kt.start, kt.used, h, op, watched);
    }
  }

  /** Continued on all blocks, a cached scan is a scan of the whole chain. */
  lemma VollIstGanz(alt: Kette, neu: Kette, a: nat, kt: Konto, cache: Stand, st: Stand)
    requires Gueltig(neu) && alt <= neu && a <= kt.start <= |alt| && kt.start < |neu|
    requires Ganz(cache, alt, a, kt.w.Watched()) && kt.seed == Seed(cache, kt.start)
    ensures AlleBloecke(neu, kt, |neu| - 1, st) <==> Ganz(st, neu, a, kt.w.Watched())
  {
    BereichGenau(neu, a, |neu| - 1);
    BereichGenau(neu, kt.start, |neu| - 1);
    var voll := Gespielt(LEER, neu, Bereich(a, |neu| - 1), kt.w.Watched());
    InkrementOhneReorg(alt, neu, a, kt.start, cache, Voll(neu, kt, |neu| - 1), voll, kt.w.Watched());
  }

  /** The same for the whole chain. */
  ghost predicate Fortgesetzt(k: Kette, a: nat, kt: Konto, genau: bool, st: Stand) {
    && Folge(Ganz(st, k, a, kt.w.Watched()), |k| - TURBO_WINDOW <= kt.start, NichtsNeues(k, kt, |k| - 1, kt.used), genau)
    && (genau ==> NieGefunden(k, kt, |k| - 1, kt.used, st))
  }

  lemma FolgtGanz(k: Kette, a: nat, kt: Konto, genau: bool, bekannt: bool, st: Stand)
    requires k != [] && SeedEcht(k, kt) && Folgeergebnis(k, kt, |k| - 1, genau, st) && (bekannt ==> SeedBekannt(k, kt, kt.used))
    requires AlleBloecke(k, kt, |k| - 1, st) <==> Ganz(st, k, a, kt.w.Watched())
    ensures Folge(Ganz(st, k, a, kt.w.Watched()), |k| - TURBO_WINDOW <= kt.start, NichtsNeues(k, kt, |k| - 1, kt.used), genau && bekannt)
  {
    Folgt(AlleBloecke(k, kt, |k| - 1, st), Ganz(st, k, a, kt.w.Watched()), |k| - TURBO_WINDOW <= kt.start, NichtsNeues(k, kt, |k| - 1, kt.used),
          genau && SeedBekannt(k, kt, kt.used), genau && bekannt);
  }

  lemma FolgtNie(k: Kette, kt: Konto, genau: bool, st: Stand)
    requires k != [] && SeedEcht(k, kt) && Folgeergebnis(k, kt, |k| - 1, genau, st) && genau && SeedBekannt(k, kt, kt.used)
    ensures NieGefunden(k, kt, |k| - 1, kt.used, st)
  {
    VerfehltNie(k, kt, |k| - 1, kt.used, st);
  }

  lemma Folgt(alle: bool, ganz: bool, imFenster: bool, nichtsNeues: bool, genau: bool, bekannt: bool)
    requires Folge(alle, imFenster, nichtsNeues, genau) && (alle <==> ganz) && (bekannt ==> genau)
    ensures Folge(ganz, imFenster, nichtsNeues, bekannt)
  {}

  lemma FortgesetztGenau(alt: Kette, neu: Kette, a: nat, kt: Konto, cache: Stand, genau: bool, st: Stand)
    requires Gueltig(neu) && alt <= neu && a <= kt.start <= |alt| && kt.start < |neu|
    requires Ganz(cache, alt, a, kt.w.Watched()) && kt.seed == Seed(cache, kt.start) && Folgeergebnis(neu, kt, |neu| - 1, genau, st)
    ensures Fortgesetzt(neu, a, kt, genau && CacheBekannt(cache, kt.used), st)
  {
    CacheAus(alt, neu, a, cache, Hoehe(a, |alt| - 1), kt.w.Watched());
    SeedEchtAus(neu, Hoehe(a, |alt| - 1), kt, cache);
    if CacheBekannt(cache, kt.used) { SeedAusCacheBekannt(alt, neu, a, kt, cache); }
    VollIstGanz(alt, neu, a, kt, cache, st);
    FolgtGanz(neu, a, kt, genau, CacheBekannt(cache, kt.used), st);
    if genau && CacheBekannt(cache, kt.used) { FolgtNie(neu, kt, genau, st); }
  }

  /** What the new chain spends of the outputs of the old one it has created as well. */
  ghost predicate AusgabenBekannt(alt: Kette, neu: Kette, watched: set<Skript>) {
    forall h, op :: 0 <= h < |neu| && op in S(neu, h) && Irgendwo(alt, op, watched) ==> Irgendwo(neu, op, watched)
  }

  lemma SeedEchtReorg(alt: Kette, neu: Kette, hs: set<int>, kt: Konto, cache: Stand)
    requires (forall op :: Aus(cache, alt, hs, op, kt.w.Watched())) && kt.seed == Seed(cache, kt.start) && AusgabenBekannt(alt, neu, kt.w.Watched())
    ensures SeedEcht(neu, kt)
  {
    forall h, op | (op in kt.seed.bestand || op in kt.seed.verlauf) && 0 <= h < |neu| && op in S(neu, h)
      ensures Irgendwo(neu, op, kt.w.Watched())
    {
      SeedHerkunft(alt, hs, cache, kt.start, op, kt.w.Watched());
    }
  }

  /** The stock of a replay of the whole chain. */
  ghost predicate GanzerBestand(st: Stand, k: Kette, a: nat, watched: set<Skript>) {
    BereichSpielbar(k, a, |k| - 1) && st.bestand == Gespielt(LEER, k, Bereich(a, |k| - 1), watched).bestand
  }

  ghost predicate NichtsVerschwunden(alt: Kette, neu: Kette, a: nat, s: nat, watched: set<Skript>) {
    forall op :: !Verloren(alt, neu, a, s, op, watched)
  }

  lemma VollNachReorg(alt: Kette, neu: Kette, a: nat, kt: Konto, cache: Stand, st: Stand)
    requires Gueltig(alt) && Gueltig(neu) && a <= kt.start && Gemeinsam(alt, neu, kt.start) && kt.start < |neu|
    requires Ganz(cache, alt, a, kt.w.Watched()) && kt.seed == Seed(cache, kt.start) && AlleBloecke(neu, kt, |neu| - 1, st)
    ensures GanzerBestand(st, neu, a, kt.w.Watched()) <==> NichtsVerschwunden(alt, neu, a, kt.start, kt.w.Watched())
  {
    BereichGenau(neu, a, |neu| - 1);
    BereichGenau(neu, kt.start, |neu| - 1);
    InkrementGenau(alt, neu, a, kt.start, cache, st, Gespielt(LEER, neu, Bereich(a, |neu| - 1), kt.w.Watched()), kt.w.Watched());
  }

  /**
   * After a reorganisation above the start: where nothing new hides below the newest window, the stock is that
   * of the whole new chain exactly if no output was lost with the replaced blocks, which a check on the cache
   * rules out for every reorganisation.
   */
  ghost predicate NachReorg(alt: Kette, neu: Kette, a: nat, kt: Konto, cache: Stand, st: Stand) {
    NichtsNeues(neu, kt, |neu| - 1, kt.used) || |neu| - TURBO_WINDOW <= kt.start ==>
      && (GanzerBestand(st, neu, a, kt.w.Watched()) <==> NichtsVerschwunden(alt, neu, a, kt.start, kt.w.Watched()))
      && (Randfrei(cache, kt.start) ==> GanzerBestand(st, neu, a, kt.w.Watched()))
  }

  lemma RandfreiVerschwindetNichts(alt: Kette, neu: Kette, a: nat, s: nat, cache: Stand, watched: set<Skript>)
    requires Gueltig(alt) && a <= s && Nachfolger(alt, neu, s) && Ganz(cache, alt, a, watched) && Randfrei(cache, s)
    ensures NichtsVerschwunden(alt, neu, a, s, watched)
  {
    ReorgSicherGenau(alt, a, s, cache, watched);
  }

  lemma ReorgGenau(alt: Kette, neu: Kette, a: nat, kt: Konto, cache: Stand, genau: bool, st: Stand)
    requires Gueltig(alt) && Nachfolger(alt, neu, kt.start) && a <= kt.start && Ganz(cache, alt, a, kt.w.Watched()) && kt.seed == Seed(cache, kt.start)
    requires SeedEcht(neu, kt) && Folgeergebnis(neu, kt, |neu| - 1, genau, st)
    ensures NachReorg(alt, neu, a, kt, cache, st)
  {
    if AlleBloecke(neu, kt, |neu| - 1, st) {
      VollNachReorg(alt, neu, a, kt, cache, st);
      if Randfrei(cache, kt.start) { RandfreiVerschwindetNichts(alt, neu, a, kt.start, cache, kt.w.Watched()); }
    }
  }

  lemma SeedNachReorg(alt: Kette, neu: Kette, a: nat, kt: Konto, cache: Stand)
    requires Gueltig(alt) && a <= |alt| && Ganz(cache, alt, a, kt.w.Watched()) && kt.seed == Seed(cache, kt.start)
    requires AusgabenBekannt(alt, neu, kt.w.Watched())
    ensures SeedEcht(neu, kt)
  {
    CacheAus(alt, alt, a, cache, Hoehe(a, |alt| - 1), kt.w.Watched());
    SeedEchtReorg(alt, neu, Hoehe(a, |alt| - 1), kt, cache);
  }

  /**
   * Incremental equals full, down to the filters: a scan that continues a cached one reads only blocks whose
   * filters match. On a longer chain it ends with the stock and the history of a replay of the whole chain
   * where nothing new hides below the newest window, so always when it starts inside the window; with an
   * exact filter and the cached scripts known, only then. On a chain that replaced blocks above the start it
   * ends with the stock of that chain exactly if nothing was lost with them.
   */
  method ScanFortgesetzt(ghost alt: Kette, neu: Kette, ghost a: nat, kt: Konto, ghost cache: Stand, trifft: (int, set<Skript>) -> bool)
    returns (st: Stand)
    requires Gueltig(alt) && Nachfolger(alt, neu, kt.start) && a <= kt.start && FilterEhrlich(neu, trifft) && !kt.Erstscan()
    requires Ganz(cache, alt, a, kt.w.Watched()) && kt.seed == Seed(cache, kt.start)
    ensures AusDurchsuchten(neu, kt, |neu| - 1, FilterGenau(neu, trifft), st)
    ensures alt <= neu ==> Fortgesetzt(neu, a, kt, FilterGenau(neu, trifft) && CacheBekannt(cache, kt.used), st)
    ensures AusgabenBekannt(alt, neu, kt.w.Watched()) ==> NachReorg(alt, neu, a, kt, cache, st)
  {
    st := ScanBekannt(neu, kt, trifft, |neu| - 1);
    if alt <= neu { FortgesetztGenau(alt, neu, a, kt, cache, FilterGenau(neu, trifft), st); }
    if AusgabenBekannt(alt, neu, kt.w.Watched()) {
      SeedNachReorg(alt, neu, a, kt, cache);
      ReorgGenau(alt, neu, a, kt, cache, FilterGenau(neu, trifft), st);
    }
  }

  /**
   * The buffer at work: a chain that differs from the one scanned before in its last six blocks at most is
   * read from the first of them on, so every output these blocks pay is found, up to two weeks later.
   */
  method ScanNachPuffer(ghost alt: Kette, neu: Kette, ghost a: nat, kt: Konto, ghost cache: Stand, trifft: (int, set<Skript>) -> bool,
                        konfiguriert: int, firstSeen: Option<int>) returns (st: Stand)
    requires |alt| > 6 && konfiguriert <= |alt| - 6 && kt.start == ScanStart(konfiguriert, |alt| - 1, firstSeen)
    requires Gueltig(alt) && Gueltig(neu) && |alt| - 6 < |neu| && alt[..|alt| - 6] == neu[..|alt| - 6] && a <= |alt| - 6
    requires FilterEhrlich(neu, trifft) && !kt.Erstscan() && Ganz(cache, alt, a, kt.w.Watched()) && kt.seed == Seed(cache, kt.start)
    ensures |neu| <= |alt| + 2010 ==> ImVerlauf(neu, kt.w, |alt| - 6, |neu| - 1, st)
    ensures alt <= neu ==> Fortgesetzt(neu, a, kt, FilterGenau(neu, trifft) && CacheBekannt(cache, kt.used), st)
    ensures AusgabenBekannt(alt, neu, kt.w.Watched()) ==> NachReorg(alt, neu, a, kt, cache, st)
  {
    ScanStartPuffer(konfiguriert, |alt| - 1, firstSeen, |alt| - 6);
    ScanStartPuffer(konfiguriert, |alt| - 1, firstSeen, |alt| - 7);
    assert kt.start == |alt| - 6;
    st := ScanFortgesetzt(alt, neu, a, kt, cache, trifft);
  }

  // ----------------------------------------------------------------- an example

  const NEUES := Eigen(0, 0, 0, 1)

  function Wiederkehrer(cache: Stand): Konto { Konto(Wallet(0, 1, 1, 20, 20, false), 1, {EIGENES}, {}, Seed(cache, 1)) }

  lemma PauseNachfolger(k: Kette)
    requires IstPause(k, EIGENES, NEUES)
    ensures Gueltig(k) && Gueltig(k[..1]) && Nachfolger(k[..1], k, 1)
  {
    PauseGueltig(k, EIGENES, NEUES);
    GueltigPraefix(k[..1], k);
    assert k[..1][..1] == k[..1];
  }

  lemma PauseVerborgen(k: Kette, kt: Konto)
    requires IstPause(k, EIGENES, NEUES) && kt.w == Wallet(0, 1, 1, 20, 20, false) && kt.start == 1
    ensures Verborgen(k, kt, 2017, {EIGENES}, 1, ZWEITER)
  {
    PauseUnberuehrt(k, EIGENES, NEUES, {EIGENES});
    assert kt.w.Meins(NEUES);
    PauseBezahlt(k, EIGENES, NEUES, kt.w.Watched());
  }

  lemma PauseBekannt(k: Kette, cache: Stand, watched: set<Skript>)
    requires IstPause(k, EIGENES, NEUES) && StandVon(cache, LEER, k, Hoehe(0, 0), watched)
    ensures CacheBekannt(cache, {EIGENES})
  {
    BereichMenge(0, 0);
    forall op | op in cache.verlauf ensures cache.verlauf[op].ausgang.skript in {EIGENES} {
      StandAn(cache, LEER, k, Hoehe(0, 0), op, watched);
      PauseZahlt(k, EIGENES, NEUES, 0, op, watched);
    }
  }

  lemma PauseBereit(alt: Kette, k: Kette, kt: Konto, cache: Stand)
    requires IstPause(k, EIGENES, NEUES) && alt <= k && |alt| == 1 && Ganz(cache, alt, 0, kt.w.Watched()) && kt.used == {EIGENES}
    ensures CacheBekannt(cache, kt.used)
  {
    PauseGueltig(k, EIGENES, NEUES);
    GanzAufVerlaengerung(cache, alt, k, 0, kt.w.Watched());
    PauseBekannt(k, cache, kt.w.Watched());
  }

  /** A wallet continued after a long pause never finds the output at its next index. */
  method PauseBeispiel(ghost cache: Stand, kt: Konto, trifft: (int, set<Skript>) -> bool) returns (st: Stand)
    requires FilterGenau(MitPause(EIGENES, NEUES), trifft) && kt == Wiederkehrer(cache)
    requires Ganz(cache, MitPause(EIGENES, NEUES)[..1], 0, kt.w.Watched())
    ensures ZWEITER !in st.verlauf && !Ganz(st, MitPause(EIGENES, NEUES), 0, kt.w.Watched())
  {
    var k := MitPause(EIGENES, NEUES);
    assert IstPause(k, EIGENES, NEUES);
    PauseNachfolger(k);
    PauseVerborgen(k, kt);
    PauseBereit(k[..1], k, kt, cache);
    GenauIstEhrlich(k, trifft);
    st := ScanFortgesetzt(k[..1], k, 0, kt, cache, trifft);
    VerborgenWirksam(k, kt, 2017, kt.used, 1, ZWEITER);
  }

  /** The union of a wallet with known scripts alone misses the same. */
  method UnionAllein(k: Kette, kt: Konto, trifft: (int, set<Skript>) -> bool, end: int) returns (st: Stand)
    requires Gueltig(k) && kt.start < TurboVon(end) && end < |k| && FilterGenau(k, trifft) && kt.w.Valid() && !kt.Erstscan()
    requires SeedEcht(k, kt) && SeedBekannt(k, kt, kt.used)
    ensures Verfehlt(k, kt, end, kt.used, st, Voll(k, kt, end))
  {
    GenauIstEhrlich(k, trifft);
    var konten := [kt];
    var staende, turbo, historie, gesucht := ScanUnion(k, konten, trifft, end);
    assert Vorbereitete(konten) == konten;
    assert kt in konten && !AlleSpaeter(konten, end) && InHistorie(kt, end);
    forall s ensures s in gesucht <==> s in kt.used {
      if s in kt.used { assert AusHistorie(konten, end, s); }
      if s in gesucht { assert AusHistorie(konten, end, s) || AusErstscan(konten, s); }
    }
    assert gesucht == kt.used;
    assert Ergebnis(k, konten[0], end, Umbau(konten), true, turbo, historie, gesucht, staende[0]);
    st := staende[0];
  }
}
