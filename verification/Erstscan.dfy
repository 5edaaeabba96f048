/** The first scan of one wallet (core/bip158_scan.py, `_scan_script_map`, lines 1889-2107). */
module Erstscan {
  import opened Ordnung
  import opened Kassenbuch
  import opened Wiedergabe
  import opened Luecke
  import opened Suchlauf
  import opened Pause

  /**
   * Scripts a first scan can never leave: its first indices, all it is paid on in the newest window (from tv on)
   * and in the blocks below that touch one of them, and with any of them everything the next prefix asks for.
   */
  ghost predicate Huelle(k: Kette, w: Wallet, start: int, tv: int, end: int, x: set<Skript>) {
    && (forall h, op :: start <= h <= end && Bezahltes(k, w, h, op) && (tv <= h || BeruehrtEines(k, h, x)) ==> N(k, h, w.Watched())[op].skript in x)
    && forall hits :: hits <= x ==> w.Ziel(hits) <= x
  }

  /** The scan has not left the scripts. */
  ghost predicate Drinnen(k: Kette, start: int, tv: int, ev: seq<int>, hits: set<Skript>, x: set<Skript>) {
    hits <= x && forall h :: h in ev && start <= h < tv ==> BeruehrtEines(k, h, x)
  }

  lemma BleibtDrinnen(k: Kette, w: Wallet, start: int, tv: int, end: int, ev: seq<int>, hits: set<Skript>, h: nat, x: set<Skript>)
    requires Drinnen(k, start, tv, ev, hits, x) && Huelle(k, w, start, tv, end, x) && start <= h <= end && h < |k|
    requires h < tv ==> BeruehrtEines(k, h, x)
    ensures Drinnen(k, start, tv, ev + [h], hits + SkripteVon(N(k, h, w.Watched())), x)
  {
    forall op | op in N(k, h, w.Watched()) ensures N(k, h, w.Watched())[op].skript in x { assert Bezahltes(k, w, h, op); }
  }

  lemma TreffervollWeiter(k: Kette, w: Wallet, ev: seq<int>, hits: set<Skript>, h: nat, start: int, tip: int)
    requires Hoehen(k, ev) && Treffervoll(k, w, ev, hits, start, tip) && h < |k|
    ensures Hoehen(k, ev + [h]) && Treffervoll(k, w, ev + [h], hits + SkripteVon(N(k, h, w.Watched())), start, tip)
  {}

  /** What the passes leave behind: the heights of matched blocks and the hit scripts. */
  class Lauf {
    const k: Kette
    const w: Wallet
    var ereignisse: seq<int>
    var hits: set<Skript>
    const buch: Buch

    constructor (k: Kette, w: Wallet)
      ensures this.k == k && this.w == w && ereignisse == [] && hits == {} && fresh(buch)
    {
      this.k, this.w, ereignisse, hits := k, w, [], {};
      buch := new Buch(LEER);
    }

    ghost predicate Exakt(trifft: (int, set<Skript>) -> bool, start: int, tv: int, tip: int, x: set<Skript>) {
      FilterGenau(k, trifft) && Huelle(k, w, start, tv, tip, x)
    }

    /** An exact filter keeps the scan inside every closed set of scripts. */
    ghost predicate Gehalten(trifft: (int, set<Skript>) -> bool, start: int, tv: int, tip: int, x: set<Skript>)
      reads this
    {
      Exakt(trifft, start, tv, tip, x) ==> Drinnen(k, start, tv, ereignisse, hits, x)
    }

    ghost predicate Valid(von: int, tip: int)
      reads this
    {
      && Hoehen(k, ereignisse) && Treffervoll(k, w, ereignisse, hits, von, tip)
      && forall h :: h in ereignisse ==> von <= h <= tip
    }

    /** One filter pass: matched blocks are kept and applied provisionally. */
    method Filterpass(trifft: (int, set<Skript>) -> bool, von: int, bis: int, scripts: set<Skript>,
                      ghost start: int, ghost tv: int, ghost tip: int, ghost x: set<Skript>)
      requires Valid(start, tip) && 0 <= start <= von && bis <= tip < |k| && FilterEhrlich(k, trifft)
      requires Gehalten(trifft, start, tv, tip, x) && (Exakt(trifft, start, tv, tip, x) && von < tv ==> scripts <= x)
      modifies this, buch
      ensures Valid(start, tip) && Gesucht(k, ereignisse, von, bis, scripts) && Gehalten(trifft, start, tv, tip, x)
      ensures forall h :: h in old(ereignisse) ==> h in ereignisse
    {
      var h := von;
      while h <= bis
        invariant von <= h && (h <= bis || h == bis + 1 || h == von) && Valid(start, tip)
        invariant Gesucht(k, ereignisse, von, h - 1, scripts) && Gehalten(trifft, start, tv, tip, x)
        invariant forall x :: x in old(ereignisse) ==> x in ereignisse
        decreases bis - h
      {
        ghost var ev := ereignisse;
        Filterhoehe(trifft, h, scripts, start, tv, tip, x);
        GesuchtWeiter(k, ev, ereignisse, von, h, scripts);
        h := h + 1;
      }
    }

    /** One filter: an honest filter that does not match has nothing of the scripts in its block. */
    method Filterhoehe(trifft: (int, set<Skript>) -> bool, h: nat, scripts: set<Skript>,
                       ghost start: int, ghost tv: int, ghost tip: int, ghost x: set<Skript>)
      requires Valid(start, tip) && start <= h <= tip < |k| && FilterEhrlich(k, trifft)
      requires Gehalten(trifft, start, tv, tip, x) && (Exakt(trifft, start, tv, tip, x) && h < tv ==> scripts <= x)
      modifies this, buch
      ensures Valid(start, tip) && Gesucht(k, ereignisse, h, h, scripts) && Gehalten(trifft, start, tv, tip, x)
      ensures forall x :: x in old(ereignisse) ==> x in ereignisse
    {
      if trifft(h, scripts) {
        ghost var ev, alt := ereignisse, hits;
        BlockGefunden(h, start, tip);
        if Exakt(trifft, start, tv, tip, x) {
          if h < tv { BeruehrtMehr(k, h, scripts, x); }
          BleibtDrinnen(k, w, start, tv, tip, ev, alt, h, x);
        }
      }
      EineHoehe(k, trifft, ereignisse, h, scripts);
    }

    /** A matched block: remembered, applied, its wallet outputs become hits. */
    method BlockGefunden(h: nat, ghost start: int, ghost tip: int)
      requires Valid(start, tip) && start <= h <= tip && h < |k|
      modifies this, buch
      ensures Valid(start, tip) && ereignisse == old(ereignisse) + [h] && hits == old(hits) + SkripteVon(N(k, h, w.Watched()))
    {
      var neu := buch.WendeAn(k[h], h, w.Watched());
      TreffervollWeiter(k, w, ereignisse, hits, h, start, tip);
      ereignisse := ereignisse + [h];
      hits := hits + SkripteVon(neu);
    }

    /** Searched for these scripts, stage by stage, and up to every used index if the gap rule holds. */
    ghost predicate Suchend(von: int, tv: int, tip: int, schon: set<Skript>, runde: nat)
      reads this
    {
      && Suchstand(k, w, ereignisse, hits, von, tv, tip, schon) && Stufe(k, w, von, tip, runde) <= schon
      && (Vorausgesetzt(k, w, von, tip) ==> BenutztBekannt(k, w, von, tip, schon, runde))
    }

    lemma Ergaenzt(a: set<Skript>, schon: set<Skript>, alle: set<Skript>)
      requires alle == schon + (a - schon)
      ensures a <= alle && schon <= alle
      ensures a - schon == {} ==> a <= schon
    {
      forall s | s in a ensures s in schon || s in a - schon {}
    }

    /** What the next scripts are good for: another stage, or all of them if there are none. */
    lemma NaechsteRunde(von: int, tv: int, tip: int, schon: set<Skript>, neue: set<Skript>, runde: nat)
      requires w.Valid() && tv == FensterVon(von, tip) && Suchend(von, tv, tip, schon, runde) && neue == w.Ziel(hits) - schon
      ensures neue == {} ==> Suchend(von, tv, tip, schon, w.maxIndex)
      ensures Stufe(k, w, von, tip, runde + 1) <= schon + neue
      ensures Vorausgesetzt(k, w, von, tip) ==> BenutztBekannt(k, w, von, tip, schon + neue, runde + 1)
    {
      hide PraefixFolge;
      Ergaenzt(w.Ziel(hits), schon, schon + neue);
      StufeWeiter(k, w, ereignisse, hits, von, tv, tip, schon, schon + neue, runde);
      if Vorausgesetzt(k, w, von, tip) {
        BenutztImZiel(k, w, ereignisse, hits, von, tv, tip, schon, runde);
        BekanntMehr(k, w, von, tip, w.Ziel(hits), schon + neue, runde + 1);
      }
      if neue == {} {
        StufeGanz(k, w, ereignisse, hits, von, tv, tip, schon, w.maxIndex);
        if Vorausgesetzt(k, w, von, tip) { AllesImZiel(k, w, ereignisse, hits, von, tv, tip, schon); }
      }
    }

    /** The history pass is repeated while hits push the prefix upward. */
    method Historie(trifft: (int, set<Skript>) -> bool, von: int, bis: int, ghost tv: int, ghost tip: int, ghost x: set<Skript>)
      returns (ghost schon: set<Skript>)
      requires Valid(von, tip) && w.Valid() && 0 <= von && bis + 1 == tv <= tip < |k| && FilterEhrlich(k, trifft)
      requires tv == FensterVon(von, tip) && Gesucht(k, ereignisse, tv, tip, w.Watched()) && Gehalten(trifft, von, tv, tip, x)
      modifies this, buch
      ensures Valid(von, tip) && Suchend(von, tv, tip, schon, w.maxIndex) && Gehalten(trifft, von, tv, tip, x)
    {
      hide PraefixFolge;
      var schonHist: set<Skript> := {};
      var runde := 0;
      while runde < w.maxIndex
        invariant 0 <= runde <= w.maxIndex && Valid(von, tip) && Gehalten(trifft, von, tv, tip, x)
        invariant Suchend(von, tv, tip, schonHist, runde)
        decreases w.maxIndex - runde
      {
        var neue := NaechsteHistorieScripts(w, hits, schonHist);
        NaechsteRunde(von, tv, tip, schonHist, neue, runde);
        if neue == {} { break; }
        ghost var ev := ereignisse;
        Filterpass(trifft, von, bis, neue, von, tv, tip, x);
        RundeGesucht(k, w, ev, ereignisse, von, tv, tip, schonHist, neue);
        schonHist := schonHist + neue;
        runde := runde + 1;
      }
      schon := schonHist;
    }

    /** The passes of a first scan: the newest window, then the history below it. */
    method Durchlaufe(trifft: (int, set<Skript>) -> bool, passe: seq<Pass>, start: int, end: int, ghost x: set<Skript>)
      returns (ghost schon: set<Skript>)
      requires w.Valid() && ereignisse == [] && hits == {} && 0 <= start <= end < |k| && FilterEhrlich(k, trifft)
      requires passe == PlaneFilterPasses(start, end, w.Watched(), {}, w.Anfang())
      modifies this, buch
      ensures Valid(start, end) && Gehalten(trifft, start, FensterVon(start, end), end, x)
      ensures Suchstand(k, w, ereignisse, hits, start, FensterVon(start, end), end, schon)
      ensures start < FensterVon(start, end) ==>
                Stufe(k, w, start, end, w.maxIndex) <= schon
                && (Vorausgesetzt(k, w, start, end) ==> BenutztBekannt(k, w, start, end, schon, w.maxIndex))
    {
      hide PraefixFolge;
      ghost var tv := FensterVon(start, end);
      schon := {};
      assert passe[0] == Pass(false, tv, end, w.Watched());
      Filterpass(trifft, passe[0].von, passe[0].bis, passe[0].scripts, start, tv, end, x);
      if |passe| > 1 {
        schon := Historie(trifft, passe[1].von, passe[1].bis, tv, end, x);
      }
    }

    /** With an exact filter the rebuild holds nothing outside a closed set of scripts. */
    lemma NichtsDraussen(trifft: (int, set<Skript>) -> bool, start: int, tv: int, tip: int, x: set<Skript>)
      requires Gueltig(k) && Hoehen(k, ereignisse) && Gehalten(trifft, start, tv, tip, x)
      ensures FilterGenau(k, trifft) && Huelle(k, w, start, tv, tip, x) ==>
                forall h, op :: Draussen(k, w, start, tv, x, h, op) ==> op !in Umgebaut(LEER, k, ereignisse, w.Watched()).verlauf
    {
      if Exakt(trifft, start, tv, tip, x) {
        forall h, op | Draussen(k, w, start, tv, x, h, op) ensures op !in Umgebaut(LEER, k, ereignisse, w.Watched()).verlauf {
          DraussenFehlt(k, w, start, tv, ereignisse, hits, x, h, op);
        }
      }
    }
  }

  /** All blocks from start to end, replayed. */
  ghost predicate Vollstaendig(k: Kette, w: Wallet, start: int, end: int, st: Stand) {
    && BereichSpielbar(k, start, end) && st == Gespielt(LEER, k, Bereich(start, end), w.Watched())
    && StandVon(st, LEER, k, Menge(Bereich(start, end)), w.Watched())
  }

  /** An output of the wallet below the newest window, in a block that touches none of the scripts. */
  ghost predicate Draussen(k: Kette, w: Wallet, start: int, tv: int, x: set<Skript>, h: int, op: Outpoint) {
    start <= h < tv && Bezahltes(k, w, h, op) && !BeruehrtEines(k, h, x)
  }

  lemma DraussenFehlt(k: Kette, w: Wallet, start: int, tv: int, ev: seq<int>, hits: set<Skript>, x: set<Skript>, h: int, op: Outpoint)
    requires Gueltig(k) && Hoehen(k, ev) && Drinnen(k, start, tv, ev, hits, x) && Draussen(k, w, start, tv, x, h, op)
    ensures op !in Umgebaut(LEER, k, ev, w.Watched()).verlauf
  {
    GueltigOrdentlich(k, w.Watched());
    UmgebautGenau(LEER, k, ev, w.Watched());
    StandAn(Umgebaut(LEER, k, ev, w.Watched()), LEER, k, Menge(ev), op, w.Watched());
    forall b | b in Menge(ev) && 0 <= b < |k| ensures op !in N(k, b, w.Watched()) {}
  }

  /** The state is the replay of a set of heights that holds at least what the passes had to find. */
  ghost predicate AusGelesenen(k: Kette, w: Wallet, start: int, end: int, st: Stand) {
    exists hs: set<int> :: Gelesen(k, w, start, end, hs) && StandVon(st, LEER, k, hs, w.Watched())
  }

  lemma FensterImVerlauf(k: Kette, w: Wallet, start: int, end: int, st: Stand)
    requires AusGelesenen(k, w, start, end, st)
    ensures ImVerlauf(k, w, FensterVon(start, end), end, st)
  {
    var hs: set<int> :| Gelesen(k, w, start, end, hs) && StandVon(st, LEER, k, hs, w.Watched());
    forall h, op | FensterVon(start, end) <= h <= end && Bezahltes(k, w, h, op) ensures op in st.verlauf {
      var s := BezahltBeruehrt(k, w, h, op);
      assert BeruehrtEines(k, h, w.Watched());
      StandAn(st, LEER, k, hs, op, w.Watched());
    }
  }

  /**
   * The first scan is complete. Every wallet, whatever its gaps, gets the replay of at least the blocks of the
   * newest window that touch it and of the blocks below that touch a stage of its growing prefix. For a wallet
   * whose prefix grows and that keeps the gap rule, the outputs and the history are those of a replay of ALL
   * blocks from start to end, although only blocks whose filter matched a watched prefix were read, newest
   * window first, and whether the history loop ends early or uses up its rounds. And it finds no more than
   * that: with an exact filter nothing outside a closed set of scripts.
   */
  method ScanErstmals(k: Kette, w: Wallet, trifft: (int, set<Skript>) -> bool, start: int, end: int, ghost x: set<Skript>) returns (st: Stand)
    requires Gueltig(k) && w.Valid() && 0 <= start && end < |k| && FilterEhrlich(k, trifft)
    ensures end < start ==> st == LEER
    ensures start <= end ==> AusGelesenen(k, w, start, end, st) && ImVerlauf(k, w, FensterVon(start, end), end, st)
    ensures start <= end && (!w.deskriptor || w.gapLimit == w.maxIndex) && GapRegel(k, w, start, end) ==> Vollstaendig(k, w, start, end, st)
    ensures start <= end && FilterGenau(k, trifft) && Huelle(k, w, start, FensterVon(start, end), end, x) ==>
              forall h, op :: Draussen(k, w, start, FensterVon(start, end), x, h, op) ==> op !in st.verlauf
  {
    var passe := PlaneFilterPasses(start, end, w.Watched(), {}, w.Anfang());
    if passe == [] { return LEER; }
    PraefixtreuGenau(w);
    var lauf := new Lauf(k, w);
    ghost var schon := lauf.Durchlaufe(trifft, passe, start, end, x);
    Abgeschlossen(k, w, lauf.ereignisse, lauf.hits, start, end, schon);
    lauf.NichtsDraussen(trifft, start, FensterVon(start, end), end, x);
    st := RebuildChronologisch(LEER, k, lauf.ereignisse, w.Watched());
  }

  /** What the rebuild of a completed search is. */
  lemma Abgeschlossen(k: Kette, w: Wallet, ev: seq<int>, hits: set<Skript>, start: int, end: int, schon: set<Skript>)
    requires Gueltig(k) && 0 <= start <= end < |k| && Hoehen(k, ev) && forall h :: h in ev ==> start <= h <= end
    requires Suchstand(k, w, ev, hits, start, FensterVon(start, end), end, schon)
    requires start < FensterVon(start, end) ==>
               Stufe(k, w, start, end, w.maxIndex) <= schon
               && (Vorausgesetzt(k, w, start, end) ==> BenutztBekannt(k, w, start, end, schon, w.maxIndex))
    ensures AusGelesenen(k, w, start, end, Umgebaut(LEER, k, ev, w.Watched()))
    ensures ImVerlauf(k, w, FensterVon(start, end), end, Umgebaut(LEER, k, ev, w.Watched()))
    ensures Vorausgesetzt(k, w, start, end) ==> Vollstaendig(k, w, start, end, Umgebaut(LEER, k, ev, w.Watched()))
  {
    SuchstandGelesen(k, w, ev, hits, start, end, schon);
    GueltigOrdentlich(k, w.Watched());
    UmgebautGenau(LEER, k, ev, w.Watched());
    FensterImVerlauf(k, w, start, end, Umgebaut(LEER, k, ev, w.Watched()));
    SortierteHoehen(k, ev);
    GleicheHoehen(ev, Sortiert(IntKleiner, ev));
    if Vorausgesetzt(k, w, start, end) {
      SucheVollstaendig(k, w, ev, Sortiert(IntKleiner, ev), hits, start, FensterVon(start, end), end, schon);
    }
  }

  lemma GleicheHoehen(a: seq<int>, b: seq<int>)
    requires Menge(a) == Menge(b)
    ensures forall h :: h in a <==> h in b
  {
    forall h ensures h in a <==> h in b { assert h in Menge(a) <==> h in Menge(b); }
  }

  // --------------------------------------------- descriptor wallets, whose prefix does not grow

  function Erster(w: Wallet): Skript { Eigen(w.xpub, 0, 0, 0) }

  function Folgender(w: Wallet): Skript { Eigen(w.xpub, 0, 0, w.gapLimit) }

  /** The first block pays index 0, the second one the index the gap limit allows next, a long pause follows. */
  function DeskriptorKette(w: Wallet): Kette { MitPause(Erster(w), Folgender(w)) }

  lemma DeskriptorGap(k: Kette, w: Wallet)
    requires w.Valid() && w.gapLimit < w.maxIndex && IstPause(k, Erster(w), Folgender(w))
    ensures GapRegel(k, w, 0, 2017) && Bezahltes(k, w, 1, ZWEITER)
  {
    assert w.Meins(Erster(w)) && w.Meins(Folgender(w));
    PauseBezahlt(k, Erster(w), Folgender(w), w.Watched());
    assert Bezahlt(k, w, 0, Outpoint("a", 0), 0, 0);
    forall c: nat, i: nat | Benutzt(k, w, 0, 2017, c, i)
      ensures i < w.gapLimit || exists j: nat :: j < i <= j + w.gapLimit && Benutzt(k, w, 0, 2017, c, j)
    {
      var h, op :| 0 <= h <= 2017 && Bezahlt(k, w, h, op, c, i);
      PauseZahlt(k, Erster(w), Folgender(w), h, op, w.Watched());
      assert Benutzt(k, w, 0, 2017, 0, 0);
    }
  }

  lemma DeskriptorHuelle(k: Kette, w: Wallet)
    requires w.Valid() && w.deskriptor && w.gapLimit < w.maxIndex && IstPause(k, Erster(w), Folgender(w))
    ensures Huelle(k, w, 0, 2, 2017, w.Anfang()) && !BeruehrtEines(k, 1, w.Anfang())
  {
    PauseUnberuehrt(k, Erster(w), Folgender(w), w.Anfang());
    forall h, op | 0 <= h <= 2017 && Bezahltes(k, w, h, op) ensures h == 1 || N(k, h, w.Watched())[op].skript in w.Anfang() {
      DeskriptorBezahlt(k, w, h, op);
    }
    forall hits | hits <= w.Anfang() ensures w.Ziel(hits) <= w.Anfang() {}
  }

  lemma DeskriptorBezahlt(k: Kette, w: Wallet, h: int, op: Outpoint)
    requires w.Valid() && IstPause(k, Erster(w), Folgender(w)) && Bezahltes(k, w, h, op)
    ensures h == 1 || N(k, h, w.Watched())[op].skript in w.Anfang()
  {
    PauseZahlt(k, Erster(w), Folgender(w), h, op, w.Watched());
    assert Erster(w) in w.Anfang();
  }

  lemma VollHatZweiten(k: Kette, w: Wallet)
    requires Gueltig(k) && |k| == 2018 && Bezahltes(k, w, 1, ZWEITER)
    ensures forall st :: Vollstaendig(k, w, 0, 2017, st) ==> ZWEITER in st.verlauf
  {
    BereichMenge(0, 2017);
    forall st | Vollstaendig(k, w, 0, 2017, st) ensures ZWEITER in st.verlauf {
      StandAn(st, LEER, k, Menge(Bereich(0, 2017)), ZWEITER, w.Watched());
      assert 1 in Menge(Bereich(0, 2017)) && Erzeugt(k, Menge(Bereich(0, 2017)), ZWEITER, w.Watched());
    }
  }

  /** Every descriptor wallet whose indices reach beyond the gap limit can keep the gap rule and still lose an output. */
  method DeskriptorVerfehlt(w: Wallet, trifft: (int, set<Skript>) -> bool) returns (st: Stand)
    requires w.Valid() && w.deskriptor && w.gapLimit < w.maxIndex && FilterGenau(DeskriptorKette(w), trifft)
    ensures Gueltig(DeskriptorKette(w)) && GapRegel(DeskriptorKette(w), w, 0, 2017) && Bezahltes(DeskriptorKette(w), w, 1, ZWEITER)
    ensures ZWEITER !in st.verlauf && !Vollstaendig(DeskriptorKette(w), w, 0, 2017, st)
  {
    var k := DeskriptorKette(w);
    assert IstPause(k, Erster(w), Folgender(w));
    PauseGueltig(k, Erster(w), Folgender(w));
    DeskriptorGap(k, w);
    DeskriptorHuelle(k, w);
    VollHatZweiten(k, w);
    GenauIstEhrlich(k, trifft);
    st := ScanErstmals(k, w, trifft, 0, 2017, w.Anfang());
    assert Draussen(k, w, 0, FensterVon(0, 2017), w.Anfang(), 1, ZWEITER);
  }
}
