/** What a union scan leaves in each wallet (core/bip158_scan.py, `scan_union`, lines 1458-1766). */
module Unionergebnis {
  import opened Ordnung
  import opened Kassenbuch
  import opened Wiedergabe
  import opened Luecke
  import opened Suchlauf
  import opened Union
  import opened Bekannt
  import opened Unionscan
  import opened Unionkonto

  // ----------------------------------------------------------------- an example

  /** Received in the first of 2017 blocks, spent in the last one. */
  function ZweiWochen(): Kette {
    seq(2017, i requires 0 <= i < 2017 => Block(i, if i == 0 then [ERHALT] else if i == 2016 then [ABGANG] else []))
  }

  function KontoBeispiel(): Konto { Konto(Wallet(0, 1, 1, 1, 1, false), 0, {EIGENES}, {}, LEER) }

  predicate IstZweiWochen(k: Kette) {
    |k| == 2017 && k[0].txs == [ERHALT] && k[2016].txs == [ABGANG] && forall h :: 0 < h < 2016 ==> k[h].txs == []
  }

  lemma ZweiWochenGueltig(k: Kette)
    requires IstZweiWochen(k)
    ensures Gueltig(k)
  {
    forall h, i | Stelle(k, h, i) ensures i == 0 && ((h == 0 && k[h].txs[i] == ERHALT) || (h == 2016 && k[h].txs[i] == ABGANG)) {}
  }

  lemma ZweiWochenBewegt(k: Kette, watched: set<Skript>)
    requires IstZweiWochen(k) && EIGENES in watched
    ensures Outpoint("a", 0) in N(k, 0, watched) && Outpoint("a", 0) in S(k, 2016)
  {
    NeuEnthaelt(k[0].txs, 0, watched, 0, Outpoint("a", 0));
    SpentEnthaelt(k[2016].txs, 0, Outpoint("a", 0));
  }

  /** The wallet of the example keeps an output that its last block spent. */
  lemma ZweiWochenBeispiel()
    ensures Gueltig(ZweiWochen()) && SeedEcht(ZweiWochen(), KontoBeispiel())
    ensures NichtsNeues(ZweiWochen(), KontoBeispiel(), 2016, KontoBeispiel().used)
    ensures InsFensterVerbraucht(ZweiWochen(), KontoBeispiel(), 2016, Outpoint("a", 0))
  {
    var k, kt := ZweiWochen(), KontoBeispiel();
    assert IstZweiWochen(k) && kt.w.Meins(EIGENES);
    ZweiWochenGueltig(k);
    ZweiWochenBewegt(k, kt.w.Watched());
    ZweiWochenBewegt(k, {EIGENES});
    assert Beruehrt(k, 0, EIGENES) && BeruehrtEines(k, 0, kt.used);
    assert InsFenster(k, kt, 2016, Outpoint("a", 0), 0, 2016);
  }

  // -------------------------------------------------------------------- the scan

  /** The wallets as the scan prepares them. */
  function Vorbereitete(konten: seq<Konto>): (r: seq<Konto>)
    ensures |r| == |konten| && forall i :: 0 <= i < |r| ==> r[i] == konten[i].Vorbereitet()
  {
    seq(|konten|, i requires 0 <= i < |konten| => konten[i].Vorbereitet())
  }

  lemma VorbereiteteBrauchbar(roh: seq<Konto>)
    requires forall kt :: kt in roh ==> kt.w.Valid()
    ensures Brauchbar(Vorbereitete(roh))
  {
    forall kt | kt in Vorbereitete(roh) ensures kt.w.Valid() && kt.Historie() != {} {
      var i :| 0 <= i < |roh| && Vorbereitete(roh)[i] == kt;
      assert roh[i] in roh && kt.w == roh[i].w;
      assert Eigen(kt.w.xpub, 0, 0, 0) in kt.w.Anfang();
    }
  }

  ghost predicate Brauchbar(konten: seq<Konto>) { forall kt :: kt in konten ==> kt.w.Valid() && kt.Historie() != {} }

  /** The newest window was searched for every wallet. */
  ghost predicate FensterFertig(k: Kette, konten: seq<Konto>, end: int, ev: seq<int>) {
    forall kt :: kt in konten && kt.start <= end ==> Gesucht(k, ev, Spaeter(kt.start, TurboVon(end)), end, kt.w.Watched())
  }

  /** The history was searched for these scripts in every wallet that reaches there, and found nothing else. */
  ghost predicate HistorieFertig(k: Kette, konten: seq<Konto>, end: int, ev: seq<int>, historie: seq<int>, genau: bool, gesucht: set<Skript>) {
    && (forall kt :: kt in konten && kt.start <= end ==> Gesucht(k, ev, kt.start, TurboVon(end) - 1, gesucht))
    && (genau ==> forall h :: h in historie ==> BeruehrtEines(k, h, gesucht))
  }

  /** The known scripts of some wallet that reaches below the newest window, or those a first scan starts from there. */
  ghost predicate AusHistorie(konten: seq<Konto>, end: int, s: Skript) { exists kt :: kt in konten && InHistorie(kt, end) && s in kt.Historie() }

  ghost predicate AusErstscan(konten: seq<Konto>, s: Skript) { exists kt :: kt in konten && kt.Erstscan() && s in kt.w.Watched() }

  /** What the history is searched for: all the known scripts, and nothing beyond them but scripts of first scans. */
  ghost predicate Suchskripte(konten: seq<Konto>, end: int, gesucht: set<Skript>) {
    && (forall s :: AusHistorie(konten, end, s) ==> s in gesucht)
    && (forall s :: s in gesucht ==> AusHistorie(konten, end, s) || AusErstscan(konten, s))
  }

  /** All known scripts, and with them all scripts of first scans. */
  function BekannteSkripte(konten: seq<Konto>, end: int): (r: set<Skript>)
    ensures forall s :: s in r <==> AusHistorie(konten, end, s)
  {
    if konten == [] then {}
    else
      var vor, kt := konten[..|konten| - 1], konten[|konten| - 1];
      assert konten == vor + [kt];
      BekannteSkripte(vor, end) + if InHistorie(kt, end) then kt.Historie() else {}
  }

  function ErstscanSkripte(konten: seq<Konto>): (r: set<Skript>)
    ensures forall s :: s in r <==> AusErstscan(konten, s)
  {
    if konten == [] then {}
    else
      var vor, kt := konten[..|konten| - 1], konten[|konten| - 1];
      assert konten == vor + [kt];
      ErstscanSkripte(vor) + if kt.Erstscan() then kt.w.Watched() else {}
  }

  lemma GesuchtTeil(k: Kette, ev: seq<int>, von: int, bis: int, scripts: set<Skript>, von': int, teil: set<Skript>)
    requires Gesucht(k, ev, von, bis, scripts) && von <= von' && teil <= scripts
    ensures Gesucht(k, ev, von', bis, teil)
  {}

  lemma PlanFenster(k: Kette, konten: seq<Konto>, end: int, passe: seq<Pass>, ev: seq<int>)
    requires Plan(konten, end, passe) && passe != [] && Gesucht(k, ev, passe[0].von, passe[0].bis, passe[0].scripts)
    ensures FensterFertig(k, konten, end, ev)
  {
    forall kt | kt in konten && kt.start <= end ensures Gesucht(k, ev, Spaeter(kt.start, TurboVon(end)), end, kt.w.Watched()) {
      PlanKonto(konten, end, passe, kt);
      GesuchtTeil(k, ev, passe[0].von, end, passe[0].scripts, Spaeter(kt.start, TurboVon(end)), kt.w.Watched());
    }
  }

  lemma PlanHistorie(v: Verbund, trifft: (int, set<Skript>) -> bool, passe: seq<Pass>, historie: seq<int>, gesucht: set<Skript>)
    requires Plan(v.konten, v.end, passe) && Brauchbar(v.konten) && |passe| == 2 && v.HistorieStand(trifft, passe[1], historie, gesucht)
    ensures HistorieFertig(v.k, v.konten, v.end, v.ereignisse, historie, FilterGenau(v.k, trifft), gesucht)
    ensures Suchskripte(v.konten, v.end, gesucht)
  {
    forall kt | kt in v.konten && kt.start <= v.end ensures Gesucht(v.k, v.ereignisse, kt.start, TurboVon(v.end) - 1, gesucht) {
      PlanKonto(v.konten, v.end, passe, kt);
      if kt.start < TurboVon(v.end) {
        GesuchtTeil(v.k, v.ereignisse, passe[1].von, TurboVon(v.end) - 1, gesucht, kt.start, gesucht);
      }
    }
    PlanSkripte(v.konten, v.end, passe);
    forall s | s in gesucht ensures AusHistorie(v.konten, v.end, s) || AusErstscan(v.konten, s) {
      assert s in passe[1].scripts || v.AusErstscan(s);
    }
  }

  lemma PlanSkripte(konten: seq<Konto>, end: int, passe: seq<Pass>)
    requires Plan(konten, end, passe) && |passe| == 2
    ensures forall s :: s in passe[1].scripts <==> AusHistorie(konten, end, s)
  {
    forall s ensures s in passe[1].scripts <==> AusHistorie(konten, end, s) {
      if s in passe[1].scripts {
        var kt :| kt in konten && Historien(end)(kt) && s in HistorieScripts()(kt);
        assert InHistorie(kt, end) && s in kt.Historie();
      }
      if AusHistorie(konten, end, s) {
        var kt :| kt in konten && InHistorie(kt, end) && s in kt.Historie();
        assert Historien(end)(kt) && s in HistorieScripts()(kt);
      }
    }
  }

  /** A plan without a history has no wallet to search it for. */
  lemma OhneHistorie(k: Kette, konten: seq<Konto>, end: int, passe: seq<Pass>, ev: seq<int>, genau: bool)
    requires Plan(konten, end, passe) && |passe| < 2
    ensures HistorieFertig(k, konten, end, ev, [], genau, {}) && Suchskripte(konten, end, {})
  {
    forall s ensures !AusHistorie(konten, end, s) {
      if AusHistorie(konten, end, s) {
        var kt :| kt in konten && InHistorie(kt, end) && s in kt.Historie();
        PlanKonto(konten, end, passe, kt);
      }
    }
  }

  /** After the newest window a first scan stands before its first history round. */
  lemma VorDerHistorie(k: Kette, kt: Konto, end: int, ev: seq<int>, hits: set<Skript>)
    requires Erstsuche(kt, end) && Treffervoll(k, kt.w, ev, hits, kt.start, end)
    requires Gesucht(k, ev, Spaeter(kt.start, TurboVon(end)), end, kt.w.Watched())
    ensures Fortschritt(k, kt, end, ev, hits, {}, 0)
  {}

  /** The newest-window pass of the plan. */
  method Fensterlauf(v: Verbund, trifft: (int, set<Skript>) -> bool, p: Pass, ghost passe: seq<Pass>) returns (turbo: seq<int>)
    requires v.Valid() && v.ereignisse == [] && Gueltig(v.k) && FilterEhrlich(v.k, trifft) && Brauchbar(v.konten)
    requires Plan(v.konten, v.end, passe) && passe != [] && p == passe[0] && p.von >= TurboVon(v.end)
    modifies v
    ensures v.Valid() && v.ereignisse == turbo && ImBereich(v.k, turbo, TurboVon(v.end), v.end)
    ensures FensterFertig(v.k, v.konten, v.end, v.ereignisse) && v.AlleSuchen(seq(|v.konten|, i => {}), 0)
  {
    hide PraefixFolge;
    turbo := v.UnionPass(trifft, p.von, p.bis, p.scripts);
    assert [] + turbo == turbo;
    PlanFenster(v.k, v.konten, v.end, passe, turbo);
    forall i | 0 <= i < |v.konten| && Erstsuche(v.konten[i], v.end)
      ensures Fortschritt(v.k, v.konten[i], v.end, v.ereignisse, v.hits[i], {}, 0)
    {
      assert v.konten[i] in v.konten && v.konten[i].start <= v.end;
      assert KontoGut(v.k, v.konten[i], v.end, v.ereignisse, v.staende[i], v.hits[i]);
      VorDerHistorie(v.k, v.konten[i], v.end, v.ereignisse, v.hits[i]);
    }
  }

  lemma HistorieMoeglich(v: Verbund, passe: seq<Pass>)
    requires Plan(v.konten, v.end, passe) && |passe| == 2 && Brauchbar(v.konten) && v.end < |v.k|
    ensures v.HistorieErlaubt(passe[1]) && passe[1].scripts != {}
  {
    forall kt | kt in v.konten && Erstsuche(kt, v.end) ensures passe[1].von <= kt.start { PlanKonto(v.konten, v.end, passe, kt); }
    var x :| x in v.konten && Historien(v.end)(x) && passe[1].von == Start()(x);
    PlanKonto(v.konten, v.end, passe, x);
    var s :| s in x.Historie();
    assert s in passe[1].scripts;
  }

  /** The history pass of the plan, if it has one. */
  method Historienlauf(v: Verbund, trifft: (int, set<Skript>) -> bool, passe: seq<Pass>)
    returns (historie: seq<int>, ghost schon: seq<set<Skript>>, gesucht: set<Skript>)
    requires v.Valid() && Gueltig(v.k) && FilterEhrlich(v.k, trifft) && Brauchbar(v.konten)
    requires Plan(v.konten, v.end, passe) && v.AlleSuchen(seq(|v.konten|, i => {}), 0)
    modifies v
    ensures v.Valid() && v.ereignisse == old(v.ereignisse) + historie && forall h :: h in historie ==> 0 <= h < TurboVon(v.end)
    ensures v.Bekannte() ==> Spielbar(v.k, historie)
    ensures |schon| == |v.konten| && v.AlleFertig(schon) && Suchskripte(v.konten, v.end, gesucht)
    ensures HistorieFertig(v.k, v.konten, v.end, v.ereignisse, historie, FilterGenau(v.k, trifft), gesucht)
  {
    hide PraefixFolge;
    historie, schon, gesucht := [], seq(|v.konten|, i => {}), {};
    if |passe| == 2 {
      HistorieMoeglich(v, passe);
      schon, historie, gesucht := v.Historie(trifft, passe[1]);
      PlanHistorie(v, trifft, passe, historie, gesucht);
    } else {
      assert v.ereignisse + [] == v.ereignisse;
      KeineErstsuche(v.konten, v.end, passe);
      OhneHistorie(v.k, v.konten, v.end, passe, v.ereignisse, FilterGenau(v.k, trifft));
    }
  }

  lemma KeineErstsuche(konten: seq<Konto>, end: int, passe: seq<Pass>)
    requires Plan(konten, end, passe) && |passe| < 2 && Brauchbar(konten)
    ensures forall kt :: kt in konten ==> !Erstsuche(kt, end)
  {
    hide Plan;
    forall kt | kt in konten ensures !Erstsuche(kt, end) {
      if kt.start < TurboVon(end) { PlanKonto(konten, end, passe, kt); }
    }
  }

  // ----------------------------------------------------------------- the results

  /** One wallet when the passes are over. */
  ghost predicate KontoFertig(k: Kette, kt: Konto, end: int, ev: seq<int>, genau: bool, gesucht: set<Skript>, st: Stand, hits: set<Skript>, schon: set<Skript>) {
    && KontoGut(k, kt, end, ev, st, hits) && KontoDurchsucht(k, kt, end, ev, genau, gesucht)
    && (Erstsuche(kt, end) ==> Fortschritt(k, kt, end, ev, hits, schon, kt.w.maxIndex))
  }

  lemma KontoErgebnis(k: Kette, kt: Konto, end: int, turbo: seq<int>, historie: seq<int>, genau: bool, gesucht: set<Skript>,
                      st: Stand, hits: set<Skript>, schon: set<Skript>, umbau: bool)
    requires Gueltig(k) && end < |k| && kt.w.Valid() && Hoehen(k, turbo + historie)
    requires KontoFertig(k, kt, end, turbo + historie, genau, gesucht, st, hits, schon)
    requires Spielbar(k, turbo) && (forall h :: h in turbo ==> TurboVon(end) <= h)
    requires forall h :: h in historie ==> h < TurboVon(end)
    requires !umbau ==> !kt.Erstscan() && Spielbar(k, historie)
    ensures umbau ==> Umbaubar(k, turbo + historie)
                      && Ergebnis(k, kt, end, umbau, genau, turbo, historie, gesucht, Allein(k, kt, end, Sortiert(IntKleiner, turbo + historie)))
    ensures !umbau ==> Ergebnis(k, kt, end, umbau, genau, turbo, historie, gesucht, st)
  {
    if umbau {
      SortierteHoehen(k, turbo + historie);
      MitUmbau(k, kt, end, turbo, historie, hits, schon, genau, gesucht);
    } else {
      OhneUmbau(k, kt, end, turbo, historie, genau, gesucht);
    }
  }

  ghost predicate AlleKontenFertig(v: Verbund, genau: bool, gesucht: set<Skript>, schon: seq<set<Skript>>)
    reads v
  {
    && v.Formen() && |schon| == |v.konten|
    && forall i :: 0 <= i < |v.konten| ==>
         KontoFertig(v.k, v.konten[i], v.end, v.ereignisse, genau, gesucht, v.staende[i], v.hits[i], schon[i])
  }

  lemma AllesDurchsucht(k: Kette, konten: seq<Konto>, end: int, turbo: seq<int>, historie: seq<int>, genau: bool, gesucht: set<Skript>, kt: Konto)
    requires kt in konten && FensterFertig(k, konten, end, turbo) && (forall h :: h in turbo ==> TurboVon(end) <= h)
    requires HistorieFertig(k, konten, end, turbo + historie, historie, genau, gesucht)
    ensures KontoDurchsucht(k, kt, end, turbo + historie, genau, gesucht)
  {
    if kt.start <= end {
      GesuchtMehr(k, turbo, turbo + historie, Spaeter(kt.start, TurboVon(end)), end, kt.w.Watched());
    }
  }

  /** Both passes, newest window first. */
  method Durchlauf(v: Verbund, trifft: (int, set<Skript>) -> bool)
    returns (turbo: seq<int>, historie: seq<int>, ghost schon: seq<set<Skript>>, gesucht: set<Skript>)
    requires v.Valid() && v.ereignisse == [] && Gueltig(v.k) && FilterEhrlich(v.k, trifft) && Brauchbar(v.konten)
    requires exists kt :: kt in v.konten && kt.start <= v.end
    modifies v
    ensures AlleKontenFertig(v, FilterGenau(v.k, trifft), gesucht, schon) && Suchskripte(v.konten, v.end, gesucht)
    ensures v.ereignisse == turbo + historie && ImBereich(v.k, turbo, TurboVon(v.end), v.end)
    ensures (forall h :: h in historie ==> h < TurboVon(v.end)) && (v.Bekannte() ==> Spielbar(v.k, historie))
  {
    var passe := PlaneUnionPasses(v.konten, v.end);
    ghost var kt :| kt in v.konten && kt.start <= v.end;
    PlanKonto(v.konten, v.end, passe, kt);
    turbo := Fensterlauf(v, trifft, passe[0], passe);
    historie, schon, gesucht := Historienlauf(v, trifft, passe);
    ghost var genau := FilterGenau(v.k, trifft);
    forall i | 0 <= i < |v.konten|
      ensures KontoFertig(v.k, v.konten[i], v.end, v.ereignisse, genau, gesucht, v.staende[i], v.hits[i], schon[i])
    {
      AllesDurchsucht(v.k, v.konten, v.end, turbo, historie, genau, gesucht, v.konten[i]);
    }
  }

  /** Whether some block has to be replayed at the end: some wallet is scanned for the first time. */
  predicate Umbau(konten: seq<Konto>) { exists kt :: kt in konten && kt.Erstscan() }

  predicate AlleSpaeter(konten: seq<Konto>, end: int) { forall kt :: kt in konten ==> end < kt.start }

  ghost predicate Ergebnisse(k: Kette, konten: seq<Konto>, end: int, genau: bool, turbo: seq<int>, historie: seq<int>,
                             gesucht: set<Skript>, staende: seq<Stand>) {
    && |staende| == |konten|
    && forall i :: 0 <= i < |konten| ==> Ergebnis(k, konten[i], end, Umbau(konten), genau, turbo, historie, gesucht, staende[i])
  }

  /** The end of the scan: the rebuild, unless all wallets have known scripts. */
  method Abschluss(v: Verbund, turbo: seq<int>, historie: seq<int>, ghost genau: bool, ghost gesucht: set<Skript>, ghost schon: seq<set<Skript>>)
    requires AlleKontenFertig(v, genau, gesucht, schon) && v.ereignisse == turbo + historie && Gueltig(v.k)
    requires ImBereich(v.k, turbo, TurboVon(v.end), v.end)
    requires (forall h :: h in historie ==> h < TurboVon(v.end)) && (v.Bekannte() ==> Spielbar(v.k, historie))
    requires Brauchbar(v.konten) && Hoehen(v.k, v.ereignisse)
    modifies v
    ensures Ergebnisse(v.k, v.konten, v.end, genau, turbo, historie, gesucht, v.staende)
  {
    ghost var st, hits := v.staende, v.hits;
    if Umbau(v.konten) { v.Rebuild(); }
    forall i | 0 <= i < |v.konten| ensures Ergebnis(v.k, v.konten[i], v.end, Umbau(v.konten), genau, turbo, historie, gesucht, v.staende[i]) {
      assert KontoFertig(v.k, v.konten[i], v.end, turbo + historie, genau, gesucht, st[i], hits[i], schon[i]);
      KontoErgebnis(v.k, v.konten[i], v.end, turbo, historie, genau, gesucht, st[i], hits[i], schon[i], Umbau(v.konten));
    }
  }

  lemma SpaeterVorbereitet(roh: seq<Konto>, end: int)
    ensures AlleSpaeter(Vorbereitete(roh), end) <==> forall kt :: kt in roh ==> end < kt.start
  {
    forall kt | kt in roh ensures kt.Vorbereitet() in Vorbereitete(roh) && kt.Vorbereitet().start == kt.start {
      var i :| 0 <= i < |roh| && roh[i] == kt;
      assert Vorbereitete(roh)[i] == kt.Vorbereitet();
    }
    if forall kt :: kt in roh ==> end < kt.start {
      forall kt | kt in Vorbereitete(roh) ensures end < kt.start {
        var i :| 0 <= i < |roh| && Vorbereitete(roh)[i] == kt;
        assert roh[i] in roh;
      }
    }
  }

  /**
   * A union scan. When some wallet is scanned for the first time the kept blocks are replayed at the end:
   * every wallet ends as if scanned alone, and first scans completely. When all wallets have known scripts
   * they are not. A wallet with known scripts ends completely only where nothing new hides below the window:
   * the known scripts are enough for that, and those of the first scans with them are necessary.
   */
  method ScanUnion(k: Kette, roh: seq<Konto>, trifft: (int, set<Skript>) -> bool, end: int)
    returns (staende: seq<Stand>, turbo: seq<int>, historie: seq<int>, gesucht: set<Skript>)
    requires Gueltig(k) && end < |k| && FilterEhrlich(k, trifft) && forall kt :: kt in roh ==> kt.w.Valid()
    ensures (forall kt :: kt in roh ==> end < kt.start) ==> staende == seq(|roh|, i => LEER)
    ensures (exists kt :: kt in roh && kt.start <= end) ==>
              Suchskripte(Vorbereitete(roh), end, gesucht) && AlleEingeschlossen(k, Vorbereitete(roh), end, FilterGenau(k, trifft), staende)
              && Ergebnisse(k, Vorbereitete(roh), end, FilterGenau(k, trifft), turbo, historie, gesucht, staende)
  {
    var konten := Vorbereitete(roh);
    VorbereiteteBrauchbar(roh);
    SpaeterVorbereitet(roh, end);
    if AlleSpaeter(konten, end) { return seq(|roh|, i => LEER), [], [], {}; }
    var v := new Verbund(k, konten, end);
    ghost var schon;
    turbo, historie, schon, gesucht := Durchlauf(v, trifft);
    assert v.konten != [] && KontoFertig(k, konten[0], end, v.ereignisse, FilterGenau(k, trifft), gesucht, v.staende[0], v.hits[0], schon[0]);
    Abschluss(v, turbo, historie, FilterGenau(k, trifft), gesucht, schon);
    staende := v.staende;
    SindEingeschlossen(k, konten, end, FilterGenau(k, trifft), turbo, historie, gesucht, staende);
  }

  /** For every wallet with known scripts, whatever the scan has searched for. */
  ghost predicate AlleEingeschlossen(k: Kette, konten: seq<Konto>, end: int, genau: bool, staende: seq<Stand>) {
    && |staende| == |konten|
    && forall i :: 0 <= i < |konten| && konten[i].start <= end && !konten[i].Erstscan() && SeedEcht(k, konten[i]) ==>
         Eingeschlossen(k, konten[i], end, Umbau(konten), genau, BekannteSkripte(konten, end), BekannteSkripte(konten, end) + ErstscanSkripte(konten), staende[i])
  }

  lemma SindEingeschlossen(k: Kette, konten: seq<Konto>, end: int, genau: bool, turbo: seq<int>, historie: seq<int>, gesucht: set<Skript>, staende: seq<Stand>)
    requires Suchskripte(konten, end, gesucht) && Ergebnisse(k, konten, end, genau, turbo, historie, gesucht, staende)
    ensures AlleEingeschlossen(k, konten, end, genau, staende)
  {
    forall i | 0 <= i < |konten| && konten[i].start <= end && !konten[i].Erstscan() && SeedEcht(k, konten[i])
      ensures Eingeschlossen(k, konten[i], end, Umbau(konten), genau, BekannteSkripte(konten, end), BekannteSkripte(konten, end) + ErstscanSkripte(konten), staende[i])
    {
      assert Ergebnis(k, konten[i], end, Umbau(konten), genau, turbo, historie, gesucht, staende[i]);
      EingeschlossenDazwischen(k, konten[i], end, Umbau(konten), genau, BekannteSkripte(konten, end), gesucht,
                               BekannteSkripte(konten, end) + ErstscanSkripte(konten), staende[i]);
    }
  }
}
