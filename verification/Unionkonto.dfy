/** What a union scan leaves in one wallet (core/bip158_scan.py, `scan_union`, lines 1557-1745). */
module Unionkonto {
  import opened Ordnung
  import opened Kassenbuch
  import opened Wiedergabe
  import opened Luecke
  import opened Suchlauf
  import opened Union
  import opened Bekannt
  import opened Unionscan

  /** The wallet receives an output below the newest window, at h, and spends it inside, at x. */
  ghost predicate InsFenster(k: Kette, kt: Konto, end: int, op: Outpoint, h: int, x: int) {
    kt.start <= h < TurboVon(end) <= x <= end < |k| && op in N(k, h, kt.w.Watched()) && op in S(k, x)
  }

  ghost predicate InsFensterVerbraucht(k: Kette, kt: Konto, end: int, op: Outpoint) {
    exists h, x :: InsFenster(k, kt, end, op, h, x)
  }

  lemma VerpasstImFenster(k: Kette, kt: Konto, end: int, turbo: seq<int>, historie: seq<int>, op: Outpoint)
    requires end < |k| && (forall h :: h in turbo ==> TurboVon(end) <= h) && (forall h :: h in historie ==> h < TurboVon(end))
    requires Verpasst(k, Menge(Ab(kt, end, turbo)), Menge(Ab(kt, end, historie)), op, kt.w.Watched())
    ensures InsFensterVerbraucht(k, kt, end, op)
  {
    var h := ErzeugtBei(k, Menge(Ab(kt, end, historie)), op, kt.w.Watched());
    var x := AusgegebenBei(k, Menge(Ab(kt, end, turbo)), op);
    assert InsFenster(k, kt, end, op, h, x);
  }

  lemma ImFensterVerpasst(k: Kette, kt: Konto, end: int, turbo: seq<int>, historie: seq<int>, scripts: set<Skript>, op: Outpoint)
    requires end < |k| && (forall h :: h in turbo ==> TurboVon(end) <= h) && (forall h :: h in historie ==> h < TurboVon(end))
    requires NichtsNeues(k, kt, end, scripts) && Durchsucht(k, kt, end, turbo + historie, scripts)
    requires InsFensterVerbraucht(k, kt, end, op)
    ensures Verpasst(k, Menge(Ab(kt, end, turbo)), Menge(Ab(kt, end, historie)), op, kt.w.Watched())
  {
    var h, x :| InsFenster(k, kt, end, op, h, x);
    assert Wirksam(k, kt, end, h);
    BekanntGefunden(k, kt, end, turbo + historie, scripts, h);
    ImFensterGefunden(k, kt, end, turbo + historie, scripts, h, op, x);
    BeideAb(k, kt, end, turbo, historie, op, h, x);
  }

  lemma BeideAb(k: Kette, kt: Konto, end: int, turbo: seq<int>, historie: seq<int>, op: Outpoint, h: int, x: int)
    requires (forall h :: h in turbo ==> TurboVon(end) <= h) && (forall h :: h in historie ==> h < TurboVon(end))
    requires InsFenster(k, kt, end, op, h, x) && h in turbo + historie && x in turbo + historie
    ensures Verpasst(k, Menge(Ab(kt, end, turbo)), Menge(Ab(kt, end, historie)), op, kt.w.Watched())
  {
    assert h in historie && x in turbo;
    assert h in Menge(Ab(kt, end, historie)) && x in Menge(Ab(kt, end, turbo));
  }

  /** The state after streaming the window first and the history second. */
  function Gestroemt(k: Kette, kt: Konto, end: int, turbo: seq<int>, historie: seq<int>): Stand
    requires Hoehen(k, turbo) && Hoehen(k, historie)
  {
    AbHoehen(k, kt, end, turbo);
    AbHoehen(k, kt, end, historie);
    Gespielt(Gespielt(kt.seed, k, Ab(kt, end, turbo), kt.w.Watched()), k, Ab(kt, end, historie), kt.w.Watched())
  }

  lemma AbBeides(k: Kette, kt: Konto, end: int, turbo: seq<int>, historie: seq<int>)
    requires Spielbar(k, turbo) && (forall h :: h in turbo ==> TurboVon(end) <= h)
    requires Spielbar(k, historie) && (forall h :: h in historie ==> h < TurboVon(end))
    ensures Spielbar(k, Ab(kt, end, turbo)) && Spielbar(k, Ab(kt, end, historie)) && Spielbar(k, Ab(kt, end, historie) + Ab(kt, end, turbo))
    ensures forall h :: h in Ab(kt, end, historie) + Ab(kt, end, turbo) <==> h in turbo + historie && Aktiv(kt, end, h)
  {
    AbHoehen(k, kt, end, turbo);
    AbHoehen(k, kt, end, historie);
    AbAufsteigend(kt, end, turbo);
    AbAufsteigend(kt, end, historie);
    VerkettetAufsteigend(Ab(kt, end, historie), Ab(kt, end, turbo));
  }

  /**
   * A union of wallets that all have known scripts never rebuilds. Where nothing new hides below the newest
   * window, such a wallet ends in the state of a replay of all its blocks exactly when it spent nothing in the
   * window that it received below it; every output it did spend so stays in the stock as if unspent.
   */
  lemma BekannteOhneUmbau(k: Kette, kt: Konto, end: int, turbo: seq<int>, historie: seq<int>, scripts: set<Skript>)
    requires Gueltig(k) && kt.start <= end < |k| && SeedEcht(k, kt)
    requires NichtsNeues(k, kt, end, scripts) && Durchsucht(k, kt, end, turbo + historie, scripts)
    requires Spielbar(k, turbo) && (forall h :: h in turbo ==> TurboVon(end) <= h)
    requires Spielbar(k, historie) && (forall h :: h in historie ==> h < TurboVon(end))
    ensures AlleBloecke(k, kt, end, Gestroemt(k, kt, end, turbo, historie)) <==> forall op :: !InsFensterVerbraucht(k, kt, end, op)
    ensures kt.start >= TurboVon(end) ==> AlleBloecke(k, kt, end, Gestroemt(k, kt, end, turbo, historie))
    ensures forall op :: InsFensterVerbraucht(k, kt, end, op) ==>
              op in Gestroemt(k, kt, end, turbo, historie).bestand && op !in Voll(k, kt, end).bestand
  {
    var t, hi := Ab(kt, end, turbo), Ab(kt, end, historie);
    AbBeides(k, kt, end, turbo, historie);
    StromGenau(kt.seed, k, t, hi, kt.w.Watched());
    BekannteVollstaendig(k, kt, end, turbo + historie, scripts, hi + t);
    BereichGenau(k, kt.start, end);
    forall op ensures Verpasst(k, Menge(t), Menge(hi), op, kt.w.Watched()) <==> InsFensterVerbraucht(k, kt, end, op) {
      if Verpasst(k, Menge(t), Menge(hi), op, kt.w.Watched()) { VerpasstImFenster(k, kt, end, turbo, historie, op); }
      if InsFensterVerbraucht(k, kt, end, op) { ImFensterVerpasst(k, kt, end, turbo, historie, scripts, op); }
    }
  }

  /** Streamed or replayed, the wallet never learns what hides below the newest window. */
  lemma StromVerfehlt(k: Kette, kt: Konto, end: int, turbo: seq<int>, historie: seq<int>, scripts: set<Skript>)
    requires Gueltig(k) && kt.start <= end < |k| && SeedEcht(k, kt) && SeedBekannt(k, kt, scripts)
    requires NurGesuchte(k, kt, end, turbo + historie, scripts)
    requires Spielbar(k, turbo) && (forall h :: h in turbo ==> TurboVon(end) <= h)
    requires Spielbar(k, historie) && (forall h :: h in historie ==> h < TurboVon(end))
    ensures Verfehlt(k, kt, end, scripts, Gestroemt(k, kt, end, turbo, historie), Voll(k, kt, end))
  {
    var watched, t, hi := kt.w.Watched(), Ab(kt, end, turbo), Ab(kt, end, historie);
    GueltigOrdentlich(k, watched);
    AbBeides(k, kt, end, turbo, historie);
    var a := Gespielt(kt.seed, k, t, watched);
    var b := Gespielt(a, k, hi, watched);
    GespieltGenau(kt.seed, k, t, watched);
    GespieltGenau(a, k, hi, watched);
    VollGenau(k, kt, end);
    forall op ensures KenntNur(b, kt.seed, k, Menge(t) + Menge(hi), op, watched) {
      StandAn(a, kt.seed, k, Menge(t), op, watched);
      StandAn(b, a, k, Menge(hi), op, watched);
      StromKenntNur(a, b, kt.seed, k, Menge(t), Menge(hi), op, watched);
    }
    NeuesVerfehlt(k, kt, end, Menge(t) + Menge(hi), scripts, b, Voll(k, kt, end));
  }

  /** A first scan that keeps the gap rule. */
  ghost predicate ErstscanErlaubt(k: Kette, kt: Konto, end: int) {
    kt.Erstscan() && kt.w.Valid() && Praefixtreu(kt.w) && GapRegel(k, kt.w, kt.start, end) && kt.seed == LEER
  }

  /** A first scan among others still is complete. */
  lemma ErstscanVollstaendig(k: Kette, kt: Konto, end: int, ev: seq<int>, eigene: seq<int>, hits: set<Skript>, schon: set<Skript>)
    requires Gueltig(k) && kt.start <= end < |k| && ErstscanErlaubt(k, kt, end) && Treffervoll(k, kt.w, ev, hits, kt.start, end)
    requires Gesucht(k, ev, Spaeter(kt.start, TurboVon(end)), end, kt.w.Watched())
    requires Erstsuche(kt, end) ==> Fortschritt(k, kt, end, ev, hits, schon, kt.w.maxIndex)
    requires Spielbar(k, eigene) && forall h :: h in eigene <==> h in ev && Aktiv(kt, end, h)
    ensures AlleBloecke(k, kt, end, Gespielt(kt.seed, k, eigene, kt.w.Watched()))
  {
    if kt.start < TurboVon(end) {
      SucheVollstaendig(k, kt.w, ev, eigene, hits, kt.start, TurboVon(end), end, schon);
    } else {
      SucheVollstaendig(k, kt.w, ev, eigene, hits, kt.start, kt.start, end, {});
    }
  }

  /** The wallet's state is that of a rebuild of it alone, from the events at its own heights. */
  ghost predicate WieAllein(k: Kette, kt: Konto, end: int, ev: seq<int>, st: Stand) {
    Umbaubar(k, Ab(kt, end, ev)) && st == Umgebaut(kt.seed, k, Ab(kt, end, ev), kt.w.Watched())
  }

  ghost predicate WieGestroemt(k: Kette, kt: Konto, end: int, turbo: seq<int>, historie: seq<int>, st: Stand) {
    Spielbar(k, turbo) && Spielbar(k, historie) && st == Gestroemt(k, kt, end, turbo, historie)
  }

  lemma {:induction false} AbVerketten(kt: Konto, end: int, a: seq<int>, b: seq<int>)
    ensures Ab(kt, end, a + b) == Ab(kt, end, a) + Ab(kt, end, b)
  {
    if b == [] { assert a + b == a; } else {
      var vor, h := b[..|b| - 1], b[|b| - 1];
      AbVerketten(kt, end, a, vor);
      assert a + b == (a + vor) + [h] && b == vor + [h];
      AbSchritt(kt, end, a, vor, h);
    }
  }

  lemma AbSchritt(kt: Konto, end: int, a: seq<int>, vor: seq<int>, h: int)
    requires Ab(kt, end, a + vor) == Ab(kt, end, a) + Ab(kt, end, vor)
    ensures Ab(kt, end, (a + vor) + [h]) == Ab(kt, end, a) + Ab(kt, end, vor + [h])
  {
    AbWeiter(kt, end, a + vor, h);
    AbWeiter(kt, end, vor, h);
  }

  lemma {:induction false} GespieltVerketten(st: Stand, k: Kette, a: seq<int>, b: seq<int>, watched: set<Skript>)
    requires Hoehen(k, a) && Hoehen(k, b) && Hoehen(k, a + b)
    ensures Gespielt(st, k, a + b, watched) == Gespielt(Gespielt(st, k, a, watched), k, b, watched)
  {
    if b == [] { assert a + b == a; } else {
      GespieltVerketten(st, k, a, b[..|b| - 1], watched);
      assert (a + b)[..|a + b| - 1] == a + b[..|b| - 1];
    }
  }

  lemma StromAllein(k: Kette, kt: Konto, end: int, turbo: seq<int>, historie: seq<int>)
    requires Hoehen(k, turbo) && Hoehen(k, historie) && Hoehen(k, turbo + historie)
    ensures Allein(k, kt, end, turbo + historie) == Gestroemt(k, kt, end, turbo, historie)
  {
    AbVerketten(kt, end, turbo, historie);
    AbHoehen(k, kt, end, turbo);
    AbHoehen(k, kt, end, historie);
    AbHoehen(k, kt, end, turbo + historie);
    GespieltVerketten(kt.seed, k, Ab(kt, end, turbo), Ab(kt, end, historie), kt.w.Watched());
  }

  // ------------------------------------------------------------------- the result

  /** What a wallet with known scripts ends with: complete where nothing new hides and, without a rebuild, nothing was spent early. */
  ghost predicate BekanntesErgebnis(k: Kette, kt: Konto, end: int, umbau: bool, genau: bool, scripts: set<Skript>, st: Stand) {
    var rechtzeitig := umbau || forall op :: !InsFensterVerbraucht(k, kt, end, op);
    && (NichtsNeues(k, kt, end, scripts) ==> (AlleBloecke(k, kt, end, st) <==> rechtzeitig))
    && (genau && SeedBekannt(k, kt, scripts) ==> (AlleBloecke(k, kt, end, st) <==> NichtsNeues(k, kt, end, scripts) && rechtzeitig))
    && (genau && SeedBekannt(k, kt, scripts) && end < |k| ==> Verfehlt(k, kt, end, scripts, st, Voll(k, kt, end)))
  }

  /** What can be said before the scan: the scripts searched for are at least some and at most others. */
  ghost predicate Eingeschlossen(k: Kette, kt: Konto, end: int, umbau: bool, genau: bool, wenig: set<Skript>, viel: set<Skript>, st: Stand) {
    var rechtzeitig := umbau || forall op :: !InsFensterVerbraucht(k, kt, end, op);
    && (NichtsNeues(k, kt, end, wenig) ==> (AlleBloecke(k, kt, end, st) <==> rechtzeitig))
    && (genau && SeedBekannt(k, kt, wenig) && AlleBloecke(k, kt, end, st) ==> NichtsNeues(k, kt, end, viel) && rechtzeitig)
  }

  lemma EingeschlossenDazwischen(k: Kette, kt: Konto, end: int, umbau: bool, genau: bool, wenig: set<Skript>, scripts: set<Skript>, viel: set<Skript>, st: Stand)
    requires BekanntesErgebnis(k, kt, end, umbau, genau, scripts, st) && wenig <= scripts <= viel
    ensures Eingeschlossen(k, kt, end, umbau, genau, wenig, viel, st)
  {
    if NichtsNeues(k, kt, end, wenig) { NichtsNeuesMehr(k, kt, end, wenig, scripts); }
    if NichtsNeues(k, kt, end, scripts) { NichtsNeuesMehr(k, kt, end, scripts, viel); }
    if SeedBekannt(k, kt, wenig) { SeedBekanntMehr(k, kt, wenig, scripts); }
  }

  /** What the passes have searched for a wallet. */
  ghost predicate KontoDurchsucht(k: Kette, kt: Konto, end: int, ev: seq<int>, genau: bool, scripts: set<Skript>) {
    && (kt.start <= end ==> Durchsucht(k, kt, end, ev, scripts))
    && (kt.start <= end && genau ==> NurGesuchte(k, kt, end, ev, scripts))
  }

  /**
   * What was read for a wallet, whatever its gaps and its seed: all blocks that touch it in the newest window,
   * below it those that touch the scripts searched for, on a first scan the last stage of its prefix.
   */
  ghost predicate Gelesenes(k: Kette, kt: Konto, end: int, ev: seq<int>, genau: bool, scripts: set<Skript>, st: Stand) {
    && KontoDurchsucht(k, kt, end, ev, genau, scripts)
    && (Erstsuche(kt, end) ==> Gesucht(k, ev, kt.start, TurboVon(end) - 1, Stufe(k, kt.w, kt.start, end, kt.w.maxIndex)))
    && (kt.start <= end ==> ImVerlauf(k, kt.w, Spaeter(kt.start, TurboVon(end)), end, st))
  }

  lemma FensterEmpfangen(k: Kette, kt: Konto, end: int, ev: seq<int>, scripts: set<Skript>, eigene: seq<int>)
    requires kt.start <= end < |k| && Durchsucht(k, kt, end, ev, scripts)
    requires Hoehen(k, eigene) && forall h :: h in ev && Aktiv(kt, end, h) ==> h in eigene
    ensures ImVerlauf(k, kt.w, Spaeter(kt.start, TurboVon(end)), end, Gespielt(kt.seed, k, eigene, kt.w.Watched()))
  {
    forall h, op | Spaeter(kt.start, TurboVon(end)) <= h <= end && Bezahltes(k, kt.w, h, op)
      ensures op in Gespielt(kt.seed, k, eigene, kt.w.Watched()).verlauf
    {
      ImFensterGefunden(k, kt, end, ev, scripts, h, op, h);
      GespieltEnthaelt(kt.seed, k, eigene, h, op, kt.w.Watched());
    }
  }

  /** What a wallet ends with, whether or not the union rebuilds. */
  ghost predicate Ergebnis(k: Kette, kt: Konto, end: int, umbau: bool, genau: bool, turbo: seq<int>, historie: seq<int>, scripts: set<Skript>, st: Stand) {
    && (umbau ==> WieAllein(k, kt, end, turbo + historie, st))
    && (!umbau ==> WieGestroemt(k, kt, end, turbo, historie, st))
    && Gelesenes(k, kt, end, turbo + historie, genau, scripts, st)
    && (kt.start <= end && ErstscanErlaubt(k, kt, end) ==> AlleBloecke(k, kt, end, st))
    && (kt.start <= end && !kt.Erstscan() && SeedEcht(k, kt) ==> BekanntesErgebnis(k, kt, end, umbau, genau, scripts, st))
  }

  lemma BekannteMitUmbau(k: Kette, kt: Konto, end: int, ev: seq<int>, genau: bool, scripts: set<Skript>, eigene: seq<int>)
    requires Gueltig(k) && kt.start <= end < |k| && SeedEcht(k, kt) && KontoDurchsucht(k, kt, end, ev, genau, scripts)
    requires Spielbar(k, eigene) && forall h :: h in eigene <==> h in ev && Aktiv(kt, end, h)
    ensures BekanntesErgebnis(k, kt, end, true, genau, scripts, Gespielt(kt.seed, k, eigene, kt.w.Watched()))
  {
    BereichGenau(k, kt.start, end);
    if NichtsNeues(k, kt, end, scripts) { BekannteVollstaendig(k, kt, end, ev, scripts, eigene); }
    if genau && SeedBekannt(k, kt, scripts) { EreignisseVerfehlen(k, kt, end, ev, scripts, eigene); }
  }

  /** What one wallet of a union that rebuilds ends with. */
  lemma MitUmbau(k: Kette, kt: Konto, end: int, turbo: seq<int>, historie: seq<int>, hits: set<Skript>, schon: set<Skript>, genau: bool, scripts: set<Skript>)
    requires Gueltig(k) && end < |k| && kt.w.Valid() && Umbaubar(k, turbo + historie)
    requires Treffervoll(k, kt.w, turbo + historie, hits, kt.start, end) && KontoDurchsucht(k, kt, end, turbo + historie, genau, scripts)
    requires Erstsuche(kt, end) ==> Fortschritt(k, kt, end, turbo + historie, hits, schon, kt.w.maxIndex)
    ensures Ergebnis(k, kt, end, true, genau, turbo, historie, scripts, Allein(k, kt, end, Sortiert(IntKleiner, turbo + historie)))
  {
    var ev := turbo + historie;
    UmbauProjektion(k, kt, end, ev);
    var s := Sortiert(IntKleiner, ev);
    SortierteHoehen(k, ev);
    SortiertElemente(IntKleiner, ev);
    AbHoehen(k, kt, end, s);
    AbAufsteigend(kt, end, s);
    hide PraefixFolge;
    if kt.start <= end { FensterEmpfangen(k, kt, end, ev, scripts, Ab(kt, end, s)); }
    if kt.start <= end && ErstscanErlaubt(k, kt, end) { ErstscanVollstaendig(k, kt, end, ev, Ab(kt, end, s), hits, schon); }
    if kt.start <= end && !kt.Erstscan() && SeedEcht(k, kt) { BekannteMitUmbau(k, kt, end, ev, genau, scripts, Ab(kt, end, s)); }
  }

  lemma OhneUmbau(k: Kette, kt: Konto, end: int, turbo: seq<int>, historie: seq<int>, genau: bool, scripts: set<Skript>)
    requires Gueltig(k) && end < |k| && !kt.Erstscan() && Hoehen(k, turbo + historie) && KontoDurchsucht(k, kt, end, turbo + historie, genau, scripts)
    requires Spielbar(k, turbo) && (forall h :: h in turbo ==> TurboVon(end) <= h)
    requires Spielbar(k, historie) && (forall h :: h in historie ==> h < TurboVon(end))
    ensures Ergebnis(k, kt, end, false, genau, turbo, historie, scripts, Allein(k, kt, end, turbo + historie))
  {
    StromAllein(k, kt, end, turbo, historie);
    AbHoehen(k, kt, end, turbo + historie);
    if kt.start <= end { FensterEmpfangen(k, kt, end, turbo + historie, scripts, Ab(kt, end, turbo + historie)); }
    if kt.start <= end && SeedEcht(k, kt) {
      if NichtsNeues(k, kt, end, scripts) { BekannteOhneUmbau(k, kt, end, turbo, historie, scripts); }
      if genau && SeedBekannt(k, kt, scripts) { StromVerfehlt(k, kt, end, turbo, historie, scripts); }
    }
  }
}
