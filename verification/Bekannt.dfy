/** Scanning old heights for known scripts only (core/bip158_scan.py, lines 242-271; core/bip158_wallet.py, lines 364-407). */
module Bekannt {
  import opened Ordnung
  import opened Kassenbuch
  import opened Wiedergabe
  import opened Luecke
  import opened Suchlauf
  import opened Union

  /** What the chain spends of the seed it has created as well; outputs of replaced blocks may stand in the seed unspent. */
  ghost predicate SeedEcht(k: Kette, kt: Konto) {
    forall h, op :: (op in kt.seed.bestand || op in kt.seed.verlauf) && 0 <= h < |k| && op in S(k, h) ==> Irgendwo(k, op, kt.w.Watched())
  }

  /** Some block of the chain has created the output. */
  ghost predicate Irgendwo(k: Kette, op: Outpoint, watched: set<Skript>) { exists h :: 0 <= h < |k| && op in N(k, h, watched) }

  /** The scripts of all seeded outputs are among these: the known ones are the addresses of the cached stock and history. */
  ghost predicate SeedBekannt(k: Kette, kt: Konto, scripts: set<Skript>) {
    forall h, op :: (op in kt.seed.bestand || op in kt.seed.verlauf) && 0 <= h < |k| && op in N(k, h, kt.w.Watched()) ==>
      N(k, h, kt.w.Watched())[op].skript in scripts
  }

  /** With an exact filter, all these events touch one of these scripts. */
  ghost predicate NurTreffer(k: Kette, trifft: (int, set<Skript>) -> bool, ev: seq<int>, scripts: set<Skript>) {
    FilterGenau(k, trifft) ==> forall h :: h in ev ==> BeruehrtEines(k, h, scripts)
  }

  lemma EinTreffer(k: Kette, trifft: (int, set<Skript>) -> bool, h: int, scripts: set<Skript>)
    requires trifft(h, scripts)
    ensures NurTreffer(k, trifft, [h], scripts)
  {}

  lemma MehrTreffer(k: Kette, trifft: (int, set<Skript>) -> bool, a: seq<int>, sa: set<Skript>, b: seq<int>, sb: set<Skript>)
    requires NurTreffer(k, trifft, a, sa) && NurTreffer(k, trifft, b, sb)
    ensures NurTreffer(k, trifft, a + b, sa + sb)
  {
    if FilterGenau(k, trifft) {
      forall h | h in a + b ensures BeruehrtEines(k, h, sa + sb) {
        if h in a { var s :| s in sa && Beruehrt(k, h, s); assert s in sa + sb; }
        else { var s :| s in sb && Beruehrt(k, h, s); assert s in sa + sb; }
      }
    }
  }

  lemma GesuchtVereint(k: Kette, ev: seq<int>, von: int, bis: int, a: set<Skript>, b: set<Skript>)
    requires Gesucht(k, ev, von, bis, a) && Gesucht(k, ev, von, bis, b)
    ensures Gesucht(k, ev, von, bis, a + b)
  {}

  /** The block pays the wallet or spends what it has, from the seed or from the scanned heights. */
  ghost predicate Wirksam(k: Kette, kt: Konto, end: int, h: int) {
    0 <= h < |k| && !FalschPositiv(kt.seed, k, Menge(Bereich(kt.start, end)), h, kt.w.Watched())
  }

  /** Below the newest window every block that changes the wallet also touches one of these scripts. */
  ghost predicate NichtsNeues(k: Kette, kt: Konto, end: int, scripts: set<Skript>) {
    forall h :: kt.start <= h < TurboVon(end) && Wirksam(k, kt, end, h) ==> BeruehrtEines(k, h, scripts)
  }

  lemma NichtsNeuesMehr(k: Kette, kt: Konto, end: int, scripts: set<Skript>, mehr: set<Skript>)
    requires NichtsNeues(k, kt, end, scripts) && scripts <= mehr
    ensures NichtsNeues(k, kt, end, mehr)
  {
    forall h | kt.start <= h < TurboVon(end) && Wirksam(k, kt, end, h) ensures BeruehrtEines(k, h, mehr) { BeruehrtMehr(k, h, scripts, mehr); }
  }

  lemma SeedBekanntMehr(k: Kette, kt: Konto, scripts: set<Skript>, mehr: set<Skript>)
    requires SeedBekannt(k, kt, scripts) && scripts <= mehr
    ensures SeedBekannt(k, kt, mehr)
  {}

  /** A start inside the newest window leaves nothing to known scripts. */
  lemma ImFensterNichtsNeues(k: Kette, kt: Konto, end: int, scripts: set<Skript>)
    requires end - TURBO_WINDOW + 1 <= kt.start
    ensures NichtsNeues(k, kt, end, scripts)
  {}

  /** Old heights were searched for some scripts, the newest window for all of the wallet's. */
  ghost predicate Durchsucht(k: Kette, kt: Konto, end: int, ev: seq<int>, scripts: set<Skript>) {
    && Gesucht(k, ev, kt.start, TurboVon(end) - 1, scripts)
    && Gesucht(k, ev, Spaeter(kt.start, TurboVon(end)), end, kt.w.Watched())
  }

  /** Below the window only blocks that touch one of the scripts are among the events. */
  ghost predicate NurGesuchte(k: Kette, kt: Konto, end: int, ev: seq<int>, scripts: set<Skript>) {
    forall h :: h in ev && kt.start <= h < TurboVon(end) ==> BeruehrtEines(k, h, scripts)
  }

  lemma WenigerHoehen(seed: Stand, k: Kette, hs: set<int>, alle: set<int>, h: int, watched: set<Skript>)
    requires hs <= alle && FalschPositiv(seed, k, alle, h, watched)
    ensures FalschPositiv(seed, k, hs, h, watched)
  {
    forall op | op in S(k, h) ensures !Erzeugt(k, hs, op, watched) {
      forall x | x in hs && 0 <= x < |k| ensures op !in N(k, x, watched) { assert x in alle && !Erzeugt(k, alle, op, watched); }
    }
  }

  /** In the newest window a block with an output of the wallet, or spending one, is among the events. */
  lemma ImFensterGefunden(k: Kette, kt: Konto, end: int, ev: seq<int>, scripts: set<Skript>, h': nat, op: Outpoint, h: nat)
    requires Durchsucht(k, kt, end, ev, scripts) && kt.start <= h && TurboVon(end) <= h <= end < |k|
    requires h' < |k| && op in N(k, h', kt.w.Watched()) && (h == h' || op in S(k, h))
    ensures h in ev
  {
    var s := BezahltBeruehrt(k, kt.w, h', op);
    assert Beruehrt(k, h, s);
  }

  /** Where a seeded output that the chain spends was created. */
  ghost function SeedHoehe(k: Kette, kt: Konto, x: nat, op: Outpoint): (h: nat)
    requires SeedEcht(k, kt) && (op in kt.seed.bestand || op in kt.seed.verlauf) && x < |k| && op in S(k, x)
    ensures h < |k| && op in N(k, h, kt.w.Watched())
  {
    assert Irgendwo(k, op, kt.w.Watched());
    var h :| 0 <= h < |k| && op in N(k, h, kt.w.Watched()); h
  }

  lemma ImFensterUnwirksam(k: Kette, kt: Konto, end: int, ev: seq<int>, scripts: set<Skript>, h: nat)
    requires SeedEcht(k, kt) && Durchsucht(k, kt, end, ev, scripts) && kt.start <= h && TurboVon(end) <= h <= end < |k| && h !in ev
    ensures FalschPositiv(kt.seed, k, Menge(Bereich(kt.start, end)), h, kt.w.Watched())
  {
    var watched, alle := kt.w.Watched(), Menge(Bereich(kt.start, end));
    forall op ensures op !in N(k, h, watched) {
      if op in N(k, h, watched) { ImFensterGefunden(k, kt, end, ev, scripts, h, op, h); }
    }
    forall op | op in S(k, h) ensures op !in kt.seed.bestand && op !in kt.seed.verlauf && !Erzeugt(k, alle, op, watched) {
      if op in kt.seed.bestand || op in kt.seed.verlauf {
        ImFensterGefunden(k, kt, end, ev, scripts, SeedHoehe(k, kt, h, op), op, h);
      } else if Erzeugt(k, alle, op, watched) {
        ImFensterGefunden(k, kt, end, ev, scripts, ErzeugtBei(k, alle, op, watched), op, h);
      }
    }
  }

  lemma BekanntGefunden(k: Kette, kt: Konto, end: int, ev: seq<int>, scripts: set<Skript>, h: nat)
    requires Durchsucht(k, kt, end, ev, scripts) && kt.start <= h < TurboVon(end) && BeruehrtEines(k, h, scripts)
    ensures h in ev
  {
    var s :| s in scripts && Beruehrt(k, h, s);
  }

  lemma NichtsUebersehen(k: Kette, kt: Konto, end: int, ev: seq<int>, scripts: set<Skript>, h: nat)
    requires NichtsNeues(k, kt, end, scripts) && SeedEcht(k, kt) && Durchsucht(k, kt, end, ev, scripts)
    requires kt.start <= h <= end < |k| && h !in ev
    ensures FalschPositiv(kt.seed, k, Menge(Bereich(kt.start, end)), h, kt.w.Watched())
  {
    if h >= TurboVon(end) {
      ImFensterUnwirksam(k, kt, end, ev, scripts, h);
    } else if Wirksam(k, kt, end, h) {
      BekanntGefunden(k, kt, end, ev, scripts, h);
    }
  }

  /** Replaying the events is replaying all blocks, where nothing new hides below the window. */
  lemma BekannteVollstaendig(k: Kette, kt: Konto, end: int, ev: seq<int>, scripts: set<Skript>, eigene: seq<int>)
    requires Gueltig(k) && end < |k| && NichtsNeues(k, kt, end, scripts) && SeedEcht(k, kt) && Durchsucht(k, kt, end, ev, scripts)
    requires Spielbar(k, eigene) && forall h :: h in eigene <==> h in ev && Aktiv(kt, end, h)
    ensures AlleBloecke(k, kt, end, Gespielt(kt.seed, k, eigene, kt.w.Watched()))
  {
    var watched, alle := kt.w.Watched(), Bereich(kt.start, end);
    GueltigOrdentlich(k, watched);
    BereichGenau(k, kt.start, end);
    assert Menge(eigene) <= Menge(alle);
    forall h | h in Menge(alle) - Menge(eigene) ensures FalschPositiv(kt.seed, k, Menge(eigene), h, watched) {
      NichtsUebersehen(k, kt, end, ev, scripts, h);
      WenigerHoehen(kt.seed, k, Menge(eigene), Menge(alle), h, watched);
    }
    VollGenau(k, kt, end);
    GespieltGenau(kt.seed, k, eigene, watched);
    StandOhneFalschPositive(Voll(k, kt, end), kt.seed, k, Menge(eigene), Menge(alle), watched);
    StandEindeutig(Gespielt(kt.seed, k, eigene, watched), Voll(k, kt, end), kt.seed, k, Menge(eigene), watched);
  }

  /** The state of a replay of all blocks from the wallet's start. */
  function Voll(k: Kette, kt: Konto, end: int): Stand
    requires end < |k|
  {
    BereichGenau(k, kt.start, end);
    Gespielt(kt.seed, k, Bereich(kt.start, end), kt.w.Watched())
  }

  ghost predicate AlleBloecke(k: Kette, kt: Konto, end: int, st: Stand) { end < |k| && st == Voll(k, kt, end) }

  lemma VollGenau(k: Kette, kt: Konto, end: int)
    requires Ordentlich(k, kt.w.Watched()) && end < |k|
    ensures StandVon(Voll(k, kt, end), kt.seed, k, Menge(Bereich(kt.start, end)), kt.w.Watched())
  {
    BereichGenau(k, kt.start, end);
    GespieltGenau(kt.seed, k, Bereich(kt.start, end), kt.w.Watched());
  }

  // ------------------------------------------------------------------ what stays hidden

  /** The history knows only what the seed and the blocks at these heights say. */
  ghost predicate KenntNur(st: Stand, seed: Stand, k: Kette, hs: set<int>, op: Outpoint, watched: set<Skript>) {
    && (op in st.verlauf ==> op in seed.verlauf || Erzeugt(k, hs, op, watched))
    && (op in st.verlauf && op !in seed.verlauf && !Ausgegeben(k, hs, op) ==> st.verlauf[op].spent == None)
  }

  lemma SpieltKenntNur(st: Stand, seed: Stand, k: Kette, hs: set<int>, op: Outpoint, watched: set<Skript>)
    requires VerlaufAn(st, seed, k, hs, op, watched)
    ensures KenntNur(st, seed, k, hs, op, watched)
  {}

  lemma StromKenntNur(a: Stand, b: Stand, seed: Stand, k: Kette, ht: set<int>, hh: set<int>, op: Outpoint, watched: set<Skript>)
    requires Ordentlich(k, watched) && VerlaufAn(a, seed, k, ht, op, watched) && VerlaufAn(b, a, k, hh, op, watched)
    ensures KenntNur(b, seed, k, ht + hh, op, watched)
  {
    ErzeugtVereint(k, ht, hh, op, watched);
  }

  /** What a block creates or spends, no other block does. */
  lemma NurDort(k: Kette, hs: set<int>, h: nat, op: Outpoint, watched: set<Skript>)
    requires Ordentlich(k, watched) && h < |k| && h !in hs
    ensures op in N(k, h, watched) ==> !Erzeugt(k, hs, op, watched)
    ensures op in S(k, h) ==> !Ausgegeben(k, hs, op)
  {
    forall x | x in hs && 0 <= x < |k| ensures op in N(k, h, watched) ==> op !in N(k, x, watched) {}
    forall x | x in hs && 0 <= x < |k| ensures op in S(k, h) ==> op !in S(k, x) {}
  }

  /** A block that was left out and changes the wallet leaves a trace only in the full history. */
  lemma Spur(k: Kette, kt: Konto, hs: set<int>, alle: set<int>, h: nat, op: Outpoint, st: Stand, voll: Stand)
    requires Ordentlich(k, kt.w.Watched()) && h < |k| && h in alle && h !in hs && op !in kt.seed.verlauf
    requires op in N(k, h, kt.w.Watched()) || (op in S(k, h) && Erzeugt(k, alle, op, kt.w.Watched()))
    requires KenntNur(st, kt.seed, k, hs, op, kt.w.Watched()) && VerlaufAn(voll, kt.seed, k, alle, op, kt.w.Watched())
    ensures st.verlauf != voll.verlauf
    ensures op in N(k, h, kt.w.Watched()) ==> op in voll.verlauf && op !in st.verlauf
  {
    NurDort(k, hs, h, op, kt.w.Watched());
    assert op in S(k, h) ==> Ausgegeben(k, alle, op);
    assert op in N(k, h, kt.w.Watched()) ==> Erzeugt(k, alle, op, kt.w.Watched());
  }

  lemma SeedSkript(k: Kette, kt: Konto, scripts: set<Skript>, h: nat, op: Outpoint)
    requires SeedBekannt(k, kt, scripts) && h < |k| && (op in kt.seed.bestand || op in kt.seed.verlauf) && op in N(k, h, kt.w.Watched())
    ensures N(k, h, kt.w.Watched())[op].skript in scripts
  {}

  lemma ErzeugtBeruehrt(k: Kette, kt: Konto, scripts: set<Skript>, h': nat, h: nat, op: Outpoint)
    requires h' < |k| && op in N(k, h', kt.w.Watched()) && N(k, h', kt.w.Watched())[op].skript in scripts
    requires h < |k| && (h == h' || op in S(k, h))
    ensures BeruehrtEines(k, h, scripts)
  {
    var s := BezahltBeruehrt(k, kt.w, h', op);
    assert s in scripts && Beruehrt(k, h, s);
  }

  /** A block with a seeded output, or spending one, touches a known script. */
  lemma SeedBeruehrt(k: Kette, kt: Konto, scripts: set<Skript>, h: nat, op: Outpoint)
    requires SeedEcht(k, kt) && SeedBekannt(k, kt, scripts) && h < |k| && (op in kt.seed.bestand || op in kt.seed.verlauf)
    requires op in N(k, h, kt.w.Watched()) || op in S(k, h)
    ensures BeruehrtEines(k, h, scripts)
  {
    var h' := if op in N(k, h, kt.w.Watched()) then h else SeedHoehe(k, kt, h, op);
    SeedSkript(k, kt, scripts, h', op);
    ErzeugtBeruehrt(k, kt, scripts, h', h, op);
  }

  lemma SeedUnberuehrt(k: Kette, kt: Konto, scripts: set<Skript>, h: nat, op: Outpoint)
    requires SeedEcht(k, kt) && SeedBekannt(k, kt, scripts) && h < |k| && !BeruehrtEines(k, h, scripts)
    requires op in N(k, h, kt.w.Watched()) || op in S(k, h)
    ensures op !in kt.seed.bestand && op !in kt.seed.verlauf
  {
    if op in kt.seed.bestand || op in kt.seed.verlauf { SeedBeruehrt(k, kt, scripts, h, op); }
  }

  /** The full replay and any state that knows only the events differ where a block was overlooked. */
  lemma Uebersehen(k: Kette, kt: Konto, end: int, hs: set<int>, scripts: set<Skript>, h: nat, st: Stand, voll: Stand)
    requires Ordentlich(k, kt.w.Watched()) && SeedEcht(k, kt) && SeedBekannt(k, kt, scripts)
    requires kt.start <= h <= end < |k| && Wirksam(k, kt, end, h) && !BeruehrtEines(k, h, scripts) && h !in hs
    requires forall op :: KenntNur(st, kt.seed, k, hs, op, kt.w.Watched())
    requires StandVon(voll, kt.seed, k, Menge(Bereich(kt.start, end)), kt.w.Watched())
    ensures st.verlauf != voll.verlauf
    ensures forall op :: op in N(k, h, kt.w.Watched()) ==> op in voll.verlauf && op !in st.verlauf
  {
    var watched, alle := kt.w.Watched(), Menge(Bereich(kt.start, end));
    BereichMenge(kt.start, end);
    forall op | op in N(k, h, watched) ensures op in voll.verlauf && op !in st.verlauf {
      SeedUnberuehrt(k, kt, scripts, h, op);
      StandAn(voll, kt.seed, k, alle, op, watched);
      assert KenntNur(st, kt.seed, k, hs, op, watched);
      Spur(k, kt, hs, alle, h, op, st, voll);
    }
    if N(k, h, watched) == map[] {
      var op :| op in S(k, h) && (op in kt.seed.bestand || op in kt.seed.verlauf || Erzeugt(k, alle, op, watched));
      SeedUnberuehrt(k, kt, scripts, h, op);
      StandAn(voll, kt.seed, k, alle, op, watched);
      assert KenntNur(st, kt.seed, k, hs, op, watched);
      Spur(k, kt, hs, alle, h, op, st, voll);
    } else {
      var op :| op in N(k, h, watched);
    }
  }

  /** An output paid to the wallet in a block that touches none of the scripts searched for. */
  ghost predicate Verborgen(k: Kette, kt: Konto, end: int, scripts: set<Skript>, h: int, op: Outpoint) {
    kt.start <= h < TurboVon(end) && h <= end < |k| && op in N(k, h, kt.w.Watched()) && !BeruehrtEines(k, h, scripts)
  }

  lemma VerborgenWirksam(k: Kette, kt: Konto, end: int, scripts: set<Skript>, h: nat, op: Outpoint)
    requires Verborgen(k, kt, end, scripts, h, op)
    ensures Wirksam(k, kt, end, h)
  {}

  /** What a state that knows only the events misses: everything hidden, and with any of it the full state. */
  ghost predicate Verfehlt(k: Kette, kt: Konto, end: int, scripts: set<Skript>, st: Stand, voll: Stand) {
    && (!NichtsNeues(k, kt, end, scripts) ==> st != voll)
    && forall h, op :: Verborgen(k, kt, end, scripts, h, op) ==> op in voll.verlauf && op !in st.verlauf
  }

  /** Nothing hidden is in this history. */
  ghost predicate NieGefunden(k: Kette, kt: Konto, end: int, scripts: set<Skript>, st: Stand) {
    forall h, op :: Verborgen(k, kt, end, scripts, h, op) ==> op !in st.verlauf
  }

  lemma VerfehltNie(k: Kette, kt: Konto, end: int, scripts: set<Skript>, st: Stand)
    requires end < |k| && Verfehlt(k, kt, end, scripts, st, Voll(k, kt, end))
    ensures NieGefunden(k, kt, end, scripts, st)
  {}

  lemma NeuesVerfehlt(k: Kette, kt: Konto, end: int, hs: set<int>, scripts: set<Skript>, st: Stand, voll: Stand)
    requires Ordentlich(k, kt.w.Watched()) && SeedEcht(k, kt) && SeedBekannt(k, kt, scripts) && kt.start <= end < |k|
    requires forall h :: h in hs && kt.start <= h < TurboVon(end) ==> BeruehrtEines(k, h, scripts)
    requires forall op :: KenntNur(st, kt.seed, k, hs, op, kt.w.Watched())
    requires StandVon(voll, kt.seed, k, Menge(Bereich(kt.start, end)), kt.w.Watched())
    ensures Verfehlt(k, kt, end, scripts, st, voll)
  {
    if !NichtsNeues(k, kt, end, scripts) {
      var h :| kt.start <= h < TurboVon(end) && Wirksam(k, kt, end, h) && !BeruehrtEines(k, h, scripts);
      Uebersehen(k, kt, end, hs, scripts, h, st, voll);
    }
    forall h, op | Verborgen(k, kt, end, scripts, h, op) ensures op in voll.verlauf && op !in st.verlauf {
      VerborgenWirksam(k, kt, end, scripts, h, op);
      Uebersehen(k, kt, end, hs, scripts, h, st, voll);
    }
  }

  /** The replay of the events of an exact filter. */
  lemma EreignisseVerfehlen(k: Kette, kt: Konto, end: int, ev: seq<int>, scripts: set<Skript>, eigene: seq<int>)
    requires Gueltig(k) && SeedEcht(k, kt) && SeedBekannt(k, kt, scripts) && kt.start <= end < |k|
    requires NurGesuchte(k, kt, end, ev, scripts) && Spielbar(k, eigene) && forall h :: h in eigene <==> h in ev && Aktiv(kt, end, h)
    ensures Verfehlt(k, kt, end, scripts, Gespielt(kt.seed, k, eigene, kt.w.Watched()), Voll(k, kt, end))
  {
    var watched := kt.w.Watched();
    GueltigOrdentlich(k, watched);
    var st := Gespielt(kt.seed, k, eigene, watched);
    VollGenau(k, kt, end);
    GespieltGenau(kt.seed, k, eigene, watched);
    forall op ensures KenntNur(st, kt.seed, k, Menge(eigene), op, watched) {
      StandAn(st, kt.seed, k, Menge(eigene), op, watched);
      SpieltKenntNur(st, kt.seed, k, Menge(eigene), op, watched);
    }
    NeuesVerfehlt(k, kt, end, Menge(eigene), scripts, st, Voll(k, kt, end));
  }
}
