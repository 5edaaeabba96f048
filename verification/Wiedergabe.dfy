/** Replaying blocks in height order (core/bip158_scan.py, lines 1970-1996 and 1635-1646). */
module Wiedergabe {
  import opened Ordnung
  import opened Kassenbuch

  type Kette = seq<Block>

  function N(k: Kette, h: nat, watched: set<Skript>): map<Outpoint, Ausgang>
    requires h < |k|
  {
    Neu(k[h].txs, h, watched)
  }

  function S(k: Kette, h: nat): map<Outpoint, string>
    requires h < |k|
  {
    SpentBy(k[h].txs)
  }

  // --------------------------------------------------------------- honest chains

  predicate TxErzeugt(tx: Tx, op: Outpoint) { op.txid == tx.txid && op.vout < |tx.vout| }

  predicate TxGibtAus(tx: Tx, op: Outpoint) { Verbraucht(op) in tx.vin }

  /** Transaction ids are unique; an output is spent at most once and never before its creation. */
  ghost predicate Gueltig(k: Kette) {
    && (forall h, i, h', i' :: Stelle(k, h, i) && Stelle(k, h', i') && k[h].txs[i].txid == k[h'].txs[i'].txid ==> h == h' && i == i')
    && (forall h, i, h', i', op :: Stelle(k, h, i) && Stelle(k, h', i') && TxGibtAus(k[h].txs[i], op) && TxGibtAus(k[h'].txs[i'], op) ==>
          h == h' && i == i')
    && (forall h, i, h', i', op :: Stelle(k, h, i) && Stelle(k, h', i') && TxErzeugt(k[h].txs[i], op) && TxGibtAus(k[h'].txs[i'], op) ==>
          h <= h')
  }

  predicate Stelle(k: Kette, h: int, i: int) { 0 <= h < |k| && 0 <= i < |k[h].txs| }

  /** What an honest chain means for the maps of its blocks. */
  ghost predicate Ordentlich(k: Kette, watched: set<Skript>) {
    && (forall h, h', op :: 0 <= h < |k| && 0 <= h' < |k| && op in N(k, h, watched) && op in N(k, h', watched) ==> h == h')
    && (forall h, h', op :: 0 <= h < |k| && 0 <= h' < |k| && op in S(k, h) && op in S(k, h') ==> h == h')
    && (forall h, h', op :: 0 <= h < |k| && 0 <= h' < |k| && op in N(k, h, watched) && op in S(k, h') ==> h <= h')
  }

  lemma {:induction false} NeuHerkunft(txs: seq<Tx>, hoehe: nat, watched: set<Skript>, op: Outpoint) returns (i: int)
    requires op in Neu(txs, hoehe, watched)
    ensures 0 <= i < |txs| && TxErzeugt(txs[i], op) && txs[i].vout[op.vout].skript in watched
    ensures Neu(txs, hoehe, watched)[op] == Ausgang(txs[i].vout[op.vout].wert, txs[i].vout[op.vout].skript, hoehe)
  {
    var n := |txs| - 1;
    if op in TxNeu(txs[n], hoehe, watched) { i := n; } else { i := NeuHerkunft(txs[..n], hoehe, watched, op); }
  }

  lemma {:induction false} NeuEnthaelt(txs: seq<Tx>, hoehe: nat, watched: set<Skript>, i: nat, op: Outpoint)
    requires i < |txs| && TxErzeugt(txs[i], op) && txs[i].vout[op.vout].skript in watched
    ensures op in Neu(txs, hoehe, watched)
  {
    var n := |txs| - 1;
    if i == n { assert op in TxNeu(txs[n], hoehe, watched); } else { NeuEnthaelt(txs[..n], hoehe, watched, i, op); }
  }

  lemma {:induction false} SpentHerkunft(txs: seq<Tx>, op: Outpoint) returns (i: int)
    requires op in SpentBy(txs)
    ensures 0 <= i < |txs| && TxGibtAus(txs[i], op) && SpentBy(txs)[op] == txs[i].txid
  {
    var n := |txs| - 1;
    if op in TxVerbraucht(txs[n]) { i := n; } else { i := SpentHerkunft(txs[..n], op); }
  }

  lemma {:induction false} SpentEnthaelt(txs: seq<Tx>, i: nat, op: Outpoint)
    requires i < |txs| && TxGibtAus(txs[i], op)
    ensures op in SpentBy(txs)
  {
    var n := |txs| - 1;
    if i == n { assert Verbraucht(op).Verbraucht? && op in TxVerbraucht(txs[n]); } else { SpentEnthaelt(txs[..n], i, op); }
  }

  lemma GueltigOrdentlich(k: Kette, watched: set<Skript>)
    requires Gueltig(k)
    ensures Ordentlich(k, watched)
  {
    forall h, h', op | 0 <= h < |k| && 0 <= h' < |k| && op in N(k, h, watched) && op in N(k, h', watched) ensures h == h' {
      var i := NeuHerkunft(k[h].txs, h, watched, op);
      var i' := NeuHerkunft(k[h'].txs, h', watched, op);
      assert Stelle(k, h, i) && Stelle(k, h', i');
    }
    forall h, h', op | 0 <= h < |k| && 0 <= h' < |k| && op in S(k, h) && op in S(k, h') ensures h == h' {
      var i := SpentHerkunft(k[h].txs, op);
      var i' := SpentHerkunft(k[h'].txs, op);
      assert Stelle(k, h, i) && Stelle(k, h', i');
    }
    forall h, h', op | 0 <= h < |k| && 0 <= h' < |k| && op in N(k, h, watched) && op in S(k, h') ensures h <= h' {
      var i := NeuHerkunft(k[h].txs, h, watched, op);
      var i' := SpentHerkunft(k[h'].txs, op);
      assert Stelle(k, h, i) && Stelle(k, h', i');
    }
  }

  // ------------------------------------------------------------------- replaying

  ghost predicate Hoehen(k: Kette, ev: seq<int>) { forall i :: 0 <= i < |ev| ==> 0 <= ev[i] < |k| }

  /** The state after the blocks at the given heights, in this order. */
  function Gespielt(st: Stand, k: Kette, ev: seq<int>, watched: set<Skript>): Stand
    requires Hoehen(k, ev)
  {
    if ev == [] then st
    else
      var h := ev[|ev| - 1];
      NachBlock(Gespielt(st, k, ev[..|ev| - 1], watched), k[h], h, watched)
  }

  ghost predicate Erzeugt(k: Kette, hs: set<int>, op: Outpoint, watched: set<Skript>) {
    exists h :: h in hs && 0 <= h < |k| && op in N(k, h, watched)
  }

  ghost predicate Ausgegeben(k: Kette, hs: set<int>, op: Outpoint) {
    exists h :: h in hs && 0 <= h < |k| && op in S(k, h)
  }

  ghost function ErzeugtBei(k: Kette, hs: set<int>, op: Outpoint, watched: set<Skript>): (h: int)
    requires Erzeugt(k, hs, op, watched)
    ensures h in hs && 0 <= h < |k| && op in N(k, h, watched)
  {
    var h :| h in hs && 0 <= h < |k| && op in N(k, h, watched); h
  }

  ghost function AusgegebenBei(k: Kette, hs: set<int>, op: Outpoint): (h: int)
    requires Ausgegeben(k, hs, op)
    ensures h in hs && 0 <= h < |k| && op in S(k, h)
  {
    var h :| h in hs && 0 <= h < |k| && op in S(k, h); h
  }

  lemma ErzeugtVereint(k: Kette, a: set<int>, b: set<int>, op: Outpoint, watched: set<Skript>)
    requires Ordentlich(k, watched)
    ensures Erzeugt(k, a + b, op, watched) <==> Erzeugt(k, a, op, watched) || Erzeugt(k, b, op, watched)
    ensures Ausgegeben(k, a + b, op) <==> Ausgegeben(k, a, op) || Ausgegeben(k, b, op)
    ensures Erzeugt(k, a, op, watched) ==> ErzeugtBei(k, a + b, op, watched) == ErzeugtBei(k, a, op, watched)
    ensures Erzeugt(k, b, op, watched) ==> ErzeugtBei(k, a + b, op, watched) == ErzeugtBei(k, b, op, watched)
    ensures Ausgegeben(k, a, op) ==> AusgegebenBei(k, a + b, op) == AusgegebenBei(k, a, op)
    ensures Ausgegeben(k, b, op) ==> AusgegebenBei(k, a + b, op) == AusgegebenBei(k, b, op)
  {
    if Erzeugt(k, a + b, op, watched) { var h := ErzeugtBei(k, a + b, op, watched); assert h in a || h in b; }
    if Ausgegeben(k, a + b, op) { var h := AusgegebenBei(k, a + b, op); assert h in a || h in b; }
    if Erzeugt(k, a, op, watched) { assert ErzeugtBei(k, a, op, watched) in a + b; }
    if Erzeugt(k, b, op, watched) { assert ErzeugtBei(k, b, op, watched) in a + b; }
    if Ausgegeben(k, a, op) { assert AusgegebenBei(k, a, op) in a + b; }
    if Ausgegeben(k, b, op) { assert AusgegebenBei(k, b, op) in a + b; }
  }

  /** The stock that the seed and the blocks of a set of heights leave: created minus spent. */
  ghost predicate BestandVon(b: map<Outpoint, Ausgang>, seed: Stand, k: Kette, hs: set<int>, watched: set<Skript>) {
    && (forall op :: op in b <==> (op in seed.bestand || Erzeugt(k, hs, op, watched)) && !Ausgegeben(k, hs, op))
    && (forall op :: op in b ==>
          b[op] == if Erzeugt(k, hs, op, watched) then N(k, ErzeugtBei(k, hs, op, watched), watched)[op] else seed.bestand[op])
  }

  /** The history they leave: every receipt, marked with its spend. */
  ghost predicate VerlaufVon(v: map<Outpoint, Eintrag>, seed: Stand, k: Kette, hs: set<int>, watched: set<Skript>) {
    && (forall op :: op in v <==> op in seed.verlauf || Erzeugt(k, hs, op, watched))
    && (forall op :: op in v ==> v[op] == EintragVon(seed, k, hs, op, watched))
  }

  ghost function EintragVon(seed: Stand, k: Kette, hs: set<int>, op: Outpoint, watched: set<Skript>): Eintrag
    requires op in seed.verlauf || Erzeugt(k, hs, op, watched)
  {
    var basis := if op in seed.verlauf then seed.verlauf[op] else
                   var h := ErzeugtBei(k, hs, op, watched); Eintrag(N(k, h, watched)[op], k[h].zeit, None);
    if Ausgegeben(k, hs, op) then
      var h := AusgegebenBei(k, hs, op); basis.(spent := Some(Ausgabe(S(k, h)[op], h, k[h].zeit)))
    else basis
  }

  ghost predicate StandVon(st: Stand, seed: Stand, k: Kette, hs: set<int>, watched: set<Skript>) {
    BestandVon(st.bestand, seed, k, hs, watched) && VerlaufVon(st.verlauf, seed, k, hs, watched)
  }

  /** The closed form at one output. */
  ghost predicate BestandAn(st: Stand, seed: Stand, k: Kette, hs: set<int>, op: Outpoint, watched: set<Skript>) {
    && (op in st.bestand <==> (op in seed.bestand || Erzeugt(k, hs, op, watched)) && !Ausgegeben(k, hs, op))
    && (op in st.bestand ==>
          st.bestand[op] == if Erzeugt(k, hs, op, watched) then N(k, ErzeugtBei(k, hs, op, watched), watched)[op] else seed.bestand[op])
  }

  ghost predicate VerlaufAn(st: Stand, seed: Stand, k: Kette, hs: set<int>, op: Outpoint, watched: set<Skript>) {
    && (op in st.verlauf <==> op in seed.verlauf || Erzeugt(k, hs, op, watched))
    && (op in st.verlauf ==> st.verlauf[op] == EintragVon(seed, k, hs, op, watched))
  }

  lemma StandAn(st: Stand, seed: Stand, k: Kette, hs: set<int>, op: Outpoint, watched: set<Skript>)
    requires StandVon(st, seed, k, hs, watched)
    ensures BestandAn(st, seed, k, hs, op, watched) && VerlaufAn(st, seed, k, hs, op, watched)
  {}

  ghost predicate GleichBei<V>(x: map<Outpoint, V>, y: map<Outpoint, V>, op: Outpoint) {
    (op in x <==> op in y) && (op in x ==> x[op] == y[op])
  }

  lemma Ueberall<V>(x: map<Outpoint, V>, y: map<Outpoint, V>)
    requires forall op :: GleichBei(x, y, op)
    ensures x == y
  {
    forall op ensures op in x <==> op in y { assert GleichBei(x, y, op); }
    forall op | op in x ensures x[op] == y[op] { assert GleichBei(x, y, op); }
  }

  lemma EindeutigAn(a: Stand, b: Stand, seed: Stand, k: Kette, hs: set<int>, op: Outpoint, watched: set<Skript>)
    requires BestandAn(a, seed, k, hs, op, watched) && BestandAn(b, seed, k, hs, op, watched)
    requires VerlaufAn(a, seed, k, hs, op, watched) && VerlaufAn(b, seed, k, hs, op, watched)
    ensures GleichBei(a.bestand, b.bestand, op) && GleichBei(a.verlauf, b.verlauf, op)
  {}

  /** The closed form fixes the state. */
  lemma StandEindeutig(a: Stand, b: Stand, seed: Stand, k: Kette, hs: set<int>, watched: set<Skript>)
    requires StandVon(a, seed, k, hs, watched) && StandVon(b, seed, k, hs, watched)
    ensures a == b
  {
    forall op ensures GleichBei(a.bestand, b.bestand, op) && GleichBei(a.verlauf, b.verlauf, op) {
      StandAn(a, seed, k, hs, op, watched);
      StandAn(b, seed, k, hs, op, watched);
      EindeutigAn(a, b, seed, k, hs, op, watched);
    }
    Ueberall(a.bestand, b.bestand);
    Ueberall(a.verlauf, b.verlauf);
  }

  /** One more block, not below any before it: also when the same block comes again. */
  lemma BestandSchritt(st: Stand, seed: Stand, k: Kette, hs: set<int>, h: nat, watched: set<Skript>)
    requires Ordentlich(k, watched) && h < |k| && (forall x :: x in hs ==> x <= h)
    requires StandVon(st, seed, k, hs, watched)
    ensures BestandVon(NachBlock(st, k[h], h, watched).bestand, seed, k, hs + {h}, watched)
  {
    var dann := NachBlock(st, k[h], h, watched);
    forall op ensures BestandAn(dann, seed, k, hs + {h}, op, watched) {
      StandAn(st, seed, k, hs, op, watched);
      BestandSchrittAn(st, seed, k, hs, h, op, watched);
    }
    BestandUeberall(dann, seed, k, hs + {h}, watched);
  }

  lemma BestandUeberall(st: Stand, seed: Stand, k: Kette, hs: set<int>, watched: set<Skript>)
    requires forall op :: BestandAn(st, seed, k, hs, op, watched)
    ensures BestandVon(st.bestand, seed, k, hs, watched)
  {
    forall op
      ensures op in st.bestand <==> (op in seed.bestand || Erzeugt(k, hs, op, watched)) && !Ausgegeben(k, hs, op)
      ensures op in st.bestand ==>
                st.bestand[op] == if Erzeugt(k, hs, op, watched) then N(k, ErzeugtBei(k, hs, op, watched), watched)[op] else seed.bestand[op]
    {
      assert BestandAn(st, seed, k, hs, op, watched);
    }
  }

  lemma BestandSchrittAn(st: Stand, seed: Stand, k: Kette, hs: set<int>, h: nat, op: Outpoint, watched: set<Skript>)
    requires Ordentlich(k, watched) && h < |k| && (forall x :: x in hs ==> x <= h) && BestandAn(st, seed, k, hs, op, watched)
    ensures BestandAn(NachBlock(st, k[h], h, watched), seed, k, hs + {h}, op, watched)
  {
    ErzeugtPlus(k, hs, h, op, watched);
    if op in N(k, h, watched) && Ausgegeben(k, hs, op) { assert AusgegebenBei(k, hs, op) == h; }
  }

  lemma ErzeugtPlus(k: Kette, hs: set<int>, h: nat, op: Outpoint, watched: set<Skript>)
    requires Ordentlich(k, watched) && h < |k|
    ensures Erzeugt(k, hs + {h}, op, watched) <==> Erzeugt(k, hs, op, watched) || op in N(k, h, watched)
    ensures Ausgegeben(k, hs + {h}, op) <==> Ausgegeben(k, hs, op) || op in S(k, h)
    ensures op in N(k, h, watched) ==> ErzeugtBei(k, hs + {h}, op, watched) == h
    ensures op in S(k, h) ==> AusgegebenBei(k, hs + {h}, op) == h
    ensures Erzeugt(k, hs, op, watched) ==> ErzeugtBei(k, hs + {h}, op, watched) == ErzeugtBei(k, hs, op, watched)
    ensures Ausgegeben(k, hs, op) ==> AusgegebenBei(k, hs + {h}, op) == AusgegebenBei(k, hs, op)
  {
    assert h in hs + {h};
    if Erzeugt(k, hs, op, watched) { assert ErzeugtBei(k, hs, op, watched) in hs + {h}; }
    if Ausgegeben(k, hs, op) { assert AusgegebenBei(k, hs, op) in hs + {h}; }
  }

  lemma EintragSchritt(st: Stand, seed: Stand, k: Kette, hs: set<int>, h: nat, op: Outpoint, watched: set<Skript>)
    requires Ordentlich(k, watched) && h < |k| && forall x :: x in hs ==> x <= h
    requires op in st.verlauf <==> op in seed.verlauf || Erzeugt(k, hs, op, watched)
    requires op in st.verlauf ==> st.verlauf[op] == EintragVon(seed, k, hs, op, watched)
    requires op in st.verlauf || op in N(k, h, watched)
    ensures var vorher := if op in st.verlauf then st.verlauf[op] else Eintrag(N(k, h, watched)[op], k[h].zeit, None);
            EintragVon(seed, k, hs + {h}, op, watched) ==
            if op in S(k, h) then vorher.(spent := Some(Ausgabe(S(k, h)[op], h, k[h].zeit))) else vorher
  {
    ErzeugtPlus(k, hs, h, op, watched);
  }

  lemma VerlaufSchritt(st: Stand, seed: Stand, k: Kette, hs: set<int>, h: nat, watched: set<Skript>)
    requires Ordentlich(k, watched) && h < |k| && forall x :: x in hs ==> x <= h
    requires StandVon(st, seed, k, hs, watched)
    ensures VerlaufVon(NachBlock(st, k[h], h, watched).verlauf, seed, k, hs + {h}, watched)
  {
    var v := NachBlock(st, k[h], h, watched).verlauf;
    forall op ensures op in v <==> op in seed.verlauf || Erzeugt(k, hs + {h}, op, watched) {
      ErzeugtPlus(k, hs, h, op, watched);
    }
    forall op | op in v ensures v[op] == EintragVon(seed, k, hs + {h}, op, watched) {
      EintragSchritt(st, seed, k, hs, h, op, watched);
    }
  }

  function Menge(ev: seq<int>): set<int> { set h | h in ev }

  /** Replay in height order gives the closed form, whatever is repeated. */
  lemma {:induction false} GespieltGenau(seed: Stand, k: Kette, ev: seq<int>, watched: set<Skript>)
    requires Ordentlich(k, watched) && Hoehen(k, ev) && Aufsteigend(ev)
    ensures StandVon(Gespielt(seed, k, ev, watched), seed, k, Menge(ev), watched)
  {
    if ev != [] {
      var vor, h := ev[..|ev| - 1], ev[|ev| - 1];
      GespieltGenau(seed, k, vor, watched);
      var st := Gespielt(seed, k, vor, watched);
      BestandSchritt(st, seed, k, Menge(vor), h, watched);
      VerlaufSchritt(st, seed, k, Menge(vor), h, watched);
      assert Menge(ev) == Menge(vor) + {h} by { assert ev == vor + [h]; }
    }
  }

  // ------------------------------------------------------------------ rebuilding

  /** The final rebuild: seed plus all events sorted by height. */
  function Umgebaut(seed: Stand, k: Kette, ev: seq<int>, watched: set<Skript>): Stand
    requires Hoehen(k, ev)
  {
    SortierteHoehen(k, ev);
    Gespielt(seed, k, Sortiert(IntKleiner, ev), watched)
  }

  lemma SortierteHoehen(k: Kette, ev: seq<int>)
    requires Hoehen(k, ev)
    ensures var s := Sortiert(IntKleiner, ev); Hoehen(k, s) && Aufsteigend(s) && Menge(s) == Menge(ev)
  {
    var s := Sortiert(IntKleiner, ev);
    SortiertElemente(IntKleiner, ev);
    SortiertAufsteigend(ev);
    forall i | 0 <= i < |s| ensures 0 <= s[i] < |k| { assert s[i] in s; }
  }

  lemma GespieltWeiter(seed: Stand, k: Kette, ev: seq<int>, i: nat, watched: set<Skript>)
    requires Hoehen(k, ev) && i < |ev|
    ensures Gespielt(seed, k, ev[..i + 1], watched) == NachBlock(Gespielt(seed, k, ev[..i], watched), k[ev[i]], ev[i], watched)
  {
    assert ev[..i + 1][..i] == ev[..i];
  }

  /** `_rebuild_chronologisch` on the kept events. */
  method RebuildChronologisch(seed: Stand, k: Kette, ev: seq<int>, watched: set<Skript>) returns (st: Stand)
    requires Hoehen(k, ev)
    ensures st == Umgebaut(seed, k, ev, watched)
  {
    var buch := new Buch(seed);
    var sortiert := Sortiert(IntKleiner, ev);
    SortierteHoehen(k, ev);
    for i := 0 to |sortiert|
      invariant buch.Inhalt() == Gespielt(seed, k, sortiert[..i], watched)
    {
      GespieltWeiter(seed, k, sortiert, i, watched);
      var h := sortiert[i];
      var _ := buch.WendeAn(k[h], h, watched);
    }
    assert sortiert[..|sortiert|] == sortiert;
    st := buch.Inhalt();
  }

  lemma UmgebautGenau(seed: Stand, k: Kette, ev: seq<int>, watched: set<Skript>)
    requires Ordentlich(k, watched) && Hoehen(k, ev)
    ensures StandVon(Umgebaut(seed, k, ev, watched), seed, k, Menge(ev), watched)
  {
    SortierteHoehen(k, ev);
    GespieltGenau(seed, k, Sortiert(IntKleiner, ev), watched);
  }

  /** The block pays none of the watched scripts and spends nothing the wallet has. */
  ghost predicate FalschPositiv(seed: Stand, k: Kette, hs: set<int>, h: int, watched: set<Skript>) {
    && 0 <= h < |k| && N(k, h, watched) == map[]
    && forall op :: op in S(k, h) ==> op !in seed.bestand && op !in seed.verlauf && !Erzeugt(k, hs, op, watched)
  }

  lemma OhneFalschPositive(seed: Stand, k: Kette, hs: set<int>, mehr: set<int>, op: Outpoint, watched: set<Skript>)
    requires hs <= mehr && forall h :: h in mehr - hs ==> FalschPositiv(seed, k, hs, h, watched)
    ensures Erzeugt(k, mehr, op, watched) <==> Erzeugt(k, hs, op, watched)
    ensures op in seed.bestand || op in seed.verlauf || Erzeugt(k, hs, op, watched) ==> (Ausgegeben(k, mehr, op) <==> Ausgegeben(k, hs, op))
  {
    if Erzeugt(k, mehr, op, watched) {
      var h := ErzeugtBei(k, mehr, op, watched);
      assert h in mehr - hs ==> FalschPositiv(seed, k, hs, h, watched);
      assert h in hs;
    }
    if Erzeugt(k, hs, op, watched) { assert ErzeugtBei(k, hs, op, watched) in mehr; }
    if Ausgegeben(k, mehr, op) {
      var h := AusgegebenBei(k, mehr, op);
      assert h in mehr - hs ==> FalschPositiv(seed, k, hs, h, watched);
      assert h in hs || op in S(k, h);
    }
    if Ausgegeben(k, hs, op) { assert AusgegebenBei(k, hs, op) in mehr; }
  }

  lemma StandOhneFalschPositive(st: Stand, seed: Stand, k: Kette, hs: set<int>, mehr: set<int>, watched: set<Skript>)
    requires Ordentlich(k, watched) && hs <= mehr
    requires forall h :: h in mehr - hs ==> FalschPositiv(seed, k, hs, h, watched)
    requires StandVon(st, seed, k, mehr, watched)
    ensures StandVon(st, seed, k, hs, watched)
  {
    forall op
      ensures op in st.bestand <==> (op in seed.bestand || Erzeugt(k, hs, op, watched)) && !Ausgegeben(k, hs, op)
      ensures op in st.verlauf <==> op in seed.verlauf || Erzeugt(k, hs, op, watched)
    {
      OhneFalschPositive(seed, k, hs, mehr, op, watched);
    }
    forall op | op in st.bestand
      ensures st.bestand[op] == if Erzeugt(k, hs, op, watched) then N(k, ErzeugtBei(k, hs, op, watched), watched)[op] else seed.bestand[op]
    {
      OhneFalschPositive(seed, k, hs, mehr, op, watched);
    }
    forall op | op in st.verlauf ensures st.verlauf[op] == EintragVon(seed, k, hs, op, watched) {
      OhneFalschPositive(seed, k, hs, mehr, op, watched);
      if Erzeugt(k, hs, op, watched) { assert ErzeugtBei(k, hs, op, watched) == ErzeugtBei(k, mehr, op, watched); }
      if Ausgegeben(k, hs, op) { assert AusgegebenBei(k, hs, op) == AusgegebenBei(k, mehr, op); }
    }
  }

  /**
   * Arrival order does not matter: any order and repetition of the same blocks, with any false positives
   * among them, rebuilds the state of one replay of the blocks in height order.
   */
  lemma ReihenfolgeEgal(seed: Stand, k: Kette, treffer: seq<int>, ev: seq<int>, watched: set<Skript>)
    requires Gueltig(k) && Hoehen(k, ev) && Hoehen(k, treffer) && Aufsteigend(treffer)
    requires forall h :: h in treffer ==> h in ev
    requires forall h :: h in ev && h !in treffer ==> FalschPositiv(seed, k, Menge(treffer), h, watched)
    ensures Umgebaut(seed, k, ev, watched) == Gespielt(seed, k, treffer, watched)
  {
    GueltigOrdentlich(k, watched);
    UmgebautGenau(seed, k, ev, watched);
    GespieltGenau(seed, k, treffer, watched);
    StandOhneFalschPositive(Umgebaut(seed, k, ev, watched), seed, k, Menge(treffer), Menge(ev), watched);
    StandEindeutig(Umgebaut(seed, k, ev, watched), Gespielt(seed, k, treffer, watched), seed, k, Menge(treffer), watched);
  }

  // -------------------------------------------------------- history against stock

  ghost function Eines(keys: set<Outpoint>): (op: Outpoint)
    requires keys != {}
    ensures op in keys
  {
    var op :| op in keys; op
  }

  /** The sum of the received values over a set of history keys. */
  ghost function Summe(v: map<Outpoint, Eintrag>, keys: set<Outpoint>): nat
    requires keys <= v.Keys
  {
    if keys == {} then 0 else var op := Eines(keys); v[op].ausgang.wert + Summe(v, keys - {op})
  }

  lemma {:induction false} SummeOhne(v: map<Outpoint, Eintrag>, keys: set<Outpoint>, op: Outpoint)
    requires keys <= v.Keys && op in keys
    ensures Summe(v, keys) == v[op].ausgang.wert + Summe(v, keys - {op})
    decreases |keys|
  {
    var x := Eines(keys);
    if x != op {
      SummeOhne(v, keys - {x}, op);
      SummeOhne(v, keys - {op}, x);
      assert keys - {x} - {op} == keys - {op} - {x};
    }
  }

  lemma {:induction false} SummeTeilen(v: map<Outpoint, Eintrag>, a: set<Outpoint>, b: set<Outpoint>)
    requires a <= v.Keys && b <= v.Keys && a !! b
    ensures Summe(v, a + b) == Summe(v, a) + Summe(v, b)
    decreases |a|
  {
    if a == {} { assert a + b == b; } else {
      var op := Eines(a);
      SummeTeilen(v, a - {op}, b);
      SummeOhne(v, a + b, op);
      assert a + b - {op} == (a - {op}) + b;
    }
  }

  function Offen(v: map<Outpoint, Eintrag>): set<Outpoint> { set op | op in v && v[op].spent.None? }

  /** A spend mark names the transaction that spends the output, in the block at the marked height. */
  ghost predicate EchteMarke(k: Kette, op: Outpoint, a: Ausgabe) {
    a.hoehe < |k| && a.zeit == k[a.hoehe].zeit
    && exists i :: 0 <= i < |k[a.hoehe].txs| && TxGibtAus(k[a.hoehe].txs[i], op) && k[a.hoehe].txs[i].txid == a.txid
  }

  /** One output after a replay from nothing. */
  ghost predicate StimmtAn(st: Stand, k: Kette, op: Outpoint) {
    && (op in st.bestand <==> op in st.verlauf && st.verlauf[op].spent.None?)
    && (op in st.bestand ==> st.verlauf[op].ausgang == st.bestand[op])
    && (op in st.verlauf && st.verlauf[op].spent.Some? ==> EchteMarke(k, op, st.verlauf[op].spent.value))
  }

  lemma StimmtBei(st: Stand, k: Kette, hs: set<int>, op: Outpoint, watched: set<Skript>)
    requires BestandAn(st, LEER, k, hs, op, watched) && VerlaufAn(st, LEER, k, hs, op, watched)
    ensures StimmtAn(st, k, op)
  {
    if op in st.verlauf && Ausgegeben(k, hs, op) {
      var h := AusgegebenBei(k, hs, op);
      var i := SpentHerkunft(k[h].txs, op);
    }
  }

  /**
   * After every step of a replay from nothing: the stock is the history not marked spent, every mark is
   * real, and what was received is what is left plus what was spent.
   */
  lemma VerlaufUndBestand(k: Kette, ev: seq<int>, watched: set<Skript>)
    requires Gueltig(k) && Hoehen(k, ev) && Aufsteigend(ev)
    ensures var st := Gespielt(LEER, k, ev, watched);
            && st.bestand.Keys == Offen(st.verlauf)
            && (forall op :: StimmtAn(st, k, op))
            && Summe(st.verlauf, st.verlauf.Keys)
               == Summe(st.verlauf, Offen(st.verlauf)) + Summe(st.verlauf, st.verlauf.Keys - Offen(st.verlauf))
  {
    GueltigOrdentlich(k, watched);
    GespieltGenau(LEER, k, ev, watched);
    var st, hs := Gespielt(LEER, k, ev, watched), Menge(ev);
    forall op ensures StimmtAn(st, k, op) {
      StandAn(st, LEER, k, hs, op, watched);
      StimmtBei(st, k, hs, op, watched);
    }
    forall op ensures op in st.bestand <==> op in Offen(st.verlauf) { assert StimmtAn(st, k, op); }
    SummeTeilen(st.verlauf, Offen(st.verlauf), st.verlauf.Keys - Offen(st.verlauf));
    assert Offen(st.verlauf) + (st.verlauf.Keys - Offen(st.verlauf)) == st.verlauf.Keys;
  }

  // ------------------------------------------------------- transactions for examples

  const EIGENES := Eigen(0, 0, 0, 0)
  const ERHALT := Tx("a", [Coinbase], [TxOut(7, EIGENES)])
  const ABGANG := Tx("b", [Verbraucht(Outpoint("a", 0))], [])
}
