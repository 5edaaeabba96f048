/** Filter chunks shared out over several peers (core/bip158_scan.py, `verteile_cfilter_chunks`, lines 813-974). */
module Verteiler {
  import opened Ordnung

  const MAX_VERSUCHE := 5

  datatype Auftrag = Auftrag(index: nat, versuche: nat)

  /** A worker thread: free, loading a chunk, looking for a fresh peer, leaving, gone. */
  datatype Arbeiter = Frei | Haelt(a: Auftrag) | Sucht | Endet | Tot

  datatype Ergebnis = Zeilen | Ausfall

  /** The generator: in its loop, hiring, about to enter the lock a second time, waiting for the new worker, done, raised. */
  datatype Verbraucher = Schleife | Anheuern | Eintritt | Nachwarten | Fertig | Geworfen(chunk: Option<nat>)

  /** `sperre`, a plain lock: whoever holds it keeps everyone out, itself included. */
  datatype Sperre = Offen | BeimVerbraucher

  /** The shared variables, what was yielded, and how often each chunk was tried. */
  datatype Zustand = Zustand(
    n: nat, auftraege: seq<Auftrag>, arbeiter: seq<Arbeiter>, fertig: map<nat, Ergebnis>, erledigt: int, lebendig: int,
    naechster: nat, geliefert: seq<nat>, geladen: seq<nat>, pc: Verbraucher, sperre: Sperre)

  function Start(n: nat, peers: nat): Zustand {
    Zustand(n, seq(n, i requires 0 <= i => Auftrag(i, 0)), seq(peers, i => Frei), map[], 0, peers,
            0, [], seq(n, i => 0), Schleife, Offen)
  }

  /** What a thread may do next. Waiting and polling change nothing and are no steps. */
  datatype Schritt =
    | Nehmen(w: nat) | Geladen(w: nat) | RumpfFehler(w: nat) | Fehlversuch(w: nat) | LetzterFehler(w: nat)
    | Frisch(w: nat) | KeinFrischer(w: nat) | Leer(w: nat) | Ende(w: nat)
    | Liefern | Werfen | Anheuert | KeinNeuer | NeuerGefunden | Eintreten | NachErhalt | NachAusfall | Abschluss

  predicate Bei(s: Zustand, w: nat, a: Arbeiter) { w < |s.arbeiter| && s.arbeiter[w] == a }

  predicate Laedt(s: Zustand, w: nat) { w < |s.arbeiter| && s.arbeiter[w].Haelt? }

  predicate Moeglich(s: Zustand, schritt: Schritt) {
    match schritt
    case Nehmen(w) => Bei(s, w, Frei) && s.auftraege != []
    case Geladen(w) => Laedt(s, w) && s.sperre.Offen?
    case RumpfFehler(w) => Laedt(s, w) && s.sperre.Offen?
    case Fehlversuch(w) => Laedt(s, w) && s.arbeiter[w].a.versuche + 1 < MAX_VERSUCHE
    case LetzterFehler(w) => Laedt(s, w) && s.arbeiter[w].a.versuche + 1 >= MAX_VERSUCHE && s.sperre.Offen?
    case Frisch(w) => Bei(s, w, Sucht)
    case KeinFrischer(w) => Bei(s, w, Sucht)
    case Leer(w) => Bei(s, w, Frei) && s.auftraege == [] && s.erledigt >= s.n && s.sperre.Offen?
    case Ende(w) => Bei(s, w, Endet) && s.sperre.Offen?
    case Liefern => s.pc.Schleife? && s.sperre.Offen? && s.naechster < s.n && s.naechster in s.fertig && s.fertig[s.naechster].Zeilen?
    case Werfen => s.pc.Schleife? && s.sperre.Offen? && s.naechster < s.n && s.naechster in s.fertig && s.fertig[s.naechster].Ausfall?
    case Anheuert => s.pc.Schleife? && s.sperre.Offen? && s.naechster < s.n && s.naechster !in s.fertig && s.lebendig <= 0
    case KeinNeuer => s.pc.Anheuern?
    case NeuerGefunden => s.pc.Anheuern?
    case Eintreten => s.pc.Eintritt? && s.sperre.Offen?
    case NachErhalt => s.pc.Nachwarten? && s.sperre.Offen? && s.naechster in s.fertig
    case NachAusfall => s.pc.Nachwarten? && s.sperre.Offen? && s.naechster !in s.fertig && s.lebendig <= 0
    case Abschluss => s.pc.Schleife? && s.naechster == s.n && s.sperre.Offen?
  }

  function Alle(s: Zustand): int { if s.erledigt >= s.n then s.erledigt else s.n }

  function Setze(s: Zustand, w: nat, a: Arbeiter): Zustand
    requires w < |s.arbeiter|
  {
    s.(arbeiter := s.arbeiter[w := a])
  }

  function Nach(s: Zustand, schritt: Schritt): Zustand
    requires Moeglich(s, schritt)
  {
    match schritt
    case Nehmen(w) =>
      var a := s.auftraege[0];
      Setze(s, w, Haelt(a)).(auftraege := s.auftraege[1..],
                            geladen := if a.index < |s.geladen| then s.geladen[a.index := s.geladen[a.index] + 1] else s.geladen)
    case Geladen(w) => Setze(s, w, Frei).(fertig := s.fertig[s.arbeiter[w].a.index := Zeilen], erledigt := s.erledigt + 1)
    case RumpfFehler(w) => Setze(s, w, Endet).(fertig := s.fertig[s.arbeiter[w].a.index := Ausfall], erledigt := s.erledigt + 1)
    case Fehlversuch(w) =>
      var a := s.arbeiter[w].a;
      Setze(s, w, Sucht).(auftraege := s.auftraege + [Auftrag(a.index, a.versuche + 1)])
    case LetzterFehler(w) => Setze(s, w, Endet).(fertig := s.fertig[s.arbeiter[w].a.index := Ausfall], erledigt := s.erledigt + 1)
    case Frisch(w) => Setze(s, w, Frei)
    case KeinFrischer(w) => Setze(s, w, Endet)
    case Leer(w) => Setze(s, w, Endet)
    case Ende(w) => Setze(s, w, Tot).(lebendig := s.lebendig - 1)
    case Liefern => s.(fertig := s.fertig - {s.naechster}, geliefert := s.geliefert + [s.naechster], naechster := s.naechster + 1)
    case Werfen => s.(fertig := s.fertig - {s.naechster}, pc := Geworfen(Some(s.naechster)), erledigt := Alle(s))
    case Anheuert => s.(pc := Anheuern, sperre := BeimVerbraucher)
    case KeinNeuer => s.(pc := Geworfen(None), sperre := Offen, erledigt := Alle(s))
    case NeuerGefunden => s.(pc := Eintritt)
    case Eintreten => s.(lebendig := s.lebendig + 1, arbeiter := s.arbeiter + [Frei], pc := Nachwarten)
    case NachErhalt => s.(pc := Schleife)
    case NachAusfall => s.(pc := Geworfen(None), erledigt := Alle(s))
    case Abschluss => s.(pc := Fertig, erledigt := Alle(s))
  }

  // ------------------------------------------------------------------ where chunks are

  function InQueue(q: seq<Auftrag>, i: nat): nat {
    if q == [] then 0 else (if q[0].index == i then 1 else 0) + InQueue(q[1..], i)
  }

  function Bindet(a: Arbeiter, i: nat): nat { if a.Haelt? && a.a.index == i then 1 else 0 }

  function InArbeit(ws: seq<Arbeiter>, i: nat): nat {
    if ws == [] then 0 else Bindet(ws[0], i) + InArbeit(ws[1..], i)
  }

  /** How many places a chunk is in: queued, held, finished, yielded, raised. */
  function Orte(s: Zustand, i: nat): nat {
    InQueue(s.auftraege, i) + InArbeit(s.arbeiter, i) + (if i in s.fertig then 1 else 0) + (if i < s.naechster then 1 else 0)
    + (if s.pc == Geworfen(Some(i)) then 1 else 0)
  }

  function Lebende(ws: seq<Arbeiter>): nat {
    if ws == [] then 0 else (if ws[0].Tot? then 0 else 1) + Lebende(ws[1..])
  }

  lemma {:induction false} InQueueAnfuegen(q: seq<Auftrag>, a: Auftrag, i: nat)
    ensures InQueue(q + [a], i) == InQueue(q, i) + (if a.index == i then 1 else 0)
  {
    if q != [] {
      InQueueAnfuegen(q[1..], a, i);
      assert (q + [a])[1..] == q[1..] + [a];
    }
  }

  lemma {:induction false} InArbeitSetzen(ws: seq<Arbeiter>, w: nat, a: Arbeiter, i: nat)
    requires w < |ws|
    ensures InArbeit(ws[w := a], i) == InArbeit(ws, i) - Bindet(ws[w], i) + Bindet(a, i)
  {
    if w > 0 {
      InArbeitSetzen(ws[1..], w - 1, a, i);
      assert ws[w := a][1..] == ws[1..][w - 1 := a];
    }
  }

  lemma {:induction false} LebendeSetzen(ws: seq<Arbeiter>, w: nat, a: Arbeiter)
    requires w < |ws|
    ensures Lebende(ws[w := a]) == Lebende(ws) - (if ws[w].Tot? then 0 else 1) + (if a.Tot? then 0 else 1)
  {
    if w > 0 {
      LebendeSetzen(ws[1..], w - 1, a);
      assert ws[w := a][1..] == ws[1..][w - 1 := a];
    }
  }

  /** A queued chunk has an order in the queue, a held one a worker. */
  lemma {:induction false} InQueueFinden(q: seq<Auftrag>, i: nat) returns (j: nat)
    requires InQueue(q, i) > 0
    ensures j < |q| && q[j].index == i
  {
    if q[0].index == i { j := 0; } else { j := InQueueFinden(q[1..], i); j := j + 1; }
  }

  lemma {:induction false} InArbeitFinden(ws: seq<Arbeiter>, i: nat) returns (w: nat)
    requires InArbeit(ws, i) > 0
    ensures w < |ws| && ws[w].Haelt? && ws[w].a.index == i
  {
    if Bindet(ws[0], i) > 0 { w := 0; } else { w := InArbeitFinden(ws[1..], i); w := w + 1; }
  }

  lemma {:induction false} LebenderFinden(ws: seq<Arbeiter>) returns (w: nat)
    requires Lebende(ws) > 0
    ensures w < |ws| && !ws[w].Tot?
  {
    if !ws[0].Tot? { w := 0; } else { w := LebenderFinden(ws[1..]); w := w + 1; }
  }

  // ------------------------------------------------------------------- the invariant

  predicate Beendet(s: Zustand) { s.pc.Fertig? || s.pc.Geworfen? }

  /** Every chunk is in exactly one place, and there is no other chunk. */
  ghost predicate GenauEinmal(s: Zustand) {
    && (forall i: nat :: i < s.n ==> Orte(s, i) == 1)
    && (forall i :: i in s.fertig ==> i < s.n)
    && (forall j :: 0 <= j < |s.auftraege| ==> s.auftraege[j].index < s.n)
    && (forall w :: 0 <= w < |s.arbeiter| && s.arbeiter[w].Haelt? ==> s.arbeiter[w].a.index < s.n)
  }

  /** The number in an order is the number of times its chunk was tried, five at most. */
  ghost predicate Versuche(s: Zustand) {
    && |s.geladen| == s.n
    && (forall i :: 0 <= i < s.n ==> s.geladen[i] <= MAX_VERSUCHE)
    && (forall j :: 0 <= j < |s.auftraege| ==> var a := s.auftraege[j]; a.index < s.n && a.versuche < MAX_VERSUCHE && s.geladen[a.index] == a.versuche)
    && (forall w :: 0 <= w < |s.arbeiter| && s.arbeiter[w].Haelt? ==>
          var a := s.arbeiter[w].a; a.index < s.n && a.versuche < MAX_VERSUCHE && s.geladen[a.index] == a.versuche + 1)
  }

  /** Chunks were yielded once each in height order; the counters count what they are meant to count. */
  ghost predicate Gezaehlt(s: Zustand) {
    && s.naechster <= s.n && s.geliefert == seq(s.naechster, i => i)
    && s.lebendig == Lebende(s.arbeiter)
    && (if Beendet(s) then s.erledigt >= s.n else s.erledigt == |s.fertig.Keys| + s.naechster)
    && (s.pc.Fertig? ==> s.naechster == s.n)
  }

  /** The consumer holds the lock exactly while it hires; nobody is alive then, and it never gets in again. */
  ghost predicate Verriegelt(s: Zustand) {
    && (s.sperre.BeimVerbraucher? <==> s.pc.Anheuern? || s.pc.Eintritt?)
    && (s.pc.Anheuern? || s.pc.Eintritt? ==> Lebende(s.arbeiter) == 0 && s.naechster < s.n && s.naechster !in s.fertig)
    && !s.pc.Nachwarten?
  }

  ghost predicate Inv(s: Zustand) { GenauEinmal(s) && Versuche(s) && Gezaehlt(s) && Verriegelt(s) }

  lemma {:induction false} InQueueStart(n: nat, k: nat, i: nat)
    requires k <= n
    ensures InQueue(seq(n, i requires 0 <= i => Auftrag(i, 0))[k..], i) == if k <= i < n then 1 else 0
    decreases n - k
  {
    var q := seq(n, i requires 0 <= i => Auftrag(i, 0));
    if k < n {
      InQueueStart(n, k + 1, i);
      assert q[k..][1..] == q[k + 1..];
    }
  }

  lemma {:induction false} ArbeiterStart(ws: seq<Arbeiter>, i: nat)
    requires forall w :: 0 <= w < |ws| ==> ws[w] == Frei
    ensures InArbeit(ws, i) == 0 && Lebende(ws) == |ws|
  {
    if ws != [] { ArbeiterStart(ws[1..], i); }
  }

  lemma StartInv(n: nat, peers: nat)
    ensures Inv(Start(n, peers))
  {
    var s := Start(n, peers);
    forall i: nat | i < n ensures Orte(s, i) == 1 {
      InQueueStart(n, 0, i);
      assert s.auftraege[0..] == s.auftraege;
      ArbeiterStart(s.arbeiter, i);
    }
    ArbeiterStart(s.arbeiter, 0);
  }

  lemma {:induction false} GehaltenNichtFertig(s: Zustand, w: nat)
    requires GenauEinmal(s) && Laedt(s, w)
    ensures s.arbeiter[w].a.index !in s.fertig && s.arbeiter[w].a.index >= s.naechster
  {
    var i := s.arbeiter[w].a.index;
    InArbeitSetzen(s.arbeiter, w, Frei, i);
    assert Orte(s, i) == 1;
  }

  lemma OrteFertig(s: Zustand, schritt: Schritt, i: nat)
    requires GenauEinmal(s) && Moeglich(s, schritt) && MachtFertig(schritt) && i < s.n
    ensures Orte(Nach(s, schritt), i) == Orte(s, i)
  {
    var w := schritt.w;
    GehaltenNichtFertig(s, w);
    InArbeitSetzen(s.arbeiter, w, if schritt.Geladen? then Frei else Endet, i);
  }

  lemma OrteFehlversuch(s: Zustand, w: nat, i: nat)
    requires Moeglich(s, Fehlversuch(w)) && !MachtFertig(Fehlversuch(w))
    ensures Orte(Nach(s, Fehlversuch(w)), i) == Orte(s, i)
  {
    var a := s.arbeiter[w].a;
    InArbeitSetzen(s.arbeiter, w, Sucht, i);
    InQueueAnfuegen(s.auftraege, Auftrag(a.index, a.versuche + 1), i);
  }

  /** No step loses or doubles a chunk. */
  lemma OrteBleiben(s: Zustand, schritt: Schritt, i: nat)
    requires GenauEinmal(s) && Verriegelt(s) && Moeglich(s, schritt) && i < s.n
    ensures Orte(Nach(s, schritt), i) == 1
  {
    assert Orte(s, i) == 1;
    if MachtFertig(schritt) { OrteFertig(s, schritt, i); return; }
    match schritt
    case Nehmen(w) => InArbeitSetzen(s.arbeiter, w, Haelt(s.auftraege[0]), i);
    case Fehlversuch(w) => OrteFehlversuch(s, w, i);
    case Frisch(w) => InArbeitSetzen(s.arbeiter, w, Frei, i);
    case KeinFrischer(w) => InArbeitSetzen(s.arbeiter, w, Endet, i);
    case Leer(w) => InArbeitSetzen(s.arbeiter, w, Endet, i);
    case Ende(w) => InArbeitSetzen(s.arbeiter, w, Tot, i);
    case _ =>
  }

  lemma GenauEinmalBleibt(s: Zustand, schritt: Schritt)
    requires Inv(s) && Moeglich(s, schritt)
    ensures GenauEinmal(Nach(s, schritt))
  {
    forall i: nat | i < s.n ensures Orte(Nach(s, schritt), i) == 1 { OrteBleiben(s, schritt, i); }
  }

  /** Another order or another worker would be a second place for the chunk. */
  lemma NurHier(s: Zustand, i: nat)
    requires GenauEinmal(s) && i < s.n
    ensures InQueue(s.auftraege, i) + InArbeit(s.arbeiter, i) <= 1
  {
    assert Orte(s, i) == 1;
  }

  lemma {:induction false} InQueueBei(q: seq<Auftrag>, j: nat)
    requires j < |q|
    ensures InQueue(q, q[j].index) >= 1
  {
    if j > 0 { InQueueBei(q[1..], j - 1); }
  }

  lemma {:induction false} InQueueZwei(q: seq<Auftrag>, j: nat)
    requires 0 < j < |q| && q[j].index == q[0].index
    ensures InQueue(q, q[0].index) >= 2
  {
    InQueueBei(q[1..], j - 1);
  }

  /** A taken order is the only trace of its chunk among orders and workers. */
  lemma GenommenAllein(s: Zustand, j: nat, v: nat)
    requires GenauEinmal(s) && s.auftraege != []
    ensures 0 < j < |s.auftraege| ==> s.auftraege[j].index != s.auftraege[0].index
    ensures Laedt(s, v) ==> s.arbeiter[v].a.index != s.auftraege[0].index
  {
    NurHier(s, s.auftraege[0].index);
    InQueueBei(s.auftraege, 0);
    if 0 < j < |s.auftraege| && s.auftraege[j].index == s.auftraege[0].index { InQueueZwei(s.auftraege, j); }
    if Laedt(s, v) { InArbeitSetzen(s.arbeiter, v, Frei, s.auftraege[0].index); }
  }

  lemma VersucheBleiben(s: Zustand, schritt: Schritt)
    requires Inv(s) && Moeglich(s, schritt)
    ensures Versuche(Nach(s, schritt))
  {
    if schritt.Nehmen? {
      var t := Nach(s, schritt);
      forall j | 0 <= j < |t.auftraege|
        ensures var a := t.auftraege[j]; a.index < t.n && a.versuche < MAX_VERSUCHE && t.geladen[a.index] == a.versuche
      {
        GenommenAllein(s, j + 1, 0);
        assert t.auftraege[j] == s.auftraege[j + 1];
      }
      forall w | 0 <= w < |t.arbeiter| && t.arbeiter[w].Haelt?
        ensures var a := t.arbeiter[w].a; a.index < t.n && a.versuche < MAX_VERSUCHE && t.geladen[a.index] == a.versuche + 1
      {
        GenommenAllein(s, 0, w);
      }
    }
  }

  predicate MachtFertig(schritt: Schritt) { schritt.Geladen? || schritt.RumpfFehler? || schritt.LetzterFehler? }

  /** The counter of living workers stays right. */
  lemma LebendigBleibt(s: Zustand, schritt: Schritt)
    requires s.lebendig == Lebende(s.arbeiter) && Verriegelt(s) && Moeglich(s, schritt)
    ensures Nach(s, schritt).lebendig == Lebende(Nach(s, schritt).arbeiter)
  {
    match schritt
    case Nehmen(w) => LebendeSetzen(s.arbeiter, w, Haelt(s.auftraege[0]));
    case Geladen(w) => LebendeSetzen(s.arbeiter, w, Frei);
    case RumpfFehler(w) => LebendeSetzen(s.arbeiter, w, Endet);
    case Fehlversuch(w) => LebendeSetzen(s.arbeiter, w, Sucht);
    case LetzterFehler(w) => LebendeSetzen(s.arbeiter, w, Endet);
    case Frisch(w) => LebendeSetzen(s.arbeiter, w, Frei);
    case KeinFrischer(w) => LebendeSetzen(s.arbeiter, w, Endet);
    case Leer(w) => LebendeSetzen(s.arbeiter, w, Endet);
    case Ende(w) => LebendeSetzen(s.arbeiter, w, Tot);
    case _ =>
  }

  lemma GezaehltBleibt(s: Zustand, schritt: Schritt)
    requires Inv(s) && Moeglich(s, schritt)
    ensures Gezaehlt(Nach(s, schritt))
  {
    LebendigBleibt(s, schritt);
    if MachtFertig(schritt) { MehrFertig(s, schritt.w, if schritt.Geladen? then Zeilen else Ausfall); }
    if schritt.Liefern? { assert Nach(s, schritt).fertig.Keys == s.fertig.Keys - {s.naechster}; }
  }

  lemma MehrFertig(s: Zustand, w: nat, e: Ergebnis)
    requires GenauEinmal(s) && Laedt(s, w)
    ensures |s.fertig[s.arbeiter[w].a.index := e].Keys| == |s.fertig.Keys| + 1
  {
    GehaltenNichtFertig(s, w);
    assert s.fertig[s.arbeiter[w].a.index := e].Keys == s.fertig.Keys + {s.arbeiter[w].a.index};
  }

  /** While the consumer holds the lock no worker is alive to take a step. */
  lemma {:induction false} NiemandLebt(ws: seq<Arbeiter>, w: nat)
    requires Lebende(ws) == 0 && w < |ws|
    ensures ws[w].Tot?
  {
    if w > 0 { NiemandLebt(ws[1..], w - 1); }
  }

  lemma VerriegeltBleibt(s: Zustand, schritt: Schritt)
    requires Inv(s) && Moeglich(s, schritt)
    ensures Verriegelt(Nach(s, schritt))
  {
    if s.pc.Anheuern? || s.pc.Eintritt? {
      match schritt
      case Nehmen(w) => NiemandLebt(s.arbeiter, w);
      case Fehlversuch(w) => NiemandLebt(s.arbeiter, w);
      case Frisch(w) => NiemandLebt(s.arbeiter, w);
      case KeinFrischer(w) => NiemandLebt(s.arbeiter, w);
      case _ =>
    }
  }

  lemma InvBleibt(s: Zustand, schritt: Schritt)
    requires Inv(s) && Moeglich(s, schritt)
    ensures Inv(Nach(s, schritt)) && Nach(s, schritt).n == s.n
  {
    GenauEinmalBleibt(s, schritt);
    VersucheBleiben(s, schritt);
    GezaehltBleibt(s, schritt);
    VerriegeltBleibt(s, schritt);
  }

  // ---------------------------------------------------------------------- progress

  function AuftragGewicht(a: Auftrag): int { 3 * (MAX_VERSUCHE - a.versuche) }

  function QueueGewicht(q: seq<Auftrag>): int { if q == [] then 0 else AuftragGewicht(q[0]) + QueueGewicht(q[1..]) }

  function ArbeiterGewicht(a: Arbeiter): int {
    match a case Frei => 2 case Haelt(x) => 1 + AuftragGewicht(x) case Sucht => 3 case Endet => 1 case Tot => 0
  }

  function ArbeitGewicht(ws: seq<Arbeiter>): int { if ws == [] then 0 else ArbeiterGewicht(ws[0]) + ArbeitGewicht(ws[1..]) }

  function PcGewicht(pc: Verbraucher): nat {
    match pc case Schleife => 3 case Anheuern => 2 case Eintritt => 1 case Nachwarten => 1 case Fertig => 0 case Geworfen(_) => 0
  }

  /** The attempts left over all chunks, and what the threads still have to do. */
  function Rest(s: Zustand): int {
    QueueGewicht(s.auftraege) + ArbeitGewicht(s.arbeiter) + (s.n - s.naechster) + PcGewicht(s.pc)
  }

  lemma {:induction false} QueueGewichtAnfuegen(q: seq<Auftrag>, a: Auftrag)
    ensures QueueGewicht(q + [a]) == QueueGewicht(q) + AuftragGewicht(a)
  {
    if q != [] {
      QueueGewichtAnfuegen(q[1..], a);
      assert (q + [a])[1..] == q[1..] + [a];
    }
  }

  lemma {:induction false} ArbeitGewichtSetzen(ws: seq<Arbeiter>, w: nat, a: Arbeiter)
    requires w < |ws|
    ensures ArbeitGewicht(ws[w := a]) == ArbeitGewicht(ws) - ArbeiterGewicht(ws[w]) + ArbeiterGewicht(a)
  {
    if w > 0 {
      ArbeitGewichtSetzen(ws[1..], w - 1, a);
      assert ws[w := a][1..] == ws[1..][w - 1 := a];
    }
  }

  lemma {:induction false} QueueGewichtNichtNegativ(q: seq<Auftrag>)
    requires forall j :: 0 <= j < |q| ==> q[j].versuche < MAX_VERSUCHE
    ensures QueueGewicht(q) >= 0
  {
    if q != [] { QueueGewichtNichtNegativ(q[1..]); }
  }

  lemma {:induction false} ArbeitGewichtNichtNegativ(ws: seq<Arbeiter>)
    requires forall w :: 0 <= w < |ws| && ws[w].Haelt? ==> ws[w].a.versuche < MAX_VERSUCHE
    ensures ArbeitGewicht(ws) >= 0
  {
    if ws != [] { ArbeitGewichtNichtNegativ(ws[1..]); }
  }

  lemma RestKleiner(s: Zustand, schritt: Schritt)
    requires Versuche(s) && Verriegelt(s) && Moeglich(s, schritt)
    ensures Rest(Nach(s, schritt)) < Rest(s)
  {
    match schritt
    case Nehmen(w) => ArbeitGewichtSetzen(s.arbeiter, w, Haelt(s.auftraege[0]));
    case Geladen(w) => ArbeitGewichtSetzen(s.arbeiter, w, Frei);
    case RumpfFehler(w) => ArbeitGewichtSetzen(s.arbeiter, w, Endet);
    case Fehlversuch(w) =>
      var a := s.arbeiter[w].a;
      ArbeitGewichtSetzen(s.arbeiter, w, Sucht);
      QueueGewichtAnfuegen(s.auftraege, Auftrag(a.index, a.versuche + 1));
    case LetzterFehler(w) => ArbeitGewichtSetzen(s.arbeiter, w, Endet);
    case Frisch(w) => ArbeitGewichtSetzen(s.arbeiter, w, Frei);
    case KeinFrischer(w) => ArbeitGewichtSetzen(s.arbeiter, w, Endet);
    case Leer(w) => ArbeitGewichtSetzen(s.arbeiter, w, Endet);
    case Ende(w) => ArbeitGewichtSetzen(s.arbeiter, w, Tot);
    case _ =>
  }

  lemma RestNichtNegativ(s: Zustand)
    requires Inv(s)
    ensures Rest(s) >= 0
  {
    QueueGewichtNichtNegativ(s.auftraege);
    ArbeitGewichtNichtNegativ(s.arbeiter);
  }

  /** Every step uses something up, whatever the threads do and in whatever order. */
  lemma SchrittVerbraucht(s: Zustand, schritt: Schritt)
    requires Inv(s) && Moeglich(s, schritt)
    ensures 0 <= Rest(Nach(s, schritt)) < Rest(s)
  {
    InvBleibt(s, schritt);
    RestNichtNegativ(Nach(s, schritt));
    RestKleiner(s, schritt);
  }

  /** A step some thread can take, unless the generator has ended or waits for its own lock. */
  lemma SchrittMoeglich(s: Zustand) returns (schritt: Schritt)
    requires Inv(s) && !Beendet(s) && !s.pc.Eintritt?
    ensures Moeglich(s, schritt)
  {
    if s.pc.Anheuern? { return KeinNeuer; }
    if s.naechster == s.n { return Abschluss; }
    if s.naechster in s.fertig { return if s.fertig[s.naechster].Zeilen? then Liefern else Werfen; }
    if s.lebendig <= 0 { return Anheuert; }
    assert Orte(s, s.naechster) == 1;
    if InArbeit(s.arbeiter, s.naechster) > 0 {
      var w := InArbeitFinden(s.arbeiter, s.naechster);
      return Geladen(w);
    }
    var w := LebenderFinden(s.arbeiter);
    match s.arbeiter[w]
    case Frei => return Nehmen(w);
    case Haelt(_) => return Geladen(w);
    case Sucht => return KeinFrischer(w);
    case Endet => return Ende(w);
  }

  // -------------------------------------------------------------------------- runs

  /** The states along a schedule. */
  ghost predicate Lauf(s: Zustand, plan: seq<Schritt>, t: Zustand)
    decreases |plan|
  {
    if plan == [] then t == s else Moeglich(s, plan[0]) && Lauf(Nach(s, plan[0]), plan[1..], t)
  }

  ghost predicate Ausgelaufen(s: Zustand) { forall schritt :: !Moeglich(s, schritt) }

  lemma {:induction false} LaufInv(s: Zustand, plan: seq<Schritt>, t: Zustand)
    requires Inv(s) && Lauf(s, plan, t)
    ensures Inv(t) && t.n == s.n && |plan| <= Rest(s) - Rest(t)
    decreases |plan|
  {
    hide Nach, Moeglich, Inv;
    if plan != [] {
      InvBleibt(s, plan[0]);
      SchrittVerbraucht(s, plan[0]);
      LaufInv(Nach(s, plan[0]), plan[1..], t);
    }
  }

  /**
   * Every schedule: all chunks are always in exactly one place, tried at most five times, and yielded
   * once each in height order; the counter counts finished and yielded chunks. Every schedule is finite.
   */
  lemma JederLauf(n: nat, peers: nat, plan: seq<Schritt>, t: Zustand)
    requires Lauf(Start(n, peers), plan, t)
    ensures Inv(t) && t.n == n && |plan| <= Rest(Start(n, peers))
  {
    StartInv(n, peers);
    LaufInv(Start(n, peers), plan, t);
    RestNichtNegativ(t);
  }

  /**
   * A schedule that can go no further has yielded everything, has raised, or is stuck: the consumer has
   * hired a peer and waits for the lock it holds itself.
   */
  lemma Endzustand(n: nat, peers: nat, plan: seq<Schritt>, t: Zustand)
    requires Lauf(Start(n, peers), plan, t) && Ausgelaufen(t)
    ensures t.pc.Fertig? || t.pc.Geworfen? || t.pc.Eintritt?
    ensures t.pc.Fertig? ==> t.geliefert == seq(n, i => i)
    ensures t.pc.Eintritt? ==> Lebende(t.arbeiter) == 0 && t.naechster < n && t.naechster !in t.fertig && t.sperre.BeimVerbraucher?
  {
    JederLauf(n, peers, plan, t);
    if !Beendet(t) && !t.pc.Eintritt? { var schritt := SchrittMoeglich(t); }
  }

  /** Once the consumer waits for its own lock nothing happens any more. */
  lemma Festgefahren(s: Zustand)
    requires Inv(s)
    ensures s.pc.Eintritt? ==> Ausgelaufen(s)
  {
    if s.pc.Eintritt? {
      forall schritt ensures !Moeglich(s, schritt) {
        match schritt
        case Nehmen(w) => if w < |s.arbeiter| { NiemandLebt(s.arbeiter, w); }
        case Fehlversuch(w) => if w < |s.arbeiter| { NiemandLebt(s.arbeiter, w); }
        case Frisch(w) => if w < |s.arbeiter| { NiemandLebt(s.arbeiter, w); }
        case KeinFrischer(w) => if w < |s.arbeiter| { NiemandLebt(s.arbeiter, w); }
        case _ =>
      }
    }
  }

  lemma NachDemEnde(s: Zustand, plan: seq<Schritt>, t: Zustand)
    requires Ausgelaufen(s) && Lauf(s, plan, t)
    ensures plan == [] && t == s
  {}

  lemma NurSoEintritt(s: Zustand, schritt: Schritt)
    requires !s.pc.Eintritt? && Moeglich(s, schritt)
    ensures Nach(s, schritt).pc.Eintritt? <==> schritt == NeuerGefunden
  {}

  /**
   * A run gets stuck exactly when the hiring of a fresh peer, tried because no worker is left, succeeds:
   * from that step on nothing moves. Without it every run that stops has yielded everything or raised.
   */
  lemma {:induction false} StecktGenau(s: Zustand, plan: seq<Schritt>, t: Zustand)
    requires Inv(s) && !s.pc.Eintritt? && Lauf(s, plan, t)
    ensures t.pc.Eintritt? <==> NeuerGefunden in plan
    decreases |plan|
  {
    if plan != [] {
      hide Nach, Moeglich, Inv;
      var u := Nach(s, plan[0]);
      InvBleibt(s, plan[0]);
      NurSoEintritt(s, plan[0]);
      assert plan == [plan[0]] + plan[1..];
      if plan[0] == NeuerGefunden {
        Festgefahren(u);
        NachDemEnde(u, plan[1..], t);
      } else {
        StecktGenau(u, plan[1..], t);
      }
    }
  }

  lemma AusgelaufenBeendet(s: Zustand, plan: seq<Schritt>, t: Zustand)
    requires Inv(s) && !s.pc.Eintritt? && Lauf(s, plan, t) && Ausgelaufen(t) && NeuerGefunden !in plan
    ensures Beendet(t)
  {
    LaufInv(s, plan, t);
    StecktGenau(s, plan, t);
    if !Beendet(t) { var schritt := SchrittMoeglich(t); }
  }

  // ------------------------------------------------------------- why a run raises

  /** The chunk was loaded: its rows wait to be yielded or have been. */
  predicate Gelungen(s: Zustand, i: nat) { i < s.naechster || (i in s.fertig && s.fertig[i].Zeilen?) }

  /** The chunk was given up: its failure waits to be raised or has been. */
  predicate Ausgefallen(s: Zustand, i: nat) { (i in s.fertig && s.fertig[i].Ausfall?) || s.pc == Geworfen(Some(i)) }

  predicate LaedtChunk(s: Zustand, w: nat, i: nat) { Laedt(s, w) && s.arbeiter[w].a.index == i }

  predicate GibtAuf(schritt: Schritt) { schritt.RumpfFehler? || schritt.LetzterFehler? }

  /** Somewhere along the schedule a worker that holds the chunk loads it. */
  ghost predicate Ladeerfolg(s: Zustand, plan: seq<Schritt>, i: nat)
    decreases |plan|
  {
    plan != [] && Moeglich(s, plan[0])
    && ((plan[0].Geladen? && LaedtChunk(s, plan[0].w, i)) || Ladeerfolg(Nach(s, plan[0]), plan[1..], i))
  }

  /** Somewhere along the schedule a worker that holds the chunk gives it up. */
  ghost predicate Aufgabe(s: Zustand, plan: seq<Schritt>, i: nat)
    decreases |plan|
  {
    plan != [] && Moeglich(s, plan[0])
    && ((GibtAuf(plan[0]) && LaedtChunk(s, plan[0].w, i)) || Aufgabe(Nach(s, plan[0]), plan[1..], i))
  }

  /** A chunk changes to loaded only where its own worker has loaded it. */
  lemma SchrittGelingt(s: Zustand, schritt: Schritt, i: nat)
    requires Inv(s) && Moeglich(s, schritt)
    ensures Gelungen(Nach(s, schritt), i) <==> Gelungen(s, i) || (schritt.Geladen? && LaedtChunk(s, schritt.w, i))
  {
    if MachtFertig(schritt) { GehaltenNichtFertig(s, schritt.w); }
  }

  /** A chunk changes to given up only where its own worker gives it up. */
  lemma SchrittScheitert(s: Zustand, schritt: Schritt, i: nat)
    requires Inv(s) && Moeglich(s, schritt)
    ensures Ausgefallen(Nach(s, schritt), i) <==> Ausgefallen(s, i) || (GibtAuf(schritt) && LaedtChunk(s, schritt.w, i))
  {
    if MachtFertig(schritt) { GehaltenNichtFertig(s, schritt.w); }
  }

  lemma {:induction false} LaufEntscheidet(s: Zustand, plan: seq<Schritt>, t: Zustand, i: nat)
    requires Inv(s) && Lauf(s, plan, t)
    ensures Gelungen(t, i) <==> Gelungen(s, i) || Ladeerfolg(s, plan, i)
    ensures Ausgefallen(t, i) <==> Ausgefallen(s, i) || Aufgabe(s, plan, i)
    decreases |plan|
  {
    hide Nach, Moeglich, Inv;
    if plan != [] {
      InvBleibt(s, plan[0]);
      SchrittGelingt(s, plan[0], i);
      SchrittScheitert(s, plan[0], i);
      LaufEntscheidet(Nach(s, plan[0]), plan[1..], t, i);
    }
  }

  lemma {:induction false} NurKeinNeuer(s: Zustand, plan: seq<Schritt>, t: Zustand)
    requires Inv(s) && Lauf(s, plan, t)
    ensures t.pc == Geworfen(None) ==> s.pc == Geworfen(None) || KeinNeuer in plan
    decreases |plan|
  {
    if plan != [] {
      InvBleibt(s, plan[0]);
      NurKeinNeuer(Nach(s, plan[0]), plan[1..], t);
      assert plan == [plan[0]] + plan[1..];
    }
  }

  /**
   * Why a run raises: for a chunk only if the worker that held it gave it up, without a chunk only if the
   * search for a fresh peer found none. What was loaded is yielded or waits for it, nothing else is.
   */
  lemma WarumGeworfen(n: nat, peers: nat, plan: seq<Schritt>, t: Zustand, i: nat)
    requires Lauf(Start(n, peers), plan, t)
    ensures t.pc == Geworfen(Some(i)) ==> Aufgabe(Start(n, peers), plan, i)
    ensures t.pc == Geworfen(None) ==> KeinNeuer in plan
    ensures i in t.geliefert ==> Ladeerfolg(Start(n, peers), plan, i)
    ensures Aufgabe(Start(n, peers), plan, i) ==> Ausgefallen(t, i)
    ensures Ladeerfolg(Start(n, peers), plan, i) ==> Gelungen(t, i)
  {
    StartInv(n, peers);
    LaufInv(Start(n, peers), plan, t);
    LaufEntscheidet(Start(n, peers), plan, t, i);
    NurKeinNeuer(Start(n, peers), plan, t);
  }

  /** A failed load is repeated while its chunk was tried less than five times; only the fifth failure gives it up. */
  lemma FuenfVersuche(s: Zustand, w: nat)
    requires Inv(s) && Laedt(s, w)
    ensures var i := s.arbeiter[w].a.index;
            && i < |s.geladen|
            && (Moeglich(s, Fehlversuch(w)) <==> s.geladen[i] < 5)
            && (Moeglich(s, LetzterFehler(w)) <==> s.geladen[i] == 5 && s.sperre.Offen?)
            && (Moeglich(s, Fehlversuch(w)) ==> InQueue(Nach(s, Fehlversuch(w)).auftraege, i) == 1)
  {
    var a := s.arbeiter[w].a;
    if Moeglich(s, Fehlversuch(w)) {
      InArbeitSetzen(s.arbeiter, w, Sucht, a.index);
      assert Orte(s, a.index) == 1;
      InQueueAnfuegen(s.auftraege, Auftrag(a.index, a.versuche + 1), a.index);
    }
  }

  /** Nobody is left and the lock is held when the search for a fresh peer fails. */
  lemma KeinNeuerOhneArbeiter(s: Zustand)
    requires Inv(s) && Moeglich(s, KeinNeuer)
    ensures forall w :: 0 <= w < |s.arbeiter| ==> s.arbeiter[w].Tot?
    ensures s.naechster < s.n && !Gelungen(s, s.naechster) && !Ausgefallen(s, s.naechster)
  {
    forall w | 0 <= w < |s.arbeiter| ensures s.arbeiter[w].Tot? { NiemandLebt(s.arbeiter, w); }
  }

  lemma {:induction false} OhneAufgabe(s: Zustand, plan: seq<Schritt>, i: nat)
    requires forall schritt :: schritt in plan ==> !GibtAuf(schritt)
    ensures !Aufgabe(s, plan, i)
    decreases |plan|
  {
    if plan != [] && Moeglich(s, plan[0]) {
      assert plan[0] in plan && forall schritt :: schritt in plan[1..] ==> schritt in plan;
      OhneAufgabe(Nach(s, plan[0]), plan[1..], i);
    }
  }

  /**
   * A run that can go no further, in which no worker gave a chunk up and no search for a fresh peer came to an
   * end, has yielded all chunks in order, however the workers took turns, failed and tried again.
   */
  lemma OhneFehlerFertig(n: nat, peers: nat, plan: seq<Schritt>, t: Zustand)
    requires Lauf(Start(n, peers), plan, t) && Ausgelaufen(t)
    requires (forall schritt :: schritt in plan ==> !GibtAuf(schritt)) && KeinNeuer !in plan && NeuerGefunden !in plan
    ensures t.pc.Fertig? && t.geliefert == seq(n, i => i)
  {
    JederLauf(n, peers, plan, t);
    StartInv(n, peers);
    AusgelaufenBeendet(Start(n, peers), plan, t);
    if t.pc.Geworfen? {
      WarumGeworfen(n, peers, plan, t, if t.pc.chunk.Some? then t.pc.chunk.value else 0);
      if t.pc.chunk.Some? { OhneAufgabe(Start(n, peers), plan, t.pc.chunk.value); }
    }
  }

  // -------------------------------------------------------- one peer that does not fail

  predicate FaelltAus(schritt: Schritt, w: nat) { schritt == Fehlversuch(w) || schritt == RumpfFehler(w) || schritt == LetzterFehler(w) }

  /** The worker has never failed: it loads, or waits for work, or has left after the last chunk was done. */
  predicate Gesund(s: Zustand, w: nat) {
    w < |s.arbeiter| && match s.arbeiter[w] case Frei => true case Haelt(_) => true case Sucht => false
                                         case Endet => s.erledigt >= s.n case Tot => s.erledigt >= s.n
  }

  lemma {:induction false} Anzahl(keys: set<nat>, a: nat, b: nat)
    requires a <= b && forall i :: i in keys ==> a <= i < b
    ensures |keys| <= b - a
    decreases b - a
  {
    if a == b {
      assert keys == {};
    } else {
      Anzahl(keys - {a}, a + 1, b);
      assert a in keys ==> |keys - {a}| == |keys| - 1;
      assert a !in keys ==> keys - {a} == keys;
    }
  }

  /** While the next chunk is missing, some chunk is not done. */
  lemma NochNichtAlle(s: Zustand)
    requires Inv(s) && !Beendet(s) && s.naechster < s.n && s.naechster !in s.fertig
    ensures s.erledigt < s.n
  {
    forall i: nat | i in s.fertig.Keys ensures s.naechster + 1 <= i < s.n { assert Orte(s, i) == 1; }
    Anzahl(s.fertig.Keys, s.naechster + 1, s.n);
  }

  lemma GesundKeinAnheuern(s: Zustand, w: nat)
    requires Inv(s) && Gesund(s, w)
    ensures !Moeglich(s, Anheuert)
  {
    if Moeglich(s, Anheuert) {
      NiemandLebt(s.arbeiter, w);
      NochNichtAlle(s);
    }
  }

  lemma GesundBleibt(s: Zustand, w: nat, schritt: Schritt)
    requires Inv(s) && Gesund(s, w) && Moeglich(s, schritt) && !FaelltAus(schritt, w)
    ensures Gesund(Nach(s, schritt), w)
  {}

  lemma {:induction false} GesundLauf(s: Zustand, plan: seq<Schritt>, t: Zustand, w: nat)
    requires Inv(s) && Gesund(s, w) && Lauf(s, plan, t) && forall schritt :: schritt in plan ==> !FaelltAus(schritt, w)
    ensures Anheuert !in plan
    decreases |plan|
  {
    hide Inv, Nach, Gesund, Moeglich;
    if plan != [] {
      assert plan == [plan[0]] + plan[1..];
      assert plan[0] in plan && forall schritt :: schritt in plan[1..] ==> schritt in plan;
      GesundKeinAnheuern(s, w);
      InvBleibt(s, plan[0]);
      GesundBleibt(s, w, plan[0]);
      GesundLauf(Nach(s, plan[0]), plan[1..], t, w);
    }
  }

  lemma {:induction false} NurNachAnheuern(s: Zustand, plan: seq<Schritt>, t: Zustand)
    requires Inv(s) && !s.pc.Anheuern? && Lauf(s, plan, t) && Anheuert !in plan
    ensures KeinNeuer !in plan && NeuerGefunden !in plan
    decreases |plan|
  {
    if plan != [] {
      assert plan == [plan[0]] + plan[1..];
      InvBleibt(s, plan[0]);
      NurNachAnheuern(Nach(s, plan[0]), plan[1..], t);
    }
  }

  /**
   * One worker that never fails is enough: the consumer never looks for a fresh peer, never waits for its own
   * lock, and the run yields all chunks unless another worker gave one up.
   */
  lemma EinGesunderReicht(n: nat, peers: nat, plan: seq<Schritt>, t: Zustand, w: nat)
    requires Lauf(Start(n, peers), plan, t) && w < peers && forall schritt :: schritt in plan ==> !FaelltAus(schritt, w)
    ensures Anheuert !in plan && KeinNeuer !in plan && NeuerGefunden !in plan
    ensures Ausgelaufen(t) ==> t.pc.Fertig? || (t.pc.Geworfen? && t.pc.chunk.Some? && Aufgabe(Start(n, peers), plan, t.pc.chunk.value))
  {
    StartInv(n, peers);
    GesundLauf(Start(n, peers), plan, t, w);
    NurNachAnheuern(Start(n, peers), plan, t);
    if Ausgelaufen(t) {
      AusgelaufenBeendet(Start(n, peers), plan, t);
      if t.pc.Geworfen? { WarumGeworfen(n, peers, plan, t, if t.pc.chunk.Some? then t.pc.chunk.value else 0); }
    }
  }

  lemma {:induction false} LaufVerketten(s: Zustand, plan: seq<Schritt>, u: Zustand, weiter: seq<Schritt>, t: Zustand)
    requires Lauf(s, plan, u) && Lauf(u, weiter, t)
    ensures Lauf(s, plan + weiter, t)
    decreases |plan|
  {
    hide Nach, Moeglich;
    if plan == [] { assert plan + weiter == weiter; } else {
      LaufVerketten(Nach(s, plan[0]), plan[1..], u, weiter, t);
      assert (plan + weiter)[1..] == plan[1..] + weiter;
    }
  }

  /** A worker fails on the only chunk, finds no fresh peer and leaves. */
  function PeerFaellt(w: nat): seq<Schritt> { [Nehmen(w), Fehlversuch(w), KeinFrischer(w), Ende(w)] }

  /** One chunk, tried by the first workers only. */
  function Rundum(arbeiter: seq<Arbeiter>, versuche: nat): Zustand {
    Zustand(1, [Auftrag(0, versuche)], arbeiter, map[], 0, Lebende(arbeiter), 0, [], [versuche], Schleife, Offen)
  }

  lemma EinSchritt(s: Zustand, schritt: Schritt, t: Zustand, rest: seq<Schritt>, u: Zustand)
    requires Moeglich(s, schritt) && Nach(s, schritt) == t && Lauf(t, rest, u)
    ensures Lauf(s, [schritt] + rest, u)
  {
    assert ([schritt] + rest)[1..] == rest;
  }

  lemma GehtFort(s: Zustand, w: nat, u: Zustand, t: Zustand)
    requires Moeglich(s, KeinFrischer(w)) && Nach(s, KeinFrischer(w)) == u && Moeglich(u, Ende(w)) && Nach(u, Ende(w)) == t
    ensures Lauf(s, [KeinFrischer(w), Ende(w)], t)
  {
    EinSchritt(u, Ende(w), t, [], t);
    EinSchritt(s, KeinFrischer(w), u, [Ende(w)], t);
  }

  lemma PeerFaelltLauf(arbeiter: seq<Arbeiter>, versuche: nat, w: nat)
    requires w < |arbeiter| && arbeiter[w] == Frei && versuche + 1 < MAX_VERSUCHE
    ensures Lauf(Rundum(arbeiter, versuche), PeerFaellt(w), Rundum(arbeiter[w := Tot], versuche + 1))
  {
    var s, a := Rundum(arbeiter, versuche), Auftrag(0, versuche);
    var t := Rundum(arbeiter[w := Tot], versuche + 1);
    LebendeSetzen(arbeiter, w, Tot);
    var s1 := s.(auftraege := [], arbeiter := arbeiter[w := Haelt(a)], geladen := [versuche + 1]);
    var s2 := s1.(auftraege := [Auftrag(0, versuche + 1)], arbeiter := arbeiter[w := Sucht]);
    var s3 := s2.(arbeiter := arbeiter[w := Endet]);
    assert s1.arbeiter[w := Sucht] == s2.arbeiter && s2.arbeiter[w := Endet] == s3.arbeiter && s3.arbeiter[w := Tot] == t.arbeiter;
    GehtFort(s2, w, s3, t);
    EinSchritt(s1, Fehlversuch(w), s2, [KeinFrischer(w), Ende(w)], t);
    EinSchritt(s, Nehmen(w), s1, [Fehlversuch(w), KeinFrischer(w), Ende(w)], t);
  }

  lemma ZweiterFaellt(s: Zustand, plan: seq<Schritt>, ws: seq<Arbeiter>, v: nat, j: nat)
    requires j < |ws| && ws[j] == Frei && v + 1 < MAX_VERSUCHE && Lauf(s, plan, Rundum(ws, v))
    ensures Lauf(s, plan + PeerFaellt(j), Rundum(ws[j := Tot], v + 1))
  {
    PeerFaelltLauf(ws, v, j);
    LaufVerketten(s, plan, Rundum(ws, v), PeerFaellt(j), Rundum(ws[j := Tot], v + 1));
  }

  lemma BeideFallen(ws: seq<Arbeiter>, v: nat, i: nat, j: nat)
    requires i < |ws| && j < |ws| && i != j && ws[i] == Frei && ws[j] == Frei && v + 2 < MAX_VERSUCHE
    ensures Lauf(Rundum(ws, v), PeerFaellt(i) + PeerFaellt(j), Rundum(ws[i := Tot][j := Tot], v + 2))
  {
    PeerFaelltLauf(ws, v, i);
    ZweiterFaellt(Rundum(ws, v), PeerFaellt(i), ws[i := Tot], v + 1, j);
  }

  /** With nobody left, a consumer that finds a peer waits for its own lock. */
  lemma AnheuernSteckt(s: Zustand)
    requires Moeglich(s, Anheuert)
    ensures Lauf(s, [Anheuert, NeuerGefunden], s.(pc := Eintritt, sperre := BeimVerbraucher))
  {
    var u := s.(pc := Anheuern, sperre := BeimVerbraucher);
    var t := s.(pc := Eintritt, sperre := BeimVerbraucher);
    EinSchritt(u, NeuerGefunden, t, [], t);
    EinSchritt(s, Anheuert, u, [NeuerGefunden] + [], t);
    assert [Anheuert, NeuerGefunden] == [Anheuert] + ([NeuerGefunden] + []);
  }

  /** Two peers, one chunk: both fail, and the third peer is found while the consumer holds the lock. */
  lemma SteckenBeispiel() returns (plan: seq<Schritt>, t: Zustand)
    ensures Lauf(Start(1, 2), plan, t) && t.pc.Eintritt? && Ausgelaufen(t) && t.geliefert == []
  {
    var ws := seq(2, i => Frei);
    var s, v := Rundum(ws, 0), Rundum(ws[0 := Tot][1 := Tot], 2);
    ArbeiterStart(ws, 0);
    assert Start(1, 2) == s by { assert Start(1, 2).auftraege == s.auftraege && Start(1, 2).arbeiter == ws && Start(1, 2).geladen == s.geladen; }
    LebendeSetzen(ws, 0, Tot);
    LebendeSetzen(ws[0 := Tot], 1, Tot);
    BeideFallen(ws, 0, 0, 1);
    t := v.(pc := Eintritt, sperre := BeimVerbraucher);
    AnheuernSteckt(v);
    LaufVerketten(s, PeerFaellt(0) + PeerFaellt(1), v, [Anheuert, NeuerGefunden], t);
    plan := PeerFaellt(0) + PeerFaellt(1) + [Anheuert, NeuerGefunden];
    StartInv(1, 2);
    LaufInv(s, plan, t);
    Festgefahren(t);
  }

  // ------------------------------------------------------------------ a run that succeeds

  /** The first i chunks were loaded and yielded by the first worker. */
  function Halbfertig(n: nat, peers: nat, i: nat): Zustand
    requires i <= n
  {
    Zustand(n, seq(n - i, j requires 0 <= j => Auftrag(i + j, 0)), seq(peers, j => Frei), map[], i, peers,
            i, seq(i, j => j), seq(n, j => if j < i then 1 else 0), Schleife, Offen)
  }

  lemma EinChunk(n: nat, peers: nat, i: nat)
    requires i < n && peers > 0
    ensures Lauf(Halbfertig(n, peers, i), [Nehmen(0), Geladen(0), Liefern], Halbfertig(n, peers, i + 1))
  {
    var s, t := Halbfertig(n, peers, i), Halbfertig(n, peers, i + 1);
    var s1 := s.(auftraege := t.auftraege, arbeiter := s.arbeiter[0 := Haelt(Auftrag(i, 0))], geladen := t.geladen);
    var s2 := s1.(arbeiter := s.arbeiter, fertig := map[i := Zeilen], erledigt := i + 1);
    assert s.auftraege[0] == Auftrag(i, 0) && s.auftraege[1..] == t.auftraege && s.geladen[i := 1] == t.geladen;
    assert s1.arbeiter[0 := Frei] == s.arbeiter;
    assert s2.fertig - {i} == map[] && s2.geliefert + [i] == t.geliefert;
    EinSchritt(s2, Liefern, t, [], t);
    EinSchritt(s1, Geladen(0), s2, [Liefern] + [], t);
    EinSchritt(s, Nehmen(0), s1, [Geladen(0)] + ([Liefern] + []), t);
    assert [Nehmen(0), Geladen(0), Liefern] == [Nehmen(0)] + ([Geladen(0)] + ([Liefern] + []));
  }

  lemma {:induction false} GuterLaufAb(n: nat, peers: nat, i: nat) returns (plan: seq<Schritt>, t: Zustand)
    requires i <= n && peers > 0
    ensures Lauf(Halbfertig(n, peers, i), plan, t) && t.pc.Fertig?
    decreases n - i
  {
    var s := Halbfertig(n, peers, i);
    if i == n {
      plan, t := [Abschluss], Nach(s, Abschluss);
      assert plan[1..] == [];
    } else {
      var rest;
      rest, t := GuterLaufAb(n, peers, i + 1);
      EinChunk(n, peers, i);
      plan := [Nehmen(0), Geladen(0), Liefern] + rest;
      LaufVerketten(s, [Nehmen(0), Geladen(0), Liefern], Halbfertig(n, peers, i + 1), rest, t);
    }
  }

  /** With a single peer that never fails there is a run that yields every chunk. */
  lemma GuterLauf(n: nat, peers: nat) returns (plan: seq<Schritt>, t: Zustand)
    requires peers > 0
    ensures Lauf(Start(n, peers), plan, t) && t.pc.Fertig? && t.geliefert == seq(n, i => i)
  {
    var s := Halbfertig(n, peers, 0);
    assert s.auftraege == Start(n, peers).auftraege && s.arbeiter == Start(n, peers).arbeiter && s.geladen == Start(n, peers).geladen;
    assert s.geliefert == [] && s == Start(n, peers);
    plan, t := GuterLaufAb(n, peers, 0);
    JederLauf(n, peers, plan, t);
  }
}
