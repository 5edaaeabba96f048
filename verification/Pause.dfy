/** A chain that pays a wallet twice and then pauses for longer than the newest window. */
module Pause {
  import opened Kassenbuch
  import opened Wiedergabe
  import opened Suchlauf

  function ErsterErhalt(s: Skript): Tx { Tx("a", [Coinbase], [TxOut(7, s)]) }

  function ZweiterErhalt(s: Skript): Tx { Tx("b", [Coinbase], [TxOut(9, s)]) }

  const ZWEITER := Outpoint("b", 0)

  /** The first block pays one script, the second block another one; the newest window starts at the third. */
  function MitPause(a: Skript, b: Skript): Kette {
    seq(2018, i requires 0 <= i < 2018 => Block(i, if i == 0 then [ErsterErhalt(a)] else if i == 1 then [ZweiterErhalt(b)] else []))
  }

  predicate IstPause(k: Kette, a: Skript, b: Skript) {
    |k| == 2018 && k[0].txs == [ErsterErhalt(a)] && k[1].txs == [ZweiterErhalt(b)] && forall h :: 2 <= h < |k| ==> k[h].txs == []
  }

  lemma PauseTxs(k: Kette, a: Skript, b: Skript, h: int, i: int)
    requires IstPause(k, a, b) && Stelle(k, h, i)
    ensures i == 0 && h <= 1 && k[h].txs[i] == (if h == 0 then ErsterErhalt(a) else ZweiterErhalt(b))
  {}

  lemma PauseGueltig(k: Kette, a: Skript, b: Skript)
    requires IstPause(k, a, b)
    ensures Gueltig(k)
  {
    forall h, i | Stelle(k, h, i) ensures i == 0 && h <= 1 && k[h].txs[i] == (if h == 0 then ErsterErhalt(a) else ZweiterErhalt(b)) {
      PauseTxs(k, a, b, h, i);
    }
  }

  /** Nothing is spent, and every block pays only its script. */
  lemma PauseZahlt(k: Kette, a: Skript, b: Skript, h: nat, op: Outpoint, watched: set<Skript>)
    requires IstPause(k, a, b) && h < |k|
    ensures op !in S(k, h)
    ensures op in N(k, h, watched) ==> h <= 1 && N(k, h, watched)[op].skript == (if h == 0 then a else b)
  {
    if op in S(k, h) { var i := SpentHerkunft(k[h].txs, op); }
    if op in N(k, h, watched) { var i := NeuHerkunft(k[h].txs, h, watched, op); }
  }

  lemma PauseBezahlt(k: Kette, a: Skript, b: Skript, watched: set<Skript>)
    requires IstPause(k, a, b)
    ensures a in watched ==> Outpoint("a", 0) in N(k, 0, watched) && N(k, 0, watched)[Outpoint("a", 0)].skript == a
    ensures b in watched ==> ZWEITER in N(k, 1, watched) && N(k, 1, watched)[ZWEITER].skript == b
  {
    if a in watched { NeuEnthaelt(k[0].txs, 0, watched, 0, Outpoint("a", 0)); PauseZahlt(k, a, b, 0, Outpoint("a", 0), watched); }
    if b in watched { NeuEnthaelt(k[1].txs, 1, watched, 0, ZWEITER); PauseZahlt(k, a, b, 1, ZWEITER, watched); }
  }

  /** The second block touches no other script. */
  lemma PauseUnberuehrt(k: Kette, a: Skript, b: Skript, scripts: set<Skript>)
    requires IstPause(k, a, b) && b !in scripts
    ensures !BeruehrtEines(k, 1, scripts)
  {
    forall s | s in scripts ensures !Beruehrt(k, 1, s) {
      forall op ensures op !in S(k, 1) && op !in N(k, 1, {s}) {
        PauseZahlt(k, a, b, 1, op, {s});
        if op in N(k, 1, {s}) { NeuSkript(k[1].txs, 1, {s}, op); }
      }
    }
  }
}
