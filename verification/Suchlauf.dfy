/** Why a growing prefix finds every block of a wallet (core/bip158_scan.py, lines 1689-1742 and 2049-2091). */
module Suchlauf {
  import opened Ordnung
  import opened Kassenbuch
  import opened Wiedergabe
  import opened Luecke

  // ------------------------------------------------------------- filters and use

  /** The block pays a wallet's script, or spends an output that paid it. Scripts of no wallet do not matter. */
  ghost predicate Beruehrt(k: Kette, h: int, s: Skript) {
    s.Eigen? && 0 <= h < |k| && (N(k, h, {s}) != map[] || exists h', op :: op in S(k, h) && 0 <= h' < |k| && op in N(k, h', {s}))
  }

  /** A filter never misses a wallet's script its block touches; it may match more. */
  ghost predicate FilterEhrlich(k: Kette, trifft: (int, set<Skript>) -> bool) {
    forall h, q, s :: s in q && Beruehrt(k, h, s) ==> trifft(h, q)
  }

  /** A filter that matches exactly the blocks that touch one of the scripts asked for. */
  ghost predicate FilterGenau(k: Kette, trifft: (int, set<Skript>) -> bool) {
    forall h, q :: trifft(h, q) <==> BeruehrtEines(k, h, q)
  }

  ghost predicate BeruehrtEines(k: Kette, h: int, q: set<Skript>) { exists s :: s in q && Beruehrt(k, h, s) }

  lemma BeruehrtMehr(k: Kette, h: int, q: set<Skript>, mehr: set<Skript>)
    requires BeruehrtEines(k, h, q) && q <= mehr
    ensures BeruehrtEines(k, h, mehr)
  {
    var s :| s in q && Beruehrt(k, h, s);
    assert s in mehr;
  }

  lemma GenauIstEhrlich(k: Kette, trifft: (int, set<Skript>) -> bool)
    requires FilterGenau(k, trifft)
    ensures FilterEhrlich(k, trifft)
  {
    forall h, q, s | s in q && Beruehrt(k, h, s) ensures trifft(h, q) { assert BeruehrtEines(k, h, q); }
  }

  /** The block at this height pays a script of this chain and index. */
  ghost predicate Bezahlt(k: Kette, w: Wallet, h: int, op: Outpoint, c: nat, i: nat) {
    && 0 <= h < |k| && op in N(k, h, w.Watched())
    && var s := N(k, h, w.Watched())[op].skript; s.Eigen? && s.kette == c && s.index == i
  }

  /** Some script at this index was paid in the scanned heights. */
  ghost predicate Benutzt(k: Kette, w: Wallet, von: int, bis: int, c: nat, i: nat) {
    exists h, op :: von <= h <= bis && Bezahlt(k, w, h, op, c, i)
  }

  /** The first used index is below the gap limit, every next one at most the gap limit further. */
  ghost predicate GapRegel(k: Kette, w: Wallet, von: int, bis: int) {
    forall c: nat, i: nat :: Benutzt(k, w, von, bis, c, i) ==>
      i < w.gapLimit || exists j: nat :: j < i <= j + w.gapLimit && Benutzt(k, w, von, bis, c, j)
  }

  /** What a complete first scan asks for: whole prefixes, outputs within the gap. */
  ghost predicate Vorausgesetzt(k: Kette, w: Wallet, start: int, end: int) { Praefixtreu(w) && GapRegel(k, w, start, end) }

  /** The scripts of all encoders at an index. */
  ghost predicate Bekannt(w: Wallet, scripts: set<Skript>, c: nat, i: nat) {
    forall e: nat :: e < w.encoder ==> Eigen(w.xpub, e, c, i) in scripts
  }

  ghost predicate BenutztBekannt(k: Kette, w: Wallet, von: int, tip: int, scripts: set<Skript>, unter: nat) {
    forall c: nat, i: nat :: i < unter && Benutzt(k, w, von, tip, c, i) ==> Bekannt(w, scripts, c, i)
  }

  lemma NeuSkript(txs: seq<Tx>, h: nat, watched: set<Skript>, op: Outpoint)
    requires op in Neu(txs, h, watched)
    ensures var s := Neu(txs, h, watched)[op].skript; s in watched && op in Neu(txs, h, {s})
  {
    var i := NeuHerkunft(txs, h, watched, op);
    NeuEnthaelt(txs, h, {txs[i].vout[op.vout].skript}, i, op);
  }

  function SkripteVon(neu: map<Outpoint, Ausgang>): (r: set<Skript>)
    ensures forall op :: op in neu ==> neu[op].skript in r
  {
    set op | op in neu :: neu[op].skript
  }

  /** A paid wallet script is one of the watched scripts, and its block touches it. */
  lemma BezahltBeruehrt(k: Kette, w: Wallet, h: nat, op: Outpoint) returns (s: Skript)
    requires h < |k| && op in N(k, h, w.Watched())
    ensures s == N(k, h, w.Watched())[op].skript && s in w.Watched() && w.Meins(s) && op in N(k, h, {s}) && Beruehrt(k, h, s)
  {
    NeuSkript(k[h].txs, h, w.Watched(), op);
    s := N(k, h, w.Watched())[op].skript;
    w.WatchedGenau(s);
  }

  /** An output paid to the wallet in the block at this height. */
  ghost predicate Bezahltes(k: Kette, w: Wallet, h: int, op: Outpoint) { 0 <= h < |k| && op in N(k, h, w.Watched()) }

  /** Every output paid to the wallet in these heights is in the history. */
  ghost predicate ImVerlauf(k: Kette, w: Wallet, von: int, bis: int, st: Stand) {
    forall h, op :: von <= h <= bis && Bezahltes(k, w, h, op) ==> op in st.verlauf
  }

  /** What a replayed block pays is in the history, whatever the order. */
  lemma {:induction false} GespieltEnthaelt(st: Stand, k: Kette, ev: seq<int>, h: int, op: Outpoint, watched: set<Skript>)
    requires Hoehen(k, ev) && h in ev && 0 <= h < |k| && op in N(k, h, watched)
    ensures op in Gespielt(st, k, ev, watched).verlauf
  {
    var vor, letzte := ev[..|ev| - 1], ev[|ev| - 1];
    if h != letzte {
      assert ev == vor + [letzte];
      GespieltEnthaelt(st, k, vor, h, op, watched);
    }
  }

  // ------------------------------------------------------------------ the search

  /** All blocks of these heights that touch one of the scripts were matched. */
  ghost predicate Gesucht(k: Kette, ev: seq<int>, von: int, bis: int, scripts: set<Skript>) {
    forall h, s :: von <= h <= bis && s in scripts && Beruehrt(k, h, s) ==> h in ev
  }

  lemma GesuchtMehr(k: Kette, ev: seq<int>, mehr: seq<int>, von: int, bis: int, scripts: set<Skript>)
    requires Gesucht(k, ev, von, bis, scripts) && ev <= mehr
    ensures Gesucht(k, mehr, von, bis, scripts)
  {
    forall h | h in ev ensures h in mehr {}
  }

  /** A block that was read was searched for any scripts, one whose filter did not match for those asked for. */
  lemma EineHoehe(k: Kette, trifft: (int, set<Skript>) -> bool, ev: seq<int>, h: int, scripts: set<Skript>)
    requires FilterEhrlich(k, trifft) && (h in ev || !trifft(h, scripts))
    ensures Gesucht(k, ev, h, h, scripts)
  {}

  /** One more height of a pass. */
  lemma GesuchtWeiter(k: Kette, ev: seq<int>, mehr: seq<int>, von: int, h: int, scripts: set<Skript>)
    requires Gesucht(k, ev, von, h - 1, scripts) && Gesucht(k, mehr, h, h, scripts)
    requires forall x :: x in ev ==> x in mehr
    ensures Gesucht(k, mehr, von, h, scripts)
  {
    forall x, s | von <= x <= h && s in scripts && Beruehrt(k, x, s) ensures x in mehr {
      if x < h { assert x in ev; }
    }
  }

  /** Every wallet output in a matched block of the wallet's heights has become a hit. */
  ghost predicate Treffervoll(k: Kette, w: Wallet, ev: seq<int>, hits: set<Skript>, von: int, tip: int) {
    forall h, op :: h in ev && von <= h <= tip && 0 <= h < |k| && op in N(k, h, w.Watched()) ==> N(k, h, w.Watched())[op].skript in hits
  }

  /** The state of one wallet's search: newest window done, history done for the scripts so far. */
  ghost predicate Suchstand(k: Kette, w: Wallet, ev: seq<int>, hits: set<Skript>, von: int, tv: int, tip: int, schon: set<Skript>) {
    Treffervoll(k, w, ev, hits, von, tip) && Gesucht(k, ev, tv, tip, w.Watched()) && Gesucht(k, ev, von, tv - 1, schon)
  }

  /** The wallet scripts paid from tv on, and below tv in the blocks that touch one of the scripts q. */
  ghost function Getroffen(k: Kette, w: Wallet, start: int, tv: int, end: int, q: set<Skript>): set<Skript> {
    set h, op | start <= h <= end && 0 <= h < |k| && op in N(k, h, w.Watched()) && (tv <= h || BeruehrtEines(k, h, q)) ::
      N(k, h, w.Watched())[op].skript
  }

  /** The next prefix, at least, once the blocks that touch the scripts q have been read. */
  ghost function PraefixFolge(k: Kette, w: Wallet, start: int, tv: int, end: int): set<Skript> -> set<Skript> {
    (q: set<Skript>) => w.Ziel(Getroffen(k, w, start, tv, end, q))
  }

  ghost function Wiederholt<T>(f: T -> T, x: T, n: nat): T {
    if n == 0 then x else f(Wiederholt(f, x, n - 1))
  }

  lemma ZielMonoton(w: Wallet, hits: set<Skript>, mehr: set<Skript>)
    requires hits <= mehr
    ensures w.Ziel(hits) <= w.Ziel(mehr)
  {
    forall c: nat, i: nat | w.ImPraefix(hits, c, i) ensures w.ImPraefix(mehr, c, i) {}
  }

  /** Whatever was asked for, the next prefix reaches at least as far as it demands. */
  lemma FolgeImZiel(k: Kette, w: Wallet, ev: seq<int>, hits: set<Skript>, von: int, tv: int, tip: int, schon: set<Skript>, q: set<Skript>)
    requires Suchstand(k, w, ev, hits, von, tv, tip, schon) && q <= schon
    ensures PraefixFolge(k, w, von, tv, tip)(q) <= w.Ziel(hits)
  {
    forall h, op | von <= h <= tip && 0 <= h < |k| && op in N(k, h, w.Watched()) && (tv <= h || BeruehrtEines(k, h, q))
      ensures N(k, h, w.Watched())[op].skript in hits
    {
      var s := BezahltBeruehrt(k, w, h, op);
      assert h in ev;
    }
    ZielMonoton(w, Getroffen(k, w, von, tv, tip, q), hits);
  }

  /** f asks for no more than the scripts q allow. */
  ghost predicate BleibtUnter(f: set<Skript> -> set<Skript>, schon: set<Skript>, ziel: set<Skript>) {
    forall q :: q <= schon ==> f(q) <= ziel
  }

  lemma FolgeUnter(k: Kette, w: Wallet, ev: seq<int>, hits: set<Skript>, von: int, tv: int, tip: int, schon: set<Skript>,
                   f: set<Skript> -> set<Skript>)
    requires Suchstand(k, w, ev, hits, von, tv, tip, schon) && forall q :: f(q) == w.Ziel(Getroffen(k, w, von, tv, tip, q))
    ensures BleibtUnter(f, schon, w.Ziel(hits))
  {
    forall q | q <= schon ensures f(q) <= w.Ziel(hits) {
      FolgeImZiel(k, w, ev, hits, von, tv, tip, schon, q);
    }
  }

  /** One more stage, if everything it demands is asked for. */
  lemma WiederholtWeiter(f: set<Skript> -> set<Skript>, schon: set<Skript>, ziel: set<Skript>, alle: set<Skript>, r: nat)
    requires BleibtUnter(f, schon, ziel) && ziel <= alle && Wiederholt(f, {}, r) <= schon
    ensures Wiederholt(f, {}, r + 1) <= alle
  {}

  /** A target that has nothing new contains every stage. */
  lemma {:induction false} WiederholtGanz(f: set<Skript> -> set<Skript>, schon: set<Skript>, r: nat)
    requires BleibtUnter(f, schon, schon)
    ensures Wiederholt(f, {}, r) <= schon
  {
    if r > 0 { WiederholtGanz(f, schon, r - 1); }
  }

  lemma BekanntMehr(k: Kette, w: Wallet, von: int, tip: int, schon: set<Skript>, alle: set<Skript>, n: nat)
    requires BenutztBekannt(k, w, von, tip, schon, n) && schon <= alle
    ensures BenutztBekannt(k, w, von, tip, alle, n)
  {}

  /**
   * What the history has asked for after r rounds, at least: first the prefix around what the newest window
   * pays, then around all that the blocks below pay that touch the scripts of the round before.
   */
  ghost function Stufe(k: Kette, w: Wallet, start: int, end: int, r: nat): set<Skript> {
    Wiederholt(PraefixFolge(k, w, start, FensterVon(start, end), end), {}, r)
  }

  /** From the first stage on: the first indices, what the window pays, and what is paid where the stage before was touched. */
  lemma StufeEnthaelt(k: Kette, w: Wallet, start: int, end: int, r: nat, h: int, op: Outpoint)
    requires w.Valid() && r >= 1
    ensures w.Anfang() <= Stufe(k, w, start, end, r)
    ensures start <= h <= end && Bezahltes(k, w, h, op) && (FensterVon(start, end) <= h || BeruehrtEines(k, h, Stufe(k, w, start, end, r - 1))) ==>
              N(k, h, w.Watched())[op].skript in Stufe(k, w, start, end, r)
  {
    hide PraefixFolge;
    var tv, vor := FensterVon(start, end), Stufe(k, w, start, end, r - 1);
    FolgeGenau(k, w, start, tv, end);
    AnfangImZiel(w, Getroffen(k, w, start, tv, end, vor));
  }

  lemma AnfangImZiel(w: Wallet, hits: set<Skript>)
    requires w.Valid()
    ensures w.Anfang() <= w.Ziel(hits) && hits <= w.Ziel(hits)
  {
    forall c: nat, i: nat | i < w.gapLimit ensures w.ImPraefix(hits, c, i) {}
  }

  /** The heights read: those of the newest window that touch the wallet, below it those that touch the last stage. */
  ghost predicate Gelesen(k: Kette, w: Wallet, start: int, end: int, hs: set<int>) {
    var tv := FensterVon(start, end);
    && (forall h :: h in hs ==> start <= h <= end)
    && (forall h :: tv <= h <= end && BeruehrtEines(k, h, w.Watched()) ==> h in hs)
    && (forall h :: start <= h < tv && BeruehrtEines(k, h, Stufe(k, w, start, end, w.maxIndex)) ==> h in hs)
  }

  lemma FolgeGenau(k: Kette, w: Wallet, start: int, tv: int, end: int)
    ensures forall q :: PraefixFolge(k, w, start, tv, end)(q) == w.Ziel(Getroffen(k, w, start, tv, end, q))
  {}

  /** What has been asked for reaches the next stage with the next prefix. */
  lemma StufeWeiter(k: Kette, w: Wallet, ev: seq<int>, hits: set<Skript>, start: int, tv: int, end: int, schon: set<Skript>, alle: set<Skript>, r: nat)
    requires tv == FensterVon(start, end) && Suchstand(k, w, ev, hits, start, tv, end, schon)
    requires Stufe(k, w, start, end, r) <= schon && w.Ziel(hits) <= alle
    ensures Stufe(k, w, start, end, r + 1) <= alle
  {
    hide PraefixFolge;
    var f := PraefixFolge(k, w, start, tv, end);
    FolgeGenau(k, w, start, tv, end);
    FolgeUnter(k, w, ev, hits, start, tv, end, schon, f);
    WiederholtWeiter(f, schon, w.Ziel(hits), alle, r);
  }

  lemma StufeGanz(k: Kette, w: Wallet, ev: seq<int>, hits: set<Skript>, start: int, tv: int, end: int, schon: set<Skript>, r: nat)
    requires tv == FensterVon(start, end) && Suchstand(k, w, ev, hits, start, tv, end, schon) && w.Ziel(hits) <= schon
    ensures Stufe(k, w, start, end, r) <= schon
  {
    hide PraefixFolge;
    hide PraefixFolge;
    var f := PraefixFolge(k, w, start, tv, end);
    FolgeGenau(k, w, start, tv, end);
    FolgeUnter(k, w, ev, hits, start, tv, end, schon, f);
    WiederholtGanz(f, schon, r);
  }

  lemma FolgeMonoton(k: Kette, w: Wallet, start: int, tv: int, end: int, q: set<Skript>, mehr: set<Skript>)
    requires q <= mehr
    ensures PraefixFolge(k, w, start, tv, end)(q) <= PraefixFolge(k, w, start, tv, end)(mehr)
  {
    forall h | BeruehrtEines(k, h, q) ensures BeruehrtEines(k, h, mehr) { BeruehrtMehr(k, h, q, mehr); }
    ZielMonoton(w, Getroffen(k, w, start, tv, end, q), Getroffen(k, w, start, tv, end, mehr));
  }

  lemma {:induction false} WiederholtMonoton(f: set<Skript> -> set<Skript>, n: nat)
    requires forall q, mehr :: q <= mehr ==> f(q) <= f(mehr)
    ensures Wiederholt(f, {}, n) <= Wiederholt(f, {}, n + 1)
  {
    if n > 0 { WiederholtMonoton(f, n - 1); }
  }

  /** Later stages ask for no less. */
  lemma {:induction false} StufeMonoton(k: Kette, w: Wallet, start: int, end: int, r: nat, r': nat)
    requires r <= r'
    ensures Stufe(k, w, start, end, r) <= Stufe(k, w, start, end, r')
    decreases r'
  {
    hide PraefixFolge;
    if r < r' {
      var f := PraefixFolge(k, w, start, FensterVon(start, end), end);
      forall q, mehr | q <= mehr ensures f(q) <= f(mehr) { FolgeMonoton(k, w, start, FensterVon(start, end), end, q, mehr); }
      StufeMonoton(k, w, start, end, r, r' - 1);
      WiederholtMonoton(f, r' - 1);
    }
  }

  lemma SuchstandGelesen(k: Kette, w: Wallet, ev: seq<int>, hits: set<Skript>, start: int, end: int, schon: set<Skript>)
    requires Suchstand(k, w, ev, hits, start, FensterVon(start, end), end, schon) && forall h :: h in ev ==> start <= h <= end
    requires start < FensterVon(start, end) ==> Stufe(k, w, start, end, w.maxIndex) <= schon
    ensures Gelesen(k, w, start, end, Menge(ev))
  {}

  /** A used index whose scripts were all watched is a hit. */
  lemma BenutztWirdHit(k: Kette, w: Wallet, ev: seq<int>, hits: set<Skript>, von: int, tv: int, tip: int, schon: set<Skript>, c: nat, j: nat)
    requires Suchstand(k, w, ev, hits, von, tv, tip, schon)
    requires Benutzt(k, w, von, tip, c, j) && Bekannt(w, schon, c, j)
    ensures exists s :: s in hits && w.Meins(s) && s.kette == c && s.index == j
  {
    var h, op :| von <= h <= tip && Bezahlt(k, w, h, op, c, j);
    var s := BezahltBeruehrt(k, w, h, op);
    assert s == Eigen(w.xpub, s.encoder, c, j) && s in schon && h in ev;
  }

  /** The next prefix contains every used index up to this round's number. */
  lemma BenutztImZiel(k: Kette, w: Wallet, ev: seq<int>, hits: set<Skript>, von: int, tv: int, tip: int, schon: set<Skript>, runde: nat)
    requires w.Valid() && Praefixtreu(w) && GapRegel(k, w, von, tip)
    requires Suchstand(k, w, ev, hits, von, tv, tip, schon)
    requires BenutztBekannt(k, w, von, tip, schon, runde)
    ensures BenutztBekannt(k, w, von, tip, w.Ziel(hits), runde + 1)
  {
    forall c: nat, i: nat | i <= runde && Benutzt(k, w, von, tip, c, i) ensures Bekannt(w, w.Ziel(hits), c, i) {
      var h, op :| von <= h <= tip && Bezahlt(k, w, h, op, c, i);
      var s := BezahltBeruehrt(k, w, h, op);
      if i >= w.gapLimit {
        var j: nat :| j < i <= j + w.gapLimit && Benutzt(k, w, von, tip, c, j);
        BenutztWirdHit(k, w, ev, hits, von, tv, tip, schon, c, j);
      }
      assert w.ImPraefix(hits, c, i);
    }
  }

  /** A prefix that has nothing new contains every used index. */
  lemma AllesImZiel(k: Kette, w: Wallet, ev: seq<int>, hits: set<Skript>, von: int, tv: int, tip: int, schon: set<Skript>)
    requires w.Valid() && Praefixtreu(w) && GapRegel(k, w, von, tip)
    requires Suchstand(k, w, ev, hits, von, tv, tip, schon) && w.Ziel(hits) <= schon
    ensures BenutztBekannt(k, w, von, tip, schon, w.maxIndex)
  {
    for runde := 0 to w.maxIndex
      invariant BenutztBekannt(k, w, von, tip, schon, runde)
    {
      BenutztImZiel(k, w, ev, hits, von, tv, tip, schon, runde);
    }
  }

  /** One round: the new scripts were searched, too. */
  lemma RundeGesucht(k: Kette, w: Wallet, ev: seq<int>, neu: seq<int>, von: int, tv: int, tip: int, schon: set<Skript>, neue: set<Skript>)
    requires Gesucht(k, ev, tv, tip, w.Watched()) && Gesucht(k, ev, von, tv - 1, schon)
    requires (forall h :: h in ev ==> h in neu) && Gesucht(k, neu, von, tv - 1, neue)
    ensures Gesucht(k, neu, von, tv - 1, schon + neue) && Gesucht(k, neu, tv, tip, w.Watched())
  {}

  /** A script paid in the scanned heights was watched at every height. */
  lemma SkriptGesucht(k: Kette, w: Wallet, ev: seq<int>, hits: set<Skript>, von: int, tv: int, tip: int, schon: set<Skript>,
                      hBezahlt: int, op: Outpoint, s: Skript, h: int)
    requires Suchstand(k, w, ev, hits, von, tv, tip, schon)
    requires von < tv ==> BenutztBekannt(k, w, von, tip, schon, w.maxIndex)
    requires von <= hBezahlt <= tip && 0 <= hBezahlt < |k| && op in N(k, hBezahlt, w.Watched())
    requires s == N(k, hBezahlt, w.Watched())[op].skript && s in w.Watched() && w.Meins(s)
    requires von <= h <= tip && Beruehrt(k, h, s)
    ensures h in ev
  {
    if h < tv {
      assert Bezahlt(k, w, hBezahlt, op, s.kette, s.index);
      assert Benutzt(k, w, von, tip, s.kette, s.index);
      assert s == Eigen(w.xpub, s.encoder, s.kette, s.index);
    }
  }

  /** A block no pass matched is a false positive of any scan: it neither pays nor spends for the wallet. */
  lemma UngesuchtUnwichtig(k: Kette, w: Wallet, ev: seq<int>, hits: set<Skript>, von: int, tv: int, tip: int, schon: set<Skript>,
                           hs: set<int>, h: int)
    requires Suchstand(k, w, ev, hits, von, tv, tip, schon)
    requires von < tv ==> BenutztBekannt(k, w, von, tip, schon, w.maxIndex)
    requires forall x :: x in hs <==> x in ev && von <= x <= tip
    requires 0 <= von <= h <= tip < |k| && h !in ev
    ensures FalschPositiv(LEER, k, hs, h, w.Watched())
  {
    forall op ensures op !in N(k, h, w.Watched()) {
      if op in N(k, h, w.Watched()) {
        var s := BezahltBeruehrt(k, w, h, op);
        SkriptGesucht(k, w, ev, hits, von, tv, tip, schon, h, op, s, h);
      }
    }
    forall op | op in S(k, h) ensures !Erzeugt(k, hs, op, w.Watched()) {
      if Erzeugt(k, hs, op, w.Watched()) {
        var h' := ErzeugtBei(k, hs, op, w.Watched());
        var s := BezahltBeruehrt(k, w, h', op);
        assert Beruehrt(k, h, s);
        SkriptGesucht(k, w, ev, hits, von, tv, tip, schon, h', op, s, h);
      }
    }
  }

  /** The heights from von to bis. */
  function Bereich(von: int, bis: int): (r: seq<int>)
    ensures |r| == (if von <= bis then bis - von + 1 else 0) && forall i :: 0 <= i < |r| ==> r[i] == von + i
    decreases bis - von + 1
  {
    if bis < von then [] else Bereich(von, bis - 1) + [bis]
  }

  lemma BereichMenge(von: int, bis: int)
    ensures forall h :: h in Menge(Bereich(von, bis)) <==> von <= h <= bis
  {
    forall h | von <= h <= bis ensures h in Menge(Bereich(von, bis)) { assert Bereich(von, bis)[h - von] == h; }
  }

  lemma BereichGenau(k: Kette, von: int, bis: int)
    requires 0 <= von && bis < |k|
    ensures Hoehen(k, Bereich(von, bis)) && Aufsteigend(Bereich(von, bis))
    ensures forall h :: h in Menge(Bereich(von, bis)) <==> von <= h <= bis
  {
    BereichMenge(von, bis);
  }

  ghost predicate BereichSpielbar(k: Kette, von: int, bis: int) { Hoehen(k, Bereich(von, bis)) }

  /** A completed search leaves the state of a replay of all blocks. */
  lemma SucheVollstaendig(k: Kette, w: Wallet, ev: seq<int>, eigene: seq<int>, hits: set<Skript>, von: int, tv: int, tip: int, schon: set<Skript>)
    requires Gueltig(k) && 0 <= von && tip < |k| && Suchstand(k, w, ev, hits, von, tv, tip, schon)
    requires von < tv ==> BenutztBekannt(k, w, von, tip, schon, w.maxIndex)
    requires Hoehen(k, eigene) && Aufsteigend(eigene) && forall h :: h in eigene <==> h in ev && von <= h <= tip
    ensures BereichSpielbar(k, von, tip)
    ensures Gespielt(LEER, k, eigene, w.Watched()) == Gespielt(LEER, k, Bereich(von, tip), w.Watched())
    ensures StandVon(Gespielt(LEER, k, eigene, w.Watched()), LEER, k, Menge(Bereich(von, tip)), w.Watched())
  {
    GueltigOrdentlich(k, w.Watched());
    BereichGenau(k, von, tip);
    var alle, hs := Menge(Bereich(von, tip)), Menge(eigene);
    forall h | h in alle - hs ensures FalschPositiv(LEER, k, hs, h, w.Watched()) {
      UngesuchtUnwichtig(k, w, ev, hits, von, tv, tip, schon, hs, h);
    }
    GespieltGenau(LEER, k, Bereich(von, tip), w.Watched());
    GespieltGenau(LEER, k, eigene, w.Watched());
    StandOhneFalschPositive(Gespielt(LEER, k, Bereich(von, tip), w.Watched()), LEER, k, hs, alle, w.Watched());
    StandEindeutig(Gespielt(LEER, k, eigene, w.Watched()), Gespielt(LEER, k, Bereich(von, tip), w.Watched()), LEER, k, hs, w.Watched());
  }
}
