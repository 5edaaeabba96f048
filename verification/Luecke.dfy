/** Pass planning and the gap prefix (core/bip158_scan.py, lines 232-305; core/bip158_wallet.py, lines 145-270). */
module Luecke {
  import opened Kassenbuch

  const TURBO_WINDOW := 2_016

  /** A wallet to scan: encoders, chains (receive, change), gap limit and the highest index looked at. */
  datatype Wallet = Wallet(xpub: nat, encoder: nat, ketten: nat, gapLimit: nat, maxIndex: nat, deskriptor: bool) {
    /** `scan_from_xpub` raises the index limit to the gap limit. */
    predicate Valid() { encoder >= 1 && ketten >= 1 && 1 <= gapLimit <= maxIndex }

    /** The scripts of all indices below the limit. */
    function Watched(): (r: set<Skript>)
    {
      set e, c, i | 0 <= e < encoder && 0 <= c < ketten && 0 <= i < maxIndex :: Eigen(xpub, e, c, i)
    }

    predicate Meins(s: Skript) { s.Eigen? && s.xpub == xpub && s.encoder < encoder && s.kette < ketten && s.index < maxIndex }

    lemma WatchedGenau(s: Skript)
      ensures s in Watched() <==> Meins(s)
    {}

    /** The first gap-limit indices of every chain. */
    function Anfang(): set<Skript> {
      set e, c, i | 0 <= e < encoder && 0 <= c < ketten && 0 <= i < gapLimit :: Eigen(xpub, e, c, i)
    }

    /** An index is looked at if it is within the gap limit of the start or of a hit on its chain. */
    ghost predicate ImPraefix(hits: set<Skript>, c: nat, i: nat) {
      i < maxIndex && (i < gapLimit || exists s :: s in hits && Meins(s) && s.kette == c && i <= s.index + gapLimit)
    }

    /** The scripts of the history pass for these hits. */
    ghost function Ziel(hits: set<Skript>): set<Skript> {
      if deskriptor then hits + Anfang()
      else hits + set e, c, i | 0 <= e < encoder && 0 <= c < ketten && 0 <= i < maxIndex && ImPraefix(hits, c, i) :: Eigen(xpub, e, c, i)
    }
  }

  /** The target covers the gap prefix of every set of hits. */
  ghost predicate Praefixtreu(w: Wallet) {
    forall hits, e: nat, c: nat, i: nat :: e < w.encoder && c < w.ketten && w.ImPraefix(hits, c, i) ==> Eigen(w.xpub, e, c, i) in w.Ziel(hits)
  }

  /**
   * Descriptor wallets only ever look at the first gap-limit indices and at hits, so their prefix does not
   * grow: the gap rule holds for exactly the other wallets and for those whose index limit is the gap limit.
   */
  lemma PraefixtreuGenau(w: Wallet)
    requires w.Valid()
    ensures Praefixtreu(w) <==> !w.deskriptor || w.gapLimit == w.maxIndex
  {
    if w.deskriptor && w.gapLimit < w.maxIndex {
      var hits := {Eigen(w.xpub, 0, 0, 0)};
      assert w.Meins(Eigen(w.xpub, 0, 0, 0)) && w.ImPraefix(hits, 0, w.gapLimit);
      assert Eigen(w.xpub, 0, 0, w.gapLimit) !in w.Ziel(hits);
    }
  }

  /** `max_je_chain`: the highest hit index of every chain that has one. */
  method HoechsteTreffer(w: Wallet, hits: set<Skript>) returns (hoechste: map<nat, nat>)
    ensures forall s :: s in hits && w.Meins(s) ==> s.kette in hoechste && s.index <= hoechste[s.kette]
    ensures forall c :: c in hoechste ==> exists s :: s in hits && w.Meins(s) && s.kette == c && s.index == hoechste[c]
  {
    hoechste := map[];
    var offen := hits;
    while offen != {}
      invariant offen <= hits
      invariant forall s :: s in hits - offen && w.Meins(s) ==> s.kette in hoechste && s.index <= hoechste[s.kette]
      invariant forall c :: c in hoechste ==> exists s :: s in hits && w.Meins(s) && s.kette == c && s.index == hoechste[c]
      decreases |offen|
    {
      var s :| s in offen;
      offen := offen - {s};
      if w.Meins(s) && (s.kette !in hoechste || s.index > hoechste[s.kette]) {
        hoechste := hoechste[s.kette := s.index];
      }
    }
  }

  /** `scripts_mit_gap_um_treffer`: the whole prefix of every chain, as the gap rule defines it. */
  method ScriptsMitGapUmTreffer(w: Wallet, hits: set<Skript>) returns (out: set<Skript>)
    requires w.Valid()
    ensures out == w.Ziel(hits)
  {
    if w.deskriptor { return hits + w.Anfang(); }
    var hoechste := HoechsteTreffer(w, hits);
    out := hits;
    for c := 0 to w.ketten
      invariant out == hits + set e, c', i | 0 <= e < w.encoder && 0 <= c' < c && 0 <= i < w.maxIndex && w.ImPraefix(hits, c', i) :: Eigen(w.xpub, e, c', i)
    {
      var ende := if c !in hoechste then w.gapLimit else hoechste[c] + w.gapLimit + 1;
      if ende > w.maxIndex { ende := w.maxIndex; }
      assert forall i: nat :: i < ende <==> w.ImPraefix(hits, c, i);
      out := out + set e, i | 0 <= e < w.encoder && 0 <= i < ende :: Eigen(w.xpub, e, c, i);
    }
  }

  /** `naechste_historie_scripts`: what the prefix has gained since the last pass. */
  method NaechsteHistorieScripts(w: Wallet, hits: set<Skript>, schon: set<Skript>) returns (neue: set<Skript>)
    requires w.Valid()
    ensures neue == w.Ziel(hits) - schon
  {
    var ziel := ScriptsMitGapUmTreffer(w, hits);
    neue := ziel - schon;
  }

  // -------------------------------------------------------------------- planning

  datatype Pass = Pass(historie: bool, von: int, bis: int, scripts: set<Skript>)

  /** The first height of the newest window. */
  function FensterVon(start: int, tip: int): int { if start >= tip - TURBO_WINDOW + 1 then start else tip - TURBO_WINDOW + 1 }

  /** `plane_filter_passes`: newest window first on a first scan, in height order afterwards. */
  function PlaneFilterPasses(start: int, tip: int, alle: set<Skript>, used: set<Skript>, gap: set<Skript>): (r: seq<Pass>)
  {
    if tip < start then [] else
      var turboVon := FensterVon(start, tip);
      var turbo := Pass(false, turboVon, tip, alle);
      if start >= turboVon then [turbo]
      else if used == {} then [turbo, Pass(true, start, turboVon - 1, gap)]
      else [Pass(true, start, turboVon - 1, used), turbo]
  }

  ghost predicate ImPass(p: Pass, h: int) { p.von <= h <= p.bis }

  ghost predicate InPaessen(paesse: seq<Pass>, h: int) { exists i :: 0 <= i < |paesse| && ImPass(paesse[i], h) }

  /**
   * The passes cover every height from start to tip exactly once: the newest 2016 heights for all scripts, the
   * older ones for the known scripts, or on a first scan for the gap scripts. A first scan takes the window first.
   */
  lemma PaesseDeckenAb(start: int, tip: int, alle: set<Skript>, used: set<Skript>, gap: set<Skript>)
    ensures var p := PlaneFilterPasses(start, tip, alle, used, gap);
            && (forall h :: InPaessen(p, h) <==> start <= h <= tip)
            && (forall i, j, h :: 0 <= i < j < |p| ==> !(ImPass(p[i], h) && ImPass(p[j], h)))
            && (forall i, h :: 0 <= i < |p| && ImPass(p[i], h) ==> (p[i].historie <==> h <= tip - 2016))
            && (forall i :: 0 <= i < |p| ==> p[i].scripts == if !p[i].historie then alle else if used == {} then gap else used)
            && (used == {} && p != [] ==> !p[0].historie)
            && (used != {} ==> forall i, j :: 0 <= i < j < |p| ==> p[i].bis < p[j].von)
  {
    var p := PlaneFilterPasses(start, tip, alle, used, gap);
    forall h ensures InPaessen(p, h) <==> start <= h <= tip {
      if start <= h <= tip { assert ImPass(p[0], h) || ImPass(p[1], h); }
    }
  }
}
