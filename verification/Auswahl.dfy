/** The selection strategies and the reported result (core/coin_auswahl.py, `_gier` to `_ergebnis`). */
module Auswahl {
  import opened Ordnung
  import opened Gebuehren
  import opened Kandidaten
  import opened Suche
  import opened Austausch

  const STAUB_AUFRAEUMEN_SATS := 100_000

  /** An accepted selection of the given candidates, with its verdict. */
  ghost predicate Zulaessig(l: Loesung, s: seq<Kandidat>, kand: seq<Kandidat>, betrag: int, kosten: Kosten) {
    s != [] && Urteil(s, betrag, kosten) == Some(l) && Verschieden(s) && forall k :: k in s ==> k in kand
  }

  /** The verdict ranks before that of every accepted selection of the candidates. */
  ghost predicate Optimal(l: Option<Loesung>, s: seq<Kandidat>, nutzbar: seq<Kandidat>, betrag: int, kosten: Kosten) {
    && (l.None? <==> NichtsGedeckt(nutzbar, betrag, kosten))
    && (l.Some? ==>
          && Teilfolge(s, nutzbar)
          && forall t :: Teilfolge(t, nutzbar) && t != [] && t != s && Urteil(t, betrag, kosten).Some? ==>
               RangKleiner(RangVon(l.value, s), RangVon(Urteil(t, betrag, kosten).value, t)))
  }

  // ------------------------------------------------------------------- greedy

  ghost predicate ErstesPraefix(reihe: seq<Kandidat>, j: nat, betrag: int, kosten: Kosten) {
    1 <= j <= |reihe| && Urteil(reihe[..j], betrag, kosten).Some? && forall i :: 1 <= i < j ==> Urteil(reihe[..i], betrag, kosten).None?
  }

  ghost predicate KeinPraefix(reihe: seq<Kandidat>, betrag: int, kosten: Kosten) {
    forall j :: 1 <= j <= |reihe| ==> Urteil(reihe[..j], betrag, kosten).None?
  }

  /** The shortest accepted prefix, if any prefix is accepted (`_reihe`, and the first half of `_gier`). */
  method Reihe(reihenfolge: seq<Kandidat>, betrag: int, kosten: Kosten) returns (loesung: Option<Loesung>, gewaehlt: seq<Kandidat>)
    ensures loesung.None? ==> KeinPraefix(reihenfolge, betrag, kosten)
    ensures loesung.Some? ==> ErstesPraefix(reihenfolge, |gewaehlt|, betrag, kosten)
                              && gewaehlt == reihenfolge[..|gewaehlt|] && Urteil(gewaehlt, betrag, kosten) == loesung
  {
    gewaehlt := [];
    var g, w := 0, 0;
    for i := 0 to |reihenfolge|
      invariant gewaehlt == reihenfolge[..i]
      invariant g == SummeBeitrag(gewaehlt) && w == SummeWert(gewaehlt)
      invariant forall j :: 1 <= j <= i ==> Urteil(reihenfolge[..j], betrag, kosten).None?
    {
      var k := reihenfolge[i];
      SummeVerketten(gewaehlt, [k]);
      assert reihenfolge[..i + 1] == reihenfolge[..i] + [k];
      gewaehlt := gewaehlt + [k];
      g, w := g + k.beitrag, w + k.wert;
      loesung := Bewerte(|gewaehlt|, g, w, betrag, kosten);
      if loesung.Some? { return; }
    }
    loesung, gewaehlt := None, [];
  }

  predicate KleinsterBeitrag(a: Kandidat, b: Kandidat) {
    a.beitrag < b.beitrag
    || (a.beitrag == b.beitrag && (-a.zeit < -b.zeit || (a.zeit == b.zeit && StringKleiner(a.key, b.key))))
  }

  /** Superfluous inputs are looked at from the smallest contribution up, the younger of two equal ones first. */
  lemma KleinsterBeitragVorn(s: seq<Kandidat>, i: nat, j: nat)
    requires i < j < |s|
    ensures |Sortiert(KleinsterBeitrag, s)| == |s|
    ensures var a, b := Sortiert(KleinsterBeitrag, s)[i], Sortiert(KleinsterBeitrag, s)[j];
            a.beitrag < b.beitrag
            || (a.beitrag == b.beitrag && (a.zeit > b.zeit || (a.zeit == b.zeit && !StringKleiner(b.key, a.key))))
  {
    StringTotal();
    SortiertGeordnet(KleinsterBeitrag, s);
    SortiertElemente(KleinsterBeitrag, s);
  }

  /** Without k the set is accepted, with no more change: one input less is then better. */
  ghost predicate Entbehrlich(s: seq<Kandidat>, k: Kandidat, betrag: int, kosten: Kosten) {
    var alle, ohne := Urteil(s, betrag, kosten), Urteil(OhneKandidat(s, k), betrag, kosten);
    OhneKandidat(s, k) != [] && alle.Some? && ohne.Some? && ohne.value.wechselgeld <= alle.value.wechselgeld
  }

  /** What is left of the prefix when k is looked at: everything kept, and k with all that is looked at after it. */
  ghost function Stand(anfang: seq<Kandidat>, rest: seq<Kandidat>, k: Kandidat): seq<Kandidat> {
    Gefiltert((x: Kandidat) => x in rest || x == k || KleinsterBeitrag(k, x), anfang)
  }

  /** An input of the prefix is kept exactly if it could not be spared when it was looked at. */
  ghost predicate Ausgeduennt(anfang: seq<Kandidat>, rest: seq<Kandidat>, betrag: int, kosten: Kosten) {
    && (forall k :: k in rest ==> k in anfang)
    && forall k :: k in anfang ==> (k in rest <==> !Entbehrlich(Stand(anfang, rest, k), k, betrag, kosten))
  }

  lemma EntbehrlichGleich(s: seq<Kandidat>, t: seq<Kandidat>, k: Kandidat, betrag: int, kosten: Kosten)
    requires Verschieden(s) && Verschieden(t) && forall x :: x in s <==> x in t
    ensures Entbehrlich(s, k, betrag, kosten) <==> Entbehrlich(t, k, betrag, kosten)
  {
    OhneKandidatSumme(s, k);
    OhneKandidatSumme(t, k);
    GleicheSummen(s, t);
    GleicheSummen(OhneKandidat(s, k), OhneKandidat(t, k));
  }

  lemma StandVerschieden(anfang: seq<Kandidat>, rest: seq<Kandidat>, k: Kandidat)
    requires Verschieden(anfang)
    ensures Verschieden(Stand(anfang, rest, k))
  {
    var p := (x: Kandidat) => x in rest || x == k || KleinsterBeitrag(k, x);
    GefiltertTeilfolge(p, anfang);
    TeilfolgeVerschieden(Gefiltert(p, anfang), anfang);
  }

  /** Where the thinning stands: the first i inputs of the order are decided, the others are still there. */
  ghost predicate Entschieden(anfang: seq<Kandidat>, reihe: seq<Kandidat>, i: nat, rest: seq<Kandidat>, betrag: int, kosten: Kosten) {
    && i <= |reihe|
    && (forall k :: k in rest ==> k in anfang)
    && (forall j :: i <= j < |reihe| ==> reihe[j] in rest)
    && forall j :: 0 <= j < i ==> (reihe[j] in rest <==> !Entbehrlich(Stand(anfang, rest, reihe[j]), reihe[j], betrag, kosten))
  }

  /** Strictly ordered, since the keys are distinct. */
  lemma ReiheStreng(anfang: seq<Kandidat>, i: nat, j: nat)
    requires Verschieden(anfang) && i < j < |anfang|
    ensures |Sortiert(KleinsterBeitrag, anfang)| == |anfang|
    ensures KleinsterBeitrag(Sortiert(KleinsterBeitrag, anfang)[i], Sortiert(KleinsterBeitrag, anfang)[j])
    ensures !KleinsterBeitrag(Sortiert(KleinsterBeitrag, anfang)[j], Sortiert(KleinsterBeitrag, anfang)[i])
  {
    StringTotal();
    SortiertGeordnet(KleinsterBeitrag, anfang);
    SortiertKandidaten(KleinsterBeitrag, anfang);
  }

  /** What an earlier input was compared with does not depend on the decision on a later one. */
  lemma StandBleibt(anfang: seq<Kandidat>, i: nat, j: nat, rest: seq<Kandidat>, neu: seq<Kandidat>, betrag: int, kosten: Kosten)
    requires Verschieden(anfang) && j < i < |anfang| && |Sortiert(KleinsterBeitrag, anfang)| == |anfang|
    requires forall x :: x in neu ==> x in rest
    requires forall x :: x in rest && x != Sortiert(KleinsterBeitrag, anfang)[i] ==> x in neu
    ensures var k := Sortiert(KleinsterBeitrag, anfang)[j];
            Entbehrlich(Stand(anfang, neu, k), k, betrag, kosten) <==> Entbehrlich(Stand(anfang, rest, k), k, betrag, kosten)
  {
    var k := Sortiert(KleinsterBeitrag, anfang)[j];
    ReiheStreng(anfang, j, i);
    StandVerschieden(anfang, neu, k);
    StandVerschieden(anfang, rest, k);
    EntbehrlichGleich(Stand(anfang, neu, k), Stand(anfang, rest, k), k, betrag, kosten);
  }

  /** The input looked at was compared with all that was left. */
  lemma StandJetzt(anfang: seq<Kandidat>, i: nat, rest: seq<Kandidat>, neu: seq<Kandidat>, betrag: int, kosten: Kosten)
    requires Verschieden(anfang) && Verschieden(rest) && |Sortiert(KleinsterBeitrag, anfang)| == |anfang|
    requires i < |anfang| && Entschieden(anfang, Sortiert(KleinsterBeitrag, anfang), i, rest, betrag, kosten)
    requires forall x :: x in neu ==> x in rest
    requires forall x :: x in rest && x != Sortiert(KleinsterBeitrag, anfang)[i] ==> x in neu
    ensures var k := Sortiert(KleinsterBeitrag, anfang)[i];
            Entbehrlich(Stand(anfang, neu, k), k, betrag, kosten) <==> Entbehrlich(rest, k, betrag, kosten)
  {
    var reihe := Sortiert(KleinsterBeitrag, anfang);
    var k := reihe[i];
    StandVerschieden(anfang, neu, k);
    forall x ensures x in Stand(anfang, neu, k) <==> x in rest {
      if x in anfang && KleinsterBeitrag(k, x) {
        var m := PlatzInReihe(anfang, x);
        if m < i { ReiheStreng(anfang, m, i); }
        StringTotal();
        assert x in rest;
      }
    }
    EntbehrlichGleich(Stand(anfang, neu, k), rest, k, betrag, kosten);
  }

  /** One input less, if that is accepted and ranks strictly before. */
  method Weglassen(kand: seq<Kandidat>, gewaehlt: seq<Kandidat>, k: Kandidat, g: int, w: int, loesung: Loesung, betrag: int, kosten: Kosten)
    returns (l: Loesung, s: seq<Kandidat>, g': int, w': int)
    requires Zulaessig(loesung, gewaehlt, kand, betrag, kosten) && k in gewaehlt
    requires g == SummeBeitrag(gewaehlt) && w == SummeWert(gewaehlt)
    ensures Zulaessig(l, s, kand, betrag, kosten) && g' == SummeBeitrag(s) && w' == SummeWert(s)
    ensures NichtGroesser(RangVon(l, s), RangVon(loesung, gewaehlt))
    ensures s == if Entbehrlich(gewaehlt, k, betrag, kosten) then OhneKandidat(gewaehlt, k) else gewaehlt
  {
    l, s, g', w' := loesung, gewaehlt, g, w;
    var probe := OhneKandidat(gewaehlt, k);
    OhneKandidatSumme(gewaehlt, k);
    if probe != [] {
      var neu := Bewerte(|probe|, g - k.beitrag, w - k.wert, betrag, kosten);
      if neu.Some? && RangKleiner(RangVon(neu.value, probe), RangVon(loesung, gewaehlt)) {
        l, s, g', w' := neu.value, probe, g - k.beitrag, w - k.wert;
      }
    }
  }

  lemma EntscheidungGefallen(anfang: seq<Kandidat>, i: nat, rest: seq<Kandidat>, neu: seq<Kandidat>, betrag: int, kosten: Kosten)
    requires Verschieden(anfang) && Verschieden(rest) && i < |anfang|
    requires |Sortiert(KleinsterBeitrag, anfang)| == |anfang|
    requires Entschieden(anfang, Sortiert(KleinsterBeitrag, anfang), i, rest, betrag, kosten)
    requires var k := Sortiert(KleinsterBeitrag, anfang)[i];
             neu == if Entbehrlich(rest, k, betrag, kosten) then OhneKandidat(rest, k) else rest
    ensures Entschieden(anfang, Sortiert(KleinsterBeitrag, anfang), i + 1, neu, betrag, kosten)
  {
    var reihe := Sortiert(KleinsterBeitrag, anfang);
    StandJetzt(anfang, i, rest, neu, betrag, kosten);
    forall j | 0 <= j < i
      ensures reihe[j] in neu <==> !Entbehrlich(Stand(anfang, neu, reihe[j]), reihe[j], betrag, kosten)
    {
      ReiheStreng(anfang, j, i);
      StandBleibt(anfang, i, j, rest, neu, betrag, kosten);
    }
    forall j | i < j < |reihe| ensures reihe[j] in neu { ReiheStreng(anfang, i, j); }
  }

  /** The greedy result: the shortest accepted prefix, thinned out, ranks no worse than that prefix. */
  ghost predicate Gierig(l: Loesung, s: seq<Kandidat>, kand: seq<Kandidat>, betrag: int, kosten: Kosten) {
    exists j: nat :: ErstesPraefix(kand, j, betrag, kosten) && Ausgeduennt(kand[..j], s, betrag, kosten)
                     && NichtGroesser(RangVon(l, s), RangVon(Urteil(kand[..j], betrag, kosten).value, kand[..j]))
  }

  lemma PlatzInReihe(anfang: seq<Kandidat>, k: Kandidat) returns (m: nat)
    requires k in anfang
    ensures m < |Sortiert(KleinsterBeitrag, anfang)| == |anfang| && Sortiert(KleinsterBeitrag, anfang)[m] == k
  {
    SortiertElemente(KleinsterBeitrag, anfang);
    assert k in Sortiert(KleinsterBeitrag, anfang);
    m :| m < |Sortiert(KleinsterBeitrag, anfang)| && Sortiert(KleinsterBeitrag, anfang)[m] == k;
  }

  lemma AlleEntschieden(anfang: seq<Kandidat>, rest: seq<Kandidat>, betrag: int, kosten: Kosten)
    requires Entschieden(anfang, Sortiert(KleinsterBeitrag, anfang), |anfang|, rest, betrag, kosten)
    ensures Ausgeduennt(anfang, rest, betrag, kosten)
  {
    forall k | k in anfang ensures k in rest <==> !Entbehrlich(Stand(anfang, rest, k), k, betrag, kosten) {
      var m := PlatzInReihe(anfang, k);
    }
  }

  /** Largest contributions first until covered, then superfluous inputs dropped from the smallest up. */
  method Gier(kand: seq<Kandidat>, betrag: int, kosten: Kosten) returns (loesung: Option<Loesung>, gewaehlt: seq<Kandidat>)
    requires Verschieden(kand)
    ensures loesung.None? <==> KeinPraefix(kand, betrag, kosten)
    ensures loesung.Some? ==> Zulaessig(loesung.value, gewaehlt, kand, betrag, kosten) && Gierig(loesung.value, gewaehlt, kand, betrag, kosten)
  {
    var erste, anfang := Reihe(kand, betrag, kosten);
    if erste.None? { return None, []; }
    var l, g, w;
    l, gewaehlt, g, w := erste.value, anfang, SummeBeitrag(anfang), SummeWert(anfang);
    var reihe := Sortiert(KleinsterBeitrag, anfang);
    SortiertKandidaten(KleinsterBeitrag, anfang);
    for i := 0 to |reihe|
      invariant Zulaessig(l, gewaehlt, kand, betrag, kosten) && g == SummeBeitrag(gewaehlt) && w == SummeWert(gewaehlt)
      invariant NichtGroesser(RangVon(l, gewaehlt), RangVon(erste.value, anfang))
      invariant Entschieden(anfang, reihe, i, gewaehlt, betrag, kosten)
    {
      ghost var vorher, bisher := RangVon(l, gewaehlt), gewaehlt;
      l, gewaehlt, g, w := Weglassen(kand, gewaehlt, reihe[i], g, w, l, betrag, kosten);
      NichtGroesserTransitiv(RangVon(l, gewaehlt), vorher, RangVon(erste.value, anfang));
      EntscheidungGefallen(anfang, i, bisher, gewaehlt, betrag, kosten);
    }
    AlleEntschieden(anfang, gewaehlt, betrag, kosten);
    loesung := Some(l);
  }

  lemma NichtGroesserTransitiv(a: Rang, b: Rang, c: Rang)
    requires NichtGroesser(a, b) && NichtGroesser(b, c)
    ensures NichtGroesser(a, c)
  {
    if RangKleiner(a, b) && RangKleiner(b, c) { RangTransitiv(a, b, c); }
  }

  // ---------------------------------------------------------- branch and bound

  datatype Meta = Meta(knoten: nat, erschoepft: bool, gierig: bool)

  /** No selection of the candidates is accepted. */
  ghost predicate NichtsGedeckt(nutzbar: seq<Kandidat>, betrag: int, kosten: Kosten) {
    forall t :: Teilfolge(t, nutzbar) && t != [] ==> Urteil(t, betrag, kosten).None?
  }

  lemma NichtsWennSchlaegt(nutzbar: seq<Kandidat>, betrag: int, kosten: Kosten)
    requires Schlaegt(None, [], nutzbar, betrag, kosten)
    ensures NichtsGedeckt(nutzbar, betrag, kosten)
  {
    forall t | Teilfolge(t, nutzbar) && t != [] ensures Urteil(t, betrag, kosten).None? { assert [] + t == t; }
  }

  lemma OptimalWennSchlaegt(b: Baum)
    requires b.Valid() && Verschieden(b.nutzbar)
    requires Schlaegt(b.besteRang, [], b.nutzbar, b.betrag, b.kosten)
    ensures Optimal(b.beste, b.besteAuswahl, b.nutzbar, b.betrag, b.kosten)
    ensures b.beste.Some? ==> KleinstesWechselgeld(b.beste.value, b.besteAuswahl, b.nutzbar, b.betrag, b.kosten)
                              && AeltereZuerst(b.besteAuswahl, b.nutzbar)
  {
    forall t | Teilfolge(t, b.nutzbar) && t != [] && Urteil(t, b.betrag, b.kosten).Some?
      ensures b.beste.Some?
      ensures t == b.besteAuswahl || RangKleiner(b.besteRang.value, RangVon(Urteil(t, b.betrag, b.kosten).value, t))
    {
      assert [] + t == t;
      var l := Urteil(t, b.betrag, b.kosten).value;
      if RangVon(b.beste.value, b.besteAuswahl) == RangVon(l, t) {
        RangEindeutig(b.beste.value, l, b.besteAuswahl, t, b.nutzbar);
      }
    }
    if b.beste.Some? { RangBedeutet(b.beste.value, b.besteAuswahl, b.nutzbar, b.betrag, b.kosten); }
  }

  /** The green sums of the suffixes, filled from the back. */
  method RestSummen(nutzbar: seq<Kandidat>) returns (summen: seq<int>)
    ensures |summen| == |nutzbar| + 1
    ensures forall i :: 0 <= i <= |nutzbar| ==> summen[i] == SummeBeitrag(nutzbar[i..])
  {
    var rest := new int[|nutzbar| + 1](_ => 0);
    for i := |nutzbar| downto 0
      invariant forall j :: i <= j <= |nutzbar| ==> rest[j] == SummeBeitrag(nutzbar[j..])
    {
      rest[i] := rest[i + 1] + nutzbar[i].beitrag;
      assert nutzbar[i..][1..] == nutzbar[i + 1..];
    }
    summen := rest[..];
  }

  lemma TeilfolgeZulaessig(s: seq<Kandidat>, nutzbar: seq<Kandidat>)
    requires Verschieden(nutzbar) && Teilfolge(s, nutzbar)
    ensures Verschieden(s) && forall k :: k in s ==> k in nutzbar
  {
    TeilfolgeVerschieden(s, nutzbar);
    forall k | k in s ensures k in nutzbar { TeilfolgeElemente(s, nutzbar, k); }
  }

  /** The result ranks no worse than the greedy one. */
  ghost predicate MindestensGierig(beste: Option<Loesung>, auswahl: seq<Kandidat>, nutzbar: seq<Kandidat>, betrag: int, kosten: Kosten) {
    beste.Some? && exists l, s :: Zulaessig(l, s, nutzbar, betrag, kosten) && Gierig(l, s, nutzbar, betrag, kosten)
                                  && NichtGroesser(RangVon(beste.value, auswahl), RangVon(l, s))
  }

  /** The exact optimum; when the node budget runs out, the better of the search and the greedy result. */
  method Bnb(nutzbar: seq<Kandidat>, betrag: int, kosten: Kosten, budget: nat)
    returns (beste: Option<Loesung>, auswahl: seq<Kandidat>, meta: Meta)
    requires kosten.Zulaessig() && betrag > 0
    requires Verschieden(nutzbar) && BeitragImWert(nutzbar) && forall k :: k in nutzbar ==> k.beitrag >= 0
    ensures beste.Some? ==> Zulaessig(beste.value, auswahl, nutzbar, betrag, kosten)
    ensures !meta.erschoepft && Wirtschaftlich(nutzbar, kosten) ==> Optimal(beste, auswahl, nutzbar, betrag, kosten)
    ensures !meta.erschoepft && Wirtschaftlich(nutzbar, kosten) && beste.Some? ==>
              KleinstesWechselgeld(beste.value, auswahl, nutzbar, betrag, kosten) && AeltereZuerst(auswahl, nutzbar)
    ensures meta.erschoepft && beste.None? ==> KeinPraefix(nutzbar, betrag, kosten)
    ensures meta.erschoepft && !KeinPraefix(nutzbar, betrag, kosten) ==> MindestensGierig(beste, auswahl, nutzbar, betrag, kosten)
    ensures meta.gierig ==> beste.Some? && Gierig(beste.value, auswahl, nutzbar, betrag, kosten)
    ensures !meta.erschoepft && beste.None? ==> NichtsGedeckt(nutzbar, betrag, kosten)
    ensures meta.knoten <= budget && (meta.gierig ==> meta.erschoepft)
    ensures meta.erschoepft ==> budget + 1 < Pow2(|nutzbar| + 1)
    ensures !meta.erschoepft && beste.Some? ==> PraefixeOffen(auswahl, betrag, kosten)
  {
    var rest := RestSummen(nutzbar);
    var baum := new Baum(nutzbar, betrag, kosten, budget, rest);
    assert nutzbar[..0] == [] && nutzbar[0..] == nutzbar;
    baum.Suchen(0, 0, 0);
    beste, auswahl := baum.beste, baum.besteAuswahl;
    if beste.Some? { TeilfolgeZulaessig(auswahl, nutzbar); }
    var gierig := false;
    if baum.erschoepft {
      var g, gAuswahl := Gier(nutzbar, betrag, kosten);
      if g.Some? && (baum.besteRang.None? || RangKleiner(RangVon(g.value, gAuswahl), baum.besteRang.value)) {
        beste, auswahl, gierig := g, gAuswahl, true;
      } else if g.Some? {
        RangTotal(RangVon(g.value, gAuswahl), baum.besteRang.value);
      }
      if g.Some? {
        assert Zulaessig(g.value, gAuswahl, nutzbar, betrag, kosten) && Gierig(g.value, gAuswahl, nutzbar, betrag, kosten);
        assert MindestensGierig(beste, auswahl, nutzbar, betrag, kosten);
      }
    } else {
      if beste.None? { NichtsWennSchlaegt(nutzbar, betrag, kosten); }
      if Wirtschaftlich(nutzbar, kosten) { OptimalWennSchlaegt(baum); }
    }
    meta := Meta(if baum.knoten < budget then baum.knoten else budget, baum.erschoepft, gierig);
  }

  // ---------------------------------------------------------- collecting dust

  predicate KleinsterWert(a: Kandidat, b: Kandidat) {
    a.wert < b.wert || (a.wert == b.wert && AelterZuerst(a, b))
  }

  predicate ImDeckel(l: Loesung, betrag: int) { l.fee * 1000 <= betrag }

  function Kleine(nutzbar: seq<Kandidat>, basis: seq<Kandidat>): seq<Kandidat> {
    Sortiert(KleinsterWert, Gefiltert((k: Kandidat) => k.key !in Keys(basis) && k.wert < STAUB_AUFRAEUMEN_SATS, nutzbar))
  }

  /** Exactly the usable coins below 100 000 sats that are not chosen yet, each once. */
  lemma KleineEigenschaften(nutzbar: seq<Kandidat>, basis: seq<Kandidat>)
    requires Verschieden(nutzbar)
    ensures Verschieden(Kleine(nutzbar, basis))
    ensures forall k :: k in Kleine(nutzbar, basis) <==>
              k in nutzbar && k.wert < 100_000 && forall x :: x in basis ==> x.key != k.key
  {
    var p := (k: Kandidat) => k.key !in Keys(basis) && k.wert < STAUB_AUFRAEUMEN_SATS;
    GefiltertTeilfolge(p, nutzbar);
    TeilfolgeVerschieden(Gefiltert(p, nutzbar), nutzbar);
    SortiertKandidaten(KleinsterWert, Gefiltert(p, nutzbar));
    forall k: Kandidat ensures k.key in Keys(basis) <==> exists x :: x in basis && x.key == k.key { KeysElemente(basis, k.key); }
  }

  /** They are looked at from the smallest value up, the older of two equal ones first. */
  lemma KleinsteVorn(nutzbar: seq<Kandidat>, basis: seq<Kandidat>, i: nat, j: nat)
    requires i < j < |Kleine(nutzbar, basis)|
    ensures var a, b := Kleine(nutzbar, basis)[i], Kleine(nutzbar, basis)[j];
            a.wert < b.wert || (a.wert == b.wert && (a.zeit < b.zeit || (a.zeit == b.zeit && !StringKleiner(b.key, a.key))))
  {
    StringTotal();
    SortiertGeordnet(KleinsterWert, Gefiltert((k: Kandidat) => k.key !in Keys(basis) && k.wert < STAUB_AUFRAEUMEN_SATS, nutzbar));
  }

  /** What collecting the next small coin needs to know about it. */
  lemma NaechsteKleine(klein: seq<Kandidat>, i: nat, basis: seq<Kandidat>, dazu: seq<Kandidat>)
    requires i < |klein| && Verschieden(klein) && Teilfolge(dazu, klein[..i])
    requires Verschieden(basis + dazu) && forall k, x :: k in klein && x in basis ==> x.key != k.key
    ensures Teilfolge(dazu, klein[..i + 1]) && Teilfolge(dazu + [klein[i]], klein[..i + 1])
    ensures klein[i] !in dazu && Verschieden(basis + dazu + [klein[i]])
  {
    var k := klein[i];
    assert klein[..i + 1] == klein[..i] + [k];
    TeilfolgeVerketten(dazu, klein[..i], [k], [k]);
    TeilfolgeVerketten(dazu, klein[..i], [], [k]);
    assert dazu + [] == dazu;
    forall x | x in basis + dazu ensures x.key != k.key {
      if x in dazu { TeilfolgeElemente(dazu, klein[..i], x); }
    }
  }

  /** The coins among the first i that were collected. */
  ghost function Vorher(dazu: seq<Kandidat>, gesehen: seq<Kandidat>, i: nat): seq<Kandidat>
    requires i <= |gesehen|
  {
    Gefiltert((x: Kandidat) => x in dazu, gesehen[..i])
  }

  /** Coin i is collected exactly if the set is accepted with it on top of those collected before. */
  ghost predicate RichtigEntschieden(basis: seq<Kandidat>, dazu: seq<Kandidat>, gesehen: seq<Kandidat>, i: nat, betrag: int, kosten: Kosten)
    requires i < |gesehen|
  {
    gesehen[i] in dazu <==> Urteil(basis + Vorher(dazu, gesehen, i) + [gesehen[i]], betrag, kosten).Some?
  }

  /** The state of the collection after looking at the small coins `gesehen`. */
  ghost predicate Gesammelt(loesung: Loesung, basis: seq<Kandidat>, dazu: seq<Kandidat>, gesehen: seq<Kandidat>,
                            nutzbar: seq<Kandidat>, basisLoesung: Loesung, betrag: int, kosten: Kosten) {
    && Teilfolge(dazu, gesehen)
    && Zulaessig(loesung, basis + dazu, nutzbar, betrag, kosten)
    && loesung.fee * 1000 <= betrag && loesung.satVbMilli >= basisLoesung.satVbMilli
    && forall i :: 0 <= i < |gesehen| ==> RichtigEntschieden(basis, dazu, gesehen, i, betrag, kosten)
  }

  /** A decision on a later coin does not touch the earlier ones. */
  lemma VorherBleibt(dazu: seq<Kandidat>, neu: seq<Kandidat>, klein: seq<Kandidat>, n: nat, i: nat)
    requires Verschieden(klein) && i <= n < |klein| && (neu == dazu || neu == dazu + [klein[n]])
    ensures Vorher(neu, klein[..n + 1], i) == Vorher(dazu, klein[..n], i)
  {
    var vorn := klein[..i];
    assert klein[..n + 1][..i] == vorn && klein[..n][..i] == vorn;
    GefiltertTeilfolge((x: Kandidat) => x in neu, vorn);
    GefiltertTeilfolge((x: Kandidat) => x in dazu, vorn);
    assert klein[n] !in vorn;
    GleicheElemente(Vorher(neu, klein[..n + 1], i), Vorher(dazu, klein[..n], i), vorn);
  }

  lemma VorherAlle(dazu: seq<Kandidat>, gesehen: seq<Kandidat>)
    requires Verschieden(gesehen) && Teilfolge(dazu, gesehen)
    ensures Vorher(dazu, gesehen, |gesehen|) == dazu
  {
    assert gesehen[..|gesehen|] == gesehen;
    GefiltertTeilfolge((x: Kandidat) => x in dazu, gesehen);
    forall x | x in dazu ensures x in gesehen { TeilfolgeElemente(dazu, gesehen, x); }
    GleicheElemente(Vorher(dazu, gesehen, |gesehen|), dazu, gesehen);
  }

  lemma EntscheidungBleibt(basis: seq<Kandidat>, dazu: seq<Kandidat>, neu: seq<Kandidat>, klein: seq<Kandidat>, n: nat, i: nat,
                           betrag: int, kosten: Kosten)
    requires Verschieden(klein) && i < n < |klein| && (neu == dazu || neu == dazu + [klein[n]])
    requires RichtigEntschieden(basis, dazu, klein[..n], i, betrag, kosten)
    ensures RichtigEntschieden(basis, neu, klein[..n + 1], i, betrag, kosten)
  {
    VorherBleibt(dazu, neu, klein, n, i);
    hide Vorher, Bewerte;
    assert klein[..n][i] == klein[..n + 1][i] != klein[n];
  }

  lemma EntscheidungenBleiben(basis: seq<Kandidat>, dazu: seq<Kandidat>, neu: seq<Kandidat>, klein: seq<Kandidat>, n: nat,
                              gesehen: seq<Kandidat>, betrag: int, kosten: Kosten)
    requires Verschieden(klein) && n < |klein| && Teilfolge(dazu, klein[..n]) && klein[n] !in dazu && gesehen == klein[..n + 1]
    requires forall i :: 0 <= i < n ==> RichtigEntschieden(basis, dazu, klein[..n], i, betrag, kosten)
    requires neu == if Urteil(basis + dazu + [klein[n]], betrag, kosten).Some? then dazu + [klein[n]] else dazu
    ensures forall i :: 0 <= i <= n ==> RichtigEntschieden(basis, neu, gesehen, i, betrag, kosten)
  {
    forall i | 0 <= i < n ensures RichtigEntschieden(basis, neu, gesehen, i, betrag, kosten) {
      EntscheidungBleibt(basis, dazu, neu, klein, n, i, betrag, kosten);
    }
    VorherBleibt(dazu, neu, klein, n, n);
    VorherAlle(dazu, klein[..n]);
    hide Bewerte, Vorher, Teilfolge;
    assert RichtigEntschieden(basis, neu, gesehen, n, betrag, kosten);
  }

  lemma SammelSchritt(loesung: Loesung, basis: seq<Kandidat>, dazu: seq<Kandidat>, klein: seq<Kandidat>, i: nat,
                      nutzbar: seq<Kandidat>, basisLoesung: Loesung, betrag: int, kosten: Kosten)
    requires i < |klein| && klein == Kleine(nutzbar, basis) && Verschieden(nutzbar)
    requires Gesammelt(loesung, basis, dazu, klein[..i], nutzbar, basisLoesung, betrag, kosten)
    ensures var neu := Urteil(basis + dazu + [klein[i]], betrag, kosten);
            && (neu.None? ==> Gesammelt(loesung, basis, dazu, klein[..i + 1], nutzbar, basisLoesung, betrag, kosten))
            && (neu.Some? && !UeberDeckel(basis + dazu + [klein[i]], loesung, betrag, kosten) ==>
                  Gesammelt(neu.value, basis, dazu + [klein[i]], klein[..i + 1], nutzbar, basisLoesung, betrag, kosten))
  {
    KleineEigenschaften(nutzbar, basis);
    NaechsteKleine(klein, i, basis, dazu);
    assert basis + dazu + [klein[i]] == basis + (dazu + [klein[i]]);
    var neu := if Urteil(basis + dazu + [klein[i]], betrag, kosten).Some? then dazu + [klein[i]] else dazu;
    EntscheidungenBleiben(basis, dazu, neu, klein, i, klein[..i + 1], betrag, kosten);
  }

  /** The next small coin on top, unless it would leave the cap or lower the rate. */
  method Einsammeln(nutzbar: seq<Kandidat>, basis: seq<Kandidat>, ghost basisLoesung: Loesung, klein: seq<Kandidat>, i: nat,
                    vorher: Loesung, bisher: seq<Kandidat>, g: int, w: int, betrag: int, kosten: Kosten)
    returns (loesung: Loesung, dazu: seq<Kandidat>, stop: bool, g': int, w': int)
    requires g == SummeBeitrag(basis + bisher) && w == SummeWert(basis + bisher)
    requires i < |klein| && klein == Kleine(nutzbar, basis) && Verschieden(nutzbar)
    requires Gesammelt(vorher, basis, bisher, klein[..i], nutzbar, basisLoesung, betrag, kosten)
    ensures g' == SummeBeitrag(basis + dazu) && w' == SummeWert(basis + dazu)
    ensures !stop ==> Gesammelt(loesung, basis, dazu, klein[..i + 1], nutzbar, basisLoesung, betrag, kosten)
    ensures stop ==> loesung == vorher && dazu == bisher && UeberDeckel(basis + dazu + [klein[i]], loesung, betrag, kosten)
  {
    SammelSchritt(vorher, basis, bisher, klein, i, nutzbar, basisLoesung, betrag, kosten);
    loesung, dazu, stop, g', w' := vorher, bisher, false, g, w;
    var k := klein[i];
    SummeVerketten(basis + bisher, [k]);
    var neu := Bewerte(|basis + bisher| + 1, g + k.beitrag, w + k.wert, betrag, kosten);
    assert neu == Urteil(basis + bisher + [k], betrag, kosten);
    if neu.None? { return; }
    if !ImDeckel(neu.value, betrag) || neu.value.satVbMilli < vorher.satVbMilli {
      stop := true;
    } else {
      assert basis + bisher + [k] == basis + (bisher + [k]);
      loesung, dazu, g', w' := neu.value, bisher + [k], g + k.beitrag, w + k.wert;
    }
  }

  /** Small coins were collected up to the first one that leaves the cap or lowers the rate, or up to the last. */
  ghost predicate Aufgeraeumt(loesung: Loesung, basis: seq<Kandidat>, dazu: seq<Kandidat>, nutzbar: seq<Kandidat>,
                              basisLoesung: Loesung, betrag: int, kosten: Kosten, begrenzt: bool) {
    exists n: nat :: AufgeraeumtBis(n, loesung, basis, dazu, nutzbar, basisLoesung, betrag, kosten, begrenzt)
  }

  ghost predicate AufgeraeumtBis(n: nat, loesung: Loesung, basis: seq<Kandidat>, dazu: seq<Kandidat>, nutzbar: seq<Kandidat>,
                                 basisLoesung: Loesung, betrag: int, kosten: Kosten, begrenzt: bool) {
    var klein := Kleine(nutzbar, basis);
    && n <= |klein| && (begrenzt <==> n < |klein|)
    && Gesammelt(loesung, basis, dazu, klein[..n], nutzbar, basisLoesung, betrag, kosten)
    && (begrenzt ==> UeberDeckel(basis + dazu + [klein[n]], loesung, betrag, kosten))
  }

  /** Small coins on top, smallest first, while the fee stays in the cap and the rate does not fall. */
  method StaubDazu(nutzbar: seq<Kandidat>, basis: seq<Kandidat>, basisLoesung: Loesung, betrag: int, kosten: Kosten)
    returns (loesung: Loesung, auswahl: seq<Kandidat>, dazu: seq<Kandidat>, begrenzt: bool)
    requires Verschieden(nutzbar) && Zulaessig(basisLoesung, basis, nutzbar, betrag, kosten)
    ensures auswahl == basis + dazu && Zulaessig(loesung, auswahl, nutzbar, betrag, kosten)
    ensures basisLoesung.fee * 1000 <= betrag ==> Aufgeraeumt(loesung, basis, dazu, nutzbar, basisLoesung, betrag, kosten, begrenzt)
    ensures basisLoesung.fee * 1000 > betrag ==>
              dazu == [] && loesung == basisLoesung && (begrenzt <==> Kleine(nutzbar, basis) != [])
  {
    var klein := Kleine(nutzbar, basis);
    auswahl, loesung, dazu, begrenzt := basis, basisLoesung, [], false;
    assert basis + [] == basis;
    if !ImDeckel(basisLoesung, betrag) {
      begrenzt := klein != [];
      return;
    }
    var g, w, i := SummeBeitrag(basis), SummeWert(basis), 0;
    while i < |klein| && !begrenzt
      invariant i <= |klein| && g == SummeBeitrag(basis + dazu) && w == SummeWert(basis + dazu)
      invariant Gesammelt(loesung, basis, dazu, klein[..i], nutzbar, basisLoesung, betrag, kosten)
      invariant begrenzt ==> i < |klein| && UeberDeckel(basis + dazu + [klein[i]], loesung, betrag, kosten)
      decreases |klein| - i, if begrenzt then 0 else 1
    {
      loesung, dazu, begrenzt, g, w := Einsammeln(nutzbar, basis, basisLoesung, klein, i, loesung, dazu, g, w, betrag, kosten);
      if !begrenzt { i := i + 1; }
    }
    auswahl := basis + dazu;
    assert AufgeraeumtBis(i, loesung, basis, dazu, nutzbar, basisLoesung, betrag, kosten, begrenzt);
  }

  /** One more small coin is an accepted set, but leaves the cap or lowers the rate. */
  predicate UeberDeckel(s: seq<Kandidat>, vorher: Loesung, betrag: int, kosten: Kosten) {
    var neu := Urteil(s, betrag, kosten);
    neu.Some? && (neu.value.fee * 1000 > betrag || neu.value.satVbMilli < vorher.satVbMilli)
  }
}
