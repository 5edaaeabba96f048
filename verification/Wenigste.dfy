/** When taking the largest inputs first takes the fewest (core/coin_auswahl.py, lines 58-59 and 370-382). */
module Wenigste {
  import opened Ordnung
  import opened Gebuehren
  import opened Kandidaten
  import opened Suche
  import opened Auswahl
  import opened Waehlen
  import opened NettoGrenze

  ghost predicate Absteigend(s: seq<Kandidat>) { forall i, j :: 0 <= i < j < |s| ==> s[i].beitrag >= s[j].beitrag }

  lemma SortiertAbsteigend(s: seq<Kandidat>)
    ensures Absteigend(Sortiert(BeitragAbsteigend, s))
  {
    SortiertGroessteVorn(s);
  }

  /** Dropping the first of a descending list does not make a prefix larger. */
  lemma {:induction false} PraefixVerschoben(s: seq<Kandidat>, n: nat)
    requires Absteigend(s) && n < |s|
    ensures SummeBeitrag(s[1..][..n]) <= SummeBeitrag(s[..n])
  {
    if n > 0 {
      PraefixVerschoben(s[1..], n - 1);
      assert s[..n][1..] == s[1..][..n - 1] && s[1..][..n][1..] == s[1..][1..][..n - 1];
    }
  }

  /** No selection of n inputs contributes more than the first n. */
  lemma {:induction false} PraefixAmGroessten(t: seq<Kandidat>, s: seq<Kandidat>)
    requires Teilfolge(t, s) && Absteigend(s)
    ensures |t| <= |s| && SummeBeitrag(t) <= SummeBeitrag(s[..|t|])
  {
    TeilfolgeLaenge(t, s);
    if t != [] {
      assert s[..|t|][1..] == s[1..][..|t| - 1];
      if t[0] == s[0] && Teilfolge(t[1..], s[1..]) {
        PraefixAmGroessten(t[1..], s[1..]);
      } else {
        PraefixAmGroessten(t, s[1..]);
        PraefixVerschoben(s, |t|);
      }
    }
  }

  /** The cheaper of the two forms of n inputs. */
  function MindestFee(n: nat, betrag: int, kosten: Kosten): int {
    if kosten.Fee(n, 1, betrag) <= kosten.Fee(n, 2, betrag) then kosten.Fee(n, 1, betrag) else kosten.Fee(n, 2, betrag)
  }

  /** No prefix shorter than j brings the amount and the cheaper fee. */
  ghost predicate VorherZuWenig(reihe: seq<Kandidat>, j: nat, betrag: int, kosten: Kosten) {
    forall i :: 1 <= i < j <= |reihe| ==> SummeBeitrag(reihe[..i]) < betrag + MindestFee(i, betrag, kosten)
  }

  /** Then the largest inputs first are the fewest: every accepted selection has at least as many. */
  lemma WenigsteInputs(kand: seq<Kandidat>, j: nat, t: seq<Kandidat>, betrag: int, kosten: Kosten)
    requires ErstesPraefix(Nutzbar(kand, kosten), j, betrag, kosten) && VorherZuWenig(Nutzbar(kand, kosten), j, betrag, kosten)
    requires Teilfolge(t, Nutzbar(kand, kosten)) && t != [] && Urteil(t, betrag, kosten).Some?
    ensures |t| >= j
  {
    var haupt := Lohnende(kand, kosten);
    SortiertAbsteigend(if haupt == [] && !kosten.basis.Fest? then UeberSechzigAcht(kand) else haupt);
    PraefixAmGroessten(t, Nutzbar(kand, kosten));
  }

  /** Among the selections that pay no fewer outputs they are then the smallest, at a constant rate with the smallest fee. */
  lemma KleinsteGroesse(kand: seq<Kandidat>, j: nat, t: seq<Kandidat>, betrag: int, kosten: Kosten)
    requires kosten.Zulaessig() && Verschieden(kand) && BeitragImWert(kand)
    requires ErstesPraefix(Nutzbar(kand, kosten), j, betrag, kosten) && VorherZuWenig(Nutzbar(kand, kosten), j, betrag, kosten)
    requires Teilfolge(t, Nutzbar(kand, kosten)) && t != [] && Urteil(t, betrag, kosten).Some?
    ensures var l, l' := Urteil(Nutzbar(kand, kosten)[..j], betrag, kosten).value, Urteil(t, betrag, kosten).value;
            l.outputs <= l'.outputs ==> l.vsize <= l'.vsize && (Konstant(kosten) ==> l.fee - l.staubInFee <= l'.fee)
  {
    WenigsteInputs(kand, j, t, betrag, kosten);
    NutzbarEigenschaften(kand, kosten);
    forall k | k in t ensures k in Nutzbar(kand, kosten) { TeilfolgeElemente(t, Nutzbar(kand, kosten), k); }
    UrteileVergleichen(Nutzbar(kand, kosten)[..j], t, betrag, kosten);
  }

  lemma UrteileVergleichen(s: seq<Kandidat>, t: seq<Kandidat>, betrag: int, kosten: Kosten)
    requires kosten.Zulaessig() && BeitragImWert(s) && BeitragImWert(t) && |s| <= |t|
    requires Urteil(s, betrag, kosten).Some? && Urteil(t, betrag, kosten).Some?
    ensures var l, l' := Urteil(s, betrag, kosten).value, Urteil(t, betrag, kosten).value;
            l.outputs <= l'.outputs ==> l.vsize <= l'.vsize && (Konstant(kosten) ==> l.fee - l.staubInFee <= l'.fee)
  {
    var l, l' := Urteil(s, betrag, kosten).value, Urteil(t, betrag, kosten).value;
    SummeBeitragImWert(s);
    SummeBeitragImWert(t);
    BewerteSolide(|s|, SummeBeitrag(s), SummeWert(s), betrag, kosten);
    BewerteSolide(|t|, SummeBeitrag(t), SummeWert(t), betrag, kosten);
    SolideVergleichen(l, |s|, SummeBeitrag(s), SummeWert(s), l', |t|, SummeBeitrag(t), SummeWert(t), betrag, kosten);
  }

  lemma SolideVergleichen(l: Loesung, n: nat, g: int, w: int, l': Loesung, n': nat, g': int, w': int, betrag: int, kosten: Kosten)
    requires kosten.Zulaessig() && n <= n' && Solide(l, n, g, w, betrag, kosten) && Solide(l', n', g', w', betrag, kosten)
    ensures l.outputs <= l'.outputs ==> l.vsize <= l'.vsize && (Konstant(kosten) ==> l.fee - l.staubInFee <= l'.fee)
  {
    if l.outputs <= l'.outputs { GroesseUndFee(kosten, n, n', l.outputs, l'.outputs, betrag); }
  }

  lemma GroesseUndFee(kosten: Kosten, n: nat, m: nat, o: nat, p: nat, betrag: int)
    requires kosten.Zulaessig() && n <= m && 1 <= o <= p <= 2
    ensures kosten.groessen.Vsize(n, o) <= kosten.groessen.Vsize(m, p)
    ensures Konstant(kosten) ==> kosten.Fee(n, o, betrag) <= kosten.Fee(m, p, betrag)
  {
    VsizeWachstum(kosten.groessen, n, m - n, o);
    VsizeWachstum(kosten.groessen, m, 0, p);
    if kosten.basis.Fest? { FestMonoton(kosten.basis.milli, kosten.groessen.Vsize(n, o), kosten.groessen.Vsize(m, p)); }
  }

  const EIN_SAT := Kosten(Schaetzung(1), STANDARD_GROESSEN)
  const GROESSERE := Kandidat("a:0", "a", 0, 100_300, 100_300, 1)
  const PASSENDE := Kandidat("b:0", "b", 0, 100_110, 100_110, 1)

  lemma ZweiMuenzen()
    ensures Nutzbar([GROESSERE, PASSENDE], EIN_SAT) == [GROESSERE, PASSENDE]
    ensures Urteil([GROESSERE], 100_000, EIN_SAT).None?
    ensures Urteil([PASSENDE], 100_000, EIN_SAT).Some? && Urteil([PASSENDE], 100_000, EIN_SAT).value.fee == 110
  {
    assert EIN_SAT.InputKosten() == 68;
    GefiltertAlle((k: Kandidat) => k.beitrag > EIN_SAT.InputKosten(), [GROESSERE, PASSENDE]);
    assert [GROESSERE, PASSENDE][1..] == [PASSENDE] && [PASSENDE][1..] == [];
    assert Sortiert(BeitragAbsteigend, [PASSENDE]) == [PASSENDE];
    assert [GROESSERE][1..] == [] && SummeBeitrag([GROESSERE]) == SummeWert([GROESSERE]) == 100_300;
    assert SummeBeitrag([PASSENDE]) == SummeWert([PASSENDE]) == 100_110;
    assert EIN_SAT.groessen.Vsize(1, 1) == 110 && EIN_SAT.groessen.Vsize(1, 2) == 141;
  }

  lemma BeideMuenzen()
    ensures Urteil([GROESSERE, PASSENDE], 100_000, EIN_SAT).Some? && Urteil([GROESSERE, PASSENDE], 100_000, EIN_SAT).value.fee >= 178
  {
    var beide := [GROESSERE, PASSENDE];
    assert EIN_SAT.groessen.Vsize(2, 2) == 209 && beide[1..] == [PASSENDE] && [PASSENDE][1..] == [];
    assert SummeBeitrag([PASSENDE]) == SummeWert([PASSENDE]) == 100_110;
  }

  lemma BeideGenommen(e: Ergebnis, a: Kandidat, b: Kandidat, betrag: int, kosten: Kosten)
    requires NachReihe(e, [a, b], betrag, kosten) && Urteil([a], betrag, kosten).None? && Urteil([a, b], betrag, kosten).Some?
    ensures e.Ok? && |e.inputs| == 2 && Urteil([a, b], betrag, kosten) == Some(e.loesung)
  {
    assert [a, b][..1] == [a] && [a, b][..2] == [a, b];
    var j: nat :| ErstesPraefix([a, b], j, betrag, kosten) && e.inputs == Sortiert(AelterZuerst, [a, b][..j])
                  && Urteil([a, b][..j], betrag, kosten) == Some(e.loesung);
    SortiertElemente(AelterZuerst, [a, b]);
  }

  /** The strategy takes two inputs where the second alone is accepted, for a smaller fee. */
  method MehrAlsNoetig() returns (e: Ergebnis)
    ensures e.Ok? && |e.inputs| == 2 && PASSENDE in Nutzbar([GROESSERE, PASSENDE], EIN_SAT)
    ensures Urteil([PASSENDE], 100_000, EIN_SAT).Some? && Urteil([PASSENDE], 100_000, EIN_SAT).value.fee < e.loesung.fee
  {
    ZweiMuenzen();
    var meta;
    e, meta := Waehle([GROESSERE, PASSENDE], 100_000, EIN_SAT, 0, GroessteZuerst, None);
    BeideMuenzen();
    BeideGenommen(e, GROESSERE, PASSENDE, 100_000, EIN_SAT);
  }

  const REICHLICH := Kandidat("a:0", "a", 0, 200_000, 200_000, 1)

  lemma ReichlicheMuenze()
    ensures Nutzbar([REICHLICH, PASSENDE], EIN_SAT) == [REICHLICH, PASSENDE]
    ensures Urteil([REICHLICH], 100_000, EIN_SAT).Some? && Urteil([REICHLICH], 100_000, EIN_SAT).value.vsize == 141
    ensures Urteil([PASSENDE], 100_000, EIN_SAT).Some? && Urteil([PASSENDE], 100_000, EIN_SAT).value.vsize == 110
  {
    assert EIN_SAT.InputKosten() == 68;
    GefiltertAlle((k: Kandidat) => k.beitrag > EIN_SAT.InputKosten(), [REICHLICH, PASSENDE]);
    assert [REICHLICH, PASSENDE][1..] == [PASSENDE] && [PASSENDE][1..] == [];
    assert Sortiert(BeitragAbsteigend, [PASSENDE]) == [PASSENDE];
    assert [REICHLICH][1..] == [] && SummeBeitrag([REICHLICH]) == SummeWert([REICHLICH]) == 200_000;
    assert SummeBeitrag([PASSENDE]) == SummeWert([PASSENDE]) == 100_110;
    assert EIN_SAT.groessen.Vsize(1, 1) == 110 && EIN_SAT.groessen.Vsize(1, 2) == 141;
  }

  lemma ErsteGenommen(e: Ergebnis, reihe: seq<Kandidat>, betrag: int, kosten: Kosten)
    requires NachReihe(e, reihe, betrag, kosten) && reihe != [] && Urteil(reihe[..1], betrag, kosten).Some?
    ensures e.Ok? && |e.inputs| == 1 && Urteil(reihe[..1], betrag, kosten) == Some(e.loesung)
  {
    var j: nat :| ErstesPraefix(reihe, j, betrag, kosten) && e.inputs == Sortiert(AelterZuerst, reihe[..j])
                  && Urteil(reihe[..j], betrag, kosten) == Some(e.loesung);
    SortiertElemente(AelterZuerst, reihe[..j]);
  }

  /** One input either way, and yet the strategy pays a change output that the other coin would not need. */
  method NichtDieKleinste() returns (e: Ergebnis)
    ensures e.Ok? && |e.inputs| == 1 && PASSENDE in Nutzbar([REICHLICH, PASSENDE], EIN_SAT)
    ensures Urteil([PASSENDE], 100_000, EIN_SAT).Some? && Urteil([PASSENDE], 100_000, EIN_SAT).value.vsize < e.loesung.vsize
  {
    ReichlicheMuenze();
    var meta;
    e, meta := Waehle([REICHLICH, PASSENDE], 100_000, EIN_SAT, 0, GroessteZuerst, None);
    assert [REICHLICH, PASSENDE][..1] == [REICHLICH];
    ErsteGenommen(e, [REICHLICH, PASSENDE], 100_000, EIN_SAT);
  }
}
