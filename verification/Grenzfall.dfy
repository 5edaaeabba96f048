/** Where the dominance argument of the search ends (core/coin_auswahl.py, lines 45-53 and 466-469). */
module Grenzfall {
  import opened Ordnung
  import opened Gebuehren
  import opened Kandidaten
  import opened Suche
  import opened Auswahl
  import opened Waehlen
  import opened Wenigste

  /** Candidates none of which pays for itself at the estimated rate, so that `waehle` falls back to all above 68 sats. */
  ghost predicate Rueckfall(kand: seq<Kandidat>, kosten: Kosten) {
    Verschieden(kand) && BeitragImWert(kand) && kosten.Zulaessig() && !kosten.basis.Fest? && Lohnende(kand, kosten) == []
  }

  ghost predicate Erweitert(s: seq<Kandidat>, t: seq<Kandidat>, nutzbar: seq<Kandidat>, betrag: int, kosten: Kosten) {
    && s != [] && t != [] && (forall k :: k in s + t ==> k in nutzbar)
    && Urteil(s, betrag, kosten).Some? && Urteil(s + t, betrag, kosten).Some?
  }

  ghost predicate Schlechter(s: seq<Kandidat>, t: seq<Kandidat>, betrag: int, kosten: Kosten)
    requires Urteil(s, betrag, kosten).Some? && Urteil(s + t, betrag, kosten).Some?
  {
    RangKleiner(RangVon(Urteil(s, betrag, kosten).value, s), RangVon(Urteil(s + t, betrag, kosten).value, s + t))
  }

  /** On no fallback list for inputs of this size does a further input improve an accepted set. */
  ghost predicate MehrNieBesser(g: Groessen) {
    forall kand, kosten: Kosten, s, t, betrag ::
      betrag > 0 && kosten.groessen == g && Rueckfall(kand, kosten) && Erweitert(s, t, Nutzbar(kand, kosten), betrag, kosten) ==>
        Schlechter(s, t, betrag, kosten)
  }

  /** On every fallback list for inputs of this size the search is exact, as far as its budget reaches. */
  lemma RueckfallWirtschaftlich(kand: seq<Kandidat>, kosten: Kosten)
    requires Rueckfall(kand, kosten) && kosten.groessen.InputVb() <= VBYTES_INPUT * MIN_SAT_VB + 1
    ensures Wirtschaftlich(Nutzbar(kand, kosten), kosten)
  {
    NutzbarEigenschaften(kand, kosten);
  }

  /** The first of four numbers of inputs after which one more adds the rounded size. */
  function VolleStelle(g: Groessen, ab: nat): (n: nat)
    ensures ab <= n <= ab + 3
  {
    if g.Vsize(ab + 1, 2) == g.Vsize(ab, 2) + g.InputVb() then ab
    else if g.Vsize(ab + 2, 2) == g.Vsize(ab + 1, 2) + g.InputVb() then ab + 1
    else if g.Vsize(ab + 3, 2) == g.Vsize(ab + 2, 2) + g.InputVb() then ab + 2 else ab + 3
  }

  /** Four inputs add exactly four times their size, so one of the steps is rounded up. */
  lemma VollerSchritt(g: Groessen, ab: nat)
    ensures var n := VolleStelle(g, ab); g.Vsize(n + 1, 2) == g.Vsize(n, 2) + g.InputVb()
  {
    VsizeWachstum(g, ab, 1, 2);
    VsizeWachstum(g, ab + 1, 1, 2);
    VsizeWachstum(g, ab + 2, 1, 2);
    VsizeWachstum(g, ab + 3, 1, 2);
    VierInputs(g, ab);
  }

  lemma VierInputs(g: Groessen, ab: nat)
    ensures g.Vsize(ab + 4, 2) == g.Vsize(ab, 2) + g.inputViertel
  {
    assert g.inputViertel * (ab + 4) == g.inputViertel * ab + 4 * g.inputViertel;
  }

  // --------------------------------------------- a list that misleads the search, for every larger input

  const SCHLUESSEL := ["a:0", "b:0", "c:0", "d:0"]

  /** n equal coins and one of 69 sats. */
  function Falle(n: nat, wert: int): (r: seq<Kandidat>)
    requires n <= 4
  {
    seq(n, i requires 0 <= i < n => Kandidat(SCHLUESSEL[i], "a", 0, wert, wert, 1)) + [Kandidat("e:0", "e", 0, 69, 69, 1)]
  }

  /** Each coin is wholly green and worth one of two values, the smaller one only once. */
  ghost predicate IstFalle(s: seq<Kandidat>, n: nat, wert: int) {
    && |s| == n + 1 && Verschieden(s) && (forall i :: 0 <= i < n ==> s[i].beitrag == s[i].wert == wert)
    && s[n].beitrag == s[n].wert == 69
  }

  /** What the equal coins are worth, at which rate they do not pay, and the amount asked for. */
  function Wert(g: Groessen, n: nat): int { g.Vsize(n, 2) + g.InputVb() + 600 }

  function Teuer(g: Groessen, n: nat): Kosten { Kosten(Schaetzung(Wert(g, n)), g) }

  function Betrag(g: Groessen, n: nat): int { (n - 1) * Wert(g, n) + 123 }

  lemma FalleForm(n: nat, wert: int)
    requires n <= 4
    ensures IstFalle(Falle(n, wert), n, wert)
  {
    var r := Falle(n, wert);
    forall i | 0 <= i < n ensures r[i].key == SCHLUESSEL[i] {}
    assert SCHLUESSEL[0] != SCHLUESSEL[1] && r[n].key == "e:0";
  }

  lemma FalleRueckfall(g: Groessen, n: nat)
    requires 1 <= n <= 4 && g.InputVb() >= 70
    ensures Rueckfall(Falle(n, Wert(g, n)), Teuer(g, n)) && IstFalle(Nutzbar(Falle(n, Wert(g, n)), Teuer(g, n)), n, Wert(g, n))
  {
    MalMonoton(1, g.InputVb(), Wert(g, n));
    FalleForm(n, Wert(g, n));
    FalleNutzbar(Falle(n, Wert(g, n)), n, Wert(g, n), Teuer(g, n));
  }

  lemma FalleNutzbar(kand: seq<Kandidat>, n: nat, wert: int, kosten: Kosten)
    requires IstFalle(kand, n, wert) && 69 < wert <= kosten.InputKosten() && kosten.Zulaessig() && !kosten.basis.Fest?
    ensures Rueckfall(kand, kosten) && IstFalle(Nutzbar(kand, kosten), n, wert)
  {
    forall k | k in kand ensures k.beitrag == k.wert && (k.wert == wert || k.wert == 69) {}
    GefiltertKeine((k: Kandidat) => k.beitrag > kosten.InputKosten(), kand);
    GefiltertAlle((k: Kandidat) => k.beitrag > VBYTES_INPUT * MIN_SAT_VB, kand);
    SortiertKandidaten(BeitragAbsteigend, kand);
    SortiertAbsteigend(kand);
    FalleSortiert(kand, n, wert, Sortiert(BeitragAbsteigend, kand));
  }

  lemma FalleSortiert(kand: seq<Kandidat>, n: nat, wert: int, s: seq<Kandidat>)
    requires IstFalle(kand, n, wert) && wert > 69
    requires Verschieden(s) && Absteigend(s) && |s| == |kand| && forall k :: k in s <==> k in kand
    ensures IstFalle(s, n, wert)
  {
    assert kand[n] in s;
    var i :| 0 <= i < |s| && s[i] == kand[n];
    assert s[n].beitrag <= s[i].beitrag;
    forall j | 0 <= j < |s| && j != i ensures s[j].beitrag == s[j].wert == wert { FalleAnderer(kand, n, wert, s, i, j); }
  }

  lemma FalleAnderer(kand: seq<Kandidat>, n: nat, wert: int, s: seq<Kandidat>, i: nat, j: nat)
    requires IstFalle(kand, n, wert) && Verschieden(s) && i < |s| && j < |s| && i != j && s[i] == kand[n] && s[j] in kand
    ensures s[j].beitrag == s[j].wert == wert
  {
    assert s[i].key != s[j].key;
  }

  lemma VsizeMindestens(g: Groessen, m: nat, outputs: nat)
    requires m >= 1 && g.InputVb() >= 70
    ensures g.Vsize(m, outputs) >= 60
  {
    MalMonoton(1, m, g.inputViertel);
  }

  lemma RateFaelltAufEins(wert: int, v: int, n: nat)
    requires wert >= 100 && v >= 60 && 1 <= n <= 4
    ensures wert * v * 1000 > (n - 1) * wert + 123
  {
    MalMonoton(60, v, wert);
    MalMonoton(n - 1, 3, wert);
  }

  /** At these rates every fee is at 1 sat/vB. */
  lemma FalleFee(g: Groessen, n: nat, m: nat, outputs: nat)
    requires 1 <= n <= 4 && 1 <= m <= n + 1 && g.InputVb() >= 70 && outputs >= 1
    ensures Teuer(g, n).Fee(m, outputs, Betrag(g, n)) == g.Vsize(m, outputs)
  {
    VsizeMindestens(g, m, outputs);
    RateFaelltAufEins(Wert(g, n), g.Vsize(m, outputs), n);
  }

  lemma {:induction false} SummeGleicher(t: seq<Kandidat>, wert: int)
    requires forall k :: k in t ==> k.beitrag == k.wert == wert
    ensures SummeBeitrag(t) == SummeWert(t) == |t| * wert
  {
    if t != [] {
      SummeGleicher(t[1..], wert);
      assert t[0] in t && |t| * wert == wert + |t[1..]| * wert;
    }
  }

  /** One of the inputs is small. */
  lemma {:induction false} SummeMitKleinem(t: seq<Kandidat>, wert: int, k: Kandidat)
    requires (forall x :: x in t ==> x.beitrag <= wert) && k in t && k.beitrag <= 69
    ensures SummeBeitrag(t) <= (|t| - 1) * wert + 69
  {
    if t[0] == k {
      SummeObergrenze(t[1..], wert);
    } else {
      SummeMitKleinem(t[1..], wert, k);
      assert t[0] in t && (|t| - 1) * wert == wert + (|t| - 2) * wert;
    }
  }

  lemma FalleTeil(s: seq<Kandidat>, n: nat, wert: int, t: seq<Kandidat>)
    requires IstFalle(s, n, wert) && Teilfolge(t, s)
    ensures forall k :: k in t ==> k.beitrag == k.wert && (k.wert == wert || k.wert == 69)
  {
    forall k | k in t ensures k.beitrag == k.wert && (k.wert == wert || k.wert == 69) { TeilfolgeElemente(t, s, k); }
  }

  /** All n + 1 inputs leave the dust limit as change, n equal ones leave more, fewer do not cover the amount. */
  lemma FalleUrteile(g: Groessen, n: nat, t: seq<Kandidat>)
    requires 1 <= n <= 4 && g.InputVb() >= 70 && g.Vsize(n + 1, 2) == g.Vsize(n, 2) + g.InputVb()
    requires t != [] && |t| <= n && forall k :: k in t ==> k.beitrag == k.wert && (k.wert == Wert(g, n) || k.wert == 69)
    ensures var l := Urteil(t, Betrag(g, n), Teuer(g, n));
            (l.Some? <==> |t| == n && forall k :: k in t ==> k.wert == Wert(g, n))
            && (l.Some? ==> l.value.wechselgeld == STAUB_SATS + g.InputVb() - 69)
  {
    var wert, betrag := Wert(g, n), Betrag(g, n);
    FalleFee(g, n, |t|, 1);
    FalleFee(g, n, |t|, 2);
    MalMonoton(|t|, n, wert);
    assert n * wert == (n - 1) * wert + wert;
    if forall k :: k in t ==> k.wert == wert {
      SummeGleicher(t, wert);
      if |t| < n { MalMonoton(|t|, n - 1, wert); }
    } else {
      var k :| k in t && k.wert != wert;
      SummeMitKleinem(t, wert, k);
      MalMonoton(|t| - 1, n - 1, wert);
    }
  }

  lemma FalleGanz(g: Groessen, n: nat, s: seq<Kandidat>)
    requires 1 <= n <= 4 && g.InputVb() >= 70 && g.Vsize(n + 1, 2) == g.Vsize(n, 2) + g.InputVb() && IstFalle(s, n, Wert(g, n))
    ensures var l := Urteil(s, Betrag(g, n), Teuer(g, n)); l.Some? && l.value.wechselgeld == STAUB_SATS
  {
    var wert := Wert(g, n);
    var gross := s[..n];
    assert s == gross + [s[n]];
    SummeVerketten(gross, [s[n]]);
    forall k | k in gross ensures k.beitrag == k.wert == wert {}
    SummeGleicher(gross, wert);
    assert [s[n]][1..] == [];
    assert n * wert == (n - 1) * wert + wert;
    FalleFee(g, n, n + 1, 2);
  }

  /** Where taking all leaves the smallest change, the optimum takes all. */
  lemma AllesAmBesten(s: seq<Kandidat>, n: nat, betrag: int, kosten: Kosten, beste: Option<Loesung>, auswahl: seq<Kandidat>)
    requires |s| == n + 1 && Urteil(s, betrag, kosten).Some?
    requires Teilfolge(auswahl, s) && |auswahl| <= n && auswahl != [] && Urteil(auswahl, betrag, kosten).Some? ==>
               Urteil(auswahl, betrag, kosten).value.wechselgeld > Urteil(s, betrag, kosten).value.wechselgeld
    requires Optimal(beste, auswahl, s, betrag, kosten)
    requires beste.Some? ==> auswahl != [] && beste == Urteil(auswahl, betrag, kosten)
    ensures beste.Some? && auswahl == s
  {
    TeilfolgeReflexiv(s);
    assert beste.Some? && (auswahl == s || RangKleiner(RangVon(beste.value, auswahl), RangVon(Urteil(s, betrag, kosten).value, s)));
    TeilfolgeLaenge(auswahl, s);
    if |auswahl| == |s| { TeilfolgeGleichLang(auswahl, s); }
  }

  /** On such a list the optimum takes all, so it has an accepted prefix, which the search never enlarges. */
  lemma OptimumNimmtAlles(g: Groessen, n: nat, s: seq<Kandidat>, beste: Option<Loesung>, auswahl: seq<Kandidat>)
    requires 1 <= n <= 4 && g.InputVb() >= 70 && g.Vsize(n + 1, 2) == g.Vsize(n, 2) + g.InputVb() && IstFalle(s, n, Wert(g, n))
    requires Optimal(beste, auswahl, s, Betrag(g, n), Teuer(g, n))
    requires beste.Some? ==> auswahl != [] && beste == Urteil(auswahl, Betrag(g, n), Teuer(g, n))
    ensures beste.Some? && auswahl == s && !PraefixeOffen(auswahl, Betrag(g, n), Teuer(g, n))
  {
    FalleGanz(g, n, s);
    if auswahl != [] && |auswahl| <= n && Teilfolge(auswahl, s) {
      FalleTeil(s, n, Wert(g, n), auswahl);
      FalleUrteile(g, n, auswahl);
    }
    AllesAmBesten(s, n, Betrag(g, n), Teuer(g, n), beste, auswahl);
    FalleAnfang(g, n, s);
  }

  lemma FalleAnfang(g: Groessen, n: nat, s: seq<Kandidat>)
    requires 1 <= n <= 4 && g.InputVb() >= 70 && g.Vsize(n + 1, 2) == g.Vsize(n, 2) + g.InputVb() && IstFalle(s, n, Wert(g, n))
    ensures var l := Urteil(s[..n], Betrag(g, n), Teuer(g, n)); l.Some? && l.value.wechselgeld == STAUB_SATS + g.InputVb() - 69
  {
    forall k | k in s[..n] ensures k.beitrag == k.wert == Wert(g, n) {}
    FalleUrteile(g, n, s[..n]);
  }

  // ---------------------------------------------------------------------- the bound

  lemma FalleVerbessert(g: Groessen, n: nat)
    requires 1 <= n <= 4 && g.InputVb() >= 70 && g.Vsize(n + 1, 2) == g.Vsize(n, 2) + g.InputVb()
    ensures !MehrNieBesser(g)
  {
    var wert, kosten, betrag := Wert(g, n), Teuer(g, n), Betrag(g, n);
    var kand := Falle(n, wert);
    FalleRueckfall(g, n);
    var s := Nutzbar(kand, kosten);
    FalleGanz(g, n, s);
    FalleAnfang(g, n, s);
    assert s == s[..n] + [s[n]];
    assert betrag > 0 by { MalMonoton(0, n - 1, wert); }
    assert Erweitert(s[..n], [s[n]], s, betrag, kosten) && !Schlechter(s[..n], [s[n]], betrag, kosten);
  }

  /** Up to 69 vbytes an input, and only up to there, further inputs never improve an accepted set of a fallback list. */
  lemma GenauBis69(g: Groessen)
    ensures MehrNieBesser(g) <==> g.InputVb() <= VBYTES_INPUT * MIN_SAT_VB + 1
  {
    if g.InputVb() <= VBYTES_INPUT * MIN_SAT_VB + 1 {
      forall kand, kosten: Kosten, s, t, betrag |
        betrag > 0 && kosten.groessen == g && Rueckfall(kand, kosten) && Erweitert(s, t, Nutzbar(kand, kosten), betrag, kosten)
        ensures Schlechter(s, t, betrag, kosten)
      {
        RueckfallWirtschaftlich(kand, kosten);
        ErweiterungNieBesser(s, t, betrag, kosten);
      }
    } else {
      VollerSchritt(g, 1);
      FalleVerbessert(g, VolleStelle(g, 1));
    }
  }

  /** For every larger input there is a fallback list on which the search, with budget to spare, misses the smallest change. */
  method SucheVerfehltOptimum(g: Groessen)
    returns (kand: seq<Kandidat>, betrag: int, kosten: Kosten, beste: Option<Loesung>, auswahl: seq<Kandidat>, meta: Meta)
    requires g.InputVb() > VBYTES_INPUT * MIN_SAT_VB + 1
    ensures kosten.groessen == g && Rueckfall(kand, kosten) && betrag > 0
    ensures !meta.erschoepft && !Optimal(beste, auswahl, Nutzbar(kand, kosten), betrag, kosten)
  {
    var n := VolleStelle(g, 1);
    VollerSchritt(g, 1);
    kand, betrag, kosten := Falle(n, Wert(g, n)), Betrag(g, n), Teuer(g, n);
    FalleRueckfall(g, n);
    assert betrag > 0 by { MalMonoton(0, n - 1, Wert(g, n)); }
    NutzbarEigenschaften(kand, kosten);
    var nutzbar := Nutzbar(kand, kosten);
    assert Pow2(6) == 64 by { assert Pow2(3) == 8; }
    Pow2Monoton(n + 2, 6);
    beste, auswahl, meta := Bnb(nutzbar, betrag, kosten, 64);
    if Optimal(beste, auswahl, nutzbar, betrag, kosten) { OptimumNimmtAlles(g, n, nutzbar, beste, auswahl); }
  }

  lemma {:induction false} Pow2Monoton(a: nat, b: nat)
    requires a <= b
    ensures Pow2(a) <= Pow2(b)
  {
    if a > 0 { Pow2Monoton(a - 1, b - 1); }
  }

  // A 2-of-3 multisig input is 104.5 vbytes. At an estimate of 20 sat/vB neither coin pays for
  // itself, so the search runs on both although the second costs more than it brings at 1 sat/vB.
  const MULTISIG := Kosten(Schaetzung(20), Groessen(418, 31, 31, 42))
  const GROSS := Kandidat("a:0", "a", 0, 2_000, 2_000, 1)
  const KLEIN := Kandidat("b:0", "b", 0, 69, 69, 1)

  lemma FallbackBeispiel()
    ensures Nutzbar([GROSS, KLEIN], MULTISIG) == [GROSS, KLEIN] && Verschieden([GROSS, KLEIN])
    ensures Urteil([GROSS], 1_000, MULTISIG).Some? && Urteil([GROSS], 1_000, MULTISIG).value.wechselgeld == 823
    ensures Urteil([GROSS, KLEIN], 1_000, MULTISIG).Some? && Urteil([GROSS, KLEIN], 1_000, MULTISIG).value.wechselgeld == 787
  {
    assert MULTISIG.InputKosten() == 2_100;
    GefiltertKeine((k: Kandidat) => k.beitrag > MULTISIG.InputKosten(), [GROSS, KLEIN]);
    GefiltertAlle((k: Kandidat) => k.beitrag > VBYTES_INPUT * MIN_SAT_VB, [GROSS, KLEIN]);
    assert [GROSS, KLEIN][1..] == [KLEIN] && [KLEIN][1..] == [];
    assert Sortiert(BeitragAbsteigend, [KLEIN]) == [KLEIN];
    assert SummeBeitrag([KLEIN]) == SummeWert([KLEIN]) == 69;
    assert MULTISIG.groessen.Vsize(1, 2) == 177 && MULTISIG.groessen.Vsize(2, 2) == 282;
  }
}
