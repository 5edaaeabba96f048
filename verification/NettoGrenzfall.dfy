/** Where the two sets of `netto_max` are not enough (core/coin_auswahl.py, lines 584-600). */
module NettoGrenzfall {
  import opened Ordnung
  import opened Gebuehren
  import opened Kandidaten
  import opened Waehlen
  import opened Grenzfall
  import opened NettoGrenze
  import opened NettoMax

  // ------------------------------------------------- a list on which one input is one too many

  function Schluessel(i: nat): string { seq(i, _ => 'a') + ":0" }

  /** n equal coins and one of 69 sats. */
  function EinerZuviel(n: nat, wert: nat): (r: seq<Kandidat>) {
    seq(n, i requires 0 <= i => Kandidat(Schluessel(i), "a", 0, wert, wert, 1)) + [Kandidat(Schluessel(n), "a", 0, 69, 69, 1)]
  }

  lemma EinerZuvielForm(n: nat, wert: nat)
    ensures IstFalle(EinerZuviel(n, wert), n, wert)
  {
    var r := EinerZuviel(n, wert);
    forall i, j | 0 <= i < j < |r| ensures r[i].key != r[j].key {
      assert |r[i].key| == i + 2 && |r[j].key| == j + 2;
    }
  }

  /** What the equal coins cover alone, paid without change. */
  function AlleinGedeckt(g: Groessen, n: nat, wert: int): int { n * wert - g.Vsize(n, 1) }

  /** The rate at that amount is 1 sat/vB, and one more input costs at least a sat more than the small coin brings. */
  ghost predicate Zuviel(s: seq<Kandidat>, n: nat, wert: int, kosten: Kosten) {
    var g := kosten.groessen;
    && kosten.Zulaessig() && !kosten.basis.Fest? && IstFalle(s, n, wert) && n >= 1
    && g.Vsize(n + 1, 1) >= g.Vsize(n, 1) + 70
    && AlleinGedeckt(g, n, wert) > 0 && kosten.Fee(n, 1, AlleinGedeckt(g, n, wert)) == g.Vsize(n, 1)
  }

  lemma AlleinUrteil(s: seq<Kandidat>, n: nat, wert: int, kosten: Kosten)
    requires Zuviel(s, n, wert, kosten)
    ensures s[..n] != [] && Teilfolge(s[..n], s) && Urteil(s[..n], AlleinGedeckt(kosten.groessen, n, wert), kosten).Some?
  {
    var t, b := s[..n], AlleinGedeckt(kosten.groessen, n, wert);
    assert s == t + [s[n]];
    TeilfolgeReflexiv(t);
    TeilfolgeVerketten(t, t, [], [s[n]]);
    assert t + [] == t;
    SummeGleicher(t, wert);
    GedecktGenau(n, SummeBeitrag(t), SummeWert(t), b, kosten);
  }

  lemma SummeAller(s: seq<Kandidat>, n: nat, wert: int)
    requires IstFalle(s, n, wert)
    ensures SummeBeitrag(s) == SummeWert(s) == n * wert + 69
  {
    assert s == s[..n] + [s[n]] && [s[n]][1..] == [];
    SummeVerketten(s[..n], [s[n]]);
    SummeGleicher(s[..n], wert);
  }

  lemma AlleWeniger(s: seq<Kandidat>, n: nat, wert: int, kosten: Kosten)
    requires Zuviel(s, n, wert, kosten)
    ensures HoechsterVon(s, kosten) < AlleinGedeckt(kosten.groessen, n, wert)
  {
    SummeAller(s, n, wert);
    HoechstensUebrig(n + 1, SummeBeitrag(s), kosten);
    assert HoechsterVon(s, kosten) == Hoechster(n + 1, SummeBeitrag(s), SummeBeitrag(s), kosten);
  }

  /** No set covers more than its sum less the fee of one output at 1 sat/vB. */
  lemma HoechstensUebrig(n: nat, g: int, kosten: Kosten)
    requires kosten.Zulaessig() && !kosten.basis.Fest?
    ensures var h := Hoechster(n, g, g, kosten); h > 0 ==> h <= g - kosten.groessen.Vsize(n, 1)
  {
    var h := Hoechster(n, g, g, kosten);
    HoechsterGenau(n, g, g, h, kosten);
    GedecktGenau(n, g, g, h, kosten);
    MinGebuehrSchranke(kosten, n, 0, 1, h);
    MinGebuehrSchranke(kosten, n, 0, 2, h);
  }

  lemma FalleListe(kand: seq<Kandidat>, n: nat, wert: int, kosten: Kosten)
    requires IstFalle(kand, n, wert) && 69 <= wert <= kosten.InputKosten() && kosten.Zulaessig() && !kosten.basis.Fest?
    ensures Rueckfall(kand, kosten) && Liste(kand, kosten) == kand && Gruene(kand) == kand
  {
    forall k | k in kand ensures k.beitrag == k.wert && (k.wert == wert || k.wert == 69) {}
    GefiltertKeine((k: Kandidat) => k.beitrag > kosten.InputKosten(), kand);
    GefiltertAlle((k: Kandidat) => k.beitrag > VBYTES_INPUT * MIN_SAT_VB, kand);
    GefiltertAlle((k: Kandidat) => k.wert == k.beitrag, kand);
  }

  /** On such a list the equal coins alone cover more than what the search finds. */
  lemma ZuvielVerfehlt(kand: seq<Kandidat>, n: nat, wert: int, kosten: Kosten)
    requires Zuviel(kand, n, wert, kosten) && 69 <= wert <= kosten.InputKosten()
    ensures Rueckfall(kand, kosten) && !Maximum(Liste(kand, kosten), Groesser(NettoVon(kand, kosten), NettoVon(kand, kosten)), kosten)
    ensures Erreichbar(Liste(kand, kosten), AlleinGedeckt(kosten.groessen, n, wert), kosten)
  {
    FalleListe(kand, n, wert, kosten);
    AlleinUrteil(kand, n, wert, kosten);
    AlleWeniger(kand, n, wert, kosten);
    NettoVonGenau(kand, kosten);
    MehrGedeckt(kand, kand[..n], AlleinGedeckt(kosten.groessen, n, wert), NettoVon(kand, kosten), kosten);
  }

  lemma MehrGedeckt(s: seq<Kandidat>, t: seq<Kandidat>, b: int, m: int, kosten: Kosten)
    requires Teilfolge(t, s) && t != [] && b > m && Urteil(t, b, kosten).Some?
    ensures !Maximum(s, m, kosten) && Erreichbar(s, b, kosten)
  {}

  // ------------------------------------------------------------- at an estimated rate

  /** On every fallback list for inputs of this size the two sets are enough, away from the corner. */
  ghost predicate ZweiGenuegen(g: Groessen) {
    forall kand, kosten: Kosten, b ::
      b > 0 && kosten.groessen == g && Rueckfall(kand, kosten) && !EckeVon(Gruene(Liste(kand, kosten)), kosten)
      && Erreichbar(Liste(kand, kosten), b, kosten) ==>
        b <= HoechsterVon(Liste(kand, kosten), kosten) || b <= HoechsterVon(Gruene(Liste(kand, kosten)), kosten)
  }

  lemma OutputStufe(g: Groessen, n: nat)
    ensures g.Vsize(n, 2) == g.Vsize(n, 1) + g.wechselVb
  {}

  lemma NichtEcke(v: int, n: nat, wert: int)
    requires wert >= 100 && v >= 60 && n <= 4
    ensures n * wert + 69 != 1001 * (wert * v) - 1
  {
    MalMonoton(60, v, wert);
    MalMonoton(n, 4, wert);
  }

  lemma TeuerZuviel(g: Groessen)
    requires g.InputVb() >= 70
    ensures var n := VolleStelle(g, 1); var wert := Wert(g, n);
            Zuviel(EinerZuviel(n, wert), n, wert, Teuer(g, n)) && 69 <= wert <= Teuer(g, n).InputKosten()
            && !EckeVon(EinerZuviel(n, wert), Teuer(g, n))
  {
    var n := VolleStelle(g, 1);
    var wert := Wert(g, n);
    EinerZuvielForm(n, wert);
    VollerSchritt(g, 1);
    OutputStufe(g, n);
    OutputStufe(g, n + 1);
    MalMonoton(1, g.InputVb(), wert);
    MalMonoton(1, n, wert);
    VsizeMindestens(g, n, 1);
    VsizeMindestens(g, n + 1, 1);
    TeuerRate(wert, g.Vsize(n, 1), n);
    SummeAller(EinerZuviel(n, wert), n, wert);
    NichtEcke(g.Vsize(n + 1, 1), n, wert);
  }

  lemma TeuerRate(wert: int, v: int, n: nat)
    requires wert >= 100 && v >= 60 && n <= 4
    ensures wert * v * 1000 > n * wert - v
  {
    MalMonoton(60, v, wert);
    MalMonoton(n, 4, wert);
  }

  /** Up to 69 vbytes an input, and only up to there, the two sets are enough on every fallback list away from the corner. */
  lemma ZweiGenuegenGenau(g: Groessen)
    ensures ZweiGenuegen(g) <==> g.InputVb() <= VBYTES_INPUT * MIN_SAT_VB + 1
  {
    if g.InputVb() <= VBYTES_INPUT * MIN_SAT_VB + 1 {
      forall kand, kosten: Kosten, b |
        b > 0 && kosten.groessen == g && Rueckfall(kand, kosten) && !EckeVon(Gruene(Liste(kand, kosten)), kosten)
        && Erreichbar(Liste(kand, kosten), b, kosten)
        ensures b <= HoechsterVon(Liste(kand, kosten), kosten) || b <= HoechsterVon(Gruene(Liste(kand, kosten)), kosten)
      {
        ListeWirtschaftlich(kand, kosten);
        ZweiMengenGenuegen(Liste(kand, kosten), b, kosten);
      }
    } else {
      var n := VolleStelle(g, 1);
      var kand, kosten := EinerZuviel(n, Wert(g, n)), Teuer(g, n);
      TeuerZuviel(g);
      ZuvielVerfehlt(kand, n, Wert(g, n), kosten);
      FalleListe(kand, n, Wert(g, n), kosten);
      AlleWeniger(kand, n, Wert(g, n), kosten);
    }
  }

  /** For every larger input there is a list and an estimate at which the maximum is missed. */
  method SchaetzungVerfehlt(g: Groessen) returns (kand: seq<Kandidat>, kosten: Kosten, m: int)
    requires g.InputVb() > VBYTES_INPUT * MIN_SAT_VB + 1
    ensures kosten.groessen == g && Rueckfall(kand, kosten) && kosten.basis.Schaetzung?
    ensures !EckeVon(Gruene(Liste(kand, kosten)), kosten) && !Maximum(Liste(kand, kosten), m, kosten)
  {
    var n := VolleStelle(g, 1);
    kand, kosten := EinerZuviel(n, Wert(g, n)), Teuer(g, n);
    TeuerZuviel(g);
    ZuvielVerfehlt(kand, n, Wert(g, n), kosten);
    FalleListe(kand, n, Wert(g, n), kosten);
    var anzahl;
    m, anzahl := NettoMaximum(kand, kosten);
  }

  // --------------------------------------------------------------- at 1 sat/vB

  /** For inputs of this size the result is the maximum on every list, without an estimate or at 1 sat/vB. */
  ghost predicate EinsImmerGenau(g: Groessen) {
    forall kand, kosten: Kosten ::
      kosten.groessen == g && kosten.Zulaessig() && Konstant(kosten) && !kosten.basis.Fest? && BeitragImWert(kand) && Verschieden(kand) ==>
        Maximum(Liste(kand, kosten), Groesser(NettoVon(Liste(kand, kosten), kosten), NettoVon(Gruene(Liste(kand, kosten)), kosten)), kosten)
  }

  /** So many coins of the rounded size of an input bring more than they cost together. */
  lemma Ueberschuss(g: Groessen, n: nat)
    requires g.inputViertel % 4 != 0 && n >= g.basisViertel + 4 * g.zielVb + 4
    ensures n * g.InputVb() > g.Vsize(n, 1)
  {
    MalMonoton(g.inputViertel + 1, 4 * g.InputVb(), n);
    MalAssoziativ(4, g.InputVb(), n);
    assert (g.inputViertel + 1) * n == g.inputViertel * n + n;
  }

  lemma EinsZuviel(g: Groessen)
    requires g.InputVb() >= 70 && g.inputViertel % 4 != 0
    ensures var n := VolleStelle(g, g.basisViertel + 4 * g.zielVb + 4);
            Zuviel(EinerZuviel(n, g.InputVb()), n, g.InputVb(), Kosten(Ohne, g)) && g.InputVb() <= Kosten(Ohne, g).InputKosten()
  {
    var ab := g.basisViertel + 4 * g.zielVb + 4;
    var n := VolleStelle(g, ab);
    EinerZuvielForm(n, g.InputVb());
    VollerSchritt(g, ab);
    OutputStufe(g, n);
    OutputStufe(g, n + 1);
    Ueberschuss(g, n);
  }

  /** At 1 sat/vB the result is always the maximum exactly for inputs of at most 69 vbytes and of whole vbytes. */
  lemma EinsGenauBis69(g: Groessen)
    ensures EinsImmerGenau(g) <==> g.InputVb() <= VBYTES_INPUT * MIN_SAT_VB + 1 || g.inputViertel % 4 == 0
  {
    if g.InputVb() <= VBYTES_INPUT * MIN_SAT_VB + 1 || g.inputViertel % 4 == 0 {
      forall kand, kosten: Kosten |
        kosten.groessen == g && kosten.Zulaessig() && Konstant(kosten) && !kosten.basis.Fest? && BeitragImWert(kand) && Verschieden(kand)
        ensures Maximum(Liste(kand, kosten), Groesser(NettoVon(Liste(kand, kosten), kosten), NettoVon(Gruene(Liste(kand, kosten)), kosten)), kosten)
      {
        EinsMaximum(kand, kosten);
      }
    } else {
      var n := VolleStelle(g, g.basisViertel + 4 * g.zielVb + 4);
      var kand, kosten := EinerZuviel(n, g.InputVb()), Kosten(Ohne, g);
      EinsZuviel(g);
      ZuvielVerfehlt(kand, n, g.InputVb(), kosten);
      FalleListe(kand, n, g.InputVb(), kosten);
    }
  }

  lemma EinsMaximum(kand: seq<Kandidat>, kosten: Kosten)
    requires kosten.Zulaessig() && Konstant(kosten) && BeitragImWert(kand) && EinsGenau(kand, kosten)
    ensures Maximum(Liste(kand, kosten), Groesser(NettoVon(Liste(kand, kosten), kosten), NettoVon(Gruene(Liste(kand, kosten)), kosten)), kosten)
  {
    var s := Liste(kand, kosten);
    ListeWirtschaftlich(kand, kosten);
    GrueneTeil(s);
    NettoVonGenau(s, kosten);
    NettoVonGenau(Gruene(s), kosten);
    if Wirtschaftlich(s, kosten) { MaximumGenau(s, kosten); }
    KonstantMaximum(kand, kosten, Groesser(NettoVon(s, kosten), NettoVon(Gruene(s), kosten)));
  }

  /** For every other size there is a list on which it is missed without any estimate. */
  method EinsVerfehlt(g: Groessen) returns (kand: seq<Kandidat>, m: int)
    requires g.InputVb() > VBYTES_INPUT * MIN_SAT_VB + 1 && g.inputViertel % 4 != 0
    ensures Rueckfall(kand, Kosten(Ohne, g)) && !Maximum(Liste(kand, Kosten(Ohne, g)), m, Kosten(Ohne, g))
  {
    var n := VolleStelle(g, g.basisViertel + 4 * g.zielVb + 4);
    kand := EinerZuviel(n, g.InputVb());
    EinsZuviel(g);
    ZuvielVerfehlt(kand, n, g.InputVb(), Kosten(Ohne, g));
    FalleListe(kand, n, g.InputVb(), Kosten(Ohne, g));
    var anzahl;
    m, anzahl := NettoMaximum(kand, Kosten(Ohne, g));
  }

  // -------------------------------------------------------------------- at the corner

  const ECKE_GROSS := Kandidat("a:0", "a", 0, 356_218, 356_218, 1)
  const ECKE_KLEIN := Kandidat("b:0", "b", 0, 137, 137, 1)

  lemma EckeSummen()
    ensures SummeBeitrag([ECKE_GROSS, ECKE_KLEIN]) == SummeWert([ECKE_GROSS, ECKE_KLEIN]) == 356_355
    ensures SummeBeitrag([ECKE_GROSS]) == SummeWert([ECKE_GROSS]) == 356_218
    ensures STANDARD_GROESSEN.Vsize(2, 1) == 178 && STANDARD_GROESSEN.Vsize(2, 2) == 209 && STANDARD_GROESSEN.Vsize(1, 1) == 110
  {
    assert [ECKE_GROSS, ECKE_KLEIN][1..] == [ECKE_KLEIN] && [ECKE_KLEIN][1..] == [] && [ECKE_GROSS][1..] == [];
    assert SummeBeitrag([ECKE_KLEIN]) == SummeWert([ECKE_KLEIN]) == 137;
  }

  lemma EckeNetto()
    ensures Netto(2, 356_355, 356_355, ZWEI_SAT) == Hoechster(2, 356_355, 356_355, ZWEI_SAT) == 355_816
  {
    EckeSummen();
    var f := Faelle(2, 356_355, 356_355, ZWEI_SAT);
    assert f == [355_999, 355_999, 356_146, 355_600, 355_816];
    assert f[4] in f && Fall(2, 356_355, 356_355, ZWEI_SAT) == 355_816;
    NettoGenau(2, 356_355, 356_355, ZWEI_SAT);
    assert Hoechster(2, 356_355, 356_355, ZWEI_SAT) == 355_816;
  }

  /**
   * Two green coins whose sum is the corner: either set's own maximum is found, and yet the larger coin alone
   * covers 182 sats more.
   */
  method EckeBeispiel() returns (m: int)
    ensures Liste([ECKE_GROSS, ECKE_KLEIN], ZWEI_SAT) == [ECKE_GROSS, ECKE_KLEIN] && EckeVon([ECKE_GROSS, ECKE_KLEIN], ZWEI_SAT)
    ensures m == 355_816 && ZweiErreicht([ECKE_GROSS, ECKE_KLEIN], ZWEI_SAT) && Urteil([ECKE_GROSS], 355_998, ZWEI_SAT).Some?
    ensures !Maximum([ECKE_GROSS, ECKE_KLEIN], m, ZWEI_SAT)
  {
    var kand := [ECKE_GROSS, ECKE_KLEIN];
    GefiltertAlle((k: Kandidat) => k.beitrag > ZWEI_SAT.InputKosten(), kand);
    GefiltertAlle((k: Kandidat) => k.wert == k.beitrag, kand);
    EckeSummen();
    EckeNetto();
    NettoGenau(2, 356_355, 356_355, ZWEI_SAT);
    var anzahl;
    m, anzahl := NettoMaximum(kand, ZWEI_SAT);
    assert Teilfolge([ECKE_GROSS], kand);
  }
}
