/** The largest amount the candidates can pay, as it is searched for (core/coin_auswahl.py, `netto_max`). */
module NettoMax {
  import opened Ordnung
  import opened Gebuehren
  import opened Kandidaten
  import opened Waehlen
  import opened NettoGrenze

  const SCHRITTE := 1_000_000

  // -------------------------------------------------------------------- what is computed

  /** The boundary amounts of the verdict, with the fees of the whole green sum. */
  function Faelle(n: nat, g: int, w: int, kosten: Kosten): seq<int> {
    var fee1, fee2 := kosten.Fee(n, 1, g), kosten.Fee(n, 2, g);
    [g - fee1, w - fee1, g - fee2, w - fee2 - STAUB_SATS, w - fee2 - STAUB_HART_SATS]
  }

  /** The largest covered one of some amounts, or 0. */
  function GroessterVon(p: int -> bool, faelle: seq<int>): (r: int)
    ensures r >= 0 && (r > 0 ==> p(r) && r in faelle)
    ensures forall x :: x in faelle && p(x) ==> x <= r
  {
    if faelle == [] then 0
    else
      var x, r := faelle[|faelle| - 1], GroessterVon(p, faelle[..|faelle| - 1]);
      if p(x) && x > r then x else r
  }

  /** Up from a covered amount while the next one is covered, so many steps at most. */
  function Gestiegen(p: int -> bool, b: int, schritte: nat): (r: int)
    decreases schritte
  {
    if schritte == 0 || !p(b + 1) then b else Gestiegen(p, b + 1, schritte - 1)
  }

  /** A bisection between two amounts. */
  function Halbiert(p: int -> bool, lo: int, hi: int, b: int): int
    decreases hi - lo + 1
  {
    if lo > hi then b else
      var mitte := (lo + hi) / 2;
      if p(mitte) then Halbiert(p, mitte + 1, hi, mitte) else Halbiert(p, lo, mitte - 1, b)
  }

  /** Which amounts are covered. */
  function Deckung(n: nat, g: int, w: int, kosten: Kosten): int -> bool { (b: int) => Gedeckt(n, g, w, b, kosten) }

  function Fall(n: nat, g: int, w: int, kosten: Kosten): int { GroessterVon(Deckung(n, g, w, kosten), Faelle(n, g, w, kosten)) }

  function Netto(n: nat, g: int, w: int, kosten: Kosten): int {
    if Fall(n, g, w, kosten) > 0 then Gestiegen(Deckung(n, g, w, kosten), Fall(n, g, w, kosten), SCHRITTE) else Halbiert(Deckung(n, g, w, kosten), 1, g, 0)
  }

  // ----------------------------------------------------------------- what it amounts to

  ghost predicate Lueckenlos(p: int -> bool, von: int, bis: int) {
    forall b :: von <= b <= bis ==> p(b)
  }

  /** The climb stops at the first amount that is not covered, or after its last step. */
  lemma {:induction false} GestiegenGenau(p: int -> bool, b: int, schritte: nat)
    requires p(b)
    ensures var r := Gestiegen(p, b, schritte);
            && b <= r <= b + schritte && Lueckenlos(p, b, r)
            && (r == b + schritte || !p(r + 1))
    decreases schritte
  {
    if schritte > 0 && p(b + 1) { GestiegenGenau(p, b + 1, schritte - 1); }
  }

  /** Whether one of the repeated halves of an amount is covered, as the bisection from 1 comes upon them. */
  predicate HaelfteGedeckt(p: int -> bool, hi: int)
    decreases hi
  {
    hi >= 1 && (p((1 + hi) / 2) || HaelfteGedeckt(p, (1 + hi) / 2 - 1))
  }

  /** Covered amounts without a gap up to the largest one. */
  ghost predicate Abschnitt(p: int -> bool, h: int) {
    && (forall b :: p(b) ==> b <= h)
    && (forall b, x :: p(b) && b <= x <= h ==> p(x))
  }

  lemma {:induction false} HalbiertAb(p: int -> bool, lo: int, hi: int, h: int)
    requires Abschnitt(p, h) && lo - 1 <= h <= hi && p(lo - 1)
    ensures Halbiert(p, lo, hi, lo - 1) == h
    decreases hi - lo + 1
  {
    if lo <= hi {
      var mitte := (lo + hi) / 2;
      if p(mitte) {
        HalbiertAb(p, mitte + 1, hi, h);
      } else {
        assert !(lo - 1 <= mitte <= h);
        HalbiertAb(p, lo, mitte - 1, h);
      }
    }
  }

  /** Where the covered amounts have no gap, the bisection finds the largest one exactly if it meets one of them at all. */
  lemma {:induction false} HalbiertGenau(p: int -> bool, hi: int, h: int)
    requires Abschnitt(p, h) && (HaelfteGedeckt(p, hi) ==> h <= hi)
    ensures Halbiert(p, 1, hi, 0) == if HaelfteGedeckt(p, hi) then h else 0
    decreases hi
  {
    if hi >= 1 {
      var mitte := (1 + hi) / 2;
      if p(mitte) {
        HalbiertAb(p, mitte + 1, hi, h);
      } else if HaelfteGedeckt(p, mitte - 1) {
        HaelfteUnten(p, mitte - 1, h, mitte);
        HalbiertGenau(p, mitte - 1, h);
      } else {
        HalbiertGenau(p, mitte - 1, h);
      }
    }
  }

  /** A covered half below an amount that is not covered: so is the whole stretch. */
  lemma {:induction false} HaelfteUnten(p: int -> bool, hi: int, h: int, oben: int)
    requires Abschnitt(p, h) && HaelfteGedeckt(p, hi) && hi < oben && !p(oben)
    ensures h < oben
    decreases hi
  {
    if !p((1 + hi) / 2) {
      HaelfteUnten(p, (1 + hi) / 2 - 1, h, oben);
    }
  }

  /** The climb ends at the largest covered amount exactly when none below it is left out and the steps suffice. */
  lemma GestiegenHoechster(p: int -> bool, b: int, schritte: nat, h: int)
    requires p(b) && forall x :: p(x) ==> x <= h
    ensures Gestiegen(p, b, schritte) <= h && p(Gestiegen(p, b, schritte))
    ensures Gestiegen(p, b, schritte) == h <==> h <= b + schritte && Lueckenlos(p, b, h)
  {
    GestiegenGenau(p, b, schritte);
    var r := Gestiegen(p, b, schritte);
    assert p(r);
    assert r < h && Lueckenlos(p, b, h) ==> p(r + 1);
  }

  /** The condition for the largest amount, on the inputs alone. */
  ghost predicate Erreicht(n: nat, g: int, w: int, kosten: Kosten) {
    var fall, h := Fall(n, g, w, kosten), Hoechster(n, g, w, kosten);
    if fall > 0 then h <= fall + SCHRITTE && Lueckenlos(Deckung(n, g, w, kosten), fall, h) else h == 0 || MaxMitWechsel(n, g, w, kosten) > 0
  }

  lemma NettoGestiegen(n: nat, g: int, w: int, kosten: Kosten)
    requires kosten.Zulaessig() && g <= w && Fall(n, g, w, kosten) > 0
    ensures Netto(n, g, w, kosten) <= Hoechster(n, g, w, kosten) && Gedeckt(n, g, w, Netto(n, g, w, kosten), kosten)
    ensures Netto(n, g, w, kosten) == Hoechster(n, g, w, kosten) <==> Erreicht(n, g, w, kosten)
  {
    var p, h := Deckung(n, g, w, kosten), Hoechster(n, g, w, kosten);
    forall b | p(b) ensures b <= h { HoechsterGenau(n, g, w, b, kosten); }
    GestiegenHoechster(p, Fall(n, g, w, kosten), SCHRITTE, h);
  }

  // --------------------------------------------------------- no boundary amount is covered

  /** Then the fee for two outputs is the same for all amounts up to the green sum. */
  lemma NullFee(n: nat, g: int, w: int, b: int, kosten: Kosten)
    requires kosten.Zulaessig() && g <= w && Fall(n, g, w, kosten) == 0 && b <= g
    ensures kosten.Fee(n, 2, b) == kosten.Fee(n, 2, g)
  {
    if kosten.basis.Schaetzung? {
      var vs, r := kosten.groessen.Vsize(n, 2), kosten.basis.rate;
      MalMonoton(0, vs, r);
      if 0 < r * vs && r * vs * 1000 <= g { NullGanz(n, g, w, r * vs, kosten); }
    }
  }

  /** At the full rate one of the amounts with change would be covered. */
  lemma NullGanz(n: nat, g: int, w: int, fee: int, kosten: Kosten)
    requires kosten.Zulaessig() && g <= w && fee == kosten.Fee(n, 2, g) && 1 <= fee && fee * 1000 <= g
    ensures Fall(n, g, w, kosten) > 0
  {
    var y := Kleiner(g - fee, w - fee - STAUB_SATS);
    FeeSteigt(kosten, n, 2, y, g);
    GedecktGenau(n, g, w, y, kosten);
    var f := Faelle(n, g, w, kosten);
    assert f[2] == g - fee && f[3] == w - fee - STAUB_SATS;
    assert y in f;
  }

  lemma NullNichtGedeckt(n: nat, g: int, w: int, i: nat, kosten: Kosten)
    requires Fall(n, g, w, kosten) == 0 && i < 5
    ensures !Gedeckt(n, g, w, Faelle(n, g, w, kosten)[i], kosten)
  {
    assert Faelle(n, g, w, kosten)[i] in Faelle(n, g, w, kosten);
  }

  lemma NullStaub(n: nat, g: int, w: int, kosten: Kosten)
    requires kosten.Zulaessig() && g <= w && Fall(n, g, w, kosten) == 0
    ensures Kleiner(g, w - STAUB_SATS) <= kosten.Fee(n, 2, g)
  {
    var fee := kosten.Fee(n, 2, g);
    var y := Kleiner(g - fee, w - fee - STAUB_SATS);
    NullNichtGedeckt(n, g, w, 2, kosten);
    NullNichtGedeckt(n, g, w, 3, kosten);
    FeeNichtNegativ(kosten, n, 2, g);
    NullFee(n, g, w, y, kosten);
    GedecktGenau(n, g, w, y, kosten);
  }

  lemma NullHartStaub(n: nat, g: int, w: int, kosten: Kosten)
    requires kosten.Zulaessig() && g <= w && Fall(n, g, w, kosten) == 0
    ensures var z := Kleiner(g, w - STAUB_HART_SATS) - kosten.Fee(n, 2, g); z > 0 ==> z > Tragbar(n, 1, g, kosten)
  {
    var fee := kosten.Fee(n, 2, g);
    var z := Kleiner(g - fee, w - fee - STAUB_HART_SATS);
    NullNichtGedeckt(n, g, w, 2, kosten);
    NullNichtGedeckt(n, g, w, 4, kosten);
    FeeNichtNegativ(kosten, n, 2, g);
    NullFee(n, g, w, z, kosten);
    GedecktGenau(n, g, w, z, kosten);
    TragbarGenau(n, 1, g, z, kosten);
  }

  /** Then whatever is paid with change reaches at least as far as what is paid without. */
  lemma NullMitWechsel(n: nat, g: int, w: int, b: int, kosten: Kosten)
    requires kosten.Zulaessig() && g <= w && Fall(n, g, w, kosten) == 0 && b > 0 && MitWechsel(n, g, w, b, kosten)
    ensures Tragbar(n, 1, g, kosten) <= MaxMitWechsel(n, g, w, kosten)
  {
    var q := Tragbar(n, 1, g, kosten);
    FeeNichtNegativ(kosten, n, 2, b);
    NullFee(n, g, w, b, kosten);
    NullStaub(n, g, w, kosten);
    NullHartStaub(n, g, w, kosten);
    FeeNichtNegativ(kosten, n, 2, g);
    NullFee(n, g, w, q, kosten);
    TragbarGenau(n, 1, g, q, kosten);
    MitWechselGenau(n, g, w, q, kosten);
  }

  lemma NullAbschnitt(n: nat, g: int, w: int, kosten: Kosten)
    requires kosten.Zulaessig() && g <= w && Fall(n, g, w, kosten) == 0
    ensures Abschnitt(Deckung(n, g, w, kosten), Hoechster(n, g, w, kosten))
  {
    var h := Hoechster(n, g, w, kosten);
    forall b | Gedeckt(n, g, w, b, kosten) ensures b <= h { HoechsterGenau(n, g, w, b, kosten); }
    forall b, x | Gedeckt(n, g, w, b, kosten) && b <= x <= h ensures Gedeckt(n, g, w, x, kosten) {
      NullDazwischen(n, g, w, b, x, kosten);
    }
  }

  lemma NullDazwischen(n: nat, g: int, w: int, b: int, x: int, kosten: Kosten)
    requires kosten.Zulaessig() && g <= w && Fall(n, g, w, kosten) == 0
    requires Gedeckt(n, g, w, b, kosten) && b <= x <= Hoechster(n, g, w, kosten)
    ensures Gedeckt(n, g, w, x, kosten)
  {
    GedecktGenau(n, g, w, b, kosten);
    GedecktGenau(n, g, w, x, kosten);
    MitWechselGenau(n, g, w, x, kosten);
    if MitWechsel(n, g, w, b, kosten) {
      NullMitWechsel(n, g, w, b, kosten);
    } else if x > MaxMitWechsel(n, g, w, kosten) {
      OhneWechselAufwaerts(n, g, w, b, x, kosten);
    }
  }

  /** Above its green sum a set covers nothing. */
  lemma NichtUeberGruen(n: nat, g: int, w: int, b: int, kosten: Kosten)
    requires kosten.Zulaessig() && g <= w && Gedeckt(n, g, w, b, kosten)
    ensures b <= g
  {
    GedecktGenau(n, g, w, b, kosten);
    FeeNichtNegativ(kosten, n, 1, b);
    FeeNichtNegativ(kosten, n, 2, b);
  }

  lemma NettoHalbiert(n: nat, g: int, w: int, kosten: Kosten)
    requires kosten.Zulaessig() && g <= w && Fall(n, g, w, kosten) == 0
    ensures Netto(n, g, w, kosten) == if HaelfteGedeckt(Deckung(n, g, w, kosten), g) then Hoechster(n, g, w, kosten) else 0
  {
    var h := Hoechster(n, g, w, kosten);
    NullAbschnitt(n, g, w, kosten);
    HoechsterGenau(n, g, w, h, kosten);
    if h > 0 { NichtUeberGruen(n, g, w, h, kosten); } else { KeineHaelfte(n, g, w, g, kosten); }
    HalbiertGenau(Deckung(n, g, w, kosten), g, h);
  }

  /** The bisection comes upon 1, so it finds the top where everything from 1 up is payable with change. */
  lemma {:induction false} EinsGetroffen(p: int -> bool, hi: int)
    requires p(1) && hi >= 1
    ensures HaelfteGedeckt(p, hi)
    decreases hi
  {
    if (1 + hi) / 2 > 1 { EinsGetroffen(p, (1 + hi) / 2 - 1); }
  }

  /** Where no boundary amount is covered, only the estimated rate at the green sum hides what is payable without change. */
  lemma NullTeuer(n: nat, g: int, w: int, b: int, kosten: Kosten)
    requires kosten.Zulaessig() && g <= w && Fall(n, g, w, kosten) == 0 && b > 0 && OhneWechsel(n, g, w, b, kosten)
    ensures kosten.basis.Schaetzung? && kosten.basis.rate >= 2 && kosten.groessen.Vsize(n, 1) >= 1
    ensures 1000 * (kosten.basis.rate * kosten.groessen.Vsize(n, 1)) <= g && kosten.Fee(n, 1, b) <= kosten.basis.rate * kosten.groessen.Vsize(n, 1)
  {
    var fee := kosten.Fee(n, 1, g);
    NullNichtGedeckt(n, g, w, 0, kosten);
    GedecktGenau(n, g, w, g - fee, kosten);
    FeeNichtNegativ(kosten, n, 1, g);
    FeeNichtNegativ(kosten, n, 1, b);
    FeeSteigt(kosten, n, 1, g - fee, g);
    if kosten.basis.Schaetzung? {
      FeeGeschaetzt(n, g, kosten);
      FeeGeschaetzt(n, b, kosten);
      FeeGeschaetzt(n, g - fee, kosten);
    }
  }

  lemma FeeGeschaetzt(n: nat, b: int, kosten: Kosten)
    requires kosten.Zulaessig() && kosten.basis.Schaetzung?
    ensures var v, teuer := kosten.groessen.Vsize(n, 1), kosten.basis.rate * kosten.groessen.Vsize(n, 1);
            0 <= v <= teuer && kosten.Fee(n, 1, b) == if teuer * 1000 > b then v else teuer
  {
    MalMonoton(1, kosten.basis.rate, kosten.groessen.Vsize(n, 1));
  }

  /** What is payable without change then lies above everything the bisection looks at. */
  lemma NullOben(n: nat, g: int, w: int, b: int, kosten: Kosten)
    requires kosten.Zulaessig() && g <= w && Fall(n, g, w, kosten) == 0 && b > 0 && OhneWechsel(n, g, w, b, kosten)
    ensures 2 * b > g + 1
  {
    NullTeuer(n, g, w, b, kosten);
    MalMonoton(1, kosten.groessen.Vsize(n, 1), kosten.basis.rate);
  }

  lemma {:induction false} NullVerfehlt(n: nat, g: int, w: int, hi: int, kosten: Kosten)
    requires kosten.Zulaessig() && g <= w && Fall(n, g, w, kosten) == 0 && MaxMitWechsel(n, g, w, kosten) <= 0 && hi <= g
    ensures !HaelfteGedeckt(Deckung(n, g, w, kosten), hi)
    decreases hi
  {
    if hi >= 1 {
      var mitte := (1 + hi) / 2;
      GedecktGenau(n, g, w, mitte, kosten);
      MitWechselGenau(n, g, w, mitte, kosten);
      if OhneWechsel(n, g, w, mitte, kosten) { NullOben(n, g, w, mitte, kosten); }
      NullVerfehlt(n, g, w, mitte - 1, kosten);
    }
  }

  /** The bisection finds everything if something is payable with change, and nothing otherwise. */
  lemma NullGenau(n: nat, g: int, w: int, kosten: Kosten)
    requires kosten.Zulaessig() && g <= w && Fall(n, g, w, kosten) == 0
    ensures Netto(n, g, w, kosten) == if MaxMitWechsel(n, g, w, kosten) > 0 then Hoechster(n, g, w, kosten) else 0
  {
    NettoHalbiert(n, g, w, kosten);
    if MaxMitWechsel(n, g, w, kosten) > 0 {
      GedecktGenau(n, g, w, 1, kosten);
      MitWechselGenau(n, g, w, 1, kosten);
      NichtUeberGruen(n, g, w, 1, kosten);
      EinsGetroffen(Deckung(n, g, w, kosten), g);
    } else {
      NullVerfehlt(n, g, w, g, kosten);
    }
  }

  /** That loses something only if the change output is a thousand times the rest of the transaction. */
  lemma NullGross(n: nat, g: int, w: int, b: int, kosten: Kosten)
    requires kosten.Zulaessig() && g <= w && Fall(n, g, w, kosten) == 0 && b > 0 && OhneWechsel(n, g, w, b, kosten)
    ensures kosten.groessen.Vsize(n, 2) > 1000 * kosten.groessen.Vsize(n, 1)
  {
    NullTeuer(n, g, w, b, kosten);
    NullStaub(n, g, w, kosten);
    var teuer := kosten.basis.rate * kosten.groessen.Vsize(n, 2);
    MalMonoton(2, kosten.basis.rate, kosten.groessen.Vsize(n, 1));
    assert kosten.Fee(n, 2, g) == if teuer * 1000 > g then kosten.groessen.Vsize(n, 2) else teuer;
  }

  lemma NullUeblich(n: nat, g: int, w: int, kosten: Kosten)
    requires kosten.Zulaessig() && g <= w && Fall(n, g, w, kosten) == 0 && kosten.groessen.Vsize(n, 2) <= 1000 * kosten.groessen.Vsize(n, 1)
    ensures Erreicht(n, g, w, kosten)
  {
    var h := Hoechster(n, g, w, kosten);
    if OhneWechsel(n, g, w, h, kosten) && h > 0 { NullGross(n, g, w, h, kosten); }
  }

  lemma {:induction false} KeineHaelfte(n: nat, g: int, w: int, hi: int, kosten: Kosten)
    requires kosten.Zulaessig() && g <= w && Hoechster(n, g, w, kosten) == 0
    ensures !HaelfteGedeckt(Deckung(n, g, w, kosten), hi)
    decreases hi
  {
    if hi >= 1 {
      HoechsterGenau(n, g, w, (1 + hi) / 2, kosten);
      KeineHaelfte(n, g, w, (1 + hi) / 2 - 1, kosten);
    }
  }

  /**
   * At every rate: what is found for a set is covered, and it is the largest covered amount exactly when no
   * amount between the largest covered boundary amount and the largest one is left out, nor more than a
   * million of them; where no boundary amount is covered, exactly when nothing is or something is with change.
   */
  lemma NettoGenau(n: nat, g: int, w: int, kosten: Kosten)
    requires kosten.Zulaessig() && g <= w
    ensures 0 <= Netto(n, g, w, kosten) <= Hoechster(n, g, w, kosten)
    ensures Netto(n, g, w, kosten) > 0 ==> Gedeckt(n, g, w, Netto(n, g, w, kosten), kosten)
    ensures Netto(n, g, w, kosten) == Hoechster(n, g, w, kosten) <==> Erreicht(n, g, w, kosten)
  {
    HoechsterGenau(n, g, w, Hoechster(n, g, w, kosten), kosten);
    if Fall(n, g, w, kosten) > 0 { NettoGestiegen(n, g, w, kosten); } else { NullGenau(n, g, w, kosten); }
  }

  lemma KonstantInFaellen(n: nat, g: int, w: int, kosten: Kosten)
    requires kosten.Zulaessig() && Konstant(kosten)
    ensures Grenze(n, g, w, kosten) in Faelle(n, g, w, kosten)
  {
    FeeKonstant(kosten, n, g);
    var f := Faelle(n, g, w, kosten);
    assert f[0] in f && f[2] in f && f[4] in f;
  }

  /** At a constant rate the boundary amounts hold the largest one already. */
  lemma KonstantErreicht(n: nat, g: int, w: int, kosten: Kosten)
    requires kosten.Zulaessig() && Konstant(kosten) && g <= w
    ensures Erreicht(n, g, w, kosten) && Fall(n, g, w, kosten) == Hoechster(n, g, w, kosten)
  {
    KonstantInFaellen(n, g, w, kosten);
    GrenzeExakt(n, g, w, kosten);
    var fall, h := Fall(n, g, w, kosten), Hoechster(n, g, w, kosten);
    HoechsterGenau(n, g, w, fall, kosten);
    HoechsterGenau(n, g, w, h, kosten);
  }

  // ------------------------------------------------------------------------ the algorithm

  method GroessterFall(gedeckt: int -> bool, faelle: seq<int>) returns (b: int)
    ensures b == GroessterVon(gedeckt, faelle)
  {
    b := 0;
    for i := 0 to |faelle|
      invariant b == GroessterVon(gedeckt, faelle[..i])
    {
      assert faelle[..i + 1][..i] == faelle[..i];
      if gedeckt(faelle[i]) && faelle[i] > b { b := faelle[i]; }
    }
    assert faelle[..|faelle|] == faelle;
  }

  method Steigen(gedeckt: int -> bool, fall: int) returns (b: int)
    ensures b == Gestiegen(gedeckt, fall, SCHRITTE)
  {
    b := fall;
    var schritte := 0;
    while gedeckt(b + 1) && schritte < SCHRITTE
      invariant 0 <= schritte <= SCHRITTE && Gestiegen(gedeckt, fall, SCHRITTE) == Gestiegen(gedeckt, b, SCHRITTE - schritte)
      decreases SCHRITTE - schritte
    {
      b, schritte := b + 1, schritte + 1;
    }
  }

  method Halbieren(gedeckt: int -> bool, g: int) returns (b: int)
    ensures b == Halbiert(gedeckt, 1, g, 0)
  {
    var lo, hi := 1, g;
    b := 0;
    while lo <= hi
      invariant Halbiert(gedeckt, 1, g, 0) == Halbiert(gedeckt, lo, hi, b)
      decreases hi - lo + 1
    {
      var mitte := (lo + hi) / 2;
      if gedeckt(mitte) { b, lo := mitte, mitte + 1; } else { hi := mitte - 1; }
    }
  }

  /** The inner part of the loop: the boundary amounts, then a climb or a bisection. */
  method NettoMenge(menge: seq<Kandidat>, kosten: Kosten) returns (b: int)
    ensures b == Netto(|menge|, SummeBeitrag(menge), SummeWert(menge), kosten)
  {
    var n, g, w := |menge|, SummeBeitrag(menge), SummeWert(menge);
    var gedeckt := Deckung(n, g, w, kosten);
    b := GroessterFall(gedeckt, Faelle(n, g, w, kosten));
    if b > 0 { b := Steigen(gedeckt, b); } else { b := Halbieren(gedeckt, g); }
  }

  function NettoVon(s: seq<Kandidat>, kosten: Kosten): int {
    if s == [] then 0 else Netto(|s|, SummeBeitrag(s), SummeWert(s), kosten)
  }

  ghost predicate ErreichtVon(s: seq<Kandidat>, kosten: Kosten) {
    s == [] || Erreicht(|s|, SummeBeitrag(s), SummeWert(s), kosten)
  }

  function Bestes(s: seq<Kandidat>, kosten: Kosten): int { Groesser(HoechsterVon(s, kosten), HoechsterVon(Gruene(s), kosten)) }

  /** The larger of the two sets' largest amounts is reached by its own search. */
  ghost predicate ZweiErreicht(s: seq<Kandidat>, kosten: Kosten) {
    || (HoechsterVon(s, kosten) >= HoechsterVon(Gruene(s), kosten) && ErreichtVon(s, kosten))
    || (HoechsterVon(s, kosten) <= HoechsterVon(Gruene(s), kosten) && ErreichtVon(Gruene(s), kosten))
  }

  /** The green sum is the corner, and without some green input more is payable than by either set. */
  ghost predicate KleinereReicht(s: seq<Kandidat>, kosten: Kosten) {
    var gruen := Gruene(s);
    EckeVon(gruen, kosten) && exists i: nat :: i < |gruen| && GruenReicht(OhneStelle(gruen, i), Bestes(s, kosten) + 1, kosten)
  }

  ghost predicate MaximumErreicht(s: seq<Kandidat>, kosten: Kosten) { ZweiErreicht(s, kosten) && !KleinereReicht(s, kosten) }

  /** No set of these inputs covers more. */
  ghost predicate Maximum(s: seq<Kandidat>, m: int, kosten: Kosten) {
    forall t, b :: Teilfolge(t, s) && t != [] && b > m ==> Urteil(t, b, kosten).None?
  }

  lemma NettoVonGenau(s: seq<Kandidat>, kosten: Kosten)
    requires kosten.Zulaessig() && BeitragImWert(s)
    ensures 0 <= NettoVon(s, kosten) <= HoechsterVon(s, kosten)
    ensures NettoVon(s, kosten) == HoechsterVon(s, kosten) <==> ErreichtVon(s, kosten)
    ensures NettoVon(s, kosten) > 0 ==> s != [] && Urteil(s, NettoVon(s, kosten), kosten).Some?
    ensures HoechsterVon(s, kosten) > 0 ==> s != [] && Urteil(s, HoechsterVon(s, kosten), kosten).Some?
  {
    SummeBeitragImWert(s);
    NettoGenau(|s|, SummeBeitrag(s), SummeWert(s), kosten);
    HoechsterGenau(|s|, SummeBeitrag(s), SummeWert(s), HoechsterVon(s, kosten), kosten);
  }

  lemma GrueneTeil(s: seq<Kandidat>)
    requires BeitragImWert(s)
    ensures Teilfolge(Gruene(s), s) && |Gruene(s)| <= |s| && BeitragImWert(Gruene(s))
    ensures |Gruene(s)| == |s| ==> Gruene(s) == s
  {
    GefiltertTeilfolge((k: Kandidat) => k.wert == k.beitrag, s);
    TeilfolgeLaenge(Gruene(s), s);
    if |Gruene(s)| == |s| { TeilfolgeGleichLang(Gruene(s), s); }
  }

  /** More than the best of the two sets is payable exactly where the corner lets a smaller green set pay it. */
  lemma BestesGenau(s: seq<Kandidat>, kosten: Kosten)
    requires kosten.Zulaessig() && Wirtschaftlich(s, kosten)
    ensures Maximum(s, Bestes(s, kosten), kosten) <==> !KleinereReicht(s, kosten)
  {
    MaximumNichtErreichbar(s, Bestes(s, kosten), kosten);
    UeberBestem(s, kosten);
  }

  lemma UeberBestem(s: seq<Kandidat>, kosten: Kosten)
    requires kosten.Zulaessig() && Wirtschaftlich(s, kosten)
    ensures Erreichbar(s, Bestes(s, kosten) + 1, kosten) <==> KleinereReicht(s, kosten)
  {
    GrueneTeil(s);
    NettoVonGenau(s, kosten);
    MengenGenuegen(s, Bestes(s, kosten) + 1, kosten);
  }

  /** At the corner the set without the smallest green coin decides, unless that has a corner sum itself. */
  lemma EckeKleinste(s: seq<Kandidat>, k: nat, kosten: Kosten)
    requires kosten.Zulaessig() && Wirtschaftlich(s, kosten) && EckeVon(Gruene(s), kosten) && k < |Gruene(s)|
    requires (forall i :: 0 <= i < |Gruene(s)| ==> Gruene(s)[k].beitrag <= Gruene(s)[i].beitrag) && !EckeVon(OhneStelle(Gruene(s), k), kosten)
    ensures KleinereReicht(s, kosten) <==> HoechsterVon(OhneStelle(Gruene(s), k), kosten) > Bestes(s, kosten)
  {
    GrueneTeil(s);
    WirtschaftlichTeil(Gruene(s), s, kosten);
    KleinsteEntscheidet(Gruene(s), k, Bestes(s, kosten) + 1, kosten);
  }

  lemma MaximumNichtErreichbar(s: seq<Kandidat>, m: int, kosten: Kosten)
    ensures Maximum(s, m, kosten) <==> !Erreichbar(s, m + 1, kosten)
  {
    if !Maximum(s, m, kosten) {
      var t, b :| Teilfolge(t, s) && t != [] && b > m && Urteil(t, b, kosten).Some?;
      assert b >= m + 1;
    }
  }

  /** At every rate: the found amount is the largest any set covers, exactly under the condition on the inputs. */
  lemma MaximumGenau(s: seq<Kandidat>, kosten: Kosten)
    requires kosten.Zulaessig() && Wirtschaftlich(s, kosten)
    ensures Maximum(s, Groesser(NettoVon(s, kosten), NettoVon(Gruene(s), kosten)), kosten) <==> MaximumErreicht(s, kosten)
  {
    var m, h := Groesser(NettoVon(s, kosten), NettoVon(Gruene(s), kosten)), Bestes(s, kosten);
    GrueneTeil(s);
    TeilfolgeReflexiv(s);
    NettoVonGenau(s, kosten);
    NettoVonGenau(Gruene(s), kosten);
    if m < h {
      var t := if HoechsterVon(s, kosten) == h then s else Gruene(s);
      assert Teilfolge(t, s) && t != [] && Urteil(t, h, kosten).Some?;
    } else {
      BestesGenau(s, kosten);
    }
  }

  lemma MaximumKonstant(s: seq<Kandidat>, kosten: Kosten)
    requires kosten.Zulaessig() && Konstant(kosten) && BeitragImWert(s)
    ensures MaximumErreicht(s, kosten)
  {
    GrueneTeil(s);
    SummeBeitragImWert(s);
    SummeBeitragImWert(Gruene(s));
    KonstantErreicht(|s|, SummeBeitrag(s), SummeWert(s), kosten);
    KonstantErreicht(|Gruene(s)|, SummeBeitrag(Gruene(s)), SummeWert(Gruene(s)), kosten);
  }

  lemma ListeWirtschaftlich(kand: seq<Kandidat>, kosten: Kosten)
    requires kosten.Zulaessig() && BeitragImWert(kand)
    ensures BeitragImWert(Liste(kand, kosten))
    ensures kosten.basis.Fest? || Lohnende(kand, kosten) != [] || kosten.groessen.InputVb() <= VBYTES_INPUT * MIN_SAT_VB + 1 ==>
              Wirtschaftlich(Liste(kand, kosten), kosten)
  {
    if Lohnende(kand, kosten) == [] && !kosten.basis.Fest? { NichtsLohnt(kand, kosten); }
  }

  /** In a fallback list at 1 sat/vB, where an input has whole vbytes, no set covers anything. */
  lemma GanzeVbytesNichts(t: seq<Kandidat>, b: int, kosten: Kosten)
    requires Konstant(kosten) && !kosten.basis.Fest? && kosten.groessen.inputViertel % 4 == 0 && b > 0
    requires forall k :: k in t ==> k.beitrag <= kosten.InputKosten()
    ensures Urteil(t, b, kosten).None?
  {
    var n, k := |t|, kosten.groessen.InputVb();
    SummeObergrenze(t, kosten.InputKosten());
    assert kosten.groessen.inputViertel == 4 * k && kosten.InputKosten() == k;
    MalAssoziativ(4, k, n);
    assert kosten.groessen.Vsize(n, 1) >= k * n && kosten.groessen.Vsize(n, 2) >= k * n;
    assert kosten.Fee(n, 1, b) == kosten.groessen.Vsize(n, 1) && kosten.Fee(n, 2, b) == kosten.groessen.Vsize(n, 2);
  }

  /** At 1 sat/vB the two sets are enough where some input pays for itself, or is at most 69 or whole vbytes. */
  predicate EinsGenau(kand: seq<Kandidat>, kosten: Kosten) {
    Lohnende(kand, kosten) != [] || kosten.groessen.InputVb() <= VBYTES_INPUT * MIN_SAT_VB + 1 || kosten.groessen.inputViertel % 4 == 0
  }

  lemma KonstantMaximum(kand: seq<Kandidat>, kosten: Kosten, m: int)
    requires kosten.Zulaessig() && BeitragImWert(kand) && Konstant(kosten) && (kosten.basis.Fest? || EinsGenau(kand, kosten))
    requires var s := Liste(kand, kosten); m >= 0 && (Wirtschaftlich(s, kosten) ==> (Maximum(s, m, kosten) <==> MaximumErreicht(s, kosten)))
    ensures Maximum(Liste(kand, kosten), m, kosten)
  {
    var s := Liste(kand, kosten);
    ListeWirtschaftlich(kand, kosten);
    if Wirtschaftlich(s, kosten) {
      MaximumKonstant(s, kosten);
    } else {
      NichtsLohnt(kand, kosten);
      forall t, b | Teilfolge(t, s) && t != [] && b > m ensures Urteil(t, b, kosten).None? {
        forall k | k in t ensures k.beitrag <= kosten.InputKosten() { TeilfolgeElemente(t, s, k); }
        GanzeVbytesNichts(t, b, kosten);
      }
    }
  }

  /**
   * The result is the larger of what the search finds for all listed inputs and for the wholly green ones.
   * It is covered, and no set of listed inputs covers more exactly when the larger of the two sets' largest
   * amounts is reached and the corner lets no smaller green set pay more; at a fixed rate that is always so,
   * and at 1 sat/vB under the condition on sizes.
   */
  method NettoMaximum(kand: seq<Kandidat>, kosten: Kosten) returns (maxNetto: int, anzahl: nat)
    requires kosten.Zulaessig() && BeitragImWert(kand)
    ensures maxNetto == Groesser(NettoVon(Liste(kand, kosten), kosten), NettoVon(Gruene(Liste(kand, kosten)), kosten))
    ensures maxNetto >= 0
    ensures maxNetto > 0 ==> exists t :: Teilfolge(t, Liste(kand, kosten)) && |t| == anzahl && t != []
                                         && Urteil(t, maxNetto, kosten).Some?
    ensures var s := Liste(kand, kosten); Wirtschaftlich(s, kosten) ==> (Maximum(s, maxNetto, kosten) <==> MaximumErreicht(s, kosten))
    ensures Konstant(kosten) && (kosten.basis.Fest? || EinsGenau(kand, kosten)) ==> Maximum(Liste(kand, kosten), maxNetto, kosten)
  {
    var nutzbar := Liste(kand, kosten);
    ListeWirtschaftlich(kand, kosten);
    var gruen := Gruene(nutzbar);
    GrueneTeil(nutzbar);
    TeilfolgeReflexiv(nutzbar);
    NettoVonGenau(nutzbar, kosten);
    NettoVonGenau(gruen, kosten);
    maxNetto, anzahl := 0, 0;
    if nutzbar != [] {
      var b := NettoMenge(nutzbar, kosten);
      if b > maxNetto { maxNetto, anzahl := b, |nutzbar|; }
    }
    if gruen != [] && |gruen| != |nutzbar| {
      var b := NettoMenge(gruen, kosten);
      if b > maxNetto { maxNetto, anzahl := b, |gruen|; }
    }
    if Wirtschaftlich(nutzbar, kosten) { MaximumGenau(nutzbar, kosten); }
    if Konstant(kosten) && (kosten.basis.Fest? || EinsGenau(kand, kosten)) { KonstantMaximum(kand, kosten, maxNetto); }
  }

  // --------------------------------------------------------------------------- an example

  const ZWEI_SAT := Kosten(Schaetzung(2), STANDARD_GROESSEN)
  const MUENZE := Kandidat("a:0", "a", 0, 220_157, 220_157, 1)

  lemma MuenzeNetto()
    ensures Netto(1, 220_157, 220_157, ZWEI_SAT) == 219_686 && Gedeckt(1, 220_157, 220_157, 219_999, ZWEI_SAT)
  {
    assert STANDARD_GROESSEN.Vsize(1, 1) == 110 && STANDARD_GROESSEN.Vsize(1, 2) == 141;
    var f := Faelle(1, 220_157, 220_157, ZWEI_SAT);
    assert f == [219_937, 219_937, 220_016, 219_470, 219_686];
    assert f[4] in f && Fall(1, 220_157, 220_157, ZWEI_SAT) == 219_686;
    GestiegenGenau(Deckung(1, 220_157, 220_157, ZWEI_SAT), 219_686, SCHRITTE);
    assert !Gedeckt(1, 220_157, 220_157, 219_687, ZWEI_SAT);
  }

  /**
   * At an estimated rate the claim of a largest amount fails: for one coin of 220 157 sats at 2 sat/vB the
   * climb stops at a gap, 313 sats below an amount that is covered as well.
   */
  method DeckelLuecke() returns (m: int)
    ensures m == 219_686 && Urteil([MUENZE], 219_999, ZWEI_SAT).Some? && [MUENZE] == Liste([MUENZE], ZWEI_SAT)
    ensures !Maximum(Liste([MUENZE], ZWEI_SAT), m, ZWEI_SAT)
  {
    GefiltertAlle((k: Kandidat) => k.beitrag > ZWEI_SAT.InputKosten(), [MUENZE]);
    GefiltertAlle((k: Kandidat) => k.wert == k.beitrag, [MUENZE]);
    MuenzeNetto();
    assert SummeBeitrag([MUENZE]) == SummeWert([MUENZE]) == 220_157 by { assert [MUENZE][1..] == []; }
    var anzahl;
    m, anzahl := NettoMaximum([MUENZE], ZWEI_SAT);
    TeilfolgeReflexiv([MUENZE]);
  }

  const RIESIGES_WECHSELGELD := Kosten(Schaetzung(2), Groessen(4, 0, 10_000, 0))
  const KLEINE_MUENZE := Kandidat("a:0", "a", 0, 2_000, 2_000, 1)

  lemma KleineMuenzeNetto()
    ensures Netto(1, 2_000, 2_000, RIESIGES_WECHSELGELD) == 0 && Gedeckt(1, 2_000, 2_000, 1_999, RIESIGES_WECHSELGELD)
  {
    var g := RIESIGES_WECHSELGELD.groessen;
    assert g.Vsize(1, 1) == 1 && g.Vsize(1, 2) == 10_001;
    assert Faelle(1, 2_000, 2_000, RIESIGES_WECHSELGELD) == [1_998, 1_998, -8_001, -8_547, -8_331];
    assert Fall(1, 2_000, 2_000, RIESIGES_WECHSELGELD) == 0;
    NullGenau(1, 2_000, 2_000, RIESIGES_WECHSELGELD);
  }

  /** Where a change output is that large, the bisection misses a positive maximum. */
  method BisektionVerfehlt() returns (m: int)
    ensures m == 0 && Urteil([KLEINE_MUENZE], 1_999, RIESIGES_WECHSELGELD).Some? && Liste([KLEINE_MUENZE], RIESIGES_WECHSELGELD) == [KLEINE_MUENZE]
  {
    GefiltertAlle((k: Kandidat) => k.beitrag > RIESIGES_WECHSELGELD.InputKosten(), [KLEINE_MUENZE]);
    GefiltertAlle((k: Kandidat) => k.wert == k.beitrag, [KLEINE_MUENZE]);
    KleineMuenzeNetto();
    assert SummeBeitrag([KLEINE_MUENZE]) == SummeWert([KLEINE_MUENZE]) == 2_000 by { assert [KLEINE_MUENZE][1..] == []; }
    var anzahl;
    m, anzahl := NettoMaximum([KLEINE_MUENZE], RIESIGES_WECHSELGELD);
  }
}
