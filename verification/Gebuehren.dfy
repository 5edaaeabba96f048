/** The fee rule and the verdict on one set of inputs (core/coin_auswahl.py, `_Kosten` and `_bewerte`). */
module Gebuehren {
  import opened Ordnung

  const STAUB_SATS := 546
  const STAUB_HART_SATS := 330
  const MIN_SAT_VB := 1
  const VBYTES_INPUT := 68

  /** No estimate, an estimate in whole sat/vB, or a rate fixed by the user in milli-sat/vB. */
  datatype Basis = Ohne | Schaetzung(rate: int) | Fest(milli: int)

  /** Sizes in quarter vbytes for what may be fractional (10.5 vB is 42), in vbytes for the outputs. */
  datatype Groessen = Groessen(inputViertel: nat, zielVb: nat, wechselVb: nat, basisViertel: nat) {
    function Vsize(inputs: nat, outputs: nat): nat {
      (basisViertel + inputViertel * inputs + 4 * zielVb + (if outputs >= 2 then 4 * wechselVb else 0) + 3) / 4
    }

    /** One input, rounded up to whole vbytes. */
    function InputVb(): nat { (inputViertel + 3) / 4 }
  }

  const STANDARD_GROESSEN := Groessen(4 * VBYTES_INPUT, 31, 31, 42)

  /** Python's `-(-milli * vsize // 1000)`. */
  function FesteGebuehr(milli: int, vsize: int): int { -((-milli * vsize) / 1000) }

  /** The rate for this size, and whether the 0.1 % cap lowered it. */
  function Rate(basis: int, vsize: int, betrag: int): (int, bool) {
    if basis * vsize * 1000 > betrag then (MIN_SAT_VB, basis > MIN_SAT_VB) else (basis, false)
  }

  datatype Kosten = Kosten(basis: Basis, groessen: Groessen) {
    /** Rates below 1 sat/vB are never estimated, a fixed rate is positive. */
    predicate Zulaessig() {
      match basis
      case Ohne => true
      case Schaetzung(r) => r >= MIN_SAT_VB
      case Fest(m) => m > 0
    }

    /** Fee, rate in milli-sat/vB, cap applied. */
    function Gebuehr(vsize: int, betrag: int): (int, int, bool) {
      match basis
      case Ohne => (MIN_SAT_VB * vsize, 1000 * MIN_SAT_VB, false)
      case Schaetzung(r) => var (rate, deckel) := Rate(r, vsize, betrag); (rate * vsize, 1000 * rate, deckel)
      case Fest(m) => (FesteGebuehr(m, vsize), m, false)
    }

    function InputKosten(): int {
      match basis
      case Ohne => groessen.InputVb() * MIN_SAT_VB
      case Schaetzung(r) => groessen.InputVb() * r
      case Fest(m) => FesteGebuehr(m, groessen.InputVb())
    }

    function MinGebuehr(inputs: nat): int {
      var vs := groessen.Vsize(inputs, 1);
      if basis.Fest? then FesteGebuehr(basis.milli, vs) else vs * MIN_SAT_VB
    }

    /** The fee of n inputs and the given number of outputs for this amount. */
    function Fee(n: nat, outputs: nat, betrag: int): int { Gebuehr(groessen.Vsize(n, outputs), betrag).0 }
  }

  datatype Loesung = Loesung(wechselgeld: int, outputs: nat, vsize: int, satVbMilli: int,
                             fee: int, deckel: bool, staub: bool, staubInFee: int)

  /** The better form (with or without change) for n inputs worth `wert`, `gruen` of it green. */
  function Bewerte(n: nat, gruen: int, wert: int, betrag: int, kosten: Kosten): (r: Option<Loesung>) {
    var vs2 := kosten.groessen.Vsize(n, 2);
    var (fee2, r2, deckel2) := kosten.Gebuehr(vs2, betrag);
    var wechsel := wert - betrag - fee2;
    if gruen >= betrag + fee2 && wechsel >= STAUB_SATS then
      Some(Loesung(wechsel, 2, vs2, r2, fee2, deckel2, false, 0))
    else
      var vs1 := kosten.groessen.Vsize(n, 1);
      var (fee1, r1, deckel1) := kosten.Gebuehr(vs1, betrag);
      var rest := wert - betrag - fee1;
      if gruen < betrag + fee1 || rest < 0 then None
      else
        var gesamt := fee1 + rest;
        if wert == gruen && (rest == 0 || gesamt * 1000 <= betrag) then
          Some(Loesung(0, 1, vs1, r1, gesamt, deckel1, false, rest))
        else if gruen >= betrag + fee2 && wechsel >= STAUB_HART_SATS then
          Some(Loesung(wechsel, 2, vs2, r2, fee2, deckel2, true, 0))
        else None
  }

  /** What every accepted verdict promises about the money, whatever produced the set. */
  ghost predicate Solide(l: Loesung, n: nat, gruen: int, wert: int, betrag: int, kosten: Kosten) {
    && wert == betrag + l.fee + l.wechselgeld
    && betrag + l.fee <= gruen
    && wert - gruen <= l.wechselgeld
    && (l.outputs == 1 || l.outputs == 2)
    && (l.outputs == 1 ==> l.wechselgeld == 0 && wert == gruen)
    && (l.outputs == 2 ==> l.wechselgeld >= STAUB_HART_SATS && l.staubInFee == 0)
    && (l.staub <==> l.outputs == 2 && l.wechselgeld < STAUB_SATS)
    && l.vsize == kosten.groessen.Vsize(n, l.outputs)
    && l.fee == kosten.Gebuehr(l.vsize, betrag).0 + l.staubInFee
    && l.satVbMilli == kosten.Gebuehr(l.vsize, betrag).1
    && l.deckel == kosten.Gebuehr(l.vsize, betrag).2
    && l.staubInFee >= 0
    && (l.staubInFee > 0 ==> l.fee * 1000 <= betrag)
  }

  lemma BewerteSolide(n: nat, gruen: int, wert: int, betrag: int, kosten: Kosten)
    requires gruen <= wert
    ensures var r := Bewerte(n, gruen, wert, betrag, kosten); r.Some? ==> Solide(r.value, n, gruen, wert, betrag, kosten)
  {
    var _ := kosten.Gebuehr(kosten.groessen.Vsize(n, 2), betrag);
  }

  // -------------------------------------------------------------- arithmetic

  lemma MalMonoton(a: int, b: int, c: int)
    requires a <= b && c >= 0
    ensures a * c <= b * c
  {}

  /** `FesteGebuehr` is the ceiling of milli * vsize / 1000. */
  lemma FestSchranken(milli: int, vs: int)
    ensures milli * vs <= 1000 * FesteGebuehr(milli, vs) < milli * vs + 1000
  {
    assert -milli * vs == -(milli * vs);
  }

  lemma FestMonoton(milli: int, a: int, b: int)
    requires milli >= 0 && a <= b
    ensures FesteGebuehr(milli, a) <= FesteGebuehr(milli, b)
  {
    FestSchranken(milli, a);
    FestSchranken(milli, b);
    MalMonoton(a, b, milli);
  }

  /** m further inputs of size k cost at most m times the rounded fee of one. */
  lemma {:induction false} FestSubadditiv(milli: int, a: int, k: int, m: nat)
    requires milli >= 0
    ensures FesteGebuehr(milli, a + m * k) <= FesteGebuehr(milli, a) + m * FesteGebuehr(milli, k)
  {
    if m > 0 {
      FestSubadditiv(milli, a, k, m - 1);
      var x := a + (m - 1) * k;
      assert a + m * k == x + k;
      FestSchranken(milli, x);
      FestSchranken(milli, k);
      FestSchranken(milli, x + k);
      assert milli * (x + k) == milli * x + milli * k;
      assert m * FesteGebuehr(milli, k) == (m - 1) * FesteGebuehr(milli, k) + FesteGebuehr(milli, k);
    }
  }

  /** The size is rounded up to whole vbytes, once for the whole transaction. */
  lemma VsizeAufgerundet(g: Groessen, n: nat, outputs: nat)
    ensures var genau := g.basisViertel + n * g.inputViertel + 4 * g.zielVb + if outputs <= 1 then 0 else 4 * g.wechselVb;
            genau <= 4 * g.Vsize(n, outputs) < genau + 4
  {
    assert n * g.inputViertel == g.inputViertel * n;
  }

  /**
   * A fee above 0.1 % of the amount is never estimated at more than 1 sat/vB, and up to 0.1 % the estimate
   * stays as it is. The flag tells that the rate was lowered.
   */
  lemma DeckelGenau(kosten: Kosten, vs: nat, betrag: int)
    requires kosten.Zulaessig() && kosten.basis.Schaetzung?
    ensures var (fee, milli, deckel) := kosten.Gebuehr(vs, betrag);
            && 1000 * fee == milli * vs
            && (kosten.basis.rate * vs * 1000 <= betrag ==> milli == 1000 * kosten.basis.rate)
            && (kosten.basis.rate * vs * 1000 > betrag ==> milli == 1000)
            && (deckel <==> milli < 1000 * kosten.basis.rate)
            && (milli > 1000 ==> 1000 * fee <= betrag)
  {
    assert (1000 * kosten.basis.rate) * vs == 1000 * (kosten.basis.rate * vs);
  }

  lemma VsizeEinInput(g: Groessen, n: nat, outputs: nat)
    requires g.inputViertel % 4 == 0
    ensures g.Vsize(n + 1, outputs) == g.Vsize(n, outputs) + g.InputVb() && 4 * g.InputVb() == g.inputViertel
  {
    assert g.inputViertel * (n + 1) == g.inputViertel * n + g.inputViertel;
  }

  /** What one more input of whole vbytes costs at a rate that the cap does not lower. */
  lemma InputKostenGenau(kosten: Kosten, n: nat, outputs: nat, betrag: int)
    requires kosten.Zulaessig() && !kosten.basis.Fest? && kosten.groessen.inputViertel % 4 == 0
    requires !kosten.Gebuehr(kosten.groessen.Vsize(n + 1, outputs), betrag).2
    ensures kosten.Fee(n + 1, outputs, betrag) == kosten.Fee(n, outputs, betrag) + kosten.InputKosten()
  {
    var g := kosten.groessen;
    VsizeEinInput(g, n, outputs);
    if kosten.basis.Schaetzung? {
      var r := kosten.basis.rate;
      RateFaellt(r, g.Vsize(n, outputs), g.Vsize(n + 1, outputs), betrag);
      MalVerteilt(r, g.Vsize(n, outputs), g.InputVb());
    }
  }

  lemma MalVerteilt(r: int, a: int, b: int)
    ensures r * (a + b) == r * a + b * r
  {}

  /** At a fixed rate an input costs the rounded fee of its own rounded size. */
  lemma InputKostenFest(kosten: Kosten)
    requires kosten.basis.Fest?
    ensures kosten.basis.milli * kosten.groessen.InputVb() <= 1000 * kosten.InputKosten() < kosten.basis.milli * kosten.groessen.InputVb() + 1000
    ensures kosten.groessen.inputViertel <= 4 * kosten.groessen.InputVb() < kosten.groessen.inputViertel + 4
  {
    FestSchranken(kosten.basis.milli, kosten.groessen.InputVb());
  }

  /** The lower bound of the search is the fee of exactly that many inputs, where the cap is in force. */
  lemma MinGebuehrAngenommen(kosten: Kosten, n: nat)
    requires kosten.Zulaessig()
    ensures kosten.MinGebuehr(n) == kosten.Fee(n, 1, 0)
  {
    if kosten.basis.Schaetzung? { MalMonoton(1, kosten.basis.rate, kosten.groessen.Vsize(n, 1)); }
  }

  lemma VsizeWachstum(g: Groessen, n: nat, m: nat, outputs: nat)
    ensures g.Vsize(n, outputs) <= g.Vsize(n + m, outputs) <= g.Vsize(n, outputs) + m * g.InputVb()
    ensures g.Vsize(n, 1) <= g.Vsize(n, 2)
  {
    assert g.inputViertel * (n + m) == g.inputViertel * n + g.inputViertel * m;
    assert g.inputViertel <= 4 * g.InputVb();
    MalMonoton(g.inputViertel, 4 * g.InputVb(), m);
    assert 4 * g.InputVb() * m == 4 * (m * g.InputVb());
  }

  /** No fee is below the lower bound the search uses for any larger number of inputs. */
  lemma MinGebuehrSchranke(kosten: Kosten, n: nat, m: nat, outputs: nat, betrag: int)
    requires kosten.Zulaessig() && outputs >= 1
    ensures kosten.MinGebuehr(n) <= kosten.Fee(n + m, outputs, betrag)
  {
    VsizeWachstum(kosten.groessen, n, m, 1);
    VsizeWachstum(kosten.groessen, n + m, 0, 1);
    var vs, vs' := kosten.groessen.Vsize(n, 1), kosten.groessen.Vsize(n + m, outputs);
    assert vs <= vs';
    match kosten.basis {
      case Ohne =>
      case Schaetzung(r) => MalMonoton(1, Rate(r, vs', betrag).0, vs');
      case Fest(milli) => FestMonoton(milli, vs, vs');
    }
  }

  /** Too little green for the lower bound of n inputs is too little for n + m inputs. */
  lemma UnterMindestgebuehr(kosten: Kosten, n: nat, n': nat, gruen: int, oben: int, wert: int, betrag: int)
    requires kosten.Zulaessig() && n <= n' && gruen <= oben && oben < betrag + kosten.MinGebuehr(n)
    ensures Bewerte(n', gruen, wert, betrag, kosten).None?
  {
    var m := n' - n;
    MinGebuehrSchranke(kosten, n, m, 1, betrag);
    MinGebuehrSchranke(kosten, n, m, 2, betrag);
  }

  /** The capped rate falls, if anything, as the transaction grows. */
  lemma RateFaellt(basis: int, a: nat, b: nat, betrag: int)
    requires basis >= 1 && a <= b
    ensures 1 <= Rate(basis, b, betrag).0 <= Rate(basis, a, betrag).0 <= basis
  {
    MalMonoton(a, b, basis);
  }

  lemma ProduktWachstum(ra: int, rb: int, r: int, a: nat, b: nat, k: nat, m: nat)
    requires 0 <= rb <= ra <= r && b <= a + m * k
    ensures rb * b <= ra * a + m * (k * r)
  {
    MalMonoton(rb, ra, b);
    MalMonoton(b, a + m * k, ra);
    MalMonoton(ra, r, m * k);
    assert ra * (a + m * k) == ra * a + ra * (m * k);
    assert r * (m * k) == m * (k * r) by { MalAssoziativ(m, k, r); }
  }

  /** m more inputs raise the fee by at most m times `InputKosten`, although the rate may change. */
  lemma FeeWachstum(kosten: Kosten, n: nat, m: nat, outputs: nat, betrag: int)
    requires kosten.Zulaessig()
    ensures kosten.Fee(n + m, outputs, betrag) <= kosten.Fee(n, outputs, betrag) + m * kosten.InputKosten()
  {
    var g := kosten.groessen;
    VsizeWachstum(g, n, m, outputs);
    var a, b, k := g.Vsize(n, outputs), g.Vsize(n + m, outputs), g.InputVb();
    match kosten.basis {
      case Ohne =>
      case Schaetzung(r) =>
        RateFaellt(r, a, b, betrag);
        ProduktWachstum(Rate(r, a, betrag).0, Rate(r, b, betrag).0, r, a, b, k, m);
      case Fest(milli) =>
        FestMonoton(milli, b, a + m * k);
        FestSubadditiv(milli, a, k, m);
    }
  }

  lemma MalAssoziativ(a: int, b: int, c: int)
    ensures (a * b) * c == a * (b * c)
  {}

  /** At 1 sat/vB the growth per input is the rounded size of one input. */
  lemma FeeWachstumBeiEins(kosten: Kosten, n: nat, m: nat, outputs: nat, betrag: int)
    requires kosten.Zulaessig() && !kosten.basis.Fest?
    requires kosten.Gebuehr(kosten.groessen.Vsize(n, outputs), betrag).1 == 1000
    ensures kosten.Fee(n + m, outputs, betrag) <= kosten.Fee(n, outputs, betrag) + m * kosten.groessen.InputVb()
  {
    var g := kosten.groessen;
    VsizeWachstum(g, n, m, outputs);
    if kosten.basis.Schaetzung? { RateFaellt(kosten.basis.rate, g.Vsize(n, outputs), g.Vsize(n + m, outputs), betrag); }
  }

  /**
   * n inputs that each bring no more than their own fee at the estimated rate are accepted only after the
   * cap has lowered the rate to 1 sat/vB.
   */
  lemma FallbackErzwingtEins(kosten: Kosten, n: nat, outputs: nat, gruen: int, betrag: int)
    requires kosten.Zulaessig() && !kosten.basis.Fest? && n >= 1 && betrag > 0
    requires gruen <= n * kosten.InputKosten()
    requires gruen >= betrag + kosten.Fee(n, outputs, betrag)
    ensures kosten.Gebuehr(kosten.groessen.Vsize(n, outputs), betrag).1 == 1000
  {
    var vs := kosten.groessen.Vsize(n, outputs);
    if kosten.basis.Schaetzung? {
      EigenkostenSchranke(kosten.groessen, n, outputs, kosten.basis.rate);
      MalMonoton(0, vs, kosten.basis.rate);
      assert kosten.Gebuehr(vs, betrag).1 == 1000 * Rate(kosten.basis.rate, vs, betrag).0;
    }
  }

  lemma ViertelSchranke(g: Groessen, n: nat, outputs: nat)
    ensures n * g.InputVb() <= 4 * g.Vsize(n, outputs)
  {
    MalMonoton(g.InputVb(), g.inputViertel, n);
    assert g.inputViertel * n <= 4 * g.Vsize(n, outputs);
  }

  lemma MalRate(a: int, vs: int, r: int)
    requires a <= 4 * vs && r >= 0
    ensures a * r <= 4 * (r * vs)
  {
    MalMonoton(a, 4 * vs, r);
    MalAssoziativ(4, vs, r);
  }

  lemma EigenkostenSchranke(g: Groessen, n: nat, outputs: nat, r: int)
    requires r >= 0
    ensures n * (g.InputVb() * r) <= 4 * (r * g.Vsize(n, outputs))
  {
    ViertelSchranke(g, n, outputs);
    MalRate(n * g.InputVb(), g.Vsize(n, outputs), r);
    MalAssoziativ(n, g.InputVb(), r);
  }
}
