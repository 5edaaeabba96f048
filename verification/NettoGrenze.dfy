/** What amounts a set of inputs covers, and which is the largest (core/coin_auswahl.py, `_bewerte` and `netto_max`). */
module NettoGrenze {
  import opened Ordnung
  import opened Gebuehren
  import opened Kandidaten
  import opened Waehlen

  /** The inputs `netto_max` counts, in candidate order. */
  function Liste(kand: seq<Kandidat>, kosten: Kosten): seq<Kandidat> {
    if Lohnende(kand, kosten) == [] && !kosten.basis.Fest? then UeberSechzigAcht(kand) else Lohnende(kand, kosten)
  }

  function Gruene(s: seq<Kandidat>): seq<Kandidat> { Gefiltert((k: Kandidat) => k.wert == k.beitrag, s) }

  predicate Gedeckt(n: nat, g: int, w: int, b: int, kosten: Kosten) { b > 0 && Bewerte(n, g, w, b, kosten).Some? }

  /** Paid with a change output. */
  predicate MitWechsel(n: nat, g: int, w: int, b: int, kosten: Kosten) {
    var fee1, fee2 := kosten.Fee(n, 1, b), kosten.Fee(n, 2, b);
    b + fee2 <= g && (w - b - fee2 >= STAUB_SATS || (w - b - fee2 >= STAUB_HART_SATS && b + fee1 <= g))
  }

  /** Paid without one: all green, and what is left is nothing or within 0.1 %. */
  predicate OhneWechsel(n: nat, g: int, w: int, b: int, kosten: Kosten) {
    var fee1 := kosten.Fee(n, 1, b);
    w == g && b + fee1 <= g && (b + fee1 == g || (w - b) * 1000 <= b)
  }

  lemma GedecktGenau(n: nat, g: int, w: int, b: int, kosten: Kosten)
    requires g <= w
    ensures Gedeckt(n, g, w, b, kosten) <==> b > 0 && (MitWechsel(n, g, w, b, kosten) || OhneWechsel(n, g, w, b, kosten))
  {}

  lemma FeeNichtNegativ(kosten: Kosten, n: nat, outputs: nat, b: int)
    requires kosten.Zulaessig()
    ensures kosten.Fee(n, outputs, b) >= 0
  {
    if kosten.basis.Fest? { FestMonoton(kosten.basis.milli, 0, kosten.groessen.Vsize(n, outputs)); }
  }

  /** The capped rate rises, if anything, with the amount. */
  lemma FeeSteigt(kosten: Kosten, n: nat, outputs: nat, b: int, b': int)
    requires kosten.Zulaessig() && b <= b'
    ensures kosten.Fee(n, outputs, b) <= kosten.Fee(n, outputs, b')
  {
    if kosten.basis.Schaetzung? { MalMonoton(1, kosten.basis.rate, kosten.groessen.Vsize(n, outputs)); }
  }

  // -------------------------------------------------------------- the largest amount

  /** The largest amount that stays within a together with its own fee. */
  function Tragbar(n: nat, outputs: nat, a: int, kosten: Kosten): int {
    var vs := kosten.groessen.Vsize(n, outputs);
    match kosten.basis
    case Ohne => a - vs
    case Fest(m) => a - FesteGebuehr(m, vs)
    case Schaetzung(r) =>
      if a - r * vs >= r * vs * 1000 then a - r * vs else if a - vs < r * vs * 1000 then a - vs else r * vs * 1000 - 1
  }

  lemma TragbarGenau(n: nat, outputs: nat, a: int, b: int, kosten: Kosten)
    requires kosten.Zulaessig()
    ensures b + kosten.Fee(n, outputs, b) <= a <==> b <= Tragbar(n, outputs, a, kosten)
  {
    if kosten.basis.Schaetzung? {
      var vs := kosten.groessen.Vsize(n, outputs);
      MalMonoton(1, kosten.basis.rate, vs);
      var teuer := kosten.basis.rate * vs;
      assert kosten.Fee(n, outputs, b) == if teuer * 1000 > b then vs else teuer;
    }
  }

  function Kleiner(a: int, b: int): int { if a <= b then a else b }

  function Groesser(a: int, b: int): int { if a >= b then a else b }

  /** The largest amount payable with change; not positive if there is none. */
  function MaxMitWechsel(n: nat, g: int, w: int, kosten: Kosten): int {
    Kleiner(Tragbar(n, 2, g, kosten),
            Groesser(Tragbar(n, 2, w - STAUB_SATS, kosten), Kleiner(Tragbar(n, 2, w - STAUB_HART_SATS, kosten), Tragbar(n, 1, g, kosten))))
  }

  /** What can be paid with change is exactly everything up to a limit. */
  lemma MitWechselGenau(n: nat, g: int, w: int, b: int, kosten: Kosten)
    requires kosten.Zulaessig()
    ensures MitWechsel(n, g, w, b, kosten) <==> b <= MaxMitWechsel(n, g, w, kosten)
  {
    TragbarGenau(n, 2, g, b, kosten);
    TragbarGenau(n, 2, w - STAUB_SATS, b, kosten);
    TragbarGenau(n, 2, w - STAUB_HART_SATS, b, kosten);
    TragbarGenau(n, 1, g, b, kosten);
  }

  /** What can be paid without change is everything from some amount up to the largest that leaves its fee. */
  lemma OhneWechselAufwaerts(n: nat, g: int, w: int, b: int, b': int, kosten: Kosten)
    requires kosten.Zulaessig() && OhneWechsel(n, g, w, b, kosten)
    ensures b <= Tragbar(n, 1, g, kosten)
    ensures b <= b' <= Tragbar(n, 1, g, kosten) ==> OhneWechsel(n, g, w, b', kosten)
  {
    TragbarGenau(n, 1, g, b, kosten);
    TragbarGenau(n, 1, g, b', kosten);
    if b <= b' { FeeSteigt(kosten, n, 1, b, b'); }
  }

  /** The largest amount a set covers at any rate: without change if that reaches further, else with change, else none. */
  function Hoechster(n: nat, g: int, w: int, kosten: Kosten): int {
    var q := Tragbar(n, 1, g, kosten);
    Groesser(0, Groesser(MaxMitWechsel(n, g, w, kosten), if OhneWechsel(n, g, w, q, kosten) then q else 0))
  }

  lemma HoechsterGenau(n: nat, g: int, w: int, b: int, kosten: Kosten)
    requires kosten.Zulaessig() && g <= w
    ensures Gedeckt(n, g, w, b, kosten) ==> b <= Hoechster(n, g, w, kosten)
    ensures Hoechster(n, g, w, kosten) > 0 ==> Gedeckt(n, g, w, Hoechster(n, g, w, kosten), kosten)
  {
    var q, h := Tragbar(n, 1, g, kosten), Hoechster(n, g, w, kosten);
    GedecktGenau(n, g, w, b, kosten);
    GedecktGenau(n, g, w, h, kosten);
    MitWechselGenau(n, g, w, b, kosten);
    MitWechselGenau(n, g, w, h, kosten);
    if OhneWechsel(n, g, w, b, kosten) { OhneWechselAufwaerts(n, g, w, b, q, kosten); }
  }

  // ------------------------------------------------------------------- a constant rate

  /** The fee does not depend on the amount: a fixed rate, none, or an estimate the cap cannot lower. */
  predicate Konstant(kosten: Kosten) { kosten.basis.Schaetzung? ==> kosten.basis.rate == MIN_SAT_VB }

  /** The largest amount n inputs cover at a constant rate; not positive if they cover none. */
  function Grenze(n: nat, g: int, w: int, kosten: Kosten): int {
    var fee1, fee2 := kosten.Fee(n, 1, 0), kosten.Fee(n, 2, 0);
    if w == g then g - fee1 else if g < w - STAUB_HART_SATS then g - fee2 else w - fee2 - STAUB_HART_SATS
  }

  lemma FeeKonstant(kosten: Kosten, n: nat, b: int)
    requires kosten.Zulaessig() && Konstant(kosten)
    ensures kosten.Fee(n, 1, b) == kosten.Fee(n, 1, 0) && kosten.Fee(n, 2, b) == kosten.Fee(n, 2, 0)
    ensures 0 <= kosten.Fee(n, 1, 0) <= kosten.Fee(n, 2, 0)
  {
    VsizeWachstum(kosten.groessen, n, 0, 1);
    if kosten.basis.Fest? {
      FestMonoton(kosten.basis.milli, 0, kosten.groessen.Vsize(n, 1));
      FestMonoton(kosten.basis.milli, kosten.groessen.Vsize(n, 1), kosten.groessen.Vsize(n, 2));
    }
  }

  /** Coverage below the limit has gaps, but nothing above it is covered and the limit itself is. */
  lemma GrenzeExakt(n: nat, g: int, w: int, kosten: Kosten)
    requires kosten.Zulaessig() && Konstant(kosten) && g <= w
    ensures Hoechster(n, g, w, kosten) == Groesser(0, Grenze(n, g, w, kosten))
  {
    var h, grenze := Hoechster(n, g, w, kosten), Grenze(n, g, w, kosten);
    FeeKonstant(kosten, n, h);
    FeeKonstant(kosten, n, grenze);
    GedecktGenau(n, g, w, h, kosten);
    GedecktGenau(n, g, w, grenze, kosten);
    HoechsterGenau(n, g, w, grenze, kosten);
  }

  // ------------------------------------------------------------------- all sets of inputs

  /** Dropping inputs that pay for themselves drops at least their cost from both sums. */
  lemma {:induction false} SummenLuecke(t: seq<Kandidat>, s: seq<Kandidat>, kosten: int)
    requires Teilfolge(t, s) && kosten >= 0 && BeitragImWert(s) && forall k :: k in s ==> k.beitrag >= kosten
    ensures |t| <= |s|
    ensures SummeBeitrag(s) - SummeBeitrag(t) >= (|s| - |t|) * kosten
    ensures SummeWert(s) - SummeWert(t) >= (|s| - |t|) * kosten
  {
    if s != [] {
      assert s[0] in s;
      forall k | k in s[1..] ensures k in s {}
      if t != [] && t[0] == s[0] && Teilfolge(t[1..], s[1..]) {
        SummenLuecke(t[1..], s[1..], kosten);
      } else {
        SummenLuecke(t, s[1..], kosten);
        assert (|s| - |t|) * kosten == (|s| - 1 - |t|) * kosten + kosten;
      }
    }
  }

  lemma InputKostenNichtNegativ(kosten: Kosten)
    requires kosten.Zulaessig()
    ensures kosten.InputKosten() >= 0
  {
    if kosten.basis.Fest? { FestSchranken(kosten.basis.milli, kosten.groessen.InputVb()); }
  }

  /** Inputs that each bring at least c, while a further one raises the fee by at most c. */
  lemma GroesserUm(t: seq<Kandidat>, s: seq<Kandidat>, kosten: Kosten, outputs: nat, b: int, c: int)
    requires Teilfolge(t, s) && BeitragImWert(s) && c >= 0 && (forall k :: k in s ==> k.beitrag >= c) && |t| <= |s|
    requires kosten.Fee(|s|, outputs, b) <= kosten.Fee(|t|, outputs, b) + (|s| - |t|) * c
    ensures SummeBeitrag(t) - kosten.Fee(|t|, outputs, b) <= SummeBeitrag(s) - kosten.Fee(|s|, outputs, b)
    ensures SummeWert(t) - kosten.Fee(|t|, outputs, b) <= SummeWert(s) - kosten.Fee(|s|, outputs, b)
  {
    SummenLuecke(t, s, c);
    Uebrig(SummeBeitrag(t), SummeBeitrag(s), SummeWert(t), SummeWert(s), kosten.Fee(|t|, outputs, b), kosten.Fee(|s|, outputs, b),
           (|s| - |t|) * c);
  }

  lemma GroesserEigen(t: seq<Kandidat>, s: seq<Kandidat>, kosten: Kosten, outputs: nat, b: int)
    requires kosten.Zulaessig() && Teilfolge(t, s) && BeitragImWert(s) && forall k :: k in s ==> k.beitrag > kosten.InputKosten()
    ensures SummeBeitrag(t) - kosten.Fee(|t|, outputs, b) <= SummeBeitrag(s) - kosten.Fee(|s|, outputs, b)
    ensures SummeWert(t) - kosten.Fee(|t|, outputs, b) <= SummeWert(s) - kosten.Fee(|s|, outputs, b)
  {
    TeilfolgeLaenge(t, s);
    InputKostenNichtNegativ(kosten);
    FeeBis(kosten, |t|, |s|, outputs, b, kosten.InputKosten());
    GroesserUm(t, s, kosten, outputs, b, kosten.InputKosten());
  }

  lemma FeeBis(kosten: Kosten, n: nat, bis: nat, outputs: nat, b: int, c: int)
    requires kosten.Zulaessig() && n <= bis && c == kosten.InputKosten()
    ensures kosten.Fee(bis, outputs, b) <= kosten.Fee(n, outputs, b) + (bis - n) * c
  {
    FeeWachstum(kosten, n, bis - n, outputs, b);
  }

  lemma GroesserRueckfall(t: seq<Kandidat>, s: seq<Kandidat>, kosten: Kosten, outputs: nat, b: int)
    requires kosten.Zulaessig() && !kosten.basis.Fest? && Teilfolge(t, s) && BeitragImWert(s) && t != [] && b > 0
    requires forall k :: k in s ==> kosten.groessen.InputVb() <= k.beitrag <= kosten.InputKosten()
    requires b + kosten.Fee(|t|, outputs, b) <= SummeBeitrag(t)
    ensures SummeBeitrag(t) - kosten.Fee(|t|, outputs, b) <= SummeBeitrag(s) - kosten.Fee(|s|, outputs, b)
    ensures SummeWert(t) - kosten.Fee(|t|, outputs, b) <= SummeWert(s) - kosten.Fee(|s|, outputs, b)
  {
    TeilfolgeLaenge(t, s);
    forall k | k in t ensures k.beitrag <= kosten.InputKosten() { TeilfolgeElemente(t, s, k); }
    SummeObergrenze(t, kosten.InputKosten());
    FallbackErzwingtEins(kosten, |t|, outputs, SummeBeitrag(t), b);
    FeeWachstumBeiEins(kosten, |t|, |s| - |t|, outputs, b);
    GroesserUm(t, s, kosten, outputs, b, kosten.groessen.InputVb());
  }

  /** All inputs leave at least as much after their fee as some of them, at every amount these pay. */
  lemma GroessereMenge(t: seq<Kandidat>, s: seq<Kandidat>, kosten: Kosten, outputs: nat, b: int)
    requires kosten.Zulaessig() && Teilfolge(t, s) && Wirtschaftlich(s, kosten) && t != [] && b > 0
    requires b + kosten.Fee(|t|, outputs, b) <= SummeBeitrag(t)
    ensures SummeBeitrag(t) - kosten.Fee(|t|, outputs, b) <= SummeBeitrag(s) - kosten.Fee(|s|, outputs, b)
    ensures SummeWert(t) - kosten.Fee(|t|, outputs, b) <= SummeWert(s) - kosten.Fee(|s|, outputs, b)
  {
    if forall k :: k in s ==> k.beitrag > kosten.InputKosten() {
      GroesserEigen(t, s, kosten, outputs, b);
    } else {
      GroesserRueckfall(t, s, kosten, outputs, b);
    }
  }

  lemma Uebrig(gt: int, gs: int, wt: int, ws: int, ft: int, fs: int, mehr: int)
    requires gs - gt >= mehr && ws - wt >= mehr && fs <= ft + mehr
    ensures gt - ft <= gs - fs && wt - ft <= ws - fs
  {}

  lemma {:induction false} SummeGruen(s: seq<Kandidat>)
    requires BeitragImWert(s)
    ensures SummeBeitrag(s) == SummeWert(s) <==> forall k :: k in s ==> k.wert == k.beitrag
  {
    if s != [] {
      assert s[0] in s;
      forall k | k in s[1..] ensures k in s {}
      SummeGruen(s[1..]);
      SummeBeitragImWert(s[1..]);
      assert forall k :: k in s <==> k == s[0] || k in s[1..];
    }
  }

  lemma {:induction false} TeilfolgeGruener(t: seq<Kandidat>, s: seq<Kandidat>)
    requires Teilfolge(t, s) && forall k :: k in t ==> k.wert == k.beitrag
    ensures Teilfolge(t, Gruene(s))
  {
    if t != [] {
      if t[0] == s[0] && Teilfolge(t[1..], s[1..]) { TeilfolgeGruener(t[1..], s[1..]); } else { TeilfolgeGruener(t, s[1..]); }
    }
  }

  /**
   * The one sum at which the largest changeless amount is not payable: what the lower rate leaves over there
   * is one sat more than 0.1 %.
   */
  predicate Ecke(n: nat, g: int, kosten: Kosten) {
    kosten.basis.Schaetzung? && kosten.basis.rate > MIN_SAT_VB
    && g == 1001 * (kosten.basis.rate * kosten.groessen.Vsize(n, 1)) - 1
  }

  lemma GruenOhneWechsel(n: nat, g: int, kosten: Kosten)
    requires kosten.Zulaessig() && Tragbar(n, 1, g, kosten) > 0 && !Ecke(n, g, kosten)
    ensures OhneWechsel(n, g, g, Tragbar(n, 1, g, kosten), kosten)
  {
    var q := Tragbar(n, 1, g, kosten);
    TragbarGenau(n, 1, g, q, kosten);
    if kosten.basis.Schaetzung? {
      var teuer := kosten.basis.rate * kosten.groessen.Vsize(n, 1);
      MalMonoton(1, kosten.basis.rate, kosten.groessen.Vsize(n, 1));
      assert kosten.Fee(n, 1, q) == if teuer * 1000 > q then kosten.groessen.Vsize(n, 1) else teuer;
    }
  }

  function HoechsterVon(s: seq<Kandidat>, kosten: Kosten): int {
    if s == [] then 0 else Hoechster(|s|, SummeBeitrag(s), SummeWert(s), kosten)
  }

  lemma MitWechselMehr(t: seq<Kandidat>, s: seq<Kandidat>, b: int, kosten: Kosten)
    requires kosten.Zulaessig() && Teilfolge(t, s) && Wirtschaftlich(s, kosten) && t != [] && b > 0
    requires MitWechsel(|t|, SummeBeitrag(t), SummeWert(t), b, kosten)
    ensures MitWechsel(|s|, SummeBeitrag(s), SummeWert(s), b, kosten)
  {
    GroessereMenge(t, s, kosten, 2, b);
    if b + kosten.Fee(|t|, 1, b) <= SummeBeitrag(t) { GroessereMenge(t, s, kosten, 1, b); }
  }

  /** What some wholly green inputs pay without change, all of them can pay or exceed. */
  lemma OhneWechselMehr(t: seq<Kandidat>, s: seq<Kandidat>, b: int, kosten: Kosten)
    requires kosten.Zulaessig() && Teilfolge(t, s) && Wirtschaftlich(s, kosten) && (forall k :: k in s ==> k.wert == k.beitrag)
    requires b > 0 && OhneWechsel(|t|, SummeBeitrag(t), SummeWert(t), b, kosten) && t != [] && !Ecke(|s|, SummeBeitrag(s), kosten)
    ensures s != [] && b <= HoechsterVon(s, kosten)
  {
    GroessereMenge(t, s, kosten, 1, b);
    SummeGruen(s);
    TragbarGenau(|s|, 1, SummeBeitrag(s), b, kosten);
    GruenOhneWechsel(|s|, SummeBeitrag(s), kosten);
  }

  // ---------------------------------------------------------------- where the green sum is the corner

  predicate EckeVon(s: seq<Kandidat>, kosten: Kosten) { Ecke(|s|, SummeBeitrag(s), kosten) }

  function OhneStelle(s: seq<Kandidat>, i: nat): (r: seq<Kandidat>)
    requires i < |s|
    ensures |r| == |s| - 1 && forall k :: k in r ==> k in s
  {
    s[..i] + s[i + 1..]
  }

  lemma OhneStelleSumme(s: seq<Kandidat>, i: nat)
    requires i < |s|
    ensures SummeBeitrag(OhneStelle(s, i)) == SummeBeitrag(s) - s[i].beitrag
  {
    SummeVerketten(s[..i], s[i + 1..]);
    SummeVerketten(s[..i], s[i..]);
    assert s[..i] + s[i..] == s && s[i..][1..] == s[i + 1..];
  }

  lemma OhneStelleTeil(s: seq<Kandidat>, i: nat)
    requires i < |s|
    ensures Teilfolge(OhneStelle(s, i), s)
  {
    hide Teilfolge;
    TeilfolgeReflexiv(s[..i]);
    TeilfolgeReflexiv(s[i + 1..]);
    TeilfolgeRechts(s[i + 1..], [s[i]], s[i + 1..]);
    assert [s[i]] + s[i + 1..] == s[i..] && s[..i] + s[i..] == s;
    TeilfolgeVerketten(s[..i], s[..i], s[i + 1..], s[i..]);
  }

  /** A selection that is not everything lacks some element. */
  lemma {:induction false} TeilfolgeOhne(t: seq<Kandidat>, s: seq<Kandidat>) returns (i: nat)
    requires Teilfolge(t, s) && t != s
    ensures i < |s| && Teilfolge(t, OhneStelle(s, i))
  {
    if t != [] && t[0] == s[0] && Teilfolge(t[1..], s[1..]) {
      assert t == [t[0]] + t[1..] && s == [s[0]] + s[1..];
      var j := TeilfolgeOhne(t[1..], s[1..]);
      i := j + 1;
      assert OhneStelle(s, i) == [s[0]] + OhneStelle(s[1..], j);
      assert OhneStelle(s, i)[1..] == OhneStelle(s[1..], j);
    } else {
      i := 0;
      assert OhneStelle(s, 0) == s[1..];
    }
  }

  lemma WirtschaftlichTeil(t: seq<Kandidat>, s: seq<Kandidat>, kosten: Kosten)
    requires Wirtschaftlich(s, kosten) && forall k :: k in t ==> k in s
    ensures Wirtschaftlich(t, kosten)
  {}

  ghost predicate NurGruen(s: seq<Kandidat>) { forall k :: k in s ==> k.wert == k.beitrag }

  /** These green inputs reach an amount: all together, or, only where their sum is the corner, without some of them. */
  ghost predicate GruenReicht(s: seq<Kandidat>, b: int, kosten: Kosten)
    decreases |s|
  {
    s != [] && (b <= HoechsterVon(s, kosten)
                || (EckeVon(s, kosten) && exists i: nat :: i < |s| && GruenReicht(OhneStelle(s, i), b, kosten)))
  }

  /** Whatever some green inputs pay without change is reached. */
  lemma {:induction false} GruenReichtTeil(t: seq<Kandidat>, s: seq<Kandidat>, b: int, kosten: Kosten)
    requires kosten.Zulaessig() && Teilfolge(t, s) && Wirtschaftlich(s, kosten) && NurGruen(s)
    requires b > 0 && t != [] && OhneWechsel(|t|, SummeBeitrag(t), SummeWert(t), b, kosten)
    ensures GruenReicht(s, b, kosten)
    decreases |s|
  {
    if !EckeVon(s, kosten) {
      OhneWechselMehr(t, s, b, kosten);
    } else if t == s {
      SummeGruen(s);
      GedecktGenau(|s|, SummeBeitrag(s), SummeWert(s), b, kosten);
      HoechsterGenau(|s|, SummeBeitrag(s), SummeWert(s), b, kosten);
    } else {
      var i := TeilfolgeOhne(t, s);
      WirtschaftlichTeil(OhneStelle(s, i), s, kosten);
      GruenReichtTeil(t, OhneStelle(s, i), b, kosten);
    }
  }

  /** What is reached is covered by some of the inputs. */
  lemma {:induction false} GruenReichtDeckt(s: seq<Kandidat>, b: int, kosten: Kosten) returns (t: seq<Kandidat>, x: int)
    requires kosten.Zulaessig() && BeitragImWert(s) && b > 0 && GruenReicht(s, b, kosten)
    ensures Teilfolge(t, s) && t != [] && x >= b && Urteil(t, x, kosten).Some?
    decreases |s|
  {
    if b <= HoechsterVon(s, kosten) {
      t, x := s, HoechsterVon(s, kosten);
      TeilfolgeReflexiv(s);
      SummeBeitragImWert(s);
      HoechsterGenau(|s|, SummeBeitrag(s), SummeWert(s), x, kosten);
    } else {
      var i: nat :| i < |s| && GruenReicht(OhneStelle(s, i), b, kosten);
      t, x := GruenReichtDeckt(OhneStelle(s, i), b, kosten);
      OhneStelleTeil(s, i);
      TeilfolgeTransitiv(t, OhneStelle(s, i), s);
    }
  }

  /** Some selection covers this amount or a larger one. */
  ghost predicate Erreichbar(s: seq<Kandidat>, b: int, kosten: Kosten) {
    exists t, x :: Teilfolge(t, s) && t != [] && x >= b && Urteil(t, x, kosten).Some?
  }

  lemma ErreichbarDurch(t: seq<Kandidat>, s: seq<Kandidat>, b: int, kosten: Kosten)
    requires kosten.Zulaessig() && Wirtschaftlich(s, kosten) && Teilfolge(t, s) && t != [] && b > 0 && Urteil(t, b, kosten).Some?
    ensures b <= HoechsterVon(s, kosten) || GruenReicht(Gruene(s), b, kosten)
  {
    forall k | k in t ensures k in s { TeilfolgeElemente(t, s, k); }
    SummeBeitragImWert(t);
    SummeBeitragImWert(s);
    SummeGruen(t);
    GedecktGenau(|t|, SummeBeitrag(t), SummeWert(t), b, kosten);
    if MitWechsel(|t|, SummeBeitrag(t), SummeWert(t), b, kosten) {
      MitWechselMehr(t, s, b, kosten);
      MitWechselGenau(|s|, SummeBeitrag(s), SummeWert(s), b, kosten);
    } else {
      TeilfolgeGruener(t, s);
      WirtschaftlichTeil(Gruene(s), s, kosten);
      GruenReichtTeil(t, Gruene(s), b, kosten);
    }
  }

  lemma GruenReichtWeniger(s: seq<Kandidat>, b: int, b': int, kosten: Kosten)
    requires GruenReicht(s, b', kosten) && b <= b'
    ensures GruenReicht(s, b, kosten)
    decreases |s|
  {
    if b' > HoechsterVon(s, kosten) {
      var i: nat :| i < |s| && GruenReicht(OhneStelle(s, i), b', kosten);
      GruenReichtWeniger(OhneStelle(s, i), b, b', kosten);
    }
  }

  /**
   * At every rate: some set of the listed inputs covers an amount, or more, exactly if all of them or the
   * wholly green ones do; only where the green sum is the corner, sets that lack green inputs count as well.
   */
  lemma MengenGenuegen(s: seq<Kandidat>, b: int, kosten: Kosten)
    requires kosten.Zulaessig() && Wirtschaftlich(s, kosten) && b > 0
    ensures Erreichbar(s, b, kosten) <==> b <= HoechsterVon(s, kosten) || GruenReicht(Gruene(s), b, kosten)
  {
    if Erreichbar(s, b, kosten) {
      var t, x :| Teilfolge(t, s) && t != [] && x >= b && Urteil(t, x, kosten).Some?;
      ErreichbarDurch(t, s, x, kosten);
      if GruenReicht(Gruene(s), x, kosten) { GruenReichtWeniger(Gruene(s), b, x, kosten); }
    }
    if b <= HoechsterVon(s, kosten) {
      TeilfolgeReflexiv(s);
      SummeBeitragImWert(s);
      HoechsterGenau(|s|, SummeBeitrag(s), SummeWert(s), HoechsterVon(s, kosten), kosten);
      assert Urteil(s, HoechsterVon(s, kosten), kosten).Some?;
    } else if GruenReicht(Gruene(s), b, kosten) {
      var t, x := GruenReichtDeckt(Gruene(s), b, kosten);
      GefiltertTeilfolge((k: Kandidat) => k.wert == k.beitrag, s);
      TeilfolgeTransitiv(t, Gruene(s), s);
    }
  }

  /** Away from the corner the two sets the program looks at are enough. */
  lemma ZweiMengenGenuegen(s: seq<Kandidat>, b: int, kosten: Kosten)
    requires kosten.Zulaessig() && Wirtschaftlich(s, kosten) && b > 0 && !EckeVon(Gruene(s), kosten)
    ensures Erreichbar(s, b, kosten) <==> b <= HoechsterVon(s, kosten) || b <= HoechsterVon(Gruene(s), kosten)
  {
    MengenGenuegen(s, b, kosten);
  }

  /** At the corner the set without the smallest green coin decides, unless that has a corner sum itself. */
  lemma KleinsteEntscheidet(s: seq<Kandidat>, k: nat, b: int, kosten: Kosten)
    requires kosten.Zulaessig() && Wirtschaftlich(s, kosten) && NurGruen(s) && EckeVon(s, kosten) && b > 0
    requires k < |s| && (forall i :: 0 <= i < |s| ==> s[k].beitrag <= s[i].beitrag) && !EckeVon(OhneStelle(s, k), kosten)
    ensures GruenReicht(s, b, kosten) <==> b <= HoechsterVon(s, kosten) || b <= HoechsterVon(OhneStelle(s, k), kosten)
  {
    var ohne := OhneStelle(s, k);
    if b <= HoechsterVon(ohne, kosten) { assert GruenReicht(ohne, b, kosten); }
    if GruenReicht(s, b, kosten) && b > HoechsterVon(s, kosten) {
      var i: nat :| i < |s| && GruenReicht(OhneStelle(s, i), b, kosten);
      var t, x := GruenReichtDeckt(OhneStelle(s, i), b, kosten);
      KleinsteBesser(s, k, i, t, x, kosten);
    }
  }

  /** What some green inputs other than the i-th cover, all cover or those other than the smallest. */
  lemma KleinsteBesser(s: seq<Kandidat>, k: nat, i: nat, t: seq<Kandidat>, x: int, kosten: Kosten)
    requires kosten.Zulaessig() && Wirtschaftlich(s, kosten) && NurGruen(s) && k < |s| && i < |s| && s[k].beitrag <= s[i].beitrag
    requires !EckeVon(OhneStelle(s, k), kosten) && Teilfolge(t, OhneStelle(s, i)) && t != [] && x > 0 && Urteil(t, x, kosten).Some?
    ensures x <= HoechsterVon(s, kosten) || x <= HoechsterVon(OhneStelle(s, k), kosten)
  {
    OhneStelleTeil(s, i);
    TeilfolgeTransitiv(t, OhneStelle(s, i), s);
    forall y | y in t ensures y in s { TeilfolgeElemente(t, s, y); }
    SummeBeitragImWert(t);
    GedecktGenau(|t|, SummeBeitrag(t), SummeWert(t), x, kosten);
    if MitWechsel(|t|, SummeBeitrag(t), SummeWert(t), x, kosten) {
      MitWechselMehr(t, s, x, kosten);
      MitWechselGenau(|s|, SummeBeitrag(s), SummeWert(s), x, kosten);
    } else {
      OhneEineMehr(s, k, i, t, x, kosten);
    }
  }

  lemma OhneEineMehr(s: seq<Kandidat>, k: nat, i: nat, t: seq<Kandidat>, x: int, kosten: Kosten)
    requires kosten.Zulaessig() && Wirtschaftlich(s, kosten) && NurGruen(s) && k < |s| && i < |s| && s[k].beitrag <= s[i].beitrag
    requires !EckeVon(OhneStelle(s, k), kosten) && Teilfolge(t, OhneStelle(s, i)) && t != [] && x > 0
    requires OhneWechsel(|t|, SummeBeitrag(t), SummeWert(t), x, kosten)
    ensures x <= HoechsterVon(OhneStelle(s, k), kosten)
  {
    var ohne, b := OhneStelle(s, i), OhneStelle(s, k);
    WirtschaftlichTeil(ohne, s, kosten);
    TeilfolgeLaenge(t, ohne);
    GroessereMenge(t, ohne, kosten, 1, x);
    OhneStelleSumme(s, i);
    OhneStelleSumme(s, k);
    SummeGruen(b);
    TragbarGenau(|b|, 1, SummeBeitrag(b), x, kosten);
    GruenOhneWechsel(|b|, SummeBeitrag(b), kosten);
  }
}
