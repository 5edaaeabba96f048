/** Inputs the selection may use, and what a set of them is worth (core/coin_auswahl.py, `kandidaten`, `_rang`). */
module Kandidaten {
  import opened Ordnung
  import opened Gebuehren

  const ZEIT_UNBEKANNT := 0x4000_0000_0000_0000

  datatype Kandidat = Kandidat(key: string, txid: string, vout: nat, wert: int, beitrag: int, zeit: int)

  function SummeBeitrag(s: seq<Kandidat>): int { if s == [] then 0 else s[0].beitrag + SummeBeitrag(s[1..]) }

  function SummeWert(s: seq<Kandidat>): int { if s == [] then 0 else s[0].wert + SummeWert(s[1..]) }

  function Zeiten(s: seq<Kandidat>): seq<int> { if s == [] then [] else [s[0].zeit] + Zeiten(s[1..]) }

  function Keys(s: seq<Kandidat>): seq<string> { if s == [] then [] else [s[0].key] + Keys(s[1..]) }

  ghost predicate Verschieden(s: seq<Kandidat>) {
    forall i, j :: 0 <= i < j < |s| ==> s[i].key != s[j].key
  }

  ghost predicate BeitragImWert(s: seq<Kandidat>) { forall k :: k in s ==> k.beitrag <= k.wert }

  /** The verdict on a set of inputs. */
  function Urteil(s: seq<Kandidat>, betrag: int, kosten: Kosten): Option<Loesung> {
    Bewerte(|s|, SummeBeitrag(s), SummeWert(s), betrag, kosten)
  }

  // --------------------------------------------------------------------- rank

  /** Change, number of inputs, sorted times, sorted keys: compared from left to right. */
  datatype Rang = Rang(wechselgeld: int, anzahl: nat, zeiten: seq<int>, keys: seq<string>)

  function RangVon(l: Loesung, s: seq<Kandidat>): Rang {
    Rang(l.wechselgeld, |s|, Sortiert(IntKleiner, Zeiten(s)), Sortiert(StringKleiner, Keys(s)))
  }

  predicate RangKleiner(a: Rang, b: Rang) {
    a.wechselgeld < b.wechselgeld
    || (a.wechselgeld == b.wechselgeld
        && (a.anzahl < b.anzahl
            || (a.anzahl == b.anzahl
                && (Lex(IntKleiner, a.zeiten, b.zeiten)
                    || (a.zeiten == b.zeiten && Lex(StringKleiner, a.keys, b.keys))))))
  }

  ghost predicate NichtGroesser(a: Rang, b: Rang) { a == b || RangKleiner(a, b) }

  lemma RangTotal(a: Rang, b: Rang)
    ensures a == b || RangKleiner(a, b) || RangKleiner(b, a)
    ensures !RangKleiner(a, a)
  {
    StringTotal();
    assert StrengTotal(IntKleiner);
    LexTrichotomie(IntKleiner, a.zeiten, b.zeiten);
    LexTrichotomie(StringKleiner, a.keys, b.keys);
    LexIrreflexiv(IntKleiner, a.zeiten);
    LexIrreflexiv(StringKleiner, a.keys);
  }

  lemma RangTransitiv(a: Rang, b: Rang, c: Rang)
    requires RangKleiner(a, b) && RangKleiner(b, c)
    ensures RangKleiner(a, c)
  {
    StringTotal();
    assert StrengTotal(IntKleiner);
    if Lex(IntKleiner, a.zeiten, b.zeiten) && Lex(IntKleiner, b.zeiten, c.zeiten) {
      LexTransitiv(IntKleiner, a.zeiten, b.zeiten, c.zeiten);
    }
    if Lex(StringKleiner, a.keys, b.keys) && Lex(StringKleiner, b.keys, c.keys) {
      LexTransitiv(StringKleiner, a.keys, b.keys, c.keys);
    }
  }

  lemma {:induction false} KeysElemente(s: seq<Kandidat>, key: string)
    ensures key in Keys(s) <==> exists k :: k in s && k.key == key
  {
    if s != [] {
      KeysElemente(s[1..], key);
      assert s == [s[0]] + s[1..];
    }
  }

  /** A selection either starts with the first candidate or avoids its key altogether. */
  lemma KeyDrin(s: seq<Kandidat>, nutzbar: seq<Kandidat>)
    requires nutzbar != [] && Verschieden(nutzbar) && Teilfolge(s, nutzbar)
    ensures if nutzbar[0].key in Keys(s) then s != [] && s[0] == nutzbar[0] && Teilfolge(s[1..], nutzbar[1..])
            else Teilfolge(s, nutzbar[1..])
  {
    KeysElemente(s, nutzbar[0].key);
    if Teilfolge(s, nutzbar[1..]) {
      forall k | k in s ensures k.key != nutzbar[0].key { TeilfolgeElemente(s, nutzbar[1..], k); }
    }
  }

  lemma MengeOhneKopf<T>(x: T, a: seq<T>, b: seq<T>)
    requires multiset([x] + a) == multiset([x] + b)
    ensures multiset(a) == multiset(b)
  {
    assert multiset(a) == multiset([x] + a) - multiset{x};
    assert multiset(b) == multiset([x] + b) - multiset{x};
  }

  lemma {:induction false} GleicheKeysGleicheAuswahl(s: seq<Kandidat>, t: seq<Kandidat>, nutzbar: seq<Kandidat>)
    requires Verschieden(nutzbar) && Teilfolge(s, nutzbar) && Teilfolge(t, nutzbar)
    requires multiset(Keys(s)) == multiset(Keys(t))
    ensures s == t
    decreases nutzbar
  {
    if nutzbar != [] {
      var key, rest := nutzbar[0].key, nutzbar[1..];
      assert Verschieden(rest);
      KeyDrin(s, nutzbar);
      KeyDrin(t, nutzbar);
      assert key in multiset(Keys(s)) <==> key in multiset(Keys(t));
      if key in Keys(s) {
        var s', t' := s[1..], t[1..];
        MengeOhneKopf(key, Keys(s'), Keys(t'));
        GleicheKeysGleicheAuswahl(s', t', rest);
        assert s == [nutzbar[0]] + s' && t == [nutzbar[0]] + t';
      } else {
        GleicheKeysGleicheAuswahl(s, t, rest);
      }
    }
  }

  /** Over a list of distinct keys no two selections share a rank: the minimum is unique. */
  lemma RangEindeutig(l: Loesung, l': Loesung, s: seq<Kandidat>, t: seq<Kandidat>, nutzbar: seq<Kandidat>)
    requires Verschieden(nutzbar) && Teilfolge(s, nutzbar) && Teilfolge(t, nutzbar)
    requires RangVon(l, s) == RangVon(l', t)
    ensures s == t
  {
    SortiertMenge(StringKleiner, Keys(s));
    SortiertMenge(StringKleiner, Keys(t));
    GleicheKeysGleicheAuswahl(s, t, nutzbar);
  }

  // --------------------------------------------------------------------- sums

  lemma {:induction false} SummeVerketten(s: seq<Kandidat>, t: seq<Kandidat>)
    ensures SummeBeitrag(s + t) == SummeBeitrag(s) + SummeBeitrag(t)
    ensures SummeWert(s + t) == SummeWert(s) + SummeWert(t)
  {
    if s == [] { assert s + t == t; } else {
      SummeVerketten(s[1..], t);
      assert (s + t)[1..] == s[1..] + t;
    }
  }

  lemma {:induction false} SummeSchranken(s: seq<Kandidat>, unten: int)
    requires BeitragImWert(s) && forall k :: k in s ==> k.beitrag >= unten
    ensures |s| * unten <= SummeBeitrag(s) <= SummeWert(s)
  {
    if s != [] {
      forall k | k in s[1..] ensures k in s {}
      SummeSchranken(s[1..], unten);
      assert |s| * unten == (|s| - 1) * unten + unten;
      assert s[0] in s;
    }
  }

  lemma {:induction false} SummeBeitragImWert(s: seq<Kandidat>)
    requires BeitragImWert(s)
    ensures SummeBeitrag(s) <= SummeWert(s)
  {
    if s != [] {
      forall k | k in s[1..] ensures k in s {}
      SummeBeitragImWert(s[1..]);
      assert s[0] in s;
    }
  }

  lemma {:induction false} SummeObergrenze(s: seq<Kandidat>, oben: int)
    requires forall k :: k in s ==> k.beitrag <= oben
    ensures SummeBeitrag(s) <= |s| * oben
  {
    if s != [] {
      forall k | k in s[1..] ensures k in s {}
      SummeObergrenze(s[1..], oben);
      assert |s| * oben == (|s| - 1) * oben + oben;
      assert s[0] in s;
    }
  }

  lemma {:induction false} SummeTeilfolge(t: seq<Kandidat>, s: seq<Kandidat>)
    requires Teilfolge(t, s) && forall k :: k in s ==> k.beitrag >= 0
    ensures SummeBeitrag(t) <= SummeBeitrag(s)
  {
    if s == [] { assert t == []; } else {
      assert s[0] in s;
      forall k | k in s[1..] ensures k in s {}
      if t != [] && t[0] == s[0] && Teilfolge(t[1..], s[1..]) { SummeTeilfolge(t[1..], s[1..]); }
      else { SummeTeilfolge(t, s[1..]); }
    }
  }

  lemma {:induction false} TeilfolgeVerschieden(t: seq<Kandidat>, s: seq<Kandidat>)
    requires Teilfolge(t, s) && Verschieden(s)
    ensures Verschieden(t)
  {
    if t != [] {
      if t[0] == s[0] && Teilfolge(t[1..], s[1..]) {
        TeilfolgeVerschieden(t[1..], s[1..]);
        forall j | 1 <= j < |t| ensures t[j].key != t[0].key {
          assert t[j] in t[1..];
          TeilfolgeElemente(t[1..], s[1..], t[j]);
        }
      } else {
        TeilfolgeVerschieden(t, s[1..]);
      }
    }
  }

  function OhneKandidat(s: seq<Kandidat>, k: Kandidat): (r: seq<Kandidat>)
    ensures k !in r && forall x :: x in r <==> x in s && x != k
    ensures |r| <= |s|
  {
    if s == [] then [] else if s[0] == k then OhneKandidat(s[1..], k) else [s[0]] + OhneKandidat(s[1..], k)
  }

  lemma {:induction false} OhneKandidatSumme(s: seq<Kandidat>, k: Kandidat)
    requires Verschieden(s)
    ensures Verschieden(OhneKandidat(s, k))
    ensures k in s ==> |OhneKandidat(s, k)| == |s| - 1
                       && SummeBeitrag(OhneKandidat(s, k)) == SummeBeitrag(s) - k.beitrag
                       && SummeWert(OhneKandidat(s, k)) == SummeWert(s) - k.wert
    ensures k !in s ==> OhneKandidat(s, k) == s
  {
    if s != [] {
      OhneKandidatSumme(s[1..], k);
      forall x | x in OhneKandidat(s[1..], k) ensures x.key != s[0].key { assert x in s[1..]; }
      if s[0] == k { assert k !in s[1..]; }
    }
  }

  /** The same inputs in another order have the same sums. */
  lemma {:induction false} GleicheSummen(s: seq<Kandidat>, t: seq<Kandidat>)
    requires Verschieden(s) && Verschieden(t) && forall k :: k in s <==> k in t
    ensures |s| == |t| && SummeBeitrag(s) == SummeBeitrag(t) && SummeWert(s) == SummeWert(t)
  {
    assert t != [] ==> t[0] in t;
    if s != [] {
      OhneKandidatSumme(t, s[0]);
      GleicheSummen(s[1..], OhneKandidat(t, s[0]));
    }
  }

  // ------------------------------------------------------------------ sorting

  lemma {:induction false} EinfuegenKandidat(kleiner: (Kandidat, Kandidat) -> bool, k: Kandidat, s: seq<Kandidat>)
    ensures SummeBeitrag(Einfuegen(kleiner, k, s)) == k.beitrag + SummeBeitrag(s)
    ensures SummeWert(Einfuegen(kleiner, k, s)) == k.wert + SummeWert(s)
    ensures forall x :: x in Einfuegen(kleiner, k, s) <==> x == k || x in s
  {
    if s != [] && kleiner(s[0], k) { EinfuegenKandidat(kleiner, k, s[1..]); }
  }

  lemma {:induction false} EinfuegenVerschieden(kleiner: (Kandidat, Kandidat) -> bool, k: Kandidat, s: seq<Kandidat>)
    requires Verschieden(s) && forall x :: x in s ==> x.key != k.key
    ensures Verschieden(Einfuegen(kleiner, k, s))
  {
    if s != [] && kleiner(s[0], k) {
      EinfuegenVerschieden(kleiner, k, s[1..]);
      EinfuegenKandidat(kleiner, k, s[1..]);
      var r := Einfuegen(kleiner, k, s[1..]);
      forall j | 0 <= j < |r| ensures r[j].key != s[0].key { assert r[j] in r; }
    }
  }

  /** Sorting changes neither the sums nor the candidates. */
  lemma {:induction false} SortiertKandidaten(kleiner: (Kandidat, Kandidat) -> bool, s: seq<Kandidat>)
    ensures SummeBeitrag(Sortiert(kleiner, s)) == SummeBeitrag(s) && SummeWert(Sortiert(kleiner, s)) == SummeWert(s)
    ensures |Sortiert(kleiner, s)| == |s| && forall x :: x in Sortiert(kleiner, s) <==> x in s
    ensures Verschieden(s) ==> Verschieden(Sortiert(kleiner, s))
  {
    SortiertElemente(kleiner, s);
    if s != [] {
      SortiertKandidaten(kleiner, s[1..]);
      var r := Sortiert(kleiner, s[1..]);
      EinfuegenKandidat(kleiner, s[0], r);
      if Verschieden(s) {
        forall x | x in r ensures x.key != s[0].key { assert x in s[1..]; }
        EinfuegenVerschieden(kleiner, s[0], r);
      }
    }
  }

  /** The older of two inputs, at equal times the one with the smaller key. */
  predicate AelterZuerst(a: Kandidat, b: Kandidat) {
    a.zeit < b.zeit || (a.zeit == b.zeit && StringKleiner(a.key, b.key))
  }

  // ---------------------------------------------------------------- dominance

  /**
   * The list `waehle` searches: every input brings more than its own fee; or, when none does at the
   * estimated rate, every input brings more than 68 sats and an input is at most 69 vbytes.
   */
  ghost predicate Wirtschaftlich(s: seq<Kandidat>, kosten: Kosten) {
    && BeitragImWert(s)
    && ((forall k :: k in s ==> k.beitrag > kosten.InputKosten())
        || (!kosten.basis.Fest? && kosten.groessen.InputVb() <= VBYTES_INPUT * MIN_SAT_VB + 1
            && forall k :: k in s ==> VBYTES_INPUT * MIN_SAT_VB < k.beitrag <= kosten.InputKosten()))
  }

  /** s + t keeps at least as much for the change, and as much green, as s alone. */
  ghost predicate MehrUebrig(s: seq<Kandidat>, t: seq<Kandidat>, betrag: int, kosten: Kosten) {
    && SummeWert(s + t) - kosten.Fee(|s + t|, 2, betrag) >= SummeWert(s) - kosten.Fee(|s|, 2, betrag)
    && SummeBeitrag(s + t) - kosten.Fee(|s + t|, 2, betrag) >= SummeBeitrag(s) - kosten.Fee(|s|, 2, betrag)
  }

  lemma MehrUebrigBeiEins(s: seq<Kandidat>, t: seq<Kandidat>, betrag: int, kosten: Kosten)
    requires kosten.Zulaessig() && !kosten.basis.Fest? && kosten.groessen.InputVb() <= VBYTES_INPUT * MIN_SAT_VB + 1
    requires kosten.Gebuehr(kosten.groessen.Vsize(|s|, 2), betrag).1 == 1000
    requires BeitragImWert(t) && forall k :: k in t ==> k.beitrag > VBYTES_INPUT * MIN_SAT_VB
    ensures MehrUebrig(s, t, betrag, kosten)
  {
    SummeVerketten(s, t);
    FeeWachstumBeiEins(kosten, |s|, |t|, 2, betrag);
    SummeSchranken(t, VBYTES_INPUT * MIN_SAT_VB + 1);
    MalMonoton(kosten.groessen.InputVb(), VBYTES_INPUT * MIN_SAT_VB + 1, |t|);
  }

  lemma MehrUebrigEigen(s: seq<Kandidat>, t: seq<Kandidat>, betrag: int, kosten: Kosten)
    requires kosten.Zulaessig() && BeitragImWert(t) && forall k :: k in t ==> k.beitrag > kosten.InputKosten()
    ensures MehrUebrig(s, t, betrag, kosten)
  {
    SummeVerketten(s, t);
    FeeWachstum(kosten, |s|, |t|, 2, betrag);
    SummeSchranken(t, kosten.InputKosten());
  }

  /** Adding usable inputs to an accepted set that pays change never lowers the change. */
  lemma MehrUebrigImmer(s: seq<Kandidat>, t: seq<Kandidat>, betrag: int, kosten: Kosten)
    requires kosten.Zulaessig() && betrag > 0 && s != []
    requires Wirtschaftlich(s + t, kosten)
    requires SummeBeitrag(s) >= betrag + kosten.Fee(|s|, 2, betrag)
    ensures MehrUebrig(s, t, betrag, kosten)
  {
    assert forall k :: k in t ==> k in s + t;
    if forall k :: k in s + t ==> k.beitrag > kosten.InputKosten() {
      MehrUebrigEigen(s, t, betrag, kosten);
    } else {
      assert forall k :: k in s ==> k in s + t;
      SummeObergrenze(s, kosten.InputKosten());
      FallbackErzwingtEins(kosten, |s|, 2, SummeBeitrag(s), betrag);
      MehrUebrigBeiEins(s, t, betrag, kosten);
    }
  }

  /** An accepted set pays change: two outputs are affordable, and what is left may not all go into the fee. */
  ghost predicate ZahltWechsel(g: int, w: int, betrag: int, fee1: int, fee2: int) {
    && betrag + fee2 <= g
    && (w - betrag - fee2 >= STAUB_SATS
        || (w - betrag - fee2 >= STAUB_HART_SATS && !(w == g && (w - betrag == fee1 || (w - betrag) * 1000 <= betrag))))
  }

  lemma ZweiOutputsGenau(n: nat, g: int, w: int, betrag: int, kosten: Kosten)
    requires Bewerte(n, g, w, betrag, kosten).Some?
    ensures Bewerte(n, g, w, betrag, kosten).value.outputs == 2 <==>
            ZahltWechsel(g, w, betrag, kosten.Fee(n, 1, betrag), kosten.Fee(n, 2, betrag))
  {}

  /** One output less is cheaper, unless only the larger form is capped; then its fee is within 0.1 %. */
  lemma FeeEinOutput(kosten: Kosten, n: nat, betrag: int)
    requires kosten.Zulaessig()
    ensures kosten.Fee(n, 1, betrag) <= kosten.Fee(n, 2, betrag) || kosten.Fee(n, 1, betrag) * 1000 <= betrag
  {
    var vs1, vs2 := kosten.groessen.Vsize(n, 1), kosten.groessen.Vsize(n, 2);
    VsizeWachstum(kosten.groessen, n, 0, 1);
    match kosten.basis {
      case Ohne =>
      case Schaetzung(r) => MalMonoton(vs1, vs2, r);
      case Fest(milli) => FestMonoton(milli, vs1, vs2);
    }
  }

  lemma ZahltWeiter(g: int, w: int, f1: int, f2: int, g': int, w': int, f1': int, f2': int, betrag: int)
    requires ZahltWechsel(g, w, betrag, f1, f2) && betrag > 0 && w <= w' && (w' == g' ==> w == g)
    requires w' - f2' >= w - f2 && g' - f2' >= g - f2 && (f1' <= f2' || f1' * 1000 <= betrag)
    ensures ZahltWechsel(g', w', betrag, f1', f2')
  {}

  /** Where dust may not go into the fee for s, it may not for a larger set either. */
  lemma WechselgeldBleibt(n: nat, g: int, w: int, n': nat, g': int, w': int, betrag: int, kosten: Kosten)
    requires kosten.Zulaessig() && betrag > 0 && w <= w' && (w' == g' ==> w == g)
    requires Bewerte(n, g, w, betrag, kosten).Some? && Bewerte(n, g, w, betrag, kosten).value.outputs == 2
    requires Bewerte(n', g', w', betrag, kosten).Some?
    requires w' - kosten.Fee(n', 2, betrag) >= w - kosten.Fee(n, 2, betrag)
    requires g' - kosten.Fee(n', 2, betrag) >= g - kosten.Fee(n, 2, betrag)
    ensures Bewerte(n', g', w', betrag, kosten).value.outputs == 2
  {
    ZweiOutputsGenau(n, g, w, betrag, kosten);
    ZweiOutputsGenau(n', g', w', betrag, kosten);
    FeeEinOutput(kosten, n', betrag);
    ZahltWeiter(g, w, kosten.Fee(n, 1, betrag), kosten.Fee(n, 2, betrag), g', w', kosten.Fee(n', 1, betrag), kosten.Fee(n', 2, betrag), betrag);
  }

  lemma BeitraegePositiv(s: seq<Kandidat>, kosten: Kosten)
    requires kosten.Zulaessig() && Wirtschaftlich(s, kosten)
    ensures forall k :: k in s ==> k.beitrag > 0
  {
    if kosten.basis.Fest? { FestSchranken(kosten.basis.milli, kosten.groessen.InputVb()); }
  }

  lemma ErweiterungVerliert(s: seq<Kandidat>, t: seq<Kandidat>, betrag: int, kosten: Kosten)
    requires kosten.Zulaessig() && betrag > 0 && s != [] && t != []
    requires BeitragImWert(s + t) && forall k :: k in t ==> k.beitrag >= 0
    requires Urteil(s, betrag, kosten).Some? && Urteil(s + t, betrag, kosten).Some?
    requires Urteil(s, betrag, kosten).value.outputs == 2 ==> MehrUebrig(s, t, betrag, kosten)
    ensures RangKleiner(RangVon(Urteil(s, betrag, kosten).value, s), RangVon(Urteil(s + t, betrag, kosten).value, s + t))
  {
    SummeVerketten(s, t);
    assert forall k :: k in t ==> k in s + t;
    assert forall k :: k in s ==> k in s + t;
    SummeBeitragImWert(s);
    SummeSchranken(t, 0);
    if Urteil(s, betrag, kosten).value.outputs == 2 {
      WechselgeldBleibt(|s|, SummeBeitrag(s), SummeWert(s), |s + t|, SummeBeitrag(s + t), SummeWert(s + t), betrag, kosten);
    } else {
      BewerteSolide(|s + t|, SummeBeitrag(s + t), SummeWert(s + t), betrag, kosten);
    }
  }

  /** An accepted set beats every accepted extension of it, for every fee rule. */
  lemma ErweiterungNieBesser(s: seq<Kandidat>, t: seq<Kandidat>, betrag: int, kosten: Kosten)
    requires kosten.Zulaessig() && betrag > 0 && s != [] && t != []
    requires Wirtschaftlich(s + t, kosten)
    requires Urteil(s, betrag, kosten).Some? && Urteil(s + t, betrag, kosten).Some?
    ensures RangKleiner(RangVon(Urteil(s, betrag, kosten).value, s), RangVon(Urteil(s + t, betrag, kosten).value, s + t))
  {
    BeitraegePositiv(s + t, kosten);
    assert forall k :: k in t ==> k in s + t;
    if Urteil(s, betrag, kosten).value.outputs == 2 { MehrUebrigImmer(s, t, betrag, kosten); }
    ErweiterungVerliert(s, t, betrag, kosten);
  }
}
