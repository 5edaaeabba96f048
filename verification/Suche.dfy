/** Branch and bound for the smallest change (core/coin_auswahl.py, `_bnb`). */
module Suche {
  import opened Ordnung
  import opened Gebuehren
  import opened Kandidaten

  /** No accepted set made of the path and a selection of the rest ranks before the given one. */
  ghost predicate Schlaegt(rang: Option<Rang>, pfad: seq<Kandidat>, rest: seq<Kandidat>, betrag: int, kosten: Kosten) {
    forall t :: Teilfolge(t, rest) && pfad + t != [] && Urteil(pfad + t, betrag, kosten).Some? ==>
      rang.Some? && NichtGroesser(rang.value, RangVon(Urteil(pfad + t, betrag, kosten).value, pfad + t))
  }

  ghost predicate NichtSchlechter(neu: Option<Rang>, alt: Option<Rang>) {
    alt.Some? ==> neu.Some? && NichtGroesser(neu.value, alt.value)
  }

  lemma NichtSchlechterTransitiv(a: Option<Rang>, b: Option<Rang>, c: Option<Rang>)
    requires NichtSchlechter(a, b) && NichtSchlechter(b, c)
    ensures NichtSchlechter(a, c)
  {
    if c.Some? && RangKleiner(a.value, b.value) && RangKleiner(b.value, c.value) {
      RangTransitiv(a.value, b.value, c.value);
    }
  }

  lemma SchlaegtBleibt(neu: Option<Rang>, alt: Option<Rang>, pfad: seq<Kandidat>, rest: seq<Kandidat>, betrag: int, kosten: Kosten)
    requires NichtSchlechter(neu, alt) && Schlaegt(alt, pfad, rest, betrag, kosten)
    ensures Schlaegt(neu, pfad, rest, betrag, kosten)
  {
    forall t | Teilfolge(t, rest) && pfad + t != [] && Urteil(pfad + t, betrag, kosten).Some?
      ensures neu.Some? && NichtGroesser(neu.value, RangVon(Urteil(pfad + t, betrag, kosten).value, pfad + t))
    {
      NichtSchlechterTransitiv(neu, alt, Some(RangVon(Urteil(pfad + t, betrag, kosten).value, pfad + t)));
    }
  }

  /** The selections of a list are those with and those without its first element. */
  lemma MitUndOhne(rang: Option<Rang>, pfad: seq<Kandidat>, rest: seq<Kandidat>, betrag: int, kosten: Kosten)
    requires rest != []
    requires Schlaegt(rang, pfad + [rest[0]], rest[1..], betrag, kosten)
    requires Schlaegt(rang, pfad, rest[1..], betrag, kosten)
    ensures Schlaegt(rang, pfad, rest, betrag, kosten)
  {
    forall t | Teilfolge(t, rest) && pfad + t != [] && Urteil(pfad + t, betrag, kosten).Some?
      ensures rang.Some? && NichtGroesser(rang.value, RangVon(Urteil(pfad + t, betrag, kosten).value, pfad + t))
    {
      if t != [] && t[0] == rest[0] && Teilfolge(t[1..], rest[1..]) {
        assert pfad + t == (pfad + [rest[0]]) + t[1..];
      }
    }
  }

  /** Once the path is accepted no extension of it can be better. */
  lemma SchnittGedeckt(rang: Option<Rang>, pfad: seq<Kandidat>, rest: seq<Kandidat>, nutzbar: seq<Kandidat>, betrag: int, kosten: Kosten)
    requires kosten.Zulaessig() && betrag > 0 && pfad != []
    requires Wirtschaftlich(nutzbar, kosten)
    requires forall k :: k in pfad + rest ==> k in nutzbar
    requires Urteil(pfad, betrag, kosten).Some?
    requires NichtSchlechter(rang, Some(RangVon(Urteil(pfad, betrag, kosten).value, pfad)))
    ensures Schlaegt(rang, pfad, rest, betrag, kosten)
  {
    forall t | Teilfolge(t, rest) && pfad + t != [] && Urteil(pfad + t, betrag, kosten).Some?
      ensures rang.Some? && NichtGroesser(rang.value, RangVon(Urteil(pfad + t, betrag, kosten).value, pfad + t))
    {
      if t == [] {
        assert pfad + t == pfad;
      } else {
        forall k | k in pfad + t ensures k in nutzbar {
          if k in t { TeilfolgeElemente(t, rest, k); assert k in pfad + rest; } else { assert k in pfad + rest; }
        }
        ErweiterungNieBesser(pfad, t, betrag, kosten);
        NichtSchlechterTransitiv(rang, Some(RangVon(Urteil(pfad, betrag, kosten).value, pfad)),
                                 Some(RangVon(Urteil(pfad + t, betrag, kosten).value, pfad + t)));
      }
    }
  }

  lemma ErweiterungImWert(pfad: seq<Kandidat>, t: seq<Kandidat>, rest: seq<Kandidat>)
    requires BeitragImWert(pfad + rest) && Teilfolge(t, rest)
    ensures BeitragImWert(pfad + t) && SummeBeitrag(pfad + t) <= SummeWert(pfad + t)
  {
    forall k | k in pfad + t ensures k.beitrag <= k.wert {
      if k in t { TeilfolgeElemente(t, rest, k); }
      assert k in pfad + rest;
    }
    SummeBeitragImWert(pfad + t);
  }

  lemma ErweiterungHoechstens(pfad: seq<Kandidat>, t: seq<Kandidat>, rest: seq<Kandidat>)
    requires Teilfolge(t, rest) && forall k :: k in rest ==> k.beitrag >= 0
    ensures SummeBeitrag(pfad + t) <= SummeBeitrag(pfad) + SummeBeitrag(rest)
  {
    SummeVerketten(pfad, t);
    SummeTeilfolge(t, rest);
  }

  lemma ZuWenigGruen(pfad: seq<Kandidat>, t: seq<Kandidat>, rest: seq<Kandidat>, betrag: int, kosten: Kosten)
    requires kosten.Zulaessig() && Teilfolge(t, rest) && t != [] && forall k :: k in rest ==> k.beitrag >= 0
    requires SummeBeitrag(pfad) + SummeBeitrag(rest) < betrag + kosten.MinGebuehr(|pfad| + 1)
    ensures Urteil(pfad + t, betrag, kosten).None?
  {
    ErweiterungHoechstens(pfad, t, rest);
    UnterMindestgebuehr(kosten, |pfad| + 1, |pfad + t|, SummeBeitrag(pfad + t), SummeBeitrag(pfad) + SummeBeitrag(rest),
                        SummeWert(pfad + t), betrag);
  }

  /** A branch whose whole remaining green falls short of the cheapest fee contains no accepted set. */
  lemma SchnittRestReichtNicht(rang: Option<Rang>, pfad: seq<Kandidat>, rest: seq<Kandidat>, betrag: int, kosten: Kosten)
    requires kosten.Zulaessig() && forall k :: k in rest ==> k.beitrag >= 0
    requires pfad == [] || Urteil(pfad, betrag, kosten).None?
    requires SummeBeitrag(pfad) + SummeBeitrag(rest) < betrag + kosten.MinGebuehr(|pfad| + 1)
    ensures Schlaegt(rang, pfad, rest, betrag, kosten)
  {
    assert pfad + [] == pfad;
    forall t | Teilfolge(t, rest) && t != [] ensures Urteil(pfad + t, betrag, kosten).None? {
      ZuWenigGruen(pfad, t, rest, betrag, kosten);
    }
  }

  /** No change at all with fewer inputs is not to be beaten. */
  lemma SchnittOhneWechselgeld(rang: Option<Rang>, pfad: seq<Kandidat>, rest: seq<Kandidat>, betrag: int, kosten: Kosten)
    requires BeitragImWert(pfad + rest)
    requires pfad == [] || Urteil(pfad, betrag, kosten).None?
    requires rang.Some? && rang.value.wechselgeld == 0 && |pfad| + 1 > rang.value.anzahl
    ensures Schlaegt(rang, pfad, rest, betrag, kosten)
  {
    assert pfad + [] == pfad;
    forall t | Teilfolge(t, rest) && t != [] && Urteil(pfad + t, betrag, kosten).Some?
      ensures RangKleiner(rang.value, RangVon(Urteil(pfad + t, betrag, kosten).value, pfad + t))
    {
      ErweiterungImWert(pfad, t, rest);
      BewerteSolide(|pfad + t|, SummeBeitrag(pfad + t), SummeWert(pfad + t), betrag, kosten);
    }
  }

  /** No proper non-empty prefix is accepted: the search never enlarges an accepted path. */
  ghost predicate PraefixeOffen(s: seq<Kandidat>, betrag: int, kosten: Kosten) {
    forall j :: 1 <= j < |s| ==> Urteil(s[..j], betrag, kosten).None?
  }

  /** The search state that the recursion updates from the outside. */
  class Baum {
    const nutzbar: seq<Kandidat>
    const betrag: int
    const kosten: Kosten
    const budget: nat
    const restGruen: seq<int>
    var beste: Option<Loesung>
    var besteAuswahl: seq<Kandidat>
    var besteRang: Option<Rang>
    var knoten: nat
    var erschoepft: bool
    var pfad: seq<Kandidat>

    ghost predicate Eingabe() {
      && kosten.Zulaessig() && betrag > 0
      && BeitragImWert(nutzbar) && (forall k :: k in nutzbar ==> k.beitrag >= 0)
      && |restGruen| == |nutzbar| + 1
      && forall i :: 0 <= i <= |nutzbar| ==> restGruen[i] == SummeBeitrag(nutzbar[i..])
    }

    /** The best so far is an accepted selection of the candidates, with its own rank. */
    ghost predicate Valid()
      reads this
    {
      && Eingabe()
      && knoten <= budget + 1
      && (knoten == budget + 1 <==> erschoepft)
      && (beste.Some? <==> besteRang.Some?)
      && (beste.Some? ==>
            && Teilfolge(besteAuswahl, nutzbar) && besteAuswahl != []
            && PraefixeOffen(besteAuswahl, betrag, kosten)
            && beste == Urteil(besteAuswahl, betrag, kosten)
            && besteRang == Some(RangVon(beste.value, besteAuswahl)))
    }

    constructor (nutzbar: seq<Kandidat>, betrag: int, kosten: Kosten, budget: nat, restGruen: seq<int>)
      requires kosten.Zulaessig() && betrag > 0
      requires BeitragImWert(nutzbar) && forall k :: k in nutzbar ==> k.beitrag >= 0
      requires |restGruen| == |nutzbar| + 1
      requires forall i :: 0 <= i <= |nutzbar| ==> restGruen[i] == SummeBeitrag(nutzbar[i..])
      ensures Valid() && pfad == [] && beste.None? && !erschoepft && knoten == 0
      ensures this.nutzbar == nutzbar && this.betrag == betrag && this.kosten == kosten && this.budget == budget
    {
      this.nutzbar, this.betrag, this.kosten, this.budget, this.restGruen := nutzbar, betrag, kosten, budget, restGruen;
      beste, besteAuswahl, besteRang, knoten, erschoepft, pfad := None, [], None, 0, false, [];
    }

    /** What the search says is exact: all inputs are worth their fee, or nothing was accepted at all. */
    ghost predicate Verlaesslich()
      reads this
    {
      Wirtschaftlich(nutzbar, kosten) || besteRang.None?
    }

    /** Records an accepted path if it ranks strictly before the best so far. */
    method Merke(loesung: Loesung)
      requires Valid() && pfad != [] && Teilfolge(pfad, nutzbar) && PraefixeOffen(pfad, betrag, kosten)
      requires Urteil(pfad, betrag, kosten) == Some(loesung)
      modifies this
      ensures Valid() && pfad == old(pfad) && knoten == old(knoten) && erschoepft == old(erschoepft)
      ensures NichtSchlechter(besteRang, old(besteRang)) && NichtSchlechter(besteRang, Some(RangVon(loesung, pfad)))
    {
      var rang := RangVon(loesung, pfad);
      if besteRang.None? || RangKleiner(rang, besteRang.value) {
        beste, besteAuswahl, besteRang := Some(loesung), pfad, Some(rang);
      } else {
        RangTotal(rang, besteRang.value);
      }
    }

    /** The two cuts below a path that is not accepted. */
    method Abgeschnitten(i: nat, g: int) returns (ja: bool)
      requires Valid() && i < |nutzbar| && Teilfolge(pfad, nutzbar[..i]) && g == SummeBeitrag(pfad)
      requires pfad == [] || Urteil(pfad, betrag, kosten).None?
      ensures ja ==> Schlaegt(besteRang, pfad, nutzbar[i..], betrag, kosten)
    {
      if g + restGruen[i] < betrag + kosten.MinGebuehr(|pfad| + 1) {
        RestAbgeschnitten(besteRang, pfad, i);
        return true;
      }
      if besteRang.Some? && besteRang.value.wechselgeld == 0 && |pfad| + 1 > besteRang.value.anzahl {
        PfadInNutzbar(pfad, i);
        SchnittOhneWechselgeld(besteRang, pfad, nutzbar[i..], betrag, kosten);
        return true;
      }
      return false;
    }

    lemma RestAbgeschnitten(rang: Option<Rang>, p: seq<Kandidat>, i: nat)
      requires Eingabe() && i < |nutzbar| && Teilfolge(p, nutzbar[..i]) && (p == [] || Urteil(p, betrag, kosten).None?)
      requires SummeBeitrag(p) + SummeBeitrag(nutzbar[i..]) < betrag + kosten.MinGebuehr(|p| + 1)
      ensures Schlaegt(rang, p, nutzbar[i..], betrag, kosten)
    {
      PfadInNutzbar(p, i);
      SchnittRestReichtNicht(rang, p, nutzbar[i..], betrag, kosten);
    }

    /** Both branches below candidate i are searched. */
    lemma Verzweigt(rang: Option<Rang>, zwischen: Option<Rang>, p: seq<Kandidat>, i: nat)
      requires i < |nutzbar| && NichtSchlechter(rang, zwischen)
      requires Schlaegt(zwischen, p + [nutzbar[i]], nutzbar[i + 1..], betrag, kosten) && Schlaegt(rang, p, nutzbar[i + 1..], betrag, kosten)
      ensures Schlaegt(rang, p, nutzbar[i..], betrag, kosten)
    {
      SchlaegtBleibt(rang, zwischen, p + [nutzbar[i]], nutzbar[i + 1..], betrag, kosten);
      assert nutzbar[i..][0] == nutzbar[i] && nutzbar[i..][1..] == nutzbar[i + 1..];
      MitUndOhne(rang, p, nutzbar[i..], betrag, kosten);
    }

    /** Depth-first, with candidate i and then without it. */
    method Suchen(i: nat, g: int, w: int)
      requires Valid() && i <= |nutzbar| && Teilfolge(pfad, nutzbar[..i])
      requires g == SummeBeitrag(pfad) && w == SummeWert(pfad) && PraefixeOffen(pfad, betrag, kosten)
      modifies this
      decreases |nutzbar| - i
      ensures Valid() && pfad == old(pfad)
      ensures NichtSchlechter(besteRang, old(besteRang))
      ensures old(erschoepft) ==> erschoepft
      ensures knoten < old(knoten) + Pow2(|nutzbar| - i + 1)
      ensures !erschoepft && Verlaesslich() ==> Schlaegt(besteRang, pfad, nutzbar[i..], betrag, kosten)
    {
      if erschoepft { return; }
      knoten := knoten + 1;
      if knoten > budget {
        erschoepft := true;
        return;
      }
      if pfad != [] {
        var loesung := Bewerte(|pfad|, g, w, betrag, kosten);
        if loesung.Some? {
          PfadInNutzbar(pfad, i);
          Merke(loesung.value);
          if Wirtschaftlich(nutzbar, kosten) { SchnittGedeckt(besteRang, pfad, nutzbar[i..], nutzbar, betrag, kosten); }
          return;
        }
      }
      if i >= |nutzbar| {
        assert pfad + [] == pfad;
        return;
      }
      var ende := Abgeschnitten(i, g);
      if ende { return; }
      Verzweigen(i, g, w);
    }

    method Verzweigen(i: nat, g: int, w: int)
      requires Valid() && i < |nutzbar| && Teilfolge(pfad, nutzbar[..i])
      requires g == SummeBeitrag(pfad) && w == SummeWert(pfad) && PraefixeOffen(pfad, betrag, kosten)
      requires pfad == [] || Urteil(pfad, betrag, kosten).None?
      modifies this
      decreases |nutzbar| - i, 0
      ensures Valid() && pfad == old(pfad)
      ensures NichtSchlechter(besteRang, old(besteRang))
      ensures old(erschoepft) ==> erschoepft
      ensures knoten < old(knoten) + 2 * Pow2(|nutzbar| - i) - 1
      ensures !erschoepft && Verlaesslich() ==> Schlaegt(besteRang, pfad, nutzbar[i..], betrag, kosten)
    {
      hide Bewerte, RangKleiner, Wirtschaftlich, Teilfolge, PraefixeOffen, Schlaegt, SummeBeitrag, SummeWert;
      var k := nutzbar[i];
      ghost var vorher := pfad;
      PfadErweitern(pfad, i);
      pfad := pfad + [k];
      assert PraefixeOffen(pfad, betrag, kosten) by { PraefixeErweitert(vorher, k); }
      Suchen(i + 1, g + k.beitrag, w + k.wert);
      pfad := pfad[..|pfad| - 1];
      assert pfad == vorher;
      ghost var zwischen := besteRang;
      Suchen(i + 1, g, w);
      NichtSchlechterTransitiv(besteRang, zwischen, old(besteRang));
      if !erschoepft && Verlaesslich() { Verzweigt(besteRang, zwischen, pfad, i); }
    }

    lemma PraefixeErweitert(p: seq<Kandidat>, k: Kandidat)
      requires PraefixeOffen(p, betrag, kosten) && (p == [] || Urteil(p, betrag, kosten).None?)
      ensures PraefixeOffen(p + [k], betrag, kosten)
    {
      forall j | 1 <= j < |p + [k]| ensures Urteil((p + [k])[..j], betrag, kosten).None? {
        assert (p + [k])[..j] == p[..j];
        assert p[..|p|] == p;
      }
    }

    lemma PfadInNutzbar(p: seq<Kandidat>, i: nat)
      requires Eingabe() && i <= |nutzbar| && Teilfolge(p, nutzbar[..i])
      ensures Teilfolge(p, nutzbar) && BeitragImWert(p + nutzbar[i..])
      ensures forall k :: k in p + nutzbar[i..] ==> k in nutzbar
    {
      TeilfolgeVerketten(p, nutzbar[..i], [], nutzbar[i..]);
      assert p + [] == p && nutzbar[..i] + nutzbar[i..] == nutzbar;
      forall k | k in p + nutzbar[i..] ensures k in nutzbar {
        if k in p { TeilfolgeElemente(p, nutzbar, k); }
      }
    }

    lemma PfadErweitern(p: seq<Kandidat>, i: nat)
      requires i < |nutzbar| && Teilfolge(p, nutzbar[..i])
      ensures Teilfolge(p, nutzbar[..i + 1]) && Teilfolge(p + [nutzbar[i]], nutzbar[..i + 1])
      ensures SummeBeitrag(p + [nutzbar[i]]) == SummeBeitrag(p) + nutzbar[i].beitrag
      ensures SummeWert(p + [nutzbar[i]]) == SummeWert(p) + nutzbar[i].wert
    {
      var k := nutzbar[i];
      assert nutzbar[..i] + [k] == nutzbar[..i + 1];
      TeilfolgeVerketten(p, nutzbar[..i], [k], [k]);
      TeilfolgeVerketten(p, nutzbar[..i], [], [k]);
      assert p + [] == p;
      SummeVerketten(p, [k]);
    }
  }
}
