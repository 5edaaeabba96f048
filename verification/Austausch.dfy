/** What the tie-break of the search means: an exchange of one input (core/coin_auswahl.py, `_rang`). */
module Austausch {
  import opened Ordnung
  import opened Gebuehren
  import opened Kandidaten

  lemma {:induction false} EinfuegenVertauscht<T(!new)>(kleiner: (T, T) -> bool, x: T, y: T, s: seq<T>)
    requires StrengTotal(kleiner)
    ensures Einfuegen(kleiner, x, Einfuegen(kleiner, y, s)) == Einfuegen(kleiner, y, Einfuegen(kleiner, x, s))
  {
    if s != [] && (kleiner(s[0], x) || kleiner(s[0], y)) { EinfuegenVertauscht(kleiner, x, y, s[1..]); }
  }

  /** A smaller value inserted into the same sorted list gives the smaller list. */
  lemma {:induction false} EinfuegenMonoton<T(!new)>(kleiner: (T, T) -> bool, y: T, x: T, s: seq<T>)
    requires StrengTotal(kleiner) && Geordnet(kleiner, s) && kleiner(y, x)
    ensures Lex(kleiner, Einfuegen(kleiner, y, s), Einfuegen(kleiner, x, s))
  {
    if s != [] && (kleiner(s[0], y) || s[0] == y) {
      EinfuegenMonoton(kleiner, y, x, s[1..]);
      if s[0] == y { assert s[1..] == [] || !kleiner(s[1..][0], y); }
    }
  }

  lemma {:induction false} ZeitenHeraus(s: seq<Kandidat>, k: Kandidat)
    requires Verschieden(s) && k in s
    ensures Sortiert(IntKleiner, Zeiten(s)) == Einfuegen(IntKleiner, k.zeit, Sortiert(IntKleiner, Zeiten(OhneKandidat(s, k))))
  {
    if s[0] == k { OhneKandidatSumme(s[1..], k); } else {
      ZeitenHeraus(s[1..], k);
      EinfuegenVertauscht(IntKleiner, s[0].zeit, k.zeit, Sortiert(IntKleiner, Zeiten(OhneKandidat(s[1..], k))));
    }
  }

  lemma {:induction false} KeysHeraus(s: seq<Kandidat>, k: Kandidat)
    requires Verschieden(s) && k in s && StrengTotal(StringKleiner)
    ensures Sortiert(StringKleiner, Keys(s)) == Einfuegen(StringKleiner, k.key, Sortiert(StringKleiner, Keys(OhneKandidat(s, k))))
  {
    if s[0] == k { OhneKandidatSumme(s[1..], k); } else {
      KeysHeraus(s[1..], k);
      EinfuegenVertauscht(StringKleiner, s[0].key, k.key, Sortiert(StringKleiner, Keys(OhneKandidat(s[1..], k))));
    }
  }

  lemma {:induction false} OhneKandidatTeilfolge(s: seq<Kandidat>, k: Kandidat)
    ensures Teilfolge(OhneKandidat(s, k), s)
  {
    if s != [] { OhneKandidatTeilfolge(s[1..], k); }
  }

  /** A selection of a list is determined by its elements. */
  lemma {:induction false} GleicheElemente(s: seq<Kandidat>, t: seq<Kandidat>, nutzbar: seq<Kandidat>)
    requires Verschieden(nutzbar) && Teilfolge(s, nutzbar) && Teilfolge(t, nutzbar) && forall x :: x in s <==> x in t
    ensures s == t
    decreases nutzbar
  {
    if nutzbar != [] {
      var kopf, rest := nutzbar[0], nutzbar[1..];
      OhneKopf(s, nutzbar);
      OhneKopf(t, nutzbar);
      if kopf in s {
        forall x ensures x in s[1..] <==> x in t[1..] {
          assert x in s <==> x == kopf || x in s[1..];
          assert x in t <==> x == kopf || x in t[1..];
        }
        GleicheElemente(s[1..], t[1..], rest);
        assert s == [kopf] + s[1..] && t == [kopf] + t[1..];
      } else {
        GleicheElemente(s, t, rest);
      }
    }
  }

  lemma OhneKopf(s: seq<Kandidat>, nutzbar: seq<Kandidat>)
    requires nutzbar != [] && Verschieden(nutzbar) && Teilfolge(s, nutzbar)
    ensures Verschieden(nutzbar[1..])
    ensures if nutzbar[0] in s then s[0] == nutzbar[0] && Teilfolge(s[1..], nutzbar[1..]) && nutzbar[0] !in s[1..]
            else Teilfolge(s, nutzbar[1..])
  {
    KeyDrin(s, nutzbar);
    KeysElemente(s, nutzbar[0].key);
    TeilfolgeVerschieden(s, nutzbar);
  }

  /** The selection s with k' in the place of k. */
  ghost function Getauscht(s: seq<Kandidat>, k: Kandidat, k': Kandidat, nutzbar: seq<Kandidat>): seq<Kandidat> {
    Gefiltert((x: Kandidat) => (x in s && x != k) || x == k', nutzbar)
  }

  lemma TauschElemente(s: seq<Kandidat>, k: Kandidat, k': Kandidat, nutzbar: seq<Kandidat>)
    requires Verschieden(nutzbar) && Teilfolge(s, nutzbar) && k in s && k' in nutzbar && k' !in s
    ensures var t := Getauscht(s, k, k', nutzbar);
            Teilfolge(t, nutzbar) && Verschieden(t) && k' in t && OhneKandidat(t, k') == OhneKandidat(s, k)
  {
    var p := (x: Kandidat) => (x in s && x != k) || x == k';
    var t := Gefiltert(p, nutzbar);
    assert t == Getauscht(s, k, k', nutzbar);
    GefiltertTeilfolge(p, nutzbar);
    TeilfolgeVerschieden(t, nutzbar);
    OhneKandidatTeilfolge(s, k);
    OhneKandidatTeilfolge(t, k');
    TeilfolgeTransitiv(OhneKandidat(s, k), s, nutzbar);
    TeilfolgeTransitiv(OhneKandidat(t, k'), t, nutzbar);
    forall x ensures x in OhneKandidat(t, k') <==> x in OhneKandidat(s, k) {
      if x in s { TeilfolgeElemente(s, nutzbar, x); }
    }
    GleicheElemente(OhneKandidat(t, k'), OhneKandidat(s, k), nutzbar);
  }

  /** Exchanging inputs of equal worth changes neither the verdict nor the number of inputs. */
  lemma TauschSummen(s: seq<Kandidat>, k: Kandidat, k': Kandidat, nutzbar: seq<Kandidat>)
    requires Verschieden(nutzbar) && Teilfolge(s, nutzbar) && k in s && k' in nutzbar && k' !in s
    requires k.wert == k'.wert && k.beitrag == k'.beitrag
    ensures var t := Getauscht(s, k, k', nutzbar);
            |t| == |s| && SummeBeitrag(t) == SummeBeitrag(s) && SummeWert(t) == SummeWert(s) && t != s
  {
    TauschElemente(s, k, k', nutzbar);
    TeilfolgeVerschieden(s, nutzbar);
    OhneKandidatSumme(s, k);
    OhneKandidatSumme(Getauscht(s, k, k', nutzbar), k');
  }

  lemma TauschZeiten(s: seq<Kandidat>, k: Kandidat, t: seq<Kandidat>, k': Kandidat)
    requires Verschieden(s) && Verschieden(t) && k in s && k' in t && OhneKandidat(t, k') == OhneKandidat(s, k)
    ensures k'.zeit == k.zeit ==> Sortiert(IntKleiner, Zeiten(t)) == Sortiert(IntKleiner, Zeiten(s))
    ensures k'.zeit < k.zeit ==> Lex(IntKleiner, Sortiert(IntKleiner, Zeiten(t)), Sortiert(IntKleiner, Zeiten(s)))
  {
    ZeitenHeraus(s, k);
    ZeitenHeraus(t, k');
    var rest := Zeiten(OhneKandidat(s, k));
    SortiertGeordnet(IntKleiner, rest);
    if k'.zeit < k.zeit { EinfuegenMonoton(IntKleiner, k'.zeit, k.zeit, Sortiert(IntKleiner, rest)); }
  }

  lemma TauschKeys(s: seq<Kandidat>, k: Kandidat, t: seq<Kandidat>, k': Kandidat)
    requires Verschieden(s) && Verschieden(t) && k in s && k' in t && OhneKandidat(t, k') == OhneKandidat(s, k)
    requires StringKleiner(k'.key, k.key)
    ensures Lex(StringKleiner, Sortiert(StringKleiner, Keys(t)), Sortiert(StringKleiner, Keys(s)))
  {
    StringTotal();
    TotalSchwach(StringKleiner);
    KeysHeraus(s, k);
    KeysHeraus(t, k');
    var rest := Keys(OhneKandidat(s, k));
    SortiertGeordnet(StringKleiner, rest);
    EinfuegenMonoton(StringKleiner, k'.key, k.key, Sortiert(StringKleiner, rest));
  }

  /** An older input in the place of another one of equal worth gives the smaller rank. */
  lemma TauschRang(l: Loesung, s: seq<Kandidat>, k: Kandidat, t: seq<Kandidat>, k': Kandidat)
    requires Verschieden(s) && Verschieden(t) && k in s && k' in t && OhneKandidat(t, k') == OhneKandidat(s, k)
    requires |s| == |t| && AelterZuerst(k', k)
    ensures RangKleiner(RangVon(l, t), RangVon(l, s))
  {
    TauschZeiten(s, k, t, k');
    if k'.zeit == k.zeit { TauschKeys(s, k, t, k'); }
  }

  /** A chosen input is not younger than one of equal worth that was left out; of equal age, its key is smaller. */
  ghost predicate AeltereZuerst(s: seq<Kandidat>, nutzbar: seq<Kandidat>) {
    forall k, k' :: k in s && k' in nutzbar && k' !in s && k.wert == k'.wert && k.beitrag == k'.beitrag ==>
      k.zeit <= k'.zeit && (k.zeit == k'.zeit ==> StringKleiner(k.key, k'.key))
  }

  /** No accepted selection pays less change, and none that pays the same has fewer inputs. */
  ghost predicate KleinstesWechselgeld(l: Loesung, s: seq<Kandidat>, nutzbar: seq<Kandidat>, betrag: int, kosten: Kosten) {
    forall t :: Teilfolge(t, nutzbar) && t != [] && Urteil(t, betrag, kosten).Some? ==>
      var w := Urteil(t, betrag, kosten).value.wechselgeld;
      l.wechselgeld < w || (l.wechselgeld == w && |s| <= |t|)
  }

  /** The exchange of an input for an older one of equal worth is accepted and ranks before. */
  lemma TauschSchlaegt(l: Loesung, s: seq<Kandidat>, k: Kandidat, k': Kandidat, nutzbar: seq<Kandidat>, betrag: int, kosten: Kosten)
    requires Verschieden(nutzbar) && Teilfolge(s, nutzbar) && s != [] && Urteil(s, betrag, kosten) == Some(l)
    requires k in s && k' in nutzbar && k' !in s && k.wert == k'.wert && k.beitrag == k'.beitrag && AelterZuerst(k', k)
    ensures var t := Getauscht(s, k, k', nutzbar);
            && Teilfolge(t, nutzbar) && t != [] && t != s && Urteil(t, betrag, kosten) == Some(l)
            && RangKleiner(RangVon(l, t), RangVon(l, s))
  {
    var t := Getauscht(s, k, k', nutzbar);
    TauschElemente(s, k, k', nutzbar);
    TauschSummen(s, k, k', nutzbar);
    TeilfolgeVerschieden(s, nutzbar);
    hide RangKleiner, Teilfolge, Getauscht, Bewerte;
    TauschRang(l, s, k, t, k');
  }

  lemma AelterOderNicht(s: seq<Kandidat>, k: Kandidat, k': Kandidat, nutzbar: seq<Kandidat>)
    requires Verschieden(nutzbar) && Teilfolge(s, nutzbar) && k in s && k' in nutzbar && k' !in s
    ensures AelterZuerst(k', k) || (k.zeit <= k'.zeit && (k.zeit == k'.zeit ==> StringKleiner(k.key, k'.key)))
  {
    TeilfolgeElemente(s, nutzbar, k);
    StringTotal();
    VerschiedeneKeys(k, k', nutzbar);
  }

  /** What ranks before every other accepted selection. */
  ghost predicate Vorderste(l: Loesung, s: seq<Kandidat>, nutzbar: seq<Kandidat>, betrag: int, kosten: Kosten) {
    forall t :: Teilfolge(t, nutzbar) && t != [] && t != s && Urteil(t, betrag, kosten).Some? ==>
      RangKleiner(RangVon(l, s), RangVon(Urteil(t, betrag, kosten).value, t))
  }

  lemma AeltereBleiben(l: Loesung, s: seq<Kandidat>, nutzbar: seq<Kandidat>, betrag: int, kosten: Kosten)
    requires Verschieden(nutzbar) && Teilfolge(s, nutzbar) && s != [] && Urteil(s, betrag, kosten) == Some(l)
    requires Vorderste(l, s, nutzbar, betrag, kosten)
    ensures AeltereZuerst(s, nutzbar)
  {
    hide RangKleiner, Teilfolge, Getauscht, Bewerte, Verschieden;
    forall k, k' | k in s && k' in nutzbar && k' !in s && k.wert == k'.wert && k.beitrag == k'.beitrag
      ensures k.zeit <= k'.zeit && (k.zeit == k'.zeit ==> StringKleiner(k.key, k'.key))
    {
      AelterOderNicht(s, k, k', nutzbar);
      if AelterZuerst(k', k) {
        TauschSchlaegt(l, s, k, k', nutzbar, betrag, kosten);
        RangTransitivWiderspruch(RangVon(l, s), RangVon(l, Getauscht(s, k, k', nutzbar)));
      }
    }
  }

  /** What ranks before every other accepted selection pays the least change with the fewest and oldest inputs. */
  lemma RangBedeutet(l: Loesung, s: seq<Kandidat>, nutzbar: seq<Kandidat>, betrag: int, kosten: Kosten)
    requires Verschieden(nutzbar) && Teilfolge(s, nutzbar) && s != [] && Urteil(s, betrag, kosten) == Some(l)
    requires Vorderste(l, s, nutzbar, betrag, kosten)
    ensures KleinstesWechselgeld(l, s, nutzbar, betrag, kosten)
    ensures AeltereZuerst(s, nutzbar)
  {
    AeltereBleiben(l, s, nutzbar, betrag, kosten);
    hide Teilfolge, AeltereZuerst, Bewerte, Sortiert, Verschieden;
    forall t | Teilfolge(t, nutzbar) && t != [] && Urteil(t, betrag, kosten).Some?
      ensures var w := Urteil(t, betrag, kosten).value.wechselgeld; l.wechselgeld < w || (l.wechselgeld == w && |s| <= |t|)
    {
      if t != s { assert RangKleiner(RangVon(l, s), RangVon(Urteil(t, betrag, kosten).value, t)); }
    }
  }

  lemma VerschiedeneKeys(k: Kandidat, k': Kandidat, nutzbar: seq<Kandidat>)
    requires Verschieden(nutzbar) && k in nutzbar && k' in nutzbar && k != k'
    ensures k.key != k'.key
  {}

  lemma RangTransitivWiderspruch(a: Rang, b: Rang)
    requires RangKleiner(a, b)
    ensures !RangKleiner(b, a)
  {
    if RangKleiner(b, a) {
      RangTransitiv(a, b, a);
      RangTotal(a, a);
    }
  }
}
