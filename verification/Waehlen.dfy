/** From unspent outputs to the reported selection (core/coin_auswahl.py, `kandidaten`, `waehle`, `_ergebnis`). */
module Waehlen {
  import opened Ordnung
  import opened Gebuehren
  import opened Kandidaten
  import opened Suche
  import opened Austausch
  import opened Auswahl

  // --------------------------------------------------------------- candidates

  /** An unspent output after text clean-up: key lower case, amounts non-negative, missing green share None. */
  datatype Utxo = Utxo(key: string, txid: string, vout: nat, wert: nat, gruen: Option<nat>, grau: nat,
                       orange: nat, neuvermoegen: bool, unterwegs: bool, zeit: nat)

  /** Why an output may be an input; `eigenes` means the target is an own wallet. */
  ghost predicate Erlaubt(u: Utxo, pending: set<string>, offensiv: bool, eigenes: bool) {
    && ':' in u.key && u.key !in pending && !u.unterwegs && u.wert > 0
    && (!eigenes ==>
          && !u.neuvermoegen && u.gruen.Some? && u.gruen.value > 0 && u.grau == 0
          && (!offensiv ==> u.orange == 0))
  }

  /** The green contribution, the whole value unless a mixed coin is admitted for its green part; unknown age counts as 2^62. */
  ghost predicate Entspricht(k: Kandidat, u: Utxo, offensiv: bool, eigenes: bool) {
    && k.key == u.key && k.txid == u.txid && k.vout == u.vout && k.wert == u.wert
    && k.zeit == (if u.zeit == 0 then 0x4000_0000_0000_0000 else u.zeit)
    && 0 < k.beitrag <= k.wert
    && (k.beitrag == k.wert || (offensiv && !eigenes && u.gruen == Some(k.beitrag)))
    && (offensiv && !eigenes ==> u.gruen.Some? && k.beitrag == (if u.gruen.value < u.wert then u.gruen.value else u.wert))
  }

  /** Each candidate comes from the first admissible output with its key, and every such output yields one. */
  ghost predicate Vertreten(aus: seq<Kandidat>, utxos: seq<Utxo>, pending: set<string>, offensiv: bool, eigenes: bool) {
    && (forall k :: k in aus ==> exists i :: 0 <= i < |utxos| && Erster(utxos, i, pending, offensiv, eigenes)
                                             && Entspricht(k, utxos[i], offensiv, eigenes))
    && (forall i :: 0 <= i < |utxos| && Erlaubt(utxos[i], pending, offensiv, eigenes) ==> utxos[i].key in Keys(aus))
  }

  ghost predicate Erster(utxos: seq<Utxo>, i: nat, pending: set<string>, offensiv: bool, eigenes: bool) {
    && i < |utxos| && Erlaubt(utxos[i], pending, offensiv, eigenes)
    && forall j :: 0 <= j < i && Erlaubt(utxos[j], pending, offensiv, eigenes) ==> utxos[j].key != utxos[i].key
  }

  method KandidatenAus(utxos: seq<Utxo>, pending: set<string>, offensiv: bool, eigenes: bool) returns (aus: seq<Kandidat>)
    ensures Verschieden(aus) && Vertreten(aus, utxos, pending, offensiv, eigenes)
  {
    aus := [];
    var gesehen: set<string> := {};
    for i := 0 to |utxos|
      invariant Verschieden(aus) && forall key :: key in gesehen <==> key in Keys(aus)
      invariant forall k :: k in aus ==> exists j :: 0 <= j < i && Erster(utxos, j, pending, offensiv, eigenes)
                                                     && Entspricht(k, utxos[j], offensiv, eigenes)
      invariant forall j :: 0 <= j < i && Erlaubt(utxos[j], pending, offensiv, eigenes) ==> utxos[j].key in gesehen
    {
      var u := utxos[i];
      if u.key == "" || ':' !in u.key || u.key in gesehen { continue; }
      if u.key in pending || u.unterwegs { continue; }
      if u.wert <= 0 { continue; }
      var beitrag := u.wert;
      if !eigenes {
        if u.neuvermoegen || u.gruen.None? { continue; }
        var gruen := if u.wert < u.gruen.value then u.wert else u.gruen.value;
        if gruen <= 0 || u.grau > 0 { continue; }
        if offensiv {
          beitrag := gruen;
        } else if u.orange > 0 {
          continue;
        }
      }
      var zeit := if u.zeit == 0 then ZEIT_UNBEKANNT else u.zeit;
      var k := Kandidat(u.key, u.txid, u.vout, u.wert, beitrag, zeit);
      KeysAnhaengen(aus, k);
      forall x | x in aus ensures x.key != k.key { KeysElemente(aus, k.key); }
      assert Erster(utxos, i, pending, offensiv, eigenes) && Entspricht(k, u, offensiv, eigenes);
      gesehen := gesehen + {u.key};
      aus := aus + [k];
    }
  }

  lemma {:induction false} KeysAnhaengen(s: seq<Kandidat>, k: Kandidat)
    ensures Keys(s + [k]) == Keys(s) + [k.key]
  {
    if s == [] { assert s + [k] == [k]; } else {
      KeysAnhaengen(s[1..], k);
      assert (s + [k])[1..] == s[1..] + [k];
    }
  }

  // ------------------------------------------------------------------- result

  datatype Strategie = Wechselgeld | GroessteZuerst | Aelteste | StaubSammeln

  datatype Ergebnis =
    | KeinBetrag
    | Unzulaessig(fehlt: seq<string>)
    | KeineKandidaten
    | NichtGedeckt(gruenVerfuegbar: int)
    | Ok(inputs: seq<Kandidat>, loesung: Loesung, summeInputs: int, summeGruen: int, nichtGruen: int, aufraeumen: int, begrenzt: bool)

  predicate BeitragAbsteigend(a: Kandidat, b: Kandidat) {
    -a.beitrag < -b.beitrag || (a.beitrag == b.beitrag && AelterZuerst(a, b))
  }

  /** Oldest first, at equal times by key. */
  ghost predicate AeltesteVorn(s: seq<Kandidat>) {
    forall i, j :: 0 <= i < j < |s| ==> s[i].zeit <= s[j].zeit && (s[i].zeit == s[j].zeit ==> !StringKleiner(s[j].key, s[i].key))
  }

  /** Largest contribution first, then oldest, then by key. */
  ghost predicate GroessteVorn(s: seq<Kandidat>) {
    forall i, j :: 0 <= i < j < |s| ==>
      s[i].beitrag > s[j].beitrag
      || (s[i].beitrag == s[j].beitrag && s[i].zeit <= s[j].zeit && (s[i].zeit == s[j].zeit ==> !StringKleiner(s[j].key, s[i].key)))
  }

  lemma SortiertAeltesteVorn(s: seq<Kandidat>)
    ensures AeltesteVorn(Sortiert(AelterZuerst, s))
  {
    StringTotal();
    SortiertGeordnet(AelterZuerst, s);
  }

  lemma SortiertGroessteVorn(s: seq<Kandidat>)
    ensures GroessteVorn(Sortiert(BeitragAbsteigend, s))
  {
    StringTotal();
    SortiertGeordnet(BeitragAbsteigend, s);
  }

  /** Inputs that bring more than their own fee at the given rate. */
  function Lohnende(kand: seq<Kandidat>, kosten: Kosten): seq<Kandidat> {
    Gefiltert((k: Kandidat) => k.beitrag > kosten.InputKosten(), kand)
  }

  /** The list the search runs on, with the fallback to 68 sats when nothing pays at the estimated rate. */
  function Nutzbar(kand: seq<Kandidat>, kosten: Kosten): seq<Kandidat> {
    var haupt := Lohnende(kand, kosten);
    Sortiert(BeitragAbsteigend, if haupt == [] && !kosten.basis.Fest? then UeberSechzigAcht(kand) else haupt)
  }

  function UeberSechzigAcht(kand: seq<Kandidat>): seq<Kandidat> {
    Gefiltert((k: Kandidat) => k.beitrag > VBYTES_INPUT * MIN_SAT_VB, kand)
  }

  lemma AuswahlGefiltert(p: Kandidat -> bool, kand: seq<Kandidat>)
    requires Verschieden(kand)
    ensures var n := Sortiert(BeitragAbsteigend, Gefiltert(p, kand));
            Verschieden(n) && forall k :: k in n <==> k in kand && p(k)
  {
    GefiltertTeilfolge(p, kand);
    TeilfolgeVerschieden(Gefiltert(p, kand), kand);
    SortiertKandidaten(BeitragAbsteigend, Gefiltert(p, kand));
  }

  lemma LohnendeEigenschaften(kand: seq<Kandidat>, kosten: Kosten)
    requires Verschieden(kand) && BeitragImWert(kand)
    ensures var n := Sortiert(BeitragAbsteigend, Lohnende(kand, kosten));
            Verschieden(n) && BeitragImWert(n) && forall k :: k in n ==> k in kand && k.beitrag > kosten.InputKosten()
  {
    AuswahlGefiltert((k: Kandidat) => k.beitrag > kosten.InputKosten(), kand);
  }

  lemma FallbackEigenschaften(kand: seq<Kandidat>, kosten: Kosten)
    requires Verschieden(kand) && BeitragImWert(kand) && Lohnende(kand, kosten) == []
    ensures var n := Sortiert(BeitragAbsteigend, UeberSechzigAcht(kand));
            Verschieden(n) && BeitragImWert(n)
            && forall k :: k in n ==> k in kand && VBYTES_INPUT * MIN_SAT_VB < k.beitrag <= kosten.InputKosten()
  {
    AuswahlGefiltert((k: Kandidat) => k.beitrag > VBYTES_INPUT * MIN_SAT_VB, kand);
    NichtsLohnt(kand, kosten);
  }

  lemma NutzbarEigenschaften(kand: seq<Kandidat>, kosten: Kosten)
    requires Verschieden(kand) && BeitragImWert(kand) && kosten.Zulaessig()
    ensures var n := Nutzbar(kand, kosten);
            && Verschieden(n) && BeitragImWert(n) && (forall k :: k in n ==> k in kand && k.beitrag > 0)
            && (kosten.basis.Fest? || Lohnende(kand, kosten) != [] || kosten.groessen.InputVb() <= VBYTES_INPUT * MIN_SAT_VB + 1
                ==> Wirtschaftlich(n, kosten))
  {
    if kosten.basis.Fest? { FestSchranken(kosten.basis.milli, kosten.groessen.InputVb()); }
    if Lohnende(kand, kosten) == [] && !kosten.basis.Fest? {
      FallbackEigenschaften(kand, kosten);
    } else {
      LohnendeEigenschaften(kand, kosten);
    }
  }

  /** Exactly the inputs above their own fee; if there is none, at an estimated rate exactly those above 68 sats. */
  lemma NutzbarGenau(kand: seq<Kandidat>, kosten: Kosten, k: Kandidat)
    ensures k in Nutzbar(kand, kosten) <==>
            k in kand && if exists x :: x in kand && x.beitrag > kosten.InputKosten() then k.beitrag > kosten.InputKosten()
                         else !kosten.basis.Fest? && k.beitrag > 68
  {
    var haupt := Lohnende(kand, kosten);
    SortiertElemente(BeitragAbsteigend, haupt);
    SortiertElemente(BeitragAbsteigend, UeberSechzigAcht(kand));
    if haupt != [] { assert haupt[0] in haupt; }
  }

  lemma NutzbarGroessteVorn(kand: seq<Kandidat>, kosten: Kosten)
    ensures GroessteVorn(Nutzbar(kand, kosten))
  {
    SortiertGroessteVorn(UeberSechzigAcht(kand));
    SortiertGroessteVorn(Lohnende(kand, kosten));
  }

  lemma NichtsLohnt(kand: seq<Kandidat>, kosten: Kosten)
    requires Lohnende(kand, kosten) == []
    ensures forall k :: k in kand ==> k.beitrag <= kosten.InputKosten()
  {
    forall k | k in kand ensures k.beitrag <= kosten.InputKosten() { assert k !in Lohnende(kand, kosten); }
  }

  /** What a reported selection promises on every route: money conserved, paid from green, no dust output. */
  ghost predicate Belegt(e: Ergebnis, kand: seq<Kandidat>, betrag: int, kosten: Kosten)
    requires e.Ok?
  {
    && e.inputs != [] && Verschieden(e.inputs) && (forall k :: k in e.inputs ==> k in kand) && AeltesteVorn(e.inputs)
    && e.summeInputs == SummeWert(e.inputs) && e.summeGruen == SummeBeitrag(e.inputs)
    && e.nichtGruen == e.summeInputs - e.summeGruen
    && Solide(e.loesung, |e.inputs|, e.summeGruen, e.summeInputs, betrag, kosten)
  }

  /** `_ergebnis`: inputs sorted oldest first, sums over them. */
  method Berichte(beste: Option<Loesung>, auswahl: seq<Kandidat>, nutzbar: seq<Kandidat>, dazu: seq<Kandidat>, begrenzt: bool,
                  ghost betrag: int, ghost kosten: Kosten) returns (e: Ergebnis)
    requires BeitragImWert(nutzbar)
    requires beste.Some? ==> Zulaessig(beste.value, auswahl, nutzbar, betrag, kosten)
    ensures beste.None? ==> e == NichtGedeckt(SummeBeitrag(nutzbar))
    ensures beste.Some? ==> e.Ok? && e.loesung == beste.value && e.inputs == Sortiert(AelterZuerst, auswahl)
                            && e.aufraeumen == SummeWert(dazu) && e.begrenzt == begrenzt && Belegt(e, nutzbar, betrag, kosten)
  {
    if beste.None? { return NichtGedeckt(SummeBeitrag(nutzbar)); }
    var inputs := Sortiert(AelterZuerst, auswahl);
    SortiertKandidaten(AelterZuerst, auswahl);
    SortiertAeltesteVorn(auswahl);
    SummeBeitragImWert(auswahl);
    BewerteSolide(|auswahl|, SummeBeitrag(auswahl), SummeWert(auswahl), betrag, kosten);
    e := Ok(inputs, beste.value, SummeWert(inputs), SummeBeitrag(inputs), SummeWert(inputs) - SummeBeitrag(inputs), SummeWert(dazu), begrenzt);
  }

  /** Coin control: the wished keys without repetition, and those that name no candidate. */
  method Gewuenscht(kand: seq<Kandidat>, nur: seq<string>) returns (auswahl: seq<Kandidat>, fehlt: seq<string>)
    requires Verschieden(kand)
    ensures Verschieden(auswahl) && forall k :: k in auswahl <==> k in kand && k.key in nur
    ensures forall key :: key in fehlt <==> key in nur && key !in Keys(kand)
  {
    auswahl, fehlt := [], [];
    for i := 0 to |nur|
      invariant Verschieden(auswahl) && forall k :: k in auswahl <==> k in kand && k.key in nur[..i]
      invariant forall key :: key in fehlt <==> key in nur[..i] && key !in Keys(kand)
    {
      KeysElemente(kand, nur[i]);
      if nur[i] in nur[..i] { continue; }
      if nur[i] !in Keys(kand) {
        fehlt := fehlt + [nur[i]];
      } else {
        var k :| k in kand && k.key == nur[i];
        auswahl := auswahl + [k];
      }
    }
    assert nur[..|nur|] == nur;
  }

  /** Exactly the inputs with the wished keys, in any order. */
  ghost predicate Wunsch(s: seq<Kandidat>, kand: seq<Kandidat>, nur: seq<string>) {
    Verschieden(s) && forall k :: k in s <==> k in kand && k.key in nur
  }

  /** The answer is the verdict on the wished inputs, in whatever order they are added up. */
  ghost predicate WieGewuenscht(e: Ergebnis, kand: seq<Kandidat>, nur: seq<string>, betrag: int, kosten: Kosten) {
    && (e.Ok? ==> Wunsch(e.inputs, kand, nur) && Urteil(e.inputs, betrag, kosten) == Some(e.loesung) && e.aufraeumen == 0 && !e.begrenzt)
    && (e.NichtGedeckt? ==>
          forall s :: Wunsch(s, kand, nur) ==> Urteil(s, betrag, kosten).None? && e.gruenVerfuegbar == SummeBeitrag(s))
  }

  /** Coin control: no search, the wished inputs are accepted or not. */
  method CoinControl(kand: seq<Kandidat>, betrag: int, kosten: Kosten, nur: seq<string>) returns (e: Ergebnis)
    requires Verschieden(kand) && BeitragImWert(kand)
    ensures e.Unzulaessig? || e.NichtGedeckt? || e.Ok?
    ensures e.Unzulaessig? <==> nur == [] || exists key :: key in nur && key !in Keys(kand)
    ensures e.Unzulaessig? ==> forall key :: key in e.fehlt <==> key in nur && key !in Keys(kand)
    ensures WieGewuenscht(e, kand, nur, betrag, kosten) && (e.Ok? ==> Belegt(e, kand, betrag, kosten))
  {
    var auswahl, fehlt := Gewuenscht(kand, nur);
    if nur == [] || fehlt != [] {
      assert fehlt != [] ==> fehlt[0] in fehlt;
      return Unzulaessig(fehlt);
    }
    KeysElemente(kand, nur[0]);
    var beste := Urteil(auswahl, betrag, kosten);
    e := Berichte(beste, auswahl, auswahl, [], false, betrag, kosten);
    SortiertKandidaten(AelterZuerst, auswahl);
    forall s | Wunsch(s, kand, nur) ensures Urteil(s, betrag, kosten) == beste && SummeBeitrag(s) == SummeBeitrag(auswahl) {
      GleicheSummen(s, auswahl);
    }
  }

  /** The answer is the shortest accepted prefix of the order, and not covered exactly when there is none. */
  ghost predicate NachReihe(e: Ergebnis, reihe: seq<Kandidat>, betrag: int, kosten: Kosten) {
    && (e.NichtGedeckt? <==> KeinPraefix(reihe, betrag, kosten)) && (e.NichtGedeckt? || e.Ok?)
    && (e.Ok? ==> exists j: nat :: ErstesPraefix(reihe, j, betrag, kosten) && e.inputs == Sortiert(AelterZuerst, reihe[..j])
                                   && Urteil(reihe[..j], betrag, kosten) == Some(e.loesung) && e.aufraeumen == 0 && !e.begrenzt)
  }

  method InReihe(reihe: seq<Kandidat>, betrag: int, kosten: Kosten) returns (e: Ergebnis)
    requires Verschieden(reihe) && BeitragImWert(reihe)
    ensures NachReihe(e, reihe, betrag, kosten) && (e.Ok? ==> Belegt(e, reihe, betrag, kosten))
    ensures e.NichtGedeckt? ==> e.gruenVerfuegbar == SummeBeitrag(reihe)
  {
    var beste, auswahl := Reihe(reihe, betrag, kosten);
    if beste.Some? {
      forall k | k in auswahl ensures k in reihe {}
    }
    e := Berichte(beste, auswahl, reihe, [], false, betrag, kosten);
  }

  /** A found selection s with its verdict l is answered as it is, or with small coins collected on top. */
  ghost predicate Uebernommen(e: Ergebnis, s: seq<Kandidat>, l: Loesung, staub: bool, nutzbar: seq<Kandidat>, betrag: int, kosten: Kosten) {
    e.Ok? && exists dazu ::
      && e.inputs == Sortiert(AelterZuerst, s + dazu) && e.aufraeumen == SummeWert(dazu)
      && (staub && l.fee * 1000 <= betrag ==> Aufgeraeumt(e.loesung, s, dazu, nutzbar, l, betrag, kosten, e.begrenzt))
      && (!staub || l.fee * 1000 > betrag ==> dazu == [] && e.loesung == l && (e.begrenzt <==> staub && Kleine(nutzbar, s) != []))
  }

  /**
   * The answer of the search. Within the budget not covered means that no selection is accepted; after it,
   * that no prefix of the order is. What it found is the optimum, if every candidate is worth its fee.
   */
  ghost predicate NachSuche(e: Ergebnis, erschoepft: bool, staub: bool, nutzbar: seq<Kandidat>, betrag: int, kosten: Kosten) {
    && (e.NichtGedeckt? || e.Ok?)
    && (e.NichtGedeckt? ==> if erschoepft then KeinPraefix(nutzbar, betrag, kosten) else NichtsGedeckt(nutzbar, betrag, kosten))
    && (e.Ok? ==> exists s, l :: Gefunden(s, l, erschoepft, nutzbar, betrag, kosten) && Uebernommen(e, s, l, staub, nutzbar, betrag, kosten))
  }

  ghost predicate Gefunden(s: seq<Kandidat>, l: Loesung, erschoepft: bool, nutzbar: seq<Kandidat>, betrag: int, kosten: Kosten) {
    && Zulaessig(l, s, nutzbar, betrag, kosten)
    && (!erschoepft && Wirtschaftlich(nutzbar, kosten) ==>
          Optimal(Some(l), s, nutzbar, betrag, kosten) && KleinstesWechselgeld(l, s, nutzbar, betrag, kosten) && AeltereZuerst(s, nutzbar))
    && (erschoepft && !KeinPraefix(nutzbar, betrag, kosten) ==> MindestensGierig(Some(l), s, nutzbar, betrag, kosten))
  }

  method DurchSuche(nutzbar: seq<Kandidat>, betrag: int, kosten: Kosten, budget: nat, staub: bool) returns (e: Ergebnis, m: Meta)
    requires kosten.Zulaessig() && betrag > 0
    requires Verschieden(nutzbar) && BeitragImWert(nutzbar) && forall k :: k in nutzbar ==> k.beitrag >= 0
    ensures NachSuche(e, m.erschoepft, staub, nutzbar, betrag, kosten) && (e.Ok? ==> Belegt(e, nutzbar, betrag, kosten))
    ensures e.NichtGedeckt? ==> e.gruenVerfuegbar == SummeBeitrag(nutzbar)
    // collecting dust never leaves the cap it started in
    ensures e.Ok? && staub && e.aufraeumen > 0 ==> e.loesung.fee * 1000 <= betrag
    ensures m.erschoepft ==> budget + 1 < Pow2(|nutzbar| + 1)
  {
    var beste, s;
    beste, s, m := Bnb(nutzbar, betrag, kosten, budget);
    if beste.Some? && staub {
      var l, auswahl, dazu, begrenzt := StaubDazu(nutzbar, s, beste.value, betrag, kosten);
      e := Berichte(Some(l), auswahl, nutzbar, dazu, begrenzt, betrag, kosten);
      assert Uebernommen(e, s, beste.value, staub, nutzbar, betrag, kosten);
    } else {
      e := Berichte(beste, s, nutzbar, [], false, betrag, kosten);
      assert s + [] == s;
      if beste.Some? { assert Uebernommen(e, s, beste.value, staub, nutzbar, betrag, kosten); }
    }
    if beste.Some? { assert Gefunden(s, beste.value, m.erschoepft, nutzbar, betrag, kosten); }
  }

  /** Nothing of the list comes before a chosen input and is left out. */
  ghost predicate NichtsUebergangen(inputs: seq<Kandidat>, nutzbar: seq<Kandidat>, zuerst: (Kandidat, Kandidat) -> bool) {
    forall k, x :: k in inputs && x in nutzbar && zuerst(x, k) ==> x in inputs
  }

  lemma ReiheUebergehtNichts(e: Ergebnis, reihe: seq<Kandidat>, zuerst: (Kandidat, Kandidat) -> bool, betrag: int, kosten: Kosten)
    requires NachReihe(e, reihe, betrag, kosten) && e.Ok? && Verschieden(reihe) && Geordnet(zuerst, reihe)
    ensures NichtsUebergangen(e.inputs, reihe, zuerst)
  {
    var j: nat :| ErstesPraefix(reihe, j, betrag, kosten) && e.inputs == Sortiert(AelterZuerst, reihe[..j])
                  && Urteil(reihe[..j], betrag, kosten) == Some(e.loesung);
    SortiertElemente(AelterZuerst, reihe[..j]);
    forall k, x | k in e.inputs && x in reihe && zuerst(x, k) ensures x in e.inputs {
      var i :| 0 <= i < j && reihe[..j][i] == k;
      var m :| 0 <= m < |reihe| && reihe[m] == x;
    }
  }

  /** What each strategy makes of the candidates it may use. */
  ghost predicate NachStrategie(e: Ergebnis, meta: Option<Meta>, strategie: Strategie, nutzbar: seq<Kandidat>, betrag: int, kosten: Kosten) {
    && (e.NichtGedeckt? ==> e.gruenVerfuegbar == SummeBeitrag(nutzbar))
    && match strategie
       case GroessteZuerst => meta.None? && NachReihe(e, nutzbar, betrag, kosten)
                              && (e.Ok? ==> NichtsUebergangen(e.inputs, nutzbar, (x: Kandidat, k: Kandidat) => x.beitrag > k.beitrag))
       case Aelteste => meta.None? && NachReihe(e, Sortiert(AelterZuerst, nutzbar), betrag, kosten)
                        && (e.Ok? ==> NichtsUebergangen(e.inputs, nutzbar, (x: Kandidat, k: Kandidat) =>
                                    x.zeit < k.zeit || (x.zeit == k.zeit && StringKleiner(x.key, k.key))))
       case Wechselgeld => meta.Some? && NachSuche(e, meta.value.erschoepft, false, nutzbar, betrag, kosten)
       case StaubSammeln => meta.Some? && NachSuche(e, meta.value.erschoepft, true, nutzbar, betrag, kosten)
                            && (e.Ok? && e.aufraeumen > 0 ==> e.loesung.fee * 1000 <= betrag)
  }

  method MitStrategie(nutzbar: seq<Kandidat>, betrag: int, kosten: Kosten, budget: nat, strategie: Strategie)
    returns (e: Ergebnis, meta: Option<Meta>)
    requires kosten.Zulaessig() && betrag > 0
    requires Verschieden(nutzbar) && BeitragImWert(nutzbar) && GroessteVorn(nutzbar) && forall k :: k in nutzbar ==> k.beitrag >= 0
    ensures NachStrategie(e, meta, strategie, nutzbar, betrag, kosten) && (e.Ok? ==> Belegt(e, nutzbar, betrag, kosten))
  {
    meta := None;
    match strategie {
      case GroessteZuerst =>
        e := InReihe(nutzbar, betrag, kosten);
        if e.Ok? { ReiheUebergehtNichts(e, nutzbar, (x: Kandidat, k: Kandidat) => x.beitrag > k.beitrag, betrag, kosten); }
      case Aelteste =>
        var alt := Sortiert(AelterZuerst, nutzbar);
        SortiertKandidaten(AelterZuerst, nutzbar);
        SortiertAeltesteVorn(nutzbar);
        e := InReihe(alt, betrag, kosten);
        if e.Ok? { ReiheUebergehtNichts(e, alt, (x: Kandidat, k: Kandidat) => x.zeit < k.zeit || (x.zeit == k.zeit && StringKleiner(x.key, k.key)), betrag, kosten); }
      case _ =>
        var m;
        e, m := DurchSuche(nutzbar, betrag, kosten, budget, strategie == StaubSammeln);
        meta := Some(m);
    }
  }

  /** The whole selection. With coin control exactly the wished inputs, otherwise by strategy. */
  method Waehle(kand: seq<Kandidat>, betrag: int, kosten: Kosten, budget: nat, strategie: Strategie, nur: Option<seq<string>>)
    returns (e: Ergebnis, meta: Option<Meta>)
    requires kosten.Zulaessig() && Verschieden(kand) && BeitragImWert(kand)
    ensures e.KeinBetrag? <==> betrag <= 0
    ensures e.Unzulaessig? <==> betrag > 0 && nur.Some? && (nur.value == [] || exists key :: key in nur.value && key !in Keys(kand))
    ensures e.Unzulaessig? ==> forall key :: key in e.fehlt <==> key in nur.value && key !in Keys(kand)
    ensures e.KeineKandidaten? <==> betrag > 0 && nur.None? && Nutzbar(kand, kosten) == []
    ensures nur.Some? ==> WieGewuenscht(e, kand, nur.value, betrag, kosten) && meta.None?
    ensures betrag > 0 && nur.None? && Nutzbar(kand, kosten) != [] ==> NachStrategie(e, meta, strategie, Nutzbar(kand, kosten), betrag, kosten)
    ensures e.Ok? ==> Belegt(e, kand, betrag, kosten)
  {
    meta := None;
    if betrag <= 0 { return KeinBetrag, None; }
    if nur.Some? {
      e := CoinControl(kand, betrag, kosten, nur.value);
      return;
    }
    var nutzbar := Nutzbar(kand, kosten);
    NutzbarEigenschaften(kand, kosten);
    NutzbarGroessteVorn(kand, kosten);
    if nutzbar == [] { return KeineKandidaten, None; }
    e, meta := MitStrategie(nutzbar, betrag, kosten, budget, strategie);
  }
}
