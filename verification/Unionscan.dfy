/** The union scan as it runs (core/bip158_scan.py, `scan_union`, lines 1458-1766). */
module Unionscan {
  import opened Ordnung
  import opened Kassenbuch
  import opened Wiedergabe
  import opened Luecke
  import opened Suchlauf
  import opened Union
  import opened Bekannt

  /** What a block changes for one wallet. */
  function KontoStand(k: Kette, kt: Konto, end: int, h: nat, st: Stand): Stand
    requires h < |k|
  {
    if Aktiv(kt, end, h) then NachBlock(st, k[h], h, kt.w.Watched()) else st
  }

  function KontoHits(k: Kette, kt: Konto, end: int, h: nat, hits: set<Skript>): set<Skript>
    requires h < |k|
  {
    if Aktiv(kt, end, h) then hits + SkripteVon(N(k, h, kt.w.Watched())) else hits
  }

  /** One wallet reads its part of a block that was loaded for all. */
  method KontoAnwenden(kt: Konto, neu: map<Outpoint, Ausgang>, spentBy: map<Outpoint, string>, h: nat, zeit: nat, st: Stand, hits: set<Skript>)
    returns (st': Stand, hits': set<Skript>)
    ensures st' == Wirkung(st, Union.Eigene(neu, kt.w.Watched()), spentBy, h, zeit)
    ensures hits' == hits + SkripteVon(Union.Eigene(neu, kt.w.Watched()))
  {
    var eigene := Union.Eigene(neu, kt.w.Watched());
    var spent := Kassenbuch.Eigene(spentBy, st, eigene);
    hits' := hits + SkripteVon(eigene);
    if eigene == map[] && spent == map[] {
      OhneWirkung(st, spentBy, h, zeit);
      return st, hits';
    }
    var buch := new Buch(st);
    buch.UebernehmeBlockVerlauf(eigene, spent, h, zeit);
    buch.BestandNachBlock(eigene, spent);
    st' := buch.Inhalt();
  }

  /** What holds for a wallet between two blocks. */
  ghost predicate KontoGut(k: Kette, kt: Konto, end: int, ev: seq<int>, st: Stand, hits: set<Skript>) {
    && Hoehen(k, ev) && st == Allein(k, kt, end, ev) && Treffervoll(k, kt.w, ev, hits, kt.start, end)
    && hits <= kt.used + kt.w.Watched()
  }

  lemma KontoWeiter(k: Kette, kt: Konto, end: int, ev: seq<int>, h: nat, st: Stand, hits: set<Skript>)
    requires KontoGut(k, kt, end, ev, st, hits) && h < |k|
    ensures KontoGut(k, kt, end, ev + [h], KontoStand(k, kt, end, h, st), KontoHits(k, kt, end, h, hits))
  {
    AlleinWeiter(k, kt, end, ev, h);
    HitsWeiter(k, kt, end, h, hits);
  }

  lemma HitsWeiter(k: Kette, kt: Konto, end: int, h: nat, hits: set<Skript>)
    requires hits <= kt.used + kt.w.Watched() && h < |k|
    ensures KontoHits(k, kt, end, h, hits) <= kt.used + kt.w.Watched()
  {
    forall op | op in N(k, h, kt.w.Watched()) ensures N(k, h, kt.w.Watched())[op].skript in kt.w.Watched() {
      NeuSkript(k[h].txs, h, kt.w.Watched(), op);
    }
  }

  /** A first scan that reaches below the newest window. */
  predicate Erstsuche(kt: Konto, end: int) { kt.Erstscan() && kt.start < TurboVon(end) }

  /** The history scripts a first scan asks for in the next round. */
  ghost function Dazu(kt: Konto, bis: int, hits: set<Skript>, schon: set<Skript>): set<Skript> {
    if kt.Erstscan() && kt.start <= bis then kt.w.Ziel(hits) - schon else {}
  }

  /** A first scan asks for scripts of its wallet only. */
  lemma DazuEigen(kt: Konto, bis: int, hits: set<Skript>, schon: set<Skript>, s: Skript)
    requires kt.w.Valid() && hits <= kt.used + kt.w.Watched() && s in Dazu(kt, bis, hits, schon)
    ensures kt.Erstscan() && s in kt.w.Watched()
  {}

  /** What a first scan has searched before a round: stage by stage, and if it keeps the gap rule up to every used index. */
  ghost predicate Fortschritt(k: Kette, kt: Konto, end: int, ev: seq<int>, hits: set<Skript>, schon: set<Skript>, runde: nat) {
    && Suchstand(k, kt.w, ev, hits, kt.start, TurboVon(end), end, schon) && Stufe(k, kt.w, kt.start, end, runde) <= schon
    && (Vorausgesetzt(k, kt.w, kt.start, end) ==> BenutztBekannt(k, kt.w, kt.start, end, schon, runde))
  }

  lemma FortschrittRunde(k: Kette, kt: Konto, end: int, ev: seq<int>, hits: set<Skript>, schon: set<Skript>, runde: nat,
                         mehr: seq<int>, hits': set<Skript>, von: int, neue: set<Skript>)
    requires Erstsuche(kt, end) && kt.w.Valid() && Fortschritt(k, kt, end, ev, hits, schon, runde) && von <= kt.start
    requires ev <= mehr && Treffervoll(k, kt.w, mehr, hits', kt.start, end)
    requires Dazu(kt, TurboVon(end) - 1, hits, schon) <= neue && Gesucht(k, mehr, von, TurboVon(end) - 1, neue)
    ensures Fortschritt(k, kt, end, mehr, hits', schon + Dazu(kt, TurboVon(end) - 1, hits, schon), runde + 1)
  {
    forall h | h in ev ensures h in mehr {}
    var tv, dazu := TurboVon(end), Dazu(kt, TurboVon(end) - 1, hits, schon);
    RundeGesucht(k, kt.w, ev, mehr, kt.start, tv, end, schon, dazu);
    ZielErgaenzt(kt, tv - 1, hits, schon);
    StufeWeiter(k, kt.w, ev, hits, kt.start, tv, end, schon, schon + dazu, runde);
    if Vorausgesetzt(k, kt.w, kt.start, end) {
      BenutztImZiel(k, kt.w, ev, hits, kt.start, tv, end, schon, runde);
      BekanntMehr(k, kt.w, kt.start, end, kt.w.Ziel(hits), schon + dazu, runde + 1);
    }
  }

  lemma ZielErgaenzt(kt: Konto, bis: int, hits: set<Skript>, schon: set<Skript>)
    requires kt.Erstscan() && kt.start <= bis
    ensures kt.w.Ziel(hits) <= schon + Dazu(kt, bis, hits, schon)
  {}

  lemma FortschrittEnde(k: Kette, kt: Konto, end: int, ev: seq<int>, hits: set<Skript>, schon: set<Skript>, runde: nat)
    requires Erstsuche(kt, end) && kt.w.Valid() && Fortschritt(k, kt, end, ev, hits, schon, runde)
    requires Dazu(kt, TurboVon(end) - 1, hits, schon) == {} || runde >= kt.w.maxIndex
    ensures Fortschritt(k, kt, end, ev, hits, schon, kt.w.maxIndex)
  {
    if Dazu(kt, TurboVon(end) - 1, hits, schon) == {} {
      ZielErgaenzt(kt, TurboVon(end) - 1, hits, schon);
      StufeGanz(k, kt.w, ev, hits, kt.start, TurboVon(end), end, schon, kt.w.maxIndex);
      if Vorausgesetzt(k, kt.w, kt.start, end) { AllesImZiel(k, kt.w, ev, hits, kt.start, TurboVon(end), end, schon); }
    } else {
      StufeMonoton(k, kt.w, kt.start, end, kt.w.maxIndex, runde);
    }
  }

  /** Ascending heights between two bounds. */
  ghost predicate ImBereich(k: Kette, ev: seq<int>, von: int, bis: int) {
    Spielbar(k, ev) && forall h :: h in ev ==> von <= h <= bis
  }

  lemma BereichWeiter(k: Kette, a: seq<int>, b: seq<int>, von: int, h: int)
    requires ImBereich(k, a, von, h - 1) && ImBereich(k, b, h, h) && von <= h
    ensures ImBereich(k, a + b, von, h)
  {
    VerkettetAufsteigend(a, b);
  }

  class Verbund {
    const k: Kette
    const konten: seq<Konto>
    const end: int
    var ereignisse: seq<int>
    var staende: seq<Stand>
    var hits: seq<set<Skript>>

    constructor (k: Kette, konten: seq<Konto>, end: int)
      requires end < |k|
      ensures this.k == k && this.konten == konten && this.end == end && ereignisse == [] && Valid()
      ensures hits == seq(|konten|, i requires 0 <= i < |konten| => konten[i].used)
    {
      this.k, this.konten, this.end, ereignisse := k, konten, end, [];
      staende := seq(|konten|, i requires 0 <= i < |konten| => konten[i].seed);
      hits := seq(|konten|, i requires 0 <= i < |konten| => konten[i].used);
    }

    ghost predicate Formen()
      reads this
    {
      |staende| == |konten| && |hits| == |konten| && end < |k|
    }

    ghost predicate Valid()
      reads this
    {
      && Formen() && Hoehen(k, ereignisse)
      && forall i :: 0 <= i < |konten| ==> KontoGut(k, konten[i], end, ereignisse, staende[i], hits[i])
    }

    /** The lookaheads of all wallets taking part at this height. */
    method Gesamt(h: nat) returns (alle: set<Skript>)
      ensures forall i :: 0 <= i < |konten| && Aktiv(konten[i], end, h) ==> konten[i].w.Watched() <= alle
    {
      alle := {};
      for i := 0 to |konten|
        invariant forall j :: 0 <= j < i && Aktiv(konten[j], end, h) ==> konten[j].w.Watched() <= alle
      {
        if Aktiv(konten[i], end, h) { alle := alle + konten[i].w.Watched(); }
      }
    }

    /** `_apply`: the block is read once, every active wallet takes its part. */
    method WendeAn(h: nat)
      requires Formen() && h < |k| && Gueltig(k)
      modifies this`staende, this`hits
      ensures Formen()
      ensures forall i :: 0 <= i < |konten| ==> staende[i] == KontoStand(k, konten[i], end, h, old(staende)[i])
      ensures forall i :: 0 <= i < |konten| ==> hits[i] == KontoHits(k, konten[i], end, h, old(hits)[i])
    {
      var alle := Gesamt(h);
      var neu, spentBy := ExtractFromParsedBlock(k[h], h, alle);
      GueltigTxids(k, h);
      for i := 0 to |konten|
        invariant Formen()
        invariant forall j :: i <= j < |konten| ==> staende[j] == old(staende)[j] && hits[j] == old(hits)[j]
        invariant forall j :: 0 <= j < i ==> staende[j] == KontoStand(k, konten[j], end, h, old(staende)[j])
        invariant forall j :: 0 <= j < i ==> hits[j] == KontoHits(k, konten[j], end, h, old(hits)[j])
      {
        if Aktiv(konten[i], end, h) {
          NeuProjektion(k[h].txs, h, alle, konten[i].w.Watched());
          var st, treffer := KontoAnwenden(konten[i], neu, spentBy, h, k[h].zeit, staende[i], hits[i]);
          staende, hits := staende[i := st], hits[i := treffer];
        }
      }
    }

    /** A matched block of a pass: kept for the rebuild and applied at once. */
    method BlockGefunden(h: nat)
      requires Valid() && h < |k| && Gueltig(k)
      modifies this
      ensures Valid() && ereignisse == old(ereignisse) + [h]
    {
      ghost var ev, st, hs := ereignisse, staende, hits;
      WendeAn(h);
      ereignisse := ereignisse + [h];
      forall i | 0 <= i < |konten| ensures KontoGut(k, konten[i], end, ereignisse, staende[i], hits[i]) {
        KontoWeiter(k, konten[i], end, ev, h, st[i], hs[i]);
      }
    }

    /** One filter of a pass. */
    method UnionHoehe(trifft: (int, set<Skript>) -> bool, h: nat, scripts: set<Skript>) returns (neu: seq<int>)
      requires Valid() && h < |k| && Gueltig(k) && FilterEhrlich(k, trifft)
      modifies this
      ensures Valid() && ereignisse == old(ereignisse) + neu && ImBereich(k, neu, h, h)
      ensures Gesucht(k, ereignisse, h, h, scripts) && NurTreffer(k, trifft, neu, scripts)
    {
      neu := [];
      if trifft(h, scripts) {
        EinTreffer(k, trifft, h, scripts);
        BlockGefunden(h);
        neu := [h];
      }
      EineHoehe(k, trifft, ereignisse, h, scripts);
    }

    /** `_union_pass`: the matched heights of one pass, ascending, are applied and kept. */
    method UnionPass(trifft: (int, set<Skript>) -> bool, von: nat, bis: int, scripts: set<Skript>) returns (neu: seq<int>)
      requires Valid() && bis < |k| && Gueltig(k) && FilterEhrlich(k, trifft)
      modifies this
      ensures Valid() && ereignisse == old(ereignisse) + neu && ImBereich(k, neu, von, bis)
      ensures Gesucht(k, ereignisse, von, bis, scripts) && NurTreffer(k, trifft, neu, scripts)
    {
      var h := von;
      neu := [];
      while h <= bis
        invariant von <= h && (h <= bis || h == bis + 1 || h == von) && Valid()
        invariant ereignisse == old(ereignisse) + neu && ImBereich(k, neu, von, h - 1)
        invariant Gesucht(k, ereignisse, von, h - 1, scripts) && NurTreffer(k, trifft, neu, scripts)
        decreases bis - h
      {
        ghost var ev := ereignisse;
        var dazu := UnionHoehe(trifft, h, scripts);
        GesuchtWeiter(k, ev, ereignisse, von, h, scripts);
        BereichWeiter(k, neu, dazu, von, h);
        MehrTreffer(k, trifft, neu, scripts, dazu, scripts);
        assert scripts + scripts == scripts;
        neu := neu + dazu;
        h := h + 1;
      }
    }

    /** The new history scripts of one round and what each first scan has seen by then. */
    method Erweitern(schon: seq<set<Skript>>, basis: set<Skript>, bis: int) returns (neue: set<Skript>, schon': seq<set<Skript>>)
      requires Formen() && |schon| == |konten| && forall kt :: kt in konten ==> kt.w.Valid()
      ensures |schon'| == |konten|
      ensures forall i :: 0 <= i < |konten| ==> schon'[i] == schon[i] + Dazu(konten[i], bis, hits[i], schon[i])
      ensures forall s :: s in neue <==> s in basis || exists i :: 0 <= i < |konten| && s in Dazu(konten[i], bis, hits[i], schon[i])
    {
      neue, schon' := basis, schon;
      for i := 0 to |konten|
        invariant |schon'| == |konten| && forall j :: i <= j < |konten| ==> schon'[j] == schon[j]
        invariant forall j :: 0 <= j < i ==> schon'[j] == schon[j] + Dazu(konten[j], bis, hits[j], schon[j])
        invariant forall s :: s in neue <==> s in basis || exists j :: 0 <= j < i && s in Dazu(konten[j], bis, hits[j], schon[j])
      {
        if !konten[i].Erstscan() || konten[i].start > bis { continue; }
        var dazu := NaechsteHistorieScripts(konten[i].w, hits[i], schon[i]);
        schon' := schon'[i := schon[i] + dazu];
        neue := neue + dazu;
      }
    }

    method Obergrenze() returns (m: nat)
      ensures m >= 1 && forall kt :: kt in konten ==> kt.w.maxIndex <= m
    {
      m := 1;
      for i := 0 to |konten|
        invariant m >= 1 && forall j :: 0 <= j < i ==> konten[j].w.maxIndex <= m
      {
        if konten[i].w.maxIndex > m { m := konten[i].w.maxIndex; }
      }
    }

    /** Every first scan that reaches below the window has searched its history for what it has seen so far. */
    ghost predicate AlleSuchen(schon: seq<set<Skript>>, runde: nat)
      requires Formen() && |schon| == |konten|
      reads this
    {
      forall i :: 0 <= i < |konten| && Erstsuche(konten[i], end) ==>
        Fortschritt(k, konten[i], end, ereignisse, hits[i], schon[i], runde)
    }

    ghost predicate AlleFertig(schon: seq<set<Skript>>)
      requires Formen() && |schon| == |konten|
      reads this
    {
      forall i :: 0 <= i < |konten| && Erstsuche(konten[i], end) ==>
        Fortschritt(k, konten[i], end, ereignisse, hits[i], schon[i], konten[i].w.maxIndex)
    }

    ghost predicate Bekannte() { forall kt :: kt in konten ==> !kt.Erstscan() }

    lemma AllesFertig(schon: seq<set<Skript>>, runde: nat)
      requires Formen() && |schon| == |konten| && AlleSuchen(schon, runde) && forall kt :: kt in konten ==> kt.w.Valid()
      requires forall i :: 0 <= i < |konten| ==>
        Dazu(konten[i], TurboVon(end) - 1, hits[i], schon[i]) == {} || runde >= konten[i].w.maxIndex
      ensures AlleFertig(schon)
    {
      hide PraefixFolge;
      forall i | 0 <= i < |konten| && Erstsuche(konten[i], end)
        ensures Fortschritt(k, konten[i], end, ereignisse, hits[i], schon[i], konten[i].w.maxIndex)
      {
        FortschrittEnde(k, konten[i], end, ereignisse, hits[i], schon[i], runde);
      }
    }

    /** One round of the history pass. */
    method Runde(trifft: (int, set<Skript>) -> bool, p: Pass, neue: set<Skript>, ghost schon: seq<set<Skript>>, ghost schon': seq<set<Skript>>, ghost runde: nat)
      returns (dazu: seq<int>)
      requires Valid() && Gueltig(k) && FilterEhrlich(k, trifft) && (forall kt :: kt in konten ==> kt.w.Valid())
      requires 0 <= p.von && p.bis == TurboVon(end) - 1 && p.bis < |k|
      requires forall kt :: kt in konten && Erstsuche(kt, end) ==> p.von <= kt.start
      requires |schon| == |konten| && |schon'| == |konten| && AlleSuchen(schon, runde)
      requires forall i :: 0 <= i < |konten| ==> schon'[i] == schon[i] + Dazu(konten[i], p.bis, hits[i], schon[i])
      requires forall i :: 0 <= i < |konten| ==> Dazu(konten[i], p.bis, hits[i], schon[i]) <= neue
      modifies this
      ensures Valid() && AlleSuchen(schon', runde + 1) && Gesucht(k, ereignisse, p.von, p.bis, neue)
      ensures ereignisse == old(ereignisse) + dazu && ImBereich(k, dazu, p.von, p.bis) && NurTreffer(k, trifft, dazu, neue)
    {
      ghost var ev, hs := ereignisse, hits;
      dazu := UnionPass(trifft, p.von, p.bis, neue);
      forall i | 0 <= i < |konten| && Erstsuche(konten[i], end)
        ensures Fortschritt(k, konten[i], end, ereignisse, hits[i], schon'[i], runde + 1)
      {
        assert KontoGut(k, konten[i], end, ereignisse, staende[i], hits[i]);
        FortschrittRunde(k, konten[i], end, ev, hs[i], schon[i], runde, ereignisse, hits[i], p.von, neue);
      }
    }

    /** The script belongs to a wallet scanned for the first time. */
    ghost predicate AusErstscan(s: Skript) { exists kt :: kt in konten && kt.Erstscan() && s in kt.w.Watched() }

    lemma NeueHerkunft(schon: seq<set<Skript>>, basis: set<Skript>, bis: int, neue: set<Skript>)
      requires Valid() && |schon| == |konten| && forall kt :: kt in konten ==> kt.w.Valid()
      requires forall s :: s in neue <==> s in basis || exists i :: 0 <= i < |konten| && s in Dazu(konten[i], bis, hits[i], schon[i])
      ensures forall s :: s in neue ==> s in basis || AusErstscan(s)
    {
      forall s | s in neue && s !in basis ensures AusErstscan(s) {
        var i :| 0 <= i < |konten| && s in Dazu(konten[i], bis, hits[i], schon[i]);
        assert KontoGut(k, konten[i], end, ereignisse, staende[i], hits[i]);
        DazuEigen(konten[i], bis, hits[i], schon[i], s);
        assert konten[i] in konten;
      }
    }

    /** A round, unless no wallet has new scripts. */
    method NaechsteRunde(trifft: (int, set<Skript>) -> bool, p: Pass, schon: seq<set<Skript>>, basis: set<Skript>, ghost runde: nat)
      returns (neue: set<Skript>, schon': seq<set<Skript>>, dazu: seq<int>)
      requires Valid() && Gueltig(k) && FilterEhrlich(k, trifft) && HistorieErlaubt(p)
      requires |schon| == |konten| && AlleSuchen(schon, runde)
      modifies this
      ensures Valid() && |schon'| == |konten|
      ensures basis <= neue && (forall s :: s in neue ==> s in basis || AusErstscan(s))
      ensures neue != {} ==> AlleSuchen(schon', runde + 1)
      ensures neue == {} ==> AlleFertig(schon') && dazu == []
      ensures Gesucht(k, ereignisse, p.von, p.bis, neue) && NurTreffer(k, trifft, dazu, neue)
      ensures ereignisse == old(ereignisse) + dazu && ImBereich(k, dazu, p.von, p.bis)
    {
      neue, schon' := Erweitern(schon, basis, p.bis);
      NeueHerkunft(schon, basis, p.bis, neue);
      dazu := [];
      if neue != {} {
        dazu := Runde(trifft, p, neue, schon, schon', runde);
      } else {
        assert basis == {} && forall i :: 0 <= i < |konten| ==> Dazu(konten[i], p.bis, hits[i], schon[i]) == {};
        assert forall i :: 0 <= i < |konten| ==> schon'[i] == schon[i];
        assert schon' == schon;
        AllesFertig(schon, runde);
      }
    }

    ghost predicate HistorieErlaubt(p: Pass) {
      && 0 <= p.von && p.bis == TurboVon(end) - 1 && p.bis < |k|
      && (forall kt :: kt in konten ==> kt.w.Valid())
      && forall kt :: kt in konten && Erstsuche(kt, end) ==> p.von <= kt.start
    }

    /** The heights the history has found, and the scripts it was searched for. */
    ghost predicate HistorieStand(trifft: (int, set<Skript>) -> bool, p: Pass, historie: seq<int>, gesucht: set<Skript>)
      reads this
    {
      && Gesucht(k, ereignisse, p.von, p.bis, gesucht) && NurTreffer(k, trifft, historie, gesucht)
      && p.scripts <= gesucht && (forall s :: s in gesucht ==> s in p.scripts || AusErstscan(s))
      && (forall h :: h in historie ==> p.von <= h <= p.bis)
      && (Bekannte() ==> ImBereich(k, historie, p.von, p.bis) && gesucht == p.scripts)
    }

    /** A further round of the history. */
    method Weiter(trifft: (int, set<Skript>) -> bool, p: Pass, historie: seq<int>, gesucht: set<Skript>, schon: seq<set<Skript>>, ghost runde: nat)
      returns (fertig: bool, schon': seq<set<Skript>>, historie': seq<int>, gesucht': set<Skript>)
      requires Valid() && Gueltig(k) && FilterEhrlich(k, trifft) && HistorieErlaubt(p)
      requires |schon| == |konten| && AlleSuchen(schon, runde) && HistorieStand(trifft, p, historie, gesucht)
      modifies this
      ensures Valid() && |schon'| == |konten| && HistorieStand(trifft, p, historie', gesucht')
      ensures if fertig then AlleFertig(schon') else AlleSuchen(schon', runde + 1)
      ensures exists dazu :: historie' == historie + dazu && ereignisse == old(ereignisse) + dazu
    {
      ghost var ev := ereignisse;
      var neue, dazu;
      neue, schon', dazu := NaechsteRunde(trifft, p, schon, {}, runde);
      fertig, historie', gesucht' := neue == {}, historie + dazu, gesucht + neue;
      GesuchtMehr(k, ev, ereignisse, p.von, p.bis, gesucht);
      GesuchtVereint(k, ereignisse, p.von, p.bis, gesucht, neue);
      MehrTreffer(k, trifft, historie, gesucht, dazu, neue);
      if Bekannte() {
        assert neue == {} && historie' == historie && gesucht' == gesucht;
      }
    }

    /** The first round of the history, for the planned scripts and those of the first scans. */
    method ErsteRunde(trifft: (int, set<Skript>) -> bool, p: Pass) returns (gesehen: seq<set<Skript>>, historie: seq<int>, gesucht: set<Skript>)
      requires Valid() && Gueltig(k) && FilterEhrlich(k, trifft) && HistorieErlaubt(p) && p.scripts != {}
      requires AlleSuchen(seq(|konten|, i => {}), 0)
      modifies this
      ensures Valid() && |gesehen| == |konten| && AlleSuchen(gesehen, 1) && HistorieStand(trifft, p, historie, gesucht)
      ensures ereignisse == old(ereignisse) + historie
    {
      hide PraefixFolge;
      gesucht, gesehen, historie := NaechsteRunde(trifft, p, seq(|konten|, i => {}), p.scripts, 0);
      assert gesucht != {};
      if Bekannte() {
        forall s | s in gesucht ensures s in p.scripts { assert s in p.scripts || AusErstscan(s); }
        assert gesucht == p.scripts;
      }
    }

    /** The history pass, repeated while the hits of some first scan push its prefix upward. */
    method Historie(trifft: (int, set<Skript>) -> bool, p: Pass) returns (ghost schon: seq<set<Skript>>, historie: seq<int>, gesucht: set<Skript>)
      requires Valid() && Gueltig(k) && FilterEhrlich(k, trifft) && HistorieErlaubt(p) && p.scripts != {}
      requires AlleSuchen(seq(|konten|, i => {}), 0)
      modifies this
      ensures Valid() && |schon| == |konten| && AlleFertig(schon) && HistorieStand(trifft, p, historie, gesucht)
      ensures ereignisse == old(ereignisse) + historie
    {
      var gesehen, h0, g0 := ErsteRunde(trifft, p);
      schon, historie, gesucht := WeitereRunden(trifft, p, gesehen, h0, g0);
    }

    /** The history once more for what the hits have added, until nothing is new or every index had its round. */
    method WeitereRunden(trifft: (int, set<Skript>) -> bool, p: Pass, gesehen0: seq<set<Skript>>, historie0: seq<int>, gesucht0: set<Skript>)
      returns (gesehen: seq<set<Skript>>, historie: seq<int>, gesucht: set<Skript>)
      requires Valid() && Gueltig(k) && FilterEhrlich(k, trifft) && HistorieErlaubt(p)
      requires |gesehen0| == |konten| && AlleSuchen(gesehen0, 1) && HistorieStand(trifft, p, historie0, gesucht0)
      modifies this
      ensures Valid() && |gesehen| == |konten| && AlleFertig(gesehen) && HistorieStand(trifft, p, historie, gesucht)
      ensures exists dazu :: historie == historie0 + dazu && ereignisse == old(ereignisse) + dazu
    {
      var obergrenze := Obergrenze();
      gesehen, historie, gesucht := gesehen0, historie0, gesucht0;
      var runde, fertig := 1, false;
      ghost var neu: seq<int> := [];
      while runde < obergrenze && !fertig
        invariant 1 <= runde <= obergrenze && |gesehen| == |konten| && Valid() && HistorieStand(trifft, p, historie, gesucht)
        invariant if fertig then AlleFertig(gesehen) else AlleSuchen(gesehen, runde)
        invariant historie == historie0 + neu && ereignisse == old(ereignisse) + neu
        decreases obergrenze - runde
      {
        ghost var ev, alt := ereignisse, historie;
        fertig, gesehen, historie, gesucht := Weiter(trifft, p, historie, gesucht, gesehen, runde);
        ghost var dazu :| historie == alt + dazu && ereignisse == ev + dazu;
        neu := neu + dazu;
        runde := runde + 1;
      }
      if !fertig { AllesFertig(gesehen, runde); }
    }

    /** One more block of the replay. */
    method EinBlock(sortiert: seq<int>, n: nat)
      requires Formen() && n < |sortiert| && Hoehen(k, sortiert) && Hoehen(k, sortiert[..n]) && Gueltig(k)
      requires forall i :: 0 <= i < |konten| ==> staende[i] == Allein(k, konten[i], end, sortiert[..n])
      modifies this`staende, this`hits
      ensures Formen() && Hoehen(k, sortiert[..n + 1])
      ensures forall i :: 0 <= i < |konten| ==> staende[i] == Allein(k, konten[i], end, sortiert[..n + 1])
    {
      ghost var st := staende;
      WendeAn(sortiert[n]);
      assert sortiert[..n + 1] == sortiert[..n] + [sortiert[n]];
      forall i | 0 <= i < |konten| ensures staende[i] == Allein(k, konten[i], end, sortiert[..n + 1]) {
        AlleinWeiter(k, konten[i], end, sortiert[..n], sortiert[n]);
      }
    }

    /** `_rebuild`: back to the seeds, then all kept blocks in height order. */
    method Rebuild()
      requires Formen() && Hoehen(k, ereignisse) && Gueltig(k)
      modifies this`staende, this`hits
      ensures Formen() && Umbaubar(k, ereignisse)
      ensures forall i :: 0 <= i < |konten| ==> staende[i] == Allein(k, konten[i], end, Sortiert(IntKleiner, ereignisse))
    {
      var sortiert := Sortiert(IntKleiner, ereignisse);
      SortierteHoehen(k, ereignisse);
      staende := seq(|konten|, i requires 0 <= i < |konten| => konten[i].seed);
      for n := 0 to |sortiert|
        invariant Formen() && Hoehen(k, sortiert[..n])
        invariant forall i :: 0 <= i < |konten| ==> staende[i] == Allein(k, konten[i], end, sortiert[..n])
      {
        EinBlock(sortiert, n);
      }
      assert sortiert[..|sortiert|] == sortiert;
    }
  }
}
