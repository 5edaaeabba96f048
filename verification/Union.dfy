/** One filter run for several wallets (core/bip158_scan.py, lines 190-229 and 1557-1646). */
module Union {
  import opened Ordnung
  import opened Kassenbuch
  import opened Wiedergabe
  import opened Luecke

  /** A wallet in the union: where it starts, its known scripts, the gap scripts of a first scan, its seed. */
  datatype Konto = Konto(w: Wallet, start: nat, used: set<Skript>, gap: set<Skript>, seed: Stand) {
    predicate Erstscan() { used == {} }

    function Historie(): set<Skript> { if used != {} then used else gap }

    /** A first scan without gap scripts looks at the first indices. */
    function Vorbereitet(): Konto { if used == {} && gap == {} then this.(gap := w.Anfang()) else this }
  }

  // -------------------------------------------------------------------- planning

  function TurboVon(tip: int): (r: int)
    ensures 0 <= r && r >= tip - TURBO_WINDOW + 1
  {
    if 0 >= tip - TURBO_WINDOW + 1 then 0 else tip - TURBO_WINDOW + 1
  }

  function Spaeter(a: int, b: int): int { if a >= b then a else b }

  predicate ImTurbo(kt: Konto, tip: int) { kt.start <= tip }

  predicate InHistorie(kt: Konto, tip: int) { kt.start <= tip && kt.start < TurboVon(tip) && kt.Historie() != {} }

  /** What a pass has to cover for some of the wallets: from the earliest of their starts, all their scripts. */
  datatype Umfang = Umfang(von: Option<int>, scripts: set<Skript>) {
    function Mit(start: int, mehr: set<Skript>): Umfang {
      Umfang(if von.None? || start < von.value then Some(start) else von, scripts + mehr)
    }
  }

  ghost predicate UmfangVon(konten: seq<Konto>, dabei: Konto -> bool, start: Konto -> int, scripts: Konto -> set<Skript>, u: Umfang) {
    && (u.von.None? <==> forall kt :: kt in konten ==> !dabei(kt))
    && (u.von.Some? ==> (forall kt :: kt in konten && dabei(kt) ==> u.von.value <= start(kt))
                        && exists kt :: kt in konten && dabei(kt) && u.von.value == start(kt))
    && (forall s :: s in u.scripts <==> exists kt :: kt in konten && dabei(kt) && s in scripts(kt))
  }

  lemma UmfangMit(konten: seq<Konto>, kt: Konto, dabei: Konto -> bool, start: Konto -> int, scripts: Konto -> set<Skript>, u: Umfang)
    requires UmfangVon(konten, dabei, start, scripts, u)
    ensures UmfangVon(konten + [kt], dabei, start, scripts, if dabei(kt) then u.Mit(start(kt), scripts(kt)) else u)
  {
    var mehr := konten + [kt];
    var v := if dabei(kt) then u.Mit(start(kt), scripts(kt)) else u;
    forall x ensures x in mehr <==> x in konten || x == kt {}
    if v.von.Some? {
      if dabei(kt) && v.von.value == start(kt) { assert kt in mehr; } else {
        var x :| x in konten && dabei(x) && u.von.value == start(x);
        assert x in mehr;
      }
    } else { assert !dabei(kt); }
    forall s ensures s in v.scripts <==> exists x :: x in mehr && dabei(x) && s in scripts(x) {
      if s in u.scripts { var x :| x in konten && dabei(x) && s in scripts(x); assert x in mehr; }
    }
  }

  function TurboStart(tip: int): Konto -> int { (kt: Konto) => Spaeter(kt.start, TurboVon(tip)) }

  function Turbos(tip: int): Konto -> bool { (kt: Konto) => ImTurbo(kt, tip) }

  function Historien(tip: int): Konto -> bool { (kt: Konto) => InHistorie(kt, tip) }

  function Start(): Konto -> int { (kt: Konto) => kt.start }

  function Lookahead(): Konto -> set<Skript> { (kt: Konto) => kt.w.Watched() }

  function HistorieScripts(): Konto -> set<Skript> { (kt: Konto) => kt.Historie() }

  /**
   * The plan: the newest window for the scripts of all wallets, from the earliest wallet start inside it, and
   * the history up to the window for known or gap scripts only, from the earliest start that reaches there.
   */
  ghost predicate Plan(konten: seq<Konto>, tip: int, passe: seq<Pass>) {
    && |passe| <= 2
    && UmfangVon(konten, Turbos(tip), TurboStart(tip), Lookahead(),
                 if passe == [] then Umfang(None, {}) else Umfang(Some(passe[0].von), passe[0].scripts))
    && UmfangVon(konten, Historien(tip), Start(), HistorieScripts(),
                 if |passe| < 2 then Umfang(None, {}) else Umfang(Some(passe[1].von), passe[1].scripts))
    && (|passe| >= 1 ==> !passe[0].historie && passe[0].bis == tip)
    && (|passe| == 2 ==> passe[1].historie && passe[1].bis == TurboVon(tip) - 1)
  }

  lemma NichtLeer(konten: seq<Konto>, dabei: Konto -> bool, start: Konto -> int, scripts: Konto -> set<Skript>, u: Umfang)
    requires UmfangVon(konten, dabei, start, scripts, u) && u.von.Some?
    requires forall kt :: kt in konten && dabei(kt) ==> scripts(kt) != {}
    ensures u.scripts != {}
  {
    var kt :| kt in konten && dabei(kt) && u.von.value == start(kt);
    var s :| s in scripts(kt);
    assert s in u.scripts;
  }

  /** One more wallet in both passes, if it takes part. */
  lemma MitKonto(konten: seq<Konto>, kt: Konto, tip: int, turbo: Umfang, histo: Umfang)
    requires UmfangVon(konten, Turbos(tip), TurboStart(tip), Lookahead(), turbo)
    requires UmfangVon(konten, Historien(tip), Start(), HistorieScripts(), histo)
    ensures UmfangVon(konten + [kt], Turbos(tip), TurboStart(tip), Lookahead(),
                      if ImTurbo(kt, tip) then turbo.Mit(Spaeter(kt.start, TurboVon(tip)), kt.w.Watched()) else turbo)
    ensures UmfangVon(konten + [kt], Historien(tip), Start(), HistorieScripts(),
                      if InHistorie(kt, tip) then histo.Mit(kt.start, kt.Historie()) else histo)
  {
    UmfangMit(konten, kt, Turbos(tip), TurboStart(tip), Lookahead(), turbo);
    UmfangMit(konten, kt, Historien(tip), Start(), HistorieScripts(), histo);
  }

  /** The loop of `plane_union_passes` */
  method Umfaenge(konten: seq<Konto>, tip: int) returns (turbo: Umfang, histo: Umfang)
    ensures UmfangVon(konten, Turbos(tip), TurboStart(tip), Lookahead(), turbo)
    ensures UmfangVon(konten, Historien(tip), Start(), HistorieScripts(), histo)
  {
    var turboFrom := TurboVon(tip);
    turbo, histo := Umfang(None, {}), Umfang(None, {});
    for i := 0 to |konten|
      invariant UmfangVon(konten[..i], Turbos(tip), TurboStart(tip), Lookahead(), turbo)
      invariant UmfangVon(konten[..i], Historien(tip), Start(), HistorieScripts(), histo)
    {
      var kt := konten[i];
      assert konten[..i + 1] == konten[..i] + [kt];
      MitKonto(konten[..i], kt, tip, turbo, histo);
      if tip < kt.start { continue; }
      var walletTurbo := Spaeter(kt.start, turboFrom);
      if walletTurbo <= tip { turbo := turbo.Mit(walletTurbo, kt.w.Watched()); }
      if kt.start < turboFrom && kt.Historie() != {} { histo := histo.Mit(kt.start, kt.Historie()); }
    }
    assert konten[..|konten|] == konten;
  }

  /** `plane_union_passes` */
  method PlaneUnionPasses(konten: seq<Konto>, tip: int) returns (passe: seq<Pass>)
    requires forall kt :: kt in konten ==> kt.w.Valid()
    ensures Plan(konten, tip, passe)
  {
    if tip < 0 || konten == [] { return []; }
    var turboFrom := TurboVon(tip);
    var turbo, histo := Umfaenge(konten, tip);
    PlanNichtLeer(konten, tip, turbo, histo);
    passe := [];
    if turbo.von.Some? && turbo.scripts != {} { passe := [Pass(false, turbo.von.value, tip, turbo.scripts)]; }
    if histo.von.Some? && histo.scripts != {} && histo.von.value <= turboFrom - 1 {
      passe := passe + [Pass(true, histo.von.value, turboFrom - 1, histo.scripts)];
    }
    PlanAus(konten, tip, turbo, histo, passe);
  }

  /** What the passes look like for the two scopes. */
  predicate AusUmfang(tip: int, turbo: Umfang, histo: Umfang, passe: seq<Pass>) {
    && (turbo.von.None? ==> histo.von.None? && passe == [])
    && (turbo.von.Some? && histo.von.None? ==> passe == [Pass(false, turbo.von.value, tip, turbo.scripts)])
    && (turbo.von.Some? && histo.von.Some? ==>
          passe == [Pass(false, turbo.von.value, tip, turbo.scripts), Pass(true, histo.von.value, TurboVon(tip) - 1, histo.scripts)])
  }

  lemma PlanAus(konten: seq<Konto>, tip: int, turbo: Umfang, histo: Umfang, passe: seq<Pass>)
    requires AusUmfang(tip, turbo, histo, passe) && (turbo.von.None? ==> turbo.scripts == {}) && (histo.von.None? ==> histo.scripts == {})
    requires UmfangVon(konten, Turbos(tip), TurboStart(tip), Lookahead(), turbo)
    requires UmfangVon(konten, Historien(tip), Start(), HistorieScripts(), histo)
    ensures Plan(konten, tip, passe)
  {
    assert turbo == if passe == [] then Umfang(None, {}) else Umfang(Some(passe[0].von), passe[0].scripts);
    assert histo == if |passe| < 2 then Umfang(None, {}) else Umfang(Some(passe[1].von), passe[1].scripts);
  }

  lemma PlanNichtLeer(konten: seq<Konto>, tip: int, turbo: Umfang, histo: Umfang)
    requires forall kt :: kt in konten ==> kt.w.Valid()
    requires UmfangVon(konten, Turbos(tip), TurboStart(tip), Lookahead(), turbo)
    requires UmfangVon(konten, Historien(tip), Start(), HistorieScripts(), histo)
    ensures turbo.von.Some? ==> turbo.scripts != {}
    ensures histo.von.Some? ==> turbo.von.Some? && histo.scripts != {} && histo.von.value < TurboVon(tip)
    ensures turbo.von.None? ==> turbo.scripts == {}
    ensures histo.von.None? ==> histo.scripts == {}
  {
    forall kt | kt in konten ensures Lookahead()(kt) != {} {
      assert kt.w.Meins(Eigen(kt.w.xpub, 0, 0, 0)) && Eigen(kt.w.xpub, 0, 0, 0) in kt.w.Watched();
    }
    if turbo.von.Some? { NichtLeer(konten, Turbos(tip), TurboStart(tip), Lookahead(), turbo); }
    if histo.von.Some? { NichtLeer(konten, Historien(tip), Start(), HistorieScripts(), histo); }
  }

  lemma PlanKonto(konten: seq<Konto>, tip: int, passe: seq<Pass>, kt: Konto)
    requires Plan(konten, tip, passe) && kt in konten && kt.start <= tip
    ensures |passe| >= 1 && TurboVon(tip) <= passe[0].von <= Spaeter(kt.start, TurboVon(tip)) && passe[0].bis == tip && kt.w.Watched() <= passe[0].scripts
    ensures InHistorie(kt, tip) ==> |passe| == 2 && passe[1].von <= kt.start && kt.Historie() <= passe[1].scripts
  {
    assert Turbos(tip)(kt) && Lookahead()(kt) == kt.w.Watched() && TurboStart(tip)(kt) == Spaeter(kt.start, TurboVon(tip));
    assert InHistorie(kt, tip) ==> Historien(tip)(kt) && HistorieScripts()(kt) == kt.Historie() && Start()(kt) == kt.start;
    assert passe != [];
    var x :| x in konten && Turbos(tip)(x) && passe[0].von == TurboStart(tip)(x);
  }

  /** Every wallet finds each of its heights in exactly one pass: the newest 2016 with all its scripts, older ones with its known ones. */
  lemma PlanDeckt(konten: seq<Konto>, tip: int, passe: seq<Pass>, kt: Konto, h: int)
    requires Plan(konten, tip, passe) && kt in konten && kt.start <= h <= tip
    ensures |passe| >= 1 && (h > tip - 2016 <==> ImPass(passe[0], h)) && kt.w.Watched() <= passe[0].scripts
    ensures h <= tip - 2016 && kt.Historie() != {} ==> |passe| == 2 && ImPass(passe[1], h) && kt.Historie() <= passe[1].scripts
    ensures |passe| == 2 ==> !(ImPass(passe[0], h) && ImPass(passe[1], h))
  {
    PlanKonto(konten, tip, passe, kt);
  }

  // ------------------------------------------------- one block for several wallets

  function Eigene(neu: map<Outpoint, Ausgang>, watched: set<Skript>): map<Outpoint, Ausgang> {
    map op | op in neu && neu[op].skript in watched :: neu[op]
  }

  predicate EindeutigeTxids(txs: seq<Tx>) {
    forall i, j :: 0 <= i < |txs| && 0 <= j < |txs| && txs[i].txid == txs[j].txid ==> i == j
  }

  lemma GueltigTxids(k: Kette, h: nat)
    requires Gueltig(k) && h < |k|
    ensures EindeutigeTxids(k[h].txs)
  {
    forall i, j | 0 <= i < |k[h].txs| && 0 <= j < |k[h].txs| && k[h].txs[i].txid == k[h].txs[j].txid ensures i == j {
      assert Stelle(k, h, i) && Stelle(k, h, j);
    }
  }

  /** Reading a block for all wallets and keeping one wallet's outputs is reading it for that wallet alone. */
  lemma NeuProjektion(txs: seq<Tx>, h: nat, alle: set<Skript>, watched: set<Skript>)
    requires EindeutigeTxids(txs) && watched <= alle
    ensures Eigene(Neu(txs, h, alle), watched) == Neu(txs, h, watched)
  {
    var a, b := Eigene(Neu(txs, h, alle), watched), Neu(txs, h, watched);
    forall op | op in a ensures op in b && a[op] == b[op] {
      var i := NeuHerkunft(txs, h, alle, op);
      NeuEnthaelt(txs, h, watched, i, op);
      var j := NeuHerkunft(txs, h, watched, op);
      assert txs[i].txid == txs[j].txid;
    }
    forall op | op in b ensures op in a {
      var i := NeuHerkunft(txs, h, watched, op);
      NeuEnthaelt(txs, h, alle, i, op);
      var j := NeuHerkunft(txs, h, alle, op);
      assert txs[i].txid == txs[j].txid;
    }
    assert a.Keys == b.Keys;
  }

  // ---------------------------------------------------------- the events of a wallet

  predicate Aktiv(kt: Konto, end: int, h: int) { kt.start <= h <= end }

  /** The events at heights a wallet takes part in, in their order. */
  function Ab(kt: Konto, end: int, ev: seq<int>): (r: seq<int>)
    ensures forall h :: h in r <==> h in ev && Aktiv(kt, end, h)
  {
    if ev == [] then []
    else
      var h := ev[|ev| - 1];
      assert ev == ev[..|ev| - 1] + [h];
      if Aktiv(kt, end, h) then Ab(kt, end, ev[..|ev| - 1]) + [h] else Ab(kt, end, ev[..|ev| - 1])
  }

  lemma AbHoehen(k: Kette, kt: Konto, end: int, ev: seq<int>)
    requires Hoehen(k, ev)
    ensures Hoehen(k, Ab(kt, end, ev))
  {
    var r := Ab(kt, end, ev);
    forall i | 0 <= i < |r| ensures 0 <= r[i] < |k| {
      assert r[i] in r;
      HoeheGueltig(k, ev, r[i]);
    }
  }

  lemma HoeheGueltig(k: Kette, ev: seq<int>, h: int)
    requires Hoehen(k, ev) && h in ev
    ensures 0 <= h < |k|
  {
    var i :| 0 <= i < |ev| && ev[i] == h;
  }

  lemma {:induction false} AbAufsteigend(kt: Konto, end: int, ev: seq<int>)
    requires Aufsteigend(ev)
    ensures Aufsteigend(Ab(kt, end, ev))
  {
    if ev != [] {
      var vor, h := ev[..|ev| - 1], ev[|ev| - 1];
      AbAufsteigend(kt, end, vor);
      var r := Ab(kt, end, vor);
      forall i | 0 <= i < |r| ensures r[i] <= h { assert r[i] in r && r[i] in vor; }
    }
  }

  lemma AbWeiter(kt: Konto, end: int, ev: seq<int>, h: int)
    ensures Ab(kt, end, ev + [h]) == if Aktiv(kt, end, h) then Ab(kt, end, ev) + [h] else Ab(kt, end, ev)
  {
    assert (ev + [h])[..|ev|] == ev;
  }

  /** The state of one wallet scanned alone over the same events, in the same order. */
  function Allein(k: Kette, kt: Konto, end: int, ev: seq<int>): Stand
    requires Hoehen(k, ev)
  {
    AbHoehen(k, kt, end, ev);
    Gespielt(kt.seed, k, Ab(kt, end, ev), kt.w.Watched())
  }

  lemma AlleinWeiter(k: Kette, kt: Konto, end: int, ev: seq<int>, h: int)
    requires Hoehen(k, ev) && 0 <= h < |k|
    ensures Hoehen(k, ev + [h])
    ensures Allein(k, kt, end, ev + [h])
            == if Aktiv(kt, end, h) then NachBlock(Allein(k, kt, end, ev), k[h], h, kt.w.Watched()) else Allein(k, kt, end, ev)
  {
    AbHoehen(k, kt, end, ev);
    AbHoehen(k, kt, end, ev + [h]);
    AbWeiter(kt, end, ev, h);
    var r := Ab(kt, end, ev);
    assert (r + [h])[..|r|] == r;
  }

  ghost predicate Umbaubar(k: Kette, ev: seq<int>) { Hoehen(k, ev) && Hoehen(k, Sortiert(IntKleiner, ev)) }

  /** Rebuilding all wallets from the sorted events is rebuilding each of them alone from its own. */
  lemma UmbauProjektion(k: Kette, kt: Konto, end: int, ev: seq<int>)
    requires Gueltig(k) && Umbaubar(k, ev)
    ensures Umbaubar(k, Ab(kt, end, ev))
    ensures Allein(k, kt, end, Sortiert(IntKleiner, ev)) == Umgebaut(kt.seed, k, Ab(kt, end, ev), kt.w.Watched())
    ensures StandVon(Umgebaut(kt.seed, k, Ab(kt, end, ev), kt.w.Watched()), kt.seed, k, Menge(Ab(kt, end, ev)), kt.w.Watched())
  {
    GueltigOrdentlich(k, kt.w.Watched());
    SortierteHoehen(k, ev);
    AbHoehen(k, kt, end, ev);
    SortierteHoehen(k, Ab(kt, end, ev));
    var s := Sortiert(IntKleiner, ev);
    AbHoehen(k, kt, end, s);
    AbAufsteigend(kt, end, s);
    SortiertElemente(IntKleiner, ev);
    assert Menge(Ab(kt, end, s)) == Menge(Ab(kt, end, ev));
    GespieltGenau(kt.seed, k, Ab(kt, end, s), kt.w.Watched());
    UmgebautGenau(kt.seed, k, Ab(kt, end, ev), kt.w.Watched());
    StandEindeutig(Allein(k, kt, end, s), Umgebaut(kt.seed, k, Ab(kt, end, ev), kt.w.Watched()), kt.seed, k, Menge(Ab(kt, end, ev)), kt.w.Watched());
  }

  // ------------------------------------------------------------ without a rebuild

  ghost predicate Spielbar(k: Kette, ev: seq<int>) { Hoehen(k, ev) && Aufsteigend(ev) }

  lemma NurEinmal(k: Kette, a: set<int>, b: set<int>, op: Outpoint, watched: set<Skript>)
    requires Ordentlich(k, watched) && a !! b
    ensures !(Ausgegeben(k, a, op) && Ausgegeben(k, b, op))
  {
    if Ausgegeben(k, a, op) {
      var h := AusgegebenBei(k, a, op);
      forall h' | h' in b && 0 <= h' < |k| ensures op !in S(k, h') {}
    }
  }

  /** The streamed stock (window a, then history b) differs from the replayed one (c) exactly at outputs spent before they were seen. */
  lemma StromBestand(seed: Stand, k: Kette, ht: set<int>, hh: set<int>, a: Stand, b: Stand, c: Stand, op: Outpoint, watched: set<Skript>)
    requires Ordentlich(k, watched) && ht !! hh
    requires BestandAn(a, seed, k, ht, op, watched) && BestandAn(b, a, k, hh, op, watched) && BestandAn(c, seed, k, ht + hh, op, watched)
    ensures GleichBei(b.bestand, c.bestand, op) <==> !Verpasst(k, ht, hh, op, watched)
    ensures Verpasst(k, ht, hh, op, watched) ==> op in b.bestand && op !in c.bestand
  {
    ErzeugtVereint(k, ht, hh, op, watched);
    NurEinmal(k, ht, hh, op, watched);
  }

  lemma StromVerlauf(seed: Stand, k: Kette, ht: set<int>, hh: set<int>, a: Stand, b: Stand, c: Stand, op: Outpoint, watched: set<Skript>)
    requires Ordentlich(k, watched) && ht !! hh
    requires VerlaufAn(a, seed, k, ht, op, watched) && VerlaufAn(b, a, k, hh, op, watched) && VerlaufAn(c, seed, k, ht + hh, op, watched)
    requires !(Erzeugt(k, hh, op, watched) && Ausgegeben(k, ht, op))
    ensures op in b.verlauf <==> op in c.verlauf
    ensures op in b.verlauf ==> b.verlauf[op] == c.verlauf[op]
  {
    ErzeugtVereint(k, ht, hh, op, watched);
    NurEinmal(k, ht, hh, op, watched);
  }

  lemma VerkettetAufsteigend(a: seq<int>, b: seq<int>)
    requires Aufsteigend(a) && Aufsteigend(b) && forall x, y :: x in a && y in b ==> x < y
    ensures Aufsteigend(a + b)
  {
    forall i, j | 0 <= i < j < |a + b| ensures (a + b)[i] <= (a + b)[j] {
      if i < |a| <= j { assert a[i] in a && b[j - |a|] in b; }
    }
  }

  /** The three closed forms: after the window, after the history on top of it, after both in order. */
  ghost predicate Staende(seed: Stand, k: Kette, ht: set<int>, hh: set<int>, a: Stand, b: Stand, c: Stand, watched: set<Skript>) {
    StandVon(a, seed, k, ht, watched) && StandVon(b, a, k, hh, watched) && StandVon(c, seed, k, ht + hh, watched)
  }

  ghost predicate Verpasst(k: Kette, ht: set<int>, hh: set<int>, op: Outpoint, watched: set<Skript>) {
    Erzeugt(k, hh, op, watched) && Ausgegeben(k, ht, op)
  }

  ghost predicate GleichAn(b: Stand, c: Stand, op: Outpoint) {
    GleichBei(b.bestand, c.bestand, op) && GleichBei(b.verlauf, c.verlauf, op)
  }

  lemma StromAn(seed: Stand, k: Kette, ht: set<int>, hh: set<int>, a: Stand, b: Stand, c: Stand, op: Outpoint, watched: set<Skript>)
    requires Ordentlich(k, watched) && ht !! hh && Staende(seed, k, ht, hh, a, b, c, watched)
    ensures GleichAn(b, c, op) <==> !Verpasst(k, ht, hh, op, watched)
    ensures Verpasst(k, ht, hh, op, watched) ==> op in b.bestand && op !in c.bestand
  {
    StromBestandAn(seed, k, ht, hh, a, b, c, op, watched);
    if !Verpasst(k, ht, hh, op, watched) { StromVerlaufAn(seed, k, ht, hh, a, b, c, op, watched); }
  }

  lemma StromBestandAn(seed: Stand, k: Kette, ht: set<int>, hh: set<int>, a: Stand, b: Stand, c: Stand, op: Outpoint, watched: set<Skript>)
    requires Ordentlich(k, watched) && ht !! hh && Staende(seed, k, ht, hh, a, b, c, watched)
    ensures GleichBei(b.bestand, c.bestand, op) <==> !Verpasst(k, ht, hh, op, watched)
    ensures Verpasst(k, ht, hh, op, watched) ==> op in b.bestand && op !in c.bestand
  {
    assert BestandAn(a, seed, k, ht, op, watched) by { StandAn(a, seed, k, ht, op, watched); }
    assert BestandAn(b, a, k, hh, op, watched) by { StandAn(b, a, k, hh, op, watched); }
    assert BestandAn(c, seed, k, ht + hh, op, watched) by { StandAn(c, seed, k, ht + hh, op, watched); }
    StromBestand(seed, k, ht, hh, a, b, c, op, watched);
  }

  lemma StromVerlaufAn(seed: Stand, k: Kette, ht: set<int>, hh: set<int>, a: Stand, b: Stand, c: Stand, op: Outpoint, watched: set<Skript>)
    requires Ordentlich(k, watched) && ht !! hh && Staende(seed, k, ht, hh, a, b, c, watched) && !Verpasst(k, ht, hh, op, watched)
    ensures GleichBei(b.verlauf, c.verlauf, op)
  {
    assert VerlaufAn(a, seed, k, ht, op, watched) by { StandAn(a, seed, k, ht, op, watched); }
    assert VerlaufAn(b, a, k, hh, op, watched) by { StandAn(b, a, k, hh, op, watched); }
    assert VerlaufAn(c, seed, k, ht + hh, op, watched) by { StandAn(c, seed, k, ht + hh, op, watched); }
    StromVerlauf(seed, k, ht, hh, a, b, c, op, watched);
  }

  lemma GleichUeberall(b: Stand, c: Stand)
    requires forall op :: GleichAn(b, c, op)
    ensures b == c
  {
    forall op ensures GleichBei(b.bestand, c.bestand, op) && GleichBei(b.verlauf, c.verlauf, op) { assert GleichAn(b, c, op); }
    Ueberall(b.bestand, c.bestand);
    Ueberall(b.verlauf, c.verlauf);
  }

  lemma StromVergleich(seed: Stand, k: Kette, ht: set<int>, hh: set<int>, a: Stand, b: Stand, c: Stand, watched: set<Skript>)
    requires Ordentlich(k, watched) && ht !! hh && Staende(seed, k, ht, hh, a, b, c, watched)
    ensures b == c <==> forall op :: !Verpasst(k, ht, hh, op, watched)
    ensures forall op :: Verpasst(k, ht, hh, op, watched) ==> op in b.bestand && op !in c.bestand
  {
    forall op
      ensures GleichAn(b, c, op) <==> !Verpasst(k, ht, hh, op, watched)
      ensures Verpasst(k, ht, hh, op, watched) ==> op in b.bestand && op !in c.bestand
    {
      StromAn(seed, k, ht, hh, a, b, c, op, watched);
    }
    if forall op :: !Verpasst(k, ht, hh, op, watched) { GleichUeberall(b, c); }
  }

  /**
   * Without a rebuild a union streams the newest window before the history. It reaches the state of a
   * replay in height order exactly when no output of the history was already spent in the window.
   */
  lemma StromGenau(seed: Stand, k: Kette, turbo: seq<int>, historie: seq<int>, watched: set<Skript>)
    requires Gueltig(k) && Spielbar(k, turbo) && Spielbar(k, historie)
    requires forall h, t :: h in historie && t in turbo ==> h < t
    ensures Spielbar(k, historie + turbo)
    ensures var strom := Gespielt(Gespielt(seed, k, turbo, watched), k, historie, watched);
            var richtig := Gespielt(seed, k, historie + turbo, watched);
            && (strom == richtig <==> forall op :: !Verpasst(k, Menge(turbo), Menge(historie), op, watched))
            && forall op :: Verpasst(k, Menge(turbo), Menge(historie), op, watched) ==> op in strom.bestand && op !in richtig.bestand
  {
    GueltigOrdentlich(k, watched);
    VerkettetAufsteigend(historie, turbo);
    var a := Gespielt(seed, k, turbo, watched);
    assert Staende(seed, k, Menge(turbo), Menge(historie), a, Gespielt(a, k, historie, watched), Gespielt(seed, k, historie + turbo, watched), watched) by {
      GespieltGenau(seed, k, turbo, watched);
      GespieltGenau(a, k, historie, watched);
      GespieltGenau(seed, k, historie + turbo, watched);
      assert Menge(historie + turbo) == Menge(turbo) + Menge(historie);
    }
    StromVergleich(seed, k, Menge(turbo), Menge(historie), a, Gespielt(a, k, historie, watched), Gespielt(seed, k, historie + turbo, watched), watched);
  }
}
