/** One download per block, however many ask for it (core/bip158_wallet.py, lines 452-508). */
module BlockCache {
  import opened Ordnung

  type Hash = string
  type Bytes = seq<bv8>

  const BLOCK_BYTES_MAX := 64

  /** `_BLOCK_BYTES`: an insertion-ordered dictionary, oldest entry first. */
  datatype Paar = Paar(hash: Hash, roh: Bytes)

  function Stelle(c: seq<Paar>, h: Hash): (r: Option<nat>)
    ensures r.Some? ==> r.value < |c| && c[r.value].hash == h
    ensures r.None? ==> forall i :: 0 <= i < |c| ==> c[i].hash != h
  {
    if c == [] then None else if c[0].hash == h then Some(0)
    else match Stelle(c[1..], h) case None => None case Some(i) => Some(i + 1)
  }

  function Ohne(c: seq<Paar>, h: Hash): seq<Paar> {
    if c == [] then [] else if c[0].hash == h then c[1..] else [c[0]] + Ohne(c[1..], h)
  }

  function Gekuerzt(c: seq<Paar>): seq<Paar> { if |c| > BLOCK_BYTES_MAX then Gekuerzt(c[1..]) else c }

  /** Empty hashes and empty blocks are not kept; the newest entry goes last, the oldest give way. */
  function Gemerkt(c: seq<Paar>, h: Hash, roh: Bytes): seq<Paar> {
    if h == "" || roh == [] then c else Gekuerzt(Ohne(c, h) + [Paar(h, roh)])
  }

  /** `merke_block_bytes` */
  method MerkeBlockBytes(c: seq<Paar>, h: Hash, roh: Bytes) returns (neu: seq<Paar>)
    ensures neu == Gemerkt(c, h, roh)
  {
    neu := c;
    if h == "" || roh == [] { return; }
    neu := Ohne(c, h) + [Paar(h, roh)];
    while |neu| > BLOCK_BYTES_MAX
      invariant Gekuerzt(neu) == Gekuerzt(Ohne(c, h) + [Paar(h, roh)])
      decreases |neu|
    {
      neu := neu[1..];
    }
  }

  ghost predicate Eindeutig(c: seq<Paar>) { forall i, j :: 0 <= i < j < |c| ==> c[i].hash != c[j].hash }

  /** A cache as the program keeps it: one entry per hash, at most 64. */
  ghost predicate Ordentlich(c: seq<Paar>) { |c| <= BLOCK_BYTES_MAX && Eindeutig(c) }

  lemma {:induction false} OhneGenau(c: seq<Paar>, h: Hash)
    requires Eindeutig(c)
    ensures Eindeutig(Ohne(c, h)) && (forall p :: p in Ohne(c, h) <==> p in c && p.hash != h)
  {
    if c != [] {
      var rest := c[1..];
      assert c == [c[0]] + rest;
      if c[0].hash != h {
        OhneGenau(rest, h);
        var r := Ohne(rest, h);
        forall i | 0 <= i < |r| ensures r[i].hash != c[0].hash { assert r[i] in r && r[i] in rest; }
      }
    }
  }

  lemma {:induction false} OhneLaenge(c: seq<Paar>, h: Hash)
    ensures |Ohne(c, h)| == |c| - (if Stelle(c, h).None? then 0 else 1)
    ensures Stelle(c, h).None? ==> Ohne(c, h) == c
  {
    if c != [] && c[0].hash != h { OhneLaenge(c[1..], h); }
  }

  lemma AngefuegtEindeutig(c: seq<Paar>, p: Paar)
    requires Eindeutig(c) && forall q :: q in c ==> q.hash != p.hash
    ensures Eindeutig(c + [p])
  {
    forall i | 0 <= i < |c| ensures c[i].hash != p.hash { assert c[i] in c; }
  }

  lemma KuerztEinen(v: seq<Paar>)
    requires |v| <= BLOCK_BYTES_MAX + 1
    ensures Gekuerzt(v) == if |v| > BLOCK_BYTES_MAX then v[1..] else v
  {
    if |v| > BLOCK_BYTES_MAX { assert Gekuerzt(v[1..]) == v[1..]; }
  }

  /** What stays of the older entries. */
  function Aeltere(rest: seq<Paar>): seq<Paar> { if |rest| >= BLOCK_BYTES_MAX then rest[1..] else rest }

  lemma AnfuegenKuerzt(rest: seq<Paar>, p: Paar)
    requires |rest| <= BLOCK_BYTES_MAX
    ensures Gekuerzt(rest + [p]) == Aeltere(rest) + [p]
  {
    OhneErstes(rest, p);
    KuerztEinen(rest + [p]);
  }

  lemma OhneErstes(rest: seq<Paar>, p: Paar)
    ensures rest != [] ==> (rest + [p])[1..] == rest[1..] + [p]
  {}

  /** A remembered block is found again; of the others at most the oldest one goes, in their old order. */
  lemma MerkenGenau(c: seq<Paar>, h: Hash, roh: Bytes)
    requires Ordentlich(c) && h != "" && roh != []
    ensures Ordentlich(Gemerkt(c, h, roh)) && Gemerkt(c, h, roh) == Aeltere(Ohne(c, h)) + [Paar(h, roh)]
    ensures forall p :: p in Ohne(c, h) <==> p in c && p.hash != h
    ensures forall p :: p in Aeltere(Ohne(c, h)) ==> p in c && p.hash != h
  {
    OhneGenau(c, h);
    OhneLaenge(c, h);
    AnfuegenKuerzt(Ohne(c, h), Paar(h, roh));
    AngefuegtEindeutig(Aeltere(Ohne(c, h)), Paar(h, roh));
  }

  // -------------------------------------------------------------------- the protocol

  datatype Ergebnis = Erhalten(roh: Bytes) | Ausnahme

  /** A call of `hole_block_einmal`, from its start to its return. */
  datatype Faden =
    | Neu(hash: Hash) | Wartet(hash: Hash, ereignis: nat) | Erwacht(hash: Hash)
    | Laedt(hash: Hash, ereignis: nat) | Geholt(hash: Hash, ereignis: nat, roh: Bytes)
    | Raeumt(hash: Hash, ereignis: nat, ergebnis: Ergebnis) | Weckt(hash: Hash, ereignis: nat, ergebnis: Ergebnis)
    | Zurueck(hash: Hash, ergebnis: Ergebnis)

  /** The shared dictionaries, the events set so far, and all bytes a completed download produced. */
  datatype Zustand = Zustand(
    cache: seq<Paar>, laeuft: map<Hash, nat>, gesetzt: set<nat>, ereignisse: nat, erzeugt: set<Paar>, faeden: seq<Faden>)

  const START := Zustand([], map[], {}, 0, {}, [])

  datatype Schritt =
    | Aufruf(hash: Hash) | Eintritt(t: nat) | Geladen(t: nat, roh: Bytes) | Gescheitert(t: nat) | Merkt(t: nat) | Raeumen(t: nat)
    | Wecken(t: nat) | Aufwachen(t: nat) | Zeitablauf(t: nat) | Lesen(t: nat) | FremdGemerkt(hash: Hash, roh: Bytes)

  predicate Moeglich(s: Zustand, schritt: Schritt) {
    match schritt
    case Aufruf(_) => true
    case Eintritt(t) => t < |s.faeden| && s.faeden[t].Neu?
    case Geladen(t, _) => t < |s.faeden| && s.faeden[t].Laedt?
    case Gescheitert(t) => t < |s.faeden| && s.faeden[t].Laedt?
    case Merkt(t) => t < |s.faeden| && s.faeden[t].Geholt?
    case Raeumen(t) => t < |s.faeden| && s.faeden[t].Raeumt?
    case Wecken(t) => t < |s.faeden| && s.faeden[t].Weckt?
    case Aufwachen(t) => t < |s.faeden| && s.faeden[t].Wartet? && s.faeden[t].ereignis in s.gesetzt
    case Zeitablauf(t) => t < |s.faeden| && s.faeden[t].Wartet?
    case Lesen(t) => t < |s.faeden| && s.faeden[t].Erwacht?
    case FremdGemerkt(_, _) => true
  }

  function ImCache(s: Zustand, h: Hash): Ergebnis {
    match Stelle(s.cache, h) case None => Ausnahme case Some(i) => Erhalten(s.cache[i].roh)
  }

  function Faeden(s: Zustand, t: nat, f: Faden): seq<Faden>
    requires t < |s.faeden|
  {
    s.faeden[t := f]
  }

  function Nach(s: Zustand, schritt: Schritt): Zustand
    requires Moeglich(s, schritt)
  {
    match schritt
    case Aufruf(h) => s.(faeden := s.faeden + [Neu(h)])
    case Eintritt(t) =>
      var h := s.faeden[t].hash;
      if Stelle(s.cache, h).Some? then s.(faeden := Faeden(s, t, Zurueck(h, ImCache(s, h))))
      else if h in s.laeuft then s.(faeden := Faeden(s, t, Wartet(h, s.laeuft[h])))
      else s.(faeden := Faeden(s, t, Laedt(h, s.ereignisse)), laeuft := s.laeuft[h := s.ereignisse], ereignisse := s.ereignisse + 1)
    case Geladen(t, roh) =>
      var f := s.faeden[t];
      s.(faeden := Faeden(s, t, Geholt(f.hash, f.ereignis, roh)), erzeugt := s.erzeugt + {Paar(f.hash, roh)})
    case Gescheitert(t) => s.(faeden := Faeden(s, t, Raeumt(s.faeden[t].hash, s.faeden[t].ereignis, Ausnahme)))
    case Merkt(t) =>
      var f := s.faeden[t];
      s.(faeden := Faeden(s, t, Raeumt(f.hash, f.ereignis, Erhalten(f.roh))), cache := Gemerkt(s.cache, f.hash, f.roh))
    case Raeumen(t) =>
      var f := s.faeden[t];
      s.(faeden := Faeden(s, t, Weckt(f.hash, f.ereignis, f.ergebnis)), laeuft := s.laeuft - {f.hash})
    case Wecken(t) =>
      var f := s.faeden[t];
      s.(faeden := Faeden(s, t, Zurueck(f.hash, f.ergebnis)), gesetzt := s.gesetzt + {f.ereignis})
    case Aufwachen(t) => s.(faeden := Faeden(s, t, Erwacht(s.faeden[t].hash)))
    case Zeitablauf(t) => s.(faeden := Faeden(s, t, Zurueck(s.faeden[t].hash, Ausnahme)))
    case Lesen(t) => s.(faeden := Faeden(s, t, Zurueck(s.faeden[t].hash, ImCache(s, s.faeden[t].hash))))
    case FremdGemerkt(h, roh) => s.(cache := Gemerkt(s.cache, h, roh), erzeugt := s.erzeugt + {Paar(h, roh)})
  }

  // -------------------------------------------------------------------- the invariant

  /** The call owns the mark of its hash. */
  predicate Haelt(f: Faden) { f.Laedt? || f.Geholt? || f.Raeumt? }

  /** The call will still set its event. */
  predicate WirdWecken(f: Faden) { Haelt(f) || f.Weckt? }

  /** Marks and their downloaders belong together, one to one. */
  ghost predicate MarkenEcht(s: Zustand) {
    && (forall t :: 0 <= t < |s.faeden| && Haelt(s.faeden[t]) ==>
          s.faeden[t].hash in s.laeuft && s.laeuft[s.faeden[t].hash] == s.faeden[t].ereignis)
    && (forall h :: h in s.laeuft ==> HatHalter(s, h))
  }

  /** Every call that will set an event has one of its own. */
  ghost predicate EreignisseEigen(s: Zustand) {
    && (forall t :: 0 <= t < |s.faeden| && WirdWecken(s.faeden[t]) ==> s.faeden[t].ereignis < s.ereignisse)
    && (forall t, u :: 0 <= t < u < |s.faeden| && WirdWecken(s.faeden[t]) && WirdWecken(s.faeden[u]) ==> s.faeden[t].ereignis != s.faeden[u].ereignis)
  }

  /** Nobody waits for an event that nobody will set. */
  ghost predicate KeinerVergessen(s: Zustand) {
    forall t :: 0 <= t < |s.faeden| && s.faeden[t].Wartet? ==> s.faeden[t].ereignis in s.gesetzt || WirdGesetzt(s, s.faeden[t].ereignis)
  }

  ghost predicate WirdGesetzt(s: Zustand, e: nat) {
    exists u :: 0 <= u < |s.faeden| && WirdWecken(s.faeden[u]) && s.faeden[u].ereignis == e
  }

  function Inhalt(f: Faden): Option<Paar> {
    match f
    case Geholt(h, _, roh) => Some(Paar(h, roh))
    case Raeumt(h, _, Erhalten(roh)) => Some(Paar(h, roh))
    case Weckt(h, _, Erhalten(roh)) => Some(Paar(h, roh))
    case Zurueck(h, Erhalten(roh)) => Some(Paar(h, roh))
    case _ => None
  }

  /** Bytes come from a completed download of their hash. */
  ghost predicate BytesEcht(s: Zustand) {
    && Ordentlich(s.cache) && (forall p :: p in s.cache ==> p in s.erzeugt)
    && (forall t :: 0 <= t < |s.faeden| && Inhalt(s.faeden[t]).Some? ==> Inhalt(s.faeden[t]).value in s.erzeugt)
  }

  ghost predicate Inv(s: Zustand) { MarkenEcht(s) && EreignisseEigen(s) && KeinerVergessen(s) && BytesEcht(s) }

  lemma BytesBleiben(s: Zustand, schritt: Schritt)
    requires BytesEcht(s) && Moeglich(s, schritt)
    ensures BytesEcht(Nach(s, schritt))
  {
    match schritt
    case Merkt(t) =>
      var f := s.faeden[t];
      assert Inhalt(f).value in s.erzeugt;
      if f.hash != "" && f.roh != [] { MerkenGenau(s.cache, f.hash, f.roh); }
    case FremdGemerkt(h, roh) => if h != "" && roh != [] { MerkenGenau(s.cache, h, roh); }
    case Raeumen(t) => assert Inhalt(Nach(s, schritt).faeden[t]) == Inhalt(s.faeden[t]);
    case Wecken(t) => assert Inhalt(Nach(s, schritt).faeden[t]) == Inhalt(s.faeden[t]);
    case Eintritt(t) => var i := Stelle(s.cache, s.faeden[t].hash); assert i.Some? ==> s.cache[i.value] in s.cache;
    case Lesen(t) => var i := Stelle(s.cache, s.faeden[t].hash); assert i.Some? ==> s.cache[i.value] in s.cache;
    case _ =>
  }

  /** A step gives a call no new event but a fresh one. */
  lemma EreignisHerkunft(s: Zustand, schritt: Schritt, t: nat)
    requires EreignisseEigen(s) && Moeglich(s, schritt) && t < |Nach(s, schritt).faeden| && WirdWecken(Nach(s, schritt).faeden[t])
    ensures var n := Nach(s, schritt);
            && n.faeden[t].ereignis < n.ereignisse && s.ereignisse <= n.ereignisse
            && (if schritt == Eintritt(t) then n.faeden[t].ereignis == s.ereignisse
                else t < |s.faeden| && WirdWecken(s.faeden[t]) && n.faeden[t].ereignis == s.faeden[t].ereignis < s.ereignisse)
  {}

  lemma EreignisseBleiben(s: Zustand, schritt: Schritt)
    requires EreignisseEigen(s) && Moeglich(s, schritt)
    ensures EreignisseEigen(Nach(s, schritt))
  {
    var n := Nach(s, schritt);
    forall t | 0 <= t < |n.faeden| && WirdWecken(n.faeden[t]) ensures n.faeden[t].ereignis < n.ereignisse { EreignisHerkunft(s, schritt, t); }
    forall t, u | 0 <= t < u < |n.faeden| && WirdWecken(n.faeden[t]) && WirdWecken(n.faeden[u]) ensures n.faeden[t].ereignis != n.faeden[u].ereignis {
      EreignisHerkunft(s, schritt, t);
      EreignisHerkunft(s, schritt, u);
    }
  }

  /** Two calls never own the mark of the same hash: at most one download per block runs at a time. */
  lemma HoechstensEiner(s: Zustand, t: nat, u: nat)
    requires MarkenEcht(s) && EreignisseEigen(s) && t < |s.faeden| && u < |s.faeden|
    requires Haelt(s.faeden[t]) && Haelt(s.faeden[u]) && s.faeden[t].hash == s.faeden[u].hash
    ensures t == u
  {}

  lemma HalterBleiben(s: Zustand, schritt: Schritt, u: nat)
    requires MarkenEcht(s) && EreignisseEigen(s) && Moeglich(s, schritt) && u < |Nach(s, schritt).faeden| && Haelt(Nach(s, schritt).faeden[u])
    ensures var n := Nach(s, schritt); n.faeden[u].hash in n.laeuft && n.laeuft[n.faeden[u].hash] == n.faeden[u].ereignis
  {
    if schritt.Raeumen? && u != schritt.t && s.faeden[u].hash == s.faeden[schritt.t].hash { HoechstensEiner(s, u, schritt.t); }
  }

  lemma MarkenBleiben(s: Zustand, schritt: Schritt)
    requires MarkenEcht(s) && EreignisseEigen(s) && Moeglich(s, schritt)
    ensures MarkenEcht(Nach(s, schritt))
  {
    var n := Nach(s, schritt);
    forall u | 0 <= u < |n.faeden| && Haelt(n.faeden[u]) ensures n.faeden[u].hash in n.laeuft && n.laeuft[n.faeden[u].hash] == n.faeden[u].ereignis {
      HalterBleiben(s, schritt, u);
    }
    forall h | h in n.laeuft ensures HatHalter(n, h) { MarkeBehaeltHalter(s, schritt, h); }
  }

  ghost predicate HatHalter(s: Zustand, h: Hash) { exists t :: 0 <= t < |s.faeden| && Haelt(s.faeden[t]) && s.faeden[t].hash == h }

  lemma MarkeBehaeltHalter(s: Zustand, schritt: Schritt, h: Hash)
    requires MarkenEcht(s) && Moeglich(s, schritt) && h in Nach(s, schritt).laeuft
    ensures HatHalter(Nach(s, schritt), h)
  {
    var n := Nach(s, schritt);
    if h in s.laeuft {
      assert HatHalter(s, h);
      var u :| 0 <= u < |s.faeden| && Haelt(s.faeden[u]) && s.faeden[u].hash == h;
      assert Haelt(n.faeden[u]) && n.faeden[u].hash == h;
    } else {
      assert Haelt(n.faeden[schritt.t]);
    }
  }

  lemma KeinerBleibtVergessen(s: Zustand, schritt: Schritt)
    requires KeinerVergessen(s) && MarkenEcht(s) && Moeglich(s, schritt)
    ensures KeinerVergessen(Nach(s, schritt))
  {
    var n := Nach(s, schritt);
    forall t | 0 <= t < |n.faeden| && n.faeden[t].Wartet? ensures n.faeden[t].ereignis in n.gesetzt || WirdGesetzt(n, n.faeden[t].ereignis) {
      var e := n.faeden[t].ereignis;
      if schritt.Eintritt? && schritt.t == t {
        var h := s.faeden[t].hash;
        assert HatHalter(s, h);
        var u :| 0 <= u < |s.faeden| && Haelt(s.faeden[u]) && s.faeden[u].hash == h;
        assert WirdWecken(n.faeden[u]) && n.faeden[u].ereignis == e;
      } else if e !in s.gesetzt {
        var u :| 0 <= u < |s.faeden| && WirdWecken(s.faeden[u]) && s.faeden[u].ereignis == e;
        assert e in n.gesetzt || (WirdWecken(n.faeden[u]) && n.faeden[u].ereignis == e);
      }
    }
  }

  lemma InvBleibt(s: Zustand, schritt: Schritt)
    requires Inv(s) && Moeglich(s, schritt)
    ensures Inv(Nach(s, schritt))
  {
    BytesBleiben(s, schritt);
    EreignisseBleiben(s, schritt);
    MarkenBleiben(s, schritt);
    KeinerBleibtVergessen(s, schritt);
  }

  // -------------------------------------------------------------------------- runs

  ghost predicate Lauf(s: Zustand, plan: seq<Schritt>, t: Zustand)
    decreases |plan|
  {
    if plan == [] then t == s else Moeglich(s, plan[0]) && Lauf(Nach(s, plan[0]), plan[1..], t)
  }

  lemma {:induction false} LaufInv(s: Zustand, plan: seq<Schritt>, t: Zustand)
    requires Inv(s) && Lauf(s, plan, t)
    ensures Inv(t)
    decreases |plan|
  {
    if plan != [] {
      InvBleibt(s, plan[0]);
      LaufInv(Nach(s, plan[0]), plan[1..], t);
    }
  }

  /**
   * Every interleaving of any calls: never two downloads of one block at once; a call that returns bytes
   * returns what some download of that very block produced; a mark lasts only as long as its downloader,
   * even one that fails; the cache has at most 64 entries; nobody waits for an event that will not come.
   */
  lemma JederLauf(plan: seq<Schritt>, s: Zustand)
    requires Lauf(START, plan, s)
    ensures forall h, t, u :: BeideLaden(s, h, t, u) ==> t == u
    ensures forall t :: 0 <= t < |s.faeden| && s.faeden[t].Zurueck? && s.faeden[t].ergebnis.Erhalten? ==>
              Paar(s.faeden[t].hash, s.faeden[t].ergebnis.roh) in s.erzeugt
    ensures forall h :: h in s.laeuft ==> HatHalter(s, h)
    ensures (forall t :: 0 <= t < |s.faeden| ==> !Haelt(s.faeden[t])) ==> s.laeuft == map[]
    ensures |s.cache| <= 64 && KeinerVergessen(s)
  {
    LaufInv(START, plan, s);
    forall h, t, u | BeideLaden(s, h, t, u) ensures t == u { HoechstensEiner(s, t, u); }
    forall t | 0 <= t < |s.faeden| && s.faeden[t].Zurueck? && s.faeden[t].ergebnis.Erhalten?
      ensures Paar(s.faeden[t].hash, s.faeden[t].ergebnis.roh) in s.erzeugt
    {
      assert Inhalt(s.faeden[t]).Some?;
    }
  }

  /** Both calls are downloading this block. */
  predicate BeideLaden(s: Zustand, h: Hash, t: int, u: int) {
    0 <= t < |s.faeden| && 0 <= u < |s.faeden| && s.faeden[t].Laedt? && s.faeden[u].Laedt? && s.faeden[t].hash == h == s.faeden[u].hash
  }

  /** How the download of this call ended, until it returns. */
  function Ausgang(f: Faden): Option<Ergebnis> {
    match f
    case Geholt(_, _, roh) => Some(Erhalten(roh))
    case Raeumt(_, _, e) => Some(e)
    case Weckt(_, _, e) => Some(e)
    case Zurueck(_, e) => Some(e)
    case _ => None
  }

  lemma {:induction false} AusgangBleibt(s: Zustand, plan: seq<Schritt>, u: Zustand, t: nat)
    requires Lauf(s, plan, u) && t < |s.faeden| && Ausgang(s.faeden[t]).Some?
    ensures t < |u.faeden| && Ausgang(u.faeden[t]) == Ausgang(s.faeden[t]) && u.faeden[t].hash == s.faeden[t].hash
    decreases |plan|
  {
    if plan != [] { AusgangBleibt(Nach(s, plan[0]), plan[1..], u, t); }
  }

  /**
   * Whatever the other calls do meanwhile, a call that has downloaded returns its own bytes, also when they
   * are not kept, and one whose download failed raises.
   */
  lemma LadenderErhaelt(s: Zustand, t: nat, ende: Schritt, plan: seq<Schritt>, u: Zustand)
    requires (ende.Geladen? || ende.Gescheitert?) && ende.t == t && Moeglich(s, ende) && Lauf(Nach(s, ende), plan, u)
    ensures t < |u.faeden| && u.faeden[t].hash == s.faeden[t].hash
    ensures u.faeden[t].Zurueck? ==> u.faeden[t].ergebnis == if ende.Geladen? then Erhalten(ende.roh) else Ausnahme
  {
    AusgangBleibt(Nach(s, ende), plan, u, t);
  }

  /** A call for a remembered block returns at once; one for a block being downloaded waits; only another one downloads. */
  lemma EintrittGenau(s: Zustand, t: nat)
    requires Inv(s) && Moeglich(s, Eintritt(t))
    ensures forall p :: p in s.cache && p.hash == s.faeden[t].hash ==> Nach(s, Eintritt(t)).faeden[t] == Zurueck(p.hash, Erhalten(p.roh))
    ensures Nach(s, Eintritt(t)).faeden[t].Laedt? <==>
            (forall p :: p in s.cache ==> p.hash != s.faeden[t].hash) && !HatHalter(s, s.faeden[t].hash)
  {
    var h := s.faeden[t].hash;
    var r := Stelle(s.cache, h);
    forall p | p in s.cache && p.hash == h ensures r.Some? && s.cache[r.value] == p {
      var j :| 0 <= j < |s.cache| && s.cache[j] == p;
    }
    assert r.Some? ==> s.cache[r.value] in s.cache;
    assert HatHalter(s, h) <==> h in s.laeuft;
  }

  /** A waiter that wakes gets the bytes exactly when they are still in the cache. */
  lemma WaerterGenau(s: Zustand, t: nat)
    requires Inv(s) && Moeglich(s, Lesen(t))
    ensures Nach(s, Lesen(t)).faeden[t].ergebnis.Erhalten? <==> exists p :: p in s.cache && p.hash == s.faeden[t].hash
    ensures forall p :: p in s.cache && p.hash == s.faeden[t].hash ==> Nach(s, Lesen(t)).faeden[t] == Zurueck(p.hash, Erhalten(p.roh))
  {
    var h := s.faeden[t].hash;
    var r := Stelle(s.cache, h);
    forall p | p in s.cache && p.hash == h ensures r.Some? && s.cache[r.value] == p {
      var j :| 0 <= j < |s.cache| && s.cache[j] == p;
    }
    assert r.Some? ==> s.cache[r.value] in s.cache;
  }
}
