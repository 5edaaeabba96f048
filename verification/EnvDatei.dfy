/** The line-preserving editor of the configuration file (core/config.py, `EnvFile`, lines 1392-1526). */
module EnvDatei {
  import opened Ordnung
  import opened EnvZeile

  /** How a line is taken apart; the proofs below hold for any way. */
  type Zerlegung = string -> Option<Zuweisung>

  predicate Vergibt(z: Zerlegung, line: string, key: string) { z(line).Some? && z(line).value.key == key }

  /** `values`: later lines override earlier ones. */
  function Werte(z: Zerlegung, lines: seq<string>): map<string, string> {
    if lines == [] then map[]
    else
      var vor := Werte(z, lines[..|lines| - 1]);
      match z(lines[|lines| - 1]) case None => vor case Some(x) => vor[x.key := x.wert]
  }

  function LetzteStelle(z: Zerlegung, lines: seq<string>, key: string): (r: Option<nat>)
    ensures r.Some? ==> r.value < |lines| && Vergibt(z, lines[r.value], key)
    ensures forall i :: (if r.Some? then r.value + 1 else 0) <= i < |lines| ==> !Vergibt(z, lines[i], key)
  {
    if lines == [] then None
    else if Vergibt(z, lines[|lines| - 1], key) then Some(|lines| - 1)
    else LetzteStelle(z, lines[..|lines| - 1], key)
  }

  /** What is put before the first key the program adds. */
  function Anhang(leer: string -> bool, lines: seq<string>): seq<string> {
    if ANHANG_MARKER in lines then []
    else if lines != [] && !leer(lines[|lines| - 1]) then ["", ANHANG_MARKER]
    else [ANHANG_MARKER]
  }

  function Gesetzt(z: Zerlegung, leer: string -> bool, lines: seq<string>, key: string, neu: string): seq<string> {
    match LetzteStelle(z, lines, key)
    case Some(i) => lines[i := neu]
    case None => lines + Anhang(leer, lines) + [neu]
  }

  /** The lines that assign none of these keys, in their order. */
  function Andere(z: Zerlegung, keys: set<string>, lines: seq<string>): seq<string> {
    if lines == [] then []
    else
      var vor, l := Andere(z, keys, lines[..|lines| - 1]), lines[|lines| - 1];
      if z(l).Some? && z(l).value.key in keys then vor else vor + [l]
  }

  datatype Aenderung = Aenderung(key: string, wert: Option<string>)

  function Angewandt(z: Zerlegung, leer: string -> bool, lines: seq<string>, updates: seq<Aenderung>): seq<string> {
    if updates == [] then lines
    else
      var vor, u := Angewandt(z, leer, lines, updates[..|updates| - 1]), updates[|updates| - 1];
      match u.wert
      case None => Andere(z, {u.key}, vor)
      case Some(w) => Gesetzt(z, leer, vor, u.key, Zeile(u.key, w))
  }

  predicate NurWeiss(line: string) { Strip(Weiss, line) == "" }

  lemma NurWeissGenau(line: string)
    ensures NurWeiss(line) <==> Leerraum(line)
  {
    if Leerraum(line) {
      OhneVornLeer(line, "");
      assert line + "" == line;
    }
    if NurWeiss(line) { StripLeer(line); }
  }

  /** Nothing but blanks can be stripped. */
  lemma {:induction false} StripLeer(s: string)
    requires Strip(Weiss, s) == ""
    ensures Leerraum(s)
  {
    if s != "" {
      if Weiss(s[0]) {
        StripLeer(s[1..]);
        assert s == [s[0]] + s[1..];
      } else {
        OhneHintenErstes(s);
      }
    }
  }

  /** The editor: every change touches the lines of its key alone. */
  class EnvFile {
    var lines: seq<string>

    constructor (lines: seq<string>)
      ensures this.lines == lines
    {
      this.lines := lines;
    }

    method Values() returns (result: map<string, string>)
      ensures result == Werte(Split, lines)
    {
      result := map[];
      for i := 0 to |lines|
        invariant result == Werte(Split, lines[..i])
      {
        assert lines[..i + 1][..i] == lines[..i];
        var paar := Split(lines[i]);
        if paar.Some? { result := result[paar.value.key := paar.value.wert]; }
      }
      assert lines[..|lines|] == lines;
    }

    method IndexOf(key: string) returns (treffer: Option<nat>)
      ensures treffer == LetzteStelle(Split, lines, key)
    {
      treffer := None;
      var z: Zerlegung := Split;
      for i := 0 to |lines|
        invariant treffer == LetzteStelle(z, lines[..i], key)
      {
        assert lines[..i + 1][..i] == lines[..i];
        if Vergibt(z, lines[i], key) { treffer := Some(i); }
      }
      assert lines[..|lines|] == lines;
    }

    method Set(key: string, value: string)
      modifies this
      ensures lines == Gesetzt(Split, NurWeiss, old(lines), key, Zeile(key, value))
    {
      var neueZeile := Zeile(key, value);
      var stelle := IndexOf(key);
      if stelle.Some? {
        lines := lines[stelle.value := neueZeile];
        return;
      }
      if ANHANG_MARKER !in lines {
        if lines != [] && !NurWeiss(lines[|lines| - 1]) { lines := lines + [""]; }
        lines := lines + [ANHANG_MARKER];
      }
      lines := lines + [neueZeile];
      assert lines == old(lines) + Anhang(NurWeiss, old(lines)) + [neueZeile];
    }

    method Unset(key: string)
      modifies this
      ensures lines == Andere(Split, {key}, old(lines))
    {
      var rest := [];
      for i := 0 to |lines|
        invariant rest == Andere(Split, {key}, lines[..i]) && lines == old(lines)
      {
        assert lines[..i + 1][..i] == lines[..i];
        var paar := Split(lines[i]);
        if !(paar.Some? && paar.value.key == key) { rest := rest + [lines[i]]; }
      }
      assert lines[..|lines|] == lines;
      lines := rest;
    }

    method Apply(updates: seq<Aenderung>)
      modifies this
      ensures lines == Angewandt(Split, NurWeiss, old(lines), updates)
    {
      for i := 0 to |updates|
        invariant lines == Angewandt(Split, NurWeiss, old(lines), updates[..i])
      {
        assert updates[..i + 1][..i] == updates[..i];
        if updates[i].wert.None? { Unset(updates[i].key); } else { Set(updates[i].key, updates[i].wert.value); }
      }
      assert updates[..|updates|] == updates;
    }
  }

  // ------------------------------------------------------------- what an edit changes

  /** Lines the editor adds on its own are no assignments. */
  ghost predicate MarkerFrei(z: Zerlegung) { z(ANHANG_MARKER).None? && z("").None? }

  lemma WerteVerketten(z: Zerlegung, a: seq<string>, b: string)
    ensures Werte(z, a + [b]) == match z(b) case None => Werte(z, a) case Some(x) => Werte(z, a)[x.key := x.wert]
  {
    assert (a + [b])[..|a|] == a;
  }

  /** Replacing the last line of a key sets its value and no other. */
  lemma {:induction false} WerteErsetzt(z: Zerlegung, lines: seq<string>, i: nat, neu: string, key: string, wert: string)
    requires i < |lines| && Vergibt(z, lines[i], key) && (forall j :: i < j < |lines| ==> !Vergibt(z, lines[j], key))
    requires z(neu) == Some(Zuweisung(key, wert))
    ensures Werte(z, lines[i := neu]) == Werte(z, lines)[key := wert]
  {
    var n := |lines| - 1;
    if i == n {
      assert lines[i := neu][..n] == lines[..n];
    } else {
      WerteErsetzt(z, lines[..n], i, neu, key, wert);
      assert lines[i := neu][..n] == lines[..n][i := neu];
      assert !Vergibt(z, lines[n], key);
    }
  }

  lemma WerteAnhang(z: Zerlegung, leer: string -> bool, lines: seq<string>)
    requires MarkerFrei(z)
    ensures Werte(z, lines + Anhang(leer, lines)) == Werte(z, lines)
  {
    var a := Anhang(leer, lines);
    if a == [] { assert lines + a == lines; }
    else if |a| == 1 { WerteVerketten(z, lines, a[0]); }
    else {
      WerteVerketten(z, lines, a[0]);
      WerteVerketten(z, lines + [a[0]], a[1]);
      assert lines + a == lines + [a[0]] + [a[1]];
    }
  }

  /** `set`: the key has the value, every other key what it had. */
  lemma WerteGesetzt(z: Zerlegung, leer: string -> bool, lines: seq<string>, key: string, neu: string, wert: string)
    requires MarkerFrei(z) && z(neu) == Some(Zuweisung(key, wert))
    ensures Werte(z, Gesetzt(z, leer, lines, key, neu)) == Werte(z, lines)[key := wert]
  {
    match LetzteStelle(z, lines, key)
    case Some(i) => WerteErsetzt(z, lines, i, neu, key, wert);
    case None =>
      WerteAnhang(z, leer, lines);
      WerteVerketten(z, lines + Anhang(leer, lines), neu);
  }

  /** `unset`: the keys are gone, every other key keeps its value. */
  lemma {:induction false} WerteOhne(z: Zerlegung, keys: set<string>, lines: seq<string>)
    ensures Werte(z, Andere(z, keys, lines)) == Werte(z, lines) - keys
  {
    if lines != [] {
      var vor, l := lines[..|lines| - 1], lines[|lines| - 1];
      WerteOhne(z, keys, vor);
      WerteVerketten(z, Andere(z, keys, vor), l);
    }
  }

  // ----------------------------------------------------------------- what an edit keeps

  lemma {:induction false} AndereVerketten(z: Zerlegung, keys: set<string>, a: seq<string>, b: seq<string>)
    ensures Andere(z, keys, a + b) == Andere(z, keys, a) + Andere(z, keys, b)
  {
    if b == [] { assert a + b == a; } else {
      AndereVerketten(z, keys, a, b[..|b| - 1]);
      assert (a + b)[..|a + b| - 1] == a + b[..|b| - 1];
    }
  }

  lemma {:induction false} AndereErsetzt(z: Zerlegung, keys: set<string>, lines: seq<string>, i: nat, neu: string, key: string)
    requires i < |lines| && key in keys && Vergibt(z, lines[i], key) && Vergibt(z, neu, key)
    ensures Andere(z, keys, lines[i := neu]) == Andere(z, keys, lines)
  {
    var n := |lines| - 1;
    if i == n { assert lines[i := neu][..n] == lines[..n]; } else {
      AndereErsetzt(z, keys, lines[..n], i, neu, key);
      assert lines[i := neu][..n] == lines[..n][i := neu];
    }
  }

  lemma {:induction false} AndereZweimal(z: Zerlegung, keys: set<string>, mehr: set<string>, lines: seq<string>)
    requires keys <= mehr
    ensures Andere(z, mehr, Andere(z, keys, lines)) == Andere(z, mehr, lines)
  {
    if lines != [] {
      var vor := lines[..|lines| - 1];
      AndereZweimal(z, keys, mehr, vor);
      var a := Andere(z, keys, vor);
      assert (a + [lines[|lines| - 1]])[..|a|] == a;
    }
  }

  lemma {:induction false} AndereEnthaelt(z: Zerlegung, keys: set<string>, lines: seq<string>, l: string)
    requires l in lines && z(l).None?
    ensures l in Andere(z, keys, lines)
  {
    var n := |lines| - 1;
    if lines[n] != l {
      assert lines == lines[..n] + [lines[n]];
      AndereEnthaelt(z, keys, lines[..n], l);
    }
  }

  lemma AndereEine(z: Zerlegung, keys: set<string>, l: string)
    ensures Andere(z, keys, [l]) == if z(l).Some? && z(l).value.key in keys then [] else [l]
  {
    assert [l][..0] == [];
  }

  lemma AndereAnhang(z: Zerlegung, leer: string -> bool, keys: set<string>, lines: seq<string>)
    requires MarkerFrei(z)
    ensures Andere(z, keys, Anhang(leer, lines)) == Anhang(leer, lines)
  {
    AndereEine(z, keys, "");
    AndereEine(z, keys, ANHANG_MARKER);
    AndereVerketten(z, keys, [""], [ANHANG_MARKER]);
    assert [""] + [ANHANG_MARKER] == ["", ANHANG_MARKER];
  }

  /** One edit keeps comments and the lines of all other keys in order; it may put its marker after them. */
  lemma AndereGesetzt(z: Zerlegung, leer: string -> bool, keys: set<string>, lines: seq<string>, key: string, neu: string)
    requires MarkerFrei(z) && key in keys && Vergibt(z, neu, key)
    ensures Andere(z, keys, Gesetzt(z, leer, lines, key, neu))
            == Andere(z, keys, lines) + if LetzteStelle(z, lines, key).Some? then [] else Anhang(leer, lines)
  {
    match LetzteStelle(z, lines, key)
    case Some(i) => AndereErsetzt(z, keys, lines, i, neu, key);
    case None =>
      AndereVerketten(z, keys, lines, Anhang(leer, lines));
      AndereVerketten(z, keys, lines + Anhang(leer, lines), [neu]);
      AndereAnhang(z, leer, keys, lines);
      AndereEine(z, keys, neu);
  }

  // ----------------------------------------------------------------- a whole update

  /** The written line of this change is read as one of its key. */
  predicate Lesbar(z: Zerlegung, u: Aenderung) { u.wert.Some? ==> Vergibt(z, Zeile(u.key, u.wert.value), u.key) }

  ghost predicate Verschieden(updates: seq<Aenderung>) { forall i, j :: 0 <= i < j < |updates| ==> updates[i].key != updates[j].key }

  /** The change as a reader sees it: the value its written line gives. */
  predicate Wirkt(z: Zerlegung, neu: map<string, string>, u: Aenderung) {
    match u.wert
    case None => u.key !in neu
    case Some(w) => u.key in neu && z(Zeile(u.key, w)) == Some(Zuweisung(u.key, neu[u.key]))
  }

  /** The values after an update, seen as a dictionary. */
  ghost predicate WerteNach(z: Zerlegung, neu: map<string, string>, alt: map<string, string>, updates: seq<Aenderung>) {
    && (forall u :: u in updates ==> Wirkt(z, neu, u))
    && (forall k :: (forall u :: u in updates ==> u.key != k) ==> (k in neu <==> k in alt) && (k in neu ==> neu[k] == alt[k]))
  }

  lemma WerteNachSchritt(z: Zerlegung, m: map<string, string>, alt: map<string, string>, vor: seq<Aenderung>, u: Aenderung, w: string)
    requires WerteNach(z, m, alt, vor) && Verschieden(vor + [u])
    requires u.wert.Some? ==> z(Zeile(u.key, u.wert.value)) == Some(Zuweisung(u.key, w))
    ensures WerteNach(z, if u.wert.Some? then m[u.key := w] else m - {u.key}, alt, vor + [u])
  {
    var ups := vor + [u];
    assert ups[|vor|] == u;
    forall x | x in vor ensures x.key != u.key && x in ups {
      var i :| 0 <= i < |vor| && vor[i] == x;
      assert ups[i] == x;
    }
    forall x | x in ups ensures x in vor || x == u {}
    assert u in ups;
  }

  /** `apply`: each key of the update has the value of its written line or is gone, all others keep theirs. */
  lemma {:induction false} WerteAngewandt(z: Zerlegung, leer: string -> bool, lines: seq<string>, updates: seq<Aenderung>)
    requires MarkerFrei(z) && Verschieden(updates) && forall u :: u in updates ==> Lesbar(z, u)
    ensures WerteNach(z, Werte(z, Angewandt(z, leer, lines, updates)), Werte(z, lines), updates)
  {
    if updates != [] {
      var vor, u := updates[..|updates| - 1], updates[|updates| - 1];
      WerteAngewandt(z, leer, lines, vor);
      assert updates == vor + [u] && u in updates && Lesbar(z, u);
      var dann := Angewandt(z, leer, lines, vor);
      var w := if u.wert.Some? then z(Zeile(u.key, u.wert.value)).value.wert else "";
      if u.wert.Some? { WerteGesetzt(z, leer, dann, u.key, Zeile(u.key, u.wert.value), w); } else { WerteOhne(z, {u.key}, dann); }
      WerteNachSchritt(z, Werte(z, dann), Werte(z, lines), vor, u, w);
    }
  }

  ghost predicate AlsAnhang(a: seq<string>) { a == [] || a == [ANHANG_MARKER] || a == ["", ANHANG_MARKER] }

  lemma {:induction false} AndereTeil(z: Zerlegung, keys: set<string>, lines: seq<string>, l: string)
    requires l in Andere(z, keys, lines)
    ensures l in lines
  {
    if lines != [] {
      var vor := lines[..|lines| - 1];
      assert lines == vor + [lines[|lines| - 1]];
      if l in Andere(z, keys, vor) { AndereTeil(z, keys, vor, l); }
    }
  }

  /**
   * `apply`: every line that assigns none of the keys, comments included, survives in its order; at most the
   * marker comment, after a blank line, is put behind them, once.
   */
  lemma {:induction false} AndereAngewandt(z: Zerlegung, leer: string -> bool, keys: set<string>, lines: seq<string>, updates: seq<Aenderung>)
    returns (a: seq<string>)
    requires MarkerFrei(z) && forall u :: u in updates ==> u.key in keys && Lesbar(z, u)
    ensures AlsAnhang(a) && Andere(z, keys, Angewandt(z, leer, lines, updates)) == Andere(z, keys, lines) + a
    ensures ANHANG_MARKER in lines ==> a == []
  {
    a := [];
    if updates != [] {
      var vor, u := updates[..|updates| - 1], updates[|updates| - 1];
      assert updates == vor + [u] && u in updates;
      a := AndereAngewandt(z, leer, keys, lines, vor);
      var dann := Angewandt(z, leer, lines, vor);
      if u.wert.None? {
        AndereZweimal(z, {u.key}, keys, dann);
      } else {
        AndereGesetzt(z, leer, keys, dann, u.key, Zeile(u.key, u.wert.value));
        if LetzteStelle(z, dann, u.key).None? {
          if ANHANG_MARKER in lines { AndereEnthaelt(z, keys, lines, ANHANG_MARKER); }
          if a != [] || ANHANG_MARKER in lines {
            assert ANHANG_MARKER in Andere(z, keys, dann);
            AndereTeil(z, keys, dann, ANHANG_MARKER);
          } else {
            a := Anhang(leer, dann);
          }
        }
      }
    }
  }
}
