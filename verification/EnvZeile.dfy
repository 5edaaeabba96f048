/** The text of one line of the configuration file (core/config.py, `EnvFile._split`, lines 1442-1449). */
module EnvZeile {
  import opened Ordnung

  // ------------------------------------------------------------------------ text

  /** What `str.strip()` takes for white space. */
  predicate Weiss(c: char) {
    '\t' <= c <= '\r' || '\U{1c}' <= c <= ' ' || c == '\U{85}' || c == '\U{a0}' || c == '\U{1680}' || '\U{2000}' <= c <= '\U{200a}'
    || c == '\U{2028}' || c == '\U{2029}' || c == '\U{202f}' || c == '\U{205f}' || c == '\U{3000}'
  }

  /** Where `str.splitlines()` breaks; a carriage return before a newline counts with it. */
  predicate Umbruch(c: char) {
    '\n' <= c <= '\r' || '\U{1c}' <= c <= '\U{1e}' || c == '\U{85}' || c == '\U{2028}' || c == '\U{2029}'
  }

  /** The ten line breaks of Python's strings, and the nineteen other white space characters. */
  lemma LeerzeichenGenau(c: char)
    ensures Umbruch(c) <==> c in ['\n', '\U{b}', '\U{c}', '\r', '\U{1c}', '\U{1d}', '\U{1e}', '\U{85}', '\U{2028}', '\U{2029}']
    ensures Weiss(c) <==>
            (Umbruch(c) || c in ['\t', '\U{1f}', ' ', '\U{a0}', '\U{1680}', '\U{202f}', '\U{205f}', '\U{3000}'] || 0x2000 <= c as int <= 0x200a)
  {}

  predicate Einzeilig(s: string) { forall i :: 0 <= i < |s| ==> !Umbruch(s[i]) }

  predicate Doppelt(c: char) { c == '"' }

  predicate Einfach(c: char) { c == '\'' }

  function OhneVorn(p: char -> bool, s: string): (r: string)
    ensures |r| <= |s|
  {
    if s != "" && p(s[0]) then OhneVorn(p, s[1..]) else s
  }

  function OhneHinten(p: char -> bool, s: string): (r: string)
    ensures |r| <= |s| && r == s[..|r|]
  {
    if s != "" && p(s[|s| - 1]) then OhneHinten(p, s[..|s| - 1]) else s
  }

  function Strip(p: char -> bool, s: string): (r: string)
    ensures |r| <= |s|
  {
    OhneHinten(p, OhneVorn(p, s))
  }

  predicate Glatt(p: char -> bool, s: string) { s == "" || (!p(s[0]) && !p(s[|s| - 1])) }

  /** Stripping changes exactly the strings that begin or end with such a character. */
  lemma StripGenau(p: char -> bool, s: string)
    ensures Strip(p, s) == s <==> Glatt(p, s)
  {
    if s != "" {
      if p(s[0]) { assert |OhneVorn(p, s)| < |s|; } else { assert OhneVorn(p, s) == s; }
    }
  }

  function ErstesIst(s: string): Option<nat> {
    if s == "" then None else if s[0] == '=' then Some(0)
    else match ErstesIst(s[1..]) case None => None case Some(i) => Some(i + 1)
  }

  lemma {:induction false} KeinIst(k: string)
    requires '=' !in k
    ensures ErstesIst(k).None?
  {
    if k != "" { KeinIst(k[1..]); }
  }

  lemma {:induction false} ErstesIstNach(k: string, rest: string)
    requires '=' !in k
    ensures ErstesIst(k + "=" + rest) == Some(|k|)
  {
    if k != "" {
      ErstesIstNach(k[1..], rest);
      assert (k + "=" + rest)[1..] == k[1..] + "=" + rest;
    }
  }

  datatype Zuweisung = Zuweisung(key: string, wert: string)

  /** `_split`: comments and lines without an equals sign are no assignments. */
  function Split(line: string): Option<Zuweisung> {
    var s := Strip(Weiss, line);
    if s == "" || s[0] == '#' then None
    else match ErstesIst(s)
      case None => None
      case Some(i) =>
        if i >= |s| then None
        else Some(Zuweisung(Strip(Weiss, s[..i]), Strip(Einfach, Strip(Doppelt, Strip(Weiss, s[i + 1..])))))
  }

  /** A key as the program writes them. */
  predicate Schluessel(k: string) { k != "" && k[0] != '#' && '=' !in k && Glatt(Weiss, k) }

  /** A value without outer blanks or quotes. */
  predicate Wertfest(v: string) { Glatt(Weiss, v) && Glatt(Doppelt, v) && Glatt(Einfach, v) }

  function Zeile(k: string, v: string): string { k + "=" + v }

  /** What is read of a written value: outer blanks and quotes are gone. */
  function Ankommend(v: string): string { Strip(Einfach, Strip(Doppelt, Strip(Weiss, v))) }

  lemma AnkommendGenau(v: string)
    ensures Ankommend(v) == v <==> Wertfest(v)
  {
    StripGenau(Weiss, v);
    StripGenau(Doppelt, v);
    StripGenau(Einfach, v);
  }

  /** Behind the equals sign stripping goes no further. */
  lemma {:induction false} OhneHintenNach(k: string, v: string)
    ensures OhneHinten(Weiss, Zeile(k, v)) == Zeile(k, OhneHinten(Weiss, v))
  {
    if v != "" && Weiss(v[|v| - 1]) {
      OhneHintenNach(k, v[..|v| - 1]);
      assert Zeile(k, v)[..|Zeile(k, v)| - 1] == Zeile(k, v[..|v| - 1]);
    }
  }

  lemma {:induction false} OhneVornDavor(p: char -> bool, s: string, c: char)
    requires p(c)
    ensures OhneVorn(p, s + [c]) == if OhneVorn(p, s) == "" then "" else OhneVorn(p, s) + [c]
  {
    if s == "" { assert s + [c] == [c] && [c][1..] == ""; } else {
      OhneVornDavor(p, s[1..], c);
      assert (s + [c])[1..] == s[1..] + [c];
    }
  }

  lemma {:induction false} StripHinten(p: char -> bool, v: string)
    ensures Strip(p, OhneHinten(p, v)) == Strip(p, v)
  {
    if v != "" && p(v[|v| - 1]) {
      var vor, c := v[..|v| - 1], v[|v| - 1];
      StripHinten(p, vor);
      assert v == vor + [c];
      OhneVornDavor(p, vor, c);
      var r := OhneVorn(p, vor);
      assert (r + [c])[..|r|] == r;
    }
  }

  /** A written line reads back as its key and what is left of the value: the value itself exactly if it has no outer blanks or quotes. */
  lemma ZeileGenau(k: string, v: string)
    requires Schluessel(k)
    ensures Split(Zeile(k, v)) == Some(Zuweisung(k, Ankommend(v)))
    ensures Split(Zeile(k, v)) == Some(Zuweisung(k, v)) <==> Wertfest(v)
  {
    hide Split, Strip, Ankommend;
    SplitMitLeerraum("", k, "", v);
    assert "" + Zeile(k + "", v) == Zeile(k, v);
    AnkommendGenau(v);
  }

  // ------------------------------------------------------------------ nothing spans a line

  lemma {:induction false} OhneVornTeil(p: char -> bool, s: string)
    requires Einzeilig(s)
    ensures Einzeilig(OhneVorn(p, s))
  {
    if s != "" && p(s[0]) { OhneVornTeil(p, s[1..]); }
  }

  lemma StripTeil(p: char -> bool, s: string)
    requires Einzeilig(s)
    ensures Einzeilig(Strip(p, s))
  {
    OhneVornTeil(p, s);
  }

  lemma AnkommendTeil(v: string)
    requires Einzeilig(v)
    ensures Einzeilig(Ankommend(v))
  {
    StripTeil(Weiss, v);
    StripTeil(Doppelt, Strip(Weiss, v));
    StripTeil(Einfach, Strip(Doppelt, Strip(Weiss, v)));
  }

  lemma SplitTeil(line: string)
    requires Einzeilig(line)
    ensures Split(line).Some? ==> Einzeilig(Split(line).value.wert)
  {
    var s := Strip(Weiss, line);
    StripTeil(Weiss, line);
    if Split(line).Some? {
      var i := ErstesIst(s).value;
      AnkommendTeil(s[i + 1..]);
    }
  }

  const ANHANG_MARKER := "# --- von der Web-Oberfl\U{e4}che verwaltet ---"

  ghost predicate Leerraum(s: string) { forall c :: c in s ==> Weiss(c) }

  lemma {:induction false} OhneVornLeer(a: string, s: string)
    requires Leerraum(a)
    ensures OhneVorn(Weiss, a + s) == OhneVorn(Weiss, s)
  {
    if a == "" { assert a + s == s; } else {
      assert a[0] in a && forall c :: c in a[1..] ==> c in a;
      OhneVornLeer(a[1..], s);
      assert (a + s)[1..] == a[1..] + s;
    }
  }

  lemma {:induction false} OhneHintenLeer(s: string, b: string)
    requires Leerraum(b)
    ensures OhneHinten(Weiss, s + b) == OhneHinten(Weiss, s)
  {
    if b == "" { assert s + b == s; } else {
      var vor := b[..|b| - 1];
      assert b[|b| - 1] in b && forall c :: c in vor ==> c in b;
      OhneHintenLeer(s, vor);
      assert (s + b)[..|s + b| - 1] == s + vor;
    }
  }

  lemma SchluesselMitLeerraum(k: string, b: string)
    requires Schluessel(k) && Leerraum(b)
    ensures '=' !in k + b && Strip(Weiss, k + b) == k
  {
    assert OhneVorn(Weiss, k + b) == k + b && OhneVorn(Weiss, k) == k;
    OhneHintenLeer(k, b);
    StripGenau(Weiss, k);
    forall c | c in b ensures c != '=' {}
  }

  lemma ZeileMitLeerraum(a: string, kb: string, v: string)
    requires Leerraum(a) && kb != "" && !Weiss(kb[0])
    ensures Strip(Weiss, a + Zeile(kb, v)) == Zeile(kb, OhneHinten(Weiss, v))
  {
    OhneVornLeer(a, Zeile(kb, v));
    assert OhneVorn(Weiss, Zeile(kb, v)) == Zeile(kb, v);
    OhneHintenNach(kb, v);
  }

  /** Blanks before the key and around the equals sign do not matter. */
  lemma SplitMitLeerraum(a: string, k: string, b: string, v: string)
    requires Schluessel(k) && Leerraum(a) && Leerraum(b)
    ensures Split(a + Zeile(k + b, v)) == Some(Zuweisung(k, Ankommend(v)))
  {
    var kb, r := k + b, OhneHinten(Weiss, v);
    assert kb[0] == k[0];
    SchluesselMitLeerraum(k, b);
    ZeileMitLeerraum(a, kb, v);
    ErstesIstNach(kb, r);
    var t := Zeile(kb, r);
    assert t[0] == k[0] && t[..|kb|] == kb && t[|kb| + 1..] == r;
    StripHinten(Weiss, v);
  }

  /** A line that begins with #, whatever blanks before it, is a comment. */
  lemma KommentarKeineZuweisung(a: string, s: string)
    requires Leerraum(a) && s != "" && s[0] == '#'
    ensures Split(a + s).None?
  {
    OhneVornLeer(a, s);
    assert OhneVorn(Weiss, s) == s;
    OhneHintenErstes(s);
  }

  lemma {:induction false} OhneHintenErstes(s: string)
    requires s != "" && !Weiss(s[0])
    ensures OhneHinten(Weiss, s) != "" && OhneHinten(Weiss, s)[0] == s[0]
  {
    if |s| > 1 { OhneHintenErstes(s[..|s| - 1]); }
  }

  lemma MarkerKeineZuweisung()
    ensures Split(ANHANG_MARKER).None? && Split("").None?
  {
    KommentarKeineZuweisung("", ANHANG_MARKER);
    assert "" + ANHANG_MARKER == ANHANG_MARKER;
    assert Strip(Weiss, "") == "";
  }

  // -------------------------------------------------------------------- whole files

  /** The first line break. */
  function ErsterUmbruch(s: string): (r: nat)
    ensures r <= |s| && Einzeilig(s[..r]) && (r < |s| ==> Umbruch(s[r]))
  {
    if s == "" || Umbruch(s[0]) then 0
    else
      var r := 1 + ErsterUmbruch(s[1..]);
      assert s[..r] == [s[0]] + s[1..][..r - 1];
      r
  }

  /** `str.splitlines()` */
  function Zeilen(text: string): (r: seq<string>)
    ensures forall l :: l in r ==> Einzeilig(l)
    decreases |text|
  {
    if text == "" then []
    else
      var i := ErsterUmbruch(text);
      if i == |text| then assert text[..i] == text; [text]
      else
        var breite := if text[i] == '\r' && i + 1 < |text| && text[i + 1] == '\n' then 2 else 1;
        [text[..i]] + Zeilen(text[i + breite..])
  }

  /** Every line with its newline. */
  function Verbunden(lines: seq<string>): string { if lines == [] then "" else lines[0] + "\n" + Verbunden(lines[1..]) }

  /** `render`: the lines joined by newlines, and one at the end. */
  function Render(lines: seq<string>): string { if lines == [] then "\n" else Verbunden(lines) }

  lemma {:induction false} ErsterUmbruchNach(l: string, c: char, rest: string)
    requires Einzeilig(l) && Umbruch(c)
    ensures ErsterUmbruch(l + ([c] + rest)) == |l|
  {
    var s := l + ([c] + rest);
    if l == "" { assert s[0] == c; } else {
      ErsterUmbruchNach(l[1..], c, rest);
      assert s[0] == l[0] && s[1..] == l[1..] + ([c] + rest);
    }
  }

  /** Every line break ends a line by itself, but a carriage return takes a newline behind it along. */
  lemma ZeilenNach(l: string, c: char, rest: string)
    requires Einzeilig(l) && Umbruch(c)
    ensures c != '\r' || rest == "" || rest[0] != '\n' ==> Zeilen(l + ([c] + rest)) == [l] + Zeilen(rest)
    ensures c == '\r' && rest != "" && rest[0] == '\n' ==> Zeilen(l + ([c] + rest)) == [l] + Zeilen(rest[1..])
  {
    var s := l + ([c] + rest);
    ErsterUmbruchNach(l, c, rest);
    assert s[..|l|] == l && s[|l|] == c && s[|l| + 1..] == rest;
    if rest != "" { assert s[|l| + 1] == rest[0] && s[|l| + 2..] == rest[1..]; }
  }

  lemma ZeilenLeer()
    ensures Zeilen("") == []
  {}

  lemma {:induction false} VerbundenZurueck(lines: seq<string>)
    requires forall l :: l in lines ==> Einzeilig(l)
    ensures Zeilen(Verbunden(lines)) == lines
  {
    hide Zeilen;
    if lines == [] { ZeilenLeer(); } else {
      var l, rest := lines[0], Verbunden(lines[1..]);
      ZeilenNach(l, '\n', rest);
      VerbundenZurueck(lines[1..]);
      assert l + ("\n" + rest) == Verbunden(lines);
    }
  }

  /** Saving and loading keeps the lines exactly when there are some and none of them has a line break in it. */
  lemma RenderGenau(lines: seq<string>)
    ensures Zeilen(Render(lines)) == lines <==> lines != [] && forall l :: l in lines ==> Einzeilig(l)
  {
    if lines == [] {
      assert ErsterUmbruch("\n") == 0;
      assert Zeilen("\n") == [""] + Zeilen("\n"[1..]);
    } else if forall l :: l in lines ==> Einzeilig(l) {
      VerbundenZurueck(lines);
    }
  }
}
