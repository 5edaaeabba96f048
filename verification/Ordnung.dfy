/** Orders, sorting and selections of a list, as the coin selection compares them. */
module Ordnung {
  datatype Option<+T> = None | Some(value: T)

  function Pow2(n: nat): (r: nat)
    ensures r >= 1
  {
    if n == 0 then 1 else 2 * Pow2(n - 1)
  }

  /** A strict total order, the way Python compares ints, strings and tuples of them. */
  ghost predicate StrengTotal<T(!new)>(kleiner: (T, T) -> bool) {
    && (forall a :: !kleiner(a, a))
    && (forall a, b, c :: kleiner(a, b) && kleiner(b, c) ==> kleiner(a, c))
    && (forall a, b :: a == b || kleiner(a, b) || kleiner(b, a))
  }

  predicate IntKleiner(a: int, b: int) { a < b }

  predicate CharKleiner(a: char, b: char) { a < b }

  /** Lexicographic comparison; a proper prefix is the smaller one. */
  predicate Lex<T(==)>(kleiner: (T, T) -> bool, a: seq<T>, b: seq<T>) {
    b != [] && (a == [] || kleiner(a[0], b[0]) || (a[0] == b[0] && Lex(kleiner, a[1..], b[1..])))
  }

  predicate StringKleiner(a: string, b: string) { Lex(CharKleiner, a, b) }

  lemma {:induction false} LexIrreflexiv<T(!new)>(kleiner: (T, T) -> bool, a: seq<T>)
    requires StrengTotal(kleiner)
    ensures !Lex(kleiner, a, a)
  {
    if a != [] { LexIrreflexiv(kleiner, a[1..]); }
  }

  lemma {:induction false} LexTransitiv<T(!new)>(kleiner: (T, T) -> bool, a: seq<T>, b: seq<T>, c: seq<T>)
    requires StrengTotal(kleiner) && Lex(kleiner, a, b) && Lex(kleiner, b, c)
    ensures Lex(kleiner, a, c)
  {
    if a != [] && a[0] == b[0] && b[0] == c[0] && Lex(kleiner, a[1..], b[1..]) && Lex(kleiner, b[1..], c[1..]) {
      LexTransitiv(kleiner, a[1..], b[1..], c[1..]);
    }
  }

  lemma {:induction false} LexTrichotomie<T(!new)>(kleiner: (T, T) -> bool, a: seq<T>, b: seq<T>)
    requires StrengTotal(kleiner)
    ensures a == b || Lex(kleiner, a, b) || Lex(kleiner, b, a)
  {
    if a != [] && b != [] && a[0] == b[0] {
      LexTrichotomie(kleiner, a[1..], b[1..]);
      assert a == [a[0]] + a[1..] && b == [b[0]] + b[1..];
    }
  }

  lemma StringTotal()
    ensures StrengTotal(StringKleiner)
  {
    assert StrengTotal(CharKleiner);
    forall a: string, b: string, c: string
      ensures !StringKleiner(a, a)
      ensures StringKleiner(a, b) && StringKleiner(b, c) ==> StringKleiner(a, c)
      ensures a == b || StringKleiner(a, b) || StringKleiner(b, a)
    {
      LexIrreflexiv(CharKleiner, a);
      LexTrichotomie(CharKleiner, a, b);
      if StringKleiner(a, b) && StringKleiner(b, c) { LexTransitiv(CharKleiner, a, b, c); }
    }
  }

  // ------------------------------------------------------------------ sorting

  function Einfuegen<T(==)>(kleiner: (T, T) -> bool, x: T, s: seq<T>): (r: seq<T>) {
    if s == [] || !kleiner(s[0], x) then [x] + s else [s[0]] + Einfuegen(kleiner, x, s[1..])
  }

  /** Python's `sorted` for values that are equal when neither is smaller. */
  function Sortiert<T(==)>(kleiner: (T, T) -> bool, s: seq<T>): (r: seq<T>) {
    if s == [] then [] else Einfuegen(kleiner, s[0], Sortiert(kleiner, s[1..]))
  }

  lemma {:induction false} EinfuegenMenge<T>(kleiner: (T, T) -> bool, x: T, s: seq<T>)
    ensures multiset(Einfuegen(kleiner, x, s)) == multiset{x} + multiset(s)
  {
    if s != [] {
      EinfuegenMenge(kleiner, x, s[1..]);
      assert s == [s[0]] + s[1..];
    }
  }

  lemma {:induction false} SortiertMenge<T>(kleiner: (T, T) -> bool, s: seq<T>)
    ensures multiset(Sortiert(kleiner, s)) == multiset(s)
  {
    if s != [] {
      SortiertMenge(kleiner, s[1..]);
      EinfuegenMenge(kleiner, s[0], Sortiert(kleiner, s[1..]));
      assert s == [s[0]] + s[1..];
    }
  }

  lemma SortiertElemente<T>(kleiner: (T, T) -> bool, s: seq<T>)
    ensures |Sortiert(kleiner, s)| == |s|
    ensures forall x :: x in Sortiert(kleiner, s) <==> x in s
  {
    SortiertMenge(kleiner, s);
    assert |multiset(Sortiert(kleiner, s))| == |multiset(s)|;
    forall x ensures x in Sortiert(kleiner, s) <==> x in s {
      assert x in multiset(Sortiert(kleiner, s)) <==> x in multiset(s);
    }
  }

  /** A strict order in which being unordered is transitive, as comparing records by some of their parts gives. */
  ghost predicate StrengSchwach<T(!new)>(kleiner: (T, T) -> bool) {
    && (forall a, b :: kleiner(a, b) ==> !kleiner(b, a))
    && (forall a, b, c :: !kleiner(a, b) && !kleiner(b, c) ==> !kleiner(a, c))
  }

  /** No later element is smaller than an earlier one. */
  ghost predicate Geordnet<T(!new)>(kleiner: (T, T) -> bool, s: seq<T>) {
    forall i, j :: 0 <= i < j < |s| ==> !kleiner(s[j], s[i])
  }

  lemma {:induction false} EinfuegenGeordnet<T(!new)>(kleiner: (T, T) -> bool, x: T, s: seq<T>)
    requires StrengSchwach(kleiner) && Geordnet(kleiner, s)
    ensures Geordnet(kleiner, Einfuegen(kleiner, x, s))
  {
    if s != [] && kleiner(s[0], x) {
      EinfuegenGeordnet(kleiner, x, s[1..]);
      EinfuegenMenge(kleiner, x, s[1..]);
      var r := Einfuegen(kleiner, x, s[1..]);
      forall j | 0 <= j < |r| ensures !kleiner(r[j], s[0]) {
        assert r[j] in multiset(r);
        assert r[j] == x || r[j] in s[1..];
      }
    }
  }

  lemma {:induction false} SortiertGeordnet<T(!new)>(kleiner: (T, T) -> bool, s: seq<T>)
    requires StrengSchwach(kleiner)
    ensures Geordnet(kleiner, Sortiert(kleiner, s))
  {
    if s != [] {
      SortiertGeordnet(kleiner, s[1..]);
      EinfuegenGeordnet(kleiner, s[0], Sortiert(kleiner, s[1..]));
    }
  }

  lemma TotalSchwach<T(!new)>(kleiner: (T, T) -> bool)
    requires StrengTotal(kleiner)
    ensures StrengSchwach(kleiner)
  {}

  ghost predicate Aufsteigend(s: seq<int>) { forall i, j :: 0 <= i < j < |s| ==> s[i] <= s[j] }

  lemma SortiertAufsteigend(s: seq<int>)
    ensures Aufsteigend(Sortiert(IntKleiner, s))
  {
    SortiertGeordnet(IntKleiner, s);
  }

  /** The first difference decides a comparison of strings; a proper prefix comes first. */
  lemma {:induction false} StringKleinerGenau(a: string, b: string, i: nat)
    requires i <= |a| && i <= |b| && a[..i] == b[..i]
    ensures i < |a| && i < |b| && a[i] != b[i] ==> (StringKleiner(a, b) <==> a[i] < b[i])
    ensures i == |a| < |b| ==> StringKleiner(a, b) && !StringKleiner(b, a)
    decreases i
  {
    if i > 0 {
      assert a[0] == a[..i][0] == b[0];
      assert a[1..][..i - 1] == a[..i][1..] == b[1..][..i - 1];
      StringKleinerGenau(a[1..], b[1..], i - 1);
    }
  }

  // --------------------------------------------------------------- selections

  /** t keeps some elements of s, in the order of s: a subset of a list of distinct elements. */
  predicate Teilfolge<T(==)>(t: seq<T>, s: seq<T>) {
    t == [] || (s != [] && ((t[0] == s[0] && Teilfolge(t[1..], s[1..])) || Teilfolge(t, s[1..])))
  }

  lemma {:induction false} TeilfolgeElemente<T>(t: seq<T>, s: seq<T>, x: T)
    requires Teilfolge(t, s) && x in t
    ensures x in s
  {
    if t[0] == s[0] && Teilfolge(t[1..], s[1..]) {
      if x != t[0] { TeilfolgeElemente(t[1..], s[1..], x); }
    } else {
      TeilfolgeElemente(t, s[1..], x);
    }
  }

  lemma {:induction false} TeilfolgeLaenge<T>(t: seq<T>, s: seq<T>)
    requires Teilfolge(t, s)
    ensures |t| <= |s|
  {
    if t != [] {
      if t[0] == s[0] && Teilfolge(t[1..], s[1..]) { TeilfolgeLaenge(t[1..], s[1..]); } else { TeilfolgeLaenge(t, s[1..]); }
    }
  }

  lemma {:induction false} TeilfolgeReflexiv<T>(s: seq<T>)
    ensures Teilfolge(s, s)
  {
    if s != [] { TeilfolgeReflexiv(s[1..]); }
  }

  lemma {:induction false} TeilfolgeGleichLang<T>(t: seq<T>, s: seq<T>)
    requires Teilfolge(t, s) && |t| == |s|
    ensures t == s
  {
    if t != [] {
      if !(t[0] == s[0] && Teilfolge(t[1..], s[1..])) { TeilfolgeLaenge(t, s[1..]); }
      TeilfolgeGleichLang(t[1..], s[1..]);
      assert t == [t[0]] + t[1..] && s == [s[0]] + s[1..];
    }
  }

  lemma {:induction false} TeilfolgeTransitiv<T>(t: seq<T>, u: seq<T>, s: seq<T>)
    requires Teilfolge(t, u) && Teilfolge(u, s)
    ensures Teilfolge(t, s)
  {
    if t != [] {
      if u[0] == s[0] && Teilfolge(u[1..], s[1..]) {
        if t[0] == u[0] && Teilfolge(t[1..], u[1..]) { TeilfolgeTransitiv(t[1..], u[1..], s[1..]); } else { TeilfolgeTransitiv(t, u[1..], s[1..]); }
      } else {
        TeilfolgeTransitiv(t, u, s[1..]);
      }
    }
  }

  lemma {:induction false} TeilfolgeVerketten<T>(t: seq<T>, s: seq<T>, t': seq<T>, s': seq<T>)
    requires Teilfolge(t, s) && Teilfolge(t', s')
    ensures Teilfolge(t + t', s + s')
  {
    if t == [] {
      assert t + t' == t';
      TeilfolgeRechts(t', s, s');
    } else {
      assert (s + s')[1..] == s[1..] + s' && (t + t')[1..] == t[1..] + t';
      if t[0] == s[0] && Teilfolge(t[1..], s[1..]) {
        TeilfolgeVerketten(t[1..], s[1..], t', s');
      } else {
        TeilfolgeVerketten(t, s[1..], t', s');
      }
    }
  }

  lemma {:induction false} TeilfolgeRechts<T>(t: seq<T>, vor: seq<T>, s: seq<T>)
    requires Teilfolge(t, s)
    ensures Teilfolge(t, vor + s)
  {
    if vor == [] { assert vor + s == s; } else {
      TeilfolgeRechts(t, vor[1..], s);
      assert (vor + s)[1..] == vor[1..] + s;
    }
  }

  function Gefiltert<T(!new)>(p: T -> bool, s: seq<T>): (r: seq<T>)
    ensures forall x :: x in r <==> x in s && p(x)
  {
    if s == [] then [] else if p(s[0]) then [s[0]] + Gefiltert(p, s[1..]) else Gefiltert(p, s[1..])
  }

  lemma {:induction false} GefiltertTeilfolge<T(!new)>(p: T -> bool, s: seq<T>)
    ensures Teilfolge(Gefiltert(p, s), s)
  {
    if s != [] { GefiltertTeilfolge(p, s[1..]); }
  }

  lemma {:induction false} GefiltertAlle<T(!new)>(p: T -> bool, s: seq<T>)
    requires forall x :: x in s ==> p(x)
    ensures Gefiltert(p, s) == s
  {
    if s != [] { GefiltertAlle(p, s[1..]); }
  }

  lemma {:induction false} GefiltertKeine<T(!new)>(p: T -> bool, s: seq<T>)
    requires forall x :: x in s ==> !p(x)
    ensures Gefiltert(p, s) == []
  {
    if s != [] { GefiltertKeine(p, s[1..]); }
  }
}
