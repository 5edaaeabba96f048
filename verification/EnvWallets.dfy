/** The wallet list in the configuration file: its writer and its reader (core/config.py, lines 1564-1798). */
module EnvWallets {
  import opened Ordnung
  import opened EnvZeile
  import opened EnvDatei

  // --------------------------------------------------------------------- numbers

  predicate Ziffer(c: char) { '0' <= c <= '9' }

  function Stelle10(n: nat): (c: char)
    requires n < 10
    ensures Ziffer(c)
  {
    '0' + n as char
  }

  function Dezimal(n: nat): (s: string)
    ensures s != "" && forall i :: 0 <= i < |s| ==> Ziffer(s[i])
  {
    if n < 10 then [Stelle10(n)] else Dezimal(n / 10) + [Stelle10(n % 10)]
  }

  /** `int()` on a string of digits. */
  function Wert(s: string): nat
    requires forall i :: 0 <= i < |s| ==> Ziffer(s[i])
  {
    if s == "" then 0
    else
      var c := s[|s| - 1];
      assert Ziffer(c);
      10 * Wert(s[..|s| - 1]) + (c as nat - '0' as nat)
  }

  lemma {:induction false} DezimalRundreise(n: nat)
    ensures Wert(Dezimal(n)) == n
  {
    if n >= 10 {
      DezimalRundreise(n / 10);
      var s := Dezimal(n);
      assert s[..|s| - 1] == Dezimal(n / 10);
    } else {
      assert Dezimal(n)[..0] == "";
    }
  }

  /** How many digits come first. */
  function Ziffern(s: string): (d: nat)
    ensures d <= |s| && (forall i :: 0 <= i < d ==> Ziffer(s[i])) && (d < |s| ==> !Ziffer(s[d]))
  {
    if s == "" || !Ziffer(s[0]) then 0 else 1 + Ziffern(s[1..])
  }

  lemma {:induction false} ZiffernGenau(s: string, d: nat)
    requires d <= |s| && (forall i :: 0 <= i < d ==> Ziffer(s[i])) && (d < |s| ==> !Ziffer(s[d]))
    ensures Ziffern(s) == d
  {
    if d > 0 { ZiffernGenau(s[1..], d - 1); }
  }

  // ------------------------------------------------------------------------ keys

  const SAMMELZEILEN := {"XPUBS", "WALLET_NAMES", "SCRIPT_TYPES", "MAX_ADDRESSES_PER_XPUB"}
  const INDIZIERT := {"XPUB_", "WALLET_NAME_", "SCRIPT_TYPE_"}
  const FELDER := {"NAME", "XPUB", "XPUBS", "DESC", "M", "SCRIPT", "MAX_ADDRESSES", "READ_ONLY", "ORIGIN"}
  const ORIGINS := {"xpub", "descriptor", "wallet_export"}

  datatype Block = Block(nummer: nat, feld: string)

  predicate FeldZeichen(c: char) { 'A' <= c <= 'Z' || c == '_' }

  /** Digits, an underscore, capitals and underscores. */
  function NummerUndFeld(rest: string): Option<Block> {
    var d := Ziffern(rest);
    if d == 0 || d == |rest| || rest[d] != '_' then None
    else
      var feld := rest[d + 1..];
      if feld != "" && forall c :: c in feld ==> FeldZeichen(c) then Some(Block(Wert(rest[..d]), feld)) else None
  }

  /** `_BLOCK_RE` */
  function BlockVon(key: string): Option<Block> { if "WALLET_" <= key then NummerUndFeld(key[7..]) else None }

  function BlockKey(n: nat, feld: string): string { "WALLET_" + Dezimal(n) + "_" + feld }

  lemma NummerRundreise(n: nat, d: string, feld: string)
    requires d == Dezimal(n) && feld != "" && forall c :: c in feld ==> FeldZeichen(c)
    ensures NummerUndFeld(d + "_" + feld) == Some(Block(n, feld))
  {
    var rest := d + "_" + feld;
    ZiffernGenau(rest, |d|);
    assert rest[..|d|] == d && rest[|d| + 1..] == feld;
    DezimalRundreise(n);
  }

  lemma BlockRundreise(n: nat, feld: string)
    requires feld != "" && forall c :: c in feld ==> FeldZeichen(c)
    ensures BlockVon(BlockKey(n, feld)) == Some(Block(n, feld))
  {
    var rest := Dezimal(n) + "_" + feld;
    assert BlockKey(n, feld) == "WALLET_" + rest && BlockKey(n, feld)[7..] == rest;
    NummerRundreise(n, Dezimal(n), feld);
  }

  lemma FelderZeichen(feld: string)
    requires feld in FELDER
    ensures feld != "" && forall c :: c in feld ==> FeldZeichen(c)
  {}

  /** `_LEGACY_INDEX_RE`: one of the old prefixes and digits. */
  predicate AltIndiziert(key: string) {
    exists p :: p in INDIZIERT && p <= key && |key| > |p| && Ziffern(key[|p|..]) == |key| - |p|
  }

  /** Any key of the wallet list, old style or new. */
  predicate AlterSchluessel(key: string) { key in SAMMELZEILEN || AltIndiziert(key) || BlockVon(key).Some? }

  lemma AlterPraefix(p: string, n: nat)
    requires p in INDIZIERT
    ensures AlterSchluessel(p + Dezimal(n))
  {
    var key := p + Dezimal(n);
    assert key[|p|..] == Dezimal(n);
    ZiffernGenau(Dezimal(n), |Dezimal(n)|);
    assert p <= key && Ziffern(key[|p|..]) == |key| - |p|;
  }

  /** Every key of the old formats and every block key is removed, whatever its number. */
  lemma AlteFormate(n: nat, feld: string)
    requires feld != "" && forall c :: c in feld ==> 'A' <= c <= 'Z' || c == '_'
    ensures AlterSchluessel("XPUB_" + Dezimal(n)) && AlterSchluessel("WALLET_NAME_" + Dezimal(n)) && AlterSchluessel("SCRIPT_TYPE_" + Dezimal(n))
    ensures AlterSchluessel("WALLET_" + Dezimal(n) + "_" + feld)
    ensures AlterSchluessel("XPUBS") && AlterSchluessel("WALLET_NAMES") && AlterSchluessel("SCRIPT_TYPES") && AlterSchluessel("MAX_ADDRESSES_PER_XPUB")
  {
    AlterPraefix("XPUB_", n);
    AlterPraefix("WALLET_NAME_", n);
    AlterPraefix("SCRIPT_TYPE_", n);
    BlockRundreise(n, feld);
  }

  lemma PraefixVom(a: string, p: string, key: string)
    requires a <= p && p <= key
    ensures a <= key
  {}

  /** A prefix without a number is no such key. */
  lemma OhneNummer()
    ensures !AlterSchluessel("XPUB_") && !AlterSchluessel("WALLET_NAME_") && !AlterSchluessel("SCRIPT_TYPE_")
  {
    hide AltIndiziert, Ziffern;
    KeinAlterIndex("XPUB_", 'X');
    KeinAlterIndex("WALLET_NAME_", 'W');
    KeinAlterIndex("SCRIPT_TYPE_", 'S');
    assert "WALLET_NAME_"[7..] == "NAME_";
    ZiffernGenau("NAME_", 0);
    assert "XPUB_"[0] != "WALLET_"[0] && "SCRIPT_TYPE_"[0] != "WALLET_"[0];
  }

  lemma KeinAlterIndex(key: string, c: char)
    requires key in INDIZIERT && c == key[0]
    ensures !AltIndiziert(key)
  {
    hide Ziffern;
    forall p | p in INDIZIERT && p <= key ensures |key| <= |p| { assert p[0] == c; }
  }

  /** Keys that do not begin like one of these are kept. */
  lemma NurWalletSchluessel(key: string)
    requires AlterSchluessel(key)
    ensures "XPUB" <= key || "WALLET_" <= key || "SCRIPT_TYPE" <= key || key == "MAX_ADDRESSES_PER_XPUB"
  {
    hide Ziffern, NummerUndFeld;
    if AltIndiziert(key) {
      var p :| p in INDIZIERT && p <= key;
      PraefixVom(if p == "XPUB_" then "XPUB" else if p == "WALLET_NAME_" then "WALLET_" else "SCRIPT_TYPE", p, key);
    }
  }

  // ---------------------------------------------------------------------- writing

  /** What a wallet is written as: a descriptor, or a key with its script type. */
  datatype Kern = Deskriptor(desc: string) | Einzeln(xpub: string, script: string)

  datatype WalletEntry = WalletEntry(displayName: string, kern: Kern, maxAddresses: nat, readOnly: bool, origin: string)

  type Dict = map<string, Option<string>>

  function BlockWerte(n: nat, e: WalletEntry): Dict {
    map[BlockKey(n, "NAME") := Some(e.displayName)]
    + (match e.kern
       case Deskriptor(desc) => map[BlockKey(n, "DESC") := Some(desc)]
       case Einzeln(xpub, script) => map[BlockKey(n, "XPUB") := Some(xpub), BlockKey(n, "SCRIPT") := Some(script)])
    + map[BlockKey(n, "MAX_ADDRESSES") := Some(Dezimal(e.maxAddresses)), BlockKey(n, "READ_ONLY") := Some(if e.readOnly then "1" else "0"),
          BlockKey(n, "ORIGIN") := if e.origin in ORIGINS then Some(e.origin) else None]
  }

  /** All old keys are removed, then the blocks are set. */
  function Updates(entries: seq<WalletEntry>, vorhandene: map<string, string>): Dict {
    if entries == [] then map k | k in vorhandene.Keys + SAMMELZEILEN && AlterSchluessel(k) :: None
    else Updates(entries[..|entries| - 1], vorhandene) + BlockWerte(|entries| - 1, entries[|entries| - 1])
  }

  /** `wallet_updates` */
  method WalletUpdates(entries: seq<WalletEntry>, vorhandene: map<string, string>) returns (updates: Dict)
    ensures updates == Updates(entries, vorhandene)
  {
    updates := map k | k in vorhandene.Keys + SAMMELZEILEN && AlterSchluessel(k) :: None;
    for nummer := 0 to |entries|
      invariant updates == Updates(entries[..nummer], vorhandene)
    {
      assert entries[..nummer + 1][..nummer] == entries[..nummer];
      updates := updates + BlockWerte(nummer, entries[nummer]);
    }
    assert entries[..|entries|] == entries;
  }

  /** A list of changes says what the dictionary says, in some order. */
  ghost predicate Entspricht(ups: seq<Aenderung>, d: Dict) {
    && Verschieden(ups) && (forall u :: u in ups ==> u.key in d && d[u.key] == u.wert)
    && forall k :: k in d ==> Aenderung(k, d[k]) in ups
  }

  /** `dict.items()` */
  method Items(d: Dict) returns (ups: seq<Aenderung>)
    ensures Entspricht(ups, d)
  {
    ups := [];
    var offen := d.Keys;
    while offen != {}
      invariant offen <= d.Keys && Verschieden(ups)
      invariant forall u :: u in ups ==> u.key in d && u.key !in offen && d[u.key] == u.wert
      invariant forall k :: k in d && k !in offen ==> Aenderung(k, d[k]) in ups
      decreases |offen|
    {
      var k :| k in offen;
      forall i | 0 <= i < |ups| ensures ups[i].key != k { assert ups[i] in ups; }
      ups := ups + [Aenderung(k, d[k])];
      offen := offen - {k};
    }
  }

  /** A written block key belongs to its block and field. */
  lemma BlockKeyGenau(n: nat, feld: string, m: nat, feld': string)
    requires feld in FELDER && feld' in FELDER
    ensures BlockKey(n, feld) == BlockKey(m, feld') <==> n == m && feld == feld'
    ensures AlterSchluessel(BlockKey(n, feld)) && BlockVon(BlockKey(n, feld)) == Some(Block(n, feld))
  {
    FelderZeichen(feld);
    FelderZeichen(feld');
    BlockRundreise(n, feld);
    BlockRundreise(m, feld');
  }

  /** What the block of an entry gives a field, None for a field that is not written. */
  function FeldWert(e: WalletEntry, feld: string): Option<string> {
    match feld
    case "NAME" => Some(e.displayName)
    case "DESC" => if e.kern.Deskriptor? then Some(e.kern.desc) else None
    case "XPUB" => if e.kern.Einzeln? then Some(e.kern.xpub) else None
    case "SCRIPT" => if e.kern.Einzeln? then Some(e.kern.script) else None
    case "MAX_ADDRESSES" => Some(Dezimal(e.maxAddresses))
    case "READ_ONLY" => Some(if e.readOnly then "1" else "0")
    case "ORIGIN" => if e.origin in ORIGINS then Some(e.origin) else None
    case _ => None
  }

  predicate Geschrieben(e: WalletEntry, feld: string) { feld in FELDER && (FeldWert(e, feld).Some? || feld == "ORIGIN") }

  /** A key that some block of the list writes. */
  ghost predicate BlockSchreibt(n: nat, e: WalletEntry, feld: string, k: string) { Geschrieben(e, feld) && k == BlockKey(n, feld) }

  lemma BlockWerteHat(n: nat, e: WalletEntry, feld: string)
    requires Geschrieben(e, feld)
    ensures BlockKey(n, feld) in BlockWerte(n, e) && BlockWerte(n, e)[BlockKey(n, feld)] == FeldWert(e, feld)
  {
    forall f | f in FELDER ensures BlockKey(n, f) == BlockKey(n, feld) <==> f == feld { BlockKeyGenau(n, f, n, feld); }
  }

  lemma BlockWerteNur(n: nat, e: WalletEntry, k: string) returns (feld: string)
    requires k in BlockWerte(n, e)
    ensures BlockSchreibt(n, e, feld, k)
  {
    feld :| feld in FELDER && k == BlockKey(n, feld) && (FeldWert(e, feld).Some? || feld == "ORIGIN");
  }

  /** The dictionary at the fields of one block. */
  lemma {:induction false} UpdatesBlock(entries: seq<WalletEntry>, vorhandene: map<string, string>, n: nat, feld: string)
    requires n < |entries| && feld in FELDER
    ensures var d, k := Updates(entries, vorhandene), BlockKey(n, feld);
            && (Geschrieben(entries[n], feld) ==> k in d && d[k] == FeldWert(entries[n], feld))
            && (!Geschrieben(entries[n], feld) && k in d ==> d[k] == None)
  {
    var l := |entries| - 1;
    var k := BlockKey(n, feld);
    if k in BlockWerte(l, entries[l]) {
      var feld' := BlockWerteNur(l, entries[l], k);
      BlockKeyGenau(n, feld, l, feld');
    }
    if n == l {
      if Geschrieben(entries[n], feld) { BlockWerteHat(n, entries[n], feld); } else { UpdatesFremd(entries[..l], vorhandene, n, feld); }
    } else {
      UpdatesBlock(entries[..l], vorhandene, n, feld);
    }
  }

  /** Beyond the list, block keys are only removed. */
  lemma {:induction false} UpdatesFremd(entries: seq<WalletEntry>, vorhandene: map<string, string>, n: nat, feld: string)
    requires n >= |entries| && feld in FELDER
    ensures var d, k := Updates(entries, vorhandene), BlockKey(n, feld); k in d ==> d[k] == None
  {
    if entries != [] {
      var l := |entries| - 1;
      UpdatesFremd(entries[..l], vorhandene, n, feld);
      if BlockKey(n, feld) in BlockWerte(l, entries[l]) {
        var feld' := BlockWerteNur(l, entries[l], BlockKey(n, feld));
        BlockKeyGenau(n, feld, l, feld');
      }
    }
  }

  /** Some block of the list gives this key a value. */
  ghost predicate Vergeben(entries: seq<WalletEntry>, k: string) {
    exists n, feld :: 0 <= n < |entries| && BlockSchreibt(n, entries[n], feld, k)
  }

  /** The dictionary sets only block keys of the list, and has every old key that is there. */
  lemma {:induction false} UpdatesKeys(entries: seq<WalletEntry>, vorhandene: map<string, string>, k: string)
    ensures var d := Updates(entries, vorhandene);
            && (k in d && d[k].Some? ==> Vergeben(entries, k))
            && (k in d ==> AlterSchluessel(k))
            && (k in vorhandene && AlterSchluessel(k) ==> k in d)
  {
    if entries != [] {
      var l := |entries| - 1;
      UpdatesKeys(entries[..l], vorhandene, k);
      if k in BlockWerte(l, entries[l]) {
        var feld := BlockWerteNur(l, entries[l], k);
        BlockKeyGenau(l, feld, l, feld);
        assert BlockSchreibt(l, entries[l], feld, k);
      } else if Vergeben(entries[..l], k) {
        var n, feld :| 0 <= n < l && BlockSchreibt(n, entries[..l][n], feld, k);
        assert BlockSchreibt(n, entries[n], feld, k);
      }
    }
  }

  // ---------------------------------------------------------------------- reading

  /** `feld` */
  function Feld(values: map<string, string>, n: nat, name: string): string {
    if BlockKey(n, name) in values then Strip(Weiss, values[BlockKey(n, name)]) else ""
  }

  /** `_hat_bloecke` */
  predicate HatBloecke(values: map<string, string>) { ErsterBlock(Felder(values, 0)) }

  predicate ErsterBlock(feld: string -> string) { feld("XPUB") != "" || feld("XPUBS") != "" || feld("DESC") != "" }

  predicate BlockDa(values: map<string, string>, k: string) {
    k in values && BlockVon(k).Some? && BlockVon(k).value.feld in FELDER && Strip(Weiss, values[k]) != ""
  }

  /** `_block_indizes` */
  function BlockIndizes(values: map<string, string>): set<nat> { set k | k in values && BlockDa(values, k) :: BlockVon(k).value.nummer }

  /** What the reader hands on: the written fields, and the fields of the short multisig form. */
  datatype Gelesen = Gelesen(name: string, xpub: string, script: string, maxAddresses: nat, descriptor: string, readOnly: bool,
                             origin: string, xpubs: string, schwelle: string)

  function NurZiffern(s: string): bool { s != "" && forall c :: c in s ==> Ziffer(c) }

  /** `_block_eintrag`, from the fields of a block */
  function EintragAus(feld: string -> string, standard: nat): Gelesen {
    var max := feld("MAX_ADDRESSES");
    Gelesen(feld("NAME"), feld("XPUB"), if feld("SCRIPT") == "" then "auto" else feld("SCRIPT"),
            if NurZiffern(max) then Wert(max) else standard, feld("DESC"),
            feld("READ_ONLY") in {"1", "true", "yes", "ja", "on"}, feld("ORIGIN"), feld("XPUBS"), feld("M"))
  }

  function Felder(values: map<string, string>, n: nat): string -> string { name => Feld(values, n, name) }

  function BlockEintrag(values: map<string, string>, n: nat, standard: nat): Gelesen { EintragAus(Felder(values, n), standard) }

  /** The numbers 0, 1, 2 ... up to the first that is missing. */
  method BisZurLuecke(vorhandene: set<nat>) returns (ende: nat)
    ensures ende !in vorhandene && forall i :: 0 <= i < ende ==> i in vorhandene
  {
    ende := 0;
    ghost var rest := vorhandene;
    while ende in vorhandene
      invariant rest <= vorhandene && forall i :: i in vorhandene && i >= ende ==> i in rest
      invariant forall i :: 0 <= i < ende ==> i in vorhandene
      decreases |rest|
    {
      rest := rest - {ende};
      ende := ende + 1;
    }
  }

  ghost predicate Liste(values: map<string, string>, standard: nat, eintraege: seq<Gelesen>) {
    forall i :: 0 <= i < |eintraege| ==> eintraege[i] == BlockEintrag(values, i, standard)
  }

  /** `read_wallets` for the block format: the list ends at the first missing number. */
  method ReadBloecke(values: map<string, string>, standard: nat) returns (eintraege: seq<Gelesen>)
    ensures |eintraege| !in BlockIndizes(values) && (forall i :: 0 <= i < |eintraege| ==> i in BlockIndizes(values)) && Liste(values, standard, eintraege)
  {
    var ende := BisZurLuecke(BlockIndizes(values));
    eintraege := seq(ende, i requires 0 <= i => BlockEintrag(values, i, standard));
  }

  /** `str.split()`: the words between blanks. */
  function Woerter(s: string): seq<string>
    decreases |s|
  {
    var t := OhneVorn(Weiss, s);
    if t == "" then [] else var n := Wortende(t); if n == 0 then [] else [t[..n]] + Woerter(t[n..])
  }

  function Wortende(s: string): (n: nat)
    ensures n <= |s|
  {
    if s == "" || Weiss(s[0]) then 0 else 1 + Wortende(s[1..])
  }

  function Wert1(values: map<string, string>, k: string): string { if k in values then Strip(Weiss, values[k]) else "" }

  /** `_indexed_env_values`: XPUB_0, XPUB_1, up to the first empty one, a hundred at most. */
  function Indiziert(values: map<string, string>, i: nat): seq<string>
    decreases 100 - i
  {
    if i >= 100 || Wert1(values, "XPUB_" + Dezimal(i)) == "" then []
    else [Wert1(values, "XPUB_" + Dezimal(i))] + Indiziert(values, i + 1)
  }

  /** `_xpubs_from_env`: the keys of the old formats, one entry each. */
  function AlteXpubs(values: map<string, string>): seq<string> {
    if Wert1(values, "XPUBS") != "" then Woerter(Wert1(values, "XPUBS")) else Indiziert(values, 0)
  }

  lemma {:induction false} WortendeGenau(w: string, rest: string)
    requires (forall c :: c in w ==> !Weiss(c)) && (rest == "" || Weiss(rest[0]))
    ensures Wortende(w + rest) == |w|
  {
    if w == "" { assert w + rest == rest; } else {
      assert w[0] in w && forall c :: c in w[1..] ==> c in w;
      WortendeGenau(w[1..], rest);
      assert (w + rest)[1..] == w[1..] + rest;
    }
  }

  /** The words of a line are what stands between blanks. */
  lemma WoerterNach(a: string, w: string, rest: string)
    requires Leerraum(a) && w != "" && (forall c :: c in w ==> !Weiss(c)) && (rest == "" || Weiss(rest[0]))
    ensures Woerter(a) == [] && Woerter(a + (w + rest)) == [w] + Woerter(rest)
  {
    OhneVornLeer(a, "");
    assert a + "" == a;
    OhneVornLeer(a, w + rest);
    assert w[0] in w && OhneVorn(Weiss, w + rest) == w + rest;
    WortendeGenau(w, rest);
    assert (w + rest)[..|w|] == w && (w + rest)[|w|..] == rest;
  }

  /** The indexed keys are read up to the first one that is missing or blank, a hundred of them at most. */
  lemma {:induction false} IndiziertGenau(values: map<string, string>, i: nat)
    requires i <= 100
    ensures var r := Indiziert(values, i);
            && |r| <= 100 - i && (forall j :: 0 <= j < |r| ==> r[j] == Wert1(values, "XPUB_" + Dezimal(i + j)) && r[j] != "")
            && (|r| == 100 - i || Wert1(values, "XPUB_" + Dezimal(i + |r|)) == "")
    decreases 100 - i
  {
    hide Dezimal, Wert1;
    if i < 100 && Wert1(values, "XPUB_" + Dezimal(i)) != "" {
      IndiziertGenau(values, i + 1);
      var r, t := Indiziert(values, i), Indiziert(values, i + 1);
      forall j | 0 <= j < |r| ensures r[j] == Wert1(values, "XPUB_" + Dezimal(i + j)) && r[j] != "" {
        if j > 0 { assert r[j] == t[j - 1] && i + j == i + 1 + (j - 1); }
      }
    }
  }

  /** Without the collecting line the keys of the old format are read from number 0 on. */
  lemma AlteXpubsGenau(values: map<string, string>)
    requires Wert1(values, "XPUBS") == ""
    ensures var r := AlteXpubs(values);
            && |r| <= 100 && (forall j :: 0 <= j < |r| ==> r[j] == Wert1(values, "XPUB_" + Dezimal(j)) && r[j] != "")
            && (|r| == 100 || Wert1(values, "XPUB_" + Dezimal(|r|)) == "")
  {
    IndiziertGenau(values, 0);
    var r := AlteXpubs(values);
    forall j | 0 <= j < |r| ensures r[j] == Wert1(values, "XPUB_" + Dezimal(j)) { assert r[j] == Wert1(values, "XPUB_" + Dezimal(0 + j)); }
  }

  // ------------------------------------------------------------------- round trip

  /** The written values have no outer blanks or quotes. */
  predicate EintragFest(e: WalletEntry) {
    Wertfest(e.displayName) && match e.kern case Deskriptor(desc) => Wertfest(desc) case Einzeln(xpub, script) => Wertfest(xpub) && Wertfest(script)
  }

  lemma ZiffernFest(n: nat)
    ensures Wertfest(Dezimal(n)) && NurZiffern(Dezimal(n))
  {
    var s := Dezimal(n);
    assert Ziffer(s[0]) && Ziffer(s[|s| - 1]);
  }

  /** What the reader makes of a written value. */
  function Gelesenes(v: string): string { Strip(Weiss, Ankommend(v)) }

  lemma GelesenesGenau(v: string)
    ensures Gelesenes(v) == v <==> Wertfest(v)
  {
    StripGenau(Weiss, v);
    AnkommendGenau(v);
    StripGenau(Weiss, Ankommend(v));
  }

  lemma BlockKeySchluessel(n: nat, feld: string)
    requires feld in FELDER
    ensures Schluessel(BlockKey(n, feld))
  {
    var k := BlockKey(n, feld);
    FelderZeichen(feld);
    assert feld[|feld| - 1] in feld && k[|k| - 1] == feld[|feld| - 1] && k[0] == 'W';
    forall i | 0 <= i < |k| ensures k[i] != '=' {
      var d := Dezimal(n);
      if i < 7 { assert k[i] == "WALLET_"[i]; }
      else if i < 7 + |d| { assert k[i] == d[i - 7] && Ziffer(d[i - 7]); }
      else if i > 7 + |d| { assert k[i] == feld[i - 8 - |d|] && FeldZeichen(k[i]); }
    }
  }

  /** Every change of the list is read as one of its key. */
  lemma UpdatesLesbar(entries: seq<WalletEntry>, vorhandene: map<string, string>, u: Aenderung)
    requires u.key in Updates(entries, vorhandene) && Updates(entries, vorhandene)[u.key] == u.wert
    ensures Lesbar(Split, u)
  {
    if u.wert.Some? {
      UpdatesKeys(entries, vorhandene, u.key);
      var n, feld :| 0 <= n < |entries| && BlockSchreibt(n, entries[n], feld, u.key);
      BlockKeySchluessel(n, feld);
      ZeileGenau(u.key, u.wert.value);
    }
  }

  /** The values after saving: those of the list as read, no other wallet key, and all other keys as before. */
  ghost predicate Gespeichert(neu: map<string, string>, alt: map<string, string>, entries: seq<WalletEntry>) {
    && (forall n, feld :: 0 <= n < |entries| && feld in FELDER ==>
          var k := BlockKey(n, feld);
          (k in neu <==> FeldWert(entries[n], feld).Some?) && (k in neu ==> neu[k] == Ankommend(FeldWert(entries[n], feld).value)))
    && (forall k :: k in neu && AlterSchluessel(k) ==> Vergeben(entries, k))
    && (forall k :: !AlterSchluessel(k) ==> (k in neu <==> k in alt) && (k in neu ==> neu[k] == alt[k]))
  }

  lemma DictNach(ups: seq<Aenderung>, d: Dict, neu: map<string, string>, alt: map<string, string>, k: string)
    requires Entspricht(ups, d) && WerteNach(Split, neu, alt, ups)
    ensures k in d ==> Wirkt(Split, neu, Aenderung(k, d[k]))
    ensures k !in d ==> (k in neu <==> k in alt) && (k in neu ==> neu[k] == alt[k])
  {
    if k in d { assert Aenderung(k, d[k]) in ups; } else { assert forall u :: u in ups ==> u.key != k; }
  }

  lemma UpdatesGespeichert(entries: seq<WalletEntry>, alt: map<string, string>, ups: seq<Aenderung>, neu: map<string, string>)
    requires Entspricht(ups, Updates(entries, alt)) && WerteNach(Split, neu, alt, ups)
    ensures Gespeichert(neu, alt, entries)
  {
    var d := Updates(entries, alt);
    forall n, feld | 0 <= n < |entries| && feld in FELDER
      ensures BlockKey(n, feld) in neu <==> FeldWert(entries[n], feld).Some?
      ensures BlockKey(n, feld) in neu ==> neu[BlockKey(n, feld)] == Ankommend(FeldWert(entries[n], feld).value)
    {
      FeldGespeichert(entries, alt, ups, neu, n, feld);
    }
    forall k ensures k in neu && AlterSchluessel(k) ==> Vergeben(entries, k) {
      DictNach(ups, d, neu, alt, k);
      UpdatesKeys(entries, alt, k);
    }
    forall k | !AlterSchluessel(k) ensures (k in neu <==> k in alt) && (k in neu ==> neu[k] == alt[k]) {
      DictNach(ups, d, neu, alt, k);
      UpdatesKeys(entries, alt, k);
    }
  }

  lemma FeldGespeichert(entries: seq<WalletEntry>, alt: map<string, string>, ups: seq<Aenderung>, neu: map<string, string>, n: nat, feld: string)
    requires Entspricht(ups, Updates(entries, alt)) && WerteNach(Split, neu, alt, ups) && n < |entries| && feld in FELDER
    ensures BlockKey(n, feld) in neu <==> FeldWert(entries[n], feld).Some?
    ensures BlockKey(n, feld) in neu ==> neu[BlockKey(n, feld)] == Ankommend(FeldWert(entries[n], feld).value)
  {
    var k := BlockKey(n, feld);
    DictNach(ups, Updates(entries, alt), neu, alt, k);
    UpdatesBlock(entries, alt, n, feld);
    UpdatesKeys(entries, alt, k);
    BlockKeyGenau(n, feld, n, feld);
    BlockKeySchluessel(n, feld);
    if FeldWert(entries[n], feld).Some? { ZeileGenau(k, FeldWert(entries[n], feld).value); }
  }

  /** The entry with its strings as the reader gets them, and as they were given. */
  function Erwartet(e: WalletEntry): Gelesen { Gesehen(e, Gelesenes) }

  function Original(e: WalletEntry): Gelesen { Gesehen(e, (v: string) => v) }

  function Gesehen(e: WalletEntry, f: string -> string): Gelesen {
    Gelesen(f(e.displayName), if e.kern.Einzeln? then f(e.kern.xpub) else "",
            if e.kern.Einzeln? && f(e.kern.script) != "" then f(e.kern.script) else "auto",
            e.maxAddresses, if e.kern.Deskriptor? then f(e.kern.desc) else "", e.readOnly, if e.origin in ORIGINS then e.origin else "", "", "")
  }

  lemma KernGenau(e: WalletEntry, f: string -> string)
    requires f("") == "" && f("auto") == "auto"
    ensures Gesehen(e, f) == Original(e) <==>
            (f(e.displayName) == e.displayName
             && match e.kern case Deskriptor(desc) => f(desc) == desc case Einzeln(xpub, script) => f(xpub) == xpub && f(script) == script)
  {}

  lemma FesteWoerter()
    ensures Gelesenes("") == "" && Gelesenes("auto") == "auto"
  {
    GelesenesGenau("");
    GelesenesGenau("auto");
  }

  /** An entry is read as it was given exactly if its strings have no outer blanks or quotes. */
  lemma ErwartetGenau(e: WalletEntry)
    ensures Erwartet(e) == Original(e) <==> EintragFest(e)
  {
    FesteWoerter();
    hide Gelesenes, Wertfest, Gesehen;
    KernGenau(e, Gelesenes);
    GelesenesGenau(e.displayName);
    match e.kern {
      case Deskriptor(desc) => GelesenesGenau(desc);
      case Einzeln(xpub, script) =>
        GelesenesGenau(xpub);
        GelesenesGenau(script);
    }
  }

  lemma FeldZurueck(neu: map<string, string>, alt: map<string, string>, entries: seq<WalletEntry>, n: nat, feld: string)
    requires Gespeichert(neu, alt, entries) && n < |entries| && feld in FELDER
    ensures Feld(neu, n, feld) == Gelesenes(Oder(FeldWert(entries[n], feld)))
  {
    GelesenesGenau("");
  }

  function Oder(o: Option<string>): string { match o case None => "" case Some(v) => v }

  lemma OriginFest(origin: string)
    requires origin in ORIGINS
    ensures Wertfest(origin)
  {}

  /** What the program writes on its own is read as it is written. */
  ghost predicate LaesstStehen(f: string -> string, e: WalletEntry) {
    && f("") == "" && f("1") == "1" && f("0") == "0" && f(Dezimal(e.maxAddresses)) == Dezimal(e.maxAddresses)
    && (e.origin in ORIGINS ==> f(e.origin) == e.origin)
  }

  lemma FesteFelder(e: WalletEntry)
    ensures LaesstStehen(Gelesenes, e)
  {
    ZiffernFest(e.maxAddresses);
    GelesenesGenau(Dezimal(e.maxAddresses));
    GelesenesGenau("1");
    GelesenesGenau("0");
    GelesenesGenau("");
    if e.origin in ORIGINS { OriginFest(e.origin); }
    GelesenesGenau(e.origin);
  }

  /** The fields of a block, each as the reader gets it. */
  ghost predicate FelderVon(e: WalletEntry, feld: string -> string, f: string -> string) {
    && feld("NAME") == f(e.displayName) && feld("MAX_ADDRESSES") == f(Dezimal(e.maxAddresses))
    && feld("READ_ONLY") == f(if e.readOnly then "1" else "0") && feld("ORIGIN") == f(if e.origin in ORIGINS then e.origin else "")
    && feld("XPUB") == f(if e.kern.Einzeln? then e.kern.xpub else "") && feld("SCRIPT") == f(if e.kern.Einzeln? then e.kern.script else "")
    && feld("DESC") == f(if e.kern.Deskriptor? then e.kern.desc else "") && feld("XPUBS") == f("") && feld("M") == f("")
  }

  /** They make up the entry. */
  lemma EintragErwartet(e: WalletEntry, feld: string -> string, f: string -> string, standard: nat)
    requires FelderVon(e, feld, f) && LaesstStehen(f, e)
    ensures EintragAus(feld, standard) == Gesehen(e, f)
  {
    ZiffernFest(e.maxAddresses);
    DezimalRundreise(e.maxAddresses);
  }

  function Geschriebene(e: WalletEntry): string -> string { (f: string) => Oder(FeldWert(e, f)) }

  lemma AlleFelder(neu: map<string, string>, alt: map<string, string>, entries: seq<WalletEntry>, n: nat)
    requires Gespeichert(neu, alt, entries) && n < |entries|
    ensures forall f :: f in FELDER ==> Felder(neu, n)(f) == Gelesenes(Geschriebene(entries[n])(f))
  {
    forall f | f in FELDER ensures Feld(neu, n, f) == Gelesenes(Oder(FeldWert(entries[n], f))) { FeldZurueck(neu, alt, entries, n, f); }
  }

  lemma FelderZurueck(neu: map<string, string>, alt: map<string, string>, entries: seq<WalletEntry>, n: nat)
    requires Gespeichert(neu, alt, entries) && n < |entries|
    ensures FelderVon(entries[n], Felder(neu, n), Gelesenes)
  {
    AlleFelder(neu, alt, entries, n);
    FelderAus(entries[n], Felder(neu, n), Gelesenes);
  }

  lemma FelderAus(e: WalletEntry, feld: string -> string, f: string -> string)
    requires forall x :: x in FELDER ==> feld(x) == f(Geschriebene(e)(x))
    ensures FelderVon(e, feld, f)
  {
    Felderwerte(e, Geschriebene(e));
    FelderGelesen(e, Geschriebene(e), feld, f);
  }

  /** The fields that are written. */
  ghost predicate Feldwerte(e: WalletEntry, felder: string -> string) { FelderVon(e, felder, (v: string) => v) }

  lemma Felderwerte(e: WalletEntry, felder: string -> string)
    requires forall f :: felder(f) == Oder(FeldWert(e, f))
    ensures Feldwerte(e, felder)
  {}

  lemma FelderGelesen(e: WalletEntry, felder: string -> string, feld: string -> string, f: string -> string)
    requires Feldwerte(e, felder) && forall x :: x in FELDER ==> feld(x) == f(felder(x))
    ensures FelderVon(e, feld, f)
  {
    assert "NAME" in FELDER && "MAX_ADDRESSES" in FELDER && "XPUB" in FELDER && "DESC" in FELDER && "SCRIPT" in FELDER;
    assert "READ_ONLY" in FELDER && "ORIGIN" in FELDER && "XPUBS" in FELDER && "M" in FELDER;
  }

  lemma EintragZurueck(neu: map<string, string>, alt: map<string, string>, entries: seq<WalletEntry>, n: nat, standard: nat)
    requires Gespeichert(neu, alt, entries) && n < |entries|
    ensures BlockEintrag(neu, n, standard) == Erwartet(entries[n])
  {
    FelderZurueck(neu, alt, entries, n);
    FesteFelder(entries[n]);
    EintragErwartet(entries[n], Felder(neu, n), Gelesenes, standard);
  }

  /** A list read after saving is the list that was saved. */
  lemma ListeZurueck(neu: map<string, string>, alt: map<string, string>, entries: seq<WalletEntry>, r: seq<Gelesen>, standard: nat)
    requires Gespeichert(neu, alt, entries) && Liste(neu, standard, r)
    requires |r| !in BlockIndizes(neu) && forall i :: 0 <= i < |r| ==> i in BlockIndizes(neu)
    ensures Zurueck(r, entries)
  {
    IndexGenau(neu, alt, entries, |r|);
    IndexGenau(neu, alt, entries, |entries|);
    assert |r| > |entries| ==> |entries| in BlockIndizes(neu);
    forall i | 0 <= i < |entries| ensures BlockEintrag(neu, i, standard) == Erwartet(entries[i]) {
      EintragZurueck(neu, alt, entries, i, standard);
    }
  }

  /** Entry by entry in order, and nothing else. */
  ghost predicate Zurueck(r: seq<Gelesen>, entries: seq<WalletEntry>) {
    |r| == |entries| && forall i :: 0 <= i < |entries| ==> r[i] == Erwartet(entries[i])
  }

  lemma FeldNichtLeer(values: map<string, string>, n: nat, feld: string)
    requires feld in FELDER && Feld(values, n, feld) != ""
    ensures n in BlockIndizes(values)
  {
    BlockKeyGenau(n, feld, n, feld);
    assert BlockDa(values, BlockKey(n, feld));
  }

  lemma IndexDa(neu: map<string, string>, alt: map<string, string>, entries: seq<WalletEntry>, n: nat)
    requires Gespeichert(neu, alt, entries) && n < |entries|
    ensures n in BlockIndizes(neu)
  {
    var e := entries[n];
    assert "MAX_ADDRESSES" in FELDER && FeldWert(e, "MAX_ADDRESSES") == Some(Dezimal(e.maxAddresses));
    FeldZurueck(neu, alt, entries, n, "MAX_ADDRESSES");
    ZiffernFest(e.maxAddresses);
    GelesenesGenau(Dezimal(e.maxAddresses));
    FeldNichtLeer(neu, n, "MAX_ADDRESSES");
  }

  lemma IndexNur(neu: map<string, string>, alt: map<string, string>, entries: seq<WalletEntry>, k: string)
    requires Gespeichert(neu, alt, entries) && BlockDa(neu, k)
    ensures BlockVon(k).value.nummer < |entries|
  {
    assert Vergeben(entries, k);
    var m, feld :| 0 <= m < |entries| && BlockSchreibt(m, entries[m], feld, k);
    BlockKeyGenau(m, feld, m, feld);
  }

  lemma IndexGenau(neu: map<string, string>, alt: map<string, string>, entries: seq<WalletEntry>, n: nat)
    requires Gespeichert(neu, alt, entries)
    ensures n in BlockIndizes(neu) <==> n < |entries|
  {
    if n < |entries| { IndexDa(neu, alt, entries, n); }
    if n in BlockIndizes(neu) {
      var k :| k in neu && BlockDa(neu, k) && BlockVon(k).value.nummer == n;
      IndexNur(neu, alt, entries, k);
    }
  }

  /** What the block format is recognised by: the key or the descriptor of an entry. */
  function Kennung(e: WalletEntry): string { match e.kern case Deskriptor(desc) => desc case Einzeln(xpub, _) => xpub }

  /** The first entry names a key or a descriptor: that decides whether the block format is read at all. */
  predicate ErsterBenannt(entries: seq<WalletEntry>) { entries != [] && Gelesenes(Kennung(entries[0])) != "" }

  /** `validate_wallets` rejects an entry without key or descriptor. */
  predicate AlleBenannt(entries: seq<WalletEntry>) { forall e :: e in entries ==> Kennung(e) != "" }

  lemma KeinAlterSchluessel(neu: map<string, string>, alt: map<string, string>, k: string)
    requires Gespeichert(neu, alt, []) && k in neu
    ensures !AlterSchluessel(k)
  {
    assert !Vergeben([], k);
  }

  lemma ErsterGenau(e: WalletEntry, feld: string -> string, f: string -> string)
    requires FelderVon(e, feld, f) && f("") == ""
    ensures ErsterBlock(feld) <==> f(Kennung(e)) != ""
  {}

  lemma KeinBlock(neu: map<string, string>, alt: map<string, string>, feld: string)
    requires Gespeichert(neu, alt, []) && feld in FELDER
    ensures Feld(neu, 0, feld) == ""
  {
    BlockKeyGenau(0, feld, 0, feld);
    if BlockKey(0, feld) in neu { KeinAlterSchluessel(neu, alt, BlockKey(0, feld)); }
  }

  lemma HatBloeckeGenau(neu: map<string, string>, alt: map<string, string>, entries: seq<WalletEntry>)
    requires Gespeichert(neu, alt, entries)
    ensures HatBloecke(neu) <==> ErsterBenannt(entries)
  {
    if entries == [] {
      KeinBlock(neu, alt, "XPUB");
      KeinBlock(neu, alt, "XPUBS");
      KeinBlock(neu, alt, "DESC");
    } else {
      FelderZurueck(neu, alt, entries, 0);
      GelesenesGenau("");
      ErsterGenau(entries[0], Felder(neu, 0), Gelesenes);
    }
  }

  /** After saving the empty list no key of an old format is left. */
  lemma LeereListe(neu: map<string, string>, alt: map<string, string>)
    requires Gespeichert(neu, alt, [])
    ensures AlteXpubs(neu) == []
  {
    var k := "XPUB_" + Dezimal(0);
    assert k[5..] == "0" && Ziffern("0") == 1 && AltIndiziert(k);
    if k in neu { KeinAlterSchluessel(neu, alt, k); }
    if "XPUBS" in neu { KeinAlterSchluessel(neu, alt, "XPUBS"); }
    assert Wert1(neu, "XPUBS") == "" && Wert1(neu, k) == "";
  }

  // ---------------------------------------------------------------- without line breaks

  predicate EintragEinzeilig(e: WalletEntry) {
    Einzeilig(e.displayName) && match e.kern case Deskriptor(desc) => Einzeilig(desc) case Einzeln(xpub, script) => Einzeilig(xpub) && Einzeilig(script)
  }

  ghost predicate AlleEinzeilig(lines: seq<string>) { forall l :: l in lines ==> Einzeilig(l) }

  lemma ZeileEinzeilig(k: string, v: string)
    requires Einzeilig(k) && Einzeilig(v)
    ensures Einzeilig(Zeile(k, v))
  {}

  lemma DezimalEinzeilig(n: nat)
    ensures Einzeilig(Dezimal(n))
  {
    forall i | 0 <= i < |Dezimal(n)| ensures !Umbruch(Dezimal(n)[i]) { assert Ziffer(Dezimal(n)[i]); }
  }

  lemma BlockZeileEinzeilig(n: nat, e: WalletEntry, feld: string)
    requires feld in FELDER && FeldWert(e, feld).Some? && EintragEinzeilig(e)
    ensures Einzeilig(Zeile(BlockKey(n, feld), FeldWert(e, feld).value))
  {
    FelderZeichen(feld);
    DezimalEinzeilig(n);
    DezimalEinzeilig(e.maxAddresses);
    forall i | 0 <= i < |feld| ensures !Umbruch(feld[i]) { assert FeldZeichen(feld[i]); }
    assert Einzeilig("WALLET_") && Einzeilig("_");
    ZeileEinzeilig(BlockKey(n, feld), FeldWert(e, feld).value);
  }

  lemma UpdateEinzeilig(entries: seq<WalletEntry>, vorhandene: map<string, string>, u: Aenderung)
    requires (forall e :: e in entries ==> EintragEinzeilig(e)) && u.wert.Some?
    requires u.key in Updates(entries, vorhandene) && Updates(entries, vorhandene)[u.key] == u.wert
    ensures Einzeilig(Zeile(u.key, u.wert.value))
  {
    UpdatesKeys(entries, vorhandene, u.key);
    var n, feld :| 0 <= n < |entries| && BlockSchreibt(n, entries[n], feld, u.key);
    UpdatesBlock(entries, vorhandene, n, feld);
    BlockZeileEinzeilig(n, entries[n], feld);
  }

  lemma GesetztEinzeilig(lines: seq<string>, key: string, neu: string)
    requires AlleEinzeilig(lines) && Einzeilig(neu)
    ensures AlleEinzeilig(Gesetzt(Split, NurWeiss, lines, key, neu))
  {
    assert Einzeilig(ANHANG_MARKER) && Einzeilig("");
    forall l | l in Gesetzt(Split, NurWeiss, lines, key, neu) ensures l in lines || l == neu || l == "" || l == ANHANG_MARKER {}
  }

  lemma AndereEinzeilig(keys: set<string>, lines: seq<string>)
    requires AlleEinzeilig(lines)
    ensures AlleEinzeilig(Andere(Split, keys, lines))
  {
    forall l | l in Andere(Split, keys, lines) ensures Einzeilig(l) { AndereTeil(Split, keys, lines, l); }
  }

  lemma {:induction false} AngewandtEinzeilig(lines: seq<string>, ups: seq<Aenderung>)
    requires AlleEinzeilig(lines) && forall u :: u in ups && u.wert.Some? ==> Einzeilig(Zeile(u.key, u.wert.value))
    ensures AlleEinzeilig(Angewandt(Split, NurWeiss, lines, ups))
  {
    if ups != [] {
      var vor, u := ups[..|ups| - 1], ups[|ups| - 1];
      assert u in ups && forall x :: x in vor ==> x in ups;
      AngewandtEinzeilig(lines, vor);
      var dann := Angewandt(Split, NurWeiss, lines, vor);
      if u.wert.None? { AndereEinzeilig({u.key}, dann); } else { GesetztEinzeilig(dann, u.key, Zeile(u.key, u.wert.value)); }
    }
  }

  lemma {:induction false} WerteEinzeilig(lines: seq<string>, k: string)
    requires AlleEinzeilig(lines) && k in Werte(Split, lines)
    ensures Einzeilig(Werte(Split, lines)[k])
  {
    var n := |lines| - 1;
    assert lines[n] in lines && forall l :: l in lines[..n] ==> l in lines;
    SplitTeil(lines[n]);
    if !Vergibt(Split, lines[n], k) { WerteEinzeilig(lines[..n], k); }
  }

  /** Whatever is read of a file has no line break in it. */
  lemma FeldEinzeilig(lines: seq<string>, n: nat, feld: string)
    requires AlleEinzeilig(lines)
    ensures Einzeilig(Feld(Werte(Split, lines), n, feld))
  {
    var k := BlockKey(n, feld);
    if k in Werte(Split, lines) {
      WerteEinzeilig(lines, k);
      StripTeil(Weiss, Werte(Split, lines)[k]);
    }
  }

  lemma EintragAusDateiEinzeilig(lines: seq<string>, n: nat, standard: nat, e: WalletEntry)
    requires AlleEinzeilig(lines) && BlockEintrag(Werte(Split, lines), n, standard) == Original(e)
    ensures EintragEinzeilig(e)
  {
    FeldEinzeilig(lines, n, "NAME");
    FeldEinzeilig(lines, n, "XPUB");
    FeldEinzeilig(lines, n, "DESC");
    FeldEinzeilig(lines, n, "SCRIPT");
  }

  /** Through the file the values are the same, if no line has a break in it. */
  lemma DateiGleich(lines: seq<string>)
    requires AlleEinzeilig(lines)
    ensures Werte(Split, Zeilen(Render(lines))) == Werte(Split, lines)
  {
    if lines == [] {
      MarkerKeineZuweisung();
      assert ErsterUmbruch("\n") == 0 && Zeilen("\n") == [""] + Zeilen("\n"[1..]);
      assert [""][..0] == [];
    } else {
      RenderGenau(lines);
    }
  }

  // ------------------------------------------------------------------------- the round trip

  /** Saving the wallet list: the editor applies the updates for the values it has. */
  method SpeichereWallets(env: EnvFile, entries: seq<WalletEntry>)
    modifies env
    ensures Gespeichert(Werte(Split, env.lines), Werte(Split, old(env.lines)), entries)
    ensures exists a :: AlsAnhang(a) && AndereZeilen(env.lines, old(env.lines), entries, a)
    ensures AlleEinzeilig(old(env.lines)) && (forall e :: e in entries ==> EintragEinzeilig(e)) ==> AlleEinzeilig(env.lines)
  {
    var values := env.Values();
    var updates := WalletUpdates(entries, values);
    var ups := Items(updates);
    ghost var alt := env.lines;
    env.Apply(ups);
    MarkerKeineZuweisung();
    forall u | u in ups ensures u.key in updates && Lesbar(Split, u) { UpdatesLesbar(entries, values, u); }
    WerteAngewandt(Split, NurWeiss, alt, ups);
    UpdatesGespeichert(entries, values, ups, Werte(Split, env.lines));
    ghost var a := AndereAngewandt(Split, NurWeiss, updates.Keys, alt, ups);
    assert AndereZeilen(env.lines, alt, entries, a);
    if AlleEinzeilig(alt) && forall e :: e in entries ==> EintragEinzeilig(e) {
      forall u | u in ups && u.wert.Some? ensures Einzeilig(Zeile(u.key, u.wert.value)) { UpdateEinzeilig(entries, values, u); }
      AngewandtEinzeilig(alt, ups);
    }
  }

  /** All lines but those of the keys of the update, in order, and what was put behind them. */
  ghost predicate AndereZeilen(neu: seq<string>, alt: seq<string>, entries: seq<WalletEntry>, a: seq<string>) {
    var keys := Updates(entries, Werte(Split, alt)).Keys;
    Andere(Split, keys, neu) == Andere(Split, keys, alt) + a
  }

  /** Entries in the block format, or the keys of the old formats, one entry each. */
  datatype Wallets = Bloecke(eintraege: seq<Gelesen>) | Alte(xpubs: seq<string>)

  /** What the reader makes of the values. */
  ghost predicate GelesenAus(r: Wallets, v: map<string, string>, standard: nat) {
    if HatBloecke(v)
    then r.Bloecke? && |r.eintraege| !in BlockIndizes(v) && (forall i :: 0 <= i < |r.eintraege| ==> i in BlockIndizes(v)) && Liste(v, standard, r.eintraege)
    else r == Alte(AlteXpubs(v))
  }

  /** `read_wallets` */
  method ReadWallets(env: EnvFile, standard: nat) returns (r: Wallets)
    ensures GelesenAus(r, Werte(Split, env.lines), standard)
  {
    var values := env.Values();
    if HatBloecke(values) {
      var eintraege := ReadBloecke(values, standard);
      r := Bloecke(eintraege);
    } else {
      r := Alte(AlteXpubs(values));
    }
  }

  /** The list is read as it was given; the empty one as no entries at all. */
  ghost predicate Unversehrt(r: Wallets, entries: seq<WalletEntry>) {
    if entries == [] then r == Alte([])
    else r.Bloecke? && |r.eintraege| == |entries| && forall i :: 0 <= i < |entries| ==> r.eintraege[i] == Original(entries[i])
  }

  /** What the reader says after saving, from the values it finds. */
  lemma GelesenNach(neu: map<string, string>, alt: map<string, string>, entries: seq<WalletEntry>, r: Wallets, standard: nat)
    requires Gespeichert(neu, alt, entries) && GelesenAus(r, neu, standard)
    ensures r.Bloecke? <==> ErsterBenannt(entries)
    ensures r.Bloecke? ==> Zurueck(r.eintraege, entries)
    ensures entries == [] ==> r == Alte([])
  {
    HatBloeckeGenau(neu, alt, entries);
    if r.Bloecke? { ListeZurueck(neu, alt, entries, r.eintraege, standard); }
    if entries == [] { LeereListe(neu, alt); }
  }

  lemma UnversehrtGenau(entries: seq<WalletEntry>, r: Wallets)
    requires AlleBenannt(entries) && (r.Bloecke? <==> ErsterBenannt(entries)) && (r.Bloecke? ==> Zurueck(r.eintraege, entries))
    requires entries == [] ==> r == Alte([])
    ensures Unversehrt(r, entries) <==> forall e :: e in entries ==> EintragFest(e)
  {
    forall i | 0 <= i < |entries| ensures Erwartet(entries[i]) == Original(entries[i]) <==> EintragFest(entries[i]) { ErwartetGenau(entries[i]); }
    if entries != [] {
      assert entries[0] in entries;
      GelesenesGenau(Kennung(entries[0]));
    }
  }

  lemma UnversehrtEinzeilig(lines: seq<string>, entries: seq<WalletEntry>, r: Wallets, standard: nat)
    requires AlleEinzeilig(lines) && GelesenAus(r, Werte(Split, lines), standard) && Unversehrt(r, entries)
    ensures forall e :: e in entries ==> EintragEinzeilig(e)
  {
    forall i | 0 <= i < |entries| ensures EintragEinzeilig(entries[i]) { EintragAusDateiEinzeilig(lines, i, standard, entries[i]); }
  }

  /**
   * The round trip through the file: the text is taken apart, the list saved, the lines written and read
   * again. A list that passed the validation comes back as it was given exactly if none of its strings has a
   * line break or outer blanks or quotes; the empty list always comes back empty.
   */
  method SpeichernUndLesen(text: string, entries: seq<WalletEntry>, standard: nat) returns (neu: string, r: Wallets)
    requires AlleBenannt(entries)
    ensures Unversehrt(r, entries) <==> forall e :: e in entries ==> EintragFest(e) && EintragEinzeilig(e)
    ensures (forall e :: e in entries ==> EintragEinzeilig(e)) && r.Bloecke? ==> Zurueck(r.eintraege, entries)
    ensures (forall e :: e in entries ==> EintragEinzeilig(e)) ==>
              (r.Bloecke? <==> ErsterBenannt(entries)) && Gespeichert(Werte(Split, Zeilen(neu)), Werte(Split, Zeilen(text)), entries)
  {
    var env := new EnvFile(Zeilen(text));
    SpeichereWallets(env, entries);
    neu := Render(env.lines);
    ghost var lines := env.lines;
    var wieder := new EnvFile(Zeilen(neu));
    r := ReadWallets(wieder, standard);
    if forall e :: e in entries ==> EintragEinzeilig(e) {
      DateiGleich(lines);
      GelesenNach(Werte(Split, Zeilen(neu)), Werte(Split, Zeilen(text)), entries, r, standard);
      UnversehrtGenau(entries, r);
    } else if Unversehrt(r, entries) {
      UnversehrtEinzeilig(Zeilen(neu), entries, r, standard);
    }
  }

  const IN_ANFUEHRUNG := "'Alt'"

  lemma NameGelesen()
    ensures Gelesenes(IN_ANFUEHRUNG) == "Alt" && !Wertfest(IN_ANFUEHRUNG) && Einzeilig(IN_ANFUEHRUNG)
  {
    var s := IN_ANFUEHRUNG;
    StripGenau(Weiss, s);
    StripGenau(Doppelt, s);
    assert s[1..] == "Alt'" && OhneVorn(Einfach, s) == "Alt'";
    assert "Alt'"[..3] == "Alt" && OhneHinten(Einfach, "Alt") == "Alt" && OhneHinten(Einfach, "Alt'") == "Alt";
    StripGenau(Weiss, "Alt");
  }

  lemma BeispielEintrag(e: WalletEntry, xpub: string)
    requires e.displayName == IN_ANFUEHRUNG && e.kern == Einzeln(xpub, "auto") && xpub != "" && Wertfest(xpub) && Einzeilig(xpub)
    ensures !EintragFest(e) && EintragEinzeilig(e) && Erwartet(e).name == "Alt" && ErsterBenannt([e])
  {
    NameGelesen();
    GelesenesGenau(xpub);
    assert Einzeilig("auto");
  }

  lemma BeispielGelesen(e: WalletEntry, r: Wallets)
    requires r.Bloecke? && Zurueck(r.eintraege, [e]) && Erwartet(e).name == "Alt"
    ensures |r.eintraege| == 1 && r.eintraege[0].name == "Alt"
  {
    assert [e][0] == e;
  }

  /** A wallet whose name stands in quotes comes back under another name. */
  method NameInAnfuehrung(text: string, xpub: string) returns (neu: string, r: Wallets)
    requires xpub != "" && Wertfest(xpub) && Einzeilig(xpub)
    ensures !Unversehrt(r, [WalletEntry(IN_ANFUEHRUNG, Einzeln(xpub, "auto"), 50, false, "xpub")])
    ensures r.Bloecke? && |r.eintraege| == 1 && r.eintraege[0].name == "Alt"
  {
    var e := WalletEntry(IN_ANFUEHRUNG, Einzeln(xpub, "auto"), 50, false, "xpub");
    BeispielEintrag(e, xpub);
    neu, r := SpeichernUndLesen(text, [e], 50);
    BeispielGelesen(e, r);
  }
}
