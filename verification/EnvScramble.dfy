/** The encrypted configuration file and its session key (core/env_scramble.py). */
module EnvScramble {
  import opened Ordnung

  const MAGIC := "SSGB1\n"
  const KDF_TIME := 3
  const KDF_MEMORY := 65_536
  const KDF_PARALLELISM := 2
  const NONCE_LEN := 12

  datatype Kopf = Kopf(t: nat, m: nat, p: nat, salt: string)

  /** Key derivation, authenticated encryption, and the printed header. */
  datatype Krypto = Krypto(
    kdf: (string, string, nat, nat, nat) -> string,
    enc: (string, string, string, string) -> string, dec: (string, string, string, string) -> Option<string>,
    druck: Kopf -> string, lese: string -> Option<Kopf>)

  /** An ideal cipher: the right key opens, any other does not; different passwords give different keys; headers print on one line. */
  ghost predicate Ideal(c: Krypto) {
    && (forall k, n, x, a :: |c.enc(k, n, x, a)| >= 16 && c.dec(k, n, c.enc(k, n, x, a), a) == Some(x))
    && (forall k, k', n, x, a :: k != k' ==> c.dec(k', n, c.enc(k, n, x, a), a) == None)
    && (forall pw, pw', s, t, m, p :: c.kdf(pw, s, t, m, p) == c.kdf(pw', s, t, m, p) ==> pw == pw')
    && (forall h :: c.lese(c.druck(h)) == Some(h) && '\n' !in c.druck(h))
  }

  /** A value, or an exception: locked or any other. */
  datatype Ergebnis<+T> = Ok(value: T) | Fehler(gesperrt: bool)

  // ------------------------------------------------------------------ the file format

  /** The first blank line. */
  function Leerzeile(s: string): Option<nat> {
    if |s| < 2 then None
    else if s[0] == '\n' && s[1] == '\n' then Some(0)
    else match Leerzeile(s[1..]) case None => None case Some(i) => Some(i + 1)
  }

  lemma {:induction false} LeerzeileNach(a: string, b: string)
    requires '\n' !in a
    ensures Leerzeile(a + "\n\n" + b) == Some(|a|)
  {
    var s := a + "\n\n" + b;
    if a != [] {
      LeerzeileNach(a[1..], b);
      assert s[0] == a[0] && s[1..] == a[1..] + "\n\n" + b;
    }
  }

  datatype Inhalt = Inhalt(kopf: Kopf, nonce: string, chiffre: string)

  function Pack(c: Krypto, i: Inhalt): string { MAGIC + c.druck(i.kopf) + "\n\n" + i.nonce + i.chiffre }

  function Unpack(c: Krypto, data: string): Ergebnis<Inhalt> {
    if !(MAGIC <= data) then Fehler(false)
    else
      var rest := data[|MAGIC|..];
      match Leerzeile(rest)
      case None => Fehler(false)
      case Some(sep) =>
        if sep + 2 > |rest| then Fehler(false)
        else match c.lese(rest[..sep])
          case None => Fehler(false)
          case Some(kopf) =>
            var body := rest[sep + 2..];
            if |body| < NONCE_LEN + 16 then Fehler(false) else Ok(Inhalt(kopf, body[..NONCE_LEN], body[NONCE_LEN..]))
  }

  /** What was packed is unpacked again, whatever bytes the nonce and the ciphertext have. */
  lemma PackRundreise(c: Krypto, i: Inhalt)
    requires Ideal(c) && |i.nonce| == 12 && |i.chiffre| >= 16
    ensures "SSGB1\n" <= Pack(c, i) && Unpack(c, Pack(c, i)) == Ok(i)
  {
    var data, kopf := Pack(c, i), c.druck(i.kopf);
    var rest := data[|MAGIC|..];
    assert rest == kopf + "\n\n" + (i.nonce + i.chiffre);
    LeerzeileNach(kopf, i.nonce + i.chiffre);
    assert rest[..|kopf|] == kopf && rest[|kopf| + 2..] == i.nonce + i.chiffre;
  }

  // ---------------------------------------------------------------- encryption

  function Oder(x: nat, d: nat): nat { if x == 0 then d else x }

  function KeyVon(c: Krypto, password: string, kopf: Kopf): string {
    c.kdf(password, kopf.salt, Oder(kopf.t, KDF_TIME), Oder(kopf.m, KDF_MEMORY), Oder(kopf.p, KDF_PARALLELISM))
  }

  /** The parameters of the header count, and where one is missing the default. */
  lemma KeyAusKopf(c: Krypto, password: string, kopf: Kopf)
    ensures KeyVon(c, password, kopf) ==
            c.kdf(password, kopf.salt, if kopf.t > 0 then kopf.t else 3, if kopf.m > 0 then kopf.m else 65_536, if kopf.p > 0 then kopf.p else 2)
  {}

  function DeriveFileKey(c: Krypto, password: string, kopf: Kopf): Ergebnis<string> {
    if password == "" || |kopf.salt| < 8 then Fehler(false) else Ok(KeyVon(c, password, kopf))
  }

  function Verschluesselt(c: Krypto, key: string, kopf: Kopf, nonce: string, text: string): string {
    Pack(c, Inhalt(kopf, nonce, c.enc(key, nonce, text, c.druck(kopf))))
  }

  function NeuerKopf(salt: string): Kopf { Kopf(KDF_TIME, KDF_MEMORY, KDF_PARALLELISM, salt) }

  function DecryptWithKey(c: Krypto, blob: string, key: string): Ergebnis<string> {
    match Unpack(c, blob)
    case Fehler(g) => Fehler(g)
    case Ok(i) => match c.dec(key, i.nonce, i.chiffre, c.druck(i.kopf)) case None => Fehler(false) case Some(x) => Ok(x)
  }

  function Decrypt(c: Krypto, blob: string, password: string): Ergebnis<(string, string, Kopf)> {
    match Unpack(c, blob)
    case Fehler(g) => Fehler(g)
    case Ok(i) =>
      match DeriveFileKey(c, password, i.kopf)
      case Fehler(g) => Fehler(g)
      case Ok(key) => match DecryptWithKey(c, blob, key) case Fehler(g) => Fehler(g) case Ok(x) => Ok((x, key, i.kopf))
  }

  /** Exactly the password of an encrypted text opens it, and exactly its key. */
  lemma OeffnetGenau(c: Krypto, password: string, kopf: Kopf, nonce: string, text: string, versuch: string)
    requires Ideal(c) && password != "" && |kopf.salt| >= 8 && |nonce| == NONCE_LEN
    ensures var key := KeyVon(c, password, kopf);
            var blob := Verschluesselt(c, key, kopf, nonce, text);
            && MAGIC <= blob && DecryptWithKey(c, blob, key) == Ok(text)
            && Decrypt(c, blob, versuch) == if versuch == password then Ok((text, key, kopf)) else Fehler(false)
  {
    var key := KeyVon(c, password, kopf);
    PackRundreise(c, Inhalt(kopf, nonce, c.enc(key, nonce, text, c.druck(kopf))));
  }

  // ------------------------------------------------------------------- plain text

  function MitZeilenende(text: string): string { if text != [] && text[|text| - 1] == '\n' then text else text + "\n" }

  /** Reading in text mode: every line end becomes a newline. */
  function AlsText(s: string): (r: string)
    ensures '\r' !in r
    ensures r == s <==> '\r' !in s
  {
    if s == "" then ""
    else if s[0] == '\r' then ['\n'] + AlsText(if |s| > 1 && s[1] == '\n' then s[2..] else s[1..])
    else
      assert s == [s[0]] + s[1..];
      [s[0]] + AlsText(s[1..])
  }

  lemma AlsTextKopf(c: char, s: string)
    requires c != '\r'
    ensures AlsText([c] + s) == [c] + AlsText(s)
  {
    assert ([c] + s)[1..] == s;
  }

  lemma {:induction false} AlsTextDahinter(a: string, s: string)
    requires '\r' !in a
    ensures AlsText(a + s) == a + AlsText(s)
  {
    hide AlsText;
    if a == "" { assert a + s == s; } else {
      var rest := a[1..];
      assert a == [a[0]] + rest && a[0] in a && forall c :: c in rest ==> c in a;
      AlsTextDahinter(rest, s);
      AlsTextKopf(a[0], rest + s);
      assert a + s == [a[0]] + (rest + s) && a + AlsText(s) == [a[0]] + (rest + AlsText(s));
    }
  }

  lemma AlsTextVorn(b: string)
    ensures AlsText("\r\n" + b) == "\n" + AlsText(b)
    ensures b == "" || b[0] != '\n' ==> AlsText("\r" + b) == "\n" + AlsText(b)
  {
    assert ("\r\n" + b)[2..] == b && ("\r" + b)[1..] == b;
  }

  /** A carriage return ends a line, alone or together with the newline behind it. */
  lemma AlsTextZeilenende(a: string, b: string)
    requires '\r' !in a
    ensures AlsText(a + ("\r\n" + b)) == a + ("\n" + AlsText(b))
    ensures b == "" || b[0] != '\n' ==> AlsText(a + ("\r" + b)) == a + ("\n" + AlsText(b))
  {
    hide AlsText;
    AlsTextDahinter(a, "\r\n" + b);
    AlsTextDahinter(a, "\r" + b);
    AlsTextVorn(b);
  }

  // ---------------------------------------------------- what a user may rely on

  /**
   * No file; a plain text; a text under a password, unlocked or not; a plain text that looks encrypted, with
   * the password that opened it if one happened to.
   */
  datatype Modell = Keine | Klar(text: string) | Geheim(password: string, text: string, offen: bool) | Verwechselt(blob: string, mit: Option<string>)

  datatype Op =
    | Enable(text: string, pw: string) | Save(text: string) | Lock | Unlock(pw: string) | Change(alt: string, neu: string)
    | Disable(pw: string) | Discard

  /** A plain text on disk; one that starts like an encrypted file will be taken for one. */
  function Abgelegt(text: string): Modell { if MAGIC <= text then Verwechselt(text, None) else Klar(text) }

  function Danach(c: Krypto, m: Modell, op: Op): Modell {
    match op
    case Enable(text, pw) => if pw == "" then m else Geheim(pw, MitZeilenende(text), true)
    case Save(text) =>
      (match m
       case Geheim(pw, _, offen) => if offen then Geheim(pw, MitZeilenende(text), true) else m
       case Verwechselt(_, mit) => if mit.Some? then Geheim(mit.value, MitZeilenende(text), true) else m
       case _ => Abgelegt(MitZeilenende(text)))
    case Lock => (match m case Geheim(_, _, _) => m.(offen := false) case Verwechselt(_, _) => m.(mit := None) case _ => m)
    case Unlock(pw) =>
      (match m
       case Geheim(password, _, _) => if pw == password then m.(offen := true) else m
       case Klar(text) => if pw == "" then m else Geheim(pw, MitZeilenende(AlsText(text)), true)
       case Verwechselt(blob, _) => if Decrypt(c, blob, pw).Ok? then m.(mit := Some(pw)) else m
       case Keine => m)
    case Change(alt, neu) =>
      (match m
       case Geheim(password, text, _) => if alt != password then m else if neu == "" then m.(offen := true) else Geheim(neu, text, true)
       case Klar(text) => if neu == "" then m else Geheim(neu, AlsText(text), true)
       case Verwechselt(blob, _) =>
         (match Decrypt(c, blob, alt) case Fehler(_) => m case Ok(x) => if neu == "" then m.(mit := Some(alt)) else Geheim(neu, x.0, true))
       case Keine => m)
    case Disable(pw) =>
      (match m
       case Geheim(password, text, _) => if pw == password then Abgelegt(MitZeilenende(text)) else m
       case Klar(text) => Abgelegt(MitZeilenende(AlsText(text)))
       case Verwechselt(blob, _) => (match Decrypt(c, blob, pw) case Fehler(_) => m case Ok(x) => Abgelegt(MitZeilenende(x.0)))
       case Keine => m)
    case Discard => Klar("\n")
  }

  /** The text that a password opens. */
  function Klartext(c: Krypto, blob: string, pw: string): Ergebnis<string> {
    match Decrypt(c, blob, pw) case Fehler(g) => Fehler(g) case Ok(x) => Ok(x.0)
  }

  /** What loading shows. */
  function Geladen(c: Krypto, m: Modell): Ergebnis<string> {
    match m
    case Keine => Ok("")
    case Klar(text) => Ok(AlsText(text))
    case Geheim(_, text, offen) => if offen then Ok(text) else Fehler(true)
    case Verwechselt(blob, mit) => if mit.Some? then Klartext(c, blob, mit.value) else Fehler(true)
  }

  /** What unlocking shows. */
  function Entsperrt(c: Krypto, m: Modell, pw: string): Ergebnis<string> {
    match m
    case Keine => Fehler(false)
    case Klar(text) => if pw == "" then Fehler(false) else Ok(AlsText(text))
    case Geheim(password, text, _) => if pw == password then Ok(text) else Fehler(false)
    case Verwechselt(blob, _) => Klartext(c, blob, pw)
  }

  /** The plain text of the file, opened with the password if it is encrypted. */
  function MitPasswort(c: Krypto, m: Modell, pw: string): Ergebnis<string> { if m.Klar? then Ok(AlsText(m.text)) else Entsperrt(c, m, pw) }

  lemma DisableGenau(c: Krypto, m: Modell, pw: string)
    ensures Danach(c, m, Disable(pw)) == match MitPasswort(c, m, pw) case Ok(x) => Abgelegt(MitZeilenende(x)) case Fehler(_) => m
  {}

  /** What saving answers: it is refused while an encrypted file, or one taken for it, is locked. */
  function Gespeichert(m: Modell): Ergebnis<()> {
    if (m.Geheim? && !m.offen) || (m.Verwechselt? && m.mit.None?) then Fehler(true) else Ok(())
  }

  /** A password that opens a file derives its key from the file's header. */
  lemma DecryptSitzung(c: Krypto, blob: string, pw: string)
    requires Decrypt(c, blob, pw).Ok?
    ensures var (x, key, kopf) := Decrypt(c, blob, pw).value;
            pw != "" && |kopf.salt| >= 8 && key == KeyVon(c, pw, kopf) && DecryptWithKey(c, blob, key) == Ok(x)
  {}

  // ------------------------------------------------------------- the environment

  class Umgebung {
    const c: Krypto
    var datei: Option<string>
    var key: Option<string>
    var kopf: Option<Kopf>
    ghost var modell: Modell
    ghost var dateiKopf: Kopf
    ghost var dateiNonce: string

    constructor (c: Krypto)
      requires Ideal(c)
      ensures Valid() && this.c == c && modell == Keine
    {
      this.c, datei, key, kopf, modell := c, None, None, None, Keine;
      dateiKopf, dateiNonce := NeuerKopf("00000000"), "";
    }

    /** File and session are what the model says; an open session has the key and the header of the file. */
    ghost predicate Valid()
      reads this
    {
      && Ideal(c) && (key.None? ==> kopf.None?)
      && match modell
         case Keine => datei == None && key == None
         case Klar(text) => datei == Some(text) && !(MAGIC <= text) && key == None
         case Geheim(pw, text, offen) =>
           && pw != "" && |dateiKopf.salt| >= 8 && |dateiNonce| == NONCE_LEN
           && datei == Some(Verschluesselt(c, KeyVon(c, pw, dateiKopf), dateiKopf, dateiNonce, text))
           && (if offen then key == Some(KeyVon(c, pw, dateiKopf)) && kopf == Some(dateiKopf) else key == None)
         case Verwechselt(blob, mit) =>
           && datei == Some(blob) && MAGIC <= blob
           && match mit
              case None => key == None
              case Some(pw) => Decrypt(c, blob, pw).Ok? && key == Some(Decrypt(c, blob, pw).value.1) && kopf == Some(Decrypt(c, blob, pw).value.2)
    }

    predicate IstScrambled()
      reads this
    {
      datei.Some? && MAGIC <= datei.value
    }

    /** `write_scrambled_atomic`: a new salt, hence a new key. */
    method SchreibeMitPasswort(text: string, pw: string, salt: string, nonce: string) returns (ok: bool)
      requires Ideal(c) && |salt| == 16 && |nonce| == NONCE_LEN
      modifies this
      ensures ok <==> pw != ""
      ensures ok ==> modell == Geheim(pw, text, true) && Valid() && dateiKopf == Kopf(3, 65_536, 2, salt)
      ensures !ok ==> unchanged(this)
    {
      var neu := NeuerKopf(salt);
      var k := DeriveFileKey(c, pw, neu);
      if k.Fehler? { return false; }
      key, kopf, datei := Some(k.value), Some(neu), Some(Verschluesselt(c, k.value, neu, nonce, text));
      modell, dateiKopf, dateiNonce := Geheim(pw, text, true), neu, nonce;
      ok := true;
    }

    /** The password of the open session. */
    ghost function Sitzung(): Option<string>
      reads this
    {
      if modell.Geheim? && modell.offen then Some(modell.password) else if modell.Verwechselt? then modell.mit else None
    }

    lemma SitzungGenau()
      requires Valid()
      ensures Sitzung().Some? <==> key.Some?
      ensures Sitzung().Some? ==> kopf.Some? && |kopf.value.salt| >= 8 && Sitzung().value != ""
      ensures Sitzung().Some? ==> key.value == KeyVon(c, Sitzung().value, kopf.value)
    {
      if modell.Verwechselt? && modell.mit.Some? { DecryptSitzung(c, modell.blob, modell.mit.value); }
    }

    /** `write_scrambled_with_key_atomic`: salt and parameters of the session's header are used again. */
    method SchreibeMitKey(text: string, nonce: string)
      requires Valid() && Sitzung().Some? && key.Some? && |nonce| == NONCE_LEN
      modifies this
      ensures Valid() && modell == Geheim(old(Sitzung()).value, text, true) && key == old(key)
    {
      SitzungGenau();
      var tpl := kopf.value;
      var neu := Kopf(Oder(tpl.t, KDF_TIME), Oder(tpl.m, KDF_MEMORY), Oder(tpl.p, KDF_PARALLELISM), tpl.salt);
      datei, kopf := Some(Verschluesselt(c, key.value, neu, nonce, text)), Some(neu);
      modell, dateiKopf, dateiNonce := Geheim(Sitzung().value, text, true), neu, nonce;
    }

    /** `_write_text_atomic` without a session. */
    method SchreibeKlartext(text: string)
      requires Ideal(c)
      modifies this
      ensures Valid() && modell == Abgelegt(MitZeilenende(text)) && key == None
    {
      datei, key, kopf := Some(MitZeilenende(text)), None, None;
      modell := Abgelegt(MitZeilenende(text));
    }

    /** An encrypted file, or what looks like one, answers to a password as the model says. */
    lemma DateiGenau(pw: string)
      requires Valid()
      ensures IstScrambled() <==> modell.Geheim? || modell.Verwechselt?
      ensures IstScrambled() && key.Some? ==> DecryptWithKey(c, datei.value, key.value) == Geladen(c, modell)
      ensures modell.Geheim? && pw == modell.password ==> Decrypt(c, datei.value, pw) == Ok((modell.text, KeyVon(c, pw, dateiKopf), dateiKopf))
      ensures modell.Geheim? && pw != modell.password ==> Decrypt(c, datei.value, pw) == Fehler(false)
    {
      if modell.Geheim? { OeffnetGenau(c, modell.password, dateiKopf, dateiNonce, modell.text, pw); }
      if modell.Verwechselt? && modell.mit.Some? { DecryptSitzung(c, modell.blob, modell.mit.value); }
    }

    /** `read_scrambled`: a password that opens the file opens the session, any other changes nothing. */
    method ReadScrambled(pw: string) returns (r: Ergebnis<string>)
      requires Valid() && IstScrambled()
      modifies this
      ensures Valid() && modell == Danach(c, old(modell), Unlock(pw)) && r == Entsperrt(c, old(modell), pw)
      ensures r.Fehler? ==> unchanged(this)
    {
      DateiGenau(pw);
      var d := Decrypt(c, datei.value, pw);
      if d.Fehler? { return Fehler(d.gesperrt); }
      key, kopf := Some(d.value.1), Some(d.value.2);
      modell := if modell.Geheim? then modell.(offen := true) else modell.(mit := Some(pw));
      r := Ok(d.value.0);
    }

    /** `enable_scramble` */
    method EnableScramble(text: string, pw: string, salt: string, nonce: string) returns (ok: bool)
      requires Valid() && |salt| == 16 && |nonce| == NONCE_LEN
      modifies this
      ensures Valid() && modell == Danach(c, old(modell), Enable(text, pw)) && (ok <==> pw != "") && (!ok ==> unchanged(this))
    {
      ok := SchreibeMitPasswort(MitZeilenende(text), pw, salt, nonce);
    }

    /** `clear_session_key`, at logout or restart */
    method ClearSessionKey()
      requires Valid()
      modifies this
      ensures Valid() && modell == Danach(c, old(modell), Lock) && datei == old(datei)
    {
      key, kopf := None, None;
      modell := Danach(c, modell, Lock);
    }

    /** `save_plaintext_or_scramble`: never in plain text over an encrypted file, and not at all while locked. */
    method Save(text: string, nonce: string) returns (r: Ergebnis<()>)
      requires Valid() && |nonce| == NONCE_LEN
      modifies this
      ensures Valid() && modell == Danach(c, old(modell), Op.Save(text)) && r == Gespeichert(old(modell))
      ensures r.Fehler? ==> unchanged(this)
      ensures old(modell).Geheim? ==> IstScrambled()
    {
      DateiGenau("");
      SitzungGenau();
      if IstScrambled() || key.Some? {
        if key.None? { return Fehler(true); }
        SchreibeMitKey(MitZeilenende(text), nonce);
        DateiGenau("");
      } else {
        SchreibeKlartext(MitZeilenende(text));
      }
      r := Ok(());
    }

    /** `load_plaintext_or_scramble` */
    method Load() returns (r: Ergebnis<string>)
      requires Valid()
      ensures r == Geladen(c, modell)
    {
      DateiGenau("");
      SitzungGenau();
      if IstScrambled() {
        if key.None? { return Fehler(true); }
        return DecryptWithKey(c, datei.value, key.value);
      }
      r := Ok(if datei.Some? then AlsText(datei.value) else "");
    }

    /** `unlock_with_password`: a plain file is encrypted at the first login. */
    method UnlockWithPassword(pw: string, salt: string, nonce: string) returns (r: Ergebnis<string>)
      requires Valid() && |salt| == 16 && |nonce| == NONCE_LEN
      modifies this
      ensures Valid() && modell == Danach(c, old(modell), Unlock(pw)) && r == Entsperrt(c, old(modell), pw)
      ensures r.Fehler? ==> unchanged(this)
    {
      DateiGenau(pw);
      if IstScrambled() {
        r := ReadScrambled(pw);
      } else if datei.Some? {
        var plain := AlsText(datei.value);
        var ok := EnableScramble(plain, pw, salt, nonce);
        r := if ok then Ok(plain) else Fehler(false);
      } else {
        r := Fehler(false);
      }
    }

    method Lesen(pw: string) returns (r: Ergebnis<string>)
      requires Valid()
      modifies this
      ensures Valid() && r == MitPasswort(c, old(modell), pw)
      ensures modell == (if old(modell).Klar? then old(modell) else Danach(c, old(modell), Unlock(pw)))
      ensures r.Fehler? ==> unchanged(this)
    {
      DateiGenau(pw);
      if IstScrambled() {
        r := ReadScrambled(pw);
      } else if datei.Some? {
        r := Ok(AlsText(datei.value));
      } else {
        r := Fehler(false);
      }
    }

    /** `change_scramble_password` */
    method ChangeScramblePassword(alt: string, neu: string, salt: string, nonce: string) returns (ok: bool)
      requires Valid() && |salt| == 16 && |nonce| == NONCE_LEN
      modifies this
      ensures Valid() && modell == Danach(c, old(modell), Change(alt, neu))
      ensures ok <==> neu != "" && (old(modell).Klar? || (!old(modell).Keine? && Entsperrt(c, old(modell), alt).Ok?))
    {
      var r := Lesen(alt);
      if r.Fehler? { return false; }
      ok := SchreibeMitPasswort(r.value, neu, salt, nonce);
    }

    /** `disable_scramble`: back to plain text, session closed. */
    method DisableScramble(pw: string) returns (r: Ergebnis<string>)
      requires Valid()
      modifies this
      ensures Valid() && modell == Danach(c, old(modell), Disable(pw))
      ensures r == MitPasswort(c, old(modell), pw)
      ensures r.Fehler? ==> unchanged(this)
    {
      DisableGenau(c, modell, pw);
      r := Lesen(pw);
      if r.Fehler? { return; }
      SchreibeKlartext(r.value);
    }

    /** `discard_locked_env`: the password is lost, and with it the text. */
    method DiscardLockedEnv()
      requires Valid()
      modifies this
      ensures Valid() && modell == Danach(c, old(modell), Discard)
    {
      SchreibeKlartext("");
    }
  }

  // -------------------------------------------------------------------------- runs

  function Lauf(c: Krypto, m: Modell, ops: seq<Op>): Modell {
    if ops == [] then m else Danach(c, Lauf(c, m, ops[..|ops| - 1]), ops[|ops| - 1])
  }

  /** The text an operation saves, if it saves one. */
  function GibtText(davor: Modell, op: Op): Option<string> {
    match op
    case Enable(text, pw) => if pw == "" then None else Some(text)
    case Save(text) => if Gespeichert(davor).Ok? then Some(text) else None
    case Discard => Some("")
    case _ => None
  }

  /** The password an operation sets, if it sets one. */
  function GibtPasswort(davor: Modell, op: Op): Option<string> {
    match op
    case Enable(_, pw) => if pw == "" then None else Some(pw)
    case Unlock(pw) => if davor.Klar? && pw != "" then Some(pw) else None
    case Change(alt, neu) => if neu != "" && (davor.Klar? || (davor.Geheim? && alt == davor.password)) then Some(neu) else None
    case _ => None
  }

  /** The text saved last, as it was given. */
  function LetzterText(c: Krypto, m: Modell, ops: seq<Op>): string {
    if ops == [] then (if m.Geheim? || m.Klar? then m.text else "")
    else match GibtText(Lauf(c, m, ops[..|ops| - 1]), ops[|ops| - 1])
      case Some(text) => text
      case None => LetzterText(c, m, ops[..|ops| - 1])
  }

  /** The password set last. */
  function LetztesPasswort(c: Krypto, m: Modell, ops: seq<Op>): string {
    if ops == [] then (if m.Geheim? then m.password else "")
    else match GibtPasswort(Lauf(c, m, ops[..|ops| - 1]), ops[|ops| - 1])
      case Some(pw) => pw
      case None => LetztesPasswort(c, m, ops[..|ops| - 1])
  }

  /** A text that a plain file returns as it is: no carriage return, and it does not start like an encrypted file. */
  predicate Harmlos(text: string) { '\r' !in text && !(MAGIC <= MitZeilenende(text)) }

  /** The file, if it is a plain one, is read as it was written; texts under a password do not matter. */
  predicate KlarHarmlos(m: Modell) { !m.Verwechselt? && (m.Klar? ==> '\r' !in m.text) }

  /** So it stays along the run. */
  ghost predicate ImmerHarmlos(c: Krypto, m: Modell, ops: seq<Op>) {
    forall i :: 0 <= i <= |ops| ==> KlarHarmlos(Lauf(c, m, ops[..i]))
  }

  /** Equal but for the newline that saving adds at the end. */
  predicate BisAufZeilenende(a: string, b: string) { MitZeilenende(a) == MitZeilenende(b) }

  lemma ZeilenendeEinmal(text: string)
    ensures MitZeilenende(MitZeilenende(text)) == MitZeilenende(text)
  {}

  /** One step changes the text, but for a final newline, only to one that was given. */
  lemma SchrittText(c: Krypto, m: Modell, op: Op)
    requires KlarHarmlos(m) && KlarHarmlos(Danach(c, m, op))
    ensures Danach(c, m, op).Keine? ==> m.Keine?
    ensures var n := Danach(c, m, op);
            n.Geheim? || n.Klar? ==> if GibtText(m, op).Some? then n.text == MitZeilenende(GibtText(m, op).value)
                                     else (m.Geheim? || m.Klar?) && (n.text == m.text || n.text == MitZeilenende(m.text))
  {}

  lemma SchrittPasswort(c: Krypto, m: Modell, op: Op)
    requires KlarHarmlos(m) && Danach(c, m, op).Geheim?
    ensures if GibtPasswort(m, op).Some? then Danach(c, m, op).password == GibtPasswort(m, op).value
            else m.Geheim? && Danach(c, m, op).password == m.password
  {}

  lemma HarmlosDavor(c: Krypto, m: Modell, ops: seq<Op>)
    requires ImmerHarmlos(c, m, ops) && ops != []
    ensures ImmerHarmlos(c, m, ops[..|ops| - 1])
    ensures KlarHarmlos(Lauf(c, m, ops[..|ops| - 1])) && KlarHarmlos(Lauf(c, m, ops))
  {
    var vor := ops[..|ops| - 1];
    assert ops[..|ops|] == ops;
    forall i | 0 <= i <= |vor| ensures KlarHarmlos(Lauf(c, m, vor[..i])) { assert vor[..i] == ops[..i]; }
  }

  /**
   * Every run of saves, locks, unlocks, password changes, enabling, disabling: while the file is encrypted
   * its password is the one set last and its text the one saved last, but for a final newline, whatever the
   * bytes of the texts; only what stands in a plain file on the way has to be harmless there.
   */
  lemma {:induction false} JederLauf(c: Krypto, m: Modell, ops: seq<Op>)
    requires ImmerHarmlos(c, m, ops)
    ensures var n := Lauf(c, m, ops);
            && !n.Verwechselt?
            && (n.Geheim? ==> n.password == LetztesPasswort(c, m, ops) && BisAufZeilenende(n.text, LetzterText(c, m, ops)))
            && (n.Klar? ==> BisAufZeilenende(n.text, LetzterText(c, m, ops)))
            && (n.Keine? ==> m.Keine?)
    decreases |ops|
  {
    if ops == [] { assert ops[..0] == ops && KlarHarmlos(Lauf(c, m, ops[..0])); } else {
      var vor, op := ops[..|ops| - 1], ops[|ops| - 1];
      HarmlosDavor(c, m, ops);
      JederLauf(c, m, vor);
      var davor := Lauf(c, m, vor);
      SchrittText(c, davor, op);
      if Danach(c, davor, op).Geheim? { SchrittPasswort(c, davor, op); }
      if GibtText(davor, op).Some? { ZeilenendeEinmal(GibtText(davor, op).value); }
      if davor.Geheim? || davor.Klar? { ZeilenendeEinmal(davor.text); }
    }
  }

  predicate OpHarmlos(op: Op) {
    match op case Enable(text, _) => Harmlos(text) case Save(text) => Harmlos(text) case _ => true
  }

  predicate TextHarmlos(m: Modell) { !m.Verwechselt? && (m.Klar? || m.Geheim? ==> Harmlos(m.text)) }

  lemma HarmlosBleibt(text: string)
    requires Harmlos(text)
    ensures Harmlos(MitZeilenende(text)) && AlsText(text) == text && Abgelegt(MitZeilenende(text)) == Klar(MitZeilenende(text))
  {
    ZeilenendeEinmal(text);
    assert '\r' !in MitZeilenende(text);
  }

  lemma SchrittHarmlos(c: Krypto, m: Modell, op: Op)
    requires TextHarmlos(m) && OpHarmlos(op)
    ensures TextHarmlos(Danach(c, m, op)) && KlarHarmlos(Danach(c, m, op))
  {
    if m.Klar? || m.Geheim? { HarmlosBleibt(m.text); }
    match op {
      case Enable(text, _) => HarmlosBleibt(text);
      case Save(text) => HarmlosBleibt(text);
      case _ =>
    }
  }

  /** So it is if all texts given are harmless ones. */
  lemma {:induction false} HarmloseTexte(c: Krypto, m: Modell, ops: seq<Op>)
    requires TextHarmlos(m) && forall op :: op in ops ==> OpHarmlos(op)
    ensures ImmerHarmlos(c, m, ops) && TextHarmlos(Lauf(c, m, ops))
    decreases |ops|
  {
    if ops != [] {
      var vor, op := ops[..|ops| - 1], ops[|ops| - 1];
      HarmloseTexte(c, m, vor);
      assert op in ops;
      SchrittHarmlos(c, Lauf(c, m, vor), op);
      assert ops[..|ops|] == ops;
      forall i | 0 <= i <= |vor| ensures KlarHarmlos(Lauf(c, m, ops[..i])) { assert vor[..i] == ops[..i]; }
    }
  }

  /** Unlocking with the password set last returns the text saved last; any other password changes nothing. */
  lemma EntsperrenLiefert(c: Krypto, m: Modell, ops: seq<Op>, pw: string)
    requires ImmerHarmlos(c, m, ops) && Lauf(c, m, ops).Geheim?
    ensures var n := Lauf(c, m, ops);
            if pw == LetztesPasswort(c, m, ops)
            then Entsperrt(c, n, pw).Ok? && BisAufZeilenende(Entsperrt(c, n, pw).value, LetzterText(c, m, ops)) && Danach(c, n, Unlock(pw)) == n.(offen := true)
            else Entsperrt(c, n, pw) == Fehler(false) && Danach(c, n, Unlock(pw)) == n
  {
    JederLauf(c, m, ops);
  }

  /**
   * Without a password, what was saved is loaded again exactly when the text has no carriage return and does
   * not start with the marker of encrypted files.
   */
  lemma KlartextGenau(c: Krypto, m: Modell, text: string)
    requires m.Keine? || m.Klar?
    ensures Geladen(c, Danach(c, m, Save(text))) == Ok(MitZeilenende(text)) <==> Harmlos(text)
  {}

  /** A saved marker locks the file: loading and saving are refused and no password opens it, until it is discarded or encrypted anew. */
  lemma MarkerBeispiel(c: Krypto, m: Modell, text: string, pw: string)
    requires m.Keine? || m.Klar?
    ensures var n := Danach(c, m, Save(MAGIC));
            && Geladen(c, n) == Fehler(true) && Gespeichert(n) == Fehler(true) && Danach(c, n, Save(text)) == n
            && Entsperrt(c, n, pw) == Fehler(false) && Danach(c, n, Unlock(pw)) == n
  {
    assert MAGIC[|MAGIC|..] == "";
  }

  /** A carriage return comes back as a newline. */
  lemma WagenruecklaufBeispiel(c: Krypto, m: Modell)
    requires m.Keine? || m.Klar?
    ensures Geladen(c, Danach(c, m, Save("a\rb\n"))) == Ok("a\nb\n")
  {
    assert "a\rb\n"[1..] == "\rb\n" && "\rb\n"[1..] == "b\n" && "b\n"[1..] == "\n" && "\n"[1..] == "";
    assert AlsText("\n") == "\n" && AlsText("b\n") == "b\n" && AlsText("\rb\n") == "\nb\n" && AlsText("a\rb\n") == "a\nb\n";
  }

  /** Under a password every text survives, whatever its bytes. */
  lemma GeheimtextGenau(c: Krypto, m: Modell, text: string)
    requires m.Geheim? && m.offen
    ensures Geladen(c, Danach(c, m, Save(text))) == Ok(MitZeilenende(text))
    ensures Entsperrt(c, Danach(c, Danach(c, m, Save(text)), Lock), m.password) == Ok(MitZeilenende(text))
  {}
}
