/** Blocks, the stock of unspent outputs and the history they produce (core/bip158_scan.py, lines 308-323 and 1048-1164). */
module Kassenbuch {
  import opened Ordnung

  /** Scripts derived from an extended key, one per encoder, chain and index; every other script is foreign. */
  datatype Skript = Eigen(xpub: nat, encoder: nat, kette: nat, index: nat) | Fremd(nummer: nat)

  datatype Outpoint = Outpoint(txid: string, vout: nat)
  datatype Eingang = Coinbase | Verbraucht(op: Outpoint)
  datatype TxOut = TxOut(wert: nat, skript: Skript)
  datatype Tx = Tx(txid: string, vin: seq<Eingang>, vout: seq<TxOut>)
  datatype Block = Block(zeit: nat, txs: seq<Tx>)

  /** An output found in the block at a height. */
  datatype Ausgang = Ausgang(wert: nat, skript: Skript, hoehe: nat)

  datatype Ausgabe = Ausgabe(txid: string, hoehe: nat, zeit: nat)

  /** A history entry: the receipt and, once spent, by whom, where and when. */
  datatype Eintrag = Eintrag(ausgang: Ausgang, zeit: nat, spent: Option<Ausgabe>)

  datatype Stand = Stand(bestand: map<Outpoint, Ausgang>, verlauf: map<Outpoint, Eintrag>)

  const LEER := Stand(map[], map[])

  // ----------------------------------------------------------- what a block holds

  function TxNeu(tx: Tx, hoehe: nat, watched: set<Skript>): map<Outpoint, Ausgang> {
    map n | 0 <= n < |tx.vout| && tx.vout[n].skript in watched :: Outpoint(tx.txid, n) := Ausgang(tx.vout[n].wert, tx.vout[n].skript, hoehe)
  }

  function TxVerbraucht(tx: Tx): map<Outpoint, string> {
    map e | e in tx.vin && e.Verbraucht? :: e.op := tx.txid
  }

  /** Outputs to watched scripts; a later transaction would overwrite an earlier one. */
  function Neu(txs: seq<Tx>, hoehe: nat, watched: set<Skript>): map<Outpoint, Ausgang> {
    if txs == [] then map[] else Neu(txs[..|txs| - 1], hoehe, watched) + TxNeu(txs[|txs| - 1], hoehe, watched)
  }

  function SpentBy(txs: seq<Tx>): map<Outpoint, string> {
    if txs == [] then map[] else SpentBy(txs[..|txs| - 1]) + TxVerbraucht(txs[|txs| - 1])
  }

  method Eingaenge(tx: Tx, vorher: map<Outpoint, string>) returns (spentBy: map<Outpoint, string>)
    ensures spentBy == vorher + TxVerbraucht(tx)
  {
    spentBy := vorher;
    for j := 0 to |tx.vin|
      invariant forall op :: op in spentBy <==> op in vorher || Verbraucht(op) in tx.vin[..j]
      invariant forall op :: op in spentBy ==> spentBy[op] == if Verbraucht(op) in tx.vin[..j] then tx.txid else vorher[op]
    {
      var e := tx.vin[j];
      assert tx.vin[..j + 1] == tx.vin[..j] + [e];
      if e.Verbraucht? { spentBy := spentBy[e.op := tx.txid]; }
    }
    assert tx.vin[..|tx.vin|] == tx.vin;
    forall op ensures op in TxVerbraucht(tx) <==> Verbraucht(op) in tx.vin {
      if Verbraucht(op) in tx.vin { assert Verbraucht(op).Verbraucht?; }
    }
  }

  /** The outputs below an index have been put on top of what was there. */
  ghost predicate BisHier(neu: map<Outpoint, Ausgang>, vorher: map<Outpoint, Ausgang>, alle: map<Outpoint, Ausgang>, n: nat) {
    && (forall op :: op in neu <==> op in vorher || (op in alle && op.vout < n))
    && (forall op :: op in neu ==> neu[op] == if op in alle && op.vout < n then alle[op] else vorher[op])
  }

  lemma BisHierWeiter(neu: map<Outpoint, Ausgang>, vorher: map<Outpoint, Ausgang>, alle: map<Outpoint, Ausgang>, txid: string, n: nat)
    requires BisHier(neu, vorher, alle, n) && forall op :: op in alle ==> op.txid == txid
    ensures var op := Outpoint(txid, n); BisHier(if op in alle then neu[op := alle[op]] else neu, vorher, alle, n + 1)
  {}

  method Ausgaenge(tx: Tx, hoehe: nat, watched: set<Skript>, vorher: map<Outpoint, Ausgang>) returns (neu: map<Outpoint, Ausgang>)
    ensures neu == vorher + TxNeu(tx, hoehe, watched)
  {
    neu := vorher;
    ghost var alle := TxNeu(tx, hoehe, watched);
    for n := 0 to |tx.vout|
      invariant BisHier(neu, vorher, alle, n)
    {
      BisHierWeiter(neu, vorher, alle, tx.txid, n);
      if tx.vout[n].skript in watched {
        neu := neu[Outpoint(tx.txid, n) := Ausgang(tx.vout[n].wert, tx.vout[n].skript, hoehe)];
      }
    }
    assert neu.Keys == (vorher + alle).Keys;
  }

  /** `extract_from_parsed_block`: one walk over inputs and outputs. */
  method ExtractFromParsedBlock(block: Block, hoehe: nat, watched: set<Skript>)
    returns (neu: map<Outpoint, Ausgang>, spentBy: map<Outpoint, string>)
    ensures neu == Neu(block.txs, hoehe, watched) && spentBy == SpentBy(block.txs)
  {
    neu, spentBy := map[], map[];
    for i := 0 to |block.txs|
      invariant neu == Neu(block.txs[..i], hoehe, watched) && spentBy == SpentBy(block.txs[..i])
    {
      assert block.txs[..i + 1][..i] == block.txs[..i];
      spentBy := Eingaenge(block.txs[i], spentBy);
      neu := Ausgaenge(block.txs[i], hoehe, watched, neu);
    }
    assert block.txs[..|block.txs|] == block.txs;
  }

  // ------------------------------------------------------------ applying one block

  function Eigene(spentBy: map<Outpoint, string>, st: Stand, neu: map<Outpoint, Ausgang>): map<Outpoint, string> {
    map op | op in spentBy && (op in st.bestand || op in neu || op in st.verlauf) :: spentBy[op]
  }

  /** Receipts keep an existing entry. */
  function MitEmpfang(verlauf: map<Outpoint, Eintrag>, neu: map<Outpoint, Ausgang>, zeit: nat): map<Outpoint, Eintrag> {
    (map op | op in neu :: Eintrag(neu[op], zeit, None)) + verlauf
  }

  /** Spends mark entries that exist. */
  function MitAbgang(verlauf: map<Outpoint, Eintrag>, spent: map<Outpoint, string>, hoehe: nat, zeit: nat): map<Outpoint, Eintrag> {
    map op | op in verlauf :: if op in spent then verlauf[op].(spent := Some(Ausgabe(spent[op], hoehe, zeit))) else verlauf[op]
  }

  function Wirkung(st: Stand, neu: map<Outpoint, Ausgang>, spentBy: map<Outpoint, string>, hoehe: nat, zeit: nat): Stand {
    var spent := Eigene(spentBy, st, neu);
    Stand((st.bestand + neu) - spent.Keys, MitAbgang(MitEmpfang(st.verlauf, neu, zeit), spent, hoehe, zeit))
  }

  /** The state after the block at a height. */
  function NachBlock(st: Stand, block: Block, hoehe: nat, watched: set<Skript>): Stand {
    Wirkung(st, Neu(block.txs, hoehe, watched), SpentBy(block.txs), hoehe, block.zeit)
  }

  /** The maps the scanner keeps and changes in place. */
  class Buch {
    var bestand: map<Outpoint, Ausgang>
    var verlauf: map<Outpoint, Eintrag>

    function Inhalt(): Stand
      reads this
    {
      Stand(bestand, verlauf)
    }

    constructor (st: Stand)
      ensures Inhalt() == st
    {
      bestand, verlauf := st.bestand, st.verlauf;
    }

    /** New outputs first, spent ones removed afterwards. */
    method BestandNachBlock(neu: map<Outpoint, Ausgang>, spent: map<Outpoint, string>)
      modifies this`bestand
      ensures bestand == (old(bestand) + neu) - spent.Keys
    {
      bestand := bestand + neu;
      ghost var voll := bestand;
      var offen := spent.Keys;
      while offen != {}
        invariant offen <= spent.Keys
        invariant forall op :: op in bestand <==> op in voll && (op in offen || op !in spent)
        invariant forall op :: op in bestand ==> bestand[op] == voll[op]
        decreases |offen|
      {
        var op :| op in offen;
        bestand := bestand - {op};
        offen := offen - {op};
      }
    }

    method Empfaenge(neu: map<Outpoint, Ausgang>, zeit: nat)
      modifies this`verlauf
      ensures verlauf == MitEmpfang(old(verlauf), neu, zeit)
    {
      ghost var ziel := MitEmpfang(verlauf, neu, zeit);
      var offen := neu.Keys;
      while offen != {}
        invariant offen <= neu.Keys
        invariant forall op :: op in verlauf <==> op in old(verlauf) || (op in neu && op !in offen)
        invariant forall op :: op in verlauf ==> op in ziel && verlauf[op] == ziel[op]
        decreases |offen|
      {
        var op :| op in offen;
        if op !in verlauf { verlauf := verlauf[op := Eintrag(neu[op], zeit, None)]; }
        offen := offen - {op};
      }
    }

    method Abgaenge(spent: map<Outpoint, string>, hoehe: nat, zeit: nat)
      modifies this`verlauf
      ensures verlauf == MitAbgang(old(verlauf), spent, hoehe, zeit)
    {
      ghost var ziel := MitAbgang(verlauf, spent, hoehe, zeit);
      var offen := spent.Keys;
      while offen != {}
        invariant offen <= spent.Keys && forall op :: op in verlauf <==> op in old(verlauf)
        invariant forall op :: op in verlauf ==> verlauf[op] == if op in offen then old(verlauf)[op] else ziel[op]
        decreases |offen|
      {
        var op :| op in offen;
        if op in verlauf { verlauf := verlauf[op := verlauf[op].(spent := Some(Ausgabe(spent[op], hoehe, zeit)))]; }
        offen := offen - {op};
      }
    }

    /** `_uebernehme_block_verlauf` */
    method UebernehmeBlockVerlauf(neu: map<Outpoint, Ausgang>, spent: map<Outpoint, string>, hoehe: nat, zeit: nat)
      modifies this`verlauf
      ensures verlauf == MitAbgang(MitEmpfang(old(verlauf), neu, zeit), spent, hoehe, zeit)
    {
      Empfaenge(neu, zeit);
      Abgaenge(spent, hoehe, zeit);
    }

    method WendeAn(block: Block, hoehe: nat, watched: set<Skript>) returns (neu: map<Outpoint, Ausgang>)
      modifies this
      ensures Inhalt() == NachBlock(old(Inhalt()), block, hoehe, watched)
      ensures neu == Neu(block.txs, hoehe, watched)
    {
      var spentBy;
      neu, spentBy := ExtractFromParsedBlock(block, hoehe, watched);
      var spent := Eigene(spentBy, Inhalt(), neu);
      if neu == map[] && spent == map[] {
        OhneWirkung(Inhalt(), spentBy, hoehe, block.zeit);
        return;
      }
      UebernehmeBlockVerlauf(neu, spent, hoehe, block.zeit);
      BestandNachBlock(neu, spent);
    }
  }

  lemma OhneWirkung(st: Stand, spentBy: map<Outpoint, string>, hoehe: nat, zeit: nat)
    requires Eigene(spentBy, st, map[]) == map[]
    ensures Wirkung(st, map[], spentBy, hoehe, zeit) == st
  {
    assert st.bestand + map[] == st.bestand;
    assert MitAbgang(MitEmpfang(st.verlauf, map[], zeit), map[], hoehe, zeit) == st.verlauf;
  }

  /** A block replayed twice in a row changes nothing the second time. */
  lemma WirkungIdempotent(st: Stand, neu: map<Outpoint, Ausgang>, spentBy: map<Outpoint, string>, hoehe: nat, zeit: nat)
    ensures Wirkung(Wirkung(st, neu, spentBy, hoehe, zeit), neu, spentBy, hoehe, zeit) == Wirkung(st, neu, spentBy, hoehe, zeit)
  {
    var a := Wirkung(st, neu, spentBy, hoehe, zeit);
    var b := Wirkung(a, neu, spentBy, hoehe, zeit);
    assert a.bestand.Keys == b.bestand.Keys;
    assert a.bestand == b.bestand;
    assert a.verlauf.Keys == b.verlauf.Keys;
    assert a.verlauf == b.verlauf;
  }
}
