/** Golomb-coded filters meet the hypothesis of the scan (core/bip158_filter.py, lines 180-252; core/bip158_scan.py, line 518). */
module Blockfilter {
  import opened Filter
  import opened Wiedergabe
  import opened Suchlauf
  import K = Kassenbuch

  /** A list of the bytes of a set of scripts. */
  ghost function AlsListe(q: set<K.Skript>, bytes: K.Skript -> Skript): (r: seq<Skript>)
    ensures forall s :: s in q ==> bytes(s) in r
  {
    if q == {} then [] else var s :| s in q; [bytes(s)] + AlsListe(q - {s}, bytes)
  }

  /**
   * A filter holds the scripts of the wallets its block pays or spends from. BIP 158, "Contents", leaves out
   * only the scripts of OP_RETURN outputs and the inputs of coinbase transactions, which belong to no wallet.
   */
  ghost predicate FilterInhalt(k: Kette, elemente: int -> seq<Skript>, bytes: K.Skript -> Skript) {
    forall h, s :: Beruehrt(k, h, s) ==> bytes(s) in elemente(h)
  }

  /** The scanner's match: the hash of some watched script is in the filter of the block. */
  ghost predicate MatchTrifft(h: int, q: set<K.Skript>, elemente: int -> seq<Skript>, digest: int -> Digest, bytes: K.Skript -> Skript) {
    HashTreffer(elemente(h), AlsListe(q, bytes), digest(h))
  }

  /** Whatever the digests are, matching against Golomb-coded filters misses no touched block. */
  lemma GolombFilterEhrlich(k: Kette, trifft: (int, set<K.Skript>) -> bool, elemente: int -> seq<Skript>, digest: int -> Digest, bytes: K.Skript -> Skript)
    requires FilterInhalt(k, elemente, bytes)
    requires forall h, q :: trifft(h, q) <==> MatchTrifft(h, q, elemente, digest, bytes)
    ensures FilterEhrlich(k, trifft)
  {
    forall h, q, s | s in q && Beruehrt(k, h, s) ensures trifft(h, q) {
      TrefferUeberHashes(elemente(h), AlsListe(q, bytes), digest(h));
      assert bytes(s) in elemente(h) && bytes(s) in AlsListe(q, bytes);
      assert MatchTrifft(h, q, elemente, digest, bytes);
    }
  }
}
