# SatSage, verified core

A Dafny model of the parts of SatSage (a Bitcoin wallet viewer) where a small slip costs money or hides
it, with proofs of what they promise. `dafny verify dfyconfig.toml` checks everything.

- **Coin selection** (`Gebuehren`, `Kandidaten`, `Austausch`, `Suche`, `Auswahl`, `Waehlen`, `Wenigste`, `NettoGrenze`,
  `NettoMax`, `Grenzfall`, `NettoGrenzfall`). The fee rule is not monotone: one more input can drop the rate
  to 1 sat/vB. The branch-and-bound search is exact all the same, because an accepted set beats all its
  extensions. Sizes are in quarter vbytes.
- **Compact filters** (`BitStrom`, `SipHash`, `Filter`). The Golomb-coded set codec of BIP 158 and
  SipHash-2-4, from single bits up to the exactness of a match.
- **The wallet scan** (`Kassenbuch`, `Wiedergabe`, `Luecke`, `Suchlauf`, `Pause`, `Erstscan`, `Blockfilter`,
  `Union`, `Bekannt`, `Unionscan`, `Unionkonto`, `Unionergebnis`, `Inkrement`, `Folgescan`). A chain is a
  sequence of blocks; the simple specification is a replay of all of them in height order. The scan reads
  few blocks, newest first, in several passes, and still ends in the same state where the conditions below
  hold.
- **Protocols** (`Verteiler`, `BlockCache`, `FilterCache`). State machines over single steps of the
  threads, with proofs for every interleaving; the cached load of filters.
- **Configuration** (`EnvScramble`, `EnvZeile`, `EnvDatei`, `EnvWallets`). The encrypted file over whole runs;
  the line-preserving editor and the wallet list that must survive it.

Names follow the source, which is German. `Ordnung` holds sorting, orders and subsequences.

## Where the code misses what it promises

Each of these has a condition in the project and a concrete input on which the promise fails. The conditions
are exact, with two limits: the one for the strategy `gebuehr` is only sufficient, and where an input size
decides about fallback lists, it says for which sizes all lists are right, not which lists of the others are.

- A scan with known scripts searches heights below the newest window for these only (core/bip158_scan.py,
  lines 242-271); they are the addresses of cached outputs and history (core/bip158_wallet.py, lines 364-407).
  A wallet continued more than 2016 blocks later misses an output to a fresh index below the window, for
  good. It is complete whenever every block there that changes the wallet touches a known script, as with a
  start inside the window; with an exact filter only then (`ScanFortgesetzt`, `ScanUnion`, `PauseBeispiel`).
- `scan_union` (core/bip158_scan.py, line 1744) replays its blocks only if some wallet is scanned for the
  first time. When all have known scripts the newest window is applied before the history, and an output
  received below the window and spent inside it stays in the stock (`BekannteOhneUmbau`, `ZweiWochenBeispiel`).
- The prefix of descriptor wallets does not grow with hits, so their first scan can lose outputs within the
  gap, unless the index limit is the gap limit (`PraefixtreuGenau`, `ScanErstmals`, `DeskriptorVerfehlt`).
- The strategy `gebuehr` is said to take the fewest inputs, hence the smallest size and fee
  (core/coin_auswahl.py, lines 58-59). It takes the fewest if no shorter prefix covers its cheaper fee
  (`WenigsteInputs`), and may not otherwise (`MehrAlsNoetig`); even then a selection without change can be
  smaller and cheaper (`KleinsteGroesse`, `NichtDieKleinste`).
- `_neuer_worker` (core/bip158_scan.py, line 930) takes the lock its caller holds already; the lock is not
  reentrant, so a scan that loses all its peers hangs as soon as a fresh one is found (`StecktGenau`,
  `SteckenBeispiel`).
- A continued scan loses an output that only blocks replaced by a reorganisation had spent, if it was
  received below the start (`InkrementGenau`, `ReorgSicherGenau`, `ReorgBeispiel`).
- The fallback list of `waehle` is searched as if an input were at most 69 vbytes; for every larger size the
  search can miss the optimum (`GenauBis69`, `SucheVerfehltOptimum`).
- `netto_max` is the largest amount at every fixed rate. At an estimated rate a list whose inputs pay for
  themselves, or a fallback list up to 69 vbytes, can miss it in two ways: the search stops below a gap in
  what a set covers (`NettoGenau`, `DeckelLuecke`; with a huge change output `BisektionVerfehlt`), or the
  green sum is a corner at which a smaller green set covers more (`MengenGenuegen`, `EckeBeispiel`).
  `MaximumGenau` says when neither happens. On fallback lists of larger inputs one input can be too many
  (`ZweiGenuegenGenau`, `SchaetzungVerfehlt`); without an estimate or at 1 sat/vB that needs an input size with
  a fraction of a vbyte (`EinsGenauBis69`, `EinsVerfehlt`).
- A plain-text configuration that begins like an encrypted one, or has carriage returns, does not load as
  it was saved (`KlartextGenau`, `MarkerBeispiel`, `WagenruecklaufBeispiel`).
- A wallet whose name has outer quotes or a line break is not read back under its name
  (`SpeichernUndLesen`, `NameInAnfuehrung`).

## What the model assumes

- Chains: transaction ids are unique, every output is spent at most once and never before it is created.
  A delivered block is the one at its height.
- Filters: a filter never misses a wallet script its block pays or spends from (shown for Golomb-coded
  filters that hold these scripts; BIP 158 leaves out OP_RETURN outputs and coinbase inputs, which belong to
  no wallet). Only-if results and examples take a filter without false positives. Keys derive injectively.
- Gap rule: completeness of a first scan is for wallets whose used indices lie within the gap limit of one
  another; completeness of a scan with known scripts has the condition named above.
- Reorganisations: what the new chain spends of the old chain's outputs it has created as well.
- The cipher is ideal: only the right key opens a text, different passwords give different keys, printed
  headers have no line breaks and read back.
- Salts, nonces, peers, header lookups and the contents of downloads are parameters.

## Model

| member | source | states |
|---|---|---|
| Gebuehren.BewerteSolide | core/coin_auswahl.py:244-270 | Every accepted verdict conserves money: inputs are amount plus fee plus change, amount plus fee is at most the green sum, change is at least the non-green sum and either 0 with one output or at least 330, dust goes into the fee only within 0.1 % |
| Gebuehren.RateFaellt | core/coin_auswahl.py:235-241 | The capped rate is between 1 and the estimate and never rises with the size |
| Gebuehren.FeeWachstum | core/coin_auswahl.py:206-233 | m more inputs raise the fee by at most m times `input_kosten`, for a fixed rate and for the capped rate that may drop on the way |
| Gebuehren.MinGebuehrSchranke | core/coin_auswahl.py:227-232 | The lower bound used by the search is below every fee of any larger number of inputs |
| Gebuehren.VsizeAufgerundet | core/coin_auswahl.py:199-203 | The size is the exact sum rounded up once, to whole vbytes |
| Gebuehren.DeckelGenau | core/coin_auswahl.py:213-241 | A fee above 0.1 % of the amount is never estimated at more than 1 sat/vB, up to 0.1 % the estimate stays as it is, and the flag tells which |
| Gebuehren.InputKostenGenau | core/coin_auswahl.py:220-225 | One more input of whole vbytes costs exactly `input_kosten` wherever the cap does not lower the rate |
| Gebuehren.MinGebuehrAngenommen | core/coin_auswahl.py:227-232 | The lower bound is a fee that occurs: that of exactly so many inputs with the cap in force |
| Gebuehren.FallbackErzwingtEins | core/coin_auswahl.py:235-270 | Inputs that do not pay for themselves at the estimate are accepted, with or without change, only once the cap has set the rate to 1 sat/vB |
| Kandidaten.RangTotal | core/coin_auswahl.py:273-279 | `_rang` orders any two selections |
| Kandidaten.RangTransitiv | core/coin_auswahl.py:273-279 | `_rang` is transitive |
| Kandidaten.RangEindeutig | core/coin_auswahl.py:273-279 | No two selections from candidates with distinct keys share a rank |
| Austausch.TauschRang | core/coin_auswahl.py:273-279 | An older input, or one of the same age with a smaller key, in the place of another one of equal worth gives the smaller rank, whatever the other inputs are |
| Austausch.RangBedeutet | core/coin_auswahl.py:40-57 | What the minimum of the rank is, without the rank: no accepted selection pays less change, none that pays the same has fewer inputs, and no chosen input is younger than one of equal value and contribution that was left out, nor of the same age with the larger key |
| Kandidaten.ErweiterungNieBesser | core/coin_auswahl.py:45-53 | Dominance: an accepted set of usable inputs ranks strictly before every accepted extension of it, for a fixed and for the capped rate |
| Suche.SchnittGedeckt | core/coin_auswahl.py:330-337 | First cut is sound: below an accepted path there is nothing better |
| Suche.SchnittRestReichtNicht | core/coin_auswahl.py:340-342 | Second cut is sound: when all remaining green is too little, no extension of the path is accepted |
| Suche.SchnittOhneWechselgeld | core/coin_auswahl.py:343-344 | Third cut is sound: with a changeless best, more inputs cannot rank before it |
| Suche.Baum.Suchen | core/coin_auswahl.py:321-349 | The recursive search: unless the node budget ran out it beats every accepted extension of its path, for usable inputs, and for any inputs as long as it has found nothing; it restores the path and visits at most 2^(k+1) - 1 nodes for k remaining candidates |
| Auswahl.OptimalWennSchlaegt | core/coin_auswahl.py:308-349 | What beats every accepted selection is the unique minimum, and nothing found means nothing is accepted |
| Auswahl.Bnb | core/coin_auswahl.py:308-370 | With the budget not exhausted, the result is the unique lexicographic minimum of `_rang` over all non-empty accepted subsets: least change, then fewest inputs, and no input that an older one of equal worth could replace; None means that no subset is accepted, for any candidates; the budget suffices for 2^(n+1) - 2 nodes; exhausted, the result ranks no worse than the greedy one, and None means that no prefix is accepted |
| Auswahl.Reihe | core/coin_auswahl.py:373-384 | The shortest accepted prefix of an order, None iff no prefix is accepted |
| Auswahl.Gier | core/coin_auswahl.py:282-305 | Greedy: finds a selection iff some prefix is accepted; of the shortest such prefix it keeps an input exactly if the set was not accepted with no more change without it when it was looked at; never ranked behind that prefix |
| Auswahl.KleinsterBeitragVorn | core/coin_auswahl.py:299-300 | Inputs are looked at from the smallest contribution up, the younger of two equal ones first |
| Auswahl.StaubDazu | core/coin_auswahl.py:391-426 | Collecting dust that starts inside the 0.1 % cap takes each small coin exactly if the set is accepted with it on top of those taken before, up to the first one that would leave the cap or lower the rate; it ends early exactly at such a coin; outside the cap nothing is added |
| Auswahl.KleineEigenschaften | core/coin_auswahl.py:400-404 | The small coins are exactly the usable ones below 100 000 sats that are not chosen yet, each once |
| Auswahl.KleinsteVorn | core/coin_auswahl.py:400-404 | They are looked at smallest first, the older of two equal ones first |
| Waehlen.KandidatenAus | core/coin_auswahl.py:125-173 | One candidate per key, from the first admissible output, with exactly the admitted green part |
| Waehlen.NutzbarEigenschaften | core/coin_auswahl.py:466-469 | The list handed to the search meets the hypothesis of the dominance theorem, up to 69 vbytes per input for the fallback list |
| Waehlen.NutzbarGenau | core/coin_auswahl.py:466-469 | The list holds exactly the candidates above their own fee, or, when there is none at an estimated rate, exactly those above 68 sats |
| Waehlen.NutzbarGroessteVorn | core/coin_auswahl.py:470 | Largest contribution first, then oldest, then by key |
| Waehlen.Berichte | core/coin_auswahl.py:490-527 | The report of any route: inputs oldest first, those of unknown age last, sums over the inputs, all money accounted for |
| Waehlen.Gewuenscht | core/coin_auswahl.py:454-465 | Coin control takes exactly the wished keys, once each, and names exactly the unknown ones |
| Waehlen.CoinControl | core/coin_auswahl.py:454-465 | The verdict on exactly the wished inputs, in whatever order they are summed; unzulaessig exactly if the list is empty or names an unknown key; nicht_gedeckt exactly if the wished inputs are not accepted |
| Waehlen.InReihe | core/coin_auswahl.py:373-384 | The strategies by order: the shortest accepted prefix, nicht_gedeckt exactly if no prefix is accepted |
| Waehlen.DurchSuche | core/coin_auswahl.py:478-486 | The strategies by search: for usable inputs the least change with the fewest and oldest inputs, after the budget at least as good as the greedy result; dust collected on top exactly by the rules of the cap; within the budget nicht_gedeckt means that no selection at all is accepted, after it that no prefix is |
| Waehlen.Waehle | core/coin_auswahl.py:429-487 | All routes: each error exactly in its case, on success distinct candidates oldest first and a sound report, and what the strategy promises of its list; by age no input is taken while an older one is left out, by size none while a larger one is |
| Wenigste.WenigsteInputs | core/coin_auswahl.py:58-59 | Largest contributions first takes the fewest inputs, if no shorter prefix brings the amount and the cheaper of its two fees |
| Wenigste.KleinsteGroesse | core/coin_auswahl.py:58-59 | It is then the smallest transaction, and at a constant rate, dust aside, the cheapest, among the selections that pay no fewer outputs |
| Wenigste.NichtDieKleinste | core/coin_auswahl.py:58-59 | Among all selections it need not be: with one input either way the strategy pays a change output, 141 vbytes, where the other coin needs none, 110 |
| Wenigste.MehrAlsNoetig | core/coin_auswahl.py:58-59 | The strategy `gebuehr` takes two inputs for 100 000 sats where one of the two coins alone is accepted for a smaller fee |
| NettoGrenze.TragbarGenau | core/coin_auswahl.py:235-270 | At every rate one amount separates those that stay within a sum together with their own capped fee from those that do not |
| NettoGrenze.MitWechselGenau | core/coin_auswahl.py:244-270 | What is covered with change is exactly every amount up to a limit, though the rate may drop on the way |
| NettoGrenze.HoechsterGenau | core/coin_auswahl.py:244-270 | At every rate the closed form `Hoechster` is the largest amount a set covers, although coverage below has gaps |
| NettoGrenze.GrenzeExakt | core/coin_auswahl.py:244-270 | At a constant rate (fixed, none, or 1 sat/vB) it is the limit of the documentation: green sum less the fee of one output, or of two and the dust limit |
| NettoGrenze.MengenGenuegen | core/coin_auswahl.py:584-600 | At every rate, for every list whose inputs pay for themselves or for a fallback list up to 69 vbytes: some set covers an amount or more iff all listed inputs or the wholly green ones do, or, only where the green sum is 1001 times the fee of the green inputs less one sat, green inputs without some of them |
| NettoGrenze.ZweiMengenGenuegen | core/coin_auswahl.py:584-596 | Away from that corner the two sets the source looks at are enough |
| NettoGrenze.KleinsteEntscheidet | core/coin_auswahl.py:584-596 | At the corner the set without the smallest green coin decides, unless its own sum is such a corner |
| NettoMax.NettoGenau | core/coin_auswahl.py:603-633 | At every rate what the loop finds for a set is covered, and the largest covered amount exactly if from the largest covered boundary amount up no amount is left out and a million steps suffice; where no boundary amount is covered, exactly if nothing is or something is payable with change |
| NettoMax.KonstantErreicht | core/coin_auswahl.py:584-625 | At a constant rate the boundary amounts hold the largest one and the condition always holds |
| NettoMax.BestesGenau | core/coin_auswahl.py:584-596 | More than the better of the two sets covers is payable iff, at the corner, a smaller green set covers it |
| NettoMax.MaximumGenau | core/coin_auswahl.py:584-633 | At every rate, for every list whose inputs pay for themselves or a fallback list up to 69 vbytes: no set covers more than the result iff the larger of the two sets' largest amounts is reached by its search and no smaller green set covers more at the corner |
| NettoMax.EckeKleinste | core/coin_auswahl.py:584-596 | At the corner: iff the set without the smallest green coin does not, unless its own sum is such a corner |
| NettoMax.HalbiertGenau | core/coin_auswahl.py:626-633 | Where the covered amounts have no gap, the bisection finds the largest exactly if it meets one of them |
| NettoMax.NullGenau | core/coin_auswahl.py:626-633 | Where no boundary amount is covered the bisection finds the largest amount if something is payable with change, and 0 otherwise |
| NettoMax.NullUeblich | core/coin_auswahl.py:626-633 | That loses nothing unless the form with change is over a thousand times the size of the form without |
| NettoMax.BisektionVerfehlt | core/coin_auswahl.py:626-633 | With a change output of 10 000 vbytes a call returns 0 for a coin that covers 1 999 sats |
| NettoMax.NettoMenge | core/coin_auswahl.py:603-633 | The loop computes `Netto`: the climb from the largest covered boundary amount, or the bisection |
| NettoMax.NettoMaximum | core/coin_auswahl.py:578-638 | The result is the larger of what is found for the two sets; it is covered by some listed set; for lists as in `MaximumGenau` no listed set covers more exactly under its condition; always at a fixed rate, and without an estimate or at 1 sat/vB if some input pays for itself or an input is at most 69 vbytes or whole vbytes |
| NettoMax.DeckelLuecke | core/coin_auswahl.py:584-632 | A call with one coin of 220 157 sats at 2 sat/vB returns 219 686 although the coin covers 219 999 |
| NettoGrenzfall.EckeBeispiel | core/coin_auswahl.py:584-596 | A call with green coins of 356 218 and 137 sats at 2 sat/vB returns 355 816, the largest amount of either set, although the first coin alone covers 355 998 |
| NettoGrenzfall.ZweiGenuegenGenau | core/coin_auswahl.py:584-600 | On all fallback lists away from the corner the two sets are enough iff an input is at most 69 vbytes |
| NettoGrenzfall.SchaetzungVerfehlt | core/coin_auswahl.py:584-600 | For every larger input it builds a list and an estimate and calls the search, whose result is not the maximum |
| NettoGrenzfall.EinsGenauBis69 | core/coin_auswahl.py:584-600 | Without an estimate or at 1 sat/vB the result is the maximum on all lists iff an input is at most 69 vbytes or whole vbytes |
| NettoGrenzfall.EinsVerfehlt | core/coin_auswahl.py:584-600 | For every other input it builds a list on which the call without an estimate misses the maximum |
| Grenzfall.GenauBis69 | core/coin_auswahl.py:466-469 | For all candidates, amounts and estimates at which nothing pays for itself: a further input never improves an accepted set of the list handed to the search, iff an input is at most 69 vbytes |
| Grenzfall.RueckfallWirtschaftlich | core/coin_auswahl.py:466-469 | Up to 69 vbytes every such list meets the hypothesis under which the search is exact |
| Grenzfall.FallbackBeispiel | core/coin_auswahl.py:466-469 | With multisig inputs of 105 vbytes the fallback list holds two coins that leave less change together than the larger one alone |
| Grenzfall.SucheVerfehltOptimum | core/coin_auswahl.py:308-349 | For every larger input size it builds candidates whose fallback list the search, with budget to spare, does not solve: it returns no minimum |
| SipHash.XorBit | core/bip158_filter.py:30-75 | Every bit of the exclusive or is set exactly if it is set in one of the two words |
| SipHash.RotlRotiert | core/bip158_filter.py:25-27 | Masked shifts rotate the 64 bits of a word |
| SipHash.RundeGleich | core/bip158_filter.py:30-46 | The masked round of the source is the SipRound of the SipHash paper (section 2.2) on 64-bit words and stays below 2^64 |
| SipHash.Siphash | core/bip158_filter.py:49-75 | The byte loop with its 8-bit counter and rolling tail computes SipHash-2-4 over 64-bit little-endian words with the length mod 256 in the last, for any length |
| SipHash.AnfangText | core/bip158_filter.py:51-55 | The four words start from the text "somepseudorandomlygeneratedbytes" of the SipHash paper, mixed with the two key halves in turn |
| SipHash.DigestKlein | core/bip158_filter.py:49-75 | All state words, hence the digest, stay below 2^64 |
| BitStrom.Schreiber.WriteBits | core/bip158_filter.py:148-150 | The writer appends exactly the low bits of the value, highest first |
| BitStrom.Schreiber.Flush | core/bip158_filter.py:152-158 | Flushing pads the last byte with zeros |
| BitStrom.Leser.ReadBits | core/bip158_filter.py:117-121 | The reader returns the next bits as a number, or fails when they run out |
| BitStrom.GolombRundreise | core/bip158_filter.py:124-129 | Decoding a Golomb-Rice code (BIP 158, Golomb-Rice Coding) gives the delta back and consumes exactly its bits, whatever follows |
| BitStrom.GolombRiceEncode | core/bip158_filter.py:171-177 | The encoder writes exactly that code |
| BitStrom.GolombRiceDecode | core/bip158_filter.py:124-129 | The decoder reads exactly that code |
| BitStrom.CompactSizeRundreise | core/bip158_filter.py:85-96 | Reading a written compact size gives the number and the offset behind it |
| Filter.DekodiertKodiert | core/bip158_filter.py:180-196 | Every ascending list of values survives delta coding, whatever bits follow |
| Filter.KodiertLaenge | core/bip158_filter.py:171-196 | The unary quotients telescope: p + 1 bits a value plus the last value over 2^p |
| Filter.Kodiere | core/bip158_filter.py:180-196 | The filter of n scripts: its count, then the codes of the sorted hashes, in at most 20n + ((784931n - 1) >> 19) bits |
| Filter.MatchInternal | core/bip158_filter.py:236-252 | Walking both sorted lists decides whether some query hash equals some decoded value |
| Filter.HashInBereichGenau | core/bip158_filter.py:199-201 | A script falls on slot v exactly if its digest times n * 784 931 is at least 2^64 * v and below 2^64 * (v + 1) |
| Filter.MatchAny | core/bip158_filter.py:227-252 | On any filter, whoever wrote it: with its count n and the values of its Golomb code (parameter 19) the match is True exactly if some script asked for falls on one of them, and an error only if the count is above 2^32 - 1 or the bits run out before a hit |
| Filter.FilterExakt | core/bip158_filter.py:180-252 | On every encoded filter (duplicates allowed, n below 2^32) the match is True iff some query and some element have the same ranged hash, and the reader never runs out of bits |
| Filter.TrefferUeberHashes | core/bip158_filter.py:199-252 | A script contained in the filter is never missed |
| Kassenbuch.ExtractFromParsedBlock | core/bip158_scan.py:1100-1164 | One walk over a block finds the outputs to watched scripts and who spends what |
| Kassenbuch.Buch.BestandNachBlock | core/bip158_scan.py:308-323 | New outputs first, spent ones removed afterwards |
| Kassenbuch.Buch.UebernehmeBlockVerlauf | core/bip158_scan.py:1065-1097 | Receipts keep an existing entry; spends mark entries that exist |
| Kassenbuch.Buch.WendeAn | core/bip158_scan.py:1926-1968 | Applying a block is the state function `NachBlock`; a block without effect changes nothing |
| Kassenbuch.WirkungIdempotent | core/bip158_scan.py:308-323 | A block applied twice in a row has no second effect |
| Wiedergabe.GespieltGenau | core/bip158_scan.py:1970-1996 | A replay in height order, with repetitions, leaves exactly created minus spent and every receipt with its spend |
| Wiedergabe.RebuildChronologisch | core/bip158_scan.py:1970-1996 | The rebuild is a replay of the events sorted by height |
| Wiedergabe.ReihenfolgeEgal | core/bip158_scan.py:1970-1996 | Any order, any repetition and any false positives rebuild the state of one replay of the distinct blocks |
| Wiedergabe.VerlaufUndBestand | core/bip158_scan.py:1065-1097 | After every step the stock is the history not marked spent, every mark names the real spending transaction, height and time, and total received is unspent plus spent |
| Luecke.ScriptsMitGapUmTreffer | core/bip158_wallet.py:160-245 | The watched prefix is exactly the gap prefix around the hits; descriptor wallets only get hits and the first indices |
| Luecke.NaechsteHistorieScripts | core/bip158_wallet.py:248-270 | Exactly what the prefix has gained |
| Luecke.PraefixtreuGenau | core/bip158_wallet.py:160-245 | The prefix follows every hit upward iff the wallet is no descriptor wallet or its index limit is the gap limit |
| Luecke.PaesseDeckenAb | core/bip158_scan.py:232-271 | The passes cover every height from start to tip exactly once: the newest 2016 for all scripts, the older ones for the known or the gap scripts; a first scan takes the window first, with known scripts they are in height order |
| Suchlauf.BenutztImZiel | core/bip158_scan.py:2057-2087 | After round r the next prefix contains every used index up to r |
| Suchlauf.StufeEnthaelt | core/bip158_scan.py:2057-2087 | Every stage holds the first indices, all that the newest window pays, and all that older blocks pay that touch the stage before |
| Suchlauf.StufeWeiter | core/bip158_scan.py:2057-2087 | Whatever the gaps of a wallet, each round asks for at least the next stage of its prefix |
| Suchlauf.SucheVollstaendig | core/bip158_scan.py:2049-2107 | A completed search leaves the state of a replay of ALL blocks |
| Erstscan.Lauf.Filterpass | core/bip158_scan.py:2002-2047 | One pass: all blocks of its heights that touch a watched script are among the events |
| Erstscan.Lauf.Historie | core/bip158_scan.py:2057-2087 | The history loop, however it ends, has asked for the stage of every round and, for a wallet that keeps the gap rule, searched every used index; with an exact filter it never leaves a closed set of scripts |
| Erstscan.ScanErstmals | core/bip158_scan.py:1821-2107 | For every wallet, descriptor wallets and any gaps included, the result is a replay of blocks among which are all of the newest window that touch the wallet and all older ones that touch the last stage of its prefix, so every output paid in the window is in the history; for a wallet whose prefix grows, under the gap rule, outputs and history are those of a replay of all blocks from start to end, though only matching blocks were read, newest first; and with an exact filter no output of any wallet is found outside a closed set of scripts |
| Erstscan.DeskriptorVerfehlt | core/bip158_wallet.py:160-245 | Every valid descriptor wallet with an index limit above its gap limit has a chain that keeps the gap rule and on which the scan with an exact filter misses an output: index 0 and the index at the gap limit paid below the newest window |
| Blockfilter.GolombFilterEhrlich | core/bip158_scan.py:512-546 | Golomb-coded filters that hold the wallet scripts of their blocks meet the hypothesis of the scan, whatever the digests are |
| Union.PlaneUnionPasses | core/bip158_scan.py:190-229 | The union plan: window from the earliest start inside it for all lookaheads, history from the earliest start below it for known or gap scripts |
| Union.PlanDeckt | core/bip158_scan.py:190-229 | Every wallet finds each of its heights in exactly one pass, the newest 2016 with all its scripts, older ones with its known ones |
| Union.NeuProjektion | core/bip158_scan.py:1583-1605 | Reading a block for all wallets and keeping one wallet's outputs is reading it for that wallet |
| Union.UmbauProjektion | core/bip158_scan.py:1635-1646 | The common rebuild leaves each wallet in the state of a rebuild of it alone from the events at its own heights |
| Union.StromGenau | core/bip158_scan.py:1744-1745 | Without a rebuild, window first, the state is that of a replay in order iff no output of the history was spent in the window; each such output stays in the stock |
| Unionscan.Verbund.WendeAn | core/bip158_scan.py:1557-1633 | `_apply`: every wallet active at the height takes its part, all others stay as they are |
| Unionscan.Verbund.UnionPass | core/bip158_scan.py:1648-1687 | One union pass: all blocks that touch a watched script are applied and kept, in height order |
| Unionscan.Verbund.Historie | core/bip158_scan.py:1698-1738 | The repeated history pass searches every used index of every first scan in the union, and no scripts but the planned ones and those of first scans |
| Unionscan.Verbund.Rebuild | core/bip158_scan.py:1635-1646 | Back to the seeds, then every kept block in height order |
| Bekannt.BekannteVollstaendig | core/bip158_scan.py:242-271 | Old heights searched for known scripts only: the events replay to the state of all blocks, if every block below the newest window that changes the wallet touches a known script |
| Bekannt.ImFensterNichtsNeues | core/bip158_scan.py:242-271 | A start inside the newest window always meets that condition |
| Bekannt.EreignisseVerfehlen | core/bip158_scan.py:242-271 | With an exact filter the condition is necessary: without it the state is another, and every output in a block that touches no known script is in the full history and not in the scanned one |
| Unionkonto.BekannteOhneUmbau | core/bip158_scan.py:1744-1745 | Where nothing new hides below the window, a union of wallets with known scripts is correct for a wallet iff it spent nothing in the newest window that it received below it; always when its start is inside the window |
| Unionkonto.StromVerfehlt | core/bip158_scan.py:1744-1745 | Streamed or rebuilt, what hides below the window is missed |
| Unionergebnis.ZweiWochenBeispiel | core/bip158_scan.py:1744-1745 | A chain of 2017 blocks on which that condition fails |
| Unionergebnis.ScanUnion | core/bip158_scan.py:1458-1766 | Each wallet, whatever its gaps and seed, ends as if scanned alone over the same events, among which are all blocks of the window that touch it and all older ones that touch the scripts searched for, on a first scan the last stage of its prefix; first scans under the gap rule are complete; a wallet with known scripts is complete, up to what was spent early without a rebuild, if nothing new hides below the window from the known scripts of the union, and with an exact filter only if nothing hides from these and those of its first scans; without first scans the two are one condition |
| Folgescan.Strom.Filterpass | core/bip158_scan.py:2002-2047 | One pass over known scripts: matched blocks are applied once, in height order |
| Folgescan.ScanBekannt | core/bip158_scan.py:1870-2107 | With known scripts the streamed state, for any seed, is the replay of blocks among which are all of the window that touch the wallet and all older ones that touch a known script; it is that of a replay of ALL blocks from the seed, if nothing new hides below the newest window, so always for a start inside it; with an exact filter and the seeded scripts known only then |
| Folgescan.ScanFortgesetzt | core/bip158_scan.py:1870-2107 | Incremental equals full, down to the filters: on a longer chain always for a start inside the newest window; with an exact filter and the cached scripts known iff every block below it that changes the wallet touches a known script; on a chain that replaced blocks above the start, where nothing new hides, the stock is that of a full scan iff no output was lost with them, so always if the cache passes the check of `ReorgSicherGenau` |
| Folgescan.ScanNachPuffer | core/bip158_wallet.py:889-900 | A scan started as `scan_start_fuer_xpub` says, on a chain that differs from the one scanned before in its last six blocks at most, finds every output these blocks pay, up to 2010 blocks later, and has the results of a continued scan |
| Folgescan.SeedAusCacheBekannt | core/bip158_wallet.py:364-407 | Known scripts that contain those of the cached history contain those of all seeded outputs |
| Folgescan.PauseBeispiel | core/bip158_wallet.py:364-407 | A wallet continued on a chain of 2018 blocks whose second block pays its next index: the scan misses the output, whatever the exact filter |
| Folgescan.UnionAllein | core/bip158_scan.py:1689-1745 | The union scan of one wallet with known scripts, with an exact filter, misses every output hidden below the newest window, and with anything new there is not the full state |
| Inkrement.ScanStartAnschluss | core/bip158_wallet.py:856-914 | After a finished scan no height is left out iff the configured start is at most tip + 1 and is positive or the tip is at least 6; at most six heights are read again |
| Inkrement.ScanStartPuffer | core/bip158_wallet.py:889-914 | After a finished scan with a tip of at least 6, a start configured at most at tip - 5 reads exactly the heights above tip - 6 again; a later configured start is taken as it is; below height 6 without one the start is 481 824 |
| Inkrement.ScanStartOhneTip | core/bip158_wallet.py:902-914 | Without a finished scan a positive first-seen height is the start, whatever is configured; then the configured one; then 481 824 |
| Inkrement.SeedAusCache | core/bip158_wallet.py:818-852 | The seed is the cached stock below the start and the whole cached history |
| Inkrement.InkrementGenau | core/bip158_wallet.py:818-900 | A continued scan has the stock of a full one iff no output was received below the start, spent above it on the old chain and not on the new one; nothing else can differ |
| Inkrement.ReorgSicherGenau | core/bip158_wallet.py:889-900 | Safe against every reorganisation above the start iff no cached entry received below it is marked spent at or above it |
| Inkrement.ReorgBeispiel | core/bip158_wallet.py:889-900 | A chain and its reorganisation by one block on which the output is lost |
| Inkrement.InkrementOhneReorg | core/bip158_wallet.py:818-900 | Without a reorganisation stock and history equal those of a replay from scratch |
| Verteiler.JederLauf | core/bip158_scan.py:813-974 | Every interleaving: each chunk is in exactly one place (queued, held, finished, yielded, raised), tried at most five times, yielded once in height order; `erledigt` counts finished plus yielded; every run is finite |
| Verteiler.WarumGeworfen | core/bip158_scan.py:813-974 | Over every run: it raises for a chunk only if the worker that held it gave it up, and without a chunk only if the search for a fresh peer found none; a chunk is yielded only if the worker that held it loaded it, and what was given up is raised or waits for it |
| Verteiler.FuenfVersuche | core/bip158_scan.py:841-893 | A failed load puts its chunk back exactly while it was tried less than five times; only the fifth failure gives it up |
| Verteiler.OhneFehlerFertig | core/bip158_scan.py:937-969 | A run that can go no further, in which no chunk was given up and no search for a fresh peer came to an end, has yielded all chunks in order |
| Verteiler.EinGesunderReicht | core/bip158_scan.py:828-904 | With one worker that never fails the consumer never looks for a fresh peer, and a run that stops has yielded everything or raised for a chunk that another worker gave up |
| Verteiler.GuterLauf | core/bip158_scan.py:813-974 | For any chunks and any peers there is a run that yields everything |
| Verteiler.SchrittVerbraucht | core/bip158_scan.py:828-904 | Every step uses up attempts or work left |
| Verteiler.Endzustand | core/bip158_scan.py:937-969 | A run that can go no further has yielded all, has raised, or waits for the lock it holds itself |
| Verteiler.Festgefahren | core/bip158_scan.py:914-953 | Once the consumer waits for its own lock nothing moves |
| Verteiler.StecktGenau | core/bip158_scan.py:914-953 | A run gets stuck iff the consumer, with no worker left, finds a fresh peer |
| Verteiler.AusgelaufenBeendet | core/bip158_scan.py:914-953 | Without that every run that stops has yielded everything or raised |
| Verteiler.SteckenBeispiel | core/bip158_scan.py:914-953 | Two peers and one chunk suffice |
| BlockCache.MerkenGenau | core/bip158_wallet.py:459-469 | A remembered block goes last, at most the oldest of 64 gives way, the others keep their order |
| BlockCache.MerkeBlockBytes | core/bip158_wallet.py:459-469 | The loop that drops the oldest entries |
| BlockCache.JederLauf | core/bip158_wallet.py:479-508 | Every interleaving: at most one download per block at a time, returned bytes were produced for that block, no mark outlives its downloader, at most 64 entries, no waiter without someone to wake it |
| BlockCache.LadenderErhaelt | core/bip158_wallet.py:501-508 | Whatever the other calls do meanwhile, a call that has downloaded returns its own bytes, kept or not, and one whose download failed raises |
| BlockCache.EintrittGenau | core/bip158_wallet.py:479-493 | A call for a remembered block returns its bytes at once; another one downloads exactly if nobody downloads that block |
| BlockCache.WaerterGenau | core/bip158_wallet.py:494-500 | A woken waiter gets the bytes iff they are still cached |
| FilterCache.ZusammenhaengendeBereiche | core/bip158_scan.py:274-291 | Separated ranges that cover exactly the given heights |
| FilterCache.DeckungEindeutig | core/bip158_scan.py:274-291 | Such ranges are unique, hence maximal |
| FilterCache.CfilterChunks | core/bip158_scan.py:294-305 | Chunks partition the heights without gap or overlap, all but the last of full length |
| FilterCache.LadeCfilterChunk | core/bip158_scan.py:426-509 | A load that succeeds returns one row per height in order, the same for any cached heights; it asks for exactly the missing heights in maximal ranges and stores them; it succeeds with a reliable peer |
| EnvScramble.PackRundreise | core/env_scramble.py:245-264 | Packed header, nonce and ciphertext are unpacked again, whatever bytes they hold |
| EnvScramble.OeffnetGenau | core/env_scramble.py:267-308 | Exactly the password of a text opens it |
| EnvScramble.Umgebung.Save | core/env_scramble.py:631-653 | In every state: saving keeps an encrypted file encrypted under the same password; while the file is, or looks, encrypted and no key is there it fails and changes nothing |
| EnvScramble.Umgebung.Load | core/env_scramble.py:656-675 | In every state: loading returns the text, or reports the lock |
| EnvScramble.Umgebung.UnlockWithPassword | core/env_scramble.py:678-689 | In every state: a password that opens the file opens the session, any other changes nothing; a plain file is encrypted |
| EnvScramble.Umgebung.ChangeScramblePassword | core/env_scramble.py:615-628 | In every state: the text goes under the new password; an old one that does not open changes nothing |
| EnvScramble.Umgebung.DisableScramble | core/env_scramble.py:593-612 | In every state: back to plain text, session closed |
| EnvScramble.Umgebung.EnableScramble | core/env_scramble.py:565-574 | The text goes under the password |
| EnvScramble.JederLauf | core/env_scramble.py:565-689 | Over every run of operations the encrypted file holds the text saved last, whatever its bytes, but for a final newline, under the password set last; only a plain file on the way has to read as it was written |
| EnvScramble.HarmloseTexte | core/env_scramble.py:565-689 | It does if no given text has a carriage return or starts with the marker of encrypted files |
| EnvScramble.EntsperrenLiefert | core/env_scramble.py:426-439 | After every run the password set last returns the text saved last; any other is refused without effect |
| EnvScramble.KlartextGenau | core/env_scramble.py:631-675 | Without a password a text survives saving and loading iff it has no carriage return and does not begin with the marker of encrypted files |
| EnvScramble.MarkerBeispiel | core/env_scramble.py:631-689 | Saving the bare marker locks the file: loading and saving are refused and no password opens it, until it is discarded or encrypted anew |
| EnvScramble.WagenruecklaufBeispiel | core/env_scramble.py:656-675 | A carriage return comes back as a newline |
| EnvScramble.AlsTextZeilenende | core/env_scramble.py:656-675 | Reading a plain file, a carriage return ends a line, alone or together with the newline behind it |
| EnvScramble.KeyAusKopf | core/env_scramble.py:290-298 | The parameters of the header make the key, and where one is missing its default |
| EnvScramble.GeheimtextGenau | core/env_scramble.py:631-675 | Under a password every text survives saving, loading and unlocking |
| EnvZeile.ZeileGenau | core/config.py:1443-1449 | A written line reads back as its key and the value stripped of outer blanks and quotes, so as its value iff it has none |
| EnvZeile.SplitMitLeerraum | core/config.py:1442-1449 | Blanks before the key and around the equals sign do not matter |
| EnvZeile.KommentarKeineZuweisung | core/config.py:1442-1449 | A line that begins with #, whatever blanks before it, assigns nothing |
| EnvZeile.LeerzeichenGenau | core/config.py:1437-1449 | Which characters break a line and which are blanks |
| EnvZeile.ZeilenNach | core/config.py:1437 | Every break ends a line by itself, but a carriage return takes a newline behind it along |
| EnvZeile.RenderGenau | core/config.py:1437-1526 | Rendered lines are split into the same lines iff there are some and none holds a line break |
| EnvDatei.EnvFile.Set | core/config.py:1474-1486 | The last line of the key is replaced in place, or a line added behind the marker |
| EnvDatei.EnvFile.Unset | core/config.py:1488-1494 | All lines of the key go, all others stay in order |
| EnvDatei.EnvFile.Apply | core/config.py:1496-1502 | The changes one after the other |
| EnvDatei.WerteAngewandt | core/config.py:1496-1502 | Each key of the update has what its written line reads as or is gone, all others keep theirs, duplicated lines included |
| EnvDatei.AndereAngewandt | core/config.py:1474-1502 | Every line of another key and every comment survives in order; at most the marker is put behind them, once |
| EnvWallets.WalletUpdates | core/config.py:1754-1798 | The dictionary of changes for a list |
| EnvWallets.UpdatesKeys | core/config.py:1740-1775 | All old wallet keys present are removed, only block keys of the list are set |
| EnvWallets.AlteFormate | core/config.py:1728-1751 | Every key of the old formats and every block key counts as one to remove, whatever its number |
| EnvWallets.NurWalletSchluessel | core/config.py:1728-1751 | A key that does not begin like one of these is never removed |
| EnvWallets.OhneNummer | core/config.py:1735-1751 | A prefix of the old formats without a number is not removed |
| EnvWallets.WoerterNach | core/env_wallets.py:59-71 | The collecting line is split at blanks |
| EnvWallets.AlteXpubsGenau | core/env_wallets.py:14-71 | Without it the numbered keys are read from 0 up to the first missing one, a hundred at most |
| EnvWallets.ReadBloecke | core/config.py:1670-1681 | Blocks 0, 1, 2 ... up to the first missing number |
| EnvWallets.SpeichereWallets | core/config.py:1754-1798 | After saving, the wallet keys are exactly those of the list with their values as read, every other key has its old value and every other line its place |
| EnvWallets.GelesenNach | core/config.py:1583-1798 | What the reader makes of the saved values: the entries in order, and nothing of the old formats after the empty list |
| EnvWallets.SpeichernUndLesen | core/config.py:1583-1832 | Through the file: a list that passed the validation comes back entry by entry as it was given, iff none of its strings has a line break or outer blanks or quotes; the empty list comes back empty |
| EnvWallets.NameInAnfuehrung | core/config.py:1583-1832 | A wallet named in quotes comes back without them |

## Left out

- NettoMax.NettoMaximum: for a single fallback list of inputs above 69 vbytes it does not say whether other sets cover more; the size decides for all lists together (`ZweiGenuegenGenau`, `EinsGenauBis69`).
- Wenigste.WenigsteInputs: a sufficient condition; whether fewer inputs are accepted otherwise depends on the change of every smaller selection.
- Wenigste.KleinsteGroesse: compares with selections of no fewer outputs; at a capped rate a larger transaction can be cheaper.
- Folgescan.ScanFortgesetzt: after a reorganisation it speaks of the stock; the cached history keeps entries of replaced blocks.
- Sockets, peers, Tor, header sync, Core RPC, Electrum and the choice among sources: input and output only.
- Key derivation, address encoding, descriptor parsing, block parsing and Merkle checks: given as injective scripts and as blocks.
- Address scans and script maps without an extended key: their passes have no growing prefix.
- Aborts and job cancellation: every run in the model goes to its end or raises.
- The separate block download threads of `verteile_cfilter_chunks` and its single-peer loop: the chunk protocol of several peers is the hard part.
- Log lines, progress, percentages, `matched_blocks` and `false_positive_blocks`: they may repeat after a rebuild.
- Interim updates to the interface before the rebuild: provisional by design.
- Target addresses and the coinjoin flag of history entries: carried along unchanged.
- The script and block hash that a seeded output has lost: a seed in the model keeps them.
- Sharing of history entries between a seed and the running history: Python dictionaries alias them, values in the model do not.
- The clean-up of keys in `kandidaten` (case, blanks): keys arrive clean.
- Salts in hexadecimal, version numbers in the header, legacy files and backups of `env_scramble`: they repeat the same operations.
- `EnvFile.kommentar_vor` and `runtime_values`: only easy members.
- `_read_legacy_wallets` beyond the keys it finds, the other checks of `validate_wallets`, number formats of `int()` beyond digits, case of READ_ONLY values, and what `WalletEntry` derives from a descriptor: the round trip is about written fields.
- The order in which `dict.items()` yields changes: the results hold for every order.
