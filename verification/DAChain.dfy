/** What the challenge contract did, block by block of the L1 chain, whether or not the manager read it. */
module DAChain {
  import opened Prelude
  import opened Commitments
  import opened DAState
  import opened DAManager
  import opened DAInv
  import opened DATracker

  /** The contract's events in each L1 block. */
  type Chain = nat -> seq<Event>

  /** The contract's ledger after block `n`. */
  function Truth(chain: Chain, keccak: Bytes -> Bytes, n: nat): Ledger
    decreases n, 1
  {
    RecordAll(Before(chain, keccak, n), keccak, n, chain(n))
  }

  function Before(chain: Chain, keccak: Bytes -> Bytes, n: nat): Ledger
    decreases n, 0
  {
    if n == 0 then map[] else Truth(chain, keccak, n - 1)
  }

  /** The contract keeps its rules in every block; without a contract there are no events. */
  ghost predicate LegalChain(chain: Chain, cfg: Config, keccak: Bytes -> Bytes) {
    forall n: nat :: LegalEvents(Before(chain, keccak, n), cfg, keccak, n, chain(n))
                     && (!cfg.usesKeccak ==> chain(n) == [])
  }

  ghost predicate Agree(a: Chain, b: Chain, n: nat) {
    forall i :: 0 <= i <= n ==> a(i) == b(i)
  }

  lemma {:induction false} SameTruth(a: Chain, b: Chain, keccak: Bytes -> Bytes, n: nat)
    requires Agree(a, b, n)
    ensures Truth(a, keccak, n) == Truth(b, keccak, n)
  {
    if n > 0 { SameTruth(a, b, keccak, n - 1); }
  }

  lemma LegalNext(chain: Chain, cfg: Config, keccak: Bytes -> Bytes, n: nat)
    requires LegalChain(chain, cfg, keccak)
    ensures LegalEvents(Truth(chain, keccak, n), cfg, keccak, n + 1, chain(n + 1))
    ensures Truth(chain, keccak, n + 1) == RecordAll(Truth(chain, keccak, n), keccak, n + 1, chain(n + 1))
  {
    hide LegalEvents, RecordAll;
    assert Before(chain, keccak, n + 1) == Truth(chain, keccak, n);
  }

  /** `l'` is `l` some time after block `n`: nothing is forgotten or redated, what is new happened after `n`,
      and a challenge whose window closed by `n` has not changed. */
  ghost predicate Grown(l: Ledger, l': Ledger, cfg: Config, k: Key, n: nat) {
    && (k in l ==> k in l' && l'[k].at == l[k].at && (l[k].answered ==> l'[k].answered))
    && (k in l' && k !in l ==> l'[k].at > n)
    && (k in l' && l'[k].at + cfg.resolveWindow <= n ==> k in l && l[k] == l'[k])
  }

  lemma {:induction false} TruthGrows(chain: Chain, cfg: Config, keccak: Bytes -> Bytes, k: Key, n: nat, m: nat)
    requires LegalChain(chain, cfg, keccak) && n <= m
    ensures Grown(Truth(chain, keccak, n), Truth(chain, keccak, m), cfg, k, n)
    decreases m
  {
    hide Truth, RecordAll, LegalChain, LegalEvents;
    if n < m {
      TruthGrows(chain, cfg, keccak, k, n, m - 1);
      LegalNext(chain, cfg, keccak, m - 1);
      LedgerGrowth(Truth(chain, keccak, m - 1), cfg, keccak, m, chain(m), k);
    }
  }

  /** Every challenge on the ledger is a Keccak one, made within its challenge window. */
  ghost predicate Dated(l: Ledger, cfg: Config, k: Key, n: nat) {
    k in l ==> k.comm.Keccak? && WellFormed(k.comm) && cfg.usesKeccak
               && k.inclusion <= l[k].at <= Min(n, k.inclusion + cfg.challengeWindow)
  }

  lemma {:induction false} EventsDated(l: Ledger, cfg: Config, keccak: Bytes -> Bytes, block: nat, es: seq<Event>,
                                       k: Key)
    requires LegalEvents(l, cfg, keccak, block, es) && Dated(l, cfg, k, block) && (cfg.usesKeccak || es == [])
    ensures Dated(RecordAll(l, keccak, block, es), cfg, k, block)
  {
    if |es| > 0 { EventsDated(l, cfg, keccak, block, es[..|es| - 1], k); }
  }

  lemma {:induction false} TruthDated(chain: Chain, cfg: Config, keccak: Bytes -> Bytes, k: Key, n: nat)
    requires LegalChain(chain, cfg, keccak)
    ensures Dated(Truth(chain, keccak, n), cfg, k, n)
  {
    hide RecordAll, LegalEvents;
    if n > 0 { TruthDated(chain, cfg, keccak, k, n - 1); }
    EventsDated(Before(chain, keccak, n), cfg, keccak, n, chain(n), k);
  }

  // ----- What a manager that started to read after block `base` can know -----

  /** The challenges made after block `base`, as of block `n`. */
  function Seen(chain: Chain, keccak: Bytes -> Bytes, base: nat, n: nat): Ledger {
    Truth(chain, keccak, n) - Truth(chain, keccak, base).Keys
  }

  /** Events that are legal for the whole ledger are legal for the part not in `earlier`, and add the same to it. */
  lemma {:induction false} PartLegal(l: Ledger, earlier: set<Key>, cfg: Config, keccak: Bytes -> Bytes, block: nat,
                                     es: seq<Event>)
    requires LegalEvents(l, cfg, keccak, block, es) && earlier <= l.Keys
    ensures LegalEvents(l - earlier, cfg, keccak, block, es)
    ensures RecordAll(l - earlier, keccak, block, es) == RecordAll(l, keccak, block, es) - earlier
    ensures earlier <= RecordAll(l, keccak, block, es).Keys
  {
    if |es| > 0 {
      PartLegal(l, earlier, cfg, keccak, block, es[..|es| - 1]);
    }
  }

  lemma SeenNext(chain: Chain, cfg: Config, keccak: Bytes -> Bytes, base: nat, n: nat)
    requires LegalChain(chain, cfg, keccak) && base <= n
    ensures LegalEvents(Seen(chain, keccak, base, n), cfg, keccak, n + 1, chain(n + 1))
    ensures Seen(chain, keccak, base, n + 1) == RecordAll(Seen(chain, keccak, base, n), keccak, n + 1, chain(n + 1))
  {
    hide Truth, RecordAll, LegalChain, LegalEvents;
    var l, earlier := Truth(chain, keccak, n), Truth(chain, keccak, base).Keys;
    LegalNext(chain, cfg, keccak, n);
    forall k | k in earlier ensures k in l { TruthGrows(chain, cfg, keccak, k, base, n); }
    PartLegal(l, earlier, cfg, keccak, n + 1, chain(n + 1));
  }

  lemma SeenNothing(chain: Chain, keccak: Bytes -> Bytes, base: nat)
    ensures Seen(chain, keccak, base, base) == map[]
  {
    hide Truth;
  }

  /** A commitment included after `base` can be challenged only in blocks after `base`. */
  lemma IncludedLaterIsSeen(chain: Chain, cfg: Config, keccak: Bytes -> Bytes, base: nat, k: Key)
    requires LegalChain(chain, cfg, keccak) && k.inclusion > base
    ensures k !in Truth(chain, keccak, base)
  {
    hide Truth;
    TruthDated(chain, cfg, keccak, k, base);
  }

  /** Settled by block `n`: answered, or never challenged and no longer challengeable. Then it stays so, and
      the challenge expires unanswered at no block at all. */
  lemma SettledForever(chain: Chain, cfg: Config, keccak: Bytes -> Bytes, k: Key, n: nat, m: nat)
    requires LegalChain(chain, cfg, keccak) && Clean(Truth(chain, keccak, n), cfg, k, n)
    ensures n <= m ==> Clean(Truth(chain, keccak, m), cfg, k, m)
    ensures !EverExpired(Truth(chain, keccak, m), cfg, k, m)
  {
    hide Truth, LegalChain;
    TruthDated(chain, cfg, keccak, k, m);
    TruthGrows(chain, cfg, keccak, k, Min(n, m), Max(n, m));
  }
}
