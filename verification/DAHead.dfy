/** The head the Alt-DA manager hands out: all that L2 is derived from up to that L1 block is going to be finalized. */
module DAHead {
  import opened Prelude
  import opened Commitments
  import opened DAState
  import opened DAManager
  import opened DAInv
  import opened DATracker
  import opened DAChain
  import opened DARuns
  import opened DANecessity
  import opened DATheorems

  /** No commitment L2 is derived from, included up to the head, has a challenge that runs out unanswered, on any chain
      with the same finalized blocks. */
  ghost predicate HeadJustified(w: World, cfg: Config, keccak: Bytes -> Bytes) {
    forall chain, c, n ::
      LegalChain(chain, cfg, keccak) && Agree(chain, w.chain, w.da.l1Finalized)
      && c in w.used && c.inclusion <= w.da.finalizedHead ==>
        !EverExpired(Truth(chain, keccak, n), cfg, KeyFor(c), n)
  }

  /** What is in the queue up to the head is settled by finalized blocks all the same. */
  ghost predicate QueueSettled(w: World, cfg: Config, keccak: Bytes -> Bytes) {
    forall c :: c in Queue(w.da.state) && c.inclusion <= w.da.finalizedHead ==>
      Clean(Truth(w.chain, keccak, w.da.l1Finalized), cfg, KeyFor(c), w.da.l1Finalized)
  }

  lemma SettledIsJustified(w: World, cfg: Config, keccak: Bytes -> Bytes)
    requires Linked(w.da.state) && WorldInv(w, cfg, keccak) && !w.da.resetting && QueueSettled(w, cfg, keccak)
    ensures HeadJustified(w, cfg, keccak)
  {
    hide Truth, LegalChain, Base, Guarded, EarlierAnswered, Clean, EverExpired, Linked, Queue;
    var f := w.da.l1Finalized;
    forall chain, c, n: nat |
      LegalChain(chain, cfg, keccak) && Agree(chain, w.chain, f) && c in w.used && c.inclusion <= w.da.finalizedHead
      ensures !EverExpired(Truth(chain, keccak, n), cfg, KeyFor(c), n)
    {
      var queue := Queue(w.da.state);
      var m := |w.used| - |queue|;
      assert w.used == w.used[..m] + w.used[m..];
      SameTruth(chain, w.chain, keccak, f);
      SettledForever(chain, cfg, keccak, KeyFor(c), f, n);
    }
  }

  /** What is not settled by block `n` expires unanswered on some chain that agrees up to `n`. */
  lemma UnsettledExpires(chain: Chain, cfg: Config, keccak: Bytes -> Bytes, k: Key, n: nat)
    returns (later: Chain, m: nat)
    requires LegalChain(chain, cfg, keccak) && cfg.usesKeccak && k.comm.Keccak? && WellFormed(k.comm)
    requires k.inclusion <= n && !Clean(Truth(chain, keccak, n), cfg, k, n)
    ensures LegalChain(later, cfg, keccak) && Agree(later, chain, n)
    ensures EverExpired(Truth(later, keccak, m), cfg, k, m)
  {
    hide Truth, LegalChain;
    var l := Truth(chain, keccak, n);
    if k in l {
      later, m := Quiet(chain, n), n + l[k].at + cfg.resolveWindow;
      QuietLegal(chain, cfg, keccak, n);
      SameTruth(later, chain, keccak, n);
      QuietStays(later, keccak, n, m);
    } else {
      later, m := ThenChallenged(chain, n, k), n + 1 + cfg.resolveWindow;
      ThenChallengedLegal(chain, cfg, keccak, n, k);
      QuietStays(later, keccak, n + 1, m);
    }
  }

  lemma QueueShaped(w: World, cfg: Config, keccak: Bytes -> Bytes, c: Commitment)
    requires Linked(w.da.state) && WorldInv(w, cfg, keccak) && !w.da.resetting && c in Queue(w.da.state)
    ensures Shaped(c, cfg) && c in w.used && w.da.finalizedHead <= w.da.l1Finalized
  {
    hide Truth, LegalChain, Tracks, Untriggered, TriggeredOk, Behind, EarlierAnswered, AllSettled, Guarded;
  }

  /** The head is justified iff what is still in the queue up to the head is settled by finalized blocks. */
  lemma HeadJustifiedExactly(w: World, cfg: Config, keccak: Bytes -> Bytes)
    requires Linked(w.da.state) && WorldInv(w, cfg, keccak) && !w.da.resetting && cfg.usesKeccak
    ensures HeadJustified(w, cfg, keccak) <==> QueueSettled(w, cfg, keccak)
  {
    hide Truth, LegalChain, WorldInv, EverExpired, Clean, Linked, Queue;
    if QueueSettled(w, cfg, keccak) {
      SettledIsJustified(w, cfg, keccak);
    } else {
      var c :| c in Queue(w.da.state) && c.inclusion <= w.da.finalizedHead
               && !Clean(Truth(w.chain, keccak, w.da.l1Finalized), cfg, KeyFor(c), w.da.l1Finalized);
      QueueShaped(w, cfg, keccak, c);
      ChainOf(w, cfg, keccak);
      var chain, n := UnsettledExpires(w.chain, cfg, keccak, KeyFor(c), w.da.l1Finalized);
    }
  }

  /** In particular when nothing is left in the queue up to the head, as after every signal whose last finalized
      commitment is followed only by later ones. */
  lemma NothingLeftIsJustified(chain: Chain, cfg: Config, keccak: Bytes -> Bytes, ops: seq<Op>)
    requires LegalChain(chain, cfg, keccak) && LegalRun(StartWorld(chain), cfg, keccak, ops)
    requires var w := Run(StartWorld(chain), cfg, keccak, ops);
      !w.da.resetting && forall c :: c in Queue(w.da.state) ==> c.inclusion > w.da.finalizedHead
    ensures HeadJustified(Run(StartWorld(chain), cfg, keccak, ops), cfg, keccak)
  {
    hide WorldInv, LegalRun, Run, HeadJustified, Clean, Truth;
    ReachableInv(chain, cfg, keccak, ops);
    SettledIsJustified(Run(StartWorld(chain), cfg, keccak, ops), cfg, keccak);
  }
}
