/** What holds in every run of the Alt-DA manager from its start. */
module DATheorems {
  import opened Prelude
  import opened Commitments
  import opened DAState
  import opened DAManager
  import opened DAInv
  import opened DATracker
  import opened DAChain
  import opened DARuns

  lemma ReachableInv(chain: Chain, cfg: Config, keccak: Bytes -> Bytes, ops: seq<Op>)
    requires LegalChain(chain, cfg, keccak) && LegalRun(StartWorld(chain), cfg, keccak, ops)
    ensures WorldInv(Run(StartWorld(chain), cfg, keccak, ops), cfg, keccak)
  {
    hide WorldInv, LegalRun, Run, LegalChain;
    StartInv(chain, cfg, keccak);
    RunInv(StartWorld(chain), cfg, keccak, ops);
  }

  /** Whatever happens, the manager stays in step with the chain it reads. */
  lemma ReachableBase(chain: Chain, cfg: Config, keccak: Bytes -> Bytes, ops: seq<Op>)
    requires LegalChain(chain, cfg, keccak) && PossibleRun(StartWorld(chain), cfg, keccak, ops)
    ensures WorldBase(Run(StartWorld(chain), cfg, keccak, ops), cfg, keccak)
  {
    hide WorldBase, PossibleRun, Run, LegalChain, Guarded, AllSettled, EarlierAnswered, UsedOk;
    StartInv(chain, cfg, keccak);
    RunBase(StartWorld(chain), cfg, keccak, ops);
  }

  /** Finalization safety: no commitment the manager prunes as final in a legal run, before or after any reset, has a
      challenge that runs out unanswered at any block of the L1 chain. What the head it hands out covers beyond these
      commitments is the subject of module DAHead. */
  lemma NothingExpiredIsFinalized(
      chain: Chain, cfg: Config, keccak: Bytes -> Bytes, ops: seq<Op>, c: Commitment, n: nat)
    requires LegalChain(chain, cfg, keccak) && LegalRun(StartWorld(chain), cfg, keccak, ops)
    requires c in Run(StartWorld(chain), cfg, keccak, ops).finalized
    ensures !EverExpired(Truth(Run(StartWorld(chain), cfg, keccak, ops).chain, keccak, n), cfg, KeyFor(c), n)
  {
    hide LegalRun, Run, Truth, LegalChain, Base, Guarded, EarlierAnswered, UsedOk, Clean, EverExpired;
    ReachableInv(chain, cfg, keccak, ops);
    var w := Run(StartWorld(chain), cfg, keccak, ops);
    SettledForever(w.chain, cfg, keccak, KeyFor(c), w.da.l1Finalized, n);
  }

  /** In every possible run, the finalized head is unset or trails the L1 finalized head by one of the two windows. */
  lemma HeadTrails(chain: Chain, cfg: Config, keccak: Bytes -> Bytes, ops: seq<Op>)
    requires LegalChain(chain, cfg, keccak) && PossibleRun(StartWorld(chain), cfg, keccak, ops)
    ensures var d := Run(StartWorld(chain), cfg, keccak, ops).da;
      d.finalizedHead == 0 || d.finalizedHead + Min(cfg.challengeWindow, cfg.resolveWindow) <= d.l1Finalized
  {
    hide PossibleRun, Run, LegalChain, Tracks, AllShaped, Untriggered, TriggeredOk, Behind, Linked, Truth;
    ReachableBase(chain, cfg, keccak, ops);
  }

  /** In every possible run, what a read answers from a resolved challenge hashes to the commitment asked for. */
  lemma ResolvedInputsVerify(chain: Chain, cfg: Config, keccak: Bytes -> Bytes, ops: seq<Op>, comm: Comm,
                             inclusion: nat, next: Option<seq<Event>>)
    requires LegalChain(chain, cfg, keccak) && PossibleRun(StartWorld(chain), cfg, keccak, ops)
    requires WellFormed(comm) && comm.Keccak?
    ensures var d := Run(StartWorld(chain), cfg, keccak, ops).da;
      var a := GetInput(d, cfg, keccak, comm, inclusion, NotFound, next).1;
      a.Data? ==> keccak(a.data) == comm.bytes
  {
    hide PossibleRun, Run, GetInput, Base, LegalChain, Truth;
    ReachableBase(chain, cfg, keccak, ops);
    var w := Run(StartWorld(chain), cfg, keccak, ops);
    if GetInput(w.da, cfg, keccak, comm, inclusion, NotFound, next).1.Data? {
      ResolvedInputVerified(View(w, keccak), cfg, keccak, comm, inclusion, next);
    }
  }

  /** What can make a commitment unknown: a challenge from before the manager started over that was not answered in
      time, or an expired challenge that was forgotten. */
  lemma KnownExactly(w: World, cfg: Config, keccak: Bytes -> Bytes, k: Key)
    requires WorldBase(w, cfg, keccak) && WellFormed(k.comm)
    ensures Known(w, cfg, keccak, k) <==>
      && (k in Truth(w.chain, keccak, w.base) ==> AnsweredBy(w.chain, keccak, k, DecidedBy(w.da, cfg, k)))
      && !Forgotten(View(w, keccak), cfg, k)
  {
    hide Truth, LegalChain, Has, RefsOk, Ordered, Divided, Indexed, AllShaped, Untriggered, TriggeredOk, Trails, Linked;
    var o, f := w.da.challengeOrigin, w.da.l1Finalized;
    TruthGrows(w.chain, cfg, keccak, k, Min(o, f), Max(o, f));
    TruthGrows(w.chain, cfg, keccak, k, f, DecidedBy(w.da, cfg, k));
    if k in Truth(w.chain, keccak, w.base) { EarlierIsUnindexed(w, cfg, keccak, k); }
    if Known(w, cfg, keccak, k) { KnownNotForgotten(w, cfg, keccak, k); }
  }

  /** So a commitment included after the block at which the manager started over may be read, unless an expired
      challenge against it was forgotten. */
  lemma LaterInclusionKnown(w: World, cfg: Config, keccak: Bytes -> Bytes, k: Key)
    requires WorldBase(w, cfg, keccak) && WellFormed(k.comm) && k.inclusion > w.base
    ensures Known(w, cfg, keccak, k) <==> !Forgotten(View(w, keccak), cfg, k)
  {
    hide Truth, Base, Known, Forgotten;
    IncludedLaterIsSeen(w.chain, cfg, keccak, w.base, k);
    KnownExactly(w, cfg, keccak, k);
  }

  // ----- Each commitment requires a reorg at most once -----

  /** No step is a full reset. */
  ghost predicate NoFullReset(w: World, cfg: Config, keccak: Bytes -> Bytes, ops: seq<Op>)
    requires Linked(w.da.state)
    decreases |ops|
  {
    ops == [] || ((ops[0].Rebase? ==> w.da.resetting)
                  && NoFullReset(Step(w, cfg, keccak, ops[0]), cfg, keccak, ops[1..]))
  }

  lemma {:induction false} TriggeredStays(w: World, cfg: Config, keccak: Bytes -> Bytes, ops: seq<Op>)
    requires Linked(w.da.state) && NoFullReset(w, cfg, keccak, ops)
    ensures w.triggered <= Run(w, cfg, keccak, ops).triggered
    decreases |ops|
  {
    hide Linked, AdvanceL1Origin, AdvanceChallengeOrigin, GetInput, Finalize, Reset, TriggeredBy, Finalizes;
    if ops != [] {
      TriggeredStays(Step(w, cfg, keccak, ops[0]), cfg, keccak, ops[1..]);
    }
  }

  lemma DemandMovesOrigin(d: Da, block: nat)
    requires Linked(d.state)
    ensures AdvanceCommitmentOrigin(d, block).1 ==> d.commitmentOrigin < block
  {
    hide ExpireCommitments, Linked;
  }

  /** A demand names only keys whose challenge expired unanswered on L1, and that were not named before. */
  lemma DemandsAreNew(w: World, cfg: Config, keccak: Bytes -> Bytes, op: Op)
    requires Linked(w.da.state) && WorldBase(w, cfg, keccak) && Possible(w, cfg, keccak, op)
    ensures Demands(w, cfg, keccak, op) !! w.triggered
    ensures Demands(w, cfg, keccak, op) <= Step(w, cfg, keccak, op).triggered
    ensures forall k :: k in Demands(w, cfg, keccak, op) ==>
      var o := Step(w, cfg, keccak, op).da.challengeOrigin; EverExpired(Truth(w.chain, keccak, o), cfg, k, o)
  {
    hide Base, Guarded, AdvanceChallengeOrigin, AdvanceCommitmentOrigin, TriggeredBy, LegalBlock, LedgerAfter,
      LegalChain, Truth, UpdateFinalizedFromL1, Linked;
    if Demands(w, cfg, keccak, op) != {} {
      var es := Events(w, op.block, op.fetched);
      var (d1, ok) := AdvanceChallengeOrigin(w.da, cfg, keccak, op.block, es);
      BaseLinked(View(w, keccak), cfg, keccak);
      BlockIsLegal(w, cfg, keccak, op.block, op.fetched);
      AdvanceChallengeInv(View(w, keccak), cfg, keccak, op.block, es);
      AdvanceKeepsMode(w.da, cfg, keccak, op.block, es);
      ChallengeFrame(w.da, cfg, keccak, op.block, es);
      CommitmentKeepsOrigin(d1, op.block);
      DemandMovesOrigin(d1, op.block);
      SeenAfter(w, cfg, keccak, d1, es);
      ReorgRequiredOnce(View(w.(da := d1), keccak), cfg, keccak, op.block);
    }
  }

  /** Between two full resets, a commitment of a block demands an L2 reorg at most once, whatever is read, advanced,
      finalized or reorganised in between. */
  lemma DemandedOnce(w: World, cfg: Config, keccak: Bytes -> Bytes, first: Op, between: seq<Op>, second: Op)
    requires Linked(w.da.state) && WorldBase(w, cfg, keccak) && Possible(w, cfg, keccak, first)
    requires var w1 := Step(w, cfg, keccak, first);
      && PossibleRun(w1, cfg, keccak, between) && NoFullReset(w1, cfg, keccak, between)
      && Possible(Run(w1, cfg, keccak, between), cfg, keccak, second)
    ensures var w2 := Run(Step(w, cfg, keccak, first), cfg, keccak, between);
      Demands(w, cfg, keccak, first) !! Demands(w2, cfg, keccak, second)
  {
    hide WorldBase, Possible, Step, Run, PossibleRun, NoFullReset, Demands, Linked;
    DemandsAreNew(w, cfg, keccak, first);
    StepBase(w, cfg, keccak, first);
    var w1 := Step(w, cfg, keccak, first);
    RunBase(w1, cfg, keccak, between);
    TriggeredStays(w1, cfg, keccak, between);
    DemandsAreNew(Run(w1, cfg, keccak, between), cfg, keccak, second);
  }

  // ----- Bounded waiting -----

  /** The step is a read of `k` that finds no data and answers that the challenge is pending. */
  ghost predicate Waits(w: World, cfg: Config, keccak: Bytes -> Bytes, k: Key, op: Op)
    requires Linked(w.da.state)
  {
    && op.Read? && Key(op.comm, op.inclusion) == k && op.storage == NotFound && op.fetched
    && GetInput(w.da, cfg, keccak, k.comm, k.inclusion, NotFound, Events(w, w.da.challengeOrigin + 1, true)).1
       == PendingChallenge
  }

  ghost function CountWaits(w: World, cfg: Config, keccak: Bytes -> Bytes, k: Key, ops: seq<Op>): nat
    requires Linked(w.da.state)
    decreases |ops|
  {
    if ops == [] then 0
    else (if Waits(w, cfg, keccak, k, ops[0]) then 1 else 0)
         + CountWaits(Step(w, cfg, keccak, ops[0]), cfg, keccak, k, ops[1..])
  }

  /** Without a full reset the challenge origin never goes back, and a wait moves it. */
  lemma WaitAdvances(w: World, cfg: Config, keccak: Bytes -> Bytes, k: Key, op: Op)
    requires Linked(w.da.state) && WorldBase(w, cfg, keccak) && Possible(w, cfg, keccak, op)
    requires op.Rebase? ==> w.da.resetting
    ensures var o, o' := w.da.challengeOrigin, Step(w, cfg, keccak, op).da.challengeOrigin;
      o <= o' && (Waits(w, cfg, keccak, k, op) ==>
                    o' == o + 1 && o <= k.inclusion + cfg.challengeWindow + cfg.resolveWindow)
  {
    hide Base, Truth, LegalChain, Linked, AdvanceL1Origin, GetInput, Finalize, TriggeredBy, TrackedBy, Finalizes;
    match op
    case AdvanceL1(block, fetched, refOk) =>
      AdvanceFrame(w.da, cfg, keccak, block, Events(w, block, fetched), refOk);
    case Read(comm, inclusion, storage, fetched) =>
      var es := Events(w, w.da.challengeOrigin + 1, fetched);
      ReadFrame(w.da, cfg, keccak, comm, inclusion, storage, es);
      if Waits(w, cfg, keccak, k, op) {
        PendingAdvances(View(w, keccak), cfg, keccak, comm, inclusion, es.value);
      }
    case Rebase(base, chain) =>
    case FinalizeL1(f) => FinalizeFrame(w.da, f);
  }

  /** A missing input is pending at most inclusion + ChallengeWindow + ResolveWindow + 1 - challengeOrigin times,
      whatever else the pipeline reads, advances, finalizes or reorgs in between. */
  lemma {:induction false} BoundedWaiting(w: World, cfg: Config, keccak: Bytes -> Bytes, k: Key, ops: seq<Op>)
    requires Linked(w.da.state) && WorldBase(w, cfg, keccak)
    requires PossibleRun(w, cfg, keccak, ops) && NoFullReset(w, cfg, keccak, ops)
    ensures CountWaits(w, cfg, keccak, k, ops)
         <= Max(0, k.inclusion + cfg.challengeWindow + cfg.resolveWindow + 1 - w.da.challengeOrigin)
    decreases |ops|
  {
    hide WorldBase, Step, Possible, Linked, Waits;
    if ops != [] {
      StepBase(w, cfg, keccak, ops[0]);
      WaitAdvances(w, cfg, keccak, k, ops[0]);
      BoundedWaiting(Step(w, cfg, keccak, ops[0]), cfg, keccak, k, ops[1..]);
    }
  }
}
