/** Whole runs of the Alt-DA manager over an L1 chain. */
module DARuns {
  import opened Prelude
  import opened Commitments
  import opened DAState
  import opened DAManager
  import opened DAInv
  import opened DATracker
  import opened DAChain

  /** The manager; the L1 chain; the block at which it last started over, with nothing known; the keys that have
      required an L2 reorg since then; every commitment finalized so far; and every commitment read since the last
      reset of either kind, that is the commitments L2 is derived from. */
  datatype World = World(da: Da, chain: Chain, base: nat, triggered: set<Key>, finalized: seq<Commitment>,
                         used: seq<Commitment>)

  /** `fetched` says whether the events of the L1 block that the step wants can be had. A full reset may switch
      to another chain. */
  datatype Op =
    | AdvanceL1(block: nat, fetched: bool, refOk: bool)
    | Read(comm: Comm, inclusion: nat, storage: StorageReply, fetched: bool)
    | Rebase(base: nat, chain: Chain)
    | FinalizeL1(l1Finalized: nat)

  function StartWorld(chain: Chain): (w: World)
    ensures Linked(w.da.state)
  {
    World(NewDA(), chain, 0, {}, [], [])
  }

  function Events(w: World, block: nat, fetched: bool): Option<seq<Event>> {
    if fetched then Some(w.chain(block)) else None
  }

  /** The keys for which a step answers ErrReorgRequired. */
  function Demands(w: World, cfg: Config, keccak: Bytes -> Bytes, op: Op): set<Key>
    requires Linked(w.da.state)
  {
    if !op.AdvanceL1? then {}
    else
      var es := Events(w, op.block, op.fetched);
      if AdvanceL1Origin(w.da, cfg, keccak, op.block, es, op.refOk).1 != ReorgRequired then {}
      else TriggeredBy(AdvanceChallengeOrigin(w.da, cfg, keccak, op.block, es).0.state, op.block)
  }

  /** What a read adds to the tracked commitments. */
  function TrackedBy(s: State, cfg: Config, comm: Comm, inclusion: nat): seq<Commitment>
    requires Linked(s)
  {
    if TypeAllowed(cfg, comm) && GetChallengeStatus(s, comm, inclusion) != Expired
    then [Commitment(comm, inclusion, inclusion + cfg.challengeWindow)] else []
  }

  function Step(w: World, cfg: Config, keccak: Bytes -> Bytes, op: Op): (r: World)
    requires Linked(w.da.state)
    ensures Linked(r.da.state)
  {
    match op
    case AdvanceL1(block, fetched, refOk) =>
      w.(da := AdvanceL1Origin(w.da, cfg, keccak, block, Events(w, block, fetched), refOk).0,
         triggered := w.triggered + Demands(w, cfg, keccak, op))
    case Read(comm, inclusion, storage, fetched) =>
      w.(da := GetInput(w.da, cfg, keccak, comm, inclusion, storage, Events(w, w.da.challengeOrigin + 1, fetched)).0,
         used := w.used + TrackedBy(w.da.state, cfg, comm, inclusion))
    case Rebase(base, chain) =>
      if w.da.resetting then w.(da := Reset(w.da, base), used := [])
      else World(Reset(w.da, base), chain, base, {}, w.finalized, [])
    case FinalizeL1(f) => w.(da := Finalize(w.da, f), finalized := w.finalized + Finalizes(w.da.state, f))
  }

  /** The L1 block the pipeline derives from. A reset sets it together with that of the traversal, and no commitment of
      a block is read before AdvanceL1Origin has reached the block. */
  function Position(w: World): nat {
    w.da.commitmentOrigin
  }

  /** What the pipeline and L1 can do: ErrReorgRequired is followed at once by a reset; L1 blocks are derived from in
      order, and only commitments of the block at hand are read; L1 reorgs keep finalized blocks; and the L1 finalized
      head never goes back. */
  ghost predicate Possible(w: World, cfg: Config, keccak: Bytes -> Bytes, op: Op) {
    && (w.da.resetting ==> op.Rebase?)
    && match op
       case AdvanceL1(block, _, _) => Position(w) <= block <= Position(w) + 1
       case Read(comm, inclusion, _, _) => WellFormed(comm) && inclusion == Position(w)
       case Rebase(base, chain) =>
         if w.da.resetting then base <= w.da.challengeOrigin
         else LegalChain(chain, cfg, keccak) && Agree(chain, w.chain, w.da.l1Finalized)
       case FinalizeL1(f) => f >= w.da.l1Finalized
  }

  ghost predicate AnsweredBy(chain: Chain, keccak: Bytes -> Bytes, k: Key, n: nat) {
    k in Truth(chain, keccak, n) && Truth(chain, keccak, n)[k].answered
  }

  /** No finality signal before this block can finalize a commitment whose challenge is not on record. */
  function DecidedBy(d: Da, cfg: Config, k: Key): nat {
    Max(d.l1Finalized, Min(d.challengeOrigin, k.inclusion + cfg.challengeWindow))
  }

  /** A challenge the manager has no record of was answered before its commitment can be finalized. */
  ghost predicate Known(w: World, cfg: Config, keccak: Bytes -> Bytes, k: Key) {
    k in Truth(w.chain, keccak, w.da.challengeOrigin) && !Has(w.da.state.index, k) ==>
      AnsweredBy(w.chain, keccak, k, DecidedBy(w.da, cfg, k))
  }

  /** The two steps that can go wrong: reading a commitment against which there is a challenge the manager does
      not know of, and pruning the expired challenge of a commitment that is still tracked. */
  ghost predicate Careful(w: World, cfg: Config, keccak: Bytes -> Bytes, op: Op)
    requires Linked(w.da.state)
  {
    match op
    case Read(comm, inclusion, _, _) => Known(w, cfg, keccak, Key(comm, inclusion))
    case FinalizeL1(f) => !PrunesTracked(w.da.state, f)
    case _ => true
  }

  ghost predicate Legal(w: World, cfg: Config, keccak: Bytes -> Bytes, op: Op)
    requires Linked(w.da.state)
  {
    Possible(w, cfg, keccak, op) && Careful(w, cfg, keccak, op)
  }

  // ----- The invariant -----

  /** The manager against what it has read since it last started over. */
  function View(w: World, keccak: Bytes -> Bytes): Tracker {
    Tracker(w.da, Seen(w.chain, keccak, w.base, w.da.challengeOrigin), w.triggered)
  }

  /** The commitments read that are not finalized yet, in the order they were read. */
  function Queue(s: State): seq<Commitment> {
    s.expiredCommitments + s.commitments
  }

  /** Commitments in the queue that were challenged before the manager started over were answered in time. */
  ghost predicate EarlierAnswered(cs: seq<Commitment>, chain: Chain, cfg: Config, keccak: Bytes -> Bytes, base: nat,
                                  d: Da)
  {
    forall c :: c in cs && KeyFor(c) in Truth(chain, keccak, base) ==>
      AnsweredBy(chain, keccak, KeyFor(c), DecidedBy(d, cfg, KeyFor(c)))
  }

  /** Finalized commitments are settled by finalized L1 blocks alone. */
  ghost predicate AllSettled(cs: seq<Commitment>, final: Ledger, cfg: Config, l1Finalized: nat) {
    forall c :: c in cs ==> Clean(final, cfg, KeyFor(c), l1Finalized)
  }

  /** What L2 is derived from is settled or still in the queue, and the queue is its most recent part. */
  ghost predicate UsedOk(used: seq<Commitment>, queue: seq<Commitment>, final: Ledger, cfg: Config, l1Finalized: nat) {
    IsSuffix(queue, used) && AllSettled(used[..|used| - |queue|], final, cfg, l1Finalized)
  }

  /** What every possible step keeps: the manager is in step with the chain it reads. */
  ghost predicate WorldBase(w: World, cfg: Config, keccak: Bytes -> Bytes) {
    && LegalChain(w.chain, cfg, keccak) && w.base <= w.da.challengeOrigin
    && Base(View(w, keccak), cfg, keccak)
  }

  /** What legal steps keep. */
  ghost predicate WorldInv(w: World, cfg: Config, keccak: Bytes -> Bytes) {
    var d, queue := w.da, Queue(w.da.state);
    var final := Truth(w.chain, keccak, d.l1Finalized);
    && WorldBase(w, cfg, keccak) && Guarded(View(w, keccak), cfg)
    && AllSettled(w.finalized, final, cfg, d.l1Finalized)
    && (!d.resetting ==>
          && EarlierAnswered(queue, w.chain, cfg, keccak, w.base, d)
          && UsedOk(w.used, queue, final, cfg, d.l1Finalized))
  }

  lemma StartInv(chain: Chain, cfg: Config, keccak: Bytes -> Bytes)
    requires LegalChain(chain, cfg, keccak)
    ensures WorldInv(StartWorld(chain), cfg, keccak)
  {
    hide Truth, Base, Guarded, LegalChain;
    SeenNothing(chain, keccak, 0);
    NewInv(cfg, keccak);
  }

  // ----- Advancing -----

  /** The ledger of what was read follows the chain, one block at a time. */
  lemma SeenAfter(w: World, cfg: Config, keccak: Bytes -> Bytes, d': Da, es: Option<seq<Event>>)
    requires LegalChain(w.chain, cfg, keccak) && w.base <= w.da.challengeOrigin
    requires var o := w.da.challengeOrigin;
      d'.challengeOrigin == o
      || (d'.challengeOrigin == o + 1 && (es == Some(w.chain(o + 1)) || !cfg.usesKeccak))
    ensures LedgerAfter(Seen(w.chain, keccak, w.base, w.da.challengeOrigin), cfg, keccak, w.da, d', es)
         == Seen(w.chain, keccak, w.base, d'.challengeOrigin)
  {
    hide Truth, Seen, RecordAll, LegalEvents;
    var o := w.da.challengeOrigin;
    SeenNext(w.chain, cfg, keccak, w.base, o);
    if !cfg.usesKeccak {
      assert w.chain(o + 1) == [];
      RecordNothing(Seen(w.chain, keccak, w.base, o), keccak, o + 1);
    }
  }

  lemma RecordNothing(l: Ledger, keccak: Bytes -> Bytes, block: nat)
    ensures RecordAll(l, keccak, block, []) == l
  {
  }

  lemma BlockIsLegal(w: World, cfg: Config, keccak: Bytes -> Bytes, block: nat, fetched: bool)
    requires LegalChain(w.chain, cfg, keccak) && w.base <= w.da.challengeOrigin && block <= w.da.challengeOrigin + 1
    ensures LegalBlock(View(w, keccak), cfg, keccak, block, Events(w, block, fetched))
  {
    hide Truth, Seen, LegalEvents, LegalChain;
    SeenNext(w.chain, cfg, keccak, w.base, w.da.challengeOrigin);
  }

  lemma ChallengeFrame(d: Da, cfg: Config, keccak: Bytes -> Bytes, block: nat, es: Option<seq<Event>>)
    requires Linked(d.state)
    ensures var (d', ok) := AdvanceChallengeOrigin(d, cfg, keccak, block, es);
      && d'.l1Finalized == d.l1Finalized && d'.resetting == d.resetting && d'.commitmentOrigin == d.commitmentOrigin
      && d'.state.commitments == d.state.commitments && d'.state.expiredCommitments == d.state.expiredCommitments
      && (d'.challengeOrigin == d.challengeOrigin
          || (d'.challengeOrigin == block > d.challengeOrigin && (es.Some? || !cfg.usesKeccak)))
  {
    hide ChallengeKey, Linked, ApplyEvents, EndedPrefix, ExpireRefs;
    if es.Some? { IndexGrowth(d.state, cfg, keccak, block, es.value); }
  }

  lemma CommitmentFrame(d: Da, block: nat)
    requires Linked(d.state)
    ensures var d' := AdvanceCommitmentOrigin(d, block).0;
      && d'.l1Finalized == d.l1Finalized && d'.challengeOrigin == d.challengeOrigin
      && Queue(d'.state) == Queue(d.state)
  {
    hide ChallengeKey, Linked, ExpiredPrefix, AnyUnresolved;
    var n := ExpiredPrefix(d.state, d.state.commitments, block);
    assert d.state.commitments == d.state.commitments[..n] + d.state.commitments[n..];
  }

  /** What AdvanceL1Origin leaves alone, and how far the challenge origin can move. */
  lemma AdvanceFrame(d: Da, cfg: Config, keccak: Bytes -> Bytes, block: nat, es: Option<seq<Event>>, refOk: bool)
    requires Linked(d.state)
    ensures var d' := AdvanceL1Origin(d, cfg, keccak, block, es, refOk).0;
      && d'.l1Finalized == d.l1Finalized
      && (d'.challengeOrigin == d.challengeOrigin
          || (d'.challengeOrigin == block > d.challengeOrigin && (es.Some? || !cfg.usesKeccak)))
      && Queue(d'.state) == Queue(d.state)
  {
    hide Linked, AdvanceChallengeOrigin, AdvanceCommitmentOrigin, NoCommitments;
    ChallengeFrame(d, cfg, keccak, block, es);
    CommitmentFrame(AdvanceChallengeOrigin(d, cfg, keccak, block, es).0, block);
  }

  lemma AnsweredLater(chain: Chain, cfg: Config, keccak: Bytes -> Bytes, k: Key, n: nat, m: nat)
    requires LegalChain(chain, cfg, keccak) && n <= m && AnsweredBy(chain, keccak, k, n)
    ensures AnsweredBy(chain, keccak, k, m)
  {
    hide Truth, LegalChain;
    TruthGrows(chain, cfg, keccak, k, n, m);
  }

  /** Answers in time stay answers in time as the origin and the finalized head move on. */
  lemma EarlierLater(cs: seq<Commitment>, cs': seq<Commitment>, chain: Chain, cfg: Config, keccak: Bytes -> Bytes,
                     base: nat, d: Da, d': Da)
    requires LegalChain(chain, cfg, keccak) && EarlierAnswered(cs, chain, cfg, keccak, base, d)
    requires d.challengeOrigin <= d'.challengeOrigin && d.l1Finalized <= d'.l1Finalized
    requires forall c :: c in cs' ==> c in cs
    ensures EarlierAnswered(cs', chain, cfg, keccak, base, d')
  {
    hide Truth, LegalChain, AnsweredBy;
    forall c | c in cs' && KeyFor(c) in Truth(chain, keccak, base)
      ensures AnsweredBy(chain, keccak, KeyFor(c), DecidedBy(d', cfg, KeyFor(c)))
    {
      AnsweredLater(chain, cfg, keccak, KeyFor(c), DecidedBy(d, cfg, KeyFor(c)), DecidedBy(d', cfg, KeyFor(c)));
    }
  }

  lemma AdvanceBase(w: World, cfg: Config, keccak: Bytes -> Bytes, block: nat, fetched: bool, refOk: bool)
    requires Linked(w.da.state) && WorldBase(w, cfg, keccak) && !w.da.resetting && block <= Position(w) + 1
    ensures var w' := Step(w, cfg, keccak, AdvanceL1(block, fetched, refOk));
      && WorldBase(w', cfg, keccak) && w.da.challengeOrigin <= w'.da.challengeOrigin
      && (Guarded(View(w, keccak), cfg) ==> Guarded(View(w', keccak), cfg))
  {
    hide Base, Guarded, Truth, Seen, LegalChain, Linked, AdvanceL1Origin, AdvanceChallengeOrigin, TriggeredBy,
      LegalBlock, Queue, LedgerAfter;
    var es := Events(w, block, fetched);
    var d' := AdvanceL1Origin(w.da, cfg, keccak, block, es, refOk).0;
    BaseLinked(View(w, keccak), cfg, keccak);
    BlockIsLegal(w, cfg, keccak, block, fetched);
    AdvanceL1Inv(View(w, keccak), cfg, keccak, block, es, refOk);
    AdvanceFrame(w.da, cfg, keccak, block, es, refOk);
    SeenAfter(w, cfg, keccak, d', es);
  }

  lemma AdvanceStep(w: World, cfg: Config, keccak: Bytes -> Bytes, block: nat, fetched: bool, refOk: bool)
    requires Linked(w.da.state) && WorldInv(w, cfg, keccak) && !w.da.resetting && block <= Position(w) + 1
    ensures WorldInv(Step(w, cfg, keccak, AdvanceL1(block, fetched, refOk)), cfg, keccak)
  {
    hide Base, Guarded, Truth, LegalChain, Linked, AdvanceL1Origin, AdvanceChallengeOrigin, TriggeredBy, AllSettled,
      EarlierAnswered, UsedOk, Queue;
    var es := Events(w, block, fetched);
    var d' := AdvanceL1Origin(w.da, cfg, keccak, block, es, refOk).0;
    AdvanceBase(w, cfg, keccak, block, fetched, refOk);
    AdvanceFrame(w.da, cfg, keccak, block, es, refOk);
    EarlierLater(Queue(w.da.state), Queue(d'.state), w.chain, cfg, keccak, w.base, w.da, d');
  }

  // ----- Reading -----

  lemma ReadFrame(d: Da, cfg: Config, keccak: Bytes -> Bytes, comm: Comm, inclusion: nat, storage: StorageReply,
                  next: Option<seq<Event>>)
    requires Linked(d.state)
    ensures var d' := GetInput(d, cfg, keccak, comm, inclusion, storage, next).0;
      && d'.l1Finalized == d.l1Finalized && d'.resetting == d.resetting
      && (d'.challengeOrigin == d.challengeOrigin || (d'.challengeOrigin == d.challengeOrigin + 1 && next.Some?))
      && Queue(d'.state) == Queue(d.state) + TrackedBy(d.state, cfg, comm, inclusion)
  {
    hide ChallengeKey, Linked, ApplyEvents, EndedPrefix, ExpireRefs, GetChallengeStatus, GetChallenge;
    var d1 := d.(state := TrackCommitment(d.state, cfg, comm, inclusion));
    TrackLinked(d.state, cfg, comm, inclusion);
    if next.Some? { IndexGrowth(d1.state, cfg, keccak, d.challengeOrigin + 1, next.value); }
  }

  /** What is in the index was read since the manager started over. */
  lemma IndexedIsSeen(t: Tracker, cfg: Config, keccak: Bytes -> Bytes, k: Key)
    requires Base(t, cfg, keccak) && Has(t.da.state.index, k) && k.comm.Keccak? && WellFormed(k.comm)
    ensures k in t.ledger
  {
    hide ChallengeKey, Ordered, Divided, LedgerOk, AllShaped, Untriggered, TriggeredOk, Behind, Trails;
    var s := t.da.state;
    LookupExact(s.heap, s.index, s.expiredChallenges + s.challenges, t.ledger, cfg, keccak, t.da.challengeOrigin,
                k.comm, k.inclusion);
  }

  /** A challenge that expired and was forgotten is not known. */
  lemma KnownNotForgotten(w: World, cfg: Config, keccak: Bytes -> Bytes, k: Key)
    requires LegalChain(w.chain, cfg, keccak) && Known(w, cfg, keccak, k)
    ensures !Forgotten(View(w, keccak), cfg, k)
  {
    hide Truth, LegalChain, Has;
    var o, n := w.da.challengeOrigin, DecidedBy(w.da, cfg, k);
    TruthGrows(w.chain, cfg, keccak, k, Min(o, n), Max(o, n));
  }

  /** A commitment challenged before the manager started over is not in the index. */
  lemma EarlierIsUnindexed(w: World, cfg: Config, keccak: Bytes -> Bytes, k: Key)
    requires WorldBase(w, cfg, keccak) && k in Truth(w.chain, keccak, w.base)
    ensures k in Truth(w.chain, keccak, w.da.challengeOrigin) && !Has(w.da.state.index, k)
  {
    hide Truth, LegalChain, Has, Base;
    TruthDated(w.chain, cfg, keccak, k, w.base);
    TruthGrows(w.chain, cfg, keccak, k, w.base, w.da.challengeOrigin);
    if Has(w.da.state.index, k) { IndexedIsSeen(View(w, keccak), cfg, keccak, k); }
  }

  lemma ReadBase(w: World, cfg: Config, keccak: Bytes -> Bytes, comm: Comm, inclusion: nat, storage: StorageReply,
                 fetched: bool)
    requires Linked(w.da.state) && WorldBase(w, cfg, keccak) && !w.da.resetting && WellFormed(comm)
    ensures var w' := Step(w, cfg, keccak, Read(comm, inclusion, storage, fetched));
      && WorldBase(w', cfg, keccak) && !w'.da.resetting
      && (Guarded(View(w, keccak), cfg) ==>
            (Guarded(View(w', keccak), cfg) <==> !Forgotten(View(w, keccak), cfg, Key(comm, inclusion))))
  {
    hide Base, Guarded, Truth, Seen, LegalChain, Linked, GetInput, LegalBlock, LedgerAfter, Has, Forgotten, Queue,
      TrackedBy;
    var o := w.da.challengeOrigin;
    var es := Events(w, o + 1, fetched);
    var d' := GetInput(w.da, cfg, keccak, comm, inclusion, storage, es).0;
    BlockIsLegal(w, cfg, keccak, o + 1, fetched);
    GetInputInv(View(w, keccak), cfg, keccak, comm, inclusion, storage, es);
    ReadFrame(w.da, cfg, keccak, comm, inclusion, storage, es);
    SeenAfter(w, cfg, keccak, d', es);
  }

  lemma ReadStep(w: World, cfg: Config, keccak: Bytes -> Bytes, comm: Comm, inclusion: nat, storage: StorageReply,
                 fetched: bool)
    requires Linked(w.da.state) && WorldInv(w, cfg, keccak) && !w.da.resetting && WellFormed(comm)
    requires Known(w, cfg, keccak, Key(comm, inclusion))
    ensures WorldInv(Step(w, cfg, keccak, Read(comm, inclusion, storage, fetched)), cfg, keccak)
  {
    hide Base, Guarded, Truth, LegalChain, Linked, GetInput, AllSettled, Has, Forgotten, EarlierAnswered, UsedOk,
      Queue, TrackedBy, Known;
    var es := Events(w, w.da.challengeOrigin + 1, fetched);
    var d' := GetInput(w.da, cfg, keccak, comm, inclusion, storage, es).0;
    KnownNotForgotten(w, cfg, keccak, Key(comm, inclusion));
    ReadBase(w, cfg, keccak, comm, inclusion, storage, fetched);
    ReadFrame(w.da, cfg, keccak, comm, inclusion, storage, es);
    var added := TrackedBy(w.da.state, cfg, comm, inclusion);
    KnownEarlier(w, cfg, keccak, comm, inclusion);
    EarlierLater(Queue(w.da.state) + added, Queue(d'.state), w.chain, cfg, keccak, w.base, w.da, d');
    UsedGrows(w.used, Queue(w.da.state), added, Truth(w.chain, keccak, w.da.l1Finalized), cfg, w.da.l1Finalized);
  }

  /** A known commitment may join those answered in time. */
  lemma KnownEarlier(w: World, cfg: Config, keccak: Bytes -> Bytes, comm: Comm, inclusion: nat)
    requires Linked(w.da.state) && WorldInv(w, cfg, keccak) && !w.da.resetting
    requires Known(w, cfg, keccak, Key(comm, inclusion))
    ensures EarlierAnswered(Queue(w.da.state) + TrackedBy(w.da.state, cfg, comm, inclusion), w.chain, cfg, keccak,
                            w.base, w.da)
  {
    hide Base, Guarded, Truth, LegalChain, Linked, AllSettled, Has, UsedOk, Queue, AnsweredBy, DecidedBy;
    var k := Key(comm, inclusion);
    if k in Truth(w.chain, keccak, w.base) { EarlierIsUnindexed(w, cfg, keccak, k); }
  }

  lemma UsedGrows(used: seq<Commitment>, queue: seq<Commitment>, more: seq<Commitment>, final: Ledger, cfg: Config,
                  l1Finalized: nat)
    requires UsedOk(used, queue, final, cfg, l1Finalized)
    ensures UsedOk(used + more, queue + more, final, cfg, l1Finalized)
  {
    var n := |used| - |queue|;
    assert (used + more)[n..] == used[n..] + more && (used + more)[..n] == used[..n];
  }

  // ----- Resets -----

  lemma RebaseBase(w: World, cfg: Config, keccak: Bytes -> Bytes, base: nat, chain: Chain)
    requires Linked(w.da.state) && WorldBase(w, cfg, keccak) && Possible(w, cfg, keccak, Rebase(base, chain))
    ensures var w' := Step(w, cfg, keccak, Rebase(base, chain));
      && WorldBase(w', cfg, keccak) && Guarded(View(w', keccak), cfg)
      && Position(w') == base && !w'.da.resetting && w'.da.l1Finalized == w.da.l1Finalized && Queue(w'.da.state) == []
  {
    hide Base, Guarded, Truth, LegalChain, Linked, Agree;
    ResetInv(View(w, keccak), cfg, keccak, base);
    if !w.da.resetting { SeenNothing(chain, keccak, base); }
  }

  lemma RebaseStep(w: World, cfg: Config, keccak: Bytes -> Bytes, base: nat, chain: Chain)
    requires Linked(w.da.state) && WorldInv(w, cfg, keccak) && Possible(w, cfg, keccak, Rebase(base, chain))
    ensures WorldInv(Step(w, cfg, keccak, Rebase(base, chain)), cfg, keccak)
  {
    hide Base, Guarded, Truth, LegalChain, Linked, Agree, AllSettled, Reset, Queue;
    RebaseBase(w, cfg, keccak, base, chain);
    NothingUsed(Truth(w.chain, keccak, w.da.l1Finalized), cfg, w.da.l1Finalized);
    if !w.da.resetting { SameTruth(chain, w.chain, keccak, w.da.l1Finalized); }
  }

  lemma NothingUsed(final: Ledger, cfg: Config, l1Finalized: nat)
    ensures UsedOk([], [], final, cfg, l1Finalized)
  {
  }

  // ----- Finality -----

  /** A commitment that a finality signal for `f` finalizes is settled by block `f`. */
  lemma FinalizedIsSettled(w: World, cfg: Config, keccak: Bytes -> Bytes, f: nat, c: Commitment)
    requires Linked(w.da.state) && WorldInv(w, cfg, keccak) && !w.da.resetting && f >= w.da.l1Finalized
    requires c in w.da.state.expiredCommitments && ExpiresAt(w.da.state, c) <= f
    ensures Clean(Truth(w.chain, keccak, f), cfg, KeyFor(c), f)
  {
    hide Truth, LegalChain, ChallengeKey, Ordered, Divided, LedgerOk, AllRemembered, Untriggered, TriggeredOk, Trails,
      AllSettled, UsedOk;
    var k, o, s := KeyFor(c), w.da.challengeOrigin, w.da.state;
    var l := Seen(w.chain, keccak, w.base, o);
    assert Clean(l, cfg, k, o) && Shaped(c, cfg);
    TruthGrows(w.chain, cfg, keccak, k, Min(o, f), Max(o, f));
    TruthDated(w.chain, cfg, keccak, k, f);
    if k in l {
      if Has(s.index, k) {
        LookupExact(s.heap, s.index, s.expiredChallenges + s.challenges, l, cfg, keccak, o, c.comm, c.inclusion);
      }
      assert l[k].at + cfg.resolveWindow <= f;
    } else if k in Truth(w.chain, keccak, w.base) {
      assert c in Queue(s);
      if k.comm.Keccak? { EarlierIsUnindexed(w, cfg, keccak, k); }
      AnsweredLater(w.chain, cfg, keccak, k, DecidedBy(w.da, cfg, k), f);
    } else if k.comm.Keccak? && Has(s.index, k) {
      IndexedIsSeen(View(w, keccak), cfg, keccak, k);
    }
  }

  lemma FinalizeBase(w: World, cfg: Config, keccak: Bytes -> Bytes, f: nat)
    requires Linked(w.da.state) && WorldBase(w, cfg, keccak) && !w.da.resetting && f >= w.da.l1Finalized
    ensures var w' := Step(w, cfg, keccak, FinalizeL1(f));
      && WorldBase(w', cfg, keccak)
      && (Guarded(View(w, keccak), cfg) ==> (Guarded(View(w', keccak), cfg) <==> !PrunesTracked(w.da.state, f)))
  {
    hide Base, Guarded, Truth, LegalChain, Linked, PrunesTracked, ExpiresAt, PruneChallenges, Queue;
    FinalizeInv(View(w, keccak), cfg, keccak, f);
  }

  lemma FinalizeStep(w: World, cfg: Config, keccak: Bytes -> Bytes, f: nat)
    requires Linked(w.da.state) && WorldInv(w, cfg, keccak) && !w.da.resetting && f >= w.da.l1Finalized
    requires !PrunesTracked(w.da.state, f)
    ensures WorldInv(Step(w, cfg, keccak, FinalizeL1(f)), cfg, keccak)
  {
    hide Base, Guarded, Truth, LegalChain, Linked, PrunesTracked, ExpiresAt, Clean, PruneChallenges, Queue,
      EarlierAnswered, UsedOk;
    FinalizeBase(w, cfg, keccak, f);
    var s, final, done := w.da.state, Truth(w.chain, keccak, f), Finalizes(w.da.state, f);
    forall c | c in w.finalized + done ensures Clean(final, cfg, KeyFor(c), f) {
      if c in w.finalized {
        SettledForever(w.chain, cfg, keccak, KeyFor(c), w.da.l1Finalized, f);
      } else {
        FinalizedIsSettled(w, cfg, keccak, f, c);
      }
    }
    FinalizeFrame(w.da, f);
    var d' := Finalize(w.da, f);
    EarlierLater(Queue(s), Queue(d'.state), w.chain, cfg, keccak, w.base, w.da, d');
    UsedSettles(w, cfg, keccak, f, done);
  }

  lemma UsedSettles(w: World, cfg: Config, keccak: Bytes -> Bytes, f: nat, done: seq<Commitment>)
    requires LegalChain(w.chain, cfg, keccak) && w.da.l1Finalized <= f && done <= Queue(w.da.state)
    requires UsedOk(w.used, Queue(w.da.state), Truth(w.chain, keccak, w.da.l1Finalized), cfg, w.da.l1Finalized)
    requires AllSettled(done, Truth(w.chain, keccak, f), cfg, f)
    ensures UsedOk(w.used, Queue(w.da.state)[|done|..], Truth(w.chain, keccak, f), cfg, f)
  {
    hide Truth, LegalChain, Clean, Queue;
    var used, queue := w.used, Queue(w.da.state);
    var n := |used| - |queue|;
    assert used[n + |done|..] == queue[|done|..] && used[..n + |done|] == used[..n] + done;
    forall c | c in used[..n] ensures Clean(Truth(w.chain, keccak, f), cfg, KeyFor(c), f) {
      SettledForever(w.chain, cfg, keccak, KeyFor(c), w.da.l1Finalized, f);
    }
  }

  lemma FinalizeFrame(d: Da, f: nat)
    requires Linked(d.state)
    ensures var d' := Finalize(d, f);
      && d'.l1Finalized == f && d'.challengeOrigin == d.challengeOrigin && d'.commitmentOrigin == d.commitmentOrigin
      && d'.resetting == d.resetting && d'.state.commitments == d.state.commitments
      && Finalizes(d.state, f) <= Queue(d.state) && Queue(d'.state) == Queue(d.state)[|Finalizes(d.state, f)|..]
  {
    hide ChallengeKey, EndedPrefix, ExpiresAt, KeysOf;
  }

  // ----- Runs -----

  /** A possible step of any kind keeps the manager in step with the chain. */
  lemma StepBase(w: World, cfg: Config, keccak: Bytes -> Bytes, op: Op)
    requires Linked(w.da.state) && WorldBase(w, cfg, keccak) && Possible(w, cfg, keccak, op)
    ensures WorldBase(Step(w, cfg, keccak, op), cfg, keccak)
  {
    hide WorldBase, Step, Linked, LegalChain, Agree, Guarded, PrunesTracked, Forgotten;
    match op
    case AdvanceL1(block, fetched, refOk) => AdvanceBase(w, cfg, keccak, block, fetched, refOk);
    case Read(comm, inclusion, storage, fetched) => ReadBase(w, cfg, keccak, comm, inclusion, storage, fetched);
    case Rebase(base, chain) => RebaseBase(w, cfg, keccak, base, chain);
    case FinalizeL1(f) => FinalizeBase(w, cfg, keccak, f);
  }

  lemma StepInv(w: World, cfg: Config, keccak: Bytes -> Bytes, op: Op)
    requires Linked(w.da.state) && WorldInv(w, cfg, keccak) && Legal(w, cfg, keccak, op)
    ensures WorldInv(Step(w, cfg, keccak, op), cfg, keccak)
  {
    hide WorldInv, Step, Linked, LegalChain, Agree, Known, PrunesTracked;
    match op
    case AdvanceL1(block, fetched, refOk) => AdvanceStep(w, cfg, keccak, block, fetched, refOk);
    case Read(comm, inclusion, storage, fetched) => ReadStep(w, cfg, keccak, comm, inclusion, storage, fetched);
    case Rebase(base, chain) => RebaseStep(w, cfg, keccak, base, chain);
    case FinalizeL1(f) => FinalizeStep(w, cfg, keccak, f);
  }

  function Run(w: World, cfg: Config, keccak: Bytes -> Bytes, ops: seq<Op>): (r: World)
    requires Linked(w.da.state)
    ensures Linked(r.da.state)
    decreases |ops|
  {
    if ops == [] then w else Run(Step(w, cfg, keccak, ops[0]), cfg, keccak, ops[1..])
  }

  ghost predicate PossibleRun(w: World, cfg: Config, keccak: Bytes -> Bytes, ops: seq<Op>)
    requires Linked(w.da.state)
    decreases |ops|
  {
    ops == [] || (Possible(w, cfg, keccak, ops[0]) && PossibleRun(Step(w, cfg, keccak, ops[0]), cfg, keccak, ops[1..]))
  }

  ghost predicate LegalRun(w: World, cfg: Config, keccak: Bytes -> Bytes, ops: seq<Op>)
    requires Linked(w.da.state)
    decreases |ops|
  {
    ops == [] || (Legal(w, cfg, keccak, ops[0]) && LegalRun(Step(w, cfg, keccak, ops[0]), cfg, keccak, ops[1..]))
  }

  /** Every possible run does, */
  lemma {:induction false} RunBase(w: World, cfg: Config, keccak: Bytes -> Bytes, ops: seq<Op>)
    requires Linked(w.da.state) && WorldBase(w, cfg, keccak) && PossibleRun(w, cfg, keccak, ops)
    ensures WorldBase(Run(w, cfg, keccak, ops), cfg, keccak)
    decreases |ops|
  {
    hide WorldBase, Step, Possible, Linked;
    if ops != [] {
      StepBase(w, cfg, keccak, ops[0]);
      RunBase(Step(w, cfg, keccak, ops[0]), cfg, keccak, ops[1..]);
    }
  }

  /** and every legal run keeps the invariant. */
  lemma {:induction false} RunInv(w: World, cfg: Config, keccak: Bytes -> Bytes, ops: seq<Op>)
    requires Linked(w.da.state) && WorldInv(w, cfg, keccak) && LegalRun(w, cfg, keccak, ops)
    ensures WorldInv(Run(w, cfg, keccak, ops), cfg, keccak)
    decreases |ops|
  {
    hide WorldInv, Step, Legal, Linked;
    if ops != [] {
      StepInv(w, cfg, keccak, ops[0]);
      RunInv(Step(w, cfg, keccak, ops[0]), cfg, keccak, ops[1..]);
    }
  }
}
