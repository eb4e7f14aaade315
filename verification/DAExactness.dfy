/** The two conditions on runs of the Alt-DA manager are exact: a read or a finality signal is safe, whatever happens
    later on L1 and with the manager, iff it meets its condition. */
module DAExactness {
  import opened Prelude
  import opened Commitments
  import opened DAState
  import opened DAManager
  import opened DAInv
  import opened DATracker
  import opened DAChain
  import opened DARuns
  import opened DANecessity

  /** No finalized commitment has a challenge that runs out unanswered at any block of the L1 chain. */
  ghost predicate AllSafe(w: World, cfg: Config, keccak: Bytes -> Bytes) {
    forall c, n :: c in w.finalized ==> !EverExpired(Truth(w.chain, keccak, n), cfg, KeyFor(c), n)
  }

  /** The L1 block up to which the chain is given: all before it is read or finalized. */
  function Given(w: World): nat {
    Max(w.da.challengeOrigin, w.da.l1Finalized)
  }

  /** The same manager on another chain. */
  function On(w: World, chain: Chain): World {
    w.(chain := chain)
  }

  /** After `op`, legal steps on any chain that agrees with what is given never finalize anything unsafe. */
  ghost predicate StaysSafe(w: World, cfg: Config, keccak: Bytes -> Bytes, op: Op)
    requires Linked(w.da.state)
  {
    forall chain, ops ::
      LegalChain(chain, cfg, keccak) && Agree(chain, w.chain, Given(w))
      && LegalRun(Step(On(w, chain), cfg, keccak, op), cfg, keccak, ops) ==>
        AllSafe(Run(Step(On(w, chain), cfg, keccak, op), cfg, keccak, ops), cfg, keccak)
  }

  /** All that has been read or finalized is the same, so the invariant is. */
  lemma OnInv(w: World, cfg: Config, keccak: Bytes -> Bytes, chain: Chain)
    requires WorldInv(w, cfg, keccak) && LegalChain(chain, cfg, keccak) && Agree(chain, w.chain, Given(w))
    ensures WorldInv(On(w, chain), cfg, keccak)
  {
    hide Truth, LegalChain, Base, Guarded, AllSettled, UsedOk;
    SameTruth(chain, w.chain, keccak, w.base);
    SameTruth(chain, w.chain, keccak, w.da.challengeOrigin);
    SameTruth(chain, w.chain, keccak, w.da.l1Finalized);
    forall k ensures Truth(chain, keccak, DecidedBy(w.da, cfg, k)) == Truth(w.chain, keccak, DecidedBy(w.da, cfg, k)) {
      SameTruth(chain, w.chain, keccak, DecidedBy(w.da, cfg, k));
    }
  }

  lemma OnKnown(w: World, cfg: Config, keccak: Bytes -> Bytes, chain: Chain, k: Key)
    requires Agree(chain, w.chain, Given(w))
    ensures Known(On(w, chain), cfg, keccak, k) <==> Known(w, cfg, keccak, k)
  {
    hide Truth, Has;
    SameTruth(chain, w.chain, keccak, w.da.challengeOrigin);
    SameTruth(chain, w.chain, keccak, DecidedBy(w.da, cfg, k));
  }

  lemma InvIsSafe(w: World, cfg: Config, keccak: Bytes -> Bytes)
    requires WorldInv(w, cfg, keccak)
    ensures AllSafe(w, cfg, keccak)
  {
    hide Truth, LegalChain, Base, Guarded, EarlierAnswered, UsedOk, Clean, EverExpired;
    forall c, n: nat | c in w.finalized ensures !EverExpired(Truth(w.chain, keccak, n), cfg, KeyFor(c), n) {
      SettledForever(w.chain, cfg, keccak, KeyFor(c), w.da.l1Finalized, n);
    }
  }

  /** A careful step is safe, in every state. */
  lemma CarefulIsSafe(w: World, cfg: Config, keccak: Bytes -> Bytes, op: Op)
    requires Linked(w.da.state) && WorldInv(w, cfg, keccak) && !op.Rebase? && Legal(w, cfg, keccak, op)
    ensures StaysSafe(w, cfg, keccak, op)
  {
    hide WorldInv, Step, Run, LegalRun, LegalChain, Agree, AllSafe, Linked, PrunesTracked, Known;
    forall chain, ops |
      LegalChain(chain, cfg, keccak) && Agree(chain, w.chain, Given(w))
      && LegalRun(Step(On(w, chain), cfg, keccak, op), cfg, keccak, ops)
      ensures AllSafe(Run(Step(On(w, chain), cfg, keccak, op), cfg, keccak, ops), cfg, keccak)
    {
      OnInv(w, cfg, keccak, chain);
      if op.Read? { OnKnown(w, cfg, keccak, chain, Key(op.comm, op.inclusion)); }
      StepInv(On(w, chain), cfg, keccak, op);
      RunInv(Step(On(w, chain), cfg, keccak, op), cfg, keccak, ops);
      InvIsSafe(Run(Step(On(w, chain), cfg, keccak, op), cfg, keccak, ops), cfg, keccak);
    }
  }

  /** A legal continuation that goes wrong. */
  lemma NotSafe(w: World, cfg: Config, keccak: Bytes -> Bytes, op: Op, chain: Chain, ops: seq<Op>, end: World,
                c: Commitment)
    requires Linked(w.da.state) && LegalChain(chain, cfg, keccak) && Agree(chain, w.chain, Given(w))
    requires Goes(Step(On(w, chain), cfg, keccak, op), cfg, keccak, true, ops, end) && Wrong(end, cfg, keccak, c)
    ensures !StaysSafe(w, cfg, keccak, op)
  {
    hide Step, Run, LegalRun, LegalChain, Agree, Linked, Truth, Goes;
    GoesLegally(Step(On(w, chain), cfg, keccak, op), cfg, keccak, ops, end);
  }

  // ----- Reads -----

  /** What it means that a commitment is not known. */
  lemma UnknownWhen(w: World, cfg: Config, keccak: Bytes -> Bytes, k: Key)
    requires Linked(w.da.state) && WorldInv(w, cfg, keccak) && !w.da.resetting && !Known(w, cfg, keccak, k)
    ensures Unknown(w, cfg, keccak, k) && k in Truth(w.chain, keccak, Given(w))
    ensures !AnsweredBy(w.chain, keccak, k, DecidedBy(w.da, cfg, k))
  {
    hide Truth, LegalChain, Has, Tracks, AllShaped, AllRemembered, AllClean, Untriggered, TriggeredOk, Behind, Trails,
      AllSettled, EarlierAnswered, UsedOk, Linked;
    TruthDated(w.chain, cfg, keccak, k, w.da.challengeOrigin);
    TruthGrows(w.chain, cfg, keccak, k, w.da.challengeOrigin, Given(w));
  }

  /** If there is an answer all the same, it is late for any block `n` before it by which the commitment is decided. */
  lemma LateWhen(w: World, cfg: Config, keccak: Bytes -> Bytes, k: Key, n: nat)
    requires Unknown(w, cfg, keccak, k) && AnsweredBy(w.chain, keccak, k, Given(w))
    requires DecidedBy(w.da, cfg, k) <= n && !AnsweredBy(w.chain, keccak, k, n)
    ensures Late(w, cfg, keccak, k, n) && Given(w) == w.da.challengeOrigin && cfg.resolveWindow > 0
  {
    hide Truth, LegalChain, Has, Linked;
    var o := w.da.challengeOrigin;
    TruthDated(w.chain, cfg, keccak, k, o);
    TruthGrows(w.chain, cfg, keccak, k, Min(n, Given(w)), Max(n, Given(w)));
    TruthGrows(w.chain, cfg, keccak, k, Min(n, o), Max(n, o));
  }

  lemma OnUnknown(w: World, cfg: Config, keccak: Bytes -> Bytes, chain: Chain, k: Key)
    requires Unknown(w, cfg, keccak, k) && LegalChain(chain, cfg, keccak) && Agree(chain, w.chain, Given(w))
    ensures Unknown(On(w, chain), cfg, keccak, k)
  {
    hide Truth, LegalChain, Linked, Has;
    SameTruth(chain, w.chain, keccak, w.da.challengeOrigin);
  }

  lemma OnLate(w: World, cfg: Config, keccak: Bytes -> Bytes, chain: Chain, k: Key, n: nat)
    requires Late(w, cfg, keccak, k, n) && LegalChain(chain, cfg, keccak) && Agree(chain, w.chain, Given(w))
    ensures Late(On(w, chain), cfg, keccak, k, n)
  {
    hide Truth, Unknown, LegalChain;
    OnUnknown(w, cfg, keccak, chain, k);
    SameTruth(chain, w.chain, keccak, n);
  }

  /** The block by which the commitment is decided and all in the queue before it has expired. */
  function ClearedBy(w: World, cfg: Config, k: Key): nat
    requires Linked(w.da.state)
  {
    Max(DecidedBy(w.da, cfg, k), MaxExpiry(w.da.state, Queue(w.da.state)))
  }

  ghost predicate NoneUnresolved(s: State)
    requires Linked(s)
  {
    forall c :: c in s.commitments ==> !Unresolved(s, c)
  }

  /** Nothing in the queue keeps the commitment from being finalized: the queue is empty, or nothing tracked has an
      unresolved challenge and, if the commitment's own challenge is answered, the queue expires before that. */
  ghost predicate Unobstructed(w: World, cfg: Config, keccak: Bytes -> Bytes, k: Key)
    requires Linked(w.da.state)
  {
    || Queue(w.da.state) == []
    || (&& w.da.l1Finalized <= w.da.challengeOrigin
        && NoneUnresolved(w.da.state)
        && (AnsweredBy(w.chain, keccak, k, Given(w)) ==> !AnsweredBy(w.chain, keccak, k, ClearedBy(w, cfg, k))))
  }

  /** Then reading an unknown commitment and legal steps from there on, without another read, can finalize it although
      its challenge expires. */
  lemma UnknownReadUnsafe(w: World, cfg: Config, keccak: Bytes -> Bytes, k: Key, storage: StorageReply, fetched: bool)
    requires Linked(w.da.state) && WorldInv(w, cfg, keccak) && !w.da.resetting && Unobstructed(w, cfg, keccak, k)
    requires WellFormed(k.comm) && k.inclusion == Position(w) && !Known(w, cfg, keccak, k)
    ensures !StaysSafe(w, cfg, keccak, Read(k.comm, k.inclusion, storage, fetched))
  {
    hide Linked, Truth, LegalChain, WorldInv, Known, Step, Has, Goes, Doomed, Late, StaysSafe, Unknown, SameOutlook,
      Queue, Calm, Wrong, AnsweredBy, Unobstructed, ExpiresAt;
    var op, n := Read(k.comm, k.inclusion, storage, fetched), Given(w);
    UnknownWhen(w, cfg, keccak, k);
    ChainOf(w, cfg, keccak);
    QuietLegal(w.chain, cfg, keccak, n);
    var chain := Quiet(w.chain, n);
    var w0 := On(w, chain);
    OnUnknown(w, cfg, keccak, chain, k);
    ReadUnknown(w0, cfg, keccak, k, storage, fetched);
    var w1 := Step(w0, cfg, keccak, op);
    CalmAfterRead(w0, w1, cfg, keccak, k, n) by { UnobstructedOn(w, cfg, keccak, k, chain); }
    var ops, end;
    if AnsweredBy(w.chain, keccak, k, n) {
      var m := ClearedBy(w, cfg, k);
      AnsweredAfterQueue(w, cfg, keccak, k);
      LateWhen(w, cfg, keccak, k, m);
      OnLate(w, cfg, keccak, chain, k, m);
      LateMeans(w0, cfg, keccak, k, m);
      StillLate(w0, w1, cfg, keccak, k, m);
      ExpiresAfterRead(w0, w1, cfg, keccak, k, m);
      ops, end := LateIsFinalized(w1, cfg, keccak, k, m, n);
    } else {
      UnansweredMeans(w, cfg, keccak, k);
      SilencedDoomed(w, cfg, keccak, k, n);
      StillDoomed(w0, w1, cfg, keccak, k, n);
      ops, end := CalmIsFinalized(w1, cfg, keccak, k, n);
    }
    NotSafe(w, cfg, keccak, op, chain, ops, end, Tracked(cfg, k));
  }

  lemma UnansweredMeans(w: World, cfg: Config, keccak: Bytes -> Bytes, k: Key)
    requires k in Truth(w.chain, keccak, Given(w)) && !AnsweredBy(w.chain, keccak, k, Given(w))
    ensures !Truth(w.chain, keccak, Given(w))[k].answered
  {
    hide Truth;
  }

  /** An answer does not come before the queue has expired. */
  lemma AnsweredAfterQueue(w: World, cfg: Config, keccak: Bytes -> Bytes, k: Key)
    requires Linked(w.da.state) && Unobstructed(w, cfg, keccak, k) && AnsweredBy(w.chain, keccak, k, Given(w))
    requires !AnsweredBy(w.chain, keccak, k, DecidedBy(w.da, cfg, k))
    ensures !AnsweredBy(w.chain, keccak, k, ClearedBy(w, cfg, k))
  {
    hide AnsweredBy, Linked, ExpiresAt;
  }

  /** What obstructs is the same on every chain that agrees with what is given; here only what is tracked matters. */
  lemma UnobstructedOn(w: World, cfg: Config, keccak: Bytes -> Bytes, k: Key, chain: Chain)
    requires Linked(w.da.state) && Unobstructed(w, cfg, keccak, k)
    ensures var w0 := On(w, chain);
      || Queue(w0.da.state) == []
      || (Given(w0) <= w0.da.challengeOrigin && NoneUnresolved(w0.da.state))
  {
    hide AnsweredBy, Linked, ExpiresAt, Unresolved;
  }

  /** The commitment read joins the queue; all in it expires by `n`. */
  lemma ExpiresAfterRead(w: World, w': World, cfg: Config, keccak: Bytes -> Bytes, k: Key, n: nat)
    requires Linked(w.da.state) && Linked(w'.da.state) && Unknown(w', cfg, keccak, k)
    requires SameOutlook(w.da.state, w'.da.state) && k.inclusion + cfg.challengeWindow <= n
    requires MaxExpiry(w.da.state, Queue(w.da.state)) <= n
    requires w'.da.state.commitments == w.da.state.commitments + [Tracked(cfg, k)]
    requires w'.da.state.expiredCommitments == w.da.state.expiredCommitments
    ensures forall c :: c in Queue(w'.da.state) ==> ExpiresAt(w'.da.state, c) <= n
  {
    hide Truth, LegalChain, Linked, ChallengeKey, ExpiresAt, Has;
    UnknownExpiry(w'.da.state, cfg, k);
    forall c | c in Queue(w'.da.state) && c != Tracked(cfg, k) ensures c in Queue(w.da.state) {}
  }

  lemma CalmAfterRead(w: World, w': World, cfg: Config, keccak: Bytes -> Bytes, k: Key, quiet: nat)
    requires Linked(w.da.state) && Linked(w'.da.state)
    requires Unknown(w', cfg, keccak, k) && w'.chain == w.chain && Silent(w.chain, quiet)
    requires quiet == Given(w) && w.da.challengeOrigin <= w'.da.challengeOrigin
    requires || Queue(w.da.state) == []
             || (quiet <= w.da.challengeOrigin && NoneUnresolved(w.da.state))
    requires w.chain(w.da.challengeOrigin + 1) == [] ==> SameOutlook(w.da.state, w'.da.state)
    requires w'.da.state.commitments == w.da.state.commitments + [Tracked(cfg, k)]
    ensures Calm(w', cfg, keccak, k, quiet)
  {
    hide Truth, Unknown, Unresolved, Linked, ExpiresAt;
    var s := w.da.state;
    forall c | c in w'.da.state.commitments && c != Tracked(cfg, k) ensures c in s.commitments && c in Queue(s) {}
  }

  /** Reading a commitment is safe iff it is known, if nothing in the queue obstructs it. In general it is safe if it
      is known, by CarefulIsSafe, and otherwise only as long as it is not read again, by CarelessRead. */
  lemma ReadSafeExactly(w: World, cfg: Config, keccak: Bytes -> Bytes, comm: Comm, inclusion: nat,
                        storage: StorageReply, fetched: bool)
    requires Linked(w.da.state) && WorldInv(w, cfg, keccak)
    requires Possible(w, cfg, keccak, Read(comm, inclusion, storage, fetched))
    requires Unobstructed(w, cfg, keccak, Key(comm, inclusion))
    ensures StaysSafe(w, cfg, keccak, Read(comm, inclusion, storage, fetched)) <==>
      Known(w, cfg, keccak, Key(comm, inclusion))
  {
    hide Linked, WorldInv, Known, StaysSafe, Unobstructed;
    if Known(w, cfg, keccak, Key(comm, inclusion)) {
      CarefulIsSafe(w, cfg, keccak, Read(comm, inclusion, storage, fetched));
    } else {
      UnknownReadUnsafe(w, cfg, keccak, Key(comm, inclusion), storage, fetched);
    }
  }

  // ----- Reads with other commitments in the queue -----

  /** A possible continuation after `first` that goes wrong. */
  ghost predicate GoesWrong(w: World, cfg: Config, keccak: Bytes -> Bytes, first: Op, ops: seq<Op>, end: World)
    requires Linked(w.da.state)
  {
    Goes(w, cfg, keccak, false, [first] + ops, end) && exists c :: Wrong(end, cfg, keccak, c)
  }

  /** The first read. If it did not find the data, the pipeline asks for the same commitment again, and finds it. */
  lemma ReadUntilFound(w: World, cfg: Config, keccak: Bytes -> Bytes, k: Key, storage: StorageReply, fetched: bool)
    returns (ops: seq<Op>, w': World)
    requires Linked(w.da.state) && Unknown(w, cfg, keccak, k) && k.inclusion == Position(w)
    ensures Linked(w'.da.state) && Unknown(w', cfg, keccak, k) && Tracked(cfg, k) in Queue(w'.da.state)
    ensures w'.chain == w.chain && w'.da.l1Finalized == w.da.l1Finalized
    ensures w.da.challengeOrigin <= w'.da.challengeOrigin <= w.da.challengeOrigin + 1
    ensures Goes(w, cfg, keccak, false, [Read(k.comm, k.inclusion, storage, fetched)] + ops, w')
  {
    hide Linked, Step, Goes, Unknown, SameOutlook;
    var first, again := Read(k.comm, k.inclusion, storage, fetched), Read(k.comm, k.inclusion, Found([]), false);
    UnknownMeans(w, cfg, keccak, k);
    GoesOne(w, cfg, keccak, false, first);
    ReadUnknown(w, cfg, keccak, k, storage, fetched);
    var w1 := Step(w, cfg, keccak, first);
    ops, w' := [], w1;
    if !storage.Found? {
      UnknownMeans(w1, cfg, keccak, k);
      GoesOne(w1, cfg, keccak, false, again);
      ReadUnknown(w1, cfg, keccak, k, Found([]), false);
      w' := Step(w1, cfg, keccak, again);
      GoesThen(w, cfg, keccak, false, [first], w1, [again], w');
      ops := [again];
    } else {
      assert [first] + [] == [first];
    }
    TrackedQueued(w'.da.state, Tracked(cfg, k));
  }

  /** Whatever else is in the queue, reading an unknown commitment can go wrong. Where another commitment makes the
      manager drop it, the continuation goes back to its block with the reset that follows, and reads it once more;
      that no such second read is needed otherwise is UnknownReadUnsafe. */
  lemma CarelessRead(w: World, cfg: Config, keccak: Bytes -> Bytes, k: Key, storage: StorageReply, fetched: bool)
    returns (chain: Chain, ops: seq<Op>, end: World)
    requires Linked(w.da.state) && WorldInv(w, cfg, keccak)
    requires Possible(w, cfg, keccak, Read(k.comm, k.inclusion, storage, fetched)) && !Known(w, cfg, keccak, k)
    ensures LegalChain(chain, cfg, keccak) && Agree(chain, w.chain, Given(w))
    ensures GoesWrong(On(w, chain), cfg, keccak, Read(k.comm, k.inclusion, storage, fetched), ops, end)
  {
    hide Linked, Truth, LegalChain, WorldInv, Known, Has, Goes, Doomed, Late, Unknown, Wrong, AnsweredBy, Queue,
      DecoyAt;
    var op, n := Read(k.comm, k.inclusion, storage, fetched), Given(w);
    UnknownWhen(w, cfg, keccak, k);
    ChainOf(w, cfg, keccak);
    var late := AnsweredBy(w.chain, keccak, k, n);
    if late {
      LateWhen(w, cfg, keccak, k, DecidedBy(w.da, cfg, k));
      chain := DecoyChain(w, cfg, keccak, k);
    } else {
      chain := Quiet(w.chain, n);
      QuietLegal(w.chain, cfg, keccak, n);
    }
    var w0 := On(w, chain);
    OnUnknown(w, cfg, keccak, chain, k);
    var retry, w1 := ReadUntilFound(w0, cfg, keccak, k, storage, fetched);
    var rest;
    if late {
      var m := DecidedBy(w.da, cfg, k);
      OnLate(w, cfg, keccak, chain, k, m);
      StillLate(w0, w1, cfg, keccak, k, m);
      rest, end := LateAfterReset(w1, cfg, keccak, k, m, w.da.challengeOrigin + 2);
    } else {
      UnansweredMeans(w, cfg, keccak, k);
      SilencedDoomed(w, cfg, keccak, k, n);
      StillDoomed(w0, w1, cfg, keccak, k, n);
      rest, end := DoomedIsFinalized(w1, cfg, keccak, k, n);
    }
    GoesThen(w0, cfg, keccak, false, [op] + retry, w1, rest, end);
    ops := retry + rest;
    assert [op] + retry + rest == [op] + ops;
  }

  /** A chain on which a commitment two blocks on is challenged in its own block. */
  lemma DecoyChain(w: World, cfg: Config, keccak: Bytes -> Bytes, k: Key) returns (chain: Chain)
    requires Unknown(w, cfg, keccak, k) && Given(w) == w.da.challengeOrigin
    ensures LegalChain(chain, cfg, keccak) && Agree(chain, w.chain, Given(w))
    ensures DecoyAt(chain, k.comm, w.da.challengeOrigin + 2)
  {
    hide Truth, LegalChain, Linked, Has;
    var o := w.da.challengeOrigin;
    var decoy := Key(k.comm, o + 2);
    TruthDated(w.chain, cfg, keccak, decoy, o + 1);
    ThenChallengedLegal(w.chain, cfg, keccak, o + 1, decoy);
    chain := ThenChallenged(w.chain, o + 1, decoy);
  }

  // ----- Finality signals -----

  /** After a signal that prunes the expired challenge of a tracked commitment, that challenge is unknown. */
  lemma PrunedUnknown(w: World, cfg: Config, keccak: Bytes -> Bytes, f: nat, n: nat) returns (c: Commitment)
    requires Linked(w.da.state) && WorldInv(w, cfg, keccak) && !w.da.resetting && f >= w.da.l1Finalized
    requires PrunesTracked(w.da.state, f) && n >= w.da.challengeOrigin
    ensures c in w.da.state.commitments && c == Tracked(cfg, KeyFor(c))
    ensures Doomed(Step(On(w, Quiet(w.chain, n)), cfg, keccak, FinalizeL1(f)), cfg, keccak, KeyFor(c), n)
  {
    hide Linked, LegalChain, AllSettled, EarlierAnswered, UsedOk, Tracks, Guarded, Untriggered, TriggeredOk, Behind,
      Trails, Truth, Has, Finalize, Finalizes;
    var o := w.da.challengeOrigin;
    c := PrunedIsUnknown(View(w, keccak), cfg, keccak, f);
    QuietLegal(w.chain, cfg, keccak, n);
    TruthGrows(w.chain, cfg, keccak, KeyFor(c), o, n);
    SameTruth(Quiet(w.chain, n), w.chain, keccak, o);
    SameTruth(Quiet(w.chain, n), w.chain, keccak, n);
    FinalizeFrame(w.da, f);
  }

  /** Whatever else is tracked, such a signal can go wrong; here too the commitment may have to be read again. */
  lemma CarelessFinality(w: World, cfg: Config, keccak: Bytes -> Bytes, f: nat)
    returns (chain: Chain, ops: seq<Op>, end: World)
    requires Linked(w.da.state) && WorldInv(w, cfg, keccak) && !w.da.resetting && f >= w.da.l1Finalized
    requires PrunesTracked(w.da.state, f)
    ensures LegalChain(chain, cfg, keccak) && Agree(chain, w.chain, Max(w.da.challengeOrigin, f))
    ensures GoesWrong(On(w, chain), cfg, keccak, FinalizeL1(f), ops, end)
  {
    hide Linked, Doomed, Has, Goes, LegalChain, Truth, Wrong, WorldInv, PrunesTracked, Finalize, Finalizes, Queue;
    var n := Max(w.da.challengeOrigin, f);
    chain := Quiet(w.chain, n);
    ChainOf(w, cfg, keccak);
    QuietLegal(w.chain, cfg, keccak, n);
    var op, w0 := FinalizeL1(f), On(w, chain);
    var c := PrunedUnknown(w, cfg, keccak, f, n);
    GoesOne(w0, cfg, keccak, false, op);
    var w1 := Step(w0, cfg, keccak, op);
    FinalizeFrame(w.da, f);
    TrackedQueued(w1.da.state, c);
    ops, end := DoomedIsFinalized(w1, cfg, keccak, KeyFor(c), n);
    GoesThen(w0, cfg, keccak, false, [op], w1, ops, end);
  }

  /** A finality signal is safe iff it prunes no expired challenge of a tracked commitment, if no tracked commitment
      then has an unresolved challenge left to force a reorg, and no finalized block is unread. */
  lemma SignalSafeExactly(w: World, cfg: Config, keccak: Bytes -> Bytes, f: nat)
    requires Linked(w.da.state) && WorldInv(w, cfg, keccak) && !w.da.resetting
    requires w.da.l1Finalized <= f && w.da.l1Finalized <= w.da.challengeOrigin
    requires NoneUnresolved(Finalize(w.da, f).state)
    ensures StaysSafe(w, cfg, keccak, FinalizeL1(f)) <==> !PrunesTracked(w.da.state, f)
  {
    hide Linked, WorldInv, StaysSafe, PrunesTracked, Unknown, LegalChain, Truth, Goes, Wrong, Unresolved, Finalize,
      Finalizes, Queue;
    if !PrunesTracked(w.da.state, f) {
      CarefulIsSafe(w, cfg, keccak, FinalizeL1(f));
    } else {
      var n := w.da.challengeOrigin;
      var chain := Quiet(w.chain, n);
      ChainOf(w, cfg, keccak);
      QuietLegal(w.chain, cfg, keccak, n);
      var c := PrunedUnknown(w, cfg, keccak, f, n);
      var w1 := Step(On(w, chain), cfg, keccak, FinalizeL1(f));
      FinalizeFrame(w.da, f);
      TrackedQueued(w1.da.state, c);
      assert Calm(w1, cfg, keccak, KeyFor(c), n);
      var ops, end := CalmIsFinalized(w1, cfg, keccak, KeyFor(c), n);
      NotSafe(w, cfg, keccak, FinalizeL1(f), chain, ops, end, c);
    }
  }

  lemma TrackedQueued(s: State, c: Commitment)
    requires c in s.commitments
    ensures c in Queue(s)
  {
  }
}
