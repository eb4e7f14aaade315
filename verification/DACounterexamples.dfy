/** Concrete runs of the Alt-DA manager that finalize what they should not. */
module DACounterexamples {
  import opened Prelude
  import opened Commitments
  import opened DAState
  import opened DAManager
  import opened DAInv
  import opened DATracker
  import opened DAChain
  import opened DARuns
  import opened DANecessity
  import opened DAHead

  /** A challenge window of one block, and resolve windows of one and two blocks. */
  const CFG := Config(true, 1, 1)
  const LONGER := Config(true, 1, 2)

  // ----- Chains -----

  /** The commitment of block 1 is challenged in block `at` and never answered. */
  function Challenging(comm: Comm, at: nat): Chain {
    (n: nat) => if n == at then [Challenged(comm, 1)] else []
  }

  lemma {:induction false} TruthOf(comm: Comm, keccak: Bytes -> Bytes, at: nat, n: nat)
    requires at >= 1
    ensures Truth(Challenging(comm, at), keccak, n) == if n < at then map[] else map[Key(comm, 1) := Fact(at, false)]
  {
    if n > 0 { TruthOf(comm, keccak, at, n - 1); }
    if n == at {
      RecordOne(map[], keccak, n, Key(comm, 1));
    } else {
      RecordNothing(Before(Challenging(comm, at), keccak, n), keccak, n);
    }
  }

  lemma ChallengingLegal(comm: Comm, keccak: Bytes -> Bytes, at: nat)
    requires comm.Keccak? && WellFormed(comm) && 1 <= at <= 2
    ensures LegalChain(Challenging(comm, at), CFG, keccak)
    ensures EverExpired(Truth(Challenging(comm, at), keccak, at + 1), CFG, Key(comm, 1), at + 1)
  {
    hide RecordAll;
    var chain := Challenging(comm, at);
    var es := [Challenged(comm, 1)];
    TruthOf(comm, keccak, at, at + 1);
    forall n: nat ensures LegalEvents(Before(chain, keccak, n), CFG, keccak, n, chain(n)) {
      if n > 0 { TruthOf(comm, keccak, at, n - 1); }
      assert es[..|es| - 1] == [];
      RecordNothing(map[], keccak, n);
    }
  }

  // ----- How the runs end -----

  /** The manager has no record of any challenge. */
  ghost predicate NoRecord(d: Da, cs: seq<Commitment>) {
    && Linked(d.state) && d.state.index == map[] && !d.resetting && d.commitmentOrigin <= d.challengeOrigin
    && d.state.commitments == cs && d.state.expiredCommitments == []
  }

  /** A commitment of block 1 is then read as if nobody had ever challenged it. */
  lemma FoundRead(d: Da, cfg: Config, keccak: Bytes -> Bytes, cs: seq<Commitment>, comm: Comm)
    requires NoRecord(d, cs) && comm.Keccak? && cfg.usesKeccak && cfg.challengeWindow == 1
    ensures var d' := GetInput(d, cfg, keccak, comm, 1, Found([]), None).0;
      NoRecord(d', cs + [Com(comm)]) && SameOrigins(d, d') && d'.challengeOrigin == d.challengeOrigin
  {
    hide ChallengeKey;
  }

  ghost predicate SameOrigins(d: Da, d': Da) {
    d'.commitmentOrigin == d.commitmentOrigin && d'.l1Finalized == d.l1Finalized && !d'.resetting
  }

  /** If its data is missing, the next block is looked at; an answer in it changes nothing. */
  lemma PendingRead(d: Da, cfg: Config, keccak: Bytes -> Bytes, cs: seq<Commitment>, comm: Comm, es: seq<Event>)
    requires NoRecord(d, cs) && comm.Keccak? && cfg.usesKeccak && cfg.challengeWindow == 1 && d.challengeOrigin <= 2
    requires es == [] || (|es| == 1 && es[0].Answered?)
    ensures var d' := GetInput(d, cfg, keccak, comm, 1, NotFound, Some(es)).0;
      NoRecord(d', cs + [Com(comm)]) && SameOrigins(d, d') && d'.challengeOrigin == d.challengeOrigin + 1
  {
    hide ChallengeKey, EndedPrefix, ExpireRefs;
    var s := TrackCommitment(d.state, cfg, comm, 1);
    if es != [] { assert es[..|es| - 1] == []; }
    assert ApplyEvents(s, cfg, keccak, d.challengeOrigin + 1, es) == s;
  }

  /** Then commitments whose challenge window is over expire without a reorg and are finalized. */
  lemma Ending(w: World, cfg: Config, keccak: Bytes -> Bytes, cs: seq<Commitment>, block: nat, f: nat)
    requires NoRecord(w.da, cs) && |cs| > 0 && forall c :: c in cs ==> c.windowEnd <= f && c.windowEnd <= block
    requires w.da.commitmentOrigin < block <= w.da.challengeOrigin + 1 && w.da.l1Finalized <= f
    requires block <= w.da.challengeOrigin || w.chain(block) == []
    ensures var w1 := Step(w, cfg, keccak, AdvanceL1(block, true, true));
      var w2 := Step(w1, cfg, keccak, FinalizeL1(f));
      && !w1.da.resetting && w1.da.l1Finalized == w.da.l1Finalized && w1.chain == w.chain
      && w2.finalized == w.finalized + cs && w2.da.finalizedHead == cs[|cs| - 1].inclusion
      && w2.chain == w.chain && !w2.da.resetting && w2.da.l1Finalized == f
  {
    hide ChallengeKey, Linked, AdvanceChallengeOrigin, AdvanceCommitmentOrigin, Finalize, Finalizes, TriggeredBy,
      ExpiresAt, Unresolved, NoCommitments;
    var es := Some(w.chain(block));
    var d1 := AdvanceChallengeOrigin(w.da, cfg, keccak, block, es).0;
    IndexStays(w.da, cfg, keccak, block, es);
    ChallengeFrame(w.da, cfg, keccak, block, es);
    forall c ensures ExpiresAt(d1.state, c) == c.windowEnd && !Unresolved(d1.state, c) { NoRecordExpiry(d1.state, c); }
    CommitmentsNext(d1, block);
    CommitmentFrame(d1, block);
    var d2 := AdvanceCommitmentOrigin(d1, block).0;
    forall c ensures ExpiresAt(d2.state, c) == c.windowEnd { NoRecordExpiry(d2.state, c); }
    forall c | c in d2.state.commitments ensures c in cs {}
    assert d2.state.expiredCommitments == Queue(d2.state) == cs;
    FinalizesAll(d2.state, f);
    var w1 := Step(w, cfg, keccak, AdvanceL1(block, true, true));
    assert w1.da.state == d2.state;
    FinalizedHead(w1.da, f);
    FinalizeFrame(w1.da, f);
  }

  lemma IndexStays(d: Da, cfg: Config, keccak: Bytes -> Bytes, block: nat, es: Option<seq<Event>>)
    requires Linked(d.state) && (block <= d.challengeOrigin || es == Some([]))
    ensures var (d1, ok) := AdvanceChallengeOrigin(d, cfg, keccak, block, es);
      ok && d1.challengeOrigin == Max(block, d.challengeOrigin) && d1.state.index == d.state.index
  {
    hide ChallengeKey, Linked, EndedPrefix, ExpireRefs;
  }

  lemma NoRecordExpiry(s: State, c: Commitment)
    requires Linked(s) && s.index == map[]
    ensures ExpiresAt(s, c) == c.windowEnd && !Unresolved(s, c)
  {
    hide ChallengeKey;
  }

  lemma GoesCons(w: World, cfg: Config, keccak: Bytes -> Bytes, careful: bool, op: Op, rest: seq<Op>, end: World)
    requires Linked(w.da.state) && Possible(w, cfg, keccak, op) && (careful ==> Careful(w, cfg, keccak, op))
    requires Goes(Step(w, cfg, keccak, op), cfg, keccak, careful, rest, end)
    ensures Goes(w, cfg, keccak, careful, [op] + rest, end)
  {
    hide Step, Possible, Careful, Linked;
    assert ([op] + rest)[1..] == rest;
  }

  /** Two last steps. */
  lemma GoesTwo(w: World, cfg: Config, keccak: Bytes -> Bytes, a: Op, b: Op)
    requires Linked(w.da.state) && Possible(w, cfg, keccak, a) && Possible(Step(w, cfg, keccak, a), cfg, keccak, b)
    ensures Goes(w, cfg, keccak, false, [a, b], Step(Step(w, cfg, keccak, a), cfg, keccak, b))
  {
    hide Step, Possible, Linked;
    var w1 := Step(w, cfg, keccak, a);
    GoesOne(w1, cfg, keccak, false, b);
    GoesCons(w, cfg, keccak, false, a, [b], Step(w1, cfg, keccak, b));
    assert [a] + [b] == [a, b];
  }

  // ----- A challenge pruned while its commitment is tracked -----

  /** Commitment included in block 1 and looked ahead for: challenged in block 2, expired in block 3. A finality signal
      for block 3, then the data is found after all, derivation of block 2, and a finality signal again. */
  function PruningRun(comm: Comm): seq<Op> {
    [AdvanceL1(1, true, true)] + ([Read(comm, 1, NotFound, true)] + ([Read(comm, 1, NotFound, true)] + ([FinalizeL1(3)]
      + ([Read(comm, 1, Found([]), false)] + [AdvanceL1(2, true, true), FinalizeL1(3)]))))
  }

  function Com(comm: Comm): Commitment {
    Commitment(comm, 1, 2)
  }

  /** Block 1 is derived; the commitment was read once, and its challenge is active. */
  function AfterFirstRead(comm: Comm): Da {
    Da(State([Com(comm)], [], [0], [], map[ChallengeKey(comm, 1) := 0], [Challenge(comm, 1, 3, [], Active)], 0),
       2, 1, 0, 0, false)
  }

  /** It was read twice, and its challenge has expired in block 3. */
  function AfterSecondRead(comm: Comm): Da {
    Da(State([Com(comm), Com(comm)], [], [], [0], map[ChallengeKey(comm, 1) := 0],
             [Challenge(comm, 1, 3, [], Expired)], 0), 3, 1, 0, 0, false)
  }

  lemma EmptyBlock(cfg: Config)
    ensures ExpireChallenges(NewState(), 1) == NewState() && ExpireCommitments(NewState(), 1) == (NewState(), false)
  {
    hide ChallengeKey;
    var s := NewState();
    assert ExpireRefs([], []) == [];
    assert s.commitments[..0] == [] && [] + s.commitments[..0] == [] && !AnyUnresolved(s, s.commitments[..0]);
  }

  lemma FirstBlock(keccak: Bytes -> Bytes)
    ensures AdvanceL1Origin(NewDA(), CFG, keccak, 1, Some([]), true) == (Da(NewState(), 1, 1, 0, 0, false), Done)
  {
    hide ChallengeKey, ExpireChallenges, ExpireCommitments, Linked;
    EmptyBlock(CFG);
  }

  lemma ChallengeActive(comm: Comm, keccak: Bytes -> Bytes)
    ensures var s := NewState().(commitments := [Com(comm)]);
      ExpireChallenges(ApplyEvents(s, CFG, keccak, 2, [Challenged(comm, 1)]), 2) == AfterFirstRead(comm).state
  {
    hide ChallengeKey;
    var s, es := NewState().(commitments := [Com(comm)]), [Challenged(comm, 1)];
    assert es[..|es| - 1] == [] && ApplyEvents(s, CFG, keccak, 2, []) == s;
    var s1 := ApplyEvents(s, CFG, keccak, 2, es);
    assert s1 == CreateChallenge(s, CFG, comm, 2, 1) && s1.challenges == [0] && EndedPrefix(s1.heap, [0], 2) == 0;
    assert [0][..0] == [] && ExpireRefs(s1.heap, []) == s1.heap;
  }

  lemma FirstRead(comm: Comm, keccak: Bytes -> Bytes)
    requires comm.Keccak?
    ensures GetInput(Da(NewState(), 1, 1, 0, 0, false), CFG, keccak, comm, 1, NotFound, Some([Challenged(comm, 1)]))
      == (AfterFirstRead(comm), PendingChallenge)
  {
    hide ChallengeKey, ApplyEvents, ExpireChallenges;
    ChallengeActive(comm, keccak);
    assert TrackCommitment(NewState(), CFG, comm, 1) == NewState().(commitments := [Com(comm)]);
  }

  lemma ChallengeExpires(comm: Comm, keccak: Bytes -> Bytes)
    ensures var s := AfterFirstRead(comm).state.(commitments := [Com(comm), Com(comm)]);
      ApplyEvents(s, CFG, keccak, 3, []) == s && ExpireChallenges(s, 3) == AfterSecondRead(comm).state
  {
    hide ChallengeKey;
    var s := AfterFirstRead(comm).state;
    assert [0][1..] == [] && EndedPrefix(s.heap, [], 3) == 0 && EndedPrefix(s.heap, [0], 3) == 1;
    assert [0][..1] == [0] && [] + [0] == [0];
    assert ExpireRefs(s.heap, [0]) == [Challenge(comm, 1, 3, [], Expired)];
  }

  lemma SecondRead(comm: Comm, keccak: Bytes -> Bytes)
    requires comm.Keccak?
    ensures GetInput(AfterFirstRead(comm), CFG, keccak, comm, 1, NotFound, Some([])) ==
      (AfterSecondRead(comm), PendingChallenge)
  {
    hide ChallengeKey, ApplyEvents, ExpireChallenges;
    ChallengeExpires(comm, keccak);
    var s := AfterFirstRead(comm).state;
    assert TrackCommitment(s, CFG, comm, 1) == s.(commitments := [Com(comm), Com(comm)]);
  }

  /** The finality signal prunes the expired challenge although its commitment is still tracked. */
  lemma PruningSignal(comm: Comm)
    ensures PrunesTracked(AfterSecondRead(comm).state, 3)
    ensures Finalizes(AfterSecondRead(comm).state, 3) == []
    ensures Finalize(AfterSecondRead(comm), 3) ==
      AfterSecondRead(comm).(l1Finalized := 3,
                             state := AfterSecondRead(comm).state.(expiredChallenges := [], index := map[]))
  {
    hide ChallengeKey;
    var s := AfterSecondRead(comm).state;
    assert s.commitments[0] in s.commitments;
    assert [0][1..] == [] && EndedPrefix(s.heap, [], 3) == 0 && [0][..1] == [0] && EndedPrefix(s.heap, [0], 3) == 1;
    assert KeysOf(s.heap, [0]) == {ChallengeKey(comm, 1)} by { assert KeyOf(s.heap[[0][0]]) == ChallengeKey(comm, 1); }
    assert s.index - {ChallengeKey(comm, 1)} == map[];
    assert PruneCommitments(s, 3) == s;
  }

  /** The finality signal for block 3 makes the manager forget the challenge; the next one finalizes the expired
      commitment. */
  lemma ExpiredCommitmentFinalized(comm: Comm, keccak: Bytes -> Bytes) returns (end: World)
    requires comm.Keccak? && WellFormed(comm)
    ensures LegalChain(Challenging(comm, 2), CFG, keccak)
    ensures Goes(StartWorld(Challenging(comm, 2)), CFG, keccak, false, PruningRun(comm), end)
    ensures Com(comm) in end.finalized && end.da.finalizedHead == 1
    ensures EverExpired(Truth(end.chain, keccak, 3), CFG, KeyFor(Com(comm)), 3)
  {
    hide ChallengeKey, GetInput, AdvanceL1Origin, Finalize, Finalizes, Truth, LegalChain, Linked, TriggeredBy,
      EverExpired, Goes, TrackedBy;
    var chain := Challenging(comm, 2);
    ChallengingLegal(comm, keccak, 2);
    var w0 := StartWorld(chain);
    FirstBlock(keccak);
    var advance, read := AdvanceL1(1, true, true), Read(comm, 1, NotFound, true);
    var w1 := Step(w0, CFG, keccak, advance);
    FirstRead(comm, keccak);
    var w2 := Step(w1, CFG, keccak, read);
    SecondRead(comm, keccak);
    var w3 := Step(w2, CFG, keccak, read);
    PruningSignal(comm);
    var w4 := Step(w3, CFG, keccak, FinalizeL1(3));
    var found := Read(comm, 1, Found([]), false);
    FoundRead(w4.da, CFG, keccak, [Com(comm), Com(comm)], comm);
    assert [Com(comm), Com(comm)] + [Com(comm)] == [Com(comm), Com(comm), Com(comm)];
    var w5 := Step(w4, CFG, keccak, found);
    Ending(w5, CFG, keccak, [Com(comm), Com(comm), Com(comm)], 2, 3);
    GoesTwo(w5, CFG, keccak, AdvanceL1(2, true, true), FinalizeL1(3));
    end := Step(Step(w5, CFG, keccak, AdvanceL1(2, true, true)), CFG, keccak, FinalizeL1(3));
    var last := [AdvanceL1(2, true, true), FinalizeL1(3)];
    GoesCons(w4, CFG, keccak, false, found, last, end);
    GoesCons(w3, CFG, keccak, false, FinalizeL1(3), [found] + last, end);
    GoesCons(w2, CFG, keccak, false, read, [FinalizeL1(3)] + ([found] + last), end);
    GoesCons(w1, CFG, keccak, false, read, [read] + ([FinalizeL1(3)] + ([found] + last)), end);
    GoesCons(w0, CFG, keccak, false, advance, [read] + ([read] + ([FinalizeL1(3)] + ([found] + last))), end);
  }

  // ----- A challenge in the very block at which the manager starts over -----

  /** The challenge is read with block 1; a full reset to block 1 forgets it, and block 1 is not read again, so its
      commitment is used, expires as if unchallenged and is finalized. */
  function ResetRun(comm: Comm): seq<Op> {
    [AdvanceL1(1, true, true)] + ([Rebase(1, Challenging(comm, 1))] + ([Read(comm, 1, Found([]), false)]
      + [AdvanceL1(2, true, true), FinalizeL1(2)]))
  }

  /** A first block leaves nothing tracked, so it cannot ask for a reorg. */
  lemma FirstBlockDone(keccak: Bytes -> Bytes, es: seq<Event>)
    ensures var d := AdvanceL1Origin(NewDA(), CFG, keccak, 1, Some(es), true).0; !d.resetting && d.l1Finalized == 0
  {
    hide ChallengeKey, ApplyEvents, ExpireChallenges, NoCommitments;
    var d1 := AdvanceChallengeOrigin(NewDA(), CFG, keccak, 1, Some(es)).0;
    ChallengeFrame(NewDA(), CFG, keccak, 1, Some(es));
    assert d1.state.commitments == [];
  }

  /** A full reset leaves no record of any challenge. */
  lemma ResetForgets(d: Da, base: nat)
    requires Linked(d.state) && !d.resetting
    ensures var d' := Reset(d, base);
      NoRecord(d', []) && d'.challengeOrigin == d'.commitmentOrigin == base && d'.l1Finalized == d.l1Finalized
  {
  }

  lemma ResetForgetsChallenge(comm: Comm, keccak: Bytes -> Bytes) returns (end: World)
    requires comm.Keccak? && WellFormed(comm)
    ensures LegalChain(Challenging(comm, 1), CFG, keccak)
    ensures Goes(StartWorld(Challenging(comm, 1)), CFG, keccak, false, ResetRun(comm), end)
    ensures Com(comm) in end.finalized && end.da.finalizedHead == 1
    ensures EverExpired(Truth(end.chain, keccak, 2), CFG, KeyFor(Com(comm)), 2)
  {
    hide ChallengeKey, GetInput, AdvanceL1Origin, Finalize, Finalizes, Truth, LegalChain, Linked, Demands,
      EverExpired, Goes, TrackedBy, Reset, NoRecord;
    var chain := Challenging(comm, 1);
    ChallengingLegal(comm, keccak, 1);
    var w0, advance, reset := StartWorld(chain), AdvanceL1(1, true, true), Rebase(1, chain);
    FirstBlockDone(keccak, chain(1));
    var w1 := Step(w0, CFG, keccak, advance);
    ResetForgets(w1.da, 1);
    var w2 := Step(w1, CFG, keccak, reset);
    var read := Read(comm, 1, Found([]), false);
    StillGoing(w2, []);
    FoundRead(w2.da, CFG, keccak, [], comm);
    assert [] + [Com(comm)] == [Com(comm)];
    var w3 := Step(w2, CFG, keccak, read);
    Ending(w3, CFG, keccak, [Com(comm)], 2, 2);
    GoesTwo(w3, CFG, keccak, AdvanceL1(2, true, true), FinalizeL1(2));
    end := Step(Step(w3, CFG, keccak, AdvanceL1(2, true, true)), CFG, keccak, FinalizeL1(2));
    var last := [AdvanceL1(2, true, true), FinalizeL1(2)];
    GoesCons(w2, CFG, keccak, false, read, last, end);
    GoesCons(w1, CFG, keccak, false, reset, [read] + last, end);
    GoesCons(w0, CFG, keccak, false, advance, [reset] + ([read] + last), end);
  }

  // ----- An answer that an L1 reorg takes away -----

  /** Challenged in block 1, and answered in block 3, the last of its resolve window. */
  function Answering(comm: Comm, input: Bytes): Chain {
    (n: nat) => if n == 1 then [Challenged(comm, 1)] else if n == 3 then [Answered(comm, 1, input)] else []
  }

  lemma {:induction false} AnsweringTruth(comm: Comm, keccak: Bytes -> Bytes, input: Bytes, n: nat)
    requires comm.Keccak? && keccak(input) == comm.bytes
    ensures Truth(Answering(comm, input), keccak, n) ==
      if n < 1 then map[] else map[Key(comm, 1) := Fact(1, n >= 3)]
  {
    if n > 0 { AnsweringTruth(comm, keccak, input, n - 1); }
    var l, chain := Before(Answering(comm, input), keccak, n), Answering(comm, input);
    if n == 1 {
      RecordOne(map[], keccak, n, Key(comm, 1));
    } else if n == 3 {
      var es := [Answered(comm, 1, input)];
      assert es[..|es| - 1] == [] && RecordAll(l, keccak, n, []) == l;
      assert l[Key(comm, 1) := Fact(1, true)] == map[Key(comm, 1) := Fact(1, true)];
    } else {
      RecordNothing(l, keccak, n);
    }
  }

  lemma AnsweringLegal(comm: Comm, keccak: Bytes -> Bytes, input: Bytes)
    requires comm.Keccak? && WellFormed(comm) && keccak(input) == comm.bytes
    ensures LegalChain(Answering(comm, input), LONGER, keccak)
  {
    hide RecordAll;
    var chain := Answering(comm, input);
    var cs, rs := [Challenged(comm, 1)], [Answered(comm, 1, input)];
    forall n: nat ensures LegalEvents(Before(chain, keccak, n), LONGER, keccak, n, chain(n)) {
      if n > 0 { AnsweringTruth(comm, keccak, input, n - 1); }
      assert cs[..|cs| - 1] == [] && rs[..|rs| - 1] == [];
      RecordNothing(Before(chain, keccak, n), keccak, n);
    }
  }

  /** The manager starts over at block 1, so it does not know the challenge. While the data of another commitment of
      block 1 is missing it looks ahead to block 3, whose answer means nothing to it. The commitment is read, expires
      with its challenge window and is finalized with block 2; then L1 reorganises after block 2, and nobody answers. */
  function LateRun(comm: Comm, other: Comm, input: Bytes): seq<Op> {
    [Rebase(1, Answering(comm, input))] + (LateStart(comm, other) + LateEnd(comm, input))
  }

  function LateStart(comm: Comm, other: Comm): seq<Op> {
    [Read(other, 1, NotFound, true)] + ([Read(other, 1, NotFound, true)] + ([Read(other, 1, Found([]), false)]
      + [Read(comm, 1, Found([]), false)]))
  }

  function LateEnd(comm: Comm, input: Bytes): seq<Op> {
    [AdvanceL1(2, true, true)] + [FinalizeL1(2), Rebase(2, Quiet(Answering(comm, input), 2))]
  }

  /** From the reset on: the reads. */
  lemma LateReads(w: World, comm: Comm, other: Comm, keccak: Bytes -> Bytes, input: Bytes) returns (w': World)
    requires comm.Keccak? && WellFormed(comm) && other.Keccak? && WellFormed(other)
    requires w.chain == Answering(comm, input) && NoRecord(w.da, []) && Linked(w.da.state)
    requires w.da.challengeOrigin == w.da.commitmentOrigin == 1 && w.da.l1Finalized == 0
    ensures NoRecord(w'.da, [Com(other), Com(other), Com(other), Com(comm)]) && Linked(w'.da.state)
    ensures w'.chain == w.chain && w'.da.challengeOrigin == 3 && w'.da.commitmentOrigin == 1 && w'.da.l1Finalized == 0
    ensures Goes(w, LONGER, keccak, false, LateStart(comm, other), w')
  {
    hide GetInput, Goes, TrackedBy, NoRecord, Linked;
    var pending, found, read :=
      Read(other, 1, NotFound, true), Read(other, 1, Found([]), false), Read(comm, 1, Found([]), false);
    StillGoing(w, []);
    PendingRead(w.da, LONGER, keccak, [], other, []);
    assert [] + [Com(other)] == [Com(other)];
    var w1 := Step(w, LONGER, keccak, pending);
    PendingRead(w1.da, LONGER, keccak, [Com(other)], other, [Answered(comm, 1, input)]);
    assert [Com(other)] + [Com(other)] == [Com(other), Com(other)];
    var w2 := Step(w1, LONGER, keccak, pending);
    FoundRead(w2.da, LONGER, keccak, [Com(other), Com(other)], other);
    assert [Com(other), Com(other)] + [Com(other)] == [Com(other), Com(other), Com(other)];
    var w3 := Step(w2, LONGER, keccak, found);
    FoundRead(w3.da, LONGER, keccak, [Com(other), Com(other), Com(other)], comm);
    assert [Com(other), Com(other), Com(other)] + [Com(comm)] == [Com(other), Com(other), Com(other), Com(comm)];
    w' := Step(w3, LONGER, keccak, read);
    GoesOne(w3, LONGER, keccak, false, read);
    GoesCons(w2, LONGER, keccak, false, found, [read], w');
    GoesCons(w1, LONGER, keccak, false, pending, [found] + [read], w');
    GoesCons(w, LONGER, keccak, false, pending, [pending] + ([found] + [read]), w');
  }

  /** From the reads on: derivation of block 2, finality and the L1 reorg. */
  lemma LateEnds(w: World, cs: seq<Commitment>, comm: Comm, keccak: Bytes -> Bytes, input: Bytes) returns (end: World)
    requires comm.Keccak? && WellFormed(comm) && keccak(input) == comm.bytes
    requires w.chain == Answering(comm, input) && NoRecord(w.da, cs) && Linked(w.da.state)
    requires w.da.challengeOrigin == 3 && w.da.commitmentOrigin == 1 && w.da.l1Finalized == 0
    requires |cs| > 0 && forall c :: c in cs ==> c.windowEnd == 2
    ensures Goes(w, LONGER, keccak, false, LateEnd(comm, input), end)
    ensures end.finalized == w.finalized + cs && end.chain == Quiet(Answering(comm, input), 2)
    ensures EverExpired(Truth(end.chain, keccak, 3), LONGER, Key(comm, 1), 3)
  {
    hide AdvanceL1Origin, Finalize, Finalizes, Truth, LegalChain, Demands, Goes, Reset, NoRecord, Linked;
    var chain := Answering(comm, input);
    var silent := Quiet(chain, 2);
    AnsweringLegal(comm, keccak, input);
    QuietLegal(chain, LONGER, keccak, 2);
    StillGoing(w, cs);
    Ending(w, LONGER, keccak, cs, 2, 2);
    var advance, signal, reorg := AdvanceL1(2, true, true), FinalizeL1(2), Rebase(2, silent);
    var w1 := Step(w, LONGER, keccak, advance);
    GoesTwo(w1, LONGER, keccak, signal, reorg);
    end := Step(Step(w1, LONGER, keccak, signal), LONGER, keccak, reorg);
    GoesCons(w, LONGER, keccak, false, advance, [signal, reorg], end);
    AnsweringTruth(comm, keccak, input, 2);
    SameTruth(silent, chain, keccak, 2);
    QuietStays(silent, keccak, 2, 3);
  }

  lemma StillGoing(w: World, cs: seq<Commitment>)
    requires NoRecord(w.da, cs)
    ensures !w.da.resetting
  {
  }

  /** The answer is on the chain when the commitment is read, and yet the commitment is finalized and expires. */
  lemma LateAnswerLost(comm: Comm, other: Comm, keccak: Bytes -> Bytes, input: Bytes) returns (end: World)
    requires comm.Keccak? && WellFormed(comm) && keccak(input) == comm.bytes
    requires other.Keccak? && WellFormed(other) && other != comm
    ensures LegalChain(Answering(comm, input), LONGER, keccak)
    ensures AnsweredBy(Answering(comm, input), keccak, KeyFor(Com(comm)), 3)
    ensures Goes(StartWorld(Answering(comm, input)), LONGER, keccak, false, LateRun(comm, other, input), end)
    ensures Com(comm) in end.finalized && end.chain == Quiet(Answering(comm, input), 2)
    ensures EverExpired(Truth(end.chain, keccak, 3), LONGER, KeyFor(Com(comm)), 3)
  {
    hide GetInput, AdvanceL1Origin, Truth, LegalChain, Linked, Goes, TrackedBy, Reset, NoRecord, LateStart, LateEnd,
      EverExpired;
    var chain := Answering(comm, input);
    AnsweringLegal(comm, keccak, input);
    AnsweringTruth(comm, keccak, input, 3);
    var w0, reset := StartWorld(chain), Rebase(1, chain);
    ResetForgets(w0.da, 1);
    var w1 := Step(w0, LONGER, keccak, reset);
    var w2 := LateReads(w1, comm, other, keccak, input);
    end := LateEnds(w2, [Com(other), Com(other), Com(other), Com(comm)], comm, keccak, input);
    GoesThen(w1, LONGER, keccak, false, LateStart(comm, other), w2, LateEnd(comm, input), end);
    GoesCons(w0, LONGER, keccak, false, reset, LateStart(comm, other) + LateEnd(comm, input), end);
  }

  // ----- The head is ahead of a commitment of its own block -----

  /** Two commitments of block 1 are read, and the second is challenged in block 2. The first expires with block 2 and
      is finalized, so the head becomes block 1 while the second is still open. */
  function HeadRun(a: Comm, b: Comm): seq<Op> {
    [AdvanceL1(1, true, true)] + ([Read(a, 1, Found([]), false)] + ([Read(b, 1, Found([]), false)]
      + ([AdvanceL1(2, true, true)] + [FinalizeL1(2)])))
  }

  /** Both are tracked. */
  function BothRead(a: Comm, b: Comm): Da {
    Da(NewState().(commitments := [Com(a), Com(b)]), 1, 1, 0, 0, false)
  }

  /** The first has expired, the challenge against the second is active. */
  function FirstExpired(a: Comm, b: Comm): Da {
    Da(State([Com(b)], [Com(a)], [0], [], map[ChallengeKey(b, 1) := 0], [Challenge(b, 1, 3, [], Active)], 0),
       2, 2, 0, 0, false)
  }

  /** The first is finalized. */
  function FirstFinalized(b: Comm): Da {
    Da(State([Com(b)], [], [0], [], map[ChallengeKey(b, 1) := 0], [Challenge(b, 1, 3, [], Active)], 1),
       2, 2, 1, 2, false)
  }

  lemma ReadsBoth(a: Comm, b: Comm, keccak: Bytes -> Bytes)
    requires a.Keccak? && b.Keccak?
    ensures var d := Da(NewState(), 1, 1, 0, 0, false);
      var d1 := GetInput(d, CFG, keccak, a, 1, Found([]), None).0;
      && !d1.resetting && d1.state.commitments == [Com(a)] && d1.l1Finalized == 0
      && d1.challengeOrigin == d1.commitmentOrigin == 1
      && TrackedBy(d1.state, CFG, b, 1) == [Com(b)] && TrackedBy(d.state, CFG, a, 1) == [Com(a)]
      && GetInput(d1, CFG, keccak, b, 1, Found([]), None).0 == BothRead(a, b)
  {
    hide ChallengeKey;
  }

  lemma SecondChallenged(a: Comm, b: Comm, keccak: Bytes -> Bytes)
    requires a.Keccak? && b.Keccak? && WellFormed(a) && WellFormed(b) && a != b
    ensures AdvanceL1Origin(BothRead(a, b), CFG, keccak, 2, Some([Challenged(b, 1)]), true)
      == (FirstExpired(a, b), Done)
  {
    hide ChallengeKey, ApplyEvents, ExpireChallenges, ExpireCommitments, Linked;
    ChallengeOpened(a, b, keccak);
    FirstExpires(a, b);
  }

  /** The state of the challenges after block 2. */
  function Opened(a: Comm, b: Comm): State {
    FirstExpired(a, b).state.(commitments := [Com(a), Com(b)], expiredCommitments := [])
  }

  lemma ChallengeOpened(a: Comm, b: Comm, keccak: Bytes -> Bytes)
    ensures ExpireChallenges(ApplyEvents(BothRead(a, b).state, CFG, keccak, 2, [Challenged(b, 1)]), 2) == Opened(a, b)
  {
    hide ChallengeKey;
    var s, es := BothRead(a, b).state, [Challenged(b, 1)];
    assert es[..|es| - 1] == [] && ApplyEvents(s, CFG, keccak, 2, []) == s;
    var s1 := ApplyEvents(s, CFG, keccak, 2, es);
    assert s1 == CreateChallenge(s, CFG, b, 2, 1) && s1.challenges == [0] && EndedPrefix(s1.heap, [0], 2) == 0;
    assert [0][..0] == [] && ExpireRefs(s1.heap, []) == s1.heap;
  }

  lemma FirstExpires(a: Comm, b: Comm)
    requires a.Keccak? && b.Keccak? && WellFormed(a) && WellFormed(b) && a != b
    ensures ExpireCommitments(Opened(a, b), 2) == (FirstExpired(a, b).state, false)
  {
    hide ChallengeKey;
    KeccakKeyInjective(a, 1, b, 1);
    var s := Opened(a, b);
    var cs := s.commitments;
    assert ExpiresAt(s, cs[0]) == 2 && ExpiresAt(s, cs[1]) == 3 && cs[1..] == [Com(b)];
    assert ExpiredPrefix(s, [Com(b)], 2) == 0 && ExpiredPrefix(s, cs, 2) == 1;
    assert cs[..1] == [Com(a)] && [] + [Com(a)] == [Com(a)];
  }

  lemma FirstIsFinalized(a: Comm, b: Comm)
    requires a.Keccak? && b.Keccak? && WellFormed(a) && WellFormed(b) && a != b
    ensures Finalize(FirstExpired(a, b), 2) == FirstFinalized(b) && !PrunesTracked(FirstExpired(a, b).state, 2)
  {
    hide ChallengeKey;
    KeccakKeyInjective(a, 1, b, 1);
    var s := FirstExpired(a, b).state;
    var cs := s.expiredCommitments;
    assert ExpiresAt(s, cs[0]) == 2 && cs[1..] == [] && ExpiredPrefix(s, [], 2) == 0 && ExpiredPrefix(s, cs, 2) == 1;
    var s1 := PruneCommitments(s, 2);
    assert EndedPrefix(s1.heap, [], 2) == 0 && KeysOf(s1.heap, []) == {} && s1.index - {} == s1.index;
    assert s1.expiredChallenges[0..] == [];
  }

  /** The next block expires the challenge, and with it the second commitment asks for a reorg. */
  lemma SecondDemandsReorg(b: Comm, keccak: Bytes -> Bytes)
    ensures AdvanceL1Origin(FirstFinalized(b), CFG, keccak, 3, Some([]), true).1 == ReorgRequired
    ensures Key(b, 1) in
      TriggeredBy(AdvanceChallengeOrigin(FirstFinalized(b), CFG, keccak, 3, Some([])).0.state, 3)
  {
    hide ChallengeKey;
    var d := AdvanceChallengeOrigin(FirstFinalized(b), CFG, keccak, 3, Some([])).0;
    var s0 := FirstFinalized(b).state;
    assert [0][1..] == [] && EndedPrefix(s0.heap, [], 3) == 0 && EndedPrefix(s0.heap, [0], 3) == 1 && [0][..1] == [0];
    assert d.state.commitments == [Com(b)] && ExpiresAt(d.state, Com(b)) == 3 && Unresolved(d.state, Com(b));
    var cs := d.state.commitments;
    assert cs[1..] == [] && ExpiredPrefix(d.state, cs[1..], 3) == 0 && ExpiredPrefix(d.state, cs, 3) == 1;
    assert cs[..1][0] == Com(b) && KeyFor(cs[0]) == Key(b, 1);
  }

  /** Every step is legal, the head handed out is block 1, and yet a commitment of block 1 that L2 is derived from
      demands a reorg in block 3: the head is not justified. */
  lemma HeadAheadOfReorg(a: Comm, b: Comm, keccak: Bytes -> Bytes) returns (w: World)
    requires a.Keccak? && b.Keccak? && WellFormed(a) && WellFormed(b) && a != b
    ensures Linked(w.da.state) && LegalChain(Challenging(b, 2), CFG, keccak)
    ensures Goes(StartWorld(Challenging(b, 2)), CFG, keccak, true, HeadRun(a, b), w)
    ensures w.da.finalizedHead == 1 && Com(b) in w.used
    ensures Key(b, 1) in Demands(w, CFG, keccak, AdvanceL1(3, true, true))
    ensures !HeadJustified(w, CFG, keccak)
  {
    hide ChallengeKey, GetInput, AdvanceL1Origin, AdvanceChallengeOrigin, Finalize, Finalizes, Truth, LegalChain,
      Linked, TriggeredBy, EverExpired, Goes, TrackedBy, PrunesTracked;
    var chain := Challenging(b, 2);
    ChallengingLegal(b, keccak, 2);
    TruthOf(b, keccak, 2, 1);
    var w0, advance := StartWorld(chain), AdvanceL1(1, true, true);
    var readA, readB := Read(a, 1, Found([]), false), Read(b, 1, Found([]), false);
    FirstBlock(keccak);
    var w1 := Step(w0, CFG, keccak, advance);
    ReadsBoth(a, b, keccak);
    var w2 := Step(w1, CFG, keccak, readA);
    var w3 := Step(w2, CFG, keccak, readB);
    SecondChallenged(a, b, keccak);
    var w4 := Step(w3, CFG, keccak, AdvanceL1(2, true, true));
    FirstIsFinalized(a, b);
    GoesOne(w4, CFG, keccak, true, FinalizeL1(2));
    w := Step(w4, CFG, keccak, FinalizeL1(2));
    GoesCons(w3, CFG, keccak, true, AdvanceL1(2, true, true), [FinalizeL1(2)], w);
    GoesCons(w2, CFG, keccak, true, readB, [AdvanceL1(2, true, true)] + [FinalizeL1(2)], w);
    GoesCons(w1, CFG, keccak, true, readA, [readB] + ([AdvanceL1(2, true, true)] + [FinalizeL1(2)]), w);
    GoesCons(w0, CFG, keccak, true, advance, [readA] + ([readB] + ([AdvanceL1(2, true, true)] + [FinalizeL1(2)])), w);
    SecondDemandsReorg(b, keccak);
    assert KeyFor(Com(b)) == Key(b, 1) && Agree(chain, w.chain, 2);
  }

  /** An answer for a generic commitment is not checked, and its key can be that of a Keccak commitment
      whose hash starts with 01: then that challenge counts as resolved with arbitrary bytes. */
  lemma GenericAnswerForgesInput(s: State, cfg: Config, keccak: Bytes -> Bytes, block: nat, rest: Bytes, n: nat,
                                 input: Bytes)
    requires Linked(s) && |rest| == 31 && n >= 1 && GetChallenge(s, Keccak([1] + rest), n).Some?
    ensures var s' := ApplyEvent(s, cfg, keccak, block, Answered(Generic(rest), 100 * n, input));
      && GetChallengeStatus(s', Keccak([1] + rest), n) == Resolved
      && GetChallenge(s', Keccak([1] + rest), n).value.input == input
  {
    hide ChallengeKey;
    GenericTakesKeccakKey(rest, n);
  }
}
