/** Concrete runs of the channel manager that lose a block or panic. */
module ManagerCounterexamples {
  import opened Prelude
  import opened Manager
  import opened ManagerInv
  import opened ManagerBuild
  import opened ManagerInvalidate
  import opened SyncActions
  import R = ManagerRuns
  import C = Channels

  const CFG := C.Config(true, 1, 1, 0, 0, 100)
  const SWITCHED := CFG.(useBlobs := false)
  const BLOCK := C.Block(1, 9, 1, 1)
  const FRAME := C.Frame(C.FrameId(0, 0), [])
  const FRAME1 := C.Frame(C.FrameId(0, 1), [])
  const TX: C.TxId := [C.FrameId(0, 0)]
  const TX1: C.TxId := [C.FrameId(0, 1)]
  const NO_FORCE := PubInfo(false, false)
  const NO_FRAMES := C.FrameFeed(true, [], true)
  const ONE_FRAME := C.FrameFeed(true, [[]], true)
  const TWO_FRAMES := C.FrameFeed(true, [[], []], true)

  function Refusing(id: nat): Env {
    Env(id, true, _ => C.Refused(C.CompressorFull), NO_FRAMES, TWO_FRAMES)
  }

  function Accepting(id: nat): Env {
    Env(id, true, _ => C.Accepted(None), ONE_FRAME, NO_FRAMES)
  }

  // ----- An empty channel in front of one with a block -----

  /** The block is refused by channel 0, which is thereby full, closes with two empty frames and sends them in two
      transactions; then the block goes into channel 1. */
  function TwoChannelsOps(): seq<R.Op> {
    [R.Load(BLOCK), R.Publish(0, NO_FORCE, CFG, Refusing(0), Refusing(5)),
     R.Publish(0, NO_FORCE, CFG, Refusing(4), Refusing(5)), R.Publish(0, NO_FORCE, CFG, Accepting(1), Accepting(6))]
  }

  /** Channel 0 after its first frame was drawn, and after both were. */
  function HalfDrawn(): C.Channel {
    Undrawn().(frameCursor := 1, pending := map[TX := [FRAME]], history := C.History([[FRAME]], [], [], [[], []]))
  }

  function Channel0(): C.Channel {
    Undrawn().(frameCursor := 2, pending := map[TX := [FRAME], TX1 := [FRAME1]],
               history := C.History([[FRAME], [FRAME1]], [], [], [[], []]))
  }

  function Channel1(): C.Channel {
    C.Channel(1, CFG, 101, C.SeqWindowClose, None, false, [BLOCK], 1, 1, [], 0, map[], map[],
              MAX_UINT64, 0, C.History([], [C.Deadline(101, C.SeqWindowClose)], [], []))
  }

  function Loaded(): Mgr {
    Initial(CFG).(blocks := [BLOCK], tip := 1)
  }

  function HalfSent(): Mgr {
    WithChannel(HalfDrawn()).(txs := map[TX := 0])
  }

  function OneChannel(): Mgr {
    WithChannel(Channel0()).(txs := map[TX := 0, TX1 := 0])
  }

  function TwoChannels(): Mgr {
    OneChannel().(blockCursor := 1, current := Some(1), queue := [0, 1],
                  channels := map[0 := Channel0(), 1 := Channel1()])
  }

  /** Channel 0 before its frame is drawn. */
  function Undrawn(): C.Channel {
    C.Channel(0, CFG, 0, C.Terminated, Some(C.CompressorFull), true, [], 0, 0, [FRAME, FRAME1], 0, map[], map[],
              MAX_UINT64, 0, C.History([], [], [], [[], []]))
  }

  function WithChannel(c: C.Channel): Mgr {
    Loaded().(current := Some(0), queue := [0], channels := map[0 := c])
  }

  lemma NewIs(id: nat)
    ensures C.NewChannel(id, CFG, 0) ==
      C.Channel(id, CFG, 0, C.Terminated, None, false, [], 0, 0, [], 0, map[], map[], MAX_UINT64, 0,
                C.History([], [], [], []))
  {
  }

  lemma OpensFirst(env: Env)
    requires env.newId == 0 && env.factoryOk
    ensures EnsureChannelWithSpace(Loaded(), env) == (WithChannel(C.NewChannel(0, CFG, 0)), true)
  {
    hide C.NewChannel;
    var c := C.NewChannel(0, CFG, 0);
    assert Loaded().channels[0 := c] == map[0 := c] && Loaded().queue + [0] == [0];
  }

  /** The channel with its channel out closed and these frames, all of them empty. */
  function WithFrames(c: C.Channel, frames: seq<C.Frame>, output: seq<Bytes>): C.Channel {
    c.(closed := true, frames := frames, history := c.history.(output := output))
  }

  lemma OutputsOne(c: C.Channel)
    requires c.id == 0 && c.frames == [] && c.history.output == [] && c.IsFull() && !c.closed
    ensures C.OutputFrames(c, ONE_FRAME) == (WithFrames(c, [FRAME], ONE_FRAME.chunks), true)
  {
    var c1 := c.(closed := true);
    var chunks := ONE_FRAME.chunks;
    assert chunks[..|chunks| - 1] == [] && C.OutputAll(c1, []) == c1;
    assert [] + [FRAME] == [FRAME] && c.history.output + [chunks[0]] == chunks;
  }

  lemma OutputsTwo(c: C.Channel)
    requires c.id == 0 && c.frames == [] && c.history.output == [] && c.IsFull() && !c.closed
    ensures C.OutputFrames(c, TWO_FRAMES) == (WithFrames(c, [FRAME, FRAME1], TWO_FRAMES.chunks), true)
  {
    var c1 := c.(closed := true);
    var chunks := TWO_FRAMES.chunks;
    var front := chunks[..1];
    assert front[..|front| - 1] == [] && C.OutputAll(c1, []) == c1;
    assert [] + [FRAME] == [FRAME] && [FRAME] + [FRAME1] == [FRAME, FRAME1];
    assert c.history.output + [chunks[0]] == front && front + [chunks[1]] == chunks;
    assert chunks[..|chunks| - 1] == front && C.OutputAll(c1, front) == WithFrames(c1, [FRAME], front);
  }

  lemma SetOnly(c: C.Channel, c': C.Channel)
    requires c.id == c'.id == 0
    ensures SetChannel(WithChannel(c), c') == WithChannel(c')
  {
    assert map[0 := c][0 := c'] == map[0 := c'];
  }

  /** The only block is refused, so the channel is full and outputs its two frames. */
  lemma FillRefused()
    ensures FillCurrent(Loaded(), 0, NO_FORCE, Refusing(0)) == (WithChannel(Undrawn()), Got(0))
  {
    hide EnsureChannelWithSpace, C.NewChannel, C.OutputFrames, SetChannel;
    var env, c := Refusing(0), C.NewChannel(0, CFG, 0);
    NewIs(0);
    OpensFirst(env);
    var m1 := WithChannel(c);
    var full := c.(full := Some(C.CompressorFull));
    assert From(m1.blocks, 0) == [BLOCK];
    assert C.AddBlock(c, BLOCK, env.adds(BLOCK)) == (full, C.ChannelFull);
    AddBlocksStep(c, [BLOCK], env.adds);
    SetOnly(c, full);
    assert ProcessBlocks(m1, env.adds) == (WithChannel(full), true);
    SetOnly(full, full);
    assert RegisterL1Block(WithChannel(full), 0) == WithChannel(full);
    OutputsTwo(full);
    assert WithFrames(full, [FRAME, FRAME1], TWO_FRAMES.chunks) == Undrawn();
    SetOnly(full, Undrawn());
    assert OutputFrames(WithChannel(full), env.feed) == (WithChannel(Undrawn()), true);
  }

  lemma DrawsFirst()
    ensures NextTxData(WithChannel(Undrawn()), 0) == (HalfSent(), Tx([FRAME]))
  {
    hide SetChannel;
    var c := Undrawn();
    assert C.GroupAt(c.frames, 1, 0) == [FRAME] && C.IdOf([FRAME]) == TX;
    assert c.pending[TX := [FRAME]] == map[TX := [FRAME]] && c.history.draws + [[FRAME]] == [[FRAME]];
    assert C.NextTxData(c) == (HalfDrawn(), [FRAME]);
    assert WithChannel(HalfDrawn()).txs[TX := 0] == map[TX := 0];
    SetOnly(c, HalfDrawn());
  }

  lemma DrawsSecond()
    ensures NextTxData(HalfSent(), 0) == (OneChannel(), Tx([FRAME1]))
  {
    var c := HalfDrawn();
    assert C.GroupAt(c.frames, 1, 1) == [FRAME1] && C.IdOf([FRAME1]) == TX1;
    assert c.pending[TX1 := [FRAME1]] == Channel0().pending && c.history.draws + [[FRAME1]] == [[FRAME], [FRAME1]];
    assert C.NextTxData(c) == (Channel0(), [FRAME1]);
    assert HalfSent().txs[TX1 := 0] == OneChannel().txs;
    assert HalfSent().channels[0 := Channel0()] == OneChannel().channels;
  }

  lemma FirstPublish()
    ensures TxData(Loaded(), 0, NO_FORCE, CFG, Refusing(0), Refusing(5)) == (HalfSent(), Tx([FRAME]))
  {
    hide FillCurrent, NextTxData;
    FillRefused();
    DrawsFirst();
  }

  lemma SecondPublish()
    ensures TxData(HalfSent(), 0, NO_FORCE, CFG, Refusing(4), Refusing(5)) == (OneChannel(), Tx([FRAME1]))
  {
    hide FillCurrent, NextTxData;
    DrawsSecond();
    var m := HalfSent();
    assert HalfDrawn().HasTxData() && FirstWithTxData(m, m.queue) == Some(0);
  }

  lemma OpensSecond()
    ensures EnsureChannelWithSpace(OneChannel(), Accepting(1)) ==
      (OneChannel().(current := Some(1), queue := [0, 1],
                     channels := map[0 := Channel0(), 1 := C.NewChannel(1, CFG, 0)]), true)
  {
    hide C.NewChannel;
    var m := OneChannel();
    assert m.channels[1 := C.NewChannel(1, CFG, 0)] == map[0 := Channel0(), 1 := C.NewChannel(1, CFG, 0)];
    assert m.queue + [1] == [0, 1];
  }

  lemma AcceptsBlock(id: nat)
    ensures AddBlocks(C.NewChannel(id, CFG, 0), [BLOCK], Accepting(id).adds) == (Channel1().(id := id), 1, true)
  {
    NewIs(id);
    var c, adds := C.NewChannel(id, CFG, 0), Accepting(id).adds;
    assert [BLOCK][1..] == [] && c.blocks + [BLOCK] == [BLOCK];
    assert c.history.deadlines + [C.Deadline(101, C.SeqWindowClose)] == [C.Deadline(101, C.SeqWindowClose)];
    AddBlocksStep(c, [BLOCK], adds);
    AddBlocksNone(Channel1().(id := id), adds);
  }

  lemma OutputsNothing(c: C.Channel)
    requires !c.IsFull()
    ensures C.OutputFrames(c, NO_FRAMES) == (c, true)
  {
  }

  /** The second channel takes the block and has nothing to send yet. */
  lemma FillAccepted()
    ensures FillCurrent(OneChannel(), 0, NO_FORCE, Accepting(1)) == (TwoChannels(), NoData)
  {
    hide EnsureChannelWithSpace, C.NewChannel, AddBlocks, C.OutputFrames;
    var env, c := Accepting(1), C.NewChannel(1, CFG, 0);
    NewIs(1);
    OpensSecond();
    AcceptsBlock(1);
    assert Channel1().(id := 1) == Channel1();
    var m1 := OneChannel().(current := Some(1), queue := [0, 1], channels := map[0 := Channel0(), 1 := c]);
    assert From(m1.blocks, 0) == [BLOCK];
    assert m1.channels[1 := Channel1()] == TwoChannels().channels;
    assert ProcessBlocks(m1, env.adds) == (TwoChannels(), true);
    assert TwoChannels().channels[1 := Channel1()] == TwoChannels().channels;
    assert RegisterL1Block(TwoChannels(), 0) == TwoChannels();
    OutputsNothing(Channel1());
    assert OutputFrames(TwoChannels(), env.feed) == (TwoChannels(), true);
  }

  lemma ThirdPublish()
    ensures TxData(OneChannel(), 0, NO_FORCE, CFG, Accepting(1), Accepting(6)) == (TwoChannels(), EndOfData)
  {
    hide FillCurrent;
    FillAccepted();
    var m := OneChannel();
    assert m.queue[1..] == [] && FirstWithTxData(m, []) == None;
    assert FirstWithTxData(m, m.queue) == None;
  }

  lemma InitialLoads()
    ensures R.Step(Initial(CFG), R.Load(BLOCK)) == Some(Loaded())
  {
    assert [] + [BLOCK] == [BLOCK];
  }

  /** Four steps are all it takes to get there, all of them legal. */
  lemma TwoChannelsReached()
    ensures R.Run(Initial(CFG), TwoChannelsOps()) == Some(TwoChannels())
    ensures R.LegalRun(Initial(CFG), TwoChannelsOps())
  {
    hide TxData, GetReadyChannel, R.SwitchesDA;
    InitialLoads();
    FirstPublish();
    SecondPublish();
    ThirdPublish();
    NoSwitch(Loaded(), Refusing(0));
    NoSwitch(HalfSent(), Refusing(4));
    NoSwitch(OneChannel(), Accepting(1));
    var ops := TwoChannelsOps();
    assert ops[1..][1..] == ops[2..] && ops[2..][1..] == ops[3..] && ops[3..][1..] == [];
    GoesOn(OneChannel(), ops[3..], TwoChannels());
    GoesOn(HalfSent(), ops[2..], OneChannel());
    GoesOn(Loaded(), ops[1..], HalfSent());
    GoesOn(Initial(CFG), ops, Loaded());
    assert R.Run(TwoChannels(), []) == Some(TwoChannels()) && R.LegalRun(TwoChannels(), []);
  }

  /** One step of a run. */
  lemma GoesOn(m: Mgr, ops: seq<R.Op>, m': Mgr)
    requires Linked(m) && Linked(m') && |ops| > 0 && R.Step(m, ops[0]) == Some(m') && R.Legal(m, ops[0])
    ensures R.Run(m, ops) == R.Run(m', ops[1..]) && (R.LegalRun(m', ops[1..]) ==> R.LegalRun(m, ops))
  {
    hide R.Step, R.Legal, Linked;
  }

  /** The configuration stays the same, so there is no switch. */
  lemma NoSwitch(m: Mgr, env: Env)
    requires Linked(m) && m.cfg == CFG
    ensures !R.SwitchesDA(m, 0, NO_FORCE, CFG, env)
  {
    hide AddBlocks, C.OutputFrames, C.NewChannel, FirstWithTxData, C.CheckTimeout, Linked;
  }

  // ----- A DA switch loses the block -----

  /** Channel 0's transactions fail, so channel 0 is the first with data again and nothing of it is submitted; the DA
      type switches, and invalidating the empty channel drops channel 1 without rewinding the block cursor. */
  function SwitchOps(): seq<R.Op> {
    TwoChannelsOps() + [R.Fail(TX), R.Fail(TX1), R.Publish(0, NO_FORCE, SWITCHED, Accepting(2), Accepting(3))]
  }

  function HalfFailed0(): C.Channel {
    Channel0().(frameCursor := 0, pending := map[TX1 := [FRAME1]])
  }

  function HalfFailed(): Mgr {
    TwoChannels().(txs := map[TX1 := 0], channels := map[0 := HalfFailed0(), 1 := Channel1()])
  }

  function Failed0(): C.Channel {
    Channel0().(frameCursor := 0, pending := map[])
  }

  function AfterFailure(): Mgr {
    TwoChannels().(txs := map[], channels := map[0 := Failed0(), 1 := Channel1()])
  }

  function AfterSwitch(): Mgr {
    AfterFailure().(queue := [], current := None, cfg := SWITCHED)
  }

  lemma AllLinked()
    ensures Linked(Initial(CFG)) && Linked(TwoChannels()) && Linked(HalfFailed()) && Linked(AfterFailure())
    ensures Linked(AfterPrune()) && Linked(HalfConfirmed())
  {
    hide Linked;
    assert Linked(Initial(CFG)) by { LinkedStart(); }
    LinkedTwo(TwoChannels());
    LinkedTwo(HalfFailed());
    LinkedTwo(AfterFailure());
    LinkedTwo(AfterPrune());
    LinkedTwo(HalfConfirmed());
  }

  lemma LinkedStart()
    ensures Linked(Initial(CFG))
  {
  }

  lemma LinkedTwo(m: Mgr)
    requires m.channels.Keys == {0, 1} && m.channels[0].id == 0 && m.channels[1].id == 1 && m.current == Some(1)
    requires forall i :: 0 <= i < |m.queue| ==> m.queue[i] == 0 || m.queue[i] == 1
    requires forall id :: id in m.txs ==> m.txs[id] == 0
    ensures Linked(m)
  {
  }

  lemma FailsFirst()
    ensures TxFailed(TwoChannels(), TX) == Some(HalfFailed())
  {
    var m := TwoChannels();
    assert Channel0().pending - {TX} == map[TX1 := [FRAME1]] && m.txs - {TX} == map[TX1 := 0];
    assert C.TxFailed(Channel0(), TX) == Some(HalfFailed0());
    assert m.channels[0 := HalfFailed0()] == HalfFailed().channels;
  }

  lemma FailsSecond()
    ensures TxFailed(HalfFailed(), TX1) == Some(AfterFailure())
  {
    var m := HalfFailed();
    assert HalfFailed0().pending - {TX1} == map[] && m.txs - {TX1} == map[];
    assert C.TxFailed(HalfFailed0(), TX1) == Some(Failed0());
    assert m.channels[0 := Failed0()] == AfterFailure().channels;
  }

  lemma SwitchDrops()
    ensures Invalidate(AfterFailure(), 0) == Some(AfterFailure().(queue := [], current := None))
  {
    var m := AfterFailure();
    assert m.queue[..0] == [] && Trim(m, 0).txs == map[];
  }

  lemma SwitchPublish()
    ensures TxData(AfterFailure(), 0, NO_FORCE, SWITCHED, Accepting(2), Accepting(3)) == (AfterSwitch(), EndOfData)
  {
    hide Invalidate, FillCurrent;
    SwitchDrops();
    var m := AfterFailure();
    assert Failed0().HasTxData() && FirstWithTxData(m, m.queue) == Some(0);
    assert GetReadyChannel(m, 0, NO_FORCE, Accepting(2)) == (m, Got(0));
    assert FirstWithTxData(AfterSwitch(), []) == None;
    assert GetReadyChannel(AfterSwitch(), 0, NO_FORCE, Accepting(3)) == (AfterSwitch(), NoData);
  }

  lemma {:induction false} RunThen(m: Mgr, ops: seq<R.Op>, mid: Mgr, more: seq<R.Op>)
    requires Linked(m) && Linked(mid) && R.Run(m, ops) == Some(mid) && R.LegalRun(m, ops)
    ensures R.Run(m, ops + more) == R.Run(mid, more)
    ensures R.LegalRun(mid, more) ==> R.LegalRun(m, ops + more)
    decreases |ops|
  {
    hide R.Step, R.Legal, Linked;
    if ops == [] {
      assert ops + more == more;
    } else {
      assert (ops + more)[0] == ops[0] && (ops + more)[1..] == ops[1..] + more;
      RunThen(R.Step(m, ops[0]).value, ops[1..], mid, more);
    }
  }

  /** Two legal steps and a third. */
  lemma ThreeMore(m: Mgr, a: R.Op, b: R.Op, c: R.Op, m1: Mgr, m2: Mgr)
    requires Linked(m) && Linked(m1) && Linked(m2) && R.Step(m, a) == Some(m1) && R.Step(m1, b) == Some(m2)
    requires R.Legal(m, a) && R.Legal(m1, b)
    ensures R.Run(m, [a, b, c]) == R.Step(m2, c) && R.LegalRun(m, [a, b])
  {
    hide R.Step, R.Legal, Linked;
    var abc, bc, ab := [a, b, c], [b, c], [a, b];
    assert abc[1..] == bc && bc[1..] == [c] && [c][1..] == [] && ab[1..] == [b] && [b][1..] == [];
    GoesOn(m, abc, m1);
    GoesOn(m1, bc, m2);
    assert R.Run(m2, [c]) == R.Step(m2, c);
    assert R.LegalRun(m2, []);
    GoesOn(m1, [b], m2);
    GoesOn(m, ab, m1);
  }

  /** The loaded block is neither in a queued channel nor still to be processed: it will never be sent. All steps but
      the last are legal. */
  lemma SwitchLosesBlock()
    ensures R.LegalRun(Initial(CFG), SwitchOps()[..6])
    ensures R.Run(Initial(CFG), SwitchOps()) == Some(AfterSwitch())
    ensures AfterSwitch().blocks == [BLOCK] && AllBlocks(AfterSwitch()) == []
  {
    hide TxData, TxFailed, R.Run, R.LegalRun, Linked, Channel0, Channel1;
    AllLinked();
    TwoChannelsReached();
    FailsFirst();
    FailsSecond();
    SwitchPublish();
    assert Held(AfterSwitch().channels, []) == [] by { HeldNil(AfterSwitch().channels); }
    var fail, again := R.Fail(TX), R.Fail(TX1);
    var publish := R.Publish(0, NO_FORCE, SWITCHED, Accepting(2), Accepting(3));
    ThreeMore(TwoChannels(), fail, again, publish, HalfFailed(), AfterFailure());
    RunThen(Initial(CFG), TwoChannelsOps(), TwoChannels(), [fail, again, publish]);
    RunThen(Initial(CFG), TwoChannelsOps(), TwoChannels(), [fail, again]);
    assert SwitchOps()[..6] == TwoChannelsOps() + [fail, again];
  }

  // ----- A confirmation for a pruned channel loses the block -----

  const STATUS := SyncStatus(BlockRef(7, 7, 0), 0, BlockRef(9, 0, 0), BlockRef(1, 1, 1))

  /** The safe head is the block's parent, so empty channel 0 is pruned although its transactions are pending. They are
      confirmed one block apart, which times the channel out, and since it is not found in the queue, everything from
      index 0 on is dropped. */
  function PrunedOps(): seq<R.Op> {
    TwoChannelsOps() + [R.Sync(STATUS, 0), R.Confirm(TX, 5), R.Confirm(TX1, 6)]
  }

  function AfterPrune(): Mgr {
    TwoChannels().(queue := [1])
  }

  lemma NothingStalls()
    ensures SafePrefix([Channel0(), Channel1()], 0) == 1
    ensures !Stalled(STATUS, Channel0()) && !Stalled(STATUS, Channel1())
  {
    var cs := [Channel0(), Channel1()];
    assert cs[1..] == [Channel1()] && SafePrefix([Channel1()], 0) == 0;
    assert Channel0().pending.Keys == {TX, TX1} && |Channel0().pending| > 0;
  }

  lemma PrunesFirst()
    ensures SyncAndPrune(TwoChannels(), STATUS, 0).0 == Some(AfterPrune())
  {
    hide SafePrefix, Stalled, Linked;
    AllLinked();
    var m := TwoChannels();
    var cs := QueuedChannels(m);
    assert cs == [Channel0(), Channel1()];
    NothingStalls();
    assert Compute(STATUS, 0, m.blocks, cs) == (Actions(None, 0, 1, None), false);
    assert m.queue[1..] == [1] && m.queue[..1] == [0] && m.blocks[0..] == m.blocks;
  }

  /** The first confirmation is in time. */
  function HalfConfirmed0(): C.Channel {
    Channel0().(pending := map[TX1 := [FRAME1]], confirmed := map[TX := 5], minInclusion := 5, maxInclusion := 5,
                timeout := 6, timeoutReason := C.ChannelTimeoutClose,
                history := C.History([[FRAME], [FRAME1]], [C.Deadline(6, C.ChannelTimeoutClose)], [5],
                                     [[], []]))
  }

  function HalfConfirmed(): Mgr {
    AfterPrune().(txs := map[TX1 := 0], channels := map[0 := HalfConfirmed0(), 1 := Channel1()])
  }

  lemma ConfirmsFirst()
    ensures TxConfirmed(AfterPrune(), TX, 5) == Some(HalfConfirmed()) && !TimesOut(AfterPrune(), TX, 5)
  {
    var c, m := Channel0(), AfterPrune();
    assert c.pending - {TX} == map[TX1 := [FRAME1]] && c.confirmed[TX := 5] == map[TX := 5];
    assert [] + [5] == [5] && [] + [C.Deadline(6, C.ChannelTimeoutClose)] == [C.Deadline(6, C.ChannelTimeoutClose)];
    assert C.TxConfirmed(c, TX, 5) == HalfConfirmed0();
    assert m.txs - {TX} == map[TX1 := 0] && m.channels[0 := HalfConfirmed0()] == HalfConfirmed().channels;
  }

  /** The second is one block later. */
  lemma ConfirmTimesOut()
    ensures var c := C.TxConfirmed(HalfConfirmed0(), TX1, 6); c.IsTimedOut() && c.blocks == [] && c.id == 0
  {
    var c := C.TxConfirmed(HalfConfirmed0(), TX1, 6);
    assert TX1 in c.confirmed && |c.confirmed| > 0;
    assert c.maxInclusion == 6 && c.minInclusion == 5;
  }

  lemma ConfirmDrops()
    ensures TimesOut(HalfConfirmed(), TX1, 6) && TxConfirmed(HalfConfirmed(), TX1, 6).Some?
    ensures var m := TxConfirmed(HalfConfirmed(), TX1, 6).value;
      m.queue == [] && m.blocks == [BLOCK] && m.blockCursor == 1
  {
    hide C.TxConfirmed, C.Channel.IsTimedOut, Invalidate, Linked;
    AllLinked();
    ConfirmTimesOut();
    var m1 := RecordConfirmed(HalfConfirmed(), TX1, 6);
    assert m1.queue == [1] && m1.channels[0].blocks == [];
    DropsAll(m1);
  }

  /** A channel that is not found counts as the first. */
  lemma DropsAll(m: Mgr)
    requires Linked(m) && 0 in m.channels && m.queue == [1] && m.channels[0].blocks == []
    ensures Invalidate(m, 0).Some?
    ensures var m' := Invalidate(m, 0).value;
      m'.queue == [] && m'.blocks == m.blocks && m'.blockCursor == m.blockCursor
  {
  }

  lemma PrunedConfirmLosesBlock()
    ensures R.LegalRun(Initial(CFG), PrunedOps()[..6])
    ensures R.Run(Initial(CFG), PrunedOps()).Some?
    ensures var m := R.Run(Initial(CFG), PrunedOps()).value; m.blocks == [BLOCK] && AllBlocks(m) == []
  {
    hide SyncAndPrune, TxConfirmed, R.Run, R.LegalRun, Linked, Channel0, Channel1, TimesOut;
    AllLinked();
    TwoChannelsReached();
    PrunesFirst();
    ConfirmsFirst();
    ConfirmDrops();
    var sync, first, second := R.Sync(STATUS, 0), R.Confirm(TX, 5), R.Confirm(TX1, 6);
    ThreeMore(TwoChannels(), sync, first, second, AfterPrune(), HalfConfirmed());
    RunThen(Initial(CFG), TwoChannelsOps(), TwoChannels(), [sync, first, second]);
    RunThen(Initial(CFG), TwoChannelsOps(), TwoChannels(), [sync, first]);
    assert PrunedOps()[..6] == TwoChannelsOps() + [sync, first];
  }

  // ----- A DA switch while publishing is forced panics -----

  const FORCE := PubInfo(true, false)

  /** The block goes into channel 0, which stays open; then publishing is forced just when the DA type switches. */
  function ForcedOps(): seq<R.Op> {
    [R.Load(BLOCK), R.Publish(0, NO_FORCE, CFG, Accepting(0), Accepting(6)),
     R.Publish(0, FORCE, SWITCHED, Accepting(1), Accepting(2))]
  }

  function Open0(): C.Channel {
    Channel1().(id := 0)
  }

  function Opened(): Mgr {
    WithChannel(Open0()).(blockCursor := 1)
  }

  lemma FillOpen()
    ensures FillCurrent(Loaded(), 0, NO_FORCE, Accepting(0)) == (Opened(), NoData)
  {
    hide EnsureChannelWithSpace, C.NewChannel, AddBlocks, C.OutputFrames, SetChannel;
    var env, c := Accepting(0), C.NewChannel(0, CFG, 0);
    NewIs(0);
    OpensFirst(env);
    AcceptsBlock(0);
    var m1 := WithChannel(c);
    assert From(m1.blocks, 0) == [BLOCK];
    SetOnly(c, Open0());
    assert ProcessBlocks(m1, env.adds) == (Opened(), true);
    SetOpened(Open0());
    assert RegisterL1Block(Opened(), 0) == Opened();
    OutputsNothing(Open0());
    assert OutputFrames(Opened(), env.feed) == (Opened(), true);
  }

  lemma SetOpened(c: C.Channel)
    requires c.id == 0
    ensures SetChannel(Opened(), c) == WithChannel(c).(blockCursor := 1)
  {
    assert map[0 := Open0()][0 := c] == map[0 := c];
  }

  /** Force-closing gives channel 0 its one frame. */
  function Forced(): C.Channel {
    WithFrames(Open0().(full := Some(C.Terminated)), [FRAME], ONE_FRAME.chunks)
  }

  lemma ForcedFirst()
    ensures GetReadyChannel(Opened(), 0, FORCE, Accepting(1)) == (WithChannel(Forced()).(blockCursor := 1), Got(0))
  {
    hide FillCurrent, C.OutputFrames, SetChannel;
    var closed := C.Close(Open0());
    SetOpened(closed);
    OutputsOne(closed);
    assert WithFrames(closed, [FRAME], ONE_FRAME.chunks) == Forced();
    var m1 := WithChannel(closed).(blockCursor := 1);
    assert SetChannel(m1, Forced()) == WithChannel(Forced()).(blockCursor := 1) by { SetClosed(closed, Forced()); }
    assert ForceClose(Opened(), ONE_FRAME) == (WithChannel(Forced()).(blockCursor := 1), true);
  }

  lemma SetClosed(c: C.Channel, c': C.Channel)
    requires c.id == c'.id == 0
    ensures SetChannel(WithChannel(c).(blockCursor := 1), c') == WithChannel(c').(blockCursor := 1)
  {
    assert map[0 := c][0 := c'] == map[0 := c'];
  }

  lemma ForcedSwitch()
    ensures TxData(Opened(), 0, FORCE, SWITCHED, Accepting(1), Accepting(2)).1 == Panic
  {
    hide GetReadyChannel, RequeueAndRetry;
    ForcedFirst();
    RetryCrashes();
  }

  lemma RetryCrashes()
    ensures var m := WithChannel(Forced()).(blockCursor := 1);
      Linked(m) && Switches(m, 0, SWITCHED) && RequeueAndRetry(m, 0, 0, FORCE, SWITCHED, Accepting(2)).1 == Panic
  {
    hide FillCurrent;
    var m := WithChannel(Forced()).(blockCursor := 1);
    assert Invalidate(m, 0).Some? && Invalidate(m, 0).value.current.None?;
    assert GetReadyChannel(Invalidate(m, 0).value.(cfg := SWITCHED), 0, FORCE, Accepting(2)).1 == Crashed;
  }

  /** The retry after the switch meets a nil current channel. */
  lemma ForcedSwitchPanics()
    ensures R.LegalRun(Initial(CFG), ForcedOps()[..2]) && R.Run(Initial(CFG), ForcedOps()).None?
  {
    hide TxData, GetReadyChannel;
    InitialLoads();
    OpenPublish();
    ForcedSwitch();
    NoSwitch(Loaded(), Accepting(0));
    var ops := ForcedOps();
    var legal := ops[..2];
    assert R.Legal(Initial(CFG), legal[0]) && R.Legal(Loaded(), legal[1]);
    assert legal[1..][1..] == [] && R.LegalRun(Opened(), []) && R.LegalRun(Loaded(), legal[1..]);
    assert ops[1..][1..] == ops[2..];
    assert R.Run(Opened(), ops[2..]).None?;
    assert R.Run(Loaded(), ops[1..]).None?;
  }

  lemma OpenPublish()
    ensures TxData(Loaded(), 0, NO_FORCE, CFG, Accepting(0), Accepting(6)) == (Opened(), EndOfData)
  {
    hide FillCurrent;
    FillOpen();
  }
}
