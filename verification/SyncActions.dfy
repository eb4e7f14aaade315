/** Deciding what to prune and load, and applying it
    (op-batcher/batcher/sync_actions.go; syncAndPrune of op-batcher/batcher/driver.go). */
module SyncActions {
  import opened Prelude
  import opened Manager
  import opened ManagerInv
  import C = Channels

  datatype BlockRef = BlockRef(hash: nat, number: nat, l1Origin: nat)
  const ZERO_REF := BlockRef(0, 0, 0)

  datatype SyncStatus = SyncStatus(headL1: BlockRef, currentL1: nat, safeL2: BlockRef, unsafeL2: BlockRef)

  datatype Range = Range(start: nat, end: nat)
  datatype Actions = Actions(clearState: Option<nat>, blocksToPrune: nat, channelsToPrune: nat,
                             blocksToLoad: Option<Range>)

  predicate EmptyRef(s: SyncStatus) {
    s.safeL2 == ZERO_REF || s.unsafeL2 == ZERO_REF || s.headL1 == ZERO_REF
  }

  function RangeFrom(start: nat, s: SyncStatus): Option<Range> {
    if s.unsafeL2.number >= start then Some(Range(start, s.unsafeL2.number)) else None
  }

  function StartAfresh(s: SyncStatus): Actions {
    Actions(Some(s.safeL2.l1Origin), 0, 0, RangeFrom(s.safeL2.number + 1, s))
  }

  /** A fully submitted, timely channel that the safe head should have passed but did not. */
  predicate Stalled(s: SyncStatus, c: C.Channel) {
    c.IsFullySubmitted() && !c.IsTimedOut() && s.currentL1 > c.maxInclusion && s.safeL2.number < c.latestL2
  }

  predicate AnyStalled(s: SyncStatus, cs: seq<C.Channel>) {
    exists i :: 0 <= i < |cs| && Stalled(s, cs[i])
  }

  /** How many leading channels have only safe blocks. */
  function SafePrefix(cs: seq<C.Channel>, safe: nat): (n: nat)
    ensures n <= |cs|
    ensures forall i :: 0 <= i < n ==> cs[i].latestL2 <= safe
    ensures n < |cs| ==> cs[n].latestL2 > safe
  {
    if |cs| == 0 || cs[0].latestL2 > safe then 0 else 1 + SafePrefix(cs[1..], safe)
  }

  /** The safe head is outside the loaded blocks, or disagrees with them. */
  predicate MustRestart(s: SyncStatus, blocks: seq<C.Block>)
    requires blocks != []
  {
    var next := s.safeL2.number + 1;
    || next < blocks[0].number
    || next - blocks[0].number > |blocks|
    || (next - blocks[0].number > 0 && blocks[next - blocks[0].number - 1].hash != s.safeL2.hash)
  }

  /** The status says nothing, or goes back on an earlier one. */
  ghost predicate Unusable(s: SyncStatus, prevCurrentL1: nat) {
    var nothing := BlockRef(0, 0, 0);
    s.headL1 == nothing || s.safeL2 == nothing || s.unsafeL2 == nothing || s.currentL1 < prevCurrentL1
  }

  /** The second result says that the sequencer is out of sync. */
  function Compute(s: SyncStatus, prevCurrentL1: nat, blocks: seq<C.Block>, cs: seq<C.Channel>): (Actions, bool) {
    if EmptyRef(s) || s.currentL1 < prevCurrentL1 then (Actions(None, 0, 0, None), true)
    else if blocks == [] then (Actions(None, 0, 0, RangeFrom(s.safeL2.number + 1, s)), false)
    else if MustRestart(s, blocks) || AnyStalled(s, cs) then (StartAfresh(s), false)
    else
      (Actions(None, s.safeL2.number + 1 - blocks[0].number, SafePrefix(cs, s.safeL2.number),
               RangeFrom(blocks[|blocks| - 1].number + 1, s)), false)
  }

  /** computeSyncActions, with its two scans over the channels. */
  method ComputeSyncActions(s: SyncStatus, prevCurrentL1: nat, blocks: seq<C.Block>, cs: seq<C.Channel>)
    returns (a: Actions, outOfSync: bool)
    ensures (a, outOfSync) == Compute(s, prevCurrentL1, blocks, cs)
    ensures outOfSync <==> Unusable(s, prevCurrentL1)
  {
    if EmptyRef(s) || s.currentL1 < prevCurrentL1 { return Actions(None, 0, 0, None), true; }
    if |blocks| == 0 { return Actions(None, 0, 0, RangeFrom(s.safeL2.number + 1, s)), false; }
    var next := s.safeL2.number + 1;
    if next < blocks[0].number { return StartAfresh(s), false; }
    var num := next - blocks[0].number;
    if num > |blocks| { return StartAfresh(s), false; }
    if num > 0 && blocks[num - 1].hash != s.safeL2.hash { return StartAfresh(s), false; }
    for i := 0 to |cs|
      invariant forall j :: 0 <= j < i ==> !Stalled(s, cs[j])
    {
      if Stalled(s, cs[i]) { return StartAfresh(s), false; }
    }
    var n := 0;
    while n < |cs| && cs[n].latestL2 <= s.safeL2.number
      invariant n <= |cs| && forall j :: 0 <= j < n ==> cs[j].latestL2 <= s.safeL2.number
    {
      n := n + 1;
    }
    assert n == SafePrefix(cs, s.safeL2.number);
    return Actions(None, num, n, RangeFrom(blocks[|blocks| - 1].number + 1, s)), false;
  }

  function QueuedChannels(m: Mgr): seq<C.Channel>
    requires Linked(m)
  {
    seq(|m.queue|, i requires 0 <= i < |m.queue| => m.channels[m.queue[i]])
  }

  /** syncAndPrune: blocks first, then channels. None is a panic. */
  function SyncAndPrune(m: Mgr, s: SyncStatus, prevCurrentL1: nat): (r: (Option<Mgr>, Option<Range>))
    requires Linked(m)
    ensures r.0.Some? ==> Linked(r.0.value)
  {
    var (a, outOfSync) := Compute(s, prevCurrentL1, m.blocks, QueuedChannels(m));
    if outOfSync then (Some(m), a.blocksToLoad)
    else if a.clearState.Some? then (Some(Clear(m, a.clearState.value)), a.blocksToLoad)
    else match PruneSafeBlocks(m, a.blocksToPrune)
      case None => (None, a.blocksToLoad)
      case Some(m1) => (PruneChannels(m1, a.channelsToPrune), a.blocksToLoad)
  }

  // ----- When the manager starts over -----

  /** The safe head is right below the loaded blocks, or is one of them. */
  ghost predicate SafeHeadFits(s: SyncStatus, blocks: seq<C.Block>) {
    blocks != []
    && (s.safeL2.number + 1 == blocks[0].number
        || exists i :: 0 <= i < |blocks| && blocks[i].number == s.safeL2.number && blocks[i].hash == s.safeL2.hash)
  }

  /** All of the channel was confirmed in time, and before the L1 block that derivation has reached, and yet one of its
      blocks is not safe. */
  ghost predicate Overdue(s: SyncStatus, c: C.Channel) {
    && c.full.Some? && c.pending == map[] && c.frameCursor == |c.frames|
    && !(exists a, b :: a in c.history.inclusions && b in c.history.inclusions && a - b >= c.cfg.channelTimeout)
    && s.currentL1 > 0 && (forall n :: n in c.history.inclusions ==> n < s.currentL1)
    && exists b :: b in c.blocks && b.number > s.safeL2.number
  }

  /** The sync status makes the manager drop its whole state. */
  ghost predicate Restarts(m: Mgr, s: SyncStatus, prevCurrentL1: nat)
    requires Linked(m)
  {
    && !Unusable(s, prevCurrentL1) && m.blocks != []
    && (!SafeHeadFits(s, m.blocks)
        || exists i :: 0 <= i < |m.queue| && Overdue(s, m.channels[m.queue[i]]))
  }

  lemma FitsExactly(s: SyncStatus, blocks: seq<C.Block>)
    requires Chain(blocks) && blocks != []
    ensures MustRestart(s, blocks) <==> !SafeHeadFits(s, blocks)
  {
    var i := s.safeL2.number - blocks[0].number;
    if 0 <= i < |blocks| { assert blocks[i].number == s.safeL2.number; }
  }

  lemma StalledExactly(s: SyncStatus, c: C.Channel)
    requires C.Inv(c)
    ensures Stalled(s, c) <==> Overdue(s, c)
  {
    hide C.TxInv, C.Carries, C.Channel.IsTimedOut, C.Channel.IsFullySubmitted;
    C.SubmittedExactly(c);
    C.TimedOutMeansSpread(c);
    LatestReached(s, c);
    if c.blocks != [] {
      var i :| 0 <= i < |c.blocks| && c.blocks[i].number == c.latestL2;
      assert c.blocks[i] in c.blocks;
    }
  }

  /** The largest inclusion is an inclusion. */
  lemma LatestReached(s: SyncStatus, c: C.Channel)
    requires C.TimeInv(c)
    ensures s.currentL1 > c.maxInclusion <==>
      s.currentL1 > 0 && forall n :: n in c.history.inclusions ==> n < s.currentL1
  {
  }

  lemma BlocksChain(m: Mgr)
    requires Shape(m)
    ensures Chain(m.blocks)
  {
    hide C.Inv, Held, Chain;
    var all := AllBlocks(m);
    assert m.blocks == all[|all| - |m.blocks|..];
    ChainDrop(all, |all| - |m.blocks|);
  }

  lemma RestartsExactly(m: Mgr, s: SyncStatus, prevCurrentL1: nat)
    requires Inv(m)
    ensures Compute(s, prevCurrentL1, m.blocks, QueuedChannels(m)).0.clearState.Some? <==>
      Restarts(m, s, prevCurrentL1)
  {
    hide C.Inv, Chain, Held, BlocksInv, TxsInv, QueueInv, LatestInv, MustRestart, SafeHeadFits, Stalled, Overdue;
    var cs := QueuedChannels(m);
    if m.blocks != [] {
      BlocksChain(m);
      FitsExactly(s, m.blocks);
    }
    forall i | 0 <= i < |m.queue| ensures Stalled(s, cs[i]) <==> Overdue(s, m.channels[m.queue[i]]) {
      assert m.queue[i] in m.channels;
      StalledExactly(s, cs[i]);
    }
  }

  // ----- Pruning is safe -----

  /** `after` is what remains of `all` once some leading blocks numbered below `limit` are gone. */
  ghost predicate DropsBelow(all: seq<C.Block>, after: seq<C.Block>, limit: nat) {
    IsSuffix(after, all) && forall i :: 0 <= i < |all| - |after| ==> all[i].number < limit
  }

  lemma {:induction false} HeldLastSafe(channels: map<nat, C.Channel>, q: seq<nat>, safe: nat)
    requires forall i :: 0 <= i < |q| ==> LastNumber(BlocksOf(channels, q[i])) <= safe
    ensures LastNumber(Held(channels, q)) <= safe
  {
    if q != [] { HeldLastSafe(channels, q[..|q| - 1], safe); }
  }

  lemma {:induction false} ChannelBlockHeld(channels: map<nat, C.Channel>, q: seq<nat>, i: nat, b: C.Block)
    requires i < |q| && b in BlocksOf(channels, q[i])
    ensures b in Held(channels, q)
  {
    if i < |q| - 1 { ChannelBlockHeld(channels, q[..|q| - 1], i, b); }
  }

  /** The newest block in any channel is the one right below the cursor. */
  lemma HeldBelowCursor(blocks: seq<C.Block>, cursor: nat, tip: nat, held: seq<C.Block>, b: C.Block)
    requires BlocksInv(blocks, cursor, tip, held) && b in held
    ensures blocks != [] && b.number < blocks[0].number + cursor
  {
    hide Chain;
    var all := held + blocks[cursor..];
    var i :| 0 <= i < |held| && held[i] == b;
    assert all[i] == b && all[|all| - |blocks|] == blocks[0];
    ChainNumber(all, i);
    ChainNumber(all, |all| - |blocks|);
  }

  /** When the safe head reaches the cursor, every channel is pruned. */
  lemma AllPruned(m: Mgr, safe: nat)
    requires Shape(m) && m.blocks != [] && safe + 1 >= m.blocks[0].number + m.blockCursor
    ensures SafePrefix(QueuedChannels(m), safe) == |m.queue|
  {
    hide C.Inv, Chain, Held, BlocksInv, TxsInv;
    var n := SafePrefix(QueuedChannels(m), safe);
    if n < |m.queue| {
      var c := m.channels[m.queue[n]];
      assert QueuedChannels(m)[n] == c && m.queue[n] in m.queue;
      var b := c.blocks[|c.blocks| - 1];
      ChannelBlockHeld(m.channels, m.queue, n, b);
      HeldBelowCursor(m.blocks, m.blockCursor, m.tip, Held(m.channels, m.queue), b);
    }
  }

  /** Dropping safe blocks below the cursor, and channels whose blocks are all safe. */
  lemma PruneWithin(blocks: seq<C.Block>, cursor: nat, tip: nat, gone: seq<C.Block>, kept: seq<C.Block>, num: nat)
    requires BlocksInv(blocks, cursor, tip, gone + kept) && num < cursor
    requires gone != [] ==> LastNumber(gone) < blocks[0].number + num
    ensures BlocksInv(blocks[num..], cursor - num, tip, kept)
    ensures DropsBelow(gone + kept + From(blocks, cursor), kept + From(blocks[num..], cursor - num),
                       blocks[0].number + num)
  {
    hide Chain, IsSuffix, From, DropsBelow, LastNumber;
    GoneBound(blocks, cursor, tip, gone, kept, num);
    FromDrop(blocks, cursor, num);
    var all' := kept + From(blocks, cursor);
    assert gone + kept + From(blocks, cursor) == gone + all';
    KeptChain(blocks, gone, all', num);
    DropsGone(gone, all', blocks[0].number + num);
  }

  lemma KeptChain(blocks: seq<C.Block>, gone: seq<C.Block>, rest: seq<C.Block>, num: nat)
    requires Chain(gone + rest) && IsSuffix(blocks, gone + rest) && num <= |blocks| && |blocks| - num <= |rest|
    ensures Chain(rest) && IsSuffix(blocks[num..], rest)
  {
    hide Chain, IsSuffix;
    assert (gone + rest)[|gone|..] == rest;
    ChainDrop(gone + rest, |gone|);
    SuffixDrop(blocks, gone + rest, num);
    SuffixOfTail(blocks[num..], gone, rest);
  }

  lemma DropsGone(gone: seq<C.Block>, rest: seq<C.Block>, limit: nat)
    requires Chain(gone + rest) && (gone != [] ==> LastNumber(gone) < limit)
    ensures DropsBelow(gone + rest, rest, limit)
  {
    hide Chain, LastNumber;
    SuffixOfConcat(gone, rest);
    LastIsLargest(gone, rest, limit);
  }

  lemma LastIsLargest(gone: seq<C.Block>, rest: seq<C.Block>, limit: nat)
    requires Chain(gone + rest) && (gone != [] ==> LastNumber(gone) < limit)
    ensures forall i :: 0 <= i < |gone| ==> (gone + rest)[i].number < limit
  {
    if gone != [] { assert (gone + rest)[|gone| - 1] == gone[|gone| - 1]; }
  }

  lemma FromDrop(blocks: seq<C.Block>, cursor: nat, num: nat)
    requires num < cursor <= |blocks|
    ensures From(blocks[num..], cursor - num) == From(blocks, cursor) && |From(blocks, cursor)| == |blocks| - cursor
    ensures blocks[num..][|blocks| - num - 1] == blocks[|blocks| - 1]
  {
  }

  lemma GoneBound(blocks: seq<C.Block>, cursor: nat, tip: nat, gone: seq<C.Block>, kept: seq<C.Block>, num: nat)
    requires BlocksInv(blocks, cursor, tip, gone + kept) && num < cursor
    requires gone != [] ==> LastNumber(gone) < blocks[0].number + num
    ensures |blocks| - num <= |kept| + |blocks| - cursor
  {
    hide Chain;
    var all := gone + kept + From(blocks, cursor);
    var off := |all| - |blocks|;
    assert all[off] == blocks[0];
    ChainNumber(all, off);
    if gone != [] {
      assert all[|gone| - 1] == gone[|gone| - 1];
      ChainNumber(all, |gone| - 1);
    }
  }

  /** Pruning up to or past the cursor leaves only unprocessed blocks. */
  lemma PrunePast(blocks: seq<C.Block>, cursor: nat, tip: nat, held: seq<C.Block>, num: nat)
    requires BlocksInv(blocks, cursor, tip, held) && cursor <= num <= |blocks| && blocks != []
    ensures BlocksInv(blocks[num..], 0, tip, [])
    ensures DropsBelow(held + From(blocks, cursor), [] + From(blocks[num..], 0), blocks[0].number + num)
  {
    hide Chain, From;
    var all := held + From(blocks, cursor);
    SuffixDrop(blocks, all, num);
    ChainDrop(all, |all| - |blocks| + num);
    FromStart(blocks[num..]);
    BelowCut(blocks, all, num);
  }

  lemma FromStart(blocks: seq<C.Block>)
    ensures From(blocks, 0) == blocks && [] + From(blocks, 0) == blocks
  {
  }

  lemma BelowCut(blocks: seq<C.Block>, all: seq<C.Block>, num: nat)
    requires Chain(all) && IsSuffix(blocks, all) && blocks != [] && num <= |blocks|
    ensures forall i :: 0 <= i < |all| - |blocks| + num ==> all[i].number < blocks[0].number + num
  {
    assert all[|all| - |blocks|] == blocks[0];
  }

  lemma PruneQueue(m: Mgr, n: nat)
    requires Shape(m) && n <= |m.queue|
    ensures LatestInv(m.queue[n..], m.channels)
    ensures PruneChannels(m, n).Some? && QueueInv(m.queue[n..], PruneChannels(m, n).value.current)
  {
    hide Chain, Held, BlocksInv;
    assert n == |m.queue| ==> m.queue[..n] == m.queue;
  }

  lemma PruneTxs(txs: map<C.TxId, nat>, queue: seq<nat>, channels: map<nat, C.Channel>, n: nat)
    requires TxsInv(txs, queue, channels) && n <= |queue|
    ensures TxsInv(txs, queue[n..], channels)
  {
  }

  /** Pruning `num` blocks and the leading safe channels. */
  lemma PruneInv(m: Mgr, s: SyncStatus, num: nat, n: nat)
    requires Inv(m) && m.blocks != [] && num <= |m.blocks|
    requires m.blocks[0].number + num == s.safeL2.number + 1
    requires n == SafePrefix(QueuedChannels(m), s.safeL2.number)
    ensures PruneSafeBlocks(m, num).Some? && PruneChannels(PruneSafeBlocks(m, num).value, n).Some?
    ensures var m' := PruneChannels(PruneSafeBlocks(m, num).value, n).value;
      Inv(m') && m'.blocks == m.blocks[num..] && DropsBelow(AllBlocks(m), AllBlocks(m'), s.safeL2.number + 1)
  {
    hide C.Inv, Chain, Held, BlocksInv, TxsInv, LatestInv, ChannelsInv, QueueInv, IsSuffix, From, SafePrefix,
      DropsBelow;
    PruneQueue(m, n);
    PruneTxs(m.txs, m.queue, m.channels, n);
    var gone, kept := Held(m.channels, m.queue[..n]), Held(m.channels, m.queue[n..]);
    HeldSplit(m.channels, m.queue, n);
    if num >= m.blockCursor {
      AllPruned(m, s.safeL2.number);
      assert m.queue[n..] == [];
      HeldNil(m.channels);
      PrunePast(m.blocks, m.blockCursor, m.tip, gone + kept, num);
    } else {
      PrefixHeldSafe(m, n, s.safeL2.number);
      PruneWithin(m.blocks, m.blockCursor, m.tip, gone, kept, num);
    }
  }

  lemma PrefixHeldSafe(m: Mgr, n: nat, safe: nat)
    requires Shape(m) && n == SafePrefix(QueuedChannels(m), safe)
    ensures LastNumber(Held(m.channels, m.queue[..n])) <= safe
  {
    hide C.Inv, Chain, Held, BlocksInv, TxsInv;
    var q := m.queue[..n];
    forall i | 0 <= i < |q| ensures LastNumber(BlocksOf(m.channels, q[i])) <= safe {
      assert QueuedChannels(m)[i] == m.channels[q[i]] && q[i] in m.queue;
    }
    HeldLastSafe(m.channels, q, safe);
  }

  lemma NoTxs(channels: map<nat, C.Channel>)
    ensures TxsInv(map[], [], channels)
  {
  }

  lemma ClearInv(m: Mgr, l1Origin: nat)
    requires Inv(m)
    ensures Inv(Clear(m, l1Origin)) && AllBlocks(Clear(m, l1Origin)) == []
  {
    hide C.Inv, ChannelsInv, Held, Settled, TxsInv, BlocksInv, Chain;
    HeldNil(m.channels);
    NothingToDeliver();
    assert TxsInv(map[], [], m.channels) by { NoTxs(m.channels); }
  }

  lemma NothingToDeliver()
    ensures BlocksInv([], 0, 0, []) && From([], 0) == []
  {
  }

  /** The largest number kept, or that of the safe head if no block is kept. */
  function NewestKept(blocks: seq<C.Block>, s: SyncStatus): nat {
    if blocks == [] then s.safeL2.number else blocks[|blocks| - 1].number
  }

  /** What one syncAndPrune does, for every sync status: it never panics; it starts over, or drops only
      safe blocks from the front and keeps every unsafe one in order; and the blocks it asks to load
      continue exactly where the state now ends. It asks for none iff the status is unusable or names no newer block. */
  lemma SyncAndPruneInv(m: Mgr, s: SyncStatus, prevCurrentL1: nat)
    requires Inv(m)
    ensures var (r, load) := SyncAndPrune(m, s, prevCurrentL1);
      && r.Some? && Inv(r.value)
      && (Restarts(m, s, prevCurrentL1) ==> AllBlocks(r.value) == [])
      && (!Restarts(m, s, prevCurrentL1) ==> DropsBelow(AllBlocks(m), AllBlocks(r.value), s.safeL2.number + 1))
      && (load.None? <==> Unusable(s, prevCurrentL1) || s.unsafeL2.number <= NewestKept(r.value.blocks, s))
      && (load.Some? ==> load.value == Range(NewestKept(r.value.blocks, s) + 1, s.unsafeL2.number))
  {
    hide C.Inv, Chain, Held, BlocksInv, TxsInv, LatestInv, ChannelsInv, QueueInv, AllBlocks, Restarts, Stalled;
    RestartsExactly(m, s, prevCurrentL1);
    var (a, outOfSync) := Compute(s, prevCurrentL1, m.blocks, QueuedChannels(m));
    if outOfSync {
      assert DropsBelow(AllBlocks(m), AllBlocks(m), s.safeL2.number + 1);
    } else if a.clearState.Some? {
      ClearInv(m, a.clearState.value);
    } else if m.blocks == [] {
      NothingPruned(m);
      assert DropsBelow(AllBlocks(m), AllBlocks(m), s.safeL2.number + 1);
    } else {
      PruneInv(m, s, a.blocksToPrune, a.channelsToPrune);
      LastPruned(m, s, a.blocksToPrune);
    }
  }

  lemma NothingPruned(m: Mgr)
    requires Shape(m) && m.blocks == []
    ensures PruneSafeBlocks(m, 0) == Some(m) && PruneChannels(m, 0) == Some(m)
  {
    assert m.blocks[0..] == m.blocks && m.queue[0..] == m.queue && m.queue[..0] == [];
    EmptyCursor(m);
  }

  /** What is left: nothing but the configuration and the old channels after a restart, with the next channel's duration
      counting from the safe head's L1 origin; otherwise exactly the blocks above the safe head, and the channels from
      the first one on that holds such a block. The current channel goes only with its place in the queue. */
  lemma SyncAndPruneExactly(m: Mgr, s: SyncStatus, prevCurrentL1: nat) returns (num: nat, n: nat)
    requires Inv(m)
    ensures var r := SyncAndPrune(m, s, prevCurrentL1).0;
      && r.Some?
      && (Unusable(s, prevCurrentL1) || m.blocks == [] ==> r.value == m)
      && (Restarts(m, s, prevCurrentL1) ==>
            r.value == Initial(m.cfg).(lastL1 := s.safeL2.l1Origin, channels := m.channels))
      && (!Unusable(s, prevCurrentL1) && m.blocks != [] && !Restarts(m, s, prevCurrentL1) ==>
            && num <= |m.blocks| && n <= |m.queue|
            && (forall i :: 0 <= i < |m.blocks| ==> (m.blocks[i].number <= s.safeL2.number <==> i < num))
            && (forall i :: 0 <= i < n ==> AllSafe(m.channels[m.queue[i]].blocks, s.safeL2.number))
            && (n < |m.queue| ==> !AllSafe(m.channels[m.queue[n]].blocks, s.safeL2.number))
            && r.value == m.(blocks := m.blocks[num..], blockCursor := Max(m.blockCursor - num, 0),
                             queue := m.queue[n..],
                             current := if m.current.Some? && m.current.value in m.queue[..n] then None
                                        else m.current))
  {
    hide C.Inv, Chain, Held, BlocksInv, TxsInv, LatestInv, QueueInv, AllBlocks, Restarts, Stalled, AllSafe;
    RestartsExactly(m, s, prevCurrentL1);
    var (a, outOfSync) := Compute(s, prevCurrentL1, m.blocks, QueuedChannels(m));
    num, n := a.blocksToPrune, a.channelsToPrune;
    if !outOfSync && a.clearState.None? {
      if m.blocks == [] {
        NothingPruned(m);
      } else {
        BlocksChain(m);
        forall i | 0 <= i < |m.blocks| ensures m.blocks[i].number <= s.safeL2.number <==> i < num {
          ChainNumber(m.blocks, i);
        }
        forall i | 0 <= i < |m.queue|
          ensures QueuedChannels(m)[i].latestL2 <= s.safeL2.number <==>
            AllSafe(m.channels[m.queue[i]].blocks, s.safeL2.number)
        {
          LatestSafe(m.channels[m.queue[i]], s.safeL2.number);
        }
      }
    }
  }

  ghost predicate AllSafe(blocks: seq<C.Block>, safe: nat) {
    forall b :: b in blocks ==> b.number <= safe
  }

  lemma LatestSafe(c: C.Channel, safe: nat)
    requires C.Inv(c)
    ensures c.latestL2 <= safe <==> AllSafe(c.blocks, safe)
  {
    hide C.TxInv, C.TimeInv, C.Carries;
    if c.blocks != [] {
      var i :| 0 <= i < |c.blocks| && c.blocks[i].number == c.latestL2;
      assert c.blocks[i] in c.blocks;
    }
  }

  lemma EmptyCursor(m: Mgr)
    requires Shape(m) && m.blocks == []
    ensures m.blockCursor == 0
  {
  }

  lemma LastPruned(m: Mgr, s: SyncStatus, num: nat)
    requires Shape(m) && m.blocks != [] && num <= |m.blocks| && m.blocks[0].number + num == s.safeL2.number + 1
    ensures LastNumber(m.blocks) == if m.blocks[num..] != [] then LastNumber(m.blocks[num..]) else s.safeL2.number
  {
    hide C.Inv, Held;
    var all := AllBlocks(m);
    var off := |all| - |m.blocks|;
    assert m.blocks == all[off..];
    assert all[off].number == all[0].number + off && all[|all| - 1].number == all[0].number + |all| - 1;
  }
}
