/** The channel manager as a value, with the function each of its methods computes
    (op-batcher/batcher/channel_manager.go). */
module Manager {
  import opened Prelude
  import C = Channels

  /** Channels are named by id; `channels` holds every channel object that still exists.
      `current` and `queue` and the values of `txs` are references into it. */
  datatype Mgr = Mgr(
    blocks: seq<C.Block>, blockCursor: nat, lastL1: nat, cfg: C.Config, tip: nat,
    current: Option<nat>, queue: seq<nat>, txs: map<C.TxId, nat>, channels: map<nat, C.Channel>)

  datatype PubInfo = PubInfo(forcePublish: bool, ignoreMaxChannelDuration: bool)

  /** What the channel out and its factory answer during one getReadyChannel call. */
  datatype Env = Env(newId: nat, factoryOk: bool, adds: C.Block -> C.AddReply, forceFeed: C.FrameFeed,
                     feed: C.FrameFeed)

  datatype Ready = Got(id: nat) | NoData | Failed | Crashed
  datatype TxOut = Tx(frames: seq<C.Frame>) | EndOfData | Error | Panic

  /** References point at existing channels. */
  predicate Linked(m: Mgr) {
    && (forall k :: k in m.channels ==> m.channels[k].id == k)
    && (forall i :: 0 <= i < |m.queue| ==> m.queue[i] in m.channels)
    && (m.current.Some? ==> m.current.value in m.channels)
    && (forall id :: id in m.txs ==> m.txs[id] in m.channels)
  }

  function Initial(cfg: C.Config): Mgr {
    Mgr([], 0, 0, cfg, 0, None, [], map[], map[])
  }

  function SetChannel(m: Mgr, c: C.Channel): (r: Mgr)
    requires Linked(m) && c.id in m.channels
    ensures Linked(r)
  {
    m.(channels := m.channels[c.id := c])
  }

  function Current(m: Mgr): C.Channel
    requires Linked(m) && m.current.Some?
  {
    m.channels[m.current.value]
  }

  // ----- Loading, clearing, pruning -----

  /** None is ErrReorg. */
  function AddL2Block(m: Mgr, b: C.Block): Option<Mgr> {
    if m.tip != 0 && m.tip != b.parent then None
    else Some(m.(blocks := m.blocks + [b], tip := b.hash))
  }

  function Clear(m: Mgr, l1Origin: nat): Mgr {
    m.(blocks := [], blockCursor := 0, lastL1 := l1Origin, tip := 0, current := None, queue := [], txs := map[])
  }

  /** None is the panic on pruning more blocks than there are. */
  function PruneSafeBlocks(m: Mgr, num: nat): Option<Mgr> {
    if num > |m.blocks| then None
    else Some(m.(blocks := m.blocks[num..], blockCursor := Max(m.blockCursor - num, 0)))
  }

  /** None is the index panic on pruning more channels than there are. */
  function PruneChannels(m: Mgr, num: nat): Option<Mgr> {
    if num > |m.queue| then None
    else Some(m.(queue := m.queue[num..],
                 current := if m.current.Some? && m.current.value in m.queue[..num] then None else m.current))
  }

  // ----- Invalidation -----

  /** None is either panic: block index out of range, or no such block below the cursor. */
  function RewindToBlock(m: Mgr, b: C.Block): Option<Mgr> {
    if |m.blocks| == 0 then None
    else
      var idx := Wrap64(b.number - m.blocks[0].number);
      if idx < |m.blocks| && m.blocks[idx].hash == b.hash && idx < m.blockCursor
      then Some(m.(blockCursor := idx)) else None
  }

  /** The first position of `id`, or 0 when it is not in the queue. */
  function IndexOf(queue: seq<nat>, id: nat): (i: nat)
    ensures i <= |queue|
    ensures id in queue ==> i < |queue| && queue[i] == id && id !in queue[..i]
    ensures id !in queue ==> i == 0
  {
    if id !in queue then 0
    else if queue[0] == id then 0
    else 1 + IndexOf(queue[1..], id)
  }

  lemma {:induction false} IndexOfFirst(queue: seq<nat>, id: nat, i: nat)
    requires i < |queue| && queue[i] == id && id !in queue[..i]
    ensures IndexOf(queue, id) == i
  {
    if i > 0 {
      assert queue[0] in queue[..i];
      assert queue[1..][..i - 1] == queue[..i][1..];
      IndexOfFirst(queue[1..], id, i - 1);
    }
  }

  /** Drops the channels from position `i` on, and every transaction of theirs. */
  function Trim(m: Mgr, i: nat): Mgr
    requires i <= |m.queue|
  {
    m.(queue := m.queue[..i], current := None,
       txs := map id | id in m.txs && m.txs[id] !in m.queue[i..] :: m.txs[id])
  }

  function Invalidate(m: Mgr, k: nat): (r: Option<Mgr>)
    requires Linked(m) && k in m.channels
    ensures r.Some? ==> Linked(r.value) && r.value.channels == m.channels
    ensures r.Some? ==> r.value.blocks == m.blocks && r.value.blockCursor <= m.blockCursor
  {
    var c := m.channels[k];
    match if |c.blocks| > 0 then RewindToBlock(m, c.blocks[0]) else Some(m)
    case None => None
    case Some(m1) => Some(Trim(m1, IndexOf(m1.queue, k)))
  }

  // ----- Receipts -----

  function TxFailed(m: Mgr, id: C.TxId): (r: Option<Mgr>)
    requires Linked(m)
    ensures r.Some? ==> Linked(r.value)
  {
    if id !in m.txs then Some(m)
    else
      var k := m.txs[id];
      match C.TxFailed(m.channels[k], id)
      case None => None
      case Some(c) => Some(m.(txs := m.txs - {id}, channels := m.channels[k := c]))
  }

  /** The manager after the receipt is recorded, before a timed-out channel is invalidated. */
  function RecordConfirmed(m: Mgr, id: C.TxId, inclusion: nat): (r: Mgr)
    requires Linked(m) && id in m.txs
    ensures Linked(r) && m.txs[id] in r.channels
  {
    var k := m.txs[id];
    m.(txs := m.txs - {id}, channels := m.channels[k := C.TxConfirmed(m.channels[k], id, inclusion)])
  }

  predicate TimesOut(m: Mgr, id: C.TxId, inclusion: nat)
    requires Linked(m)
  {
    && id in m.txs
    && id in m.channels[m.txs[id]].pending
    && C.TxConfirmed(m.channels[m.txs[id]], id, inclusion).IsTimedOut()
  }

  function TxConfirmed(m: Mgr, id: C.TxId, inclusion: nat): (r: Option<Mgr>)
    requires Linked(m)
    ensures r.Some? ==> Linked(r.value)
  {
    if id !in m.txs then Some(m)
    else if TimesOut(m, id, inclusion) then Invalidate(RecordConfirmed(m, id, inclusion), m.txs[id])
    else Some(RecordConfirmed(m, id, inclusion))
  }

  // ----- Building channels and drawing transactions -----

  function FirstWithTxData(m: Mgr, queue: seq<nat>): (r: Option<nat>)
    requires forall i :: 0 <= i < |queue| ==> queue[i] in m.channels
    ensures r.Some? ==> r.value in queue && m.channels[r.value].HasTxData()
  {
    if |queue| == 0 then None
    else if m.channels[queue[0]].HasTxData() then Some(queue[0])
    else FirstWithTxData(m, queue[1..])
  }

  function EnsureChannelWithSpace(m: Mgr, env: Env): (r: (Mgr, bool))
    requires Linked(m)
    ensures Linked(r.0) && (r.1 ==> r.0.current.Some?)
  {
    if m.current.Some? && !Current(m).IsFull() then (m, true)
    else if !env.factoryOk then (m, false)
    else
      (m.(channels := m.channels[env.newId := C.NewChannel(env.newId, m.cfg, m.lastL1)],
          current := Some(env.newId), queue := m.queue + [env.newId]), true)
  }

  /** Adds blocks to a channel until they run out, the channel is full, or one fails; also counts them. */
  function AddBlocks(c: C.Channel, bs: seq<C.Block>, adds: C.Block -> C.AddReply): (r: (C.Channel, nat, bool))
    ensures r.1 <= |bs| && r.0.id == c.id
    decreases |bs|
  {
    if |bs| == 0 then (c, 0, true)
    else
      var (c1, result) := C.AddBlock(c, bs[0], adds(bs[0]));
      match result
      case ChannelFull => (c1, 0, true)
      case AddFailed => (c1, 0, false)
      case BlockAdded =>
        if c1.IsFull() then (c1, 1, true)
        else
          var (c2, n, ok) := AddBlocks(c1, bs[1..], adds);
          (c2, n + 1, ok)
  }

  lemma AddBlocksNone(c: C.Channel, adds: C.Block -> C.AddReply)
    ensures AddBlocks(c, [], adds) == (c, 0, true)
  {
  }

  /** One round of the loop. */
  lemma AddBlocksStep(c: C.Channel, bs: seq<C.Block>, adds: C.Block -> C.AddReply)
    requires |bs| > 0
    ensures var (c1, result) := C.AddBlock(c, bs[0], adds(bs[0]));
      && (result == C.ChannelFull ==> AddBlocks(c, bs, adds) == (c1, 0, true))
      && (result == C.AddFailed ==> AddBlocks(c, bs, adds) == (c1, 0, false))
      && (result == C.BlockAdded && c1.IsFull() ==> AddBlocks(c, bs, adds) == (c1, 1, true))
      && (result == C.BlockAdded && !c1.IsFull() ==>
            var (c2, n, ok) := AddBlocks(c1, bs[1..], adds); AddBlocks(c, bs, adds) == (c2, n + 1, ok))
  {
    hide C.AddBlock;
  }

  /** The blocks PeekN finds from position `i` on. */
  function From(bs: seq<C.Block>, i: nat): seq<C.Block> {
    if i <= |bs| then bs[i..] else []
  }

  function ProcessBlocks(m: Mgr, adds: C.Block -> C.AddReply): (r: (Mgr, bool))
    requires Linked(m) && m.current.Some?
    ensures Linked(r.0) && r.0.current == m.current
  {
    var (c, n, ok) := AddBlocks(Current(m), From(m.blocks, m.blockCursor), adds);
    (SetChannel(m, c).(blockCursor := m.blockCursor + n), ok)
  }

  function RegisterL1Block(m: Mgr, l1Head: nat): (r: Mgr)
    requires Linked(m) && m.current.Some?
    ensures Linked(r) && r.current == m.current
  {
    SetChannel(m, C.CheckTimeout(Current(m), l1Head))
  }

  lemma {:induction false} OutputAllId(c: C.Channel, chunks: seq<Bytes>)
    ensures C.OutputAll(c, chunks).id == c.id
  {
    if |chunks| > 0 { OutputAllId(c, chunks[..|chunks| - 1]); }
  }

  function OutputFrames(m: Mgr, feed: C.FrameFeed): (r: (Mgr, bool))
    requires Linked(m) && m.current.Some?
    ensures Linked(r.0) && r.0.current == m.current
  {
    var (c, ok) := C.OutputFrames(Current(m), feed);
    assert c.id == Current(m).id by {
      OutputAllId(Current(m), feed.chunks);
      OutputAllId(Current(m).(closed := true), feed.chunks);
    }
    (SetChannel(m, c), ok)
  }

  function ForceClose(m: Mgr, feed: C.FrameFeed): (r: (Mgr, bool))
    requires Linked(m) && m.current.Some?
    ensures Linked(r.0)
  {
    OutputFrames(SetChannel(m, C.Close(Current(m))), feed)
  }

  /** The second half of getReadyChannel: no channel has data, so blocks are packed into the current one. */
  function FillCurrent(m: Mgr, l1Head: nat, pi: PubInfo, env: Env): (r: (Mgr, Ready))
    requires Linked(m)
    ensures Linked(r.0) && (r.1.Got? ==> r.1.id in r.0.channels)
  {
    var (m1, ok1) := EnsureChannelWithSpace(m, env);
    if !ok1 then (m1, Failed) else
    var (m2, ok2) := ProcessBlocks(m1, env.adds);
    if !ok2 then (m2, Failed) else
    var m3 := if pi.ignoreMaxChannelDuration then m2 else RegisterL1Block(m2, l1Head);
    var (m4, ok4) := OutputFrames(m3, env.feed);
    if !ok4 then (m4, Failed)
    else if Current(m4).HasTxData() then (m4, Got(m4.current.value))
    else (m4, NoData)
  }

  function GetReadyChannel(m: Mgr, l1Head: nat, pi: PubInfo, env: Env): (r: (Mgr, Ready))
    requires Linked(m)
    ensures Linked(r.0) && (r.1.Got? ==> r.1.id in r.0.channels)
  {
    if pi.forcePublish && m.current.None? then (m, Crashed)
    else
      var (m1, ok) := if pi.forcePublish && |Current(m).frames| == 0 then ForceClose(m, env.forceFeed) else (m, true);
      if !ok then (m1, Failed)
      else match FirstWithTxData(m1, m1.queue)
        case Some(k) => (m1, Got(k))
        case None => if m1.blockCursor == |m1.blocks| then (m1, NoData) else FillCurrent(m1, l1Head, pi, env)
  }

  function NextTxData(m: Mgr, k: nat): (r: (Mgr, TxOut))
    requires Linked(m) && k in m.channels
    ensures Linked(r.0)
  {
    var c := m.channels[k];
    if !c.HasTxData() then (m, EndOfData)
    else
      var (c1, tx) := C.NextTxData(c);
      (SetChannel(m, c1).(lastL1 := Max(m.lastL1, c.latestL1), txs := m.txs[C.IdOf(tx) := k]), Tx(tx))
  }

  function FromReady(r: Ready): TxOut
    requires !r.Got?
  {
    match r case NoData => EndOfData case Failed => Error case Crashed => Panic
  }

  /** Drops channel `k`, adopts the new configuration and tries once more to get data to send. */
  function RequeueAndRetry(m: Mgr, k: nat, l1Head: nat, pi: PubInfo, newCfg: C.Config, env: Env): (r: (Mgr, TxOut))
    requires Linked(m) && k in m.channels
    ensures Linked(r.0)
  {
    match Invalidate(m, k)
    case None => (m, Panic)
    case Some(m1) =>
      var (m2, r) := GetReadyChannel(m1.(cfg := newCfg), l1Head, pi, env);
      if !r.Got? then (m2, FromReady(r)) else NextTxData(m2, r.id)
  }

  /** TxData, given the configuration the provider would answer if asked. */
  function TxData(m: Mgr, l1Head: nat, pi: PubInfo, newCfg: C.Config, env: Env, retryEnv: Env): (r: (Mgr, TxOut))
    requires Linked(m)
    ensures Linked(r.0)
  {
    var (m1, r) := GetReadyChannel(m, l1Head, pi, env);
    if !r.Got? then (m1, FromReady(r)) else SubmitFrom(m1, r.id, l1Head, pi, newCfg, retryEnv)
  }

  /** Draws from ready channel `k`, unless the DA type is to be switched first. */
  function SubmitFrom(m: Mgr, k: nat, l1Head: nat, pi: PubInfo, newCfg: C.Config, env: Env): (r: (Mgr, TxOut))
    requires Linked(m) && k in m.channels
    ensures Linked(r.0)
  {
    if !Switches(m, k, newCfg) then NextTxData(m, k) else RequeueAndRetry(m, k, l1Head, pi, newCfg, env)
  }

  /** Nothing of channel `k` was submitted yet and the provider now prefers the other DA type. */
  predicate Switches(m: Mgr, k: nat, newCfg: C.Config)
    requires Linked(m) && k in m.channels
  {
    m.channels[k].NoneSubmitted() && newCfg.useBlobs != m.cfg.useBlobs
  }
}
