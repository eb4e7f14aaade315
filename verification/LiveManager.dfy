/** The mutable channel manager (op-batcher/batcher/channel_manager.go): its methods, with their loops over
    blocks, channels and transactions, compute the functions of module Manager. */
module LiveManager {
  import opened Prelude
  import opened LiveChannels
  import C = Channels
  import M = Manager

  class ChannelManager {
    var blocks: seq<C.Block>
    var blockCursor: nat
    var lastL1: nat
    var defaultCfg: C.Config
    var tip: nat
    var currentChannel: LiveChannel?
    var channelQueue: seq<LiveChannel>
    var txChannels: map<C.TxId, LiveChannel>
    /** Every channel created so far, by id. */
    ghost var all: map<nat, LiveChannel>

    ghost predicate Known(c: LiveChannel)
      reads this
    {
      c.id in all && all[c.id] == c
    }

    ghost predicate Valid()
      reads this
    {
      && (forall k :: k in all ==> all[k].id == k)
      && (forall i :: 0 <= i < |channelQueue| ==> Known(channelQueue[i]))
      && (currentChannel != null ==> Known(currentChannel))
      && (forall id :: id in txChannels ==> Known(txChannels[id]))
    }

    ghost function View(): (m: M.Mgr)
      reads this, all.Values
      requires Valid()
      ensures M.Linked(m)
    {
      M.Mgr(blocks, blockCursor, lastL1, defaultCfg, tip,
            if currentChannel == null then None else Some(currentChannel.id),
            Ids(channelQueue),
            TxIds(txChannels), Views(all))
    }

    static ghost function TxIds(txs: map<C.TxId, LiveChannel>): map<C.TxId, nat> {
      map id | id in txs :: txs[id].id
    }

    static ghost function Views(cs: map<nat, LiveChannel>): map<nat, C.Channel>
      reads cs.Values
    {
      map k | k in cs :: cs[k].View()
    }

    static ghost function Ids(cs: seq<LiveChannel>): seq<nat> {
      seq(|cs|, i requires 0 <= i < |cs| => cs[i].id)
    }

    constructor (cfg: C.Config)
      ensures Valid() && View() == M.Initial(cfg)
    {
      blocks, blockCursor, lastL1, defaultCfg, tip := [], 0, 0, cfg, 0;
      currentChannel, channelQueue, txChannels, all := null, [], map[], map[];
    }

    /** Only channel `c` changed. */
    twostate lemma ChannelChanged(c: LiveChannel)
      requires old(Valid()) && Valid() && all == old(all) && Known(c)
      requires forall k :: k in all && k != c.id ==> unchanged(all[k])
      ensures Views(all) == old(Views(all))[c.id := c.View()]
    {
      forall k | k in all && k != c.id ensures all[k].View() == old(all[k].View()) {}
    }

    method AddL2Block(b: C.Block) returns (ok: bool)
      requires Valid()
      modifies this
      ensures Valid() && all == old(all)
      ensures M.AddL2Block(old(View()), b) == if ok then Some(View()) else None
      ensures !ok ==> View() == old(View())
    {
      hide M.Linked, Views, TxIds, Ids;
      if tip != 0 && tip != b.parent { return false; }
      blocks := blocks + [b];
      tip := b.hash;
      return true;
    }

    method Clear(l1Origin: nat)
      requires Valid()
      modifies this
      ensures Valid() && all == old(all) && View() == M.Clear(old(View()), l1Origin)
    {
      hide M.Linked, Views, Ids, TxIds;
      NothingNamed();
      blocks, blockCursor, lastL1, tip := [], 0, l1Origin, 0;
      currentChannel, channelQueue, txChannels := null, [], map[];
    }

    static lemma NothingNamed()
      ensures Ids([]) == [] && TxIds(map[]) == map[]
    {
    }

    method PruneSafeBlocks(num: nat) returns (panicked: bool)
      requires Valid()
      modifies this
      ensures Valid() && all == old(all)
      ensures M.PruneSafeBlocks(old(View()), num) == if panicked then None else Some(View())
    {
      hide M.Linked, Views, TxIds, Ids;
      if num > |blocks| { return true; }
      blocks := blocks[num..];
      blockCursor := if blockCursor < num then 0 else blockCursor - num;
      return false;
    }

    method PruneChannels(num: nat) returns (panicked: bool)
      requires Valid()
      modifies this
      ensures Valid() && all == old(all)
      ensures M.PruneChannels(old(View()), num) == if panicked then None else Some(View())
    {
      hide M.Linked, Views, TxIds;
      if num > |channelQueue| { return true; }
      var clear := false;
      for i := 0 to num
        invariant clear <==> currentChannel != null && currentChannel in channelQueue[..i]
      {
        if channelQueue[i] == currentChannel { clear := true; }
      }
      ghost var pruned := channelQueue[..num];
      IdsMembership(pruned, currentChannel);
      assert Ids(channelQueue)[..num] == Ids(pruned);
      assert Ids(channelQueue)[num..] == Ids(channelQueue[num..]);
      channelQueue := channelQueue[num..];
      if clear { currentChannel := null; }
      return false;
    }

    lemma IdsMembership(cs: seq<LiveChannel>, c: LiveChannel?)
      requires Valid() && forall i :: 0 <= i < |cs| ==> Known(cs[i])
      requires c != null ==> Known(c)
      ensures c != null ==> (c in cs <==> c.id in Ids(cs))
    {
      if c != null && c.id in Ids(cs) {
        var i :| 0 <= i < |cs| && Ids(cs)[i] == c.id;
        assert cs[i] == c;
      }
      if c != null && c in cs {
        var i :| 0 <= i < |cs| && cs[i] == c;
        assert Ids(cs)[i] == c.id;
      }
    }

    method RewindToBlock(b: C.Block) returns (panicked: bool)
      requires Valid()
      modifies this
      ensures Valid() && all == old(all)
      ensures M.RewindToBlock(old(View()), b) == if panicked then None else Some(View())
      ensures channelQueue == old(channelQueue) && (panicked ==> View() == old(View()))
    {
      hide M.Linked, Views, TxIds, Ids;
      if |blocks| == 0 { return true; }
      var idx := Wrap64(b.number - blocks[0].number);
      if idx < |blocks| && blocks[idx].hash == b.hash && idx < blockCursor {
        blockCursor := idx;
        return false;
      }
      return true;
    }

    /** The position of `c`, 0 when it is not queued. */
    method FindChannel(c: LiveChannel) returns (idx: nat)
      requires Valid() && Known(c)
      ensures idx == M.IndexOf(View().queue, c.id) <= |channelQueue|
    {
      idx := 0;
      var i := 0;
      while i < |channelQueue|
        invariant i <= |channelQueue| && c !in channelQueue[..i]
      {
        if channelQueue[i] == c {
          FirstPosition(i, c);
          return i;
        }
        i := i + 1;
      }
      IdsMembership(channelQueue, c);
    }

    lemma FirstPosition(i: nat, c: LiveChannel)
      requires Valid() && Known(c) && i < |channelQueue| && channelQueue[i] == c && c !in channelQueue[..i]
      ensures M.IndexOf(View().queue, c.id) == i
    {
      var queue := View().queue;
      IdsMembership(channelQueue[..i], c);
      assert queue[..i] == Ids(channelQueue[..i]);
      assert queue[i] == c.id;
      M.IndexOfFirst(queue, c.id, i);
    }

    /** Deletes the transactions of every channel from position `idx` on. */
    method ForgetTxs(idx: nat)
      requires Valid() && idx <= |channelQueue|
      modifies this`txChannels
      ensures txChannels ==
        map id | id in old(txChannels) && old(txChannels)[id] !in channelQueue[idx..] :: old(txChannels)[id]
    {
      for i := idx to |channelQueue|
        invariant txChannels ==
          map id | id in old(txChannels) && old(txChannels)[id] !in channelQueue[idx..i] :: old(txChannels)[id]
      {
        assert channelQueue[idx..i + 1] == channelQueue[idx..i] + [channelQueue[i]];
        txChannels := map id | id in txChannels && txChannels[id] != channelQueue[i] :: txChannels[id];
      }
      assert channelQueue[idx..|channelQueue|] == channelQueue[idx..];
    }

    lemma ForgottenTxs(idx: nat, txs: map<C.TxId, LiveChannel>)
      requires Valid() && idx <= |channelQueue| && forall id :: id in txs ==> Known(txs[id])
      ensures TxIds(map id | id in txs && txs[id] !in channelQueue[idx..] :: txs[id]) ==
        map id | id in TxIds(txs) && TxIds(txs)[id] !in Ids(channelQueue)[idx..] :: TxIds(txs)[id]
    {
      var dropped := channelQueue[idx..];
      assert Ids(channelQueue)[idx..] == Ids(dropped);
      forall id | id in txs ensures txs[id] in dropped <==> txs[id].id in Ids(dropped) {
        IdsMembership(dropped, txs[id]);
      }
    }

    method DropFrom(idx: nat)
      requires Valid() && idx <= |channelQueue|
      modifies this
      ensures Valid() && all == old(all) && View() == M.Trim(old(View()), idx)
    {
      hide M.Linked, Views;
      ForgottenTxs(idx, txChannels);
      ForgetTxs(idx);
      assert Ids(channelQueue)[..idx] == Ids(channelQueue[..idx]);
      channelQueue := channelQueue[..idx];
      currentChannel := null;
    }

    method HandleChannelInvalidated(c: LiveChannel) returns (panicked: bool)
      requires Valid() && Known(c)
      modifies this
      ensures Valid() && all == old(all)
      ensures M.Invalidate(old(View()), c.id) == if panicked then None else Some(View())
      ensures panicked ==> View() == old(View())
    {
      hide M.Linked, M.Trim, M.RewindToBlock;
      panicked := false;
      if |c.blocks| > 0 {
        panicked := RewindToBlock(c.blocks[0]);
        if panicked { return; }
      }
      var idx := FindChannel(c);
      DropFrom(idx);
    }

    method TxFailed(id: C.TxId) returns (panicked: bool)
      requires Valid()
      modifies this, all.Values
      ensures Valid() && all == old(all)
      ensures M.TxFailed(old(View()), id) == if panicked then None else Some(View())
    {
      hide M.Linked, C.TxFailed;
      if id !in txChannels { return false; }
      var c := txChannels[id];
      txChannels := txChannels - {id};
      assert TxIds(txChannels) == TxIds(old(txChannels)) - {id};
      panicked := c.TxFailed(id);
      ChannelChanged(c);
    }

    method TxConfirmed(id: C.TxId, inclusion: nat) returns (panicked: bool)
      requires Valid()
      modifies this, all.Values
      ensures Valid() && all == old(all)
      ensures M.TxConfirmed(old(View()), id, inclusion) == if panicked then None else Some(View())
    {
      hide M.Linked, C.TxConfirmed, M.Invalidate;
      if id !in txChannels { return false; }
      var c := txChannels[id];
      txChannels := txChannels - {id};
      assert TxIds(txChannels) == TxIds(old(txChannels)) - {id};
      var timedOut := c.TxConfirmed(id, inclusion);
      ChannelChanged(c);
      if timedOut { panicked := HandleChannelInvalidated(c); } else { panicked := false; }
    }

    method FirstWithTxData() returns (c: LiveChannel?)
      requires Valid()
      ensures M.FirstWithTxData(View(), View().queue) == if c == null then None else Some(c.id)
      ensures c != null ==> Known(c)
    {
      ghost var queue := View().queue;
      var i := 0;
      while i < |channelQueue|
        invariant i <= |channelQueue|
        invariant M.FirstWithTxData(View(), queue) == M.FirstWithTxData(View(), queue[i..])
      {
        if channelQueue[i].HasTxData() { return channelQueue[i]; }
        i := i + 1;
      }
      return null;
    }

    /** Channels are never forgotten, and new ones are fresh objects. */
    twostate predicate Extended()
      reads this
    {
      && (forall k :: k in old(all) ==> k in all && all[k] == old(all)[k])
      && (forall k :: k in all && k !in old(all) ==> fresh(all[k]))
    }

    method OpenChannel(id: nat)
      requires Valid() && id !in all
      modifies this
      ensures Valid() && Extended() && all.Keys == old(all.Keys) + {id}
      ensures View() == old(View()).(channels := old(Views(all))[id := C.NewChannel(id, defaultCfg, lastL1)],
                                     current := Some(id), queue := old(View()).queue + [id])
    {
      hide M.Linked, C.NewChannel, Ids, Views, TxIds;
      var c := new LiveChannel(id, defaultCfg, lastL1);
      all := all[id := c];
      currentChannel := c;
      channelQueue := channelQueue + [c];
      IdsAppend(old(channelQueue), c);
      ChannelAdded(c);
    }

    static lemma IdsAppend(cs: seq<LiveChannel>, c: LiveChannel)
      ensures Ids(cs + [c]) == Ids(cs) + [c.id]
    {
    }

    twostate lemma ChannelAdded(new c: LiveChannel)
      requires all == old(all)[c.id := c] && c.id !in old(all)
      requires forall k :: k in old(all) ==> unchanged(old(all)[k])
      ensures Views(all) == old(Views(all))[c.id := c.View()]
    {
      forall k | k in old(all) ensures all[k].View() == old(all[k].View()) {}
    }

    method EnsureChannelWithSpace(env: M.Env) returns (ok: bool)
      requires Valid() && env.newId !in all
      modifies this
      ensures Valid() && (View(), ok) == M.EnsureChannelWithSpace(old(View()), env)
      ensures Extended() && all.Keys <= old(all.Keys) + {env.newId}
    {
      hide M.Linked, C.NewChannel, Ids, TxIds;
      if currentChannel != null && !currentChannel.IsFull() { return true; }
      if !env.factoryOk { return false; }
      OpenChannel(env.newId);
      return true;
    }

    /** The loop of processBlocks: adds blocks from the cursor on, and counts them. */
    method FillChannel(adds: C.Block -> C.AddReply) returns (added: nat, ok: bool)
      requires Valid() && currentChannel != null
      modifies currentChannel
      ensures (currentChannel.View(), added, ok) ==
        M.AddBlocks(old(currentChannel.View()), M.From(blocks, blockCursor), adds)
    {
      hide C.AddBlock, M.AddBlocks, Valid;
      ghost var c0, pending := currentChannel.View(), M.From(blocks, blockCursor);
      added := 0;
      ok := true;
      assert pending[0..] == pending;
      while blockCursor + added < |blocks|
        invariant added <= |pending|
        invariant var (c, n, o) := M.AddBlocks(currentChannel.View(), pending[added..], adds);
          M.AddBlocks(c0, pending, adds) == (c, n + added, o)
      {
        var b := blocks[blockCursor + added];
        M.AddBlocksStep(currentChannel.View(), pending[added..], adds);
        assert pending[added..][0] == b && pending[added..][1..] == pending[added + 1..];
        var result := currentChannel.AddBlock(b, adds(b));
        if result == C.ChannelFull { return; }
        if result == C.AddFailed { return added, false; }
        added := added + 1;
        if currentChannel.IsFull() { return; }
      }
      M.AddBlocksNone(currentChannel.View(), adds);
    }

    method ProcessBlocks(adds: C.Block -> C.AddReply) returns (ok: bool)
      requires Valid() && currentChannel != null
      modifies this`blockCursor, currentChannel
      ensures Valid() && (View(), ok) == M.ProcessBlocks(old(View()), adds)
    {
      hide M.Linked, M.AddBlocks, M.From, Views, Ids, TxIds;
      CurrentView();
      var added;
      added, ok := FillChannel(adds);
      ChannelChanged(currentChannel);
      blockCursor := blockCursor + added;
    }

    method RegisterL1Block(l1Head: nat)
      requires Valid() && currentChannel != null
      modifies currentChannel
      ensures Valid() && View() == M.RegisterL1Block(old(View()), l1Head)
    {
      hide M.Linked, C.CheckTimeout;
      currentChannel.CheckTimeout(l1Head);
      ChannelChanged(currentChannel);
    }

    method OutputFrames(feed: C.FrameFeed) returns (ok: bool)
      requires Valid() && currentChannel != null
      modifies currentChannel
      ensures Valid() && (View(), ok) == M.OutputFrames(old(View()), feed)
    {
      hide M.Linked, C.OutputFrames;
      ok := currentChannel.OutputFrames(feed);
      ChannelChanged(currentChannel);
    }

    method ForceClose(feed: C.FrameFeed) returns (ok: bool)
      requires Valid() && currentChannel != null
      modifies currentChannel
      ensures Valid() && (View(), ok) == M.ForceClose(old(View()), feed)
    {
      hide M.Linked, C.Close, M.OutputFrames;
      currentChannel.Close();
      ChannelChanged(currentChannel);
      ok := OutputFrames(feed);
    }

    method FillCurrent(l1Head: nat, pi: M.PubInfo, env: M.Env) returns (r: M.Ready, c: LiveChannel?)
      requires Valid() && env.newId !in all
      modifies this, all.Values
      ensures Valid() && Extended() && all.Keys <= old(all.Keys) + {env.newId}
      ensures (View(), r) == M.FillCurrent(old(View()), l1Head, pi, env)
      ensures r.Got? ==> c != null && Known(c) && c.id == r.id
    {
      hide M.Linked, M.EnsureChannelWithSpace, M.ProcessBlocks, M.RegisterL1Block, M.OutputFrames, Ids, TxIds, Views;
      c := null;
      var ok := EnsureChannelWithSpace(env);
      if !ok { return M.Failed, c; }
      ok := ProcessBlocks(env.adds);
      if !ok { return M.Failed, c; }
      if !pi.ignoreMaxChannelDuration { RegisterL1Block(l1Head); }
      ok := OutputFrames(env.feed);
      if !ok { return M.Failed, c; }
      CurrentView();
      if currentChannel.HasTxData() { return M.Got(currentChannel.id), currentChannel; }
      return M.NoData, c;
    }

    lemma CurrentView()
      requires Valid() && currentChannel != null
      ensures M.Current(View()) == currentChannel.View()
    {
    }

    lemma KnownView(c: LiveChannel)
      requires Valid() && Known(c)
      ensures View().channels[c.id] == c.View()
    {
    }

    static lemma TxIdsAdd(txs: map<C.TxId, LiveChannel>, id: C.TxId, c: LiveChannel)
      ensures TxIds(txs[id := c]) == TxIds(txs)[id := c.id]
    {
    }

    method GetReadyChannel(l1Head: nat, pi: M.PubInfo, env: M.Env) returns (r: M.Ready, c: LiveChannel?)
      requires Valid() && env.newId !in all
      modifies this, all.Values
      ensures Valid() && Extended() && all.Keys <= old(all.Keys) + {env.newId}
      ensures (View(), r) == M.GetReadyChannel(old(View()), l1Head, pi, env)
      ensures r.Got? ==> c != null && Known(c) && c.id == r.id
      ensures r.Got? ==> c in old(all.Values) || fresh(c)
    {
      hide M.Linked, M.FillCurrent, M.ForceClose, M.FirstWithTxData, Ids, TxIds, Views;
      c := null;
      if pi.forcePublish {
        if currentChannel == null { return M.Crashed, c; }
        CurrentView();
        if |currentChannel.frames| == 0 {
          var ok := ForceClose(env.forceFeed);
          if !ok { return M.Failed, c; }
        }
      }
      c := FirstWithTxData();
      if c != null { return M.Got(c.id), c; }
      if blockCursor == |blocks| { return M.NoData, c; }
      r, c := FillCurrent(l1Head, pi, env);
    }

    method NextTxData(c: LiveChannel) returns (out: M.TxOut)
      requires Valid() && Known(c)
      modifies this, c
      ensures Valid() && all == old(all) && (View(), out) == M.NextTxData(old(View()), c.id)
    {
      hide M.Linked, C.NextTxData, Ids, Views, TxIds;
      KnownView(c);
      if !c.HasTxData() { return M.EndOfData; }
      if c.latestL1 > lastL1 { lastL1 := c.latestL1; }
      var tx := c.NextTxData();
      ChannelChanged(c);
      txChannels := txChannels[C.IdOf(tx) := c];
      TxIdsAdd(old(txChannels), C.IdOf(tx), c);
      return M.Tx(tx);
    }

    method RequeueAndRetry(c: LiveChannel, l1Head: nat, pi: M.PubInfo, newCfg: C.Config,
                           env: M.Env) returns (out: M.TxOut)
      requires Valid() && Known(c) && env.newId !in all
      modifies this, all.Values
      ensures Valid() && Extended()
      ensures (View(), out) == M.RequeueAndRetry(old(View()), c.id, l1Head, pi, newCfg, env)
    {
      hide M.Linked, M.GetReadyChannel, M.NextTxData, M.Invalidate, Ids, TxIds, Views;
      var panicked := HandleChannelInvalidated(c);
      if panicked { return M.Panic; }
      defaultCfg := newCfg;
      var r, next := GetReadyChannel(l1Head, pi, env);
      if !r.Got? { return M.FromReady(r); }
      out := NextTxData(next);
    }

    method SubmitFrom(c: LiveChannel, l1Head: nat, pi: M.PubInfo, newCfg: C.Config, env: M.Env) returns (out: M.TxOut)
      requires Valid() && Known(c) && env.newId !in all
      modifies this, all.Values
      ensures Valid() && Extended()
      ensures (View(), out) == M.SubmitFrom(old(View()), c.id, l1Head, pi, newCfg, env)
    {
      hide M.Linked, M.NextTxData, M.RequeueAndRetry, Ids, TxIds, Views;
      KnownView(c);
      if !c.NoneSubmitted() || newCfg.useBlobs == defaultCfg.useBlobs {
        out := NextTxData(c);
      } else {
        out := RequeueAndRetry(c, l1Head, pi, newCfg, env);
      }
    }

    /** `newCfg` is what the configuration provider would answer. */
    method TxData(l1Head: nat, pi: M.PubInfo, newCfg: C.Config, env: M.Env, retryEnv: M.Env) returns (out: M.TxOut)
      requires Valid() && env.newId !in all && retryEnv.newId !in all && env.newId != retryEnv.newId
      modifies this, all.Values
      ensures Valid() && Extended()
      ensures (View(), out) == M.TxData(old(View()), l1Head, pi, newCfg, env, retryEnv)
    {
      hide M.Linked, M.GetReadyChannel, M.SubmitFrom, Ids, TxIds, Views, Known;
      var r, c := GetReadyChannel(l1Head, pi, env);
      if !r.Got? { return M.FromReady(r); }
      out := SubmitFrom(c, l1Head, pi, newCfg, retryEnv);
    }
  }
}
