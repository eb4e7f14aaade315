/** What holds in every state the channel manager can reach from its start. */
module BatcherTheorems {
  import opened Prelude
  import opened Manager
  import opened ManagerInv
  import opened SyncActions
  import opened ManagerInvalidate
  import opened ManagerReceipts
  import R = ManagerRuns
  import C = Channels

  lemma InitialLinked(cfg: C.Config)
    ensures Linked(Initial(cfg))
  {
  }

  ghost predicate Reaches(cfg: C.Config, ops: seq<R.Op>, m: Mgr) {
    InitialLinked(cfg);
    cfg.Checked() && R.LegalRun(Initial(cfg), ops) && R.Run(Initial(cfg), ops) == Some(m)
  }

  lemma ReachableInv(cfg: C.Config, ops: seq<R.Op>, m: Mgr)
    requires Reaches(cfg, ops, m)
    ensures Inv(m)
  {
    hide Inv, R.LegalRun, R.Run;
    InitialLinked(cfg);
    InitialInv(cfg);
    R.RunInv(Initial(cfg), ops);
  }

  /** The processed blocks are the most recent ones held by the queued channels, in queue order; with the
      unprocessed ones they form one parent-hash chain; and the current channel is the newest one. */
  lemma BlocksInOrder(cfg: C.Config, ops: seq<R.Op>, m: Mgr)
    requires Reaches(cfg, ops, m)
    ensures m.blockCursor <= |m.blocks|
    ensures IsSuffix(m.blocks[..m.blockCursor], Held(m.channels, m.queue))
    ensures Chain(AllBlocks(m)) && AllBlocks(m) == Held(m.channels, m.queue) + m.blocks[m.blockCursor..]
    ensures m.current.Some? ==> |m.queue| > 0 && m.current.value == m.queue[|m.queue| - 1]
  {
    hide Chain, Held, TxsInv, ChannelsInv, LatestInv, Settled, Linked, Reaches;
    ReachableInv(cfg, ops, m);
    var held, n := Held(m.channels, m.queue), m.blockCursor;
    var rest := m.blocks[n..];
    assert From(m.blocks, n) == rest;
    assert m.blocks == m.blocks[..n] + rest;
    SplitSuffix(m.blocks[..n], held, rest);
  }

  lemma SplitSuffix<T>(a: seq<T>, b: seq<T>, rest: seq<T>)
    requires IsSuffix(a + rest, b + rest)
    ensures IsSuffix(a, b)
  {
    var k := |b| - |a|;
    assert a == (a + rest)[..|a|] == (b + rest)[k..][..|a|] == b[k..];
  }

  /** From the start, a run without a restart leaves exactly the loaded blocks to deliver, each once and in
      order, less a prefix that some sync status declared safe. */
  lemma BlocksConserved(cfg: C.Config, ops: seq<R.Op>, m: Mgr)
    requires Reaches(cfg, ops, m) && Linked(Initial(cfg)) && R.NeverRestarts(Initial(cfg), ops)
    ensures DropsBelow(R.AllLoaded(Initial(cfg), ops), AllBlocks(m), R.MaxSafeLimit(ops))
  {
    hide Inv, R.LegalRun, R.Run, R.NeverRestarts, R.AllLoaded, DropsBelow;
    InitialInv(cfg);
    R.RunConservesBlocks(Initial(cfg), ops);
    assert AllBlocks(Initial(cfg)) + R.AllLoaded(Initial(cfg), ops) == R.AllLoaded(Initial(cfg), ops);
  }

  /** Every frame below a channel's cursor is in a pending or confirmed transaction of it, and in a confirmed
      one when the channel is fully submitted; and it carries what the channel out produced for its number. */
  lemma FramesDelivered(cfg: C.Config, ops: seq<R.Op>, m: Mgr, k: nat, i: nat) returns (id: C.TxId)
    requires Reaches(cfg, ops, m) && k in m.channels
    requires i < m.channels[k].frameCursor || (m.channels[k].IsFullySubmitted() && i < |m.channels[k].frames|)
    ensures id in m.channels[k].pending || id in m.channels[k].confirmed
    ensures m.channels[k].IsFullySubmitted() ==> id in m.channels[k].confirmed
    ensures i < |m.channels[k].frames| == |m.channels[k].history.output| && m.channels[k].frames[i].id in id
    ensures m.channels[k].frames[i] == C.Frame(C.FrameId(k, i), m.channels[k].history.output[i])
  {
    var c := m.channels[k];
    ChannelInv(cfg, ops, m, k);
    if c.IsFullySubmitted() && i < |c.frames| {
      id := C.FullySubmittedDelivered(c, i);
    } else {
      id := C.FrameDelivered(c, i);
    }
  }

  lemma ChannelInv(cfg: C.Config, ops: seq<R.Op>, m: Mgr, k: nat)
    requires Reaches(cfg, ops, m) && k in m.channels
    ensures C.Inv(m.channels[k]) && m.channels[k].id == k
  {
    hide C.Inv, Reaches, TxsInv, LatestInv, BlocksInv, QueueInv;
    ReachableInv(cfg, ops, m);
  }

  /** Whatever failed and was re-issued: a frame was only ever sent in one and the same transaction. */
  lemma FrameAlwaysInSameTx(cfg: C.Config, ops: seq<R.Op>, m: Mgr, k: nat, i: nat, j: nat, f: C.Frame)
    requires Reaches(cfg, ops, m) && k in m.channels
    requires i < |m.channels[k].history.draws| && j < |m.channels[k].history.draws|
    requires f in m.channels[k].history.draws[i] && f in m.channels[k].history.draws[j]
    ensures C.IdOf(m.channels[k].history.draws[i]) == C.IdOf(m.channels[k].history.draws[j])
  {
    ChannelInv(cfg, ops, m, k);
    C.ResubmissionStable(m.channels[k], i, j, f);
  }

  /** In every reachable state, whatever failed and was drawn again: each frame a channel ever sent carries exactly the
      bytes its channel out produced for the frame's number. */
  lemma SentBytes(cfg: C.Config, ops: seq<R.Op>, m: Mgr, k: nat, i: nat, f: C.Frame)
    requires Reaches(cfg, ops, m) && k in m.channels
    requires i < |m.channels[k].history.draws| && f in m.channels[k].history.draws[i]
    ensures f.id.ch == k && f.id.number < |m.channels[k].history.output|
    ensures f.data == m.channels[k].history.output[f.id.number]
  {
    hide Reaches, C.Inv;
    ChannelInv(cfg, ops, m, k);
    C.DrawnBytes(m.channels[k], i, f);
  }

  /** For a queued channel, a transaction is pending iff the index maps it to that channel. */
  lemma TxIndexAgrees(cfg: C.Config, ops: seq<R.Op>, m: Mgr, k: nat, id: C.TxId)
    requires Reaches(cfg, ops, m) && k in m.queue
    ensures k in m.channels
    ensures id in m.channels[k].pending <==> id in m.txs && m.txs[id] == k
  {
    hide C.Inv, Reaches, ChannelsInv, LatestInv, BlocksInv, QueueInv;
    ReachableInv(cfg, ops, m);
    assert Awaits(m.channels, k, id) <==> id in m.channels[k].pending;
  }

  /** A confirmation panics iff it times out a channel with blocks that was pruned, or a queued one whose first block
      was. `heights` is the number of each L2 block hash. */
  lemma ConfirmPanicsExactly(cfg: C.Config, ops: seq<R.Op>, m: Mgr, id: C.TxId, inclusion: nat, heights: nat -> nat)
    requires Reaches(cfg, ops, m) && Linked(m) && inclusion <= MAX_UINT64
    requires forall i :: 0 <= i < |ops| ==> Consistent(ops[i], heights)
    ensures TxConfirmed(m, id, inclusion).None? <==>
      && TimesOut(m, id, inclusion) && m.channels[m.txs[id]].blocks != []
      && (m.txs[id] in m.queue ==> FirstBlockPruned(m, m.txs[id]))
  {
    hide Inv, R.LegalRun, R.Run, TxConfirmed, TimesOut, FirstBlockPruned;
    InitialLinked(cfg);
    InitialInv(cfg);
    RunPassed(Initial(cfg), ops, heights);
    ConfirmPanics(m, id, inclusion, heights);
  }
}
