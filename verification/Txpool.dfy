/** The txpool state shared by the publishing loop and the receipts loop (op-batcher/batcher/driver.go).
    The receipts loop reads the state without the lock and writes it later under the lock; every step
    below is one such read or write, and steps of the two loops interleave freely. */
module Txpool {
  import opened Prelude
  import M = Manager
  import MI = ManagerInv
  import R = ManagerRuns
  import C = Channels

  datatype PoolState = Good | Blocked | CancelPending

  /** `isBlob` is what the reference says, `sentAsBlob` what the transaction is: they differ for a blob cancellation. */
  datatype TxRef = TxRef(id: C.TxId, isCancel: bool, isBlob: bool, sentAsBlob: bool)
  datatype Outcome = Failed(reserved: bool) | Included(l1Block: nat) | Unknown
  datatype Receipt = Receipt(tx: TxRef, outcome: Outcome)

  /** The publishing loop has released the lock and is about to send a cancellation. */
  datatype Publisher = Looping | Cancelling(blockedBlob: bool)

  /** Where the receipts loop is with the receipt in its hands. */
  datatype Receiver =
    | Idle
    | Got(r: Receipt)            // nothing read yet
    | SawGood(r: Receipt)        // about to write Blocked
    | NotReserved(r: Receipt)    // the first test failed
    | SawPending(r: Receipt)     // about to read the blocked type
    | SawBlob(r: Receipt, blob: bool) // about to write Good
    | Handling(r: Receipt)       // about to record the receipt

  /** `blockings` and `cancelsSent` count events; the other fields are the program's. */
  datatype Pool = Pool(state: PoolState, blockedBlob: bool, publisher: Publisher, receiver: Receiver,
                       batches: multiset<TxRef>, cancels: multiset<TxRef>, blockings: nat, cancelsSent: nat)

  function StartPool(): Pool {
    Pool(Good, false, Looping, Idle, multiset{}, multiset{}, 0, 0)
  }

  datatype PoolStep =
    | Check                       // the publishing loop's critical section
    | SendCancel
    | SendBatch(tx: TxRef)        // by the publishing loop or a DA request in the background
    | Deliver(r: Receipt)
    | TestReserved
    | SetBlocked
    | TestCancel
    | ReadBlob
    | SetGood
    | Record                      // the pool's part of handling: the receipt is done with

  /** The cancellation has no frames, so its id is empty and its reference never says blob. */
  function Cancellation(blockedBlob: bool): TxRef {
    TxRef([], true, false, !blockedBlob)
  }

  predicate Enabled(p: Pool, s: PoolStep) {
    match s
    case Check => p.publisher.Looping?
    case SendCancel => p.publisher.Cancelling?
    case SendBatch(tx) => !tx.isCancel
    case Deliver(r) => p.receiver.Idle? && r.tx in (if r.tx.isCancel then p.cancels else p.batches)
    case TestReserved => p.receiver.Got?
    case SetBlocked => p.receiver.SawGood?
    case TestCancel => p.receiver.NotReserved?
    case ReadBlob => p.receiver.SawPending?
    case SetGood => p.receiver.SawBlob?
    case Record => p.receiver.Handling?
  }

  function Step(p: Pool, s: PoolStep): Pool
    requires Enabled(p, s)
  {
    match s
    case Check =>
      if p.state.Blocked? then p.(state := CancelPending, publisher := Cancelling(p.blockedBlob)) else p
    case SendCancel =>
      p.(publisher := Looping, cancelsSent := p.cancelsSent + 1,
         cancels := p.cancels + multiset{Cancellation(p.publisher.blockedBlob)})
    case SendBatch(tx) => p.(batches := p.batches + multiset{tx})
    case Deliver(r) =>
      if r.tx.isCancel then p.(cancels := p.cancels - multiset{r.tx}, receiver := Got(r))
      else p.(batches := p.batches - multiset{r.tx}, receiver := Got(r))
    case TestReserved =>
      var r := p.receiver.r;
      p.(receiver := if r.outcome == Failed(true) && p.state.Good? then SawGood(r) else NotReserved(r))
    case SetBlocked =>
      var r := p.receiver.r;
      p.(state := Blocked, blockedBlob := r.tx.isBlob, receiver := Handling(r), blockings := p.blockings + 1)
    case TestCancel =>
      var r := p.receiver.r;
      p.(receiver := if r.tx.isCancel && p.state.CancelPending? then SawPending(r) else Handling(r))
    case ReadBlob => p.(receiver := SawBlob(p.receiver.r, p.blockedBlob))
    case SetGood => p.(state := Good, blockedBlob := p.receiver.blob, receiver := Handling(p.receiver.r))
    case Record => p.(receiver := Idle)
  }

  function One(b: bool): nat {
    if b then 1 else 0
  }

  /** Cancellations decided on whose receipt has not yet been acted on. */
  function Outstanding(p: Pool): nat {
    One(p.publisher.Cancelling?) + |p.cancels|
    + One(!p.receiver.Idle? && !p.receiver.Handling? && p.receiver.r.tx.isCancel)
  }

  ghost predicate Inv(p: Pool) {
    && Outstanding(p) == One(p.state.CancelPending?)
    && p.blockings == p.cancelsSent + One(p.publisher.Cancelling?) + One(p.state.Blocked?)
    && (p.publisher.Cancelling? ==> p.publisher.blockedBlob == p.blockedBlob)
    && (forall tx :: tx in p.cancels ==> tx == Cancellation(p.blockedBlob))
    && (forall tx :: tx in p.batches ==> !tx.isCancel)
    && (!p.receiver.Idle? && p.receiver.r.tx.isCancel ==> p.receiver.r.tx.id == [])
    && (p.receiver.SawGood? ==> p.state.Good?)
    && (p.receiver.SawPending? || p.receiver.SawBlob? ==> p.receiver.r.tx.isCancel)
    && (p.receiver.SawBlob? ==> p.receiver.blob == p.blockedBlob)
  }

  /** The next state of the documented cycle. */
  function Next(s: PoolState): PoolState {
    match s case Good => Blocked case Blocked => CancelPending case CancelPending => Good
  }

  /** The races are benign: whatever happens between an unlocked read and the write that follows from it,
      the state moves along the cycle only, Good is left only for a rejected batch transaction, and it is
      reached again only by the receipt of the one cancellation outstanding. */
  lemma StepInv(p: Pool, s: PoolStep)
    requires Inv(p) && Enabled(p, s)
    ensures Inv(Step(p, s))
    ensures Step(p, s).state == p.state || Step(p, s).state == Next(p.state)
    ensures s.SetBlocked? ==> p.state.Good? && !p.receiver.r.tx.isCancel
    ensures s.SetGood? ==> p.state.CancelPending? && p.receiver.r.tx.isCancel
    ensures Step(p, s).blockedBlob == if s.SetBlocked? then p.receiver.r.tx.isBlob else p.blockedBlob
  {
    match s
    case Deliver(r) => DeliverInv(p, r);
    case SendCancel => SendCancelInv(p);
    case _ =>
  }

  lemma DeliverInv(p: Pool, r: Receipt)
    requires Inv(p) && Enabled(p, Deliver(r))
    ensures Inv(Step(p, Deliver(r)))
  {
    var q := Step(p, Deliver(r));
    if r.tx.isCancel { assert |q.cancels| == |p.cancels| - 1; }
    assert q.cancels <= p.cancels && q.batches <= p.batches;
  }

  lemma SendCancelInv(p: Pool)
    requires Inv(p) && Enabled(p, SendCancel)
    ensures Inv(Step(p, SendCancel))
  {
    assert |p.cancels| == 0;
    assert Step(p, SendCancel).cancels == multiset{Cancellation(p.blockedBlob)};
  }

  /** At most one cancellation is ever outstanding, it is of the type opposite to the rejected transaction's,
      and while one is pending it is about to be sent, in flight, or in the receipts loop's hands. */
  lemma OneCancellation(p: Pool)
    requires Inv(p)
    ensures Outstanding(p) <= 1
    ensures p.state.CancelPending? <==> Outstanding(p) == 1
    ensures |p.cancels| <= 1
    ensures forall tx :: tx in p.cancels ==> tx.isCancel && tx.id == [] && !tx.isBlob && tx.sentAsBlob == !p.blockedBlob
    ensures p.cancelsSent <= p.blockings <= p.cancelsSent + 1
  {
    if p.cancels != multiset{} {
      var tx :| tx in p.cancels;
      assert |p.cancels - multiset{tx}| == |p.cancels| - 1 == 0;
    }
  }

  /** Transactions sent whose receipt was not recorded yet. */
  function Awaited(p: Pool): multiset<TxRef> {
    p.batches + p.cancels + Held(p.receiver)
  }

  function Held(r: Receiver): multiset<TxRef> {
    if r.Idle? then multiset{} else multiset{r.r.tx}
  }

  /** Every transaction's receipt is recorded once: sending is all that adds to the awaited ones, and recording all that
      takes one away. */
  lemma ReceiptsOnce(p: Pool, s: PoolStep)
    requires Inv(p) && Enabled(p, s)
    ensures s.SendBatch? ==> Awaited(Step(p, s)) == Awaited(p) + multiset{s.tx}
    ensures s.SendCancel? ==>
      Awaited(Step(p, s)) == Awaited(p) + multiset{TxRef([], true, false, !p.blockedBlob)}
    ensures s.Record? ==> Awaited(p) == Awaited(Step(p, s)) + multiset{p.receiver.r.tx}
    ensures !s.SendBatch? && !s.SendCancel? && !s.Record? ==> Awaited(Step(p, s)) == Awaited(p)
  {
    hide Inv, Step, Awaited;
    match s
    case SendBatch(_) => SendAwaited(p, s);
    case SendCancel => SendAwaited(p, s);
    case Deliver(r) => DeliverAwaited(p, r);
    case Record => RecordAwaited(p);
    case _ => OthersAwaited(p, s);
  }

  lemma SendAwaited(p: Pool, s: PoolStep)
    requires Inv(p) && Enabled(p, s) && (s.SendBatch? || s.SendCancel?)
    ensures Awaited(Step(p, s)) ==
      Awaited(p) + multiset{if s.SendBatch? then s.tx else TxRef([], true, false, !p.blockedBlob)}
  {
    assert s.SendCancel? ==> p.publisher.blockedBlob == p.blockedBlob;
    hide Inv, Held;
  }

  lemma OthersAwaited(p: Pool, s: PoolStep)
    requires Enabled(p, s) && !s.SendBatch? && !s.SendCancel? && !s.Deliver? && !s.Record?
    ensures Awaited(Step(p, s)) == Awaited(p)
  {
    var q := Step(p, s);
    assert q.batches == p.batches && q.cancels == p.cancels;
    hide Held, Step;
    if s.Check? {
      CheckHeld(p);
    } else {
      HeldStays(p, s);
      HeldSame(p.receiver, q.receiver);
    }
  }

  lemma CheckHeld(p: Pool)
    requires Enabled(p, Check)
    ensures Step(p, Check).receiver == p.receiver
  {
  }

  lemma HeldStays(p: Pool, s: PoolStep)
    requires Enabled(p, s) && !s.SendBatch? && !s.SendCancel? && !s.Deliver? && !s.Record? && !s.Check?
    ensures !p.receiver.Idle? && !Step(p, s).receiver.Idle? && p.receiver.r == Step(p, s).receiver.r
  {
  }

  lemma DeliverAwaited(p: Pool, r: Receipt)
    requires Enabled(p, Deliver(r))
    ensures Awaited(Step(p, Deliver(r))) == Awaited(p)
  {
    if r.tx.isCancel {
      assert p.cancels == (p.cancels - multiset{r.tx}) + multiset{r.tx};
    } else {
      assert p.batches == (p.batches - multiset{r.tx}) + multiset{r.tx};
    }
  }

  lemma RecordAwaited(p: Pool)
    requires p.receiver.Handling?
    ensures Awaited(p) == Awaited(Step(p, Record)) + multiset{p.receiver.r.tx}
  {
  }

  lemma HeldSame(r: Receiver, r': Receiver)
    requires !r.Idle? && !r'.Idle? && r.r == r'.r
    ensures Held(r) == Held(r')
  {
  }

  // ----- With the channel manager -----

  datatype World = World(pool: Pool, mgr: M.Mgr)

  /** `InPool`: a step of the loops; recording a receipt also changes the channel manager.
      `InManager`: anything else done to the channel manager, under its own lock. */
  datatype WorldStep = InPool(s: PoolStep) | InManager(op: R.Op)

  /** What recording a receipt does to the channel manager, if anything. */
  function Recorded(r: Receipt): Option<R.Op> {
    match r.outcome
    case Failed(_) => Some(R.Fail(r.tx.id))
    case Included(l1Block) => Some(R.Confirm(r.tx.id, l1Block))
    case Unknown => None
  }

  function ManagerOp(w: World, s: WorldStep): Option<R.Op> {
    match s
    case InManager(op) => Some(op)
    case InPool(t) => if t.Record? && w.pool.receiver.Handling? then Recorded(w.pool.receiver.r) else None
  }

  ghost predicate Legal(w: World, s: WorldStep)
    requires M.Linked(w.mgr)
  {
    && (s.InPool? ==> Enabled(w.pool, s.s))
    && var op := ManagerOp(w, s);
       op.Some? && !Cancels(w, s) ==> R.Legal(w.mgr, op.value)
  }

  /** The step records the receipt of a cancellation. */
  predicate Cancels(w: World, s: WorldStep) {
    s == InPool(Record) && w.pool.receiver.Handling? && w.pool.receiver.r.tx.isCancel
  }

  function WorldNext(w: World, s: WorldStep): (r: Option<World>)
    requires M.Linked(w.mgr) && (s.InPool? ==> Enabled(w.pool, s.s))
    ensures r.Some? ==> M.Linked(r.value.mgr)
  {
    var pool := if s.InPool? then Step(w.pool, s.s) else w.pool;
    match ManagerOp(w, s)
    case None => Some(World(pool, w.mgr))
    case Some(op) => match R.Step(w.mgr, op) case None => None case Some(mgr) => Some(World(pool, mgr))
  }

  /** No transaction of any channel has the empty id a cancellation carries. */
  lemma EmptyIdUnknown(m: M.Mgr)
    requires MI.Inv(m)
    ensures [] !in m.txs
  {
    hide MI.BlocksInv, MI.QueueInv, MI.LatestInv, MI.Settled;
    forall id | id in m.txs ensures |id| > 0 {
      C.PendingIsGroupId(m.channels[m.txs[id]], id);
    }
  }

  lemma WorldStepInv(w: World, s: WorldStep)
    requires M.Linked(w.mgr) && Legal(w, s) && Inv(w.pool) && MI.Inv(w.mgr)
    ensures WorldNext(w, s).Some? && Inv(WorldNext(w, s).value.pool) && MI.Inv(WorldNext(w, s).value.mgr)
    ensures Cancels(w, s) ==> WorldNext(w, s).value.mgr == w.mgr
  {
    hide MI.Inv, R.Step, R.Legal, Step, Inv;
    if s.InPool? { StepInv(w.pool, s.s); }
    if Cancels(w, s) {
      EmptyIdUnknown(w.mgr);
      CancelReceiptIgnored(w);
    } else if ManagerOp(w, s).Some? {
      R.StepInv(w.mgr, ManagerOp(w, s).value);
    }
  }

  /** Recording a receipt: an error is a failed transaction, inclusion in a block confirms it there, and without either
      the channel manager stays as it was. Only then is the next receipt taken. */
  lemma RecordsExactly(w: World)
    requires M.Linked(w.mgr) && w.pool.receiver.Handling?
    ensures var id := w.pool.receiver.r.tx.id;
      var mgr := match w.pool.receiver.r.outcome
                 case Failed(_) => M.TxFailed(w.mgr, id)
                 case Included(l1Block) => M.TxConfirmed(w.mgr, id, l1Block)
                 case Unknown => Some(w.mgr);
      match WorldNext(w, InPool(Record))
      case None => mgr == None
      case Some(w') => mgr == Some(w'.mgr) && w'.pool == w.pool.(receiver := Idle)
  {
    hide M.TxFailed, M.TxConfirmed;
  }

  /** The receipt of a cancellation, whatever it says, leaves the channel manager as it was. */
  lemma CancelReceiptIgnored(w: World)
    requires M.Linked(w.mgr) && [] !in w.mgr.txs && Inv(w.pool) && Cancels(w, InPool(Record))
    ensures WorldNext(w, InPool(Record)) == Some(World(Step(w.pool, Record), w.mgr))
  {
  }

  // ----- Runs -----

  ghost predicate LegalRun(w: World, ss: seq<WorldStep>)
    requires M.Linked(w.mgr)
    decreases |ss|
  {
    ss == [] || (Legal(w, ss[0]) && (WorldNext(w, ss[0]).Some? ==> LegalRun(WorldNext(w, ss[0]).value, ss[1..])))
  }

  /** The states a run goes through, in order, the first one included. */
  ghost function Trace(w: World, ss: seq<WorldStep>): (t: seq<World>)
    requires M.Linked(w.mgr) && LegalRun(w, ss)
    ensures |t| > 0 && t[0] == w
    decreases |ss|
  {
    if ss == [] then [w]
    else match WorldNext(w, ss[0]) case None => [w] case Some(w1) => [w] + Trace(w1, ss[1..])
  }

  ghost predicate Safe(t: seq<World>) {
    && (forall i :: 0 <= i < |t| ==> Inv(t[i].pool) && MI.Inv(t[i].mgr))
    && forall i :: 0 < i < |t| ==> CycleStep(t[i - 1].pool.state, t[i].pool.state)
  }

  predicate CycleStep(before: PoolState, after: PoolState) {
    after == before || after == Next(before)
  }

  /** In every interleaving no step panics, every state keeps the invariant, and the txpool state only goes
      Good, Blocked, CancelPending, Good. */
  lemma {:induction false} RunSafe(w: World, ss: seq<WorldStep>)
    requires M.Linked(w.mgr) && LegalRun(w, ss) && Inv(w.pool) && MI.Inv(w.mgr)
    ensures |Trace(w, ss)| == |ss| + 1 && Safe(Trace(w, ss))
    decreases |ss|
  {
    hide MI.Inv, WorldNext, Inv, R.Legal, R.Step;
    if ss != [] {
      WorldStepInv(w, ss[0]);
      var w1 := WorldNext(w, ss[0]).value;
      WorldCycle(w, ss[0]);
      RunSafe(w1, ss[1..]);
      var t := Trace(w1, ss[1..]);
      assert Trace(w, ss) == [w] + t;
    }
  }

  lemma WorldCycle(w: World, s: WorldStep)
    requires Inv(w.pool) && M.Linked(w.mgr) && Legal(w, s) && WorldNext(w, s).Some?
    ensures CycleStep(w.pool.state, WorldNext(w, s).value.pool.state)
  {
    hide R.Step, R.Legal, Inv, Step;
    if s.InPool? { StepInv(w.pool, s.s); }
  }

  lemma StartSafe(cfg: C.Config, ss: seq<WorldStep>)
    requires cfg.Checked() && LegalRun(World(StartPool(), M.Initial(cfg)), ss)
    ensures Safe(Trace(World(StartPool(), M.Initial(cfg)), ss))
  {
    hide LegalRun, Trace, Safe, MI.Inv;
    MI.InitialInv(cfg);
    RunSafe(World(StartPool(), M.Initial(cfg)), ss);
  }

  // ----- The shared object -----

  class TxpoolGuard {
    var txpoolState: PoolState
    var txpoolBlockedBlob: bool

    constructor ()
      ensures txpoolState == StartPool().state && txpoolBlockedBlob == StartPool().blockedBlob
    {
      txpoolState, txpoolBlockedBlob := Good, false;
    }

    /** The two fields are the automaton's. */
    ghost predicate Shows(p: Pool)
      reads this
    {
      txpoolState == p.state && txpoolBlockedBlob == p.blockedBlob
    }

    /** The locked write that follows from an unlocked read is the automaton's SetBlocked or SetGood step, with the
        values the receipts loop passes there. */
    method SetTxPoolState(state: PoolState, blockedBlob: bool, ghost p: Pool, ghost s: PoolStep)
      requires Inv(p) && Shows(p) && Enabled(p, s) && (s.SetBlocked? || s.SetGood?)
      requires s.SetBlocked? ==> state == Blocked && blockedBlob == p.receiver.r.tx.isBlob
      requires s.SetGood? ==> state == Good && blockedBlob == p.receiver.blob
      modifies this
      ensures Shows(Step(p, s)) && Inv(Step(p, s)) && txpoolState == Next(old(txpoolState))
    {
      StepInv(p, s);
      txpoolState, txpoolBlockedBlob := state, blockedBlob;
    }

    /** One turn of the receipts loop up to recording the receipt, when nothing comes between its steps. */
    method TakeReceipt(r: Receipt, ghost p: Pool) returns (ghost q: Pool)
      requires Inv(p) && Shows(p) && p.receiver == Got(r)
      modifies this
      ensures Shows(q) && Inv(q) && q.receiver == Handling(r)
      ensures txpoolState ==
        if r.outcome == Failed(true) && old(txpoolState).Good? then Blocked
        else if r.tx.isCancel && old(txpoolState).CancelPending? then Good else old(txpoolState)
      ensures txpoolBlockedBlob ==
        if r.outcome == Failed(true) && old(txpoolState).Good? then r.tx.isBlob else old(txpoolBlockedBlob)
    {
      hide Inv;
      q := Step(p, TestReserved);
      StepInv(p, TestReserved);
      if r.outcome == Failed(true) && txpoolState == Good {
        SetTxPoolState(Blocked, r.tx.isBlob, q, SetBlocked);
        q := Step(q, SetBlocked);
        return;
      }
      StepInv(q, TestCancel);
      q := Step(q, TestCancel);
      if r.tx.isCancel && txpoolState == CancelPending {
        StepInv(q, ReadBlob);
        q := Step(q, ReadBlob);
        SetTxPoolState(Good, txpoolBlockedBlob, q, SetGood);
        q := Step(q, SetGood);
      }
    }

    /** The critical section: whether to publish, and the blocked type if a cancellation must be sent first. */
    method CheckTxpool(ghost p: Pool) returns (ready: bool, cancel: Option<bool>)
      requires p.publisher.Looping? && Shows(p)
      modifies this
      ensures var q := Step(p, Check);
        && Shows(q)
        && q.publisher == (match cancel case None => Looping case Some(blob) => Cancelling(blob))
      ensures ready <==> old(txpoolState).Good?
      ensures cancel == if old(txpoolState).Blocked? then Some(old(txpoolBlockedBlob)) else None
      ensures txpoolState == if old(txpoolState).Blocked? then CancelPending else old(txpoolState)
    {
      if txpoolState == Blocked {
        txpoolState := CancelPending;
        return false, Some(txpoolBlockedBlob);
      }
      return txpoolState == Good, None;
    }
  }
}
