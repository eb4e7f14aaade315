/** The two conditions on runs are needed: after any step that breaks one of them, the manager can be led to
    finalize a commitment whose challenge expired unanswered. */
module DANecessity {
  import opened Prelude
  import opened Commitments
  import opened DAState
  import opened DAManager
  import opened DAInv
  import opened DATracker
  import opened DAChain
  import opened DARuns

  /** A continuation from `w` to `end`: possible steps, and only legal ones if it is `careful`. */
  ghost predicate Goes(w: World, cfg: Config, keccak: Bytes -> Bytes, careful: bool, ops: seq<Op>, end: World)
    requires Linked(w.da.state)
    decreases |ops|
  {
    if ops == [] then end == w
    else
      && Possible(w, cfg, keccak, ops[0]) && (careful ==> Careful(w, cfg, keccak, ops[0]))
      && Goes(Step(w, cfg, keccak, ops[0]), cfg, keccak, careful, ops[1..], end)
  }

  lemma {:induction false} GoesThen(w: World, cfg: Config, keccak: Bytes -> Bytes, careful: bool, ops: seq<Op>,
                                    mid: World, more: seq<Op>, end: World)
    requires Linked(w.da.state) && Goes(w, cfg, keccak, careful, ops, mid)
    requires Linked(mid.da.state) && Goes(mid, cfg, keccak, careful, more, end)
    ensures Goes(w, cfg, keccak, careful, ops + more, end)
    decreases |ops|
  {
    hide Step, Possible, Careful, Linked;
    if ops == [] {
      assert ops + more == more;
    } else {
      GoesThen(Step(w, cfg, keccak, ops[0]), cfg, keccak, careful, ops[1..], mid, more, end);
      assert (ops + more)[0] == ops[0] && (ops + more)[1..] == ops[1..] + more;
    }
  }

  lemma GoesOne(w: World, cfg: Config, keccak: Bytes -> Bytes, careful: bool, op: Op)
    requires Linked(w.da.state) && Possible(w, cfg, keccak, op) && (careful ==> Careful(w, cfg, keccak, op))
    ensures Goes(w, cfg, keccak, careful, [op], Step(w, cfg, keccak, op))
  {
    hide Step, Possible, Careful, Linked;
    var w' := Step(w, cfg, keccak, op);
    assert [op][1..] == [] && Goes(w', cfg, keccak, careful, [], w');
  }

  lemma GoesNowhere(w: World, cfg: Config, keccak: Bytes -> Bytes, careful: bool)
    requires Linked(w.da.state)
    ensures Goes(w, cfg, keccak, careful, [], w)
  {
  }

  lemma {:induction false} CarefulGoes(w: World, cfg: Config, keccak: Bytes -> Bytes, ops: seq<Op>, end: World)
    requires Linked(w.da.state) && Goes(w, cfg, keccak, true, ops, end)
    ensures Goes(w, cfg, keccak, false, ops, end)
    decreases |ops|
  {
    hide Step, Possible, Careful, Linked;
    if ops != [] { CarefulGoes(Step(w, cfg, keccak, ops[0]), cfg, keccak, ops[1..], end); }
  }

  /** A careful continuation is a legal run. */
  lemma {:induction false} GoesLegally(w: World, cfg: Config, keccak: Bytes -> Bytes, ops: seq<Op>, end: World)
    requires Linked(w.da.state) && Goes(w, cfg, keccak, true, ops, end)
    ensures LegalRun(w, cfg, keccak, ops) && Run(w, cfg, keccak, ops) == end
    decreases |ops|
  {
    hide Step, Possible, Careful, Linked;
    if ops != [] { GoesLegally(Step(w, cfg, keccak, ops[0]), cfg, keccak, ops[1..], end); }
  }

  // ----- Chains on which nothing happens any more -----

  /** Nothing happens after block `quiet`. */
  ghost predicate Silent(chain: Chain, quiet: nat) {
    forall i :: i > quiet ==> chain(i) == []
  }

  function Quiet(chain: Chain, n: nat): Chain {
    (i: nat) => if i <= n then chain(i) else []
  }

  lemma {:induction false} QuietStays(chain: Chain, keccak: Bytes -> Bytes, quiet: nat, n: nat)
    requires quiet <= n && Silent(chain, quiet)
    ensures Truth(chain, keccak, n) == Truth(chain, keccak, quiet)
  {
    hide RecordAll;
    if quiet < n {
      QuietStays(chain, keccak, quiet, n - 1);
      RecordNothing(Truth(chain, keccak, quiet), keccak, n);
    }
  }

  lemma QuietLegal(chain: Chain, cfg: Config, keccak: Bytes -> Bytes, n: nat)
    requires LegalChain(chain, cfg, keccak)
    ensures LegalChain(Quiet(chain, n), cfg, keccak) && Agree(Quiet(chain, n), chain, n)
    ensures Silent(Quiet(chain, n), n)
  {
    hide Truth, RecordAll;
    var quiet := Quiet(chain, n);
    forall m: nat ensures LegalEvents(Before(quiet, keccak, m), cfg, keccak, m, quiet(m)) {
      if 0 < m <= n { SameTruth(quiet, chain, keccak, m - 1); }
    }
  }

  /** The chain up to block `n`, a challenge in the next block, and nothing more. */
  function ThenChallenged(chain: Chain, n: nat, k: Key): Chain {
    (i: nat) => if i <= n then chain(i) else if i == n + 1 then [Challenged(k.comm, k.inclusion)] else []
  }

  lemma ThenChallengedLegal(chain: Chain, cfg: Config, keccak: Bytes -> Bytes, n: nat, k: Key)
    requires LegalChain(chain, cfg, keccak) && k !in Truth(chain, keccak, n) && cfg.usesKeccak
    requires k.comm.Keccak? && WellFormed(k.comm) && k.inclusion <= n + 1 <= k.inclusion + cfg.challengeWindow
    ensures var later := ThenChallenged(chain, n, k);
      && LegalChain(later, cfg, keccak) && Agree(later, chain, n) && Silent(later, n + 1)
      && Truth(later, keccak, n + 1) == Truth(chain, keccak, n)[k := Fact(n + 1, false)]
  {
    hide Truth, RecordAll;
    var later, es := ThenChallenged(chain, n, k), [Challenged(k.comm, k.inclusion)];
    SameTruth(later, chain, keccak, n);
    RecordOne(Truth(chain, keccak, n), keccak, n + 1, k);
    TruthNext(later, keccak, n);
    forall m: nat ensures LegalEvents(Before(later, keccak, m), cfg, keccak, m, later(m)) {
      if 0 < m <= n { SameTruth(later, chain, keccak, m - 1); }
      if m == n + 1 {
        assert es[..|es| - 1] == [];
        RecordNothing(Truth(chain, keccak, n), keccak, m);
        assert LegalEvents(Truth(chain, keccak, n), cfg, keccak, m, []);
      }
    }
  }

  lemma TruthNext(chain: Chain, keccak: Bytes -> Bytes, n: nat)
    ensures Truth(chain, keccak, n + 1) == RecordAll(Truth(chain, keccak, n), keccak, n + 1, chain(n + 1))
  {
    hide RecordAll;
  }

  lemma RecordOne(l: Ledger, keccak: Bytes -> Bytes, block: nat, k: Key)
    ensures RecordAll(l, keccak, block, [Challenged(k.comm, k.inclusion)]) == l[k := Fact(block, false)]
  {
    var es := [Challenged(k.comm, k.inclusion)];
    assert es[..|es| - 1] == [];
  }

  // ----- A challenge the manager will never hear of -----

  /** There is a challenge against `k` of which the manager has no record. */
  ghost predicate Unknown(w: World, cfg: Config, keccak: Bytes -> Bytes, k: Key) {
    && Linked(w.da.state) && !w.da.resetting && Position(w) <= w.da.challengeOrigin
    && LegalChain(w.chain, cfg, keccak) && cfg.usesKeccak && k.comm.Keccak? && WellFormed(k.comm)
    && k in Truth(w.chain, keccak, w.da.challengeOrigin) && !Has(w.da.state.index, k)
  }

  /** On `w`'s chain it is never answered: nothing happens after block `quiet`. */
  ghost predicate Doomed(w: World, cfg: Config, keccak: Bytes -> Bytes, k: Key, quiet: nat) {
    var l := Truth(w.chain, keccak, quiet);
    Unknown(w, cfg, keccak, k) && Silent(w.chain, quiet) && k in l && !l[k].answered
  }

  /** What has to hold after a step for the challenge to remain unknown. */
  lemma StillUnknown(w: World, w': World, cfg: Config, keccak: Bytes -> Bytes, k: Key)
    requires Unknown(w, cfg, keccak, k) && w'.chain == w.chain && Linked(w'.da.state) && !w'.da.resetting
    requires Position(w') <= w'.da.challengeOrigin && w.da.challengeOrigin <= w'.da.challengeOrigin
    requires !Has(w'.da.state.index, k)
    ensures Unknown(w', cfg, keccak, k)
  {
    hide Linked, Truth, LegalChain, Has;
    TruthGrows(w.chain, cfg, keccak, k, w.da.challengeOrigin, w'.da.challengeOrigin);
  }

  lemma StillDoomed(w: World, w': World, cfg: Config, keccak: Bytes -> Bytes, k: Key, quiet: nat)
    requires Doomed(w, cfg, keccak, k, quiet) && Unknown(w', cfg, keccak, k) && w'.chain == w.chain
    ensures Doomed(w', cfg, keccak, k, quiet)
  {
    hide Truth, Unknown;
  }

  // ----- Going on to the next block -----

  lemma ExpiringKeepsExpiry(s: State, block: nat, c: Commitment)
    requires Linked(s)
    ensures ExpiresAt(ExpireChallenges(s, block), c) == ExpiresAt(s, c)
    ensures Unresolved(ExpireChallenges(s, block), c) == Unresolved(s, c)
    ensures ExpireChallenges(s, block).index == s.index
  {
    hide ChallengeKey, EndedPrefix;
  }

  /** Commitments expire when they did before, and the same ones are unresolved. */
  ghost predicate SameOutlook(s: State, s': State)
    requires Linked(s) && Linked(s')
  {
    forall c :: ExpiresAt(s', c) == ExpiresAt(s, c) && Unresolved(s', c) == Unresolved(s, c)
  }

  /** Reading the events of a block, unless they have been read already. */
  lemma ChallengesNext(w: World, cfg: Config, keccak: Bytes -> Bytes, k: Key, block: nat)
    requires Unknown(w, cfg, keccak, k) && block <= w.da.challengeOrigin + 1
    ensures var (d, ok) := AdvanceChallengeOrigin(w.da, cfg, keccak, block, Some(w.chain(block)));
      && ok && d.challengeOrigin == Max(w.da.challengeOrigin, block) && !Has(d.state.index, k)
      && (block <= w.da.challengeOrigin || w.chain(block) == [] ==> SameOutlook(w.da.state, d.state))
  {
    hide ChallengeKey, ExpireChallenges, ExpiresAt, Unresolved, Linked, Truth, LegalEvents, RecordAll, LegalChain;
    var o, s := w.da.challengeOrigin, w.da.state;
    if block == o + 1 {
      var es := w.chain(block);
      LegalNext(w.chain, cfg, keccak, o);
      NotReindexed(s, Truth(w.chain, keccak, o), cfg, keccak, block, es, k);
      var s1 := ApplyEvents(s, cfg, keccak, block, es);
      forall c ensures ExpiresAt(ExpireChallenges(s1, block), c) == ExpiresAt(s1, c)
               ensures Unresolved(ExpireChallenges(s1, block), c) == Unresolved(s1, c)
      {
        ExpiringKeepsExpiry(s1, block, c);
      }
      ExpiringKeepsExpiry(s1, block, Commitment(k.comm, 0, 0));
      if es == [] { assert s1 == s; }
    }
  }

  /** No tracked commitment at the head of the queue has expired by `block`. */
  ghost predicate NoneDue(s: State, block: nat)
    requires Linked(s)
  {
    s.commitments != [] ==> ExpiresAt(s, s.commitments[0]) > block
  }

  /** What is tracked with an unresolved challenge stays so. */
  ghost predicate KeepsUnresolved(s: State, s': State)
    requires Linked(s) && Linked(s')
  {
    forall c :: c in s.commitments && Unresolved(s, c) ==> c in s'.commitments && Unresolved(s', c)
  }

  /** Expiring commitments up to `block`. */
  lemma CommitmentsNext(d: Da, block: nat)
    requires Linked(d.state) && d.commitmentOrigin < block
    ensures var (d', reorg) := AdvanceCommitmentOrigin(d, block);
      && d'.state.index == d.state.index && d'.state.heap == d.state.heap && SameOutlook(d.state, d'.state)
      && d'.resetting == (d.resetting || reorg) && d'.commitmentOrigin == (if reorg then d.commitmentOrigin else block)
      && (!reorg ==> NoneDue(d'.state, block) && KeepsUnresolved(d.state, d'.state))
      && (forall c :: c in d'.state.commitments ==> c in d.state.commitments)
      && ((forall c :: c in d.state.commitments ==> !Unresolved(d.state, c)) ==> !reorg)
  {
    hide ChallengeKey;
    var cs := d.state.commitments;
    var m := ExpiredPrefix(d.state, cs, block);
    forall c | c in cs[m..] ensures c in cs {}
    forall i | 0 <= i < m ensures cs[..m][i] in cs {}
    if !AnyUnresolved(d.state, cs[..m]) {
      forall c | c in cs && Unresolved(d.state, c) ensures c in cs[m..] {
        var i :| 0 <= i < |cs| && cs[i] == c;
        assert i >= m || cs[..m][i] == c;
        assert cs[m..][i - m] == c;
      }
    }
  }

  /** `w'` is `w` after `steps` more blocks in which nothing required a reorg. What is on record about the queue has
      changed only if blocks with events were read. */
  ghost predicate Went(w: World, w': World, steps: nat, quiet: nat)
    requires Linked(w.da.state) && Linked(w'.da.state)
  {
    && w'.chain == w.chain && w'.da.l1Finalized == w.da.l1Finalized && !w'.da.resetting
    && Position(w') == Position(w) + steps && w'.da.challengeOrigin == Max(w.da.challengeOrigin, Position(w'))
    && Queue(w'.da.state) == Queue(w.da.state) && (steps > 0 ==> NoneDue(w'.da.state, Position(w')))
    && (forall c :: c in w'.da.state.commitments ==> c in w.da.state.commitments)
    && (Position(w') <= w.da.challengeOrigin || (Silent(w.chain, quiet) && quiet <= w.da.challengeOrigin) ==>
          SameOutlook(w.da.state, w'.da.state) && KeepsUnresolved(w.da.state, w'.da.state))
  }

  lemma WentThen(w: World, mid: World, w': World, steps: nat, quiet: nat)
    requires Linked(w.da.state) && Linked(mid.da.state) && Linked(w'.da.state)
    requires Went(w, mid, steps, quiet) && Went(mid, w', 1, quiet) && Position(w) <= w.da.challengeOrigin
    ensures Went(w, w', steps + 1, quiet)
  {
    hide Linked, ExpiresAt, Unresolved, Queue, NoneDue;
  }

  lemma WentNowhere(w: World, quiet: nat)
    requires Linked(w.da.state) && !w.da.resetting && Position(w) <= w.da.challengeOrigin
    ensures Went(w, w, 0, quiet)
  {
    hide Linked, ExpiresAt, Unresolved, Queue, NoneDue;
  }

  /** AdvanceL1Origin for the next block. */
  lemma AdvanceNext(w: World, cfg: Config, keccak: Bytes -> Bytes, k: Key, quiet: nat)
    requires Linked(w.da.state) && Unknown(w, cfg, keccak, k)
    ensures var block := Position(w) + 1;
      var d := AdvanceChallengeOrigin(w.da, cfg, keccak, block, Some(w.chain(block))).0;
      var w' := Step(w, cfg, keccak, AdvanceL1(block, true, true));
      && w'.chain == w.chain && w'.da.l1Finalized == w.da.l1Finalized && !Has(w'.da.state.index, k)
      && w'.da.challengeOrigin == Max(w.da.challengeOrigin, block)
      && w'.da.state.index == d.state.index && w'.da.state.heap == d.state.heap
      && (!w'.da.resetting ==> Went(w, w', 1, quiet) && Unknown(w', cfg, keccak, k))
      && ((forall c :: c in w.da.state.commitments ==> !Unresolved(d.state, c)) ==> !w'.da.resetting)
  {
    hide ChallengeKey, ExpiresAt, Unresolved, Linked, Truth, LegalChain, AdvanceChallengeOrigin, Has,
      AdvanceCommitmentOrigin, NoCommitments, TriggeredBy, Unknown, NoneDue;
    var block := Position(w) + 1;
    var es := Some(w.chain(block));
    UnknownMeans(w, cfg, keccak, k);
    ChallengesNext(w, cfg, keccak, k, block);
    ChallengeFrame(w.da, cfg, keccak, block, es);
    var d1 := AdvanceChallengeOrigin(w.da, cfg, keccak, block, es).0;
    CommitmentsNext(d1, block);
    CommitmentFrame(d1, block);
    var d2 := AdvanceCommitmentOrigin(d1, block).0;
    var w' := Step(w, cfg, keccak, AdvanceL1(block, true, true));
    assert w'.da.state == d2.state;
    assert !Has(d2.state.index, k) by { SameIndex(d1.state, d2.state, k); }
    if !w'.da.resetting { StillUnknown(w, w', cfg, keccak, k); }
  }

  lemma SameIndex(s: State, s': State, k: Key)
    requires s'.index == s.index
    ensures Has(s'.index, k) == Has(s.index, k)
  {
  }

  lemma UnknownMeans(w: World, cfg: Config, keccak: Bytes -> Bytes, k: Key)
    requires Unknown(w, cfg, keccak, k)
    ensures Linked(w.da.state) && !w.da.resetting && Position(w) <= w.da.challengeOrigin
    ensures !Has(w.da.state.index, k) && LegalChain(w.chain, cfg, keccak) && WellFormed(k.comm)
    ensures k.inclusion <= w.da.challengeOrigin
  {
    hide Truth, LegalChain, Linked, Has;
    TruthDated(w.chain, cfg, keccak, k, w.da.challengeOrigin);
  }

  // ----- Until a reorg is required -----

  /** After a reset of L2 the queue is empty, and the block of `k` is next. */
  ghost predicate Cleared(w: World, w': World, cfg: Config, keccak: Bytes -> Bytes, k: Key) {
    && Unknown(w', cfg, keccak, k) && Queue(w'.da.state) == [] && Position(w') == k.inclusion
    && w'.chain == w.chain && w'.da.l1Finalized == w.da.l1Finalized && w.da.challengeOrigin <= w'.da.challengeOrigin
  }

  /** One more block, and back to the block of `k` if a reorg is required. */
  lemma Forward(w: World, cfg: Config, keccak: Bytes -> Bytes, k: Key, quiet: nat)
    returns (ops: seq<Op>, w': World, stopped: bool)
    requires Linked(w.da.state) && Unknown(w, cfg, keccak, k)
    ensures Linked(w'.da.state) && Goes(w, cfg, keccak, false, ops, w')
    ensures stopped ==> Cleared(w, w', cfg, keccak, k)
    ensures !stopped ==> Went(w, w', 1, quiet) && Unknown(w', cfg, keccak, k)
    ensures var block := Position(w) + 1;
      var d := AdvanceChallengeOrigin(w.da, cfg, keccak, block, Some(w.chain(block))).0;
      !stopped ==> w'.da.state.index == d.state.index && w'.da.state.heap == d.state.heap
  {
    hide Linked, AdvanceL1Origin, AdvanceChallengeOrigin, Has, Demands, Goes, Reset, LegalChain, Unknown, Went, Queue;
    UnknownMeans(w, cfg, keccak, k);
    var op := AdvanceL1(Position(w) + 1, true, true);
    AdvanceNext(w, cfg, keccak, k, quiet);
    GoesOne(w, cfg, keccak, false, op);
    var w1 := Step(w, cfg, keccak, op);
    ops, w', stopped := [op], w1, w1.da.resetting;
    if stopped {
      var reset := Rebase(k.inclusion, w.chain);
      GoesOne(w1, cfg, keccak, false, reset);
      w' := Step(w1, cfg, keccak, reset);
      ResetBack(w, w1, cfg, keccak, k);
      GoesThen(w, cfg, keccak, false, [op], w1, [reset], w');
      ops := [op] + [reset];
    }
  }

  lemma ResetBack(w: World, w1: World, cfg: Config, keccak: Bytes -> Bytes, k: Key)
    requires Linked(w1.da.state) && Unknown(w, cfg, keccak, k) && w1.da.resetting && !Has(w1.da.state.index, k)
    requires w1.chain == w.chain && w1.da.l1Finalized == w.da.l1Finalized
    requires k.inclusion <= w.da.challengeOrigin <= w1.da.challengeOrigin
    ensures Cleared(w, Step(w1, cfg, keccak, Rebase(k.inclusion, w.chain)), cfg, keccak, k)
  {
    hide Linked, Truth, LegalChain, Has, Unknown;
    StillUnknown(w, Step(w1, cfg, keccak, Rebase(k.inclusion, w.chain)), cfg, keccak, k);
  }

  /** Any number of blocks, or back to the block of `k`. */
  lemma {:induction false} ForwardBy(w: World, cfg: Config, keccak: Bytes -> Bytes, k: Key, quiet: nat, steps: nat)
    returns (ops: seq<Op>, w': World, stopped: bool)
    requires Linked(w.da.state) && Unknown(w, cfg, keccak, k)
    ensures Linked(w'.da.state) && Goes(w, cfg, keccak, false, ops, w')
    ensures stopped ==> Cleared(w, w', cfg, keccak, k)
    ensures !stopped ==> Went(w, w', steps, quiet) && Unknown(w', cfg, keccak, k)
    decreases steps
  {
    hide Linked, Goes, Unknown, Went, AdvanceChallengeOrigin, Queue;
    UnknownMeans(w, cfg, keccak, k);
    if steps == 0 {
      ops, w', stopped := [], w, false;
      GoesNowhere(w, cfg, keccak, false);
      WentNowhere(w, quiet);
    } else {
      ops, w', stopped := ForwardBy(w, cfg, keccak, k, quiet, steps - 1);
      if !stopped {
        var mid := w';
        var last;
        last, w', stopped := Forward(mid, cfg, keccak, k, quiet);
        GoesThen(w, cfg, keccak, false, ops, mid, last, w');
        ops := ops + last;
        WentBounds(w, mid, steps - 1, quiet);
        if !stopped { WentThen(w, mid, w', steps - 1, quiet); }
      }
    }
  }

  lemma WentBounds(w: World, w': World, steps: nat, quiet: nat)
    requires Linked(w.da.state) && Linked(w'.da.state) && Went(w, w', steps, quiet)
    ensures w'.chain == w.chain && w'.da.l1Finalized == w.da.l1Finalized && Position(w') == Position(w) + steps
    ensures w.da.challengeOrigin <= w'.da.challengeOrigin && Position(w') <= w'.da.challengeOrigin
    ensures Queue(w'.da.state) == Queue(w.da.state)
  {
  }

  // ----- Reading, expiring and finalizing the commitment -----

  /** The commitment as TrackCommitment stores it. */
  function Tracked(cfg: Config, k: Key): Commitment {
    Commitment(k.comm, k.inclusion, k.inclusion + cfg.challengeWindow)
  }

  lemma NoStatus(s: State, k: Key)
    requires Linked(s) && !Has(s.index, k)
    ensures GetChallengeStatus(s, k.comm, k.inclusion) == Uninitialized
  {
    hide ChallengeKey;
  }

  lemma TrackOutlook(s: State, cfg: Config, comm: Comm, inclusion: nat)
    requires Linked(s) && Linked(TrackCommitment(s, cfg, comm, inclusion))
    ensures SameOutlook(s, TrackCommitment(s, cfg, comm, inclusion))
    ensures forall s' :: Linked(s') && SameOutlook(TrackCommitment(s, cfg, comm, inclusion), s') ==> SameOutlook(s, s')
  {
    hide ChallengeKey;
  }

  /** An unknown challenge does not keep its commitment from being tracked, and it stays unknown. */
  lemma ReadUnknown(w: World, cfg: Config, keccak: Bytes -> Bytes, k: Key, storage: StorageReply, fetched: bool)
    requires Linked(w.da.state) && Unknown(w, cfg, keccak, k)
    ensures var w' := Step(w, cfg, keccak, Read(k.comm, k.inclusion, storage, fetched));
      && Unknown(w', cfg, keccak, k) && w'.chain == w.chain && w'.da.l1Finalized == w.da.l1Finalized
      && w.da.challengeOrigin <= w'.da.challengeOrigin <= w.da.challengeOrigin + 1 && Position(w') == Position(w)
      && w'.da.state.commitments == w.da.state.commitments + [Tracked(cfg, k)]
      && w'.da.state.expiredCommitments == w.da.state.expiredCommitments
      && (storage.Found? || w.chain(w.da.challengeOrigin + 1) == [] ==> SameOutlook(w.da.state, w'.da.state))
      && (storage.Found? ==> w'.da.challengeOrigin == w.da.challengeOrigin)
  {
    hide Linked, Truth, LegalChain, AdvanceChallengeOrigin, GetChallengeStatus, GetChallenge, ChallengeKey,
      SameOutlook;
    var o, s := w.da.challengeOrigin, w.da.state;
    NoStatus(s, k);
    TrackLinked(s, cfg, k.comm, k.inclusion);
    var w1 := w.(da := w.da.(state := TrackCommitment(s, cfg, k.comm, k.inclusion)));
    StillUnknown(w, w1, cfg, keccak, k);
    TrackOutlook(s, cfg, k.comm, k.inclusion);
    ChallengesNext(w1, cfg, keccak, k, o + 1);
    ChallengeFrame(w1.da, cfg, keccak, o + 1, Some(w.chain(o + 1)));
    StillUnknown(w, Step(w, cfg, keccak, Read(k.comm, k.inclusion, storage, fetched)), cfg, keccak, k);
  }

  function MaxExpiry(s: State, cs: seq<Commitment>): (n: nat)
    requires Linked(s)
    ensures forall c :: c in cs ==> ExpiresAt(s, c) <= n
  {
    if cs == [] then 0 else Max(ExpiresAt(s, cs[0]), MaxExpiry(s, cs[1..]))
  }

  lemma FinalizesAll(s: State, f: nat)
    requires Linked(s) && forall c :: c in s.expiredCommitments ==> ExpiresAt(s, c) <= f
    ensures Finalizes(s, f) == s.expiredCommitments
  {
    hide ExpiresAt, Linked;
    forall i | 0 <= i < |s.expiredCommitments| ensures s.expiredCommitments[i] in s.expiredCommitments {}
  }

  // ----- Without another read -----

  /** The commitment is in the queue, and nothing in front of it can ask for a reorg: what is tracked is the
      commitment itself or, on a quiet chain, has no unresolved challenge. */
  ghost predicate Calm(w: World, cfg: Config, keccak: Bytes -> Bytes, k: Key, quiet: nat) {
    && Unknown(w, cfg, keccak, k) && Silent(w.chain, quiet) && Tracked(cfg, k) in Queue(w.da.state)
    && NothingForcesReorg(w.da.state, k, quiet <= w.da.challengeOrigin)
  }

  ghost predicate NothingForcesReorg(s: State, k: Key, quiet: bool)
    requires Linked(s)
  {
    forall c :: c in s.commitments ==> KeyFor(c) == k || (quiet && !Unresolved(s, c))
  }

  /** Reading the next block leaves nothing unresolved among the tracked commitments. */
  lemma CalmChallenges(w: World, cfg: Config, keccak: Bytes -> Bytes, k: Key, quiet: nat)
    requires Calm(w, cfg, keccak, k, quiet)
    ensures var block := Position(w) + 1;
      var s := AdvanceChallengeOrigin(w.da, cfg, keccak, block, Some(w.chain(block))).0.state;
      forall c :: c in w.da.state.commitments ==> !Unresolved(s, c)
  {
    hide ChallengeKey, ExpireChallenges, Truth, LegalEvents, LegalChain, Linked, AdvanceChallengeOrigin;
    var block := Position(w) + 1;
    ChallengesNext(w, cfg, keccak, k, block);
    var d := AdvanceChallengeOrigin(w.da, cfg, keccak, block, Some(w.chain(block))).0;
    forall c | c in w.da.state.commitments ensures !Unresolved(d.state, c) {
      if KeyFor(c) != k { assert block <= w.da.challengeOrigin || w.chain(block) == []; }
    }
  }

  /** One more block, with a legal step. */
  lemma CalmOne(w: World, cfg: Config, keccak: Bytes -> Bytes, k: Key, quiet: nat) returns (op: Op)
    requires Linked(w.da.state) && Calm(w, cfg, keccak, k, quiet)
    ensures var w' := Step(w, cfg, keccak, op);
      && Goes(w, cfg, keccak, true, [op], w') && Calm(w', cfg, keccak, k, quiet) && Went(w, w', 1, quiet)
  {
    hide Linked, AdvanceChallengeOrigin, AdvanceL1Origin, Has, TriggeredBy, Goes, LegalChain, Unresolved, Queue,
      Unknown, NoneDue;
    op := AdvanceL1(Position(w) + 1, true, true);
    UnknownMeans(w, cfg, keccak, k);
    GoesOne(w, cfg, keccak, true, op);
    CalmChallenges(w, cfg, keccak, k, quiet);
    AdvanceNext(w, cfg, keccak, k, quiet);
  }

  /** Any number of blocks. */
  lemma {:induction false} CalmBy(w: World, cfg: Config, keccak: Bytes -> Bytes, k: Key, quiet: nat, steps: nat)
    returns (ops: seq<Op>, w': World)
    requires Linked(w.da.state) && Calm(w, cfg, keccak, k, quiet)
    ensures Linked(w'.da.state) && Goes(w, cfg, keccak, true, ops, w')
    ensures Calm(w', cfg, keccak, k, quiet) && Went(w, w', steps, quiet)
    decreases steps
  {
    hide Linked, Has, Goes, LegalChain, Step, NothingForcesReorg, Queue, Went, Unknown;
    UnknownMeans(w, cfg, keccak, k);
    if steps == 0 {
      ops, w' := [], w;
      GoesNowhere(w, cfg, keccak, true);
      WentNowhere(w, quiet);
    } else {
      var first, mid := CalmBy(w, cfg, keccak, k, quiet, steps - 1);
      var op := CalmOne(mid, cfg, keccak, k, quiet);
      w' := Step(mid, cfg, keccak, op);
      GoesThen(w, cfg, keccak, true, first, mid, [op], w');
      ops := first + [op];
      WentThen(w, mid, w', steps - 1, quiet);
    }
  }

  /** Once all that was tracked is due, nothing is tracked any more. */
  lemma AllDue(w: World, w': World, steps: nat, quiet: nat, n: nat)
    requires Linked(w.da.state) && Linked(w'.da.state) && Went(w, w', steps, quiet) && steps > 0
    requires Position(w') <= w.da.challengeOrigin || (Silent(w.chain, quiet) && quiet <= w.da.challengeOrigin)
    requires n <= Position(w') && forall c :: c in w.da.state.commitments ==> ExpiresAt(w.da.state, c) <= n
    ensures w'.da.state.commitments == [] && w'.da.state.expiredCommitments == Queue(w.da.state)
    ensures forall c :: ExpiresAt(w'.da.state, c) == ExpiresAt(w.da.state, c)
  {
    hide Linked, ExpiresAt, Unresolved;
    forall c | c in w'.da.state.commitments ensures ExpiresAt(w'.da.state, c) <= n {}
    assert w'.da.state.expiredCommitments + [] == w'.da.state.expiredCommitments;
  }

  /** A commitment is finalized although its challenge runs out unanswered. */
  ghost predicate Wrong(w: World, cfg: Config, keccak: Bytes -> Bytes, c: Commitment) {
    c in w.finalized && exists n :: EverExpired(Truth(w.chain, keccak, n), cfg, KeyFor(c), n)
  }

  /** With nothing tracked, a finality signal finalizes all that awaits it. */
  lemma SignalAll(w: World, cfg: Config, keccak: Bytes -> Bytes, f: nat)
    requires Linked(w.da.state) && !w.da.resetting && f >= w.da.l1Finalized && w.da.state.commitments == []
    requires forall c :: c in w.da.state.expiredCommitments ==> ExpiresAt(w.da.state, c) <= f
    ensures var w' := Step(w, cfg, keccak, FinalizeL1(f));
      && Goes(w, cfg, keccak, true, [FinalizeL1(f)], w') && w'.finalized == w.finalized + w.da.state.expiredCommitments
      && w'.chain == w.chain && w'.da.l1Finalized == f && !w'.da.resetting
  {
    hide Linked, Goes, Finalize, Finalizes, ExpiresAt;
    FinalizesAll(w.da.state, f);
    GoesOne(w, cfg, keccak, true, FinalizeL1(f));
    FinalizeFrame(w.da, f);
  }

  /** With legal steps only, and without another read, the manager finalizes a commitment whose challenge has expired
      unanswered. */
  lemma CalmIsFinalized(w: World, cfg: Config, keccak: Bytes -> Bytes, k: Key, quiet: nat)
    returns (ops: seq<Op>, w': World)
    requires Linked(w.da.state) && Calm(w, cfg, keccak, k, quiet) && Doomed(w, cfg, keccak, k, quiet)
    ensures Goes(w, cfg, keccak, true, ops, w') && Wrong(w', cfg, keccak, Tracked(cfg, k))
  {
    hide Linked, Has, Goes, LegalChain, ExpiresAt, Truth, NothingForcesReorg, EverExpired, Went, Queue, Unknown, Step;
    var first, w1 := CalmBy(w, cfg, keccak, k, quiet, quiet);
    WentBounds(w, w1, quiet, quiet);
    var n := MaxExpiry(w1.da.state, w1.da.state.commitments);
    var second, w2 := CalmBy(w1, cfg, keccak, k, quiet, 1 + n);
    WentBounds(w1, w2, 1 + n, quiet);
    AllDue(w1, w2, 1 + n, quiet, n);
    var s := w2.da.state;
    var f := Max(w2.da.l1Finalized, MaxExpiry(s, s.expiredCommitments));
    UnknownMeans(w2, cfg, keccak, k);
    SignalAll(w2, cfg, keccak, f);
    w' := Step(w2, cfg, keccak, FinalizeL1(f));
    GoesThen(w1, cfg, keccak, true, second, w2, [FinalizeL1(f)], w');
    GoesThen(w, cfg, keccak, true, first, w1, second + [FinalizeL1(f)], w');
    ops := first + (second + [FinalizeL1(f)]);
    DoomedExpires(w, cfg, keccak, k, quiet);
    assert KeyFor(Tracked(cfg, k)) == k;
  }

  lemma DoomedExpires(w: World, cfg: Config, keccak: Bytes -> Bytes, k: Key, quiet: nat)
    requires Doomed(w, cfg, keccak, k, quiet)
    ensures exists n :: EverExpired(Truth(w.chain, keccak, n), cfg, k, n)
  {
    hide RecordAll, LegalChain, Linked, Has;
    var n := quiet + Truth(w.chain, keccak, quiet)[k].at + cfg.resolveWindow;
    QuietStays(w.chain, keccak, quiet, n);
    assert EverExpired(Truth(w.chain, keccak, n), cfg, k, n);
  }

  // ----- Reading it again, where a reorg makes the manager drop it -----

  /** After the reset, the commitment is read again and is alone in the queue. */
  lemma ReadAgain(w: World, w1: World, cfg: Config, keccak: Bytes -> Bytes, k: Key, quiet: nat) returns (op: Op)
    requires Linked(w1.da.state) && Cleared(w, w1, cfg, keccak, k) && Silent(w.chain, quiet)
    ensures var w' := Step(w1, cfg, keccak, op);
      && Goes(w1, cfg, keccak, false, [op], w') && Calm(w', cfg, keccak, k, quiet) && w'.chain == w.chain
      && Position(w') == k.inclusion && w'.da.l1Finalized == w.da.l1Finalized
      && Queue(w'.da.state) == [Tracked(cfg, k)] && w.da.challengeOrigin <= w'.da.challengeOrigin
  {
    hide Linked, Has, Goes, LegalChain, Unknown, GetInput, TrackedBy;
    op := Read(k.comm, k.inclusion, Found([]), false);
    UnknownMeans(w1, cfg, keccak, k);
    GoesOne(w1, cfg, keccak, false, op);
    ReadUnknown(w1, cfg, keccak, k, Found([]), false);
    assert [] + [Tracked(cfg, k)] == [Tracked(cfg, k)];
  }

  /** Whatever else is tracked, going on leads to a state in which nothing forces a reorg any more: all before the
      commitment has expired, or a reorg was required and the commitment is read again. */
  lemma ToCalm(w: World, cfg: Config, keccak: Bytes -> Bytes, k: Key, quiet: nat) returns (ops: seq<Op>, w': World)
    requires Linked(w.da.state) && Doomed(w, cfg, keccak, k, quiet) && Tracked(cfg, k) in Queue(w.da.state)
    ensures Linked(w'.da.state) && Goes(w, cfg, keccak, false, ops, w') && w'.chain == w.chain
    ensures Calm(w', cfg, keccak, k, quiet)
  {
    hide Linked, Has, Goes, LegalChain, Truth, ExpiresAt, Unknown, Went, Queue, Step, Cleared;
    var first, w1, stopped := ForwardBy(w, cfg, keccak, k, quiet, quiet);
    ops, w' := first, w1;
    if !stopped {
      WentBounds(w, w1, quiet, quiet);
      var n := MaxExpiry(w1.da.state, w1.da.state.commitments);
      var second;
      second, w', stopped := ForwardBy(w1, cfg, keccak, k, quiet, 1 + n);
      GoesThen(w, cfg, keccak, false, first, w1, second, w');
      ops := first + second;
      if stopped { ClearedLater(w, w1, w', cfg, keccak, k); }
      else {
        WentBounds(w1, w', 1 + n, quiet);
        AllDue(w1, w', 1 + n, quiet, n);
      }
    }
    if stopped {
      var mid := w';
      var op := ReadAgain(w, mid, cfg, keccak, k, quiet);
      w' := Step(mid, cfg, keccak, op);
      GoesThen(w, cfg, keccak, false, ops, mid, [op], w');
      ops := ops + [op];
    }
  }

  lemma ClearedLater(w: World, mid: World, w': World, cfg: Config, keccak: Bytes -> Bytes, k: Key)
    requires Cleared(mid, w', cfg, keccak, k) && mid.chain == w.chain && mid.da.l1Finalized == w.da.l1Finalized
    requires w.da.challengeOrigin <= mid.da.challengeOrigin
    ensures Cleared(w, w', cfg, keccak, k)
  {
    hide Unknown, Queue;
  }

  /** From a state in which the commitment is in the queue and its challenge is unknown and stays unanswered, the
      manager can be led, without a full reset, to finalize the commitment. */
  lemma DoomedIsFinalized(w: World, cfg: Config, keccak: Bytes -> Bytes, k: Key, quiet: nat)
    returns (ops: seq<Op>, w': World)
    requires Linked(w.da.state) && Doomed(w, cfg, keccak, k, quiet) && Tracked(cfg, k) in Queue(w.da.state)
    ensures Goes(w, cfg, keccak, false, ops, w') && Wrong(w', cfg, keccak, Tracked(cfg, k))
  {
    hide Linked, Goes, Queue, Wrong, Unknown, Truth, NothingForcesReorg;
    var first, w1 := ToCalm(w, cfg, keccak, k, quiet);
    StillDoomed(w, w1, cfg, keccak, k, quiet);
    var second;
    second, w' := CalmIsFinalized(w1, cfg, keccak, k, quiet);
    CarefulGoes(w1, cfg, keccak, second, w');
    GoesThen(w, cfg, keccak, false, first, w1, second, w');
    ops := first + second;
  }

  // ----- An answer that comes too late -----

  /** The challenge is unanswered in block `n`, by which its commitment may be finalized; only L1 blocks after `n`, not
      finalized yet, hold the answer. */
  ghost predicate Late(w: World, cfg: Config, keccak: Bytes -> Bytes, k: Key, n: nat) {
    && Unknown(w, cfg, keccak, k)
    && w.da.l1Finalized <= n < w.da.challengeOrigin && k.inclusion + cfg.challengeWindow <= n
    && k in Truth(w.chain, keccak, n) && !Truth(w.chain, keccak, n)[k].answered
  }

  lemma LateMeans(w: World, cfg: Config, keccak: Bytes -> Bytes, k: Key, n: nat)
    requires Late(w, cfg, keccak, k, n)
    ensures Unknown(w, cfg, keccak, k) && w.da.l1Finalized <= n < w.da.challengeOrigin
    ensures k.inclusion + cfg.challengeWindow <= n
  {
    hide Truth, Unknown;
  }

  lemma StillLate(w: World, w': World, cfg: Config, keccak: Bytes -> Bytes, k: Key, n: nat)
    requires Late(w, cfg, keccak, k, n) && Unknown(w', cfg, keccak, k) && w'.chain == w.chain
    requires w'.da.l1Finalized == w.da.l1Finalized && w.da.challengeOrigin <= w'.da.challengeOrigin
    ensures Late(w', cfg, keccak, k, n)
  {
    hide Truth, Unknown;
  }

  /** The queue expires with the commitment as if unchallenged and is finalized by a signal for block `n`; then an L1
      reorg takes the answer away. All of these steps are legal. */
  lemma LateIsFinalized(w: World, cfg: Config, keccak: Bytes -> Bytes, k: Key, n: nat, quiet: nat)
    returns (ops: seq<Op>, w': World)
    requires Linked(w.da.state) && Late(w, cfg, keccak, k, n) && Calm(w, cfg, keccak, k, quiet) && Position(w) <= n
    requires forall c :: c in Queue(w.da.state) ==> ExpiresAt(w.da.state, c) <= n
    ensures Goes(w, cfg, keccak, true, ops, w') && Wrong(w', cfg, keccak, Tracked(cfg, k))
  {
    hide Linked, Has, Goes, LegalChain, Truth, ExpiresAt, Unknown, Went, Wrong, EverExpired, NothingForcesReorg, Step,
      Late;
    var steps := n + 1 - Position(w);
    LateMeans(w, cfg, keccak, k, n);
    var first, w1 := CalmBy(w, cfg, keccak, k, quiet, steps);
    WentBounds(w, w1, steps, quiet);
    AllDue(w, w1, steps, quiet, n);
    UnknownMeans(w1, cfg, keccak, k);
    SignalAll(w1, cfg, keccak, n);
    var w2 := Step(w1, cfg, keccak, FinalizeL1(n));
    var reset := LoseAnswer(w, w2, cfg, keccak, k, n);
    w' := Step(w2, cfg, keccak, reset);
    GoesThen(w1, cfg, keccak, true, [FinalizeL1(n)], w2, [reset], w');
    GoesThen(w, cfg, keccak, true, first, w1, [FinalizeL1(n)] + [reset], w');
    ops := first + ([FinalizeL1(n)] + [reset]);
  }

  /** The L1 reorg. */
  lemma LoseAnswer(w: World, w2: World, cfg: Config, keccak: Bytes -> Bytes, k: Key, n: nat) returns (op: Op)
    requires Late(w, cfg, keccak, k, n) && Linked(w2.da.state) && !w2.da.resetting && w2.chain == w.chain
    requires w2.da.l1Finalized == n && Tracked(cfg, k) in w2.finalized
    ensures Goes(w2, cfg, keccak, true, [op], Step(w2, cfg, keccak, op))
    ensures Wrong(Step(w2, cfg, keccak, op), cfg, keccak, Tracked(cfg, k))
  {
    hide Linked, Has, Goes, LegalChain, Truth, Reset;
    QuietLegal(w.chain, cfg, keccak, n);
    op := Rebase(n, Quiet(w.chain, n));
    GoesOne(w2, cfg, keccak, true, op);
    var m := n + Truth(w.chain, keccak, n)[k].at + cfg.resolveWindow;
    SameTruth(Quiet(w.chain, n), w.chain, keccak, n);
    QuietStays(Quiet(w.chain, n), keccak, n, m);
    assert EverExpired(Truth(Quiet(w.chain, n), keccak, m), cfg, KeyFor(Tracked(cfg, k)), m);
  }

  // ----- Another commitment that forces a reorg -----

  /** The next block challenges a commitment of its own, and the challenge is active after it. */
  lemma DecoyActive(d: Da, cfg: Config, keccak: Bytes -> Bytes, comm: Comm, block: nat)
    requires Linked(d.state) && d.challengeOrigin + 1 == block && cfg.usesKeccak && cfg.resolveWindow > 0
    ensures var s := AdvanceChallengeOrigin(d, cfg, keccak, block, Some([Challenged(comm, block)])).0.state;
      GetChallengeStatus(s, comm, block) == Active
  {
    hide ChallengeKey;
    var es := [Challenged(comm, block)];
    assert es[..|es| - 1] == [] && ApplyEvents(d.state, cfg, keccak, block, []) == d.state;
  }

  /** Such a commitment can be read, and it is tracked with an unresolved challenge. */
  lemma ReadDecoy(w: World, cfg: Config, keccak: Bytes -> Bytes, k: Key, comm: Comm)
    requires Linked(w.da.state) && Unknown(w, cfg, keccak, k) && comm.Keccak?
    requires GetChallengeStatus(w.da.state, comm, Position(w)) == Active
    ensures var w' := Step(w, cfg, keccak, Read(comm, Position(w), Found([]), false));
      var c := Tracked(cfg, Key(comm, Position(w)));
      && Unknown(w', cfg, keccak, k) && c in w'.da.state.commitments && Unresolved(w'.da.state, c)
      && w'.chain == w.chain && w'.da.l1Finalized == w.da.l1Finalized
      && w'.da.challengeOrigin == w.da.challengeOrigin && Position(w') == Position(w)
  {
    hide ChallengeKey, Truth, LegalChain, Linked;
  }

  /** Block `block` holds nothing but a challenge against a commitment of its own, which nobody answers. */
  ghost predicate DecoyAt(chain: Chain, comm: Comm, block: nat) {
    chain(block) == [Challenged(comm, block)] && Silent(chain, block)
  }

  /** Reading that commitment forces a reorg sooner or later, so the manager can always be led back to the block of
      `k` with an empty queue and all its records of challenges. */
  lemma ForceReset(w: World, cfg: Config, keccak: Bytes -> Bytes, k: Key, block: nat) returns (ops: seq<Op>, w': World)
    requires Linked(w.da.state) && Unknown(w, cfg, keccak, k) && cfg.resolveWindow > 0
    requires w.da.challengeOrigin < block && DecoyAt(w.chain, k.comm, block)
    ensures Linked(w'.da.state) && Goes(w, cfg, keccak, false, ops, w') && Cleared(w, w', cfg, keccak, k)
  {
    hide Linked, Has, Goes, Unknown, Went, Queue, Cleared, AdvanceChallengeOrigin, GetChallengeStatus, ExpiresAt,
      Unresolved, Step, LegalChain;
    UnknownMeans(w, cfg, keccak, k);
    var first, w1, stopped := ForwardBy(w, cfg, keccak, k, block, block - 1 - Position(w));
    ops, w' := first, w1;
    if !stopped {
      WentBounds(w, w1, block - 1 - Position(w), block);
      assert w1.da.challengeOrigin == block - 1 by { WentOrigin(w, w1, block - 1 - Position(w), block); }
      var second;
      second, w' := DecoyReset(w1, cfg, keccak, k, block);
      GoesThen(w, cfg, keccak, false, first, w1, second, w');
      ops := first + second;
      ClearedLater(w, w1, w', cfg, keccak, k);
    }
  }

  lemma WentOrigin(w: World, w': World, steps: nat, quiet: nat)
    requires Linked(w.da.state) && Linked(w'.da.state) && Went(w, w', steps, quiet)
    ensures w'.da.challengeOrigin == Max(w.da.challengeOrigin, Position(w'))
  {
  }

  lemma DecoyReset(w: World, cfg: Config, keccak: Bytes -> Bytes, k: Key, block: nat) returns (ops: seq<Op>, w': World)
    requires Linked(w.da.state) && Unknown(w, cfg, keccak, k) && cfg.resolveWindow > 0
    requires Position(w) + 1 == w.da.challengeOrigin + 1 == block && DecoyAt(w.chain, k.comm, block)
    ensures Linked(w'.da.state) && Goes(w, cfg, keccak, false, ops, w') && Cleared(w, w', cfg, keccak, k)
  {
    hide Linked, Has, Goes, Unknown, Went, Queue, Cleared, AdvanceChallengeOrigin, GetChallengeStatus, Step,
      LegalChain;
    UnknownMeans(w, cfg, keccak, k);
    var first, w1, stopped := Forward(w, cfg, keccak, k, block);
    ops, w' := first, w1;
    if !stopped {
      WentBounds(w, w1, 1, block);
      DecoyActive(w.da, cfg, keccak, k.comm, block) by { UnknownKeccak(w, cfg, keccak, k); }
      SameStatus(w1.da.state, AdvanceChallengeOrigin(w.da, cfg, keccak, block, Some(w.chain(block))).0.state, k.comm,
                 block);
      var second;
      second, w' := DecoyExpires(w1, cfg, keccak, k);
      GoesThen(w, cfg, keccak, false, first, w1, second, w');
      ops := first + second;
      ClearedLater(w, w1, w', cfg, keccak, k);
    }
  }

  lemma UnknownKeccak(w: World, cfg: Config, keccak: Bytes -> Bytes, k: Key)
    requires Unknown(w, cfg, keccak, k)
    ensures cfg.usesKeccak && k.comm.Keccak?
  {
    hide Truth, LegalChain, Linked, Has;
  }

  lemma SameStatus(s: State, s': State, comm: Comm, inclusion: nat)
    requires Linked(s) && Linked(s') && s.index == s'.index && s.heap == s'.heap
    ensures GetChallengeStatus(s, comm, inclusion) == GetChallengeStatus(s', comm, inclusion)
  {
    hide ChallengeKey, Linked;
  }

  /** The commitment challenged in the last block read is read, and a reorg is required at the latest when everything
      tracked is due. */
  lemma DecoyExpires(w: World, cfg: Config, keccak: Bytes -> Bytes, k: Key) returns (ops: seq<Op>, w': World)
    requires Linked(w.da.state) && Unknown(w, cfg, keccak, k) && Silent(w.chain, Position(w))
    requires GetChallengeStatus(w.da.state, k.comm, Position(w)) == Active
    ensures Linked(w'.da.state) && Goes(w, cfg, keccak, false, ops, w') && Cleared(w, w', cfg, keccak, k)
  {
    hide Linked, Has, Goes, Unknown, Queue, Cleared, GetChallengeStatus, ExpiresAt, Unresolved, Step, LegalChain;
    UnknownMeans(w, cfg, keccak, k);
    UnknownKeccak(w, cfg, keccak, k);
    var read := Read(k.comm, Position(w), Found([]), false);
    GoesOne(w, cfg, keccak, false, read);
    ReadDecoy(w, cfg, keccak, k, k.comm);
    var w1 := Step(w, cfg, keccak, read);
    var n, quiet := MaxExpiry(w1.da.state, w1.da.state.commitments), Position(w);
    var last, stopped;
    last, w', stopped := ForwardBy(w1, cfg, keccak, k, quiet, 1 + n);
    if !stopped {
      AllDue(w1, w', 1 + n, quiet, n);
      assert false;
    }
    ClearedLater(w, w1, w', cfg, keccak, k);
    GoesThen(w, cfg, keccak, false, [read], w1, last, w');
    ops := [read] + last;
  }

  /** So the commitment can always be read again alone in the queue, and finalized before the answer is final. */
  lemma LateAfterReset(w: World, cfg: Config, keccak: Bytes -> Bytes, k: Key, n: nat, block: nat)
    returns (ops: seq<Op>, w': World)
    requires Linked(w.da.state) && Late(w, cfg, keccak, k, n) && cfg.resolveWindow > 0
    requires w.da.challengeOrigin < block && DecoyAt(w.chain, k.comm, block)
    ensures Goes(w, cfg, keccak, false, ops, w') && Wrong(w', cfg, keccak, Tracked(cfg, k))
  {
    hide Linked, Goes, Unknown, Wrong, Cleared, Late, Step, ExpiresAt;
    LateMeans(w, cfg, keccak, k, n);
    var first, w1 := ForceReset(w, cfg, keccak, k, block);
    var read := ReadAgain(w, w1, cfg, keccak, k, block);
    var w2 := Step(w1, cfg, keccak, read);
    StillLate(w, w2, cfg, keccak, k, n);
    UnknownMeans(w2, cfg, keccak, k);
    UnknownExpiry(w2.da.state, cfg, k);
    var last;
    last, w' := LateIsFinalized(w2, cfg, keccak, k, n, block);
    CarefulGoes(w2, cfg, keccak, last, w');
    GoesThen(w1, cfg, keccak, false, [read], w2, last, w');
    GoesThen(w, cfg, keccak, false, first, w1, [read] + last, w');
    ops := first + ([read] + last);
  }

  lemma UnknownExpiry(s: State, cfg: Config, k: Key)
    requires Linked(s) && !Has(s.index, k)
    ensures ExpiresAt(s, Tracked(cfg, k)) == k.inclusion + cfg.challengeWindow
  {
    hide ChallengeKey;
  }

  // ----- From a good state -----

  lemma ChainOf(w: World, cfg: Config, keccak: Bytes -> Bytes)
    requires WorldInv(w, cfg, keccak)
    ensures LegalChain(w.chain, cfg, keccak)
  {
  }

  /** An unknown challenge that is unanswered in block `n` is doomed on the chain that is silent from then on. */
  lemma SilencedDoomed(w: World, cfg: Config, keccak: Bytes -> Bytes, k: Key, n: nat)
    requires Unknown(w, cfg, keccak, k) && w.da.challengeOrigin <= n
    requires k in Truth(w.chain, keccak, n) && !Truth(w.chain, keccak, n)[k].answered
    ensures Doomed(w.(chain := Quiet(w.chain, n)), cfg, keccak, k, n)
  {
    hide Truth, LegalChain, Linked, Has;
    QuietLegal(w.chain, cfg, keccak, n);
    SameTruth(Quiet(w.chain, n), w.chain, keccak, w.da.challengeOrigin);
    SameTruth(Quiet(w.chain, n), w.chain, keccak, n);
  }
}
