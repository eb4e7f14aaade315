/** What each call of the Alt-DA manager answers and changes, told from the ledger of the challenge contract, the
    manager's origins and the two windows. */
module DAAnswers {
  import opened Prelude
  import opened Commitments
  import opened DAState
  import opened DAManager
  import opened DAInv
  import opened DATracker
  import opened DAChain
  import opened DARuns
  import opened DATheorems

  // ----- Reading input -----

  /** The manager knows of a challenge against `k`: it read it since it last started over and has not forgotten it. */
  ghost predicate OnRecord(l: Ledger, index: map<string, nat>, k: Key) {
    k in l && Has(index, k)
  }

  /** The answer to a read. Commitments of the other type, and those whose challenge on record expired unanswered, are
      refused. Otherwise data that storage has is handed out, and an error of storage is passed on. If storage has no
      data, the answer to the challenge serves; without a challenge on record the data is lost once the challenge window
      is over; and else the read is pending, if the next L1 block can be looked at. */
  ghost predicate ReadAnswer(l: Ledger, index: map<string, nat>, origin: nat, cfg: Config, keccak: Bytes -> Bytes,
                             k: Key, storage: StorageReply, next: Option<seq<Event>>, a: Answer)
  {
    var refused := k.comm.Keccak? != cfg.usesKeccak
                   || (OnRecord(l, index, k) && !l[k].answered && l[k].at + cfg.resolveWindow <= origin);
    && (a == ExpiredChallenge <==> refused)
    && (!refused ==>
          match storage
          case Found(data) => a == Data(data)
          case StorageError => a == Failed
          case NotFound =>
            && (a.Data? <==> OnRecord(l, index, k) && l[k].answered)
            && (a.Data? ==> keccak(a.data) == k.comm.bytes)
            && (a == MissingPastWindow <==>
                  !OnRecord(l, index, k) && origin > k.inclusion + cfg.challengeWindow)
            && (!a.Data? && a != MissingPastWindow ==> a == if next.Some? then PendingChallenge else Failed))
  }

  /** Without a challenge contract nothing is on record. */
  lemma NothingIndexed(w: Tracker, cfg: Config, keccak: Bytes -> Bytes)
    requires Base(w, cfg, keccak) && !cfg.usesKeccak
    ensures w.da.state.index == map[] && w.ledger == map[]
  {
    hide ChallengeKey, Ordered, Divided, LedgerOk, AllShaped, Untriggered, TriggeredOk, Behind, Trails, ChallengeOk;
    var s := w.da.state;
    forall key | key in s.index ensures false {
      assert s.index[key] in s.expiredChallenges + s.challenges;
      NoChallenge(s.heap[s.index[key]], cfg, keccak, w.da.challengeOrigin);
    }
  }

  lemma NoChallenge(c: Challenge, cfg: Config, keccak: Bytes -> Bytes, origin: nat)
    ensures !ChallengeOk(c, map[], cfg, keccak, origin)
  {
  }

  /** The status on record is the ledger's. */
  lemma StatusOnRecord(w: Tracker, cfg: Config, keccak: Bytes -> Bytes, k: Key)
    requires Linked(w.da.state) && Base(w, cfg, keccak) && WellFormed(k.comm) && k.comm.Keccak? == cfg.usesKeccak
    ensures Has(w.da.state.index, k) ==> k.comm.Keccak? && k in w.ledger
    ensures GetChallengeStatus(w.da.state, k.comm, k.inclusion) ==
      if OnRecord(w.ledger, w.da.state.index, k) then StatusAt(w.ledger[k], cfg, w.da.challengeOrigin)
      else Uninitialized
    ensures GetChallengeStatus(w.da.state, k.comm, k.inclusion) == Resolved ==>
      keccak(GetChallenge(w.da.state, k.comm, k.inclusion).value.input) == k.comm.bytes
  {
    hide ChallengeKey, Ordered, Divided, LedgerOk, AllShaped, Untriggered, TriggeredOk, Behind, Trails;
    var s := w.da.state;
    if Has(s.index, k) {
      if !cfg.usesKeccak { NothingIndexed(w, cfg, keccak); }
      LookupExact(s.heap, s.index, s.expiredChallenges + s.challenges, w.ledger, cfg, keccak, w.da.challengeOrigin,
                  k.comm, k.inclusion);
    }
  }

  /** A read answers that, tracks the commitment unless it is refused, and looks one block ahead iff it is pending. */
  lemma ReadExactly(w: Tracker, cfg: Config, keccak: Bytes -> Bytes, k: Key, storage: StorageReply,
                    next: Option<seq<Event>>)
    requires Base(w, cfg, keccak) && WellFormed(k.comm)
    ensures var (d', a) := GetInput(w.da, cfg, keccak, k.comm, k.inclusion, storage, next);
      var s := w.da.state;
      && ReadAnswer(w.ledger, s.index, w.da.challengeOrigin, cfg, keccak, k, storage, next, a)
      && d'.state.commitments == s.commitments
         + (if a == ExpiredChallenge then [] else [Commitment(k.comm, k.inclusion, k.inclusion + cfg.challengeWindow)])
      && d'.state.expiredCommitments == s.expiredCommitments && d'.commitmentOrigin == w.da.commitmentOrigin
      && d'.challengeOrigin == w.da.challengeOrigin + (if a == PendingChallenge then 1 else 0)
      && (a != PendingChallenge ==> d'.state == s.(commitments := d'.state.commitments))
  {
    hide ChallengeKey, Base, Linked, GetChallengeStatus, GetChallenge, AdvanceChallengeOrigin;
    BaseLinked(w, cfg, keccak);
    var s := w.da.state;
    assert s.commitments + [] == s.commitments;
    if k.comm.Keccak? == cfg.usesKeccak { StatusOnRecord(w, cfg, keccak, k); }
    TrackLinked(s, cfg, k.comm, k.inclusion);
    var d1 := w.da.(state := TrackCommitment(s, cfg, k.comm, k.inclusion));
    ChallengeFrame(d1, cfg, keccak, w.da.challengeOrigin + 1, next);
    AdvanceKeepsMode(d1, cfg, keccak, w.da.challengeOrigin + 1, next);
  }

  /** In every possible run, against the contract's ledger of the whole chain. */
  lemma ReadsAnswer(chain: Chain, cfg: Config, keccak: Bytes -> Bytes, ops: seq<Op>, k: Key, storage: StorageReply,
                    next: Option<seq<Event>>)
    requires LegalChain(chain, cfg, keccak) && PossibleRun(StartWorld(chain), cfg, keccak, ops) && WellFormed(k.comm)
    ensures var w := Run(StartWorld(chain), cfg, keccak, ops);
      ReadAnswer(Truth(w.chain, keccak, w.da.challengeOrigin), w.da.state.index, w.da.challengeOrigin, cfg, keccak, k,
                 storage, next, GetInput(w.da, cfg, keccak, k.comm, k.inclusion, storage, next).1)
  {
    hide PossibleRun, Run, Base, LegalChain, Truth, GetInput, Has;
    ReachableBase(chain, cfg, keccak, ops);
    var w := Run(StartWorld(chain), cfg, keccak, ops);
    ReadExactly(View(w, keccak), cfg, keccak, k, storage, next);
    var truth, seen := Truth(w.chain, keccak, w.da.challengeOrigin), View(w, keccak).ledger;
    RecordIsTrue(w, cfg, keccak, k);
  }

  /** What is on record is what the chain says, whether or not the manager started over. */
  lemma RecordIsTrue(w: World, cfg: Config, keccak: Bytes -> Bytes, k: Key)
    requires WorldBase(w, cfg, keccak) && WellFormed(k.comm)
    ensures var truth, seen := Truth(w.chain, keccak, w.da.challengeOrigin), View(w, keccak).ledger;
      && (k.comm.Keccak? == cfg.usesKeccak ==>
            (OnRecord(truth, w.da.state.index, k) <==> OnRecord(seen, w.da.state.index, k)))
      && (k in seen ==> k in truth && seen[k] == truth[k])
  {
    hide Truth, LegalChain, Base, Has;
    if Has(w.da.state.index, k) && k.comm.Keccak? == cfg.usesKeccak {
      BaseLinked(View(w, keccak), cfg, keccak);
      StatusOnRecord(View(w, keccak), cfg, keccak, k);
    }
  }

  // ----- Advancing -----

  /** When a commitment is due: with the resolve window of its challenge on record, or else with its challenge
      window. */
  ghost function DueAt(l: Ledger, index: map<string, nat>, cfg: Config, c: Commitment): nat {
    if OnRecord(l, index, KeyFor(c)) then l[KeyFor(c)].at + cfg.resolveWindow else c.inclusion + cfg.challengeWindow
  }

  /** Its challenge is on record and not answered. */
  ghost predicate Open(l: Ledger, index: map<string, nat>, c: Commitment) {
    OnRecord(l, index, KeyFor(c)) && !l[KeyFor(c)].answered
  }

  lemma DueExactly(w: Tracker, cfg: Config, keccak: Bytes -> Bytes, c: Commitment)
    requires Linked(w.da.state) && Base(w, cfg, keccak) && Shaped(c, cfg)
    ensures ExpiresAt(w.da.state, c) == DueAt(w.ledger, w.da.state.index, cfg, c)
    ensures Unresolved(w.da.state, c) <==> Open(w.ledger, w.da.state.index, c)
  {
    hide ChallengeKey, Ordered, Divided, LedgerOk, AllShaped, Untriggered, TriggeredOk, Behind, Trails;
    var s := w.da.state;
    if Has(s.index, KeyFor(c)) {
      if !cfg.usesKeccak { NothingIndexed(w, cfg, keccak); }
      LookupExact(s.heap, s.index, s.expiredChallenges + s.challenges, w.ledger, cfg, keccak, w.da.challengeOrigin,
                  c.comm, c.inclusion);
    }
  }

  /** The first `n` of `cs` are due by `block`, and the next one is not. */
  ghost predicate DuePrefix(cs: seq<Commitment>, l: Ledger, index: map<string, nat>, cfg: Config, block: nat, n: nat) {
    && n <= |cs| && (forall i :: 0 <= i < n ==> DueAt(l, index, cfg, cs[i]) <= block)
    && (n < |cs| ==> DueAt(l, index, cfg, cs[n]) > block)
  }

  /** Nothing is tracked or challenged. */
  predicate Idle(s: State) {
    s.commitments == [] && s.expiredCommitments == [] && s.challenges == [] && s.expiredChallenges == []
  }

  /** AdvanceL1Origin for `block`: `n` tracked commitments are due once its events are read. A reorg is required iff one
      of them has an open challenge. The head is taken from the L1 finalized head, one challenge window back, iff
      nothing is tracked or challenged then and the L1 block can be had. */
  ghost predicate AdvanceAnswer(w: Tracker, cfg: Config, block: nat, fetched: bool, refOk: bool, l: Ledger, d': Da,
                                result: Advance, n: nat)
    requires n <= |w.da.state.commitments|
  {
    var d, s := w.da, w.da.state;
    var due := if fetched && block > d.commitmentOrigin then s.commitments[..n] else [];
    var demanded := exists c :: c in due && Open(l, d'.state.index, c);
    var fromL1 := fetched && !demanded && Idle(d'.state) && d.l1Finalized >= cfg.challengeWindow;
    && (result == ReorgRequired <==> demanded)
    && (result == FetchFailed <==> !fetched || (fromL1 && !refOk))
    && d'.state.commitments == s.commitments[|due|..] && d'.state.expiredCommitments == s.expiredCommitments + due
    && d'.challengeOrigin == (if fetched then Max(d.challengeOrigin, block) else d.challengeOrigin)
    && d'.commitmentOrigin == (if fetched && !demanded then Max(d.commitmentOrigin, block) else d.commitmentOrigin)
    && d'.resetting == demanded && d'.l1Finalized == d.l1Finalized
    && d'.finalizedHead == (if fromL1 && refOk then d.l1Finalized - cfg.challengeWindow else d.finalizedHead)
  }

  lemma AdvanceExactly(w: Tracker, cfg: Config, keccak: Bytes -> Bytes, block: nat, es: Option<seq<Event>>,
                       refOk: bool) returns (n: nat)
    requires Base(w, cfg, keccak) && !w.da.resetting && LegalBlock(w, cfg, keccak, block, es)
    ensures n <= |w.da.state.commitments|
    ensures var (d', result) := AdvanceL1Origin(w.da, cfg, keccak, block, es, refOk);
      var l := LedgerAfter(w.ledger, cfg, keccak, w.da, d', es);
      && DuePrefix(w.da.state.commitments, l, d'.state.index, cfg, block, n)
      && AdvanceAnswer(w, cfg, block, block <= w.da.challengeOrigin || es.Some? || !cfg.usesKeccak, refOk, l, d',
                       result, n)
  {
    hide ChallengeKey, Base, Linked, AdvanceChallengeOrigin, AdvanceCommitmentOrigin, AdvanceL1Origin, LedgerAfter,
      DuePrefix, Open, DueAt, ExpiresAt;
    BaseLinked(w, cfg, keccak);
    AdvanceChallengeInv(w, cfg, keccak, block, es);
    ChallengeFrame(w.da, cfg, keccak, block, es);
    FetchedExactly(w.da, cfg, keccak, block, es);
    var d1 := AdvanceChallengeOrigin(w.da, cfg, keccak, block, es).0;
    var w1 := w.(da := d1, ledger := LedgerAfter(w.ledger, cfg, keccak, w.da, d1, es));
    n := ExpireExactly(w1, cfg, keccak, block);
    AdvanceStages(w.da, cfg, keccak, block, es, refOk);
    SameLedgerAfter(w, cfg, keccak, d1, AdvanceL1Origin(w.da, cfg, keccak, block, es, refOk).0, es);
    assert w.da.state.commitments[0..] == w.da.state.commitments;
    assert w.da.state.expiredCommitments + [] == w.da.state.expiredCommitments;
  }

  lemma AdvanceStages(d: Da, cfg: Config, keccak: Bytes -> Bytes, block: nat, es: Option<seq<Event>>, refOk: bool)
    requires Linked(d.state)
    ensures var (d1, ok) := AdvanceChallengeOrigin(d, cfg, keccak, block, es);
      var (d2, reorg) := AdvanceCommitmentOrigin(d1, block);
      var (d', result) := AdvanceL1Origin(d, cfg, keccak, block, es, refOk);
      var fromL1 := !reorg && Idle(d2.state) && d2.l1Finalized >= cfg.challengeWindow;
      if !ok then d' == d1 && result == FetchFailed
      else
        && d' == (if fromL1 && refOk then d2.(finalizedHead := d2.l1Finalized - cfg.challengeWindow) else d2)
        && result == if reorg then ReorgRequired else if fromL1 && !refOk then FetchFailed else Done
  {
    hide AdvanceChallengeOrigin, AdvanceCommitmentOrigin;
  }

  lemma SameLedgerAfter(w: Tracker, cfg: Config, keccak: Bytes -> Bytes, d1: Da, d': Da, es: Option<seq<Event>>)
    requires d'.challengeOrigin == d1.challengeOrigin
    ensures LedgerAfter(w.ledger, cfg, keccak, w.da, d', es) == LedgerAfter(w.ledger, cfg, keccak, w.da, d1, es)
  {
  }

  lemma FetchedExactly(d: Da, cfg: Config, keccak: Bytes -> Bytes, block: nat, es: Option<seq<Event>>)
    requires Linked(d.state)
    ensures var (d', ok) := AdvanceChallengeOrigin(d, cfg, keccak, block, es);
      && (ok <==> block <= d.challengeOrigin || es.Some? || !cfg.usesKeccak) && d'.finalizedHead == d.finalizedHead
      && d'.challengeOrigin == if ok then Max(d.challengeOrigin, block) else d.challengeOrigin
  {
    hide ChallengeKey, Linked, ApplyEvents, ExpireChallenges;
  }

  /** Expiring commitments up to `block`. */
  lemma ExpireExactly(w: Tracker, cfg: Config, keccak: Bytes -> Bytes, block: nat) returns (n: nat)
    requires Linked(w.da.state) && Base(w, cfg, keccak) && !w.da.resetting
    ensures n <= |w.da.state.commitments|
    ensures var (d', reorg) := AdvanceCommitmentOrigin(w.da, block);
      var s, l := w.da.state, w.ledger;
      var due := if block > w.da.commitmentOrigin then s.commitments[..n] else [];
      && DuePrefix(s.commitments, l, s.index, cfg, block, n)
      && (reorg <==> exists c :: c in due && Open(l, s.index, c))
      && d'.state == s.(commitments := s.commitments[|due|..], expiredCommitments := s.expiredCommitments + due)
      && d' == w.da.(state := d'.state, resetting := reorg,
                     commitmentOrigin := if reorg then w.da.commitmentOrigin else Max(w.da.commitmentOrigin, block))
  {
    hide ChallengeKey, Tracks, Untriggered, TriggeredOk, Behind, Trails, ExpiresAt, Unresolved, Open, DueAt, Linked,
      Shaped;
    var s := w.da.state;
    var cs := s.commitments;
    n := ExpiredPrefix(s, cs, block);
    forall i | 0 <= i < |cs|
      ensures ExpiresAt(s, cs[i]) == DueAt(w.ledger, s.index, cfg, cs[i])
      ensures Unresolved(s, cs[i]) <==> Open(w.ledger, s.index, cs[i])
    {
      assert cs[i] in cs;
      DueExactly(w, cfg, keccak, cs[i]);
    }
    assert cs[0..] == cs && s.expiredCommitments + [] == s.expiredCommitments;
    if i :| 0 <= i < n && Unresolved(s, cs[i]) { assert cs[..n][i] in cs[..n]; }
  }

  // ----- Finality -----

  /** A finality signal for `f` finalizes the leading expired commitments that are due by `f`; the head is the inclusion
      block of the last. The challenges whose window closed by `f` and by the challenge origin are forgotten, and no
      others. */
  lemma FinalizeExactly(w: Tracker, cfg: Config, keccak: Bytes -> Bytes, f: nat) returns (n: nat)
    requires Base(w, cfg, keccak) && !w.da.resetting
    ensures var d, s, d' := w.da, w.da.state, Finalize(w.da, f);
      && DuePrefix(s.expiredCommitments, w.ledger, s.index, cfg, f, n)
      && d'.state.expiredCommitments == s.expiredCommitments[n..] && d'.state.commitments == s.commitments
      && d'.finalizedHead == d'.state.lastPruned
         == (if n == 0 then s.lastPruned else s.expiredCommitments[n - 1].inclusion)
      && d'.l1Finalized == f && d'.challengeOrigin == d.challengeOrigin && d'.commitmentOrigin == d.commitmentOrigin
      && d'.resetting == d.resetting
      && (forall k :: k in w.ledger ==>
            (Has(d'.state.index, k) <==>
               Has(s.index, k) && w.ledger[k].at + cfg.resolveWindow > Min(f, d.challengeOrigin)))
  {
    hide ChallengeKey, Untriggered, TriggeredOk, Behind, Trails, ExpiresAt, DueAt, Shaped, KeysOf, EndedPrefix, Tracks,
      Linked;
    BaseLinked(w, cfg, keccak);
    var s := w.da.state;
    var cs := s.expiredCommitments;
    n := ExpiredPrefix(s, cs, f);
    forall i | 0 <= i < |cs| ensures ExpiresAt(s, cs[i]) == DueAt(w.ledger, s.index, cfg, cs[i]) {
      assert cs[i] in cs;
      DueExactly(w, cfg, keccak, cs[i]);
    }
    forall k | k in w.ledger
      ensures Has(Finalize(w.da, f).state.index, k) <==>
        Has(s.index, k) && w.ledger[k].at + cfg.resolveWindow > Min(f, w.da.challengeOrigin)
    {
      SameTracks(s, f, w.ledger, cfg, keccak, w.da.challengeOrigin);
      PrunedExactly(PruneCommitments(s, f), w.ledger, cfg, keccak, w.da.challengeOrigin, f, k);
    }
  }

  lemma SameTracks(s: State, f: nat, l: Ledger, cfg: Config, keccak: Bytes -> Bytes, origin: nat)
    requires Linked(s) && Tracks(s, l, cfg, keccak, origin, origin)
    ensures Tracks(PruneCommitments(s, f), l, cfg, keccak, origin, origin)
  {
    hide RefsOk, Ordered, Divided, Indexed, LedgerOk, ExpiredPrefix;
  }

  lemma PrunedExactly(s: State, l: Ledger, cfg: Config, keccak: Bytes -> Bytes, origin: nat, f: nat, k: Key)
    requires Linked(s) && Tracks(s, l, cfg, keccak, origin, origin) && k in l
    ensures Has(PruneChallenges(s, f).index, k) <==>
      Has(s.index, k) && l[k].at + cfg.resolveWindow > Min(f, origin)
  {
    hide ChallengeKey, KeysOf;
    if Has(s.index, k) {
      var refs := s.expiredChallenges + s.challenges;
      LookupExact(s.heap, s.index, refs, l, cfg, keccak, origin, k.comm, k.inclusion);
      PrunedKeys(s.heap, s.index, s.expiredChallenges, s.challenges, f, ChallengeKey(k.comm, k.inclusion));
    }
  }
}
