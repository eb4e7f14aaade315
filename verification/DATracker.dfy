/** Each operation of the Alt-DA manager against a ledger of the events it has read since its last full reset. */
module DATracker {
  import opened Prelude
  import opened Commitments
  import opened DAState
  import opened DAManager
  import opened DAInv

  /** The manager, the ledger of the events it has read since its last full reset, and the keys that have
      required an L2 reorg since then. */
  datatype Tracker = Tracker(da: Da, ledger: Ledger, triggered: set<Key>)

  // ----- Ledger growth -----

  /** What a block's legal events do to one key: nothing is forgotten, new challenges are dated with the
      block, and a challenge whose window is over cannot change. */
  lemma {:induction false} LedgerGrowth(l: Ledger, cfg: Config, keccak: Bytes -> Bytes, block: nat, es: seq<Event>,
                                        k: Key)
    requires LegalEvents(l, cfg, keccak, block, es)
    ensures var l' := RecordAll(l, keccak, block, es);
      && (k in l ==> k in l' && l'[k].at == l[k].at && (l[k].answered ==> l'[k].answered))
      && (k in l' && k !in l ==> l'[k].at == block)
      && (k in l && l[k].at + cfg.resolveWindow < block ==> l'[k] == l[k])
  {
    if |es| > 0 { LedgerGrowth(l, cfg, keccak, block, es[..|es| - 1], k); }
  }

  lemma {:induction false} IndexGrowth(s: State, cfg: Config, keccak: Bytes -> Bytes, block: nat, es: seq<Event>)
    requires Linked(s)
    ensures s.index.Keys <= ApplyEvents(s, cfg, keccak, block, es).index.Keys
    ensures ApplyEvents(s, cfg, keccak, block, es).commitments == s.commitments
    ensures ApplyEvents(s, cfg, keccak, block, es).expiredCommitments == s.expiredCommitments
    ensures ApplyEvents(s, cfg, keccak, block, es).lastPruned == s.lastPruned
  {
    hide ChallengeKey, Linked;
    if |es| > 0 { IndexGrowth(s, cfg, keccak, block, es[..|es| - 1]); }
  }

  // ----- Commitments -----

  function KeyFor(c: Commitment): Key {
    Key(c.comm, c.inclusion)
  }

  ghost predicate Shaped(c: Commitment, cfg: Config) {
    c.windowEnd == c.inclusion + cfg.challengeWindow && TypeAllowed(cfg, c.comm) && WellFormed(c.comm)
  }

  /** The challenge of a tracked commitment is not forgotten once it expired. */
  ghost predicate Remembered(index: map<string, nat>, l: Ledger, cfg: Config, origin: nat, k: Key) {
    EverExpired(l, cfg, k, origin) ==> Has(index, k)
  }

  ghost predicate AllShaped(cs: seq<Commitment>, cfg: Config) {
    forall c :: c in cs ==> Shaped(c, cfg)
  }

  ghost predicate AllRemembered(cs: seq<Commitment>, index: map<string, nat>, l: Ledger, cfg: Config, origin: nat) {
    forall c :: c in cs ==> Remembered(index, l, cfg, origin, KeyFor(c))
  }

  /** Answered, or never challenged and no longer challengeable. */
  ghost predicate Clean(l: Ledger, cfg: Config, k: Key, origin: nat) {
    if k in l then l[k].answered else k.inclusion + cfg.challengeWindow <= origin
  }

  ghost predicate AllClean(cs: seq<Commitment>, l: Ledger, cfg: Config, origin: nat) {
    forall c :: c in cs ==> Clean(l, cfg, KeyFor(c), origin)
  }

  /** A tracked commitment that has required a reorg is no longer on record, so it cannot require another. */
  ghost predicate Untriggered(cs: seq<Commitment>, index: map<string, nat>, triggered: set<Key>) {
    forall c :: c in cs && KeyFor(c) in triggered ==> !Has(index, KeyFor(c))
  }

  ghost predicate TriggeredOk(triggered: set<Key>, l: Ledger, cfg: Config, origin: nat) {
    forall k :: k in triggered ==> EverExpired(l, cfg, k, origin)
  }

  /** A head is not set, or trails the L1 finalized head by one of the two windows. */
  ghost predicate Trails(head: nat, l1Finalized: nat, cfg: Config) {
    head == 0 || head + Min(cfg.challengeWindow, cfg.resolveWindow) <= l1Finalized
  }

  /** A challenge is dropped from the index only once its window lies behind the L1 finalized head. */
  ghost predicate Behind(index: map<string, nat>, l: Ledger, cfg: Config, l1Finalized: nat) {
    forall k :: k in l && !Has(index, k) ==> l[k].at + cfg.resolveWindow <= l1Finalized
  }

  /** What every step keeps: the queues and the index are in step with the ledger, no head runs ahead, and no
      commitment can require a second reorg. */
  ghost predicate Base(w: Tracker, cfg: Config, keccak: Bytes -> Bytes) {
    var d, s := w.da, w.da.state;
    && Linked(s)
    && Tracks(s, w.ledger, cfg, keccak, d.challengeOrigin, d.challengeOrigin)
    && (!cfg.usesKeccak ==> w.ledger == map[])
    && d.commitmentOrigin <= d.challengeOrigin
    && Trails(s.lastPruned, d.l1Finalized, cfg) && Trails(d.finalizedHead, d.l1Finalized, cfg)
    && TriggeredOk(w.triggered, w.ledger, cfg, d.challengeOrigin)
    && Behind(s.index, w.ledger, cfg, d.l1Finalized)
    && (!d.resetting ==>
          && AllShaped(s.commitments, cfg) && AllShaped(s.expiredCommitments, cfg)
          && Untriggered(s.commitments, s.index, w.triggered))
  }

  /** What only careful steps keep: no expired challenge of a tracked commitment is forgotten, and what awaits
      finality is clean. */
  ghost predicate Guarded(w: Tracker, cfg: Config) {
    var d, s := w.da, w.da.state;
    !d.resetting ==>
      && AllRemembered(s.commitments, s.index, w.ledger, cfg, d.challengeOrigin)
      && AllClean(s.expiredCommitments, w.ledger, cfg, d.challengeOrigin)
  }

  ghost predicate Inv(w: Tracker, cfg: Config, keccak: Bytes -> Bytes) {
    Base(w, cfg, keccak) && Guarded(w, cfg)
  }

  lemma NothingTracked(s: State, cfg: Config, keccak: Bytes -> Bytes, origin: nat)
    requires s.challenges == [] && s.expiredChallenges == [] && s.index == map[]
    ensures Linked(s) && Tracks(s, map[], cfg, keccak, origin, origin)
  {
    hide ChallengeKey, KeyOf, Has, ChallengeOk;
  }

  lemma NewInv(cfg: Config, keccak: Bytes -> Bytes)
    ensures Inv(Tracker(NewDA(), map[], {}), cfg, keccak)
  {
    hide Tracks, Linked;
    NothingTracked(NewState(), cfg, keccak, 0);
  }

  // ----- Advancing the challenge origin -----

  /** The ledger after the manager moved its challenge origin from `d` to `d'` reading `es`. */
  function LedgerAfter(l: Ledger, cfg: Config, keccak: Bytes -> Bytes, d: Da, d': Da, es: Option<seq<Event>>): Ledger {
    if cfg.usesKeccak && es.Some? && d'.challengeOrigin > d.challengeOrigin
    then RecordAll(l, keccak, d'.challengeOrigin, es.value) else l
  }

  ghost predicate LegalBlock(w: Tracker, cfg: Config, keccak: Bytes -> Bytes, block: nat, es: Option<seq<Event>>) {
    es.Some? && cfg.usesKeccak && block > w.da.challengeOrigin ==> LegalEvents(w.ledger, cfg, keccak, block, es.value)
  }

  lemma RememberedLater(cs: seq<Commitment>, index: map<string, nat>, index': map<string, nat>, l: Ledger, cfg: Config,
                        keccak: Bytes -> Bytes, origin: nat, block: nat, es: seq<Event>)
    requires AllRemembered(cs, index, l, cfg, origin) && block > origin && LegalEvents(l, cfg, keccak, block, es)
    requires index.Keys <= index'.Keys && LedgerOk(RecordAll(l, keccak, block, es), cfg, index', origin, block)
    ensures AllRemembered(cs, index', RecordAll(l, keccak, block, es), cfg, block)
  {
    hide ChallengeKey, RecordAll, LegalEvents;
    forall c | c in cs ensures Remembered(index', RecordAll(l, keccak, block, es), cfg, block, KeyFor(c)) {
      LedgerGrowth(l, cfg, keccak, block, es, KeyFor(c));
      assert Remembered(index, l, cfg, origin, KeyFor(c));
    }
  }

  /** A clean commitment stays clean: it can be neither challenged again nor lose its answer. */
  lemma CleanLater(cs: seq<Commitment>, index: map<string, nat>, l: Ledger, cfg: Config,
                   keccak: Bytes -> Bytes, origin: nat, block: nat, es: seq<Event>)
    requires AllClean(cs, l, cfg, origin) && block > origin && LegalEvents(l, cfg, keccak, block, es)
    requires LedgerOk(RecordAll(l, keccak, block, es), cfg, index, origin, block)
    ensures AllClean(cs, RecordAll(l, keccak, block, es), cfg, block)
  {
    hide ChallengeKey, RecordAll, LegalEvents;
    forall c | c in cs ensures Clean(RecordAll(l, keccak, block, es), cfg, KeyFor(c), block) {
      LedgerGrowth(l, cfg, keccak, block, es, KeyFor(c));
      assert Clean(l, cfg, KeyFor(c), origin);
    }
  }

  lemma TriggeredLater(triggered: set<Key>, l: Ledger, cfg: Config, keccak: Bytes -> Bytes, origin: nat, block: nat,
                       es: seq<Event>)
    requires TriggeredOk(triggered, l, cfg, origin) && block > origin && LegalEvents(l, cfg, keccak, block, es)
    ensures TriggeredOk(triggered, RecordAll(l, keccak, block, es), cfg, block)
  {
    hide RecordAll, LegalEvents;
    forall k | k in triggered ensures EverExpired(RecordAll(l, keccak, block, es), cfg, k, block) {
      LedgerGrowth(l, cfg, keccak, block, es, k);
    }
  }

  /** A challenge is made once, so it never enters the index again. */
  lemma {:induction false} NotReindexed(s: State, l: Ledger, cfg: Config, keccak: Bytes -> Bytes, block: nat,
                                        es: seq<Event>, k: Key)
    requires Linked(s) && LegalEvents(l, cfg, keccak, block, es) && k in l && !Has(s.index, k)
    requires k.comm.Keccak? && WellFormed(k.comm)
    ensures !Has(ApplyEvents(s, cfg, keccak, block, es).index, k) && k in RecordAll(l, keccak, block, es)
  {
    hide ChallengeKey, Linked;
    if |es| > 0 {
      NotReindexed(s, l, cfg, keccak, block, es[..|es| - 1], k);
      var e := es[|es| - 1];
      if e.Challenged? { KeccakKeyInjective(k.comm, k.inclusion, e.comm, e.inclusion); }
    }
  }

  lemma UntriggeredLater(s: State, triggered: set<Key>, l: Ledger, cfg: Config, keccak: Bytes -> Bytes, origin: nat,
                         block: nat, es: seq<Event>)
    requires Linked(s) && Untriggered(s.commitments, s.index, triggered) && TriggeredOk(triggered, l, cfg, origin)
    requires LedgerOk(l, cfg, s.index, origin, origin) && LegalEvents(l, cfg, keccak, block, es)
    ensures Untriggered(s.commitments, ApplyEvents(s, cfg, keccak, block, es).index, triggered)
  {
    hide ChallengeKey, Linked, LegalEvents, ApplyEvents, Has, RecordAll;
    forall c | c in s.commitments && KeyFor(c) in triggered
      ensures !Has(ApplyEvents(s, cfg, keccak, block, es).index, KeyFor(c))
    {
      NotReindexed(s, l, cfg, keccak, block, es, KeyFor(c));
    }
  }

  lemma BehindLater(index: map<string, nat>, index': map<string, nat>, l: Ledger, cfg: Config,
                    keccak: Bytes -> Bytes, origin: nat, block: nat, es: seq<Event>, l1Finalized: nat)
    requires Behind(index, l, cfg, l1Finalized) && block > origin && LegalEvents(l, cfg, keccak, block, es)
    requires index.Keys <= index'.Keys && LedgerOk(RecordAll(l, keccak, block, es), cfg, index', origin, block)
    ensures Behind(index', RecordAll(l, keccak, block, es), cfg, l1Finalized)
  {
    hide ChallengeKey, RecordAll, LegalEvents;
    var l' := RecordAll(l, keccak, block, es);
    forall k | k in l' && !Has(index', k) ensures l'[k].at + cfg.resolveWindow <= l1Finalized {
      LedgerGrowth(l, cfg, keccak, block, es, k);
    }
  }

  lemma WiderBound(l: Ledger, cfg: Config, index: map<string, nat>, origin: nat, block: nat)
    requires LedgerOk(l, cfg, index, origin, origin) && block >= origin
    ensures LedgerOk(l, cfg, index, origin, block)
  {
    hide ChallengeKey;
  }

  /** Processing one more block keeps the tracker in step with the ledger. */
  lemma LoadAndExpire(w: Tracker, cfg: Config, keccak: Bytes -> Bytes, block: nat, es: seq<Event>)
    requires Base(w, cfg, keccak) && cfg.usesKeccak && block > w.da.challengeOrigin
    requires LegalEvents(w.ledger, cfg, keccak, block, es)
    ensures var s' := ExpireChallenges(ApplyEvents(w.da.state, cfg, keccak, block, es), block);
      var w' := w.(da := w.da.(state := s', challengeOrigin := block),
                   ledger := RecordAll(w.ledger, keccak, block, es));
      Base(w', cfg, keccak) && (Guarded(w, cfg) ==> Guarded(w', cfg))
  {
    hide ChallengeKey, RefsOk, Ordered, Divided, Indexed, LedgerOk, AllShaped, AllRemembered, AllClean, Untriggered,
      TriggeredOk, Behind, Trails, Linked, ApplyEvents, RecordAll, LegalEvents, EndedPrefix, ExpireRefs;
    var s, o := w.da.state, w.da.challengeOrigin;
    var s1 := ApplyEvents(s, cfg, keccak, block, es);
    IndexGrowth(s, cfg, keccak, block, es);
    WiderBound(w.ledger, cfg, s.index, o, block);
    EventsTrack(s, w.ledger, cfg, keccak, o, block, es);
    ExpireTracks(s1, RecordAll(w.ledger, keccak, block, es), cfg, keccak, o, block);
    TriggeredLater(w.triggered, w.ledger, cfg, keccak, o, block, es);
    BehindLater(s.index, s1.index, w.ledger, cfg, keccak, o, block, es, w.da.l1Finalized);
    if !w.da.resetting {
      UntriggeredLater(s, w.triggered, w.ledger, cfg, keccak, o, block, es);
      if Guarded(w, cfg) {
        RememberedLater(s.commitments, s.index, s1.index, w.ledger, cfg, keccak, o, block, es);
        CleanLater(s.expiredCommitments, s1.index, w.ledger, cfg, keccak, o, block, es);
      }
    }
  }

  /** Without a challenge contract nothing is ever tracked, so only the origin moves. */
  lemma GenericExpire(w: Tracker, cfg: Config, keccak: Bytes -> Bytes, block: nat)
    requires Base(w, cfg, keccak) && !cfg.usesKeccak && block > w.da.challengeOrigin
    ensures var w' := w.(da := w.da.(state := ExpireChallenges(w.da.state, block), challengeOrigin := block));
      Base(w', cfg, keccak) && (Guarded(w, cfg) ==> Guarded(w', cfg))
  {
    hide ChallengeKey, RefsOk, Ordered, Divided, Indexed, LedgerOk, AllShaped, AllRemembered, AllClean, Untriggered,
      TriggeredOk, Behind, Trails, Linked, EndedPrefix, ExpireRefs;
    var s, o := w.da.state, w.da.challengeOrigin;
    WiderBound(w.ledger, cfg, s.index, o, block);
    ExpireTracks(s, w.ledger, cfg, keccak, o, block);
    NoLedger(s.commitments, s.expiredCommitments, s.index, w.triggered, cfg, o, block);
  }

  lemma NoLedger(cs: seq<Commitment>, es: seq<Commitment>, index: map<string, nat>, triggered: set<Key>, cfg: Config,
                 o: nat, block: nat)
    requires block > o
    ensures TriggeredOk(triggered, map[], cfg, o) ==> TriggeredOk(triggered, map[], cfg, block)
    ensures AllRemembered(cs, index, map[], cfg, o) ==> AllRemembered(cs, index, map[], cfg, block)
    ensures AllClean(es, map[], cfg, o) ==> AllClean(es, map[], cfg, block)
  {
    hide ChallengeKey;
  }

  lemma AdvanceChallengeInv(w: Tracker, cfg: Config, keccak: Bytes -> Bytes, block: nat, es: Option<seq<Event>>)
    requires Base(w, cfg, keccak) && LegalBlock(w, cfg, keccak, block, es)
    ensures var d' := AdvanceChallengeOrigin(w.da, cfg, keccak, block, es).0;
      var w' := w.(da := d', ledger := LedgerAfter(w.ledger, cfg, keccak, w.da, d', es));
      Base(w', cfg, keccak) && (Guarded(w, cfg) ==> Guarded(w', cfg))
  {
    hide Tracks, AllShaped, AllRemembered, AllClean, Untriggered, TriggeredOk, Behind, Trails, ExpireChallenges,
      ApplyEvents, RecordAll, LegalEvents, Linked;
    if block > w.da.challengeOrigin {
      if !cfg.usesKeccak { GenericExpire(w, cfg, keccak, block); }
      else if es.Some? { LoadAndExpire(w, cfg, keccak, block, es.value); }
    }
  }

  // ----- Advancing the commitment origin -----

  /** The keys of expiring commitments whose challenge is not resolved. */
  function TriggeredBy(s: State, block: nat): set<Key>
    requires Linked(s)
  {
    set i | 0 <= i < ExpiredPrefix(s, s.commitments, block) && Unresolved(s, s.commitments[i])
      :: KeyFor(s.commitments[i])
  }

  /** An expiring commitment is flagged, and then its challenge expired unanswered, or it is clean, unless its
      expired challenge was forgotten. */
  lemma ExpiringIsCleanOrFlagged(s: State, l: Ledger, cfg: Config, keccak: Bytes -> Bytes, origin: nat, c: Commitment,
                                 block: nat)
    requires Linked(s) && Tracks(s, l, cfg, keccak, origin, origin) && (!cfg.usesKeccak ==> l == map[])
    requires Shaped(c, cfg) && ExpiresAt(s, c) <= block <= origin
    ensures Unresolved(s, c) ==> EverExpired(l, cfg, KeyFor(c), origin)
    ensures !Unresolved(s, c) ==>
      (Clean(l, cfg, KeyFor(c), origin) <==> Remembered(s.index, l, cfg, origin, KeyFor(c)))
  {
    hide ChallengeKey, Ordered, Divided;
    var refs := s.expiredChallenges + s.challenges;
    if Has(s.index, KeyFor(c)) {
      if c.comm.Keccak? { LookupExact(s.heap, s.index, refs, l, cfg, keccak, origin, c.comm, c.inclusion); }
    }
  }

  lemma ExpiringPrefix(s: State, l: Ledger, cfg: Config, keccak: Bytes -> Bytes, origin: nat, block: nat)
    requires Linked(s) && Tracks(s, l, cfg, keccak, origin, origin) && (!cfg.usesKeccak ==> l == map[])
    requires AllShaped(s.commitments, cfg) && block <= origin
    ensures var (s', reorg) := ExpireCommitments(s, block);
      && (reorg <==> TriggeredBy(s, block) != {})
      && (!reorg ==> AllRemembered(s.commitments, s.index, l, cfg, origin) ==>
            AllClean(s.expiredCommitments, l, cfg, origin) ==> AllClean(s'.expiredCommitments, l, cfg, origin))
    ensures TriggeredOk(TriggeredBy(s, block), l, cfg, origin)
  {
    hide ChallengeKey, Tracks, ExpiresAt, Unresolved, Linked, EverExpired, Clean, Remembered;
    var n := ExpiredPrefix(s, s.commitments, block);
    forall i | 0 <= i < n
      ensures Unresolved(s, s.commitments[i]) ==> EverExpired(l, cfg, KeyFor(s.commitments[i]), origin)
      ensures !Unresolved(s, s.commitments[i]) && Remembered(s.index, l, cfg, origin, KeyFor(s.commitments[i])) ==>
        Clean(l, cfg, KeyFor(s.commitments[i]), origin)
    {
      assert s.commitments[i] in s.commitments;
      ExpiringIsCleanOrFlagged(s, l, cfg, keccak, origin, s.commitments[i], block);
    }
    if i :| 0 <= i < n && Unresolved(s, s.commitments[i]) {
      assert KeyFor(s.commitments[i]) in TriggeredBy(s, block);
    }
  }

  lemma AdvanceCommitmentInv(w: Tracker, cfg: Config, keccak: Bytes -> Bytes, block: nat)
    requires Base(w, cfg, keccak) && !w.da.resetting && block <= w.da.challengeOrigin
    ensures var (d', reorg) := AdvanceCommitmentOrigin(w.da, block);
      var w' := w.(da := d', triggered := if reorg then w.triggered + TriggeredBy(w.da.state, block) else w.triggered);
      Base(w', cfg, keccak) && (Guarded(w, cfg) ==> Guarded(w', cfg))
  {
    hide ChallengeKey, RefsOk, Ordered, Divided, Indexed, LedgerOk, AllClean, Trails, ExpiresAt, Unresolved,
      EverExpired, TriggeredBy, Shaped, Remembered;
    if block > w.da.commitmentOrigin {
      ExpiringPrefix(w.da.state, w.ledger, cfg, keccak, w.da.challengeOrigin, block);
    }
  }

  /** ErrReorgRequired names keys that have not required a reorg before. */
  lemma ReorgRequiredOnce(w: Tracker, cfg: Config, keccak: Bytes -> Bytes, block: nat)
    requires Base(w, cfg, keccak) && !w.da.resetting && w.da.commitmentOrigin < block <= w.da.challengeOrigin
    ensures AdvanceCommitmentOrigin(w.da, block).1 <==> TriggeredBy(w.da.state, block) != {}
    ensures TriggeredBy(w.da.state, block) !! w.triggered
    ensures forall k :: k in TriggeredBy(w.da.state, block) ==> EverExpired(w.ledger, cfg, k, w.da.challengeOrigin)
  {
    hide ChallengeKey, Tracks, AllShaped, Trails, ExpiresAt, EverExpired;
    ExpiringPrefix(w.da.state, w.ledger, cfg, keccak, w.da.challengeOrigin, block);
    forall k | k in TriggeredBy(w.da.state, block) ensures k !in w.triggered {
      var i :| 0 <= i < ExpiredPrefix(w.da.state, w.da.state.commitments, block)
               && Unresolved(w.da.state, w.da.state.commitments[i]) && k == KeyFor(w.da.state.commitments[i]);
      assert w.da.state.commitments[i] in w.da.state.commitments;
    }
  }

  lemma FinalizedFromL1Inv(w: Tracker, cfg: Config, keccak: Bytes -> Bytes, refOk: bool)
    requires Base(w, cfg, keccak)
    ensures var w' := w.(da := UpdateFinalizedFromL1(w.da, cfg, refOk).0);
      Base(w', cfg, keccak) && (Guarded(w, cfg) ==> Guarded(w', cfg))
  {
    hide Tracks, AllShaped, AllRemembered, AllClean, Untriggered, TriggeredOk, Linked;
  }

  // ----- Reading input -----

  /** The commitment's challenge expired and its record has been pruned since. */
  ghost predicate Forgotten(w: Tracker, cfg: Config, k: Key) {
    EverExpired(w.ledger, cfg, k, w.da.challengeOrigin) && !Has(w.da.state.index, k)
  }

  /** A challenge that expired is reported as such, as long as it is on record. */
  lemma ExpiredIsReported(s: State, l: Ledger, cfg: Config, keccak: Bytes -> Bytes, origin: nat, k: Key)
    requires Linked(s) && Tracks(s, l, cfg, keccak, origin, origin) && WellFormed(k.comm)
    requires EverExpired(l, cfg, k, origin) && Has(s.index, k)
    ensures GetChallengeStatus(s, k.comm, k.inclusion) == Expired
  {
    hide ChallengeKey, Ordered, Divided;
    LookupExact(s.heap, s.index, s.expiredChallenges + s.challenges, l, cfg, keccak, origin, k.comm, k.inclusion);
  }

  lemma TrackInv(w: Tracker, cfg: Config, keccak: Bytes -> Bytes, comm: Comm, inclusion: nat)
    requires Base(w, cfg, keccak) && !w.da.resetting && WellFormed(comm) && TypeAllowed(cfg, comm)
    requires GetChallengeStatus(w.da.state, comm, inclusion) != Expired
    ensures var w' := w.(da := w.da.(state := TrackCommitment(w.da.state, cfg, comm, inclusion)));
      Base(w', cfg, keccak) && (Guarded(w, cfg) && !Forgotten(w, cfg, Key(comm, inclusion)) ==> Guarded(w', cfg))
  {
    hide ChallengeKey, RefsOk, Ordered, Divided, Indexed, LedgerOk, AllClean, Trails, EverExpired, Has,
      GetChallengeStatus;
    var k := Key(comm, inclusion);
    if EverExpired(w.ledger, cfg, k, w.da.challengeOrigin) && Has(w.da.state.index, k) {
      ExpiredIsReported(w.da.state, w.ledger, cfg, keccak, w.da.challengeOrigin, k);
    }
  }

  /** A forgotten challenge stays forgotten: its record does not come back. */
  lemma ForgottenLater(w: Tracker, cfg: Config, keccak: Bytes -> Bytes, block: nat, es: Option<seq<Event>>, k: Key)
    requires Base(w, cfg, keccak) && LegalBlock(w, cfg, keccak, block, es) && Forgotten(w, cfg, k)
    ensures var d' := AdvanceChallengeOrigin(w.da, cfg, keccak, block, es).0;
      Forgotten(w.(da := d', ledger := LedgerAfter(w.ledger, cfg, keccak, w.da, d', es)), cfg, k)
  {
    hide ChallengeKey, RefsOk, Ordered, Divided, Indexed, AllShaped, Untriggered, TriggeredOk, Behind, Trails,
      ApplyEvents, RecordAll, LegalEvents, Linked, EndedPrefix, ExpireRefs, Has;
    if es.Some? && cfg.usesKeccak && block > w.da.challengeOrigin {
      NotReindexed(w.da.state, w.ledger, cfg, keccak, block, es.value, k);
      LedgerGrowth(w.ledger, cfg, keccak, block, es.value, k);
    }
  }

  /** A read keeps what every step keeps; it keeps the rest iff the commitment's expired challenge is not forgotten. */
  lemma GetInputInv(w: Tracker, cfg: Config, keccak: Bytes -> Bytes, comm: Comm, inclusion: nat,
                    storage: StorageReply, next: Option<seq<Event>>)
    requires Base(w, cfg, keccak) && !w.da.resetting && WellFormed(comm)
    requires LegalBlock(w, cfg, keccak, w.da.challengeOrigin + 1, next)
    ensures var d' := GetInput(w.da, cfg, keccak, comm, inclusion, storage, next).0;
      var w' := w.(da := d', ledger := LedgerAfter(w.ledger, cfg, keccak, w.da, d', next));
      && Base(w', cfg, keccak) && d'.resetting == w.da.resetting
      && (Guarded(w, cfg) ==> (Guarded(w', cfg) <==> !Forgotten(w, cfg, Key(comm, inclusion))))
  {
    hide Tracks, AllShaped, AllRemembered, AllClean, Untriggered, TriggeredOk, Behind, Trails, Linked,
      AdvanceChallengeOrigin, GetChallengeStatus, TrackCommitment, EverExpired, LegalEvents, RecordAll, GetChallenge;
    var k := Key(comm, inclusion);
    if Forgotten(w, cfg, k) { ForgottenIsTracked(w, cfg, keccak, k); }
    if TypeAllowed(cfg, comm) && GetChallengeStatus(w.da.state, comm, inclusion) != Expired {
      TrackInv(w, cfg, keccak, comm, inclusion);
      var w1 := w.(da := w.da.(state := TrackCommitment(w.da.state, cfg, comm, inclusion)));
      AdvanceChallengeInv(w1, cfg, keccak, w.da.challengeOrigin + 1, next);
      AdvanceKeepsMode(w1.da, cfg, keccak, w.da.challengeOrigin + 1, next);
      TrackLinked(w.da.state, cfg, comm, inclusion);
      if Forgotten(w, cfg, k) {
        ForgottenBreaks(w1, cfg, keccak, next, Commitment(comm, inclusion, inclusion + cfg.challengeWindow));
      }
    }
  }

  /** A forgotten challenge does not keep its commitment from being tracked. */
  lemma ForgottenIsTracked(w: Tracker, cfg: Config, keccak: Bytes -> Bytes, k: Key)
    requires Base(w, cfg, keccak) && Forgotten(w, cfg, k)
    ensures TypeAllowed(cfg, k.comm) && GetChallengeStatus(w.da.state, k.comm, k.inclusion) != Expired
  {
    hide ChallengeKey, RefsOk, Ordered, Divided, Indexed, AllShaped, Untriggered, TriggeredOk, Behind, Trails;
  }

  /** With such a commitment tracked, the tracker is not guarded, now or after looking ahead. */
  lemma ForgottenBreaks(w: Tracker, cfg: Config, keccak: Bytes -> Bytes, next: Option<seq<Event>>, c: Commitment)
    requires Base(w, cfg, keccak) && !w.da.resetting && c in w.da.state.commitments && Forgotten(w, cfg, KeyFor(c))
    requires LegalBlock(w, cfg, keccak, w.da.challengeOrigin + 1, next)
    ensures !Guarded(w, cfg)
    ensures var d' := AdvanceChallengeOrigin(w.da, cfg, keccak, w.da.challengeOrigin + 1, next).0;
      !Guarded(w.(da := d', ledger := LedgerAfter(w.ledger, cfg, keccak, w.da, d', next)), cfg)
  {
    hide Base, EverExpired, LegalEvents, RecordAll, ApplyEvents, Linked, Has, EndedPrefix, ExpireRefs;
    assert Linked(w.da.state) by { BaseLinked(w, cfg, keccak); }
    ForgottenLater(w, cfg, keccak, w.da.challengeOrigin + 1, next, KeyFor(c));
    if next.Some? { IndexGrowth(w.da.state, cfg, keccak, w.da.challengeOrigin + 1, next.value); }
  }

  lemma BaseLinked(w: Tracker, cfg: Config, keccak: Bytes -> Bytes)
    requires Base(w, cfg, keccak)
    ensures Linked(w.da.state) && w.da.commitmentOrigin <= w.da.challengeOrigin
  {
    hide Linked, Tracks, Trails, TriggeredOk, Behind, AllShaped, Untriggered;
  }

  lemma AdvanceKeepsMode(d: Da, cfg: Config, keccak: Bytes -> Bytes, block: nat, es: Option<seq<Event>>)
    requires Linked(d.state)
    ensures var (d', ok) := AdvanceChallengeOrigin(d, cfg, keccak, block, es);
      && d'.resetting == d.resetting && d'.commitmentOrigin == d.commitmentOrigin
      && d'.challengeOrigin == (if ok then Max(d.challengeOrigin, block) else d.challengeOrigin)
      && (es.Some? ==> ok)
  {
    hide ApplyEvents, ExpireChallenges, Linked;
  }

  /** Bytes answered from a resolved challenge hash to the requested commitment. */
  lemma ResolvedInputVerified(w: Tracker, cfg: Config, keccak: Bytes -> Bytes, comm: Comm, inclusion: nat,
                              next: Option<seq<Event>>)
    requires Base(w, cfg, keccak) && WellFormed(comm) && comm.Keccak?
    requires GetInput(w.da, cfg, keccak, comm, inclusion, NotFound, next).1.Data?
    ensures Verify(keccak, comm, GetInput(w.da, cfg, keccak, comm, inclusion, NotFound, next).1.data)
  {
    hide ChallengeKey, Ordered, Divided, LedgerOk, AllShaped, Untriggered, TriggeredOk, Behind, Trails,
      AdvanceChallengeOrigin, TrackCommitment;
    var s := w.da.state;
    assert Has(s.index, Key(comm, inclusion));
    LookupExact(s.heap, s.index, s.expiredChallenges + s.challenges, w.ledger, cfg, keccak, w.da.challengeOrigin, comm,
                inclusion);
  }

  // ----- Resets -----

  lemma ResetInv(w: Tracker, cfg: Config, keccak: Bytes -> Bytes, base: nat)
    requires Base(w, cfg, keccak) && (w.da.resetting ==> base <= w.da.challengeOrigin)
    ensures var d' := Reset(w.da, base);
      Inv(if w.da.resetting then w.(da := d') else Tracker(d', map[], {}), cfg, keccak)
  {
    hide ChallengeKey, RefsOk, Ordered, Divided, Indexed, LedgerOk, Trails, Linked;
    NothingTracked(ResetState(w.da.state), cfg, keccak, base);
  }

  // ----- Finality -----

  /** Finalizing `f` would prune the expired challenge of a commitment that is still tracked. */
  ghost predicate PrunesTracked(s: State, f: nat)
    requires Linked(s)
  {
    exists c :: c in s.commitments && GetChallengeStatus(s, c.comm, c.inclusion) == Expired
                && GetChallenge(s, c.comm, c.inclusion).value.end <= f
  }

  lemma OrderedFront(heap: seq<Challenge>, ended: seq<nat>, open: seq<nat>)
    requires Ordered(heap, ended + open)
    ensures Ordered(heap, [] + ended)
  {
    forall i | 0 <= i < |ended| ensures (ended + open)[i] == ([] + ended)[i] {}
  }

  /** Pruning drops exactly the keys of ended challenges whose window closed by `f`. */
  lemma PrunedKeys(heap: seq<Challenge>, index: map<string, nat>, ended: seq<nat>, open: seq<nat>, f: nat, key: string)
    requires Ordered(heap, ended + open) && Indexed(heap, index, ended + open) && key in index
    ensures forall i :: 0 <= i < |ended| ==> ended[i] < |heap|
    ensures key in KeysOf(heap, ended[..EndedPrefix(heap, ended, f)]) <==>
      index[key] in ended && heap[index[key]].end <= f
  {
    hide ChallengeKey, KeyOf;
    OrderedFront(heap, ended, open);
    PrefixIsFilter(heap, [], ended, f);
    var n := EndedPrefix(heap, ended, f);
    var refs, r := ended + open, index[key];
    if key in KeysOf(heap, ended[..n]) {
      var i :| 0 <= i < n && KeyOf(heap[ended[..n][i]]) == key;
      assert refs[i] in refs;
    }
    if r in ended && heap[r].end <= f {
      var j :| 0 <= j < |ended| && ended[j] == r;
      assert ended[..n][j] == r;
    }
  }

  lemma PruneIndexed(heap: seq<Challenge>, index: map<string, nat>, ended: seq<nat>, open: seq<nat>, origin: nat,
                     f: nat)
    requires Ordered(heap, ended + open) && Indexed(heap, index, ended + open) && Divided(heap, ended, open, origin)
    ensures forall i :: 0 <= i < |ended| ==> ended[i] < |heap|
    ensures var n := EndedPrefix(heap, ended, f);
      Indexed(heap, index - KeysOf(heap, ended[..n]), ended[n..] + open)
  {
    hide ChallengeKey, KeyOf, KeysOf, Ordered, Divided;
    assert forall i :: 0 <= i < |ended| ==> ended[i] < |heap| by { RefsBounded(heap, ended, open); }
    var n := EndedPrefix(heap, ended, f);
    var refs, refs' := ended + open, ended[n..] + open;
    assert forall r :: r in refs' ==> r in refs;
    forall r | r in refs' ensures KeyOf(heap[r]) !in KeysOf(heap, ended[..n]) {
      PrunedKeys(heap, index, ended, open, f, KeyOf(heap[r]));
      KeptIsOpen(heap, ended, open, origin, f, r);
    }
    forall k | k in index && k !in KeysOf(heap, ended[..n]) ensures index[k] in refs' {
      PrunedKeys(heap, index, ended, open, f, k);
      GoneIsEnded(heap, ended, open, f, index[k]);
    }
  }

  lemma RefsBounded(heap: seq<Challenge>, ended: seq<nat>, open: seq<nat>)
    requires Ordered(heap, ended + open)
    ensures forall i :: 0 <= i < |ended| ==> ended[i] < |heap|
  {
    forall i | 0 <= i < |ended| ensures ended[i] == (ended + open)[i] {}
  }

  lemma GoneIsEnded(heap: seq<Challenge>, ended: seq<nat>, open: seq<nat>, f: nat, r: nat)
    requires forall i :: 0 <= i < |ended| ==> ended[i] < |heap|
    requires r in ended + open && r < |heap| && !(r in ended && heap[r].end <= f)
    ensures r in ended[EndedPrefix(heap, ended, f)..] + open
  {
    if r in ended {
      var n := EndedPrefix(heap, ended, f);
      var j :| 0 <= j < |ended| && ended[j] == r;
      assert ended[n..][j - n] == r;
    }
  }

  lemma KeptIsOpen(heap: seq<Challenge>, ended: seq<nat>, open: seq<nat>, origin: nat, f: nat, r: nat)
    requires Ordered(heap, ended + open) && Divided(heap, ended, open, origin)
    requires forall i :: 0 <= i < |ended| ==> ended[i] < |heap|
    requires r in ended[EndedPrefix(heap, ended, f)..] + open
    ensures r in open || heap[r].end > f
    ensures r in open ==> r !in ended
  {
    OrderedFront(heap, ended, open);
    PrefixIsFilter(heap, [], ended, f);
  }

  lemma PruneRest(heap: seq<Challenge>, ended: seq<nat>, open: seq<nat>, n: nat, l: Ledger, cfg: Config,
                  keccak: Bytes -> Bytes, origin: nat)
    requires n <= |ended| && Ordered(heap, ended + open) && Divided(heap, ended, open, origin)
    requires RefsOk(heap, ended + open, l, cfg, keccak, origin)
    ensures Ordered(heap, ended[n..] + open) && Divided(heap, ended[n..], open, origin)
    ensures RefsOk(heap, ended[n..] + open, l, cfg, keccak, origin)
  {
    hide ChallengeOk;
    var refs, refs' := ended + open, ended[n..] + open;
    assert refs' == refs[n..];
    forall i, j | 0 <= i < j < |refs'| ensures refs'[i] != refs'[j] && heap[refs'[i]].end <= heap[refs'[j]].end {
      assert refs'[i] == refs[n + i] && refs'[j] == refs[n + j];
    }
    forall r | r in refs' ensures r in refs {}
    forall r | r in ended[n..] ensures r in ended {}
  }

  lemma PruneLedger(s: State, l: Ledger, cfg: Config, keccak: Bytes -> Bytes, origin: nat, f: nat)
    requires Linked(s) && Tracks(s, l, cfg, keccak, origin, origin)
    ensures LedgerOk(l, cfg, PruneChallenges(s, f).index, origin, origin)
  {
    hide ChallengeKey, KeysOf;
    var n := EndedPrefix(s.heap, s.expiredChallenges, f);
    forall k | k in l && l[k].at + cfg.resolveWindow > origin ensures Has(PruneChallenges(s, f).index, k) {
      LookupExact(s.heap, s.index, s.expiredChallenges + s.challenges, l, cfg, keccak, origin, k.comm, k.inclusion);
      PrunedKeys(s.heap, s.index, s.expiredChallenges, s.challenges, f, ChallengeKey(k.comm, k.inclusion));
    }
  }

  lemma PruneChallengesTracks(s: State, l: Ledger, cfg: Config, keccak: Bytes -> Bytes, origin: nat, f: nat)
    requires Linked(s) && Tracks(s, l, cfg, keccak, origin, origin)
    ensures Tracks(PruneChallenges(s, f), l, cfg, keccak, origin, origin)
  {
    hide ChallengeKey, RefsOk, Ordered, Divided, Indexed, LedgerOk, KeysOf;
    PruneIndexed(s.heap, s.index, s.expiredChallenges, s.challenges, origin, f);
    PruneRest(s.heap, s.expiredChallenges, s.challenges, EndedPrefix(s.heap, s.expiredChallenges, f), l, cfg, keccak,
              origin);
    PruneLedger(s, l, cfg, keccak, origin, f);
  }

  /** An expired challenge survives pruning iff its window closed after `f`. */
  lemma ExpiredSurvives(s: State, l: Ledger, cfg: Config, keccak: Bytes -> Bytes, origin: nat, f: nat, k: Key)
    requires Linked(s) && Tracks(s, l, cfg, keccak, origin, origin) && WellFormed(k.comm) && k.comm.Keccak?
    requires Has(s.index, k) && GetChallengeStatus(s, k.comm, k.inclusion) == Expired
    ensures EverExpired(l, cfg, k, origin)
    ensures Has(PruneChallenges(s, f).index, k) <==> GetChallenge(s, k.comm, k.inclusion).value.end > f
  {
    hide ChallengeKey, LedgerOk, KeysOf;
    LookupExact(s.heap, s.index, s.expiredChallenges + s.challenges, l, cfg, keccak, origin, k.comm, k.inclusion);
    PrunedKeys(s.heap, s.index, s.expiredChallenges, s.challenges, f, ChallengeKey(k.comm, k.inclusion));
  }

  /** Tracked commitments stay remembered through a pruning iff none of their expired challenges is pruned. */
  lemma RememberedSurvive(s: State, l: Ledger, cfg: Config, keccak: Bytes -> Bytes, origin: nat, f: nat)
    requires Linked(s) && Tracks(s, l, cfg, keccak, origin, origin) && (!cfg.usesKeccak ==> l == map[])
    requires AllShaped(s.commitments, cfg) && AllRemembered(s.commitments, s.index, l, cfg, origin)
    ensures AllRemembered(s.commitments, PruneChallenges(s, f).index, l, cfg, origin) <==> !PrunesTracked(s, f)
  {
    hide ChallengeKey, Tracks, PruneChallenges, EverExpired, Linked;
    forall c | c in s.commitments && EverExpired(l, cfg, KeyFor(c), origin)
      ensures Has(s.index, KeyFor(c)) && GetChallengeStatus(s, c.comm, c.inclusion) == Expired
      ensures Has(PruneChallenges(s, f).index, KeyFor(c)) <==> GetChallenge(s, c.comm, c.inclusion).value.end > f
    {
      assert Remembered(s.index, l, cfg, origin, KeyFor(c));
      ExpiredIsReported(s, l, cfg, keccak, origin, KeyFor(c));
      ExpiredIsKeccak(l, cfg, KeyFor(c), origin, c);
      ExpiredSurvives(s, l, cfg, keccak, origin, f, KeyFor(c));
    }
    forall c | c in s.commitments && GetChallengeStatus(s, c.comm, c.inclusion) == Expired
      ensures EverExpired(l, cfg, KeyFor(c), origin)
    {
      StatusMeansExpired(s, l, cfg, keccak, origin, c);
    }
  }

  lemma ExpiredIsKeccak(l: Ledger, cfg: Config, k: Key, origin: nat, c: Commitment)
    requires EverExpired(l, cfg, k, origin) && (!cfg.usesKeccak ==> l == map[]) && Shaped(c, cfg) && k == KeyFor(c)
    ensures k.comm.Keccak?
  {
  }

  lemma StatusMeansExpired(s: State, l: Ledger, cfg: Config, keccak: Bytes -> Bytes, origin: nat, c: Commitment)
    requires Linked(s) && Tracks(s, l, cfg, keccak, origin, origin) && (!cfg.usesKeccak ==> l == map[])
    requires Shaped(c, cfg)
    requires GetChallengeStatus(s, c.comm, c.inclusion) == Expired
    ensures EverExpired(l, cfg, KeyFor(c), origin)
  {
    hide ChallengeKey, Ordered, Divided, LedgerOk;
    if c.comm.Keccak? {
      LookupExact(s.heap, s.index, s.expiredChallenges + s.challenges, l, cfg, keccak, origin, c.comm, c.inclusion);
    }
  }

  /** A pruned commitment lies at least one window behind `f`. */
  lemma PrunedTrails(s: State, l: Ledger, cfg: Config, keccak: Bytes -> Bytes, origin: nat, c: Commitment, f: nat)
    requires Linked(s) && Tracks(s, l, cfg, keccak, origin, origin) && (!cfg.usesKeccak ==> l == map[])
    requires Shaped(c, cfg) && ExpiresAt(s, c) <= f
    ensures Trails(c.inclusion, f, cfg)
  {
    hide ChallengeKey, Ordered, Divided;
    if Has(s.index, KeyFor(c)) && c.comm.Keccak? {
      LookupExact(s.heap, s.index, s.expiredChallenges + s.challenges, l, cfg, keccak, origin, c.comm, c.inclusion);
    }
  }

  /** Everything but the tracked commitments survives any finality signal. */
  lemma FinalizeKeepsRest(w: Tracker, cfg: Config, keccak: Bytes -> Bytes, f: nat)
    requires Base(w, cfg, keccak) && !w.da.resetting && f >= w.da.l1Finalized
    ensures var d, s' := w.da, Finalize(w.da, f).state;
      && Tracks(s', w.ledger, cfg, keccak, d.challengeOrigin, d.challengeOrigin)
      && Trails(s'.lastPruned, f, cfg) && AllShaped(s'.expiredCommitments, cfg)
      && (AllClean(d.state.expiredCommitments, w.ledger, cfg, d.challengeOrigin) ==>
            AllClean(s'.expiredCommitments, w.ledger, cfg, d.challengeOrigin))
      && s'.commitments == d.state.commitments && s'.index == PruneChallenges(d.state, f).index
      && Untriggered(s'.commitments, s'.index, w.triggered)
  {
    hide ChallengeKey, RefsOk, Ordered, Divided, Indexed, LedgerOk, TriggeredOk, EndedPrefix, ExpiresAt, Clean, Shaped;
    var s, o := w.da.state, w.da.challengeOrigin;
    var s1 := PruneCommitments(s, f);
    PruneChallengesTracks(s1, w.ledger, cfg, keccak, o, f);
    var n := ExpiredPrefix(s, s.expiredCommitments, f);
    if n > 0 {
      assert s.expiredCommitments[n - 1] in s.expiredCommitments;
      PrunedTrails(s, w.ledger, cfg, keccak, o, s.expiredCommitments[n - 1], f);
    }
  }

  lemma BehindPruned(s: State, l: Ledger, cfg: Config, keccak: Bytes -> Bytes, origin: nat, l1Finalized: nat, f: nat)
    requires Linked(s) && Tracks(s, l, cfg, keccak, origin, origin) && Behind(s.index, l, cfg, l1Finalized)
    requires f >= l1Finalized
    ensures Behind(PruneChallenges(s, f).index, l, cfg, f)
  {
    hide ChallengeKey, KeysOf;
    forall k | k in l && !Has(PruneChallenges(s, f).index, k) ensures l[k].at + cfg.resolveWindow <= f {
      if Has(s.index, k) {
        var refs := s.expiredChallenges + s.challenges;
        LookupExact(s.heap, s.index, refs, l, cfg, keccak, origin, k.comm, k.inclusion);
        PrunedKeys(s.heap, s.index, s.expiredChallenges, s.challenges, f, ChallengeKey(k.comm, k.inclusion));
      }
    }
  }

  /** A finality signal keeps what every step keeps; it keeps the rest iff it prunes no expired challenge of a tracked
      commitment. */
  lemma FinalizeInv(w: Tracker, cfg: Config, keccak: Bytes -> Bytes, f: nat)
    requires Base(w, cfg, keccak) && !w.da.resetting && f >= w.da.l1Finalized
    ensures var w' := w.(da := Finalize(w.da, f));
      Base(w', cfg, keccak) && (Guarded(w, cfg) ==> (Guarded(w', cfg) <==> !PrunesTracked(w.da.state, f)))
  {
    hide ChallengeKey, Tracks, TriggeredOk, AllShaped, AllRemembered, AllClean, EndedPrefix, ExpiredPrefix,
      PruneChallenges, PruneCommitments, PrunesTracked, Untriggered, Behind;
    FinalizeKeepsRest(w, cfg, keccak, f);
    if Guarded(w, cfg) { RememberedSurvive(w.da.state, w.ledger, cfg, keccak, w.da.challengeOrigin, f); }
    BehindPruned(w.da.state, w.ledger, cfg, keccak, w.da.challengeOrigin, w.da.l1Finalized, f);
  }

  /** If it does, a commitment whose challenge expired unanswered is left without a record of that challenge. */
  lemma PrunedIsUnknown(w: Tracker, cfg: Config, keccak: Bytes -> Bytes, f: nat) returns (c: Commitment)
    requires Linked(w.da.state) && Base(w, cfg, keccak) && !w.da.resetting && f >= w.da.l1Finalized
    requires PrunesTracked(w.da.state, f)
    ensures c in w.da.state.commitments && c.comm.Keccak? && WellFormed(c.comm) && cfg.usesKeccak
    ensures EverExpired(w.ledger, cfg, KeyFor(c), w.da.challengeOrigin)
    ensures !Has(Finalize(w.da, f).state.index, KeyFor(c))
  {
    hide ChallengeKey, Tracks, TriggeredOk, Untriggered, Behind, Trails, EverExpired, Finalize, Linked,
      PruneChallenges;
    var s, o := w.da.state, w.da.challengeOrigin;
    c :| c in s.commitments && GetChallengeStatus(s, c.comm, c.inclusion) == Expired
         && GetChallenge(s, c.comm, c.inclusion).value.end <= f;
    StatusMeansExpired(s, w.ledger, cfg, keccak, o, c);
    ExpiredIsKeccak(w.ledger, cfg, KeyFor(c), o, c);
    ExpiredSurvives(s, w.ledger, cfg, keccak, o, f, KeyFor(c));
    FinalizeKeepsRest(w, cfg, keccak, f);
  }

  /** The commitments a finality signal prunes from those awaiting it. */
  function Finalizes(s: State, f: nat): seq<Commitment>
    requires Linked(s)
  {
    s.expiredCommitments[..ExpiredPrefix(s, s.expiredCommitments, f)]
  }

  lemma FinalizedHead(d: Da, f: nat)
    requires Linked(d.state)
    ensures var done := Finalizes(d.state, f);
      Finalize(d, f).finalizedHead == (if done == [] then d.state.lastPruned else done[|done| - 1].inclusion)
  {
    hide EndedPrefix, ExpiresAt;
  }

  /** The whole of AdvanceL1Origin: challenges, then commitments, then the head. */
  lemma AdvanceL1Inv(w: Tracker, cfg: Config, keccak: Bytes -> Bytes, block: nat, events: Option<seq<Event>>,
                     refOk: bool)
    requires Base(w, cfg, keccak) && !w.da.resetting && LegalBlock(w, cfg, keccak, block, events)
    ensures var d1 := AdvanceChallengeOrigin(w.da, cfg, keccak, block, events).0;
      var (d', result) := AdvanceL1Origin(w.da, cfg, keccak, block, events, refOk);
      var w' := Tracker(d', LedgerAfter(w.ledger, cfg, keccak, w.da, d', events),
                        w.triggered + if result == ReorgRequired then TriggeredBy(d1.state, block) else {});
      Base(w', cfg, keccak) && (Guarded(w, cfg) ==> Guarded(w', cfg))
  {
    hide Tracks, AllShaped, AllRemembered, AllClean, Untriggered, TriggeredOk, Behind, Trails, ExpireChallenges,
      ExpireCommitments, TriggeredBy, NoCommitments, AdvanceChallengeOrigin, AdvanceCommitmentOrigin, LegalEvents,
      RecordAll;
    AdvanceChallengeInv(w, cfg, keccak, block, events);
    AdvanceKeepsMode(w.da, cfg, keccak, block, events);
    var (d1, ok) := AdvanceChallengeOrigin(w.da, cfg, keccak, block, events);
    var w1 := w.(da := d1, ledger := LedgerAfter(w.ledger, cfg, keccak, w.da, d1, events));
    assert w.triggered + {} == w.triggered;
    if ok {
      AdvanceCommitmentInv(w1, cfg, keccak, block);
      CommitmentKeepsOrigin(d1, block);
      var (d2, reorg) := AdvanceCommitmentOrigin(d1, block);
      if !reorg { FinalizedFromL1Inv(w1.(da := d2), cfg, keccak, refOk); }
    }
  }

  lemma CommitmentKeepsOrigin(d: Da, block: nat)
    requires Linked(d.state)
    ensures AdvanceCommitmentOrigin(d, block).0.challengeOrigin == d.challengeOrigin
  {
    hide ExpireCommitments, Linked;
  }

  /** A pending answer moves the challenge origin by one, and is given only before both windows are over. */
  lemma PendingAdvances(w: Tracker, cfg: Config, keccak: Bytes -> Bytes, comm: Comm, inclusion: nat, next: seq<Event>)
    requires Base(w, cfg, keccak) && WellFormed(comm)
    requires GetInput(w.da, cfg, keccak, comm, inclusion, NotFound, Some(next)).1 == PendingChallenge
    ensures GetInput(w.da, cfg, keccak, comm, inclusion, NotFound, Some(next)).0.challengeOrigin
         == w.da.challengeOrigin + 1
    ensures w.da.challengeOrigin <= inclusion + cfg.challengeWindow + cfg.resolveWindow
  {
    hide ChallengeKey, Ordered, Divided, AllShaped, Untriggered, TriggeredOk, Behind, Trails,
      AdvanceChallengeOrigin, TrackCommitment;
    var s := w.da.state;
    var d1 := w.da.(state := TrackCommitment(s, cfg, comm, inclusion));
    AdvanceKeepsMode(d1, cfg, keccak, w.da.challengeOrigin + 1, Some(next)) by { TrackLinked(s, cfg, comm, inclusion); }
    if Has(s.index, Key(comm, inclusion)) && comm.Keccak? {
      LookupExact(s.heap, s.index, s.expiredChallenges + s.challenges, w.ledger, cfg, keccak, w.da.challengeOrigin,
                  comm, inclusion);
    }
  }

  lemma TrackLinked(s: State, cfg: Config, comm: Comm, inclusion: nat)
    requires Linked(s)
    ensures var s' := TrackCommitment(s, cfg, comm, inclusion);
      && Linked(s') && s'.index == s.index
      && Commitment(comm, inclusion, inclusion + cfg.challengeWindow) in s'.commitments
  {
  }
}
