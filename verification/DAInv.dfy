/** The challenge tracker against a ledger of the challenge contract's events. */
module DAInv {
  import opened Prelude
  import opened Commitments
  import opened DAState
  import opened DAManager

  // ----- The contract's ledger -----

  datatype Key = Key(comm: Comm, inclusion: nat)

  /** When the commitment was challenged, and whether an input hashing to it has been posted since. */
  datatype Fact = Fact(at: nat, answered: bool)
  type Ledger = map<Key, Fact>

  function Record(l: Ledger, keccak: Bytes -> Bytes, block: nat, e: Event): Ledger {
    match e
    case Challenged(comm, inclusion) => l[Key(comm, inclusion) := Fact(block, false)]
    case Answered(comm, inclusion, input) =>
      if Key(comm, inclusion) in l && Verify(keccak, comm, input)
      then l[Key(comm, inclusion) := l[Key(comm, inclusion)].(answered := true)] else l
    case Other => l
  }

  function RecordAll(l: Ledger, keccak: Bytes -> Bytes, block: nat, es: seq<Event>): Ledger {
    if |es| == 0 then l else Record(RecordAll(l, keccak, block, es[..|es| - 1]), keccak, block, es[|es| - 1])
  }

  /** What the contract guarantees: only Keccak commitments, each challenged at most once and within its
      challenge window; answers only while the challenge can be resolved. */
  ghost predicate LegalEvent(l: Ledger, cfg: Config, block: nat, e: Event) {
    match e
    case Challenged(comm, inclusion) =>
      && comm.Keccak? && WellFormed(comm) && Key(comm, inclusion) !in l
      && inclusion <= block <= inclusion + cfg.challengeWindow
    case Answered(comm, inclusion, input) =>
      && comm.Keccak? && WellFormed(comm)
      && (Key(comm, inclusion) in l ==>
            !l[Key(comm, inclusion)].answered && block <= l[Key(comm, inclusion)].at + cfg.resolveWindow)
    case Other => true
  }

  ghost predicate LegalEvents(l: Ledger, cfg: Config, keccak: Bytes -> Bytes, block: nat, es: seq<Event>) {
    |es| == 0 ||
    (LegalEvents(l, cfg, keccak, block, es[..|es| - 1])
     && LegalEvent(RecordAll(l, keccak, block, es[..|es| - 1]), cfg, block, es[|es| - 1]))
  }

  /** The status the ledger implies once block `n` has been processed. */
  function StatusAt(f: Fact, cfg: Config, n: nat): Status {
    if f.answered then Resolved else if f.at + cfg.resolveWindow <= n then Expired else Active
  }

  /** The challenge against `k` ran out unanswered by block `n`. */
  ghost predicate EverExpired(l: Ledger, cfg: Config, k: Key, n: nat) {
    k in l && StatusAt(l[k], cfg, n) == Expired
  }

  // ----- The tracker agrees with the ledger -----

  ghost predicate ChallengeOk(c: Challenge, l: Ledger, cfg: Config, keccak: Bytes -> Bytes, origin: nat) {
    var k := Key(c.comm, c.inclusion);
    && c.comm.Keccak? && WellFormed(c.comm) && k in l
    && c.end == l[k].at + cfg.resolveWindow && c.status == StatusAt(l[k], cfg, origin)
    && (c.status == Resolved ==> keccak(c.input) == c.comm.bytes)
  }

  ghost predicate RefsOk(heap: seq<Challenge>, refs: seq<nat>, l: Ledger, cfg: Config, keccak: Bytes -> Bytes,
                         origin: nat) {
    forall r :: r in refs ==> r < |heap| && ChallengeOk(heap[r], l, cfg, keccak, origin)
  }

  /** `expiredChallenges ++ challenges` names each challenge once, sorted by the end of the resolve window. */
  ghost predicate Ordered(heap: seq<Challenge>, refs: seq<nat>) {
    && (forall i :: 0 <= i < |refs| ==> refs[i] < |heap|)
    && (forall i, j :: 0 <= i < j < |refs| ==> refs[i] != refs[j] && heap[refs[i]].end <= heap[refs[j]].end)
  }

  /** Exactly the ended challenges are in the first queue. */
  ghost predicate Divided(heap: seq<Challenge>, ended: seq<nat>, open: seq<nat>, origin: nat) {
    && (forall r :: r in ended ==> r < |heap| && heap[r].end <= origin)
    && (forall r :: r in open ==> r < |heap| && heap[r].end > origin)
  }

  /** The index holds exactly one entry per queued challenge. */
  ghost predicate Indexed(heap: seq<Challenge>, index: map<string, nat>, refs: seq<nat>) {
    && (forall r :: r in refs ==> r < |heap| && KeyOf(heap[r]) in index && index[KeyOf(heap[r])] == r)
    && (forall k :: k in index ==> index[k] in refs && index[k] < |heap| && KeyOf(heap[index[k]]) == k)
  }

  ghost predicate Has(index: map<string, nat>, k: Key) {
    ChallengeKey(k.comm, k.inclusion) in index
  }

  /** Events up to block `hi` are recorded; a challenge that can still be resolved is indexed. */
  ghost predicate LedgerOk(l: Ledger, cfg: Config, index: map<string, nat>, origin: nat, hi: nat) {
    forall k :: k in l ==>
      && k.comm.Keccak? && WellFormed(k.comm)
      && k.inclusion <= l[k].at <= k.inclusion + cfg.challengeWindow && l[k].at <= hi
      && (l[k].at + cfg.resolveWindow > origin ==> Has(index, k))
  }

  ghost predicate Tracks(s: State, l: Ledger, cfg: Config, keccak: Bytes -> Bytes, origin: nat, hi: nat) {
    && RefsOk(s.heap, s.expiredChallenges + s.challenges, l, cfg, keccak, origin)
    && Ordered(s.heap, s.expiredChallenges + s.challenges)
    && Divided(s.heap, s.expiredChallenges, s.challenges, origin)
    && Indexed(s.heap, s.index, s.expiredChallenges + s.challenges)
    && LedgerOk(l, cfg, s.index, origin, hi)
  }

  /** Looking a commitment up finds its own challenge and no other. */
  lemma LookupExact(heap: seq<Challenge>, index: map<string, nat>, refs: seq<nat>, l: Ledger, cfg: Config,
                    keccak: Bytes -> Bytes, origin: nat, comm: Comm, inclusion: nat)
    requires Indexed(heap, index, refs) && RefsOk(heap, refs, l, cfg, keccak, origin)
    requires comm.Keccak? && WellFormed(comm) && Has(index, Key(comm, inclusion))
    ensures var r := index[ChallengeKey(comm, inclusion)];
      && r in refs && r < |heap| && heap[r].comm == comm && heap[r].inclusion == inclusion
      && ChallengeOk(heap[r], l, cfg, keccak, origin)
  {
    hide ChallengeKey;
    var r := index[ChallengeKey(comm, inclusion)];
    KeccakKeyInjective(heap[r].comm, heap[r].inclusion, comm, inclusion);
  }

  // ----- Events -----

  lemma CreateTracks(s: State, l: Ledger, cfg: Config, keccak: Bytes -> Bytes, origin: nat, block: nat, comm: Comm,
                     inclusion: nat)
    requires Linked(s) && Tracks(s, l, cfg, keccak, origin, block) && block > origin
    requires LegalEvent(l, cfg, block, Challenged(comm, inclusion))
    ensures Tracks(CreateChallenge(s, cfg, comm, block, inclusion),
                   Record(l, keccak, block, Challenged(comm, inclusion)),
                   cfg, keccak, origin, block)
  {
    hide ChallengeKey, RefsOk, Ordered, Divided, Indexed, LedgerOk;
    var k := Key(comm, inclusion);
    var s' := CreateChallenge(s, cfg, comm, block, inclusion);
    var refs := s.expiredChallenges + s.challenges;
    assert s'.expiredChallenges + s'.challenges == refs + [|s.heap|];
    NewKey(s.heap, s.index, refs, l, cfg, keccak, origin, k);
    CreateRefs(s, l, cfg, keccak, origin, block, comm, inclusion);
    CreateIndexed(s.heap, s.index, refs, s'.heap[|s.heap|]);
    CreateLedger(l, cfg, s.index, origin, block, k, |s.heap|);
  }

  lemma NewKey(heap: seq<Challenge>, index: map<string, nat>, refs: seq<nat>, l: Ledger, cfg: Config,
               keccak: Bytes -> Bytes, origin: nat, k: Key)
    requires Indexed(heap, index, refs) && RefsOk(heap, refs, l, cfg, keccak, origin)
    requires k.comm.Keccak? && WellFormed(k.comm) && k !in l
    ensures !Has(index, k)
  {
    hide ChallengeKey;
    if Has(index, k) { LookupExact(heap, index, refs, l, cfg, keccak, origin, k.comm, k.inclusion); }
  }

  lemma CreateIndexed(heap: seq<Challenge>, index: map<string, nat>, refs: seq<nat>, c: Challenge)
    requires Indexed(heap, index, refs) && KeyOf(c) !in index
    ensures Indexed(heap + [c], index[KeyOf(c) := |heap|], refs + [|heap|])
  {
    hide ChallengeKey, KeyOf;
    var heap', refs', index' := heap + [c], refs + [|heap|], index[KeyOf(c) := |heap|];
    forall r | r in refs' ensures r < |heap'| && KeyOf(heap'[r]) in index' && index'[KeyOf(heap'[r])] == r {
      if r != |heap| { assert r in refs; }
    }
    forall k | k in index' ensures index'[k] in refs' && index'[k] < |heap'| && KeyOf(heap'[index'[k]]) == k {
      if k != KeyOf(c) { assert k in index; }
      assert refs'[|refs|] == |heap|;
    }
  }

  lemma CreateLedger(l: Ledger, cfg: Config, index: map<string, nat>, origin: nat, block: nat, k: Key, ref: nat)
    requires LedgerOk(l, cfg, index, origin, block) && k.comm.Keccak? && WellFormed(k.comm)
    requires k.inclusion <= block <= k.inclusion + cfg.challengeWindow
    ensures LedgerOk(l[k := Fact(block, false)], cfg, index[ChallengeKey(k.comm, k.inclusion) := ref], origin, block)
  {
    hide ChallengeKey;
  }

  lemma CreateRefs(s: State, l: Ledger, cfg: Config, keccak: Bytes -> Bytes, origin: nat, block: nat, comm: Comm,
                   inclusion: nat)
    requires Linked(s) && Tracks(s, l, cfg, keccak, origin, block) && block > origin
    requires LegalEvent(l, cfg, block, Challenged(comm, inclusion))
    ensures var s' := CreateChallenge(s, cfg, comm, block, inclusion);
      var refs' := s'.expiredChallenges + s'.challenges;
      && RefsOk(s'.heap, refs', l[Key(comm, inclusion) := Fact(block, false)], cfg, keccak, origin)
      && Ordered(s'.heap, refs') && Divided(s'.heap, s'.expiredChallenges, s'.challenges, origin)
  {
    hide ChallengeKey, Indexed;
    var s' := CreateChallenge(s, cfg, comm, block, inclusion);
    var refs, refs' := s.expiredChallenges + s.challenges, s'.expiredChallenges + s'.challenges;
    assert refs' == refs + [|s.heap|];
    forall i | 0 <= i < |refs|
      ensures s'.heap[refs[i]] == s.heap[refs[i]] && s.heap[refs[i]].end <= block + cfg.resolveWindow
    {
      assert refs[i] in refs;
    }
  }

  /** An accepted answer, even in the last block of the resolve window, turns an active challenge into a
      resolved one holding an input that hashes to the commitment. */
  lemma ResolveTracks(s: State, l: Ledger, cfg: Config, keccak: Bytes -> Bytes, origin: nat, block: nat, e: Event)
    requires Linked(s) && Tracks(s, l, cfg, keccak, origin, block) && block > origin && cfg.usesKeccak
    requires e.Answered? && LegalEvent(l, cfg, block, e)
    ensures Tracks(ApplyEvent(s, cfg, keccak, block, e), Record(l, keccak, block, e), cfg, keccak, origin, block)
  {
    hide ChallengeKey, RefsOk, Ordered, Divided, Indexed, LedgerOk;
    var k := Key(e.comm, e.inclusion);
    var refs := s.expiredChallenges + s.challenges;
    if Verify(keccak, e.comm, e.input) && Has(s.index, k) {
      LookupExact(s.heap, s.index, refs, l, cfg, keccak, origin, e.comm, e.inclusion);
      var r := s.index[ChallengeKey(e.comm, e.inclusion)];
      var c := s.heap[r].(input := e.input, status := Resolved);
      ResolveRefs(s.heap, refs, s.index, l, cfg, keccak, origin, r, c, k);
      ResolveShape(s.heap, s.expiredChallenges, s.challenges, s.index, origin, r, c);
      ResolveLedger(l, cfg, s.index, origin, block, k);
    } else if k in l {
      StillIndexed(l, cfg, s.index, origin, block, k);
    }
  }

  /** A challenge that may still be answered is indexed, so no accepted answer is dropped. */
  lemma StillIndexed(l: Ledger, cfg: Config, index: map<string, nat>, origin: nat, block: nat, k: Key)
    requires LedgerOk(l, cfg, index, origin, block) && block > origin
    requires k in l && block <= l[k].at + cfg.resolveWindow
    ensures Has(index, k)
  {
    hide ChallengeKey;
  }

  lemma ResolveRefs(heap: seq<Challenge>, refs: seq<nat>, index: map<string, nat>, l: Ledger, cfg: Config,
                    keccak: Bytes -> Bytes, origin: nat, r: nat, c: Challenge, k: Key)
    requires RefsOk(heap, refs, l, cfg, keccak, origin) && Indexed(heap, index, refs) && r in refs && r < |heap|
    requires c == heap[r].(input := c.input, status := Resolved) && k == Key(c.comm, c.inclusion)
    requires keccak(c.input) == c.comm.bytes && k in l
    ensures RefsOk(heap[r := c], refs, l[k := l[k].(answered := true)], cfg, keccak, origin)
  {
    hide ChallengeKey;
    var l' := l[k := l[k].(answered := true)];
    forall q | q in refs ensures q < |heap| && ChallengeOk(heap[r := c][q], l', cfg, keccak, origin) {
      if q != r {
        assert ChallengeOk(heap[q], l, cfg, keccak, origin) && ChallengeOk(heap[r], l, cfg, keccak, origin);
        assert KeyOf(heap[q]) != KeyOf(heap[r]);
      }
    }
  }

  lemma ResolveShape(heap: seq<Challenge>, ended: seq<nat>, open: seq<nat>, index: map<string, nat>, origin: nat,
                     r: nat, c: Challenge)
    requires Ordered(heap, ended + open) && Divided(heap, ended, open, origin) && Indexed(heap, index, ended + open)
    requires r < |heap| && c == heap[r].(input := c.input, status := c.status)
    ensures Ordered(heap[r := c], ended + open) && Divided(heap[r := c], ended, open, origin)
    ensures Indexed(heap[r := c], index, ended + open)
  {
    hide ChallengeKey;
  }

  lemma ResolveLedger(l: Ledger, cfg: Config, index: map<string, nat>, origin: nat, block: nat, k: Key)
    requires LedgerOk(l, cfg, index, origin, block) && k in l
    ensures LedgerOk(l[k := l[k].(answered := true)], cfg, index, origin, block)
  {
    hide ChallengeKey;
  }

  lemma {:induction false} EventsTrack(s: State, l: Ledger, cfg: Config, keccak: Bytes -> Bytes, origin: nat,
                                       block: nat, es: seq<Event>)
    requires Linked(s) && Tracks(s, l, cfg, keccak, origin, block) && block > origin && cfg.usesKeccak
    requires LegalEvents(l, cfg, keccak, block, es)
    ensures Tracks(ApplyEvents(s, cfg, keccak, block, es), RecordAll(l, keccak, block, es), cfg, keccak, origin, block)
  {
    hide Tracks, ApplyEvent, Record, LegalEvent, Linked;
    if |es| > 0 {
      var front, e := es[..|es| - 1], es[|es| - 1];
      EventsTrack(s, l, cfg, keccak, origin, block, front);
      EventTracks(ApplyEvents(s, cfg, keccak, block, front), RecordAll(l, keccak, block, front), cfg, keccak, origin,
                  block, e);
    }
  }

  lemma EventTracks(s: State, l: Ledger, cfg: Config, keccak: Bytes -> Bytes, origin: nat, block: nat, e: Event)
    requires Linked(s) && Tracks(s, l, cfg, keccak, origin, block) && block > origin && cfg.usesKeccak
    requires LegalEvent(l, cfg, block, e)
    ensures Tracks(ApplyEvent(s, cfg, keccak, block, e), Record(l, keccak, block, e), cfg, keccak, origin, block)
  {
    hide Tracks, LegalEvent, CreateChallenge, ResolveChallenge;
    match e
    case Challenged(comm, inclusion) => CreateTracks(s, l, cfg, keccak, origin, block, comm, inclusion);
    case Answered(_, _, _) => ResolveTracks(s, l, cfg, keccak, origin, block, e);
    case Other =>
  }

  // ----- Expiring challenges: the early exit loses nothing -----

  /** Because the queue is sorted, stopping at the first open challenge is the same as filtering all of them. */
  lemma PrefixIsFilter(heap: seq<Challenge>, ended: seq<nat>, open: seq<nat>, block: nat)
    requires Ordered(heap, ended + open)
    ensures forall i :: 0 <= i < |open| ==> open[i] < |heap|
    ensures var n := EndedPrefix(heap, open, block);
      forall i :: 0 <= i < |open| ==> (heap[open[i]].end <= block <==> i < n)
  {
    var refs := ended + open;
    forall i | 0 <= i < |open| ensures open[i] == refs[|ended| + i] {}
    var n := EndedPrefix(heap, open, block);
    forall i | n <= i < |open| ensures heap[open[i]].end > block {
      assert heap[refs[|ended| + n]].end <= heap[refs[|ended| + i]].end;
    }
  }

  /** Moving on to block `block`: what ended is expired or resolved, and the rest stays queued. */
  lemma ExpireTracks(s: State, l: Ledger, cfg: Config, keccak: Bytes -> Bytes, origin: nat, block: nat)
    requires Linked(s) && Tracks(s, l, cfg, keccak, origin, block) && block > origin
    ensures Tracks(ExpireChallenges(s, block), l, cfg, keccak, block, block)
  {
    hide ChallengeKey, RefsOk, Ordered, Divided, Indexed, LedgerOk, ExpireRefs;
    var n := EndedPrefix(s.heap, s.challenges, block);
    var gone, kept := s.challenges[..n], s.challenges[n..];
    var s' := ExpireChallenges(s, block);
    assert s.challenges == gone + kept;
    assert s'.expiredChallenges + s'.challenges == s.expiredChallenges + s.challenges;
    ExpireDivided(s.heap, s.expiredChallenges, s.challenges, origin, block);
    ExpireRefsOk(s.heap, s.expiredChallenges, s.challenges, l, cfg, keccak, origin, block);
    ExpireShape(s.heap, s.expiredChallenges + s.challenges, s.index, gone);
    LaterLedger(l, cfg, s.index, origin, block);
  }

  lemma ExpireDivided(heap: seq<Challenge>, ended: seq<nat>, open: seq<nat>, origin: nat, block: nat)
    requires Ordered(heap, ended + open) && Divided(heap, ended, open, origin) && block > origin
    ensures forall i :: 0 <= i < |open| ==> open[i] < |heap|
    ensures var n := EndedPrefix(heap, open, block);
      Divided(ExpireRefs(heap, open[..n]), ended + open[..n], open[n..], block)
  {
    PrefixIsFilter(heap, ended, open, block);
  }

  lemma ExpireRefsOk(heap: seq<Challenge>, ended: seq<nat>, open: seq<nat>, l: Ledger, cfg: Config,
                     keccak: Bytes -> Bytes,
                     origin: nat, block: nat)
    requires Ordered(heap, ended + open) && Divided(heap, ended, open, origin) && block > origin
    requires RefsOk(heap, ended + open, l, cfg, keccak, origin)
    ensures forall i :: 0 <= i < |open| ==> open[i] < |heap|
    ensures RefsOk(ExpireRefs(heap, open[..EndedPrefix(heap, open, block)]), ended + open, l, cfg, keccak, block)
  {
    hide ChallengeKey, Ordered;
    PrefixIsFilter(heap, ended, open, block);
    var n := EndedPrefix(heap, open, block);
    var heap' := ExpireRefs(heap, open[..n]);
    forall r | r in ended + open ensures r < |heap'| && ChallengeOk(heap'[r], l, cfg, keccak, block) {
      assert ChallengeOk(heap[r], l, cfg, keccak, origin);
      if r in open && heap[r].end <= block { assert r in open[..n]; }
    }
  }

  lemma ExpireShape(heap: seq<Challenge>, refs: seq<nat>, index: map<string, nat>, gone: seq<nat>)
    requires Ordered(heap, refs) && Indexed(heap, index, refs)
    ensures Ordered(ExpireRefs(heap, gone), refs) && Indexed(ExpireRefs(heap, gone), index, refs)
  {
    hide ChallengeKey;
  }

  lemma LaterLedger(l: Ledger, cfg: Config, index: map<string, nat>, origin: nat, block: nat)
    requires LedgerOk(l, cfg, index, origin, block) && block > origin
    ensures LedgerOk(l, cfg, index, block, block)
  {
    hide ChallengeKey;
  }
}
