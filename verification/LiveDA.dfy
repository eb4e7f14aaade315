/** The mutable Alt-DA state and manager (op-alt-da/dastate.go, op-alt-da/damgr.go): queue-popping loops over
    shared challenge objects, proved to compute the functions of modules DAState and DAManager. */
module LiveDA {
  import opened Prelude
  import opened Commitments
  import S = DAState
  import D = DAManager

  class LiveChallenge {
    const comm: Comm
    const inclusion: nat
    const end: nat
    var input: Bytes
    var status: S.Status
    /** Its position among all challenges created. */
    ghost const ref: nat

    ghost function View(): S.Challenge
      reads this
    {
      S.Challenge(comm, inclusion, end, input, status)
    }

    constructor (comm: Comm, inclusion: nat, end: nat, ghost ref: nat)
      ensures this.ref == ref && View() == S.Challenge(comm, inclusion, end, [], S.Active)
    {
      this.comm, this.inclusion, this.end, this.ref := comm, inclusion, end, ref;
      input, status := [], S.Active;
    }
  }

  class LiveState {
    const cfg: S.Config
    var commitments: seq<S.Commitment>
    var expiredCommitments: seq<S.Commitment>
    var challenges: seq<LiveChallenge>
    var expiredChallenges: seq<LiveChallenge>
    var challengesMap: map<string, LiveChallenge>
    var lastPruned: nat
    /** Every challenge created so far. */
    ghost var heap: seq<LiveChallenge>

    ghost function Objects(): set<LiveChallenge>
      reads this
    {
      set c | c in heap
    }

    ghost predicate Known(c: LiveChallenge)
      reads this
    {
      c.ref < |heap| && heap[c.ref] == c
    }

    ghost predicate Valid()
      reads this
    {
      && (forall i :: 0 <= i < |heap| ==> heap[i].ref == i)
      && (forall i :: 0 <= i < |challenges| ==> Known(challenges[i]))
      && (forall i :: 0 <= i < |expiredChallenges| ==> Known(expiredChallenges[i]))
      && (forall k :: k in challengesMap ==> Known(challengesMap[k]))
    }

    static ghost function Refs(cs: seq<LiveChallenge>): (r: seq<nat>)
      ensures |r| == |cs|
    {
      seq(|cs|, i requires 0 <= i < |cs| => cs[i].ref)
    }

    static ghost function RefMap(m: map<string, LiveChallenge>): map<string, nat> {
      map k | k in m :: m[k].ref
    }

    static ghost function Views(cs: seq<LiveChallenge>): (r: seq<S.Challenge>)
      reads cs
      ensures |r| == |cs| && forall i :: 0 <= i < |cs| ==> r[i] == cs[i].View()
    {
      if |cs| == 0 then [] else Views(cs[..|cs| - 1]) + [cs[|cs| - 1].View()]
    }

    ghost function View(): (s: S.State)
      reads this, heap
      requires Valid()
      ensures S.Linked(s)
    {
      S.State(commitments, expiredCommitments, Refs(challenges), Refs(expiredChallenges), RefMap(challengesMap),
              Views(heap), lastPruned)
    }

    constructor (cfg: S.Config)
      ensures Valid() && View() == S.NewState() && this.cfg == cfg && heap == []
    {
      this.cfg := cfg;
      commitments, expiredCommitments, challenges, expiredChallenges := [], [], [], [];
      challengesMap, lastPruned, heap := map[], 0, [];
    }

    method ClearCommitments()
      requires Valid()
      modifies this
      ensures Valid() && heap == old(heap) && View() == S.ClearCommitments(old(View()))
    {
      hide S.Linked, Views, Refs, RefMap;
      commitments, expiredCommitments := [], [];
    }

    method Reset()
      requires Valid()
      modifies this
      ensures Valid() && heap == old(heap) && View() == S.ResetState(old(View()))
    {
      hide S.Linked, Views;
      commitments, expiredCommitments, challenges, expiredChallenges := [], [], [], [];
      challengesMap := map[];
      assert RefMap(challengesMap) == map[] && Refs(challenges) == [] && Refs(expiredChallenges) == [];
    }

    method TrackCommitment(comm: Comm, inclusion: nat)
      requires Valid()
      modifies this
      ensures Valid() && heap == old(heap) && View() == S.TrackCommitment(old(View()), cfg, comm, inclusion)
    {
      hide S.Linked, Views, Refs, RefMap;
      commitments := commitments + [S.Commitment(comm, inclusion, inclusion + cfg.challengeWindow)];
    }

    static lemma RefsAppend(cs: seq<LiveChallenge>, c: LiveChallenge)
      ensures Refs(cs + [c]) == Refs(cs) + [c.ref]
    {
    }

    static lemma RefMapAdd(m: map<string, LiveChallenge>, k: string, c: LiveChallenge)
      ensures RefMap(m[k := c]) == RefMap(m)[k := c.ref]
    {
    }

    method CreateChallenge(comm: Comm, block: nat, inclusion: nat)
      requires Valid()
      modifies this
      ensures Valid() && (forall c :: c in Objects() && c !in old(Objects()) ==> fresh(c))
      ensures View() == S.CreateChallenge(old(View()), cfg, comm, block, inclusion)
    {
      hide S.Linked, Views, Refs, RefMap, ChallengeKey;
      var c := new LiveChallenge(comm, inclusion, block + cfg.resolveWindow, |heap|);
      RefsAppend(challenges, c);
      RefMapAdd(challengesMap, ChallengeKey(comm, inclusion), c);
      challenges := challenges + [c];
      challengesMap := challengesMap[ChallengeKey(comm, inclusion) := c];
      heap := heap + [c];
      ViewsAppend(old(heap), c);
    }

    static lemma ViewsAppend(cs: seq<LiveChallenge>, c: LiveChallenge)
      ensures Views(cs + [c]) == Views(cs) + [c.View()]
    {
      assert (cs + [c])[..|cs|] == cs;
    }

    /** Only challenge `c` changed. */
    twostate lemma ChallengeChanged(c: LiveChallenge)
      requires old(Valid()) && Valid() && heap == old(heap) && Known(c)
      requires forall x :: x in heap && x != c ==> unchanged(x)
      ensures Views(heap) == old(Views(heap))[c.ref := c.View()]
    {
      forall i | 0 <= i < |heap| && i != c.ref ensures heap[i].View() == old(heap[i].View()) {
        assert heap[i] in heap;
      }
    }

    method ResolveChallenge(comm: Comm, inclusion: nat, input: Bytes) returns (ok: bool)
      requires Valid()
      modifies Objects()
      ensures Valid()
      ensures S.ResolveChallenge(old(View()), comm, inclusion, input) == if ok then Some(View()) else None
      ensures !ok ==> View() == old(View())
    {
      hide S.Linked, Views, Refs, ChallengeKey;
      var key := ChallengeKey(comm, inclusion);
      if key !in challengesMap { return false; }
      var c := challengesMap[key];
      assert old(View()).heap[c.ref] == c.View();
      c.input := input;
      c.status := S.Resolved;
      ChallengeChanged(c);
      return true;
    }

    /** The challenge against a commitment, as GetChallenge finds it. */
    lemma Lookup(comm: Comm, inclusion: nat)
      requires Valid()
      ensures var key := ChallengeKey(comm, inclusion);
        S.GetChallenge(View(), comm, inclusion) ==
          if key in challengesMap then Some(challengesMap[key].View()) else None
    {
      hide ChallengeKey;
    }

    /** When a commitment expires, and whether it has a challenge that is not resolved. */
    method Expiry(c: S.Commitment) returns (expiresAt: nat, unresolved: bool)
      requires Valid()
      ensures expiresAt == S.ExpiresAt(View(), c) && unresolved == S.Unresolved(View(), c)
    {
      hide ChallengeKey;
      var key := ChallengeKey(c.comm, c.inclusion);
      if key in challengesMap {
        return challengesMap[key].end, challengesMap[key].status != S.Resolved;
      }
      return c.windowEnd, false;
    }

    method ExpireCommitments(origin: nat) returns (reorg: bool)
      requires Valid()
      modifies this
      ensures Valid() && heap == old(heap) && (View(), reorg) == S.ExpireCommitments(old(View()), origin)
    {
      hide S.Linked, Views, Refs, RefMap, S.ExpiresAt, S.Unresolved, S.ExpiredPrefix, S.AnyUnresolved;
      ghost var s, cs := View(), commitments;
      NoneUnresolved(s);
      ghost var k := 0;
      reorg := false;
      while |commitments| > 0
        invariant Valid() && heap == old(heap) && k <= |cs| && commitments == cs[k..]
        invariant View() == s.(commitments := cs[k..], expiredCommitments := s.expiredCommitments + cs[..k])
        invariant forall i :: 0 <= i < k ==> S.ExpiresAt(s, cs[i]) <= origin
        invariant reorg == S.AnyUnresolved(s, cs[..k])
        decreases |commitments|
      {
        var c := commitments[0];
        var expiresAt, unresolved := Expiry(c);
        SameExpiry(View(), s, c);
        if expiresAt > origin { break; }
        expiredCommitments := expiredCommitments + [c];
        commitments := commitments[1..];
        if unresolved { reorg := true; }
        assert cs[..k + 1] == cs[..k] + [cs[k]];
        OneMore(s, cs[..k], c);
        k := k + 1;
      }
      PrefixIs(s, cs, origin, k);
    }

    static lemma NoneUnresolved(s: S.State)
      requires S.Linked(s)
      ensures !S.AnyUnresolved(s, [])
    {
    }

    static lemma OneMore(s: S.State, cs: seq<S.Commitment>, c: S.Commitment)
      requires S.Linked(s)
      ensures S.AnyUnresolved(s, cs + [c]) <==> S.AnyUnresolved(s, cs) || S.Unresolved(s, c)
    {
      hide S.Unresolved;
      var cs' := cs + [c];
      if i :| 0 <= i < |cs| && S.Unresolved(s, cs[i]) { assert S.Unresolved(s, cs'[i]); }
      if S.Unresolved(s, c) { assert S.Unresolved(s, cs'[|cs|]); }
    }

    method PruneCommitments(origin: nat)
      requires Valid()
      modifies this
      ensures Valid() && heap == old(heap) && View() == S.PruneCommitments(old(View()), origin)
    {
      hide S.Linked, Views, Refs, RefMap, S.ExpiresAt, S.Unresolved, S.ExpiredPrefix;
      ghost var s, cs := View(), expiredCommitments;
      ghost var k := 0;
      while |expiredCommitments| > 0
        invariant Valid() && heap == old(heap) && k <= |cs| && expiredCommitments == cs[k..]
        invariant View() == s.(expiredCommitments := cs[k..],
                               lastPruned := if k == 0 then s.lastPruned else cs[k - 1].inclusion)
        invariant forall i :: 0 <= i < k ==> S.ExpiresAt(s, cs[i]) <= origin
        decreases |expiredCommitments|
      {
        var c := expiredCommitments[0];
        var expiresAt, _ := Expiry(c);
        SameExpiry(View(), s, c);
        if expiresAt > origin { break; }
        expiredCommitments := expiredCommitments[1..];
        lastPruned := c.inclusion;
        k := k + 1;
      }
      PrefixIs(s, cs, origin, k);
    }

    static lemma SameExpiry(s: S.State, s': S.State, c: S.Commitment)
      requires S.Linked(s) && S.Linked(s') && s.index == s'.index && s.heap == s'.heap
      ensures S.ExpiresAt(s, c) == S.ExpiresAt(s', c) && S.Unresolved(s, c) == S.Unresolved(s', c)
    {
      hide ChallengeKey;
    }

    static lemma {:induction false} PrefixIs(s: S.State, cs: seq<S.Commitment>, origin: nat, k: nat)
      requires S.Linked(s) && k <= |cs| && (forall i :: 0 <= i < k ==> S.ExpiresAt(s, cs[i]) <= origin)
      requires k < |cs| ==> S.ExpiresAt(s, cs[k]) > origin
      ensures S.ExpiredPrefix(s, cs, origin) == k
    {
    }

    /** Moves the first open challenge to the ended ones, expiring it if it is active. */
    method ExpireFirst()
      requires Valid() && |challenges| > 0
      modifies this, Objects()
      ensures Valid() && heap == old(heap) && challenges == old(challenges)[1..]
      ensures var s, r := old(View()), old(challenges)[0].ref;
        View() == s.(challenges := s.challenges[1..], expiredChallenges := s.expiredChallenges + [r],
                     heap := s.heap[r := S.ExpireActive(s.heap[r])])
    {
      hide S.Linked, RefMap, Views;
      var c := challenges[0];
      assert Refs(challenges)[1..] == Refs(challenges[1..]);
      RefsAppend(expiredChallenges, c);
      expiredChallenges := expiredChallenges + [c];
      challenges := challenges[1..];
      if c.status == S.Active { c.status := S.Expired; }
      ChallengeChanged(c);
    }

    /** The state once the first `k` open challenges have been moved. */
    static ghost function ExpiredBy(s: S.State, k: nat): S.State
      requires k <= |s.challenges|
    {
      s.(challenges := s.challenges[k..], expiredChallenges := s.expiredChallenges + s.challenges[..k],
         heap := S.ExpireRefs(s.heap, s.challenges[..k]))
    }

    static lemma ExpiredByNext(s: S.State, k: nat)
      requires S.Linked(s) && k < |s.challenges|
      ensures var t, r := ExpiredBy(s, k), s.challenges[k];
        && t.challenges == [r] + t.challenges[1..] && r < |t.heap| && t.heap[r].end == s.heap[r].end
        && ExpiredBy(s, k + 1) == t.(challenges := t.challenges[1..], expiredChallenges := t.expiredChallenges + [r],
                                     heap := t.heap[r := S.ExpireActive(t.heap[r])])
    {
      var q := s.challenges;
      assert q[..k + 1] == q[..k] + [q[k]] && q[k..][1..] == q[k + 1..];
      var h, h' := S.ExpireRefs(s.heap, q[..k]), S.ExpireRefs(s.heap, q[..k + 1]);
      assert h' == h[q[k] := S.ExpireActive(h[q[k]])];
    }

    static lemma ExpiredByNone(s: S.State)
      ensures ExpiredBy(s, 0) == s
    {
      assert S.ExpireRefs(s.heap, s.challenges[..0]) == s.heap;
    }

    static lemma EndedIs(heap: seq<S.Challenge>, q: seq<nat>, origin: nat, k: nat)
      requires (forall i :: 0 <= i < |q| ==> q[i] < |heap|) && k <= |q|
      requires (forall i :: 0 <= i < k ==> heap[q[i]].end <= origin) && (k < |q| ==> heap[q[k]].end > origin)
      ensures S.EndedPrefix(heap, q, origin) == k
    {
    }

    /** What a queued challenge looks like in the value model. */
    lemma FirstOpen()
      requires Valid() && |challenges| > 0
      ensures challenges[0].ref == View().challenges[0] && View().heap[challenges[0].ref].end == challenges[0].end
    {
    }

    method ExpireChallenges(origin: nat)
      requires Valid()
      modifies this, Objects()
      ensures Valid() && heap == old(heap) && View() == S.ExpireChallenges(old(View()), origin)
    {
      hide Views, Refs, RefMap, S.EndedPrefix, ExpiredBy, S.ExpireRefs;
      ghost var s := View();
      ghost var k := 0;
      ExpiredByNone(s);
      while |challenges| > 0
        invariant Valid() && heap == old(heap) && k + |challenges| == |s.challenges| && View() == ExpiredBy(s, k)
        invariant forall i :: 0 <= i < k ==> s.heap[s.challenges[i]].end <= origin
        decreases |challenges|
      {
        FirstOpen();
        ExpiredByNext(s, k);
        if challenges[0].end > origin { break; }
        ExpireFirst();
        k := k + 1;
      }
      EndedIs(s.heap, s.challenges, origin, k);
      assert ExpiredBy(s, k) == S.ExpireChallenges(s, origin) by { ExpiredByAll(s, origin); }
    }

    static lemma ExpiredByAll(s: S.State, origin: nat)
      requires S.Linked(s)
      ensures ExpiredBy(s, S.EndedPrefix(s.heap, s.challenges, origin)) == S.ExpireChallenges(s, origin)
    {
    }

    /** Forgets the oldest ended challenge. */
    method PruneFirst()
      requires Valid() && |expiredChallenges| > 0
      modifies this
      ensures Valid() && heap == old(heap) && expiredChallenges == old(expiredChallenges)[1..]
      ensures var s, r := old(View()), old(expiredChallenges)[0].ref;
        View() == s.(expiredChallenges := s.expiredChallenges[1..], index := s.index - {S.KeyOf(s.heap[r])})
    {
      hide S.Linked, Views, ChallengeKey;
      var c := expiredChallenges[0];
      assert Refs(expiredChallenges)[1..] == Refs(expiredChallenges[1..]);
      assert View().heap[c.ref] == c.View();
      expiredChallenges := expiredChallenges[1..];
      challengesMap := challengesMap - {ChallengeKey(c.comm, c.inclusion)};
      assert RefMap(challengesMap) == RefMap(old(challengesMap)) - {ChallengeKey(c.comm, c.inclusion)};
    }

    static ghost function PrunedBy(s: S.State, k: nat): S.State
      requires S.Linked(s) && k <= |s.expiredChallenges|
    {
      s.(expiredChallenges := s.expiredChallenges[k..], index := s.index - S.KeysOf(s.heap, s.expiredChallenges[..k]))
    }

    static lemma PrunedByNext(s: S.State, k: nat)
      requires S.Linked(s) && k < |s.expiredChallenges|
      ensures var t, r := PrunedBy(s, k), s.expiredChallenges[k];
        && t.expiredChallenges == [r] + t.expiredChallenges[1..] && t.heap == s.heap
        && PrunedBy(s, k + 1) == t.(expiredChallenges := t.expiredChallenges[1..],
                                    index := t.index - {S.KeyOf(s.heap[r])})
    {
      hide S.KeyOf;
      var q := s.expiredChallenges;
      assert q[..k + 1] == q[..k] + [q[k]] && q[k..][1..] == q[k + 1..];
      KeysOfAppend(s.heap, q[..k], q[k]);
    }

    static lemma PrunedByNone(s: S.State)
      requires S.Linked(s)
      ensures PrunedBy(s, 0) == s
    {
      assert S.KeysOf(s.heap, s.expiredChallenges[..0]) == {};
    }

    static lemma PrunedByAll(s: S.State, origin: nat)
      requires S.Linked(s)
      ensures PrunedBy(s, S.EndedPrefix(s.heap, s.expiredChallenges, origin)) == S.PruneChallenges(s, origin)
    {
    }

    lemma FirstEnded()
      requires Valid() && |expiredChallenges| > 0
      ensures expiredChallenges[0].ref == View().expiredChallenges[0]
      ensures View().heap[expiredChallenges[0].ref].end == expiredChallenges[0].end
    {
    }

    method PruneChallenges(origin: nat)
      requires Valid()
      modifies this
      ensures Valid() && heap == old(heap) && View() == S.PruneChallenges(old(View()), origin)
    {
      hide Views, Refs, RefMap, S.EndedPrefix, PrunedBy;
      ghost var s := View();
      ghost var k := 0;
      PrunedByNone(s);
      while |expiredChallenges| > 0
        invariant Valid() && heap == old(heap) && k + |expiredChallenges| == |s.expiredChallenges|
        invariant View() == PrunedBy(s, k)
        invariant forall i :: 0 <= i < k ==> s.heap[s.expiredChallenges[i]].end <= origin
        decreases |expiredChallenges|
      {
        FirstEnded();
        PrunedByNext(s, k);
        if expiredChallenges[0].end > origin { break; }
        PruneFirst();
        k := k + 1;
      }
      EndedIs(s.heap, s.expiredChallenges, origin, k);
      PrunedByAll(s, origin);
    }

    static lemma KeysOfAppend(heap: seq<S.Challenge>, refs: seq<nat>, r: nat)
      requires r < |heap| && forall i :: 0 <= i < |refs| ==> refs[i] < |heap|
      ensures S.KeysOf(heap, refs + [r]) == S.KeysOf(heap, refs) + {S.KeyOf(heap[r])}
    {
      hide S.KeyOf;
      var refs' := refs + [r];
      forall x | x in S.KeysOf(heap, refs) + {S.KeyOf(heap[r])} ensures x in S.KeysOf(heap, refs') {
        if x in S.KeysOf(heap, refs) {
          var i :| 0 <= i < |refs| && S.KeyOf(heap[refs[i]]) == x;
          assert refs'[i] == refs[i];
        } else {
          assert refs'[|refs|] == r;
        }
      }
    }
  }

  class LiveDA {
    const cfg: S.Config
    const keccak: Bytes -> Bytes
    const state: LiveState
    var challengeOrigin: nat
    var commitmentOrigin: nat
    var finalizedHead: nat
    var l1Finalized: nat
    var resetting: bool

    ghost predicate Valid()
      reads this, state
    {
      state.Valid() && state.cfg == cfg
    }

    ghost function View(): (d: D.Da)
      reads this, state, state.heap
      requires Valid()
      ensures S.Linked(d.state)
    {
      D.Da(state.View(), challengeOrigin, commitmentOrigin, finalizedHead, l1Finalized, resetting)
    }

    /** Challenges are never forgotten, and new ones are fresh objects. */
    twostate predicate Extended()
      reads state
    {
      forall c :: c in state.Objects() && c !in old(state.Objects()) ==> fresh(c)
    }

    constructor (cfg: S.Config, keccak: Bytes -> Bytes)
      ensures Valid() && View() == D.NewDA() && this.cfg == cfg && this.keccak == keccak
    {
      this.cfg, this.keccak := cfg, keccak;
      challengeOrigin, commitmentOrigin, finalizedHead, l1Finalized, resetting := 0, 0, 0, 0, false;
      state := new LiveState(cfg);
    }

    method ApplyEvent(block: nat, e: D.Event)
      requires Valid()
      modifies state, state.Objects()
      ensures Valid() && Extended()
      ensures state.View() == D.ApplyEvent(old(state.View()), cfg, keccak, block, e)
    {
      hide S.Linked, S.CreateChallenge, S.ResolveChallenge, LiveState.Views, LiveState.Refs, LiveState.RefMap;
      match e
      case Challenged(comm, inclusion) => state.CreateChallenge(comm, block, inclusion);
      case Answered(comm, inclusion, input) =>
        if cfg.usesKeccak && !Verify(keccak, comm, input) { return; }
        var _ := state.ResolveChallenge(comm, inclusion, input);
      case Other =>
    }

    /** The loop of loadChallengeEvents over the block's decoded logs. */
    method LoadChallengeEvents(block: nat, es: seq<D.Event>)
      requires Valid()
      modifies state, state.Objects()
      ensures Valid() && Extended()
      ensures state.View() == D.LoadChallengeEvents(old(state.View()), cfg, keccak, block, es)
    {
      hide S.Linked, D.ApplyEvent, LiveState.Views, LiveState.Refs, LiveState.RefMap;
      if !cfg.usesKeccak { return; }
      var i := 0;
      while i < |es|
        invariant 0 <= i <= |es| && Valid() && Extended()
        invariant state.View() == D.ApplyEvents(old(state.View()), cfg, keccak, block, es[..i])
      {
        ApplyEvent(block, es[i]);
        i := i + 1;
        assert es[..i][..i - 1] == es[..i - 1];
      }
      assert es[..i] == es;
    }

    method AdvanceChallengeOrigin(block: nat, es: Option<seq<D.Event>>) returns (ok: bool)
      requires Valid()
      modifies this, state, state.Objects()
      ensures Valid() && Extended()
      ensures (View(), ok) == D.AdvanceChallengeOrigin(old(View()), cfg, keccak, block, es)
    {
      hide S.Linked, D.LoadChallengeEvents, S.ExpireChallenges, LiveState.Views, LiveState.Refs, LiveState.RefMap;
      if block <= challengeOrigin { return true; }
      if es.None? && cfg.usesKeccak { return false; }
      if es.Some? { LoadChallengeEvents(block, es.value); }
      state.ExpireChallenges(block);
      challengeOrigin := block;
      return true;
    }

    method AdvanceCommitmentOrigin(block: nat) returns (reorg: bool)
      requires Valid()
      modifies this, state
      ensures Valid() && Extended() && (View(), reorg) == D.AdvanceCommitmentOrigin(old(View()), block)
    {
      hide S.Linked, S.ExpireCommitments, LiveState.Views, LiveState.Refs, LiveState.RefMap;
      if block <= commitmentOrigin { return false; }
      reorg := state.ExpireCommitments(block);
      if reorg { resetting := true; } else { commitmentOrigin := block; }
    }

    method AdvanceL1Origin(block: nat, es: Option<seq<D.Event>>, refOk: bool) returns (result: D.Advance)
      requires Valid()
      modifies this, state, state.Objects()
      ensures Valid() && Extended()
      ensures (View(), result) == D.AdvanceL1Origin(old(View()), cfg, keccak, block, es, refOk)
    {
      hide S.Linked, D.AdvanceChallengeOrigin, D.AdvanceCommitmentOrigin, LiveState.Views, LiveState.RefMap;
      var ok := AdvanceChallengeOrigin(block, es);
      if !ok { return D.FetchFailed; }
      var reorg := AdvanceCommitmentOrigin(block);
      if reorg { return D.ReorgRequired; }
      if |state.challenges| == 0 && |state.expiredChallenges| == 0
         && |state.commitments| == 0 && |state.expiredCommitments| == 0 {
        if l1Finalized < cfg.challengeWindow { return D.Done; }
        if !refOk { return D.FetchFailed; }
        finalizedHead := l1Finalized - cfg.challengeWindow;
      }
      return D.Done;
    }

    method LookAhead(next: Option<seq<D.Event>>) returns (ok: bool)
      requires Valid()
      modifies this, state, state.Objects()
      ensures Valid() && Extended() && (View(), ok) == D.LookAhead(old(View()), cfg, keccak, next)
    {
      hide S.Linked, D.AdvanceChallengeOrigin;
      if next.None? { return false; }
      ok := AdvanceChallengeOrigin(challengeOrigin + 1, next);
    }

    method GetInput(comm: Comm, inclusion: nat, storage: D.StorageReply,
                    next: Option<seq<D.Event>>) returns (a: D.Answer)
      requires Valid()
      modifies this, state, state.Objects()
      ensures Valid() && Extended()
      ensures (View(), a) == D.GetInput(old(View()), cfg, keccak, comm, inclusion, storage, next)
    {
      hide S.Linked, D.LookAhead, S.TrackCommitment, S.GetChallenge, ChallengeKey, LiveState.Views, LiveState.Refs,
        LiveState.RefMap;
      if comm.Keccak? != cfg.usesKeccak { return D.ExpiredChallenge; }
      state.Lookup(comm, inclusion);
      var key := ChallengeKey(comm, inclusion);
      var status, input := S.Uninitialized, [];
      if key in state.challengesMap {
        status, input := state.challengesMap[key].status, state.challengesMap[key].input;
      }
      if status == S.Expired { return D.ExpiredChallenge; }
      state.TrackCommitment(comm, inclusion);
      match storage
      case StorageError => return D.Failed;
      case Found(data) => return D.Data(data);
      case NotFound =>
        if status == S.Resolved {
          if comm.Generic? { return D.MissingPastWindow; }
          return D.Data(input);
        }
        if status == S.Uninitialized && challengeOrigin > inclusion + cfg.challengeWindow {
          return D.MissingPastWindow;
        }
        var ok := LookAhead(next);
        return if ok then D.PendingChallenge else D.Failed;
    }

    method Reset(base: nat)
      requires Valid()
      modifies this, state
      ensures Valid() && Extended() && View() == D.Reset(old(View()), base)
    {
      hide S.Linked, LiveState.Views, LiveState.Refs, LiveState.RefMap;
      if resetting {
        resetting := false;
        commitmentOrigin := base;
        state.ClearCommitments();
      } else {
        challengeOrigin := base;
        commitmentOrigin := base;
        state.Reset();
      }
    }

    method Finalize(l1: nat)
      requires Valid()
      modifies this, state
      ensures Valid() && Extended() && View() == D.Finalize(old(View()), l1)
    {
      hide S.Linked, S.PruneCommitments, S.PruneChallenges, LiveState.Views, LiveState.Refs, LiveState.RefMap;
      l1Finalized := l1;
      state.PruneCommitments(l1);
      state.PruneChallenges(l1);
      finalizedHead := state.lastPruned;
    }
  }
}
