/** The Alt-DA challenge and commitment state, with the function each operation computes
    (op-alt-da/dastate.go). */
module DAState {
  import opened Prelude
  import opened Commitments

  datatype Status = Uninitialized | Active | Resolved | Expired

  datatype Config = Config(usesKeccak: bool, challengeWindow: nat, resolveWindow: nat)

  datatype Commitment = Commitment(comm: Comm, inclusion: nat, windowEnd: nat)
  datatype Challenge = Challenge(comm: Comm, inclusion: nat, end: nat, input: Bytes, status: Status)

  /** Challenges are objects named by their position in `heap`; the two queues and the index refer to them.
      `lastPruned` is the inclusion block of the last commitment pruned, 0 before the first. */
  datatype State = State(
    commitments: seq<Commitment>, expiredCommitments: seq<Commitment>,
    challenges: seq<nat>, expiredChallenges: seq<nat>,
    index: map<string, nat>, heap: seq<Challenge>, lastPruned: nat)

  function NewState(): State {
    State([], [], [], [], map[], [], 0)
  }

  /** References point at existing challenges. */
  predicate Linked(s: State) {
    && (forall i :: 0 <= i < |s.challenges| ==> s.challenges[i] < |s.heap|)
    && (forall i :: 0 <= i < |s.expiredChallenges| ==> s.expiredChallenges[i] < |s.heap|)
    && (forall k :: k in s.index ==> s.index[k] < |s.heap|)
  }

  function ClearCommitments(s: State): State {
    s.(commitments := [], expiredCommitments := [])
  }

  function ResetState(s: State): State {
    s.(commitments := [], expiredCommitments := [], challenges := [], expiredChallenges := [], index := map[])
  }

  function CreateChallenge(s: State, cfg: Config, comm: Comm, block: nat, inclusion: nat): (r: State)
    requires Linked(s)
    ensures Linked(r)
  {
    var ref := |s.heap|;
    s.(heap := s.heap + [Challenge(comm, inclusion, block + cfg.resolveWindow, [], Active)],
       challenges := s.challenges + [ref],
       index := s.index[ChallengeKey(comm, inclusion) := ref])
  }

  /** None when the challenge is not tracked. */
  function ResolveChallenge(s: State, comm: Comm, inclusion: nat, input: Bytes): (r: Option<State>)
    requires Linked(s)
    ensures r.Some? ==> Linked(r.value)
  {
    var key := ChallengeKey(comm, inclusion);
    if key !in s.index then None
    else Some(s.(heap := s.heap[s.index[key] := s.heap[s.index[key]].(input := input, status := Resolved)]))
  }

  function TrackCommitment(s: State, cfg: Config, comm: Comm, inclusion: nat): State {
    s.(commitments := s.commitments + [Commitment(comm, inclusion, inclusion + cfg.challengeWindow)])
  }

  function GetChallenge(s: State, comm: Comm, inclusion: nat): Option<Challenge>
    requires Linked(s)
  {
    var key := ChallengeKey(comm, inclusion);
    if key in s.index then Some(s.heap[s.index[key]]) else None
  }

  function GetChallengeStatus(s: State, comm: Comm, inclusion: nat): Status
    requires Linked(s)
  {
    var c := GetChallenge(s, comm, inclusion);
    if c.Some? then c.value.status else Uninitialized
  }

  predicate NoCommitments(s: State) {
    s.challenges == [] && s.expiredChallenges == [] && s.commitments == [] && s.expiredCommitments == []
  }

  // ----- Expiry and pruning -----

  /** A commitment expires with its challenge's resolve window, or else with its challenge window. */
  function ExpiresAt(s: State, c: Commitment): nat
    requires Linked(s)
  {
    var ch := GetChallenge(s, c.comm, c.inclusion);
    if ch.Some? then ch.value.end else c.windowEnd
  }

  /** A challenge exists and is not resolved. */
  predicate Unresolved(s: State, c: Commitment)
    requires Linked(s)
  {
    var ch := GetChallenge(s, c.comm, c.inclusion);
    ch.Some? && ch.value.status != Resolved
  }

  /** How many leading commitments have expired by `origin`. */
  function ExpiredPrefix(s: State, cs: seq<Commitment>, origin: nat): (n: nat)
    requires Linked(s)
    ensures n <= |cs|
    ensures forall i :: 0 <= i < n ==> ExpiresAt(s, cs[i]) <= origin
    ensures n < |cs| ==> ExpiresAt(s, cs[n]) > origin
  {
    if |cs| == 0 || ExpiresAt(s, cs[0]) > origin then 0 else 1 + ExpiredPrefix(s, cs[1..], origin)
  }

  predicate AnyUnresolved(s: State, cs: seq<Commitment>)
    requires Linked(s)
  {
    exists i :: 0 <= i < |cs| && Unresolved(s, cs[i])
  }

  /** The flag is ErrReorgRequired. */
  function ExpireCommitments(s: State, origin: nat): (r: (State, bool))
    requires Linked(s)
    ensures Linked(r.0)
  {
    var n := ExpiredPrefix(s, s.commitments, origin);
    (s.(commitments := s.commitments[n..], expiredCommitments := s.expiredCommitments + s.commitments[..n]),
     AnyUnresolved(s, s.commitments[..n]))
  }

  /** How many leading challenges have ended by `origin`. */
  function EndedPrefix(heap: seq<Challenge>, q: seq<nat>, origin: nat): (n: nat)
    requires forall i :: 0 <= i < |q| ==> q[i] < |heap|
    ensures n <= |q|
    ensures forall i :: 0 <= i < n ==> heap[q[i]].end <= origin
    ensures n < |q| ==> heap[q[n]].end > origin
  {
    if |q| == 0 || heap[q[0]].end > origin then 0 else 1 + EndedPrefix(heap, q[1..], origin)
  }

  function ExpireActive(c: Challenge): Challenge {
    if c.status == Active then c.(status := Expired) else c
  }

  /** Marks the active ones among `refs` expired. */
  function ExpireRefs(heap: seq<Challenge>, refs: seq<nat>): (r: seq<Challenge>)
    ensures |r| == |heap|
    ensures forall i :: 0 <= i < |heap| ==> r[i] == if i in refs then ExpireActive(heap[i]) else heap[i]
  {
    seq(|heap|, i requires 0 <= i < |heap| => if i in refs then ExpireActive(heap[i]) else heap[i])
  }

  function ExpireChallenges(s: State, origin: nat): (r: State)
    requires Linked(s)
    ensures Linked(r)
  {
    var n := EndedPrefix(s.heap, s.challenges, origin);
    s.(challenges := s.challenges[n..], expiredChallenges := s.expiredChallenges + s.challenges[..n],
       heap := ExpireRefs(s.heap, s.challenges[..n]))
  }

  function PruneCommitments(s: State, origin: nat): (r: State)
    requires Linked(s)
    ensures Linked(r)
  {
    var n := ExpiredPrefix(s, s.expiredCommitments, origin);
    s.(expiredCommitments := s.expiredCommitments[n..],
       lastPruned := if n == 0 then s.lastPruned else s.expiredCommitments[n - 1].inclusion)
  }

  function KeyOf(c: Challenge): string {
    ChallengeKey(c.comm, c.inclusion)
  }

  function KeysOf(heap: seq<Challenge>, refs: seq<nat>): set<string>
    requires forall i :: 0 <= i < |refs| ==> refs[i] < |heap|
  {
    set i | 0 <= i < |refs| :: KeyOf(heap[refs[i]])
  }

  function PruneChallenges(s: State, origin: nat): (r: State)
    requires Linked(s)
    ensures Linked(r)
  {
    var n := EndedPrefix(s.heap, s.expiredChallenges, origin);
    s.(expiredChallenges := s.expiredChallenges[n..], index := s.index - KeysOf(s.heap, s.expiredChallenges[..n]))
  }

  function Prune(s: State, origin: nat): (r: State)
    requires Linked(s)
    ensures Linked(r)
  {
    PruneChallenges(PruneCommitments(s, origin), origin)
  }
}
