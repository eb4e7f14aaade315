/** The Alt-DA manager as a value, with the function each operation computes (op-alt-da/damgr.go). */
module DAManager {
  import opened Prelude
  import opened Commitments
  import opened DAState

  /** `challengeOrigin` and `commitmentOrigin` are L1 block numbers; a head of 0 is one not set yet. */
  datatype Da = Da(state: State, challengeOrigin: nat, commitmentOrigin: nat, finalizedHead: nat, l1Finalized: nat,
                   resetting: bool)

  /** A decoded log of the challenge contract; Other stands for logs the loop skips. */
  datatype Event = Challenged(comm: Comm, inclusion: nat) | Answered(comm: Comm, inclusion: nat, input: Bytes) | Other

  datatype StorageReply = Found(data: Bytes) | NotFound | StorageError
  datatype Answer = Data(data: Bytes) | PendingChallenge | ExpiredChallenge | MissingPastWindow | Failed
  datatype Advance = Done | FetchFailed | ReorgRequired

  function NewDA(): Da {
    Da(NewState(), 0, 0, 0, 0, false)
  }

  // ----- Challenge events -----

  function ApplyEvent(s: State, cfg: Config, keccak: Bytes -> Bytes, block: nat, e: Event): (r: State)
    requires Linked(s)
    ensures Linked(r)
  {
    match e
    case Challenged(comm, inclusion) => CreateChallenge(s, cfg, comm, block, inclusion)
    case Answered(comm, inclusion, input) =>
      if cfg.usesKeccak && !Verify(keccak, comm, input) then s
      else (match ResolveChallenge(s, comm, inclusion, input) case None => s case Some(s1) => s1)
    case Other => s
  }

  function ApplyEvents(s: State, cfg: Config, keccak: Bytes -> Bytes, block: nat, es: seq<Event>): (r: State)
    requires Linked(s)
    ensures Linked(r)
  {
    if |es| == 0 then s
    else ApplyEvent(ApplyEvents(s, cfg, keccak, block, es[..|es| - 1]), cfg, keccak, block, es[|es| - 1])
  }

  /** Without a challenge contract no logs are read. */
  function LoadChallengeEvents(s: State, cfg: Config, keccak: Bytes -> Bytes, block: nat, es: seq<Event>): (r: State)
    requires Linked(s)
    ensures Linked(r)
  {
    if cfg.usesKeccak then ApplyEvents(s, cfg, keccak, block, es) else s
  }

  // ----- Origins -----

  /** `es` are the block's events, or None when fetching them fails; the flag says whether it succeeded. */
  function AdvanceChallengeOrigin(d: Da, cfg: Config, keccak: Bytes -> Bytes, block: nat,
                                  es: Option<seq<Event>>): (r: (Da, bool))
    requires Linked(d.state)
    ensures Linked(r.0.state)
  {
    if block <= d.challengeOrigin then (d, true)
    else if es.None? && cfg.usesKeccak then (d, false)
    else
      var s := if es.Some? then LoadChallengeEvents(d.state, cfg, keccak, block, es.value) else d.state;
      (d.(state := ExpireChallenges(s, block), challengeOrigin := block), true)
  }

  /** The flag is ErrReorgRequired. */
  function AdvanceCommitmentOrigin(d: Da, block: nat): (r: (Da, bool))
    requires Linked(d.state)
    ensures Linked(r.0.state)
  {
    if block <= d.commitmentOrigin then (d, false)
    else
      var (s, reorg) := ExpireCommitments(d.state, block);
      if reorg then (d.(state := s, resetting := true), true)
      else (d.(state := s, commitmentOrigin := block), false)
  }

  /** `refOk` says whether the L1 block of the new finalized head can be fetched. */
  function UpdateFinalizedFromL1(d: Da, cfg: Config, refOk: bool): (Da, bool) {
    if d.l1Finalized < cfg.challengeWindow then (d, true)
    else if !refOk then (d, false)
    else (d.(finalizedHead := d.l1Finalized - cfg.challengeWindow), true)
  }

  function AdvanceL1Origin(d: Da, cfg: Config, keccak: Bytes -> Bytes, block: nat, es: Option<seq<Event>>,
                           refOk: bool): (r: (Da, Advance))
    requires Linked(d.state)
    ensures Linked(r.0.state)
  {
    var (d1, ok) := AdvanceChallengeOrigin(d, cfg, keccak, block, es);
    if !ok then (d1, FetchFailed)
    else
      var (d2, reorg) := AdvanceCommitmentOrigin(d1, block);
      if reorg then (d2, ReorgRequired)
      else if NoCommitments(d2.state) then
        var (d3, ok3) := UpdateFinalizedFromL1(d2, cfg, refOk);
        (d3, if ok3 then Done else FetchFailed)
      else (d2, Done)
  }

  // ----- Reading input -----

  /** `next` is the answer of L1 about the block after the challenge origin, None on any error. */
  function LookAhead(d: Da, cfg: Config, keccak: Bytes -> Bytes, next: Option<seq<Event>>): (r: (Da, bool))
    requires Linked(d.state)
    ensures Linked(r.0.state)
  {
    if next.None? then (d, false) else AdvanceChallengeOrigin(d, cfg, keccak, d.challengeOrigin + 1, next)
  }

  predicate TypeAllowed(cfg: Config, comm: Comm) {
    comm.Keccak? == cfg.usesKeccak
  }

  function GetInput(d: Da, cfg: Config, keccak: Bytes -> Bytes, comm: Comm, inclusion: nat,
                    storage: StorageReply, next: Option<seq<Event>>): (r: (Da, Answer))
    requires Linked(d.state)
    ensures Linked(r.0.state)
  {
    var status := GetChallengeStatus(d.state, comm, inclusion);
    if !TypeAllowed(cfg, comm) || status == Expired then (d, ExpiredChallenge)
    else
      var d1 := d.(state := TrackCommitment(d.state, cfg, comm, inclusion));
      match storage
      case StorageError => (d1, Failed)
      case Found(data) => (d1, Data(data))
      case NotFound =>
        if status == Resolved then
          (d1, if comm.Generic? then MissingPastWindow else Data(GetChallenge(d.state, comm, inclusion).value.input))
        else if status == Uninitialized && d.challengeOrigin > inclusion + cfg.challengeWindow
        then (d1, MissingPastWindow)
        else
          var (d2, ok) := LookAhead(d1, cfg, keccak, next);
          (d2, if ok then PendingChallenge else Failed)
  }

  // ----- Resets and finality -----

  function Reset(d: Da, base: nat): (r: Da)
    requires Linked(d.state)
    ensures Linked(r.state)
  {
    if d.resetting then d.(resetting := false, commitmentOrigin := base, state := ClearCommitments(d.state))
    else d.(challengeOrigin := base, commitmentOrigin := base, state := ResetState(d.state))
  }

  function Finalize(d: Da, l1Finalized: nat): (r: Da)
    requires Linked(d.state)
    ensures Linked(r.state)
  {
    var s := Prune(d.state, l1Finalized);
    d.(l1Finalized := l1Finalized, state := s, finalizedHead := s.lastPruned)
  }
}
