/** The polling file channel and the two ends of both protocols on top of it
    (op-preimage/filepoller.go, op-preimage/oracle.go, op-preimage/hints.go). */
module FilePolling {
  import opened Prelude
  import opened Preimage

  datatype Failure = DeadlineExceeded | OtherFailure

  /** What one round of a polling loop meets: whether the deadline could be set, how many bytes the file is
      ready to move, the error it reports, and whether the context is done if the loop looks at it. */
  datatype Attempt = Attempt(armed: bool, ready: nat, error: Option<Failure>, cancelled: bool)
  {
    predicate Stops() {
      !armed || (TimesOut() && cancelled)
    }

    predicate TimesOut() {
      error == Some(DeadlineExceeded)
    }

    /** Moves something and returns without having hit the deadline. */
    predicate Productive() {
      armed && ready > 0 && !TimesOut()
    }
  }

  /** `Polling`: the rounds so far have not made the call return. */
  datatype PollEnd = Complete(error: Option<Failure>) | Cancelled | Unarmed | Polling

  datatype Polled = Polled(moved: nat, end: PollEnd, rest: seq<Attempt>)

  /** No round fails to set its deadline or finds the context done. */
  ghost predicate Uninterrupted(script: seq<Attempt>) {
    forall i :: 0 <= i < |script| ==> !script[i].Stops()
  }

  function Poll(script: seq<Attempt>, want: nat, available: nat): (r: Polled)
    ensures r.moved <= want && r.moved <= available
    ensures r.end.Complete? ==> r.moved == want
    decreases |script|
  {
    if script == [] then Polled(0, Polling, [])
    else
      var a, rest := script[0], script[1..];
      var n := Min(a.ready, Min(want, available));
      if !a.armed then Polled(0, Unarmed, rest)
      else if a.TimesOut() && a.cancelled then Polled(n, Cancelled, rest)
      else if !a.TimesOut() && n == want then Polled(n, Complete(a.error), rest)
      else var later := Poll(rest, want - n, available - n); later.(moved := n + later.moved)
  }

  lemma PollNothing(want: nat, available: nat)
    ensures Poll([], want, available) == Polled(0, Polling, [])
  {
  }

  /** One round, and what is left after it. */
  lemma PollRound(script: seq<Attempt>, want: nat, available: nat, before: nat, n: nat)
    requires script != [] && n == Min(script[0].ready, Min(want, available))
    ensures var a, p := script[0], Poll(script, want, available);
      && (!a.armed ==> p == Polled(0, Unarmed, script[1..]))
      && (a.armed && a.TimesOut() && a.cancelled ==> p == Polled(n, Cancelled, script[1..]))
      && (a.armed && !a.TimesOut() && n == want ==> p == Polled(n, Complete(a.error), script[1..]))
      && (!a.Stops() && (a.TimesOut() || n < want) ==>
            p.(moved := before + p.moved) == var later := Poll(script[1..], want - n, available - n);
                                             later.(moved := before + n + later.moved))
  {
  }

  lemma {:induction false} UninterruptedPoll(script: seq<Attempt>, want: nat, available: nat)
    requires Uninterrupted(script)
    ensures var r := Poll(script, want, available);
      (r.end.Complete? || r.end.Polling?) && Uninterrupted(r.rest)
  {
    if script != [] {
      var n := Min(script[0].ready, Min(want, available));
      UninterruptedPoll(script[1..], want - n, available - n);
    }
  }

  function CountProductive(script: seq<Attempt>): nat {
    if script == [] then 0
    else (if script[0].Productive() then 1 else 0) + CountProductive(script[1..])
  }

  /** However the transfer is cut up, enough rounds that move at least a byte complete it. */
  lemma {:induction false} EnoughRoundsComplete(script: seq<Attempt>, want: nat, available: nat)
    requires want <= available
    requires Uninterrupted(script)
    requires Max(want, 1) <= CountProductive(script)
    ensures Poll(script, want, available).end.Complete?
  {
    var a := script[0];
    var n := Min(a.ready, want);
    if a.TimesOut() || n != want {
      EnoughRoundsComplete(script[1..], want - n, available - n);
    }
  }

  // ----- When a call returns -----

  function SumReady(script: seq<Attempt>): nat {
    if script == [] then 0 else script[0].ready + SumReady(script[1..])
  }

  /** What a whole run of rounds moves, however it is cut up. */
  function Carried(script: seq<Attempt>, want: nat, available: nat): nat {
    Min(SumReady(script), Min(want, available))
  }

  /** Round `i` makes the call return: its deadline cannot be set, it misses its deadline with the context done, or
      it does not miss its deadline and the transfer is whole. */
  predicate Returns(script: seq<Attempt>, i: nat, want: nat, available: nat)
    requires i < |script|
  {
    script[i].Stops() || (!script[i].TimesOut() && Carried(script[..i + 1], want, available) == want)
  }

  function EndOf(a: Attempt): PollEnd {
    if !a.armed then Unarmed else if a.TimesOut() then Cancelled else Complete(a.error)
  }

  /** One round shifts the question by what it moved. */
  lemma ReturnsLater(script: seq<Attempt>, i: nat, want: nat, available: nat, n: nat)
    requires i + 1 < |script| && n == Min(script[0].ready, Min(want, available))
    ensures Returns(script, i + 1, want, available) <==> Returns(script[1..], i, want - n, available - n)
    ensures Carried(script[..i + 2], want, available) == n + Carried(script[1..][..i + 1], want - n, available - n)
    ensures Carried(script[..i + 1], want, available) == n + Carried(script[1..][..i], want - n, available - n)
  {
    assert script[..i + 2][1..] == script[1..][..i + 1] && script[..i + 1][1..] == script[1..][..i];
  }

  /** The first round that makes the call return decides the outcome, the count and what is left. */
  lemma {:induction false} FirstReturnDecides(script: seq<Attempt>, i: nat, want: nat, available: nat)
    requires i < |script| && Returns(script, i, want, available)
    requires forall j :: 0 <= j < i ==> !Returns(script, j, want, available)
    ensures Poll(script, want, available) ==
      Polled(Carried(if script[i].armed then script[..i + 1] else script[..i], want, available),
             EndOf(script[i]), script[i + 1..])
    decreases i
  {
    hide Returns, Carried, Poll;
    var n := Min(script[0].ready, Min(want, available));
    FirstRound(script, want, available, n);
    PollRound(script, want, available, 0, n);
    if i > 0 {
      var tail, want', available' := script[1..], want - n, available - n;
      assert !Returns(script, 0, want, available);
      forall j | 0 <= j < i - 1 ensures !Returns(tail, j, want', available') {
        ReturnsLater(script, j, want, available, n);
        assert !Returns(script, j + 1, want, available);
      }
      ReturnsLater(script, i - 1, want, available, n);
      FirstReturnDecides(tail, i - 1, want', available');
    }
  }

  lemma FirstRound(script: seq<Attempt>, want: nat, available: nat, n: nat)
    requires script != [] && n == Min(script[0].ready, Min(want, available))
    ensures Returns(script, 0, want, available) <==> script[0].Stops() || (!script[0].TimesOut() && n == want)
    ensures Carried(script[..1], want, available) == n && Carried(script[..0], want, available) == 0
  {
    var a := script[0];
    assert script[..1] == [a] && SumReady([a]) == a.ready + SumReady([a][1..]);
  }

  lemma {:induction false} NeverReturns(script: seq<Attempt>, want: nat, available: nat)
    requires forall i :: 0 <= i < |script| ==> !Returns(script, i, want, available)
    ensures Poll(script, want, available).end == Polling
    decreases |script|
  {
    if script != [] {
      var n := Min(script[0].ready, Min(want, available));
      var tail, want', available' := script[1..], want - n, available - n;
      FirstRound(script, want, available, n);
      assert !Returns(script, 0, want, available);
      forall j | 0 <= j < |tail| ensures !Returns(tail, j, want', available') {
        ReturnsLater(script, j, want, available, n);
        assert !Returns(script, j + 1, want, available);
      }
      NeverReturns(tail, want', available');
    }
  }

  /** For every script: the call returns iff one of its rounds makes it return. */
  lemma ReturnsExactly(script: seq<Attempt>, want: nat, available: nat)
    ensures Poll(script, want, available).end != Polling <==>
      exists i :: 0 <= i < |script| && Returns(script, i, want, available)
  {
    hide Returns, Poll;
    if i :| 0 <= i < |script| && Returns(script, i, want, available) {
      var first := FirstReturn(script, i, want, available);
      FirstReturnDecides(script, first, want, available);
    } else {
      NeverReturns(script, want, available);
    }
  }

  lemma {:induction false} FirstReturn(script: seq<Attempt>, i: nat, want: nat, available: nat) returns (first: nat)
    requires i < |script| && Returns(script, i, want, available)
    ensures first <= i && Returns(script, first, want, available)
    ensures forall j :: 0 <= j < first ==> !Returns(script, j, want, available)
    decreases i
  {
    hide Returns;
    if j :| 0 <= j < i && Returns(script, j, want, available) {
      first := FirstReturn(script, j, want, available);
    } else {
      first := i;
    }
  }

  /** Round `i` cannot set its deadline, misses it, or completes the transfer. */
  predicate EndsAnyway(script: seq<Attempt>, i: nat, want: nat, available: nat)
    requires i < |script|
  {
    !script[i].armed || script[i].TimesOut() || Carried(script[..i + 1], want, available) == want
  }

  /** Even with a context that is done from the start, the call returns iff some round cannot set its deadline,
      misses it, or completes the transfer: a done context alone is not noticed. */
  lemma DoneContextReturns(script: seq<Attempt>, want: nat, available: nat)
    requires forall i :: 0 <= i < |script| ==> script[i].cancelled
    ensures Poll(script, want, available).end != Polling <==>
      exists i :: 0 <= i < |script| && EndsAnyway(script, i, want, available)
  {
    hide Poll, Carried;
    ReturnsExactly(script, want, available);
    forall i | 0 <= i < |script|
      ensures Returns(script, i, want, available) <==> EndsAnyway(script, i, want, available)
    {
      assert script[i].cancelled;
    }
  }

  /** So once the other end is gone, and only errors other than a missed deadline come back, it never returns. */
  lemma ClosedFileNeverReturns(script: seq<Attempt>, want: nat, available: nat)
    requires available < want
    requires forall i :: 0 <= i < |script| ==> script[i].armed && !script[i].TimesOut()
    ensures Poll(script, want, available).end == Polling
  {
    hide Poll;
    ReturnsExactly(script, want, available);
  }

  /** `Stuck`: an error or panic; `Waiting`: not returned yet. */
  datatype Outcome<+T> = Done(value: T) | Stuck | Waiting

  datatype Request = Served(key: Bytes) | Missing(key: Bytes) | Broken | Pending
  datatype Hinted = Handled(hint: Bytes) | HandlerFailed(hint: Bytes) | HintBroken | HintPending

  // ----- Scripts that let an endpoint finish -----

  lemma GetFluent<T>(script: seq<Attempt>, n: nat, key: Bytes, incoming: Bytes, r: Outcome<T>, left: seq<Attempt>)
    requires GetEnds(script, key, incoming, r, left) && key != [] && |incoming| >= 8
    requires 8 + FromBigEndian(incoming[..8]) <= |incoming|
    requires Fluent(script, n) && |key| + 8 + FromBigEndian(incoming[..8]) <= n
    ensures r.Done? && Fluent(left, n - |key| - 8 - FromBigEndian(incoming[..8]))
  {
    hide Reading, Writing, Fluent, FromBigEndian;
    var length := FromBigEndian(incoming[..8]);
    FluentWrites(script, n, |key|);
    var script1 := Writing(script, |key|).rest;
    FluentReads(script1, n - |key|, 8, |incoming|);
    FluentReads(Reading(script1, 8, |incoming|).rest, n - |key| - 8, length, |incoming| - 8);
  }

  lemma RequestFluent(script: seq<Attempt>, n: nat, preimage: Bytes -> Option<Bytes>, incoming: Bytes, r: Request,
                      left: seq<Attempt>, value: Bytes)
    requires RequestEnds(script, preimage, incoming, r, left) && |incoming| >= KEY_SIZE
    requires preimage(incoming[..KEY_SIZE]) == Some(value)
    requires Fluent(script, n) && KEY_SIZE + 8 + |value| <= n
    ensures r.Served? && Fluent(left, n - KEY_SIZE - 8 - |value|)
  {
    hide Reading, Writing, Fluent;
    FluentReads(script, n, KEY_SIZE, |incoming|);
    var script1 := Reading(script, KEY_SIZE, |incoming|).rest;
    FluentWrites(script1, n - KEY_SIZE, 8);
    if value != [] { FluentWrites(Writing(script1, 8).rest, n - KEY_SIZE - 8, |value|); }
  }

  lemma HintFluent<T>(script: seq<Attempt>, n: nat, hint: Bytes, incoming: Bytes, r: Outcome<T>, left: seq<Attempt>)
    requires HintEnds(script, hint, incoming, r, left) && incoming != []
    requires Fluent(script, n) && |HintCode(hint)| + 1 <= n
    ensures r.Done? && Fluent(left, n - |HintCode(hint)| - 1)
  {
    hide Writing, Fluent, Poll, BigEndian;
    FluentWrites(script, n, |HintCode(hint)|);
    FluentPoll(Writing(script, |HintCode(hint)|).rest, n - |HintCode(hint)|, 1, |incoming|);
  }

  lemma NextHintFluent(script: seq<Attempt>, n: nat, handles: Bytes -> bool, incoming: Bytes, r: Hinted,
                       left: seq<Attempt>)
    requires NextHintEnds(script, handles, incoming, r, left) && |incoming| >= 4
    requires 4 + FromBigEndian(incoming[..4]) <= |incoming|
    requires Fluent(script, n) && 4 + FromBigEndian(incoming[..4]) + 1 <= n
    ensures (r.Handled? || r.HandlerFailed?) && Fluent(left, n - 4 - FromBigEndian(incoming[..4]) - 1)
  {
    hide Reading, Writing, Fluent, Poll, FromBigEndian;
    var length := FromBigEndian(incoming[..4]);
    FluentReads(script, n, 4, |incoming|);
    var script1 := Reading(script, 4, |incoming|).rest;
    FluentReads(script1, n - 4, length, |incoming| - 4);
    var script2 := Reading(script1, length, |incoming| - 4).rest;
    FluentWrites(script2, n - 4 - length, 1);
    FluentPoll(script2, n - 4 - length, 1, 1);
  }

  lemma SliceJoin(s: Bytes, i: nat, n: nat)
    requires i + n <= |s|
    ensures s[..i] + s[i..][..n] == s[..i + n] && s[i..][n..] == s[i + n..]
  {
  }

  class Poller {
    /** Bytes the other end sends, not yet read; bytes written so far; what the next rounds meet. */
    var incoming: Bytes
    var outgoing: Bytes
    var script: seq<Attempt>

    constructor (incoming: Bytes, script: seq<Attempt>)
      ensures this.incoming == incoming && outgoing == [] && this.script == script
    {
      this.incoming, this.outgoing, this.script := incoming, [], script;
    }

    /** After a failure to set the deadline the count is 0, although earlier rounds may have moved bytes. */
    method Read(b: array<byte>) returns (read: nat, end: PollEnd)
      modifies this, b
      ensures var p := Poll(old(script), b.Length, |old(incoming)|);
        && end == p.end && script == p.rest
        && read == (if end.Unarmed? then 0 else p.moved)
        && b[..p.moved] == old(incoming)[..p.moved] && incoming == old(incoming)[p.moved..]
        && b[p.moved..] == old(b[p.moved..])
      ensures outgoing == old(outgoing)
    {
      hide Poll;
      read := 0;
      ghost var all := Poll(script, b.Length, |incoming|);
      while script != []
        invariant read <= b.Length && read <= |old(incoming)|
        invariant incoming == old(incoming)[read..]
        invariant b[..read] == old(incoming)[..read] && b[read..] == old(b[read..])
        invariant outgoing == old(outgoing)
        invariant all == var p := Poll(script, b.Length - read, |incoming|); p.(moved := read + p.moved)
        decreases |script|
      {
        var a := script[0];
        var n := Min(a.ready, Min(b.Length - read, |incoming|));
        PollRound(script, b.Length - read, |incoming|, read, n);
        script := script[1..];
        if !a.armed { return 0, Unarmed; }
        SliceJoin(old(incoming), read, n);
        SliceJoin(b[..], read, n);
        SliceJoin(old(b[..]), read, n);
        Fill(b, read, incoming[..n]);
        incoming := incoming[n..];
        read := read + n;
        if a.TimesOut() {
          if a.cancelled { return read, Cancelled; }
        } else if read >= b.Length {
          return read, Complete(a.error);
        }
      }
      PollNothing(b.Length - read, |incoming|);
      end := Polling;
    }

    method Write(data: Bytes) returns (written: nat, end: PollEnd)
      modifies this
      ensures var p := Poll(old(script), |data|, |data|);
        && end == p.end && script == p.rest
        && written == (if end.Unarmed? then 0 else p.moved)
        && outgoing == old(outgoing) + data[..p.moved]
      ensures incoming == old(incoming)
    {
      hide Poll;
      written := 0;
      ghost var all := Poll(script, |data|, |data|);
      while script != []
        invariant written <= |data| && outgoing == old(outgoing) + data[..written]
        invariant incoming == old(incoming)
        invariant all == var p := Poll(script, |data| - written, |data| - written); p.(moved := written + p.moved)
        decreases |script|
      {
        var a := script[0];
        var n := Min(a.ready, |data| - written);
        PollRound(script, |data| - written, |data| - written, written, n);
        script := script[1..];
        if !a.armed { return 0, Unarmed; }
        outgoing := outgoing + data[written..][..n];
        assert data[..written] + data[written..][..n] == data[..written + n];
        written := written + n;
        if a.TimesOut() {
          if a.cancelled { return written, Cancelled; }
        } else if written >= |data| {
          return written, Complete(a.error);
        }
      }
      PollNothing(|data| - written, |data| - written);
      end := Polling;
    }
  }

  method Fill(b: array<byte>, at: nat, data: Bytes)
    requires at + |data| <= b.Length
    modifies b
    ensures b[..at + |data|] == old(b[..at]) + data
    ensures b[at + |data|..] == old(b[at + |data|..])
  {
    forall i | 0 <= i < |data| { b[at + i] := data[i]; }
  }

  // ----- The ends of the two protocols -----

  /** How a transfer of an endpoint ends, and the rounds left after a whole one. */
  datatype Transfer = Whole(rest: seq<Attempt>) | Pends | Fails

  /** Reading `n` bytes in full: an error reported with the last byte does not matter. */
  function Reading(script: seq<Attempt>, n: nat, available: nat): Transfer {
    var p := Poll(script, n, available);
    if n == 0 then Whole(script)
    else if p.end.Polling? then Pends
    else if p.moved == n && !p.end.Unarmed? then Whole(p.rest) else Fails
  }

  /** Writing `n` bytes: any error matters. */
  function Writing(script: seq<Attempt>, n: nat): Transfer {
    var p := Poll(script, n, n);
    if p.end.Polling? then Pends else if p.end == Complete(None) then Whole(p.rest) else Fails
  }

  /** Nothing but missed deadlines goes wrong, and at least `n` rounds move a byte within theirs. */
  ghost predicate Fluent(script: seq<Attempt>, n: nat) {
    && (forall i :: 0 <= i < |script| ==> !script[i].Stops() && script[i].error != Some(OtherFailure))
    && n <= CountProductive(script)
  }

  lemma OtherwiseNone(e: Option<Failure>)
    ensures e == None || e == Some(DeadlineExceeded) || e == Some(OtherFailure)
  {
    if e.Some? {
      match e.value case DeadlineExceeded => case OtherFailure =>
    }
  }

  /** Such a script completes a transfer without an error, and takes at most one productive round for each byte. */
  lemma {:induction false} FluentPoll(script: seq<Attempt>, n: nat, want: nat, available: nat)
    requires Fluent(script, n) && Max(want, 1) <= n && want <= available
    ensures var p := Poll(script, want, available);
      p.end == Complete(None) && p.moved == want && Fluent(p.rest, n - Max(want, 1))
    decreases |script|
  {
    hide Poll;
    var a, rest := script[0], script[1..];
    var m := Min(a.ready, want);
    assert !a.Stops() && a.error != Some(OtherFailure);
    assert forall i :: 0 <= i < |rest| ==> rest[i] == script[i + 1];
    PollRound(script, want, available, 0, m);
    if a.TimesOut() || m != want {
      var n' := if a.Productive() then n - 1 else n;
      FluentPoll(rest, n', want - m, available - m);
      FluentLess(Poll(rest, want - m, available - m).rest, n' - Max(want - m, 1), n - Max(want, 1));
    } else {
      OtherwiseNone(a.error);
      assert Fluent(rest, n - 1);
      FluentLess(rest, n - 1, n - Max(want, 1));
    }
  }

  /** So do the transfers of the endpoints. */
  lemma FluentReads(script: seq<Attempt>, n: nat, want: nat, available: nat)
    requires Fluent(script, n) && want <= n && want <= available
    ensures Reading(script, want, available).Whole? && Fluent(Reading(script, want, available).rest, n - want)
  {
    if want > 0 { FluentPoll(script, n, want, available); }
  }

  lemma FluentWrites(script: seq<Attempt>, n: nat, want: nat)
    requires Fluent(script, n) && 0 < want <= n
    ensures Writing(script, want).Whole? && Fluent(Writing(script, want).rest, n - want)
  {
    FluentPoll(script, n, want, want);
  }

  lemma FluentLess(script: seq<Attempt>, n: nat, m: nat)
    requires Fluent(script, n) && m <= n
    ensures Fluent(script, m)
  {
  }

  /** Get succeeds iff the key is written, the length is read and the value is read; it waits iff one of these does. */
  ghost predicate GetEnds<T>(script: seq<Attempt>, key: Bytes, incoming: Bytes, r: Outcome<T>, left: seq<Attempt>) {
    match Writing(script, |key|)
    case Pends => r.Waiting?
    case Fails => r.Stuck?
    case Whole(script1) =>
      match Reading(script1, 8, |incoming|)
      case Pends => r.Waiting?
      case Fails => r.Stuck?
      case Whole(script2) =>
        |incoming| >= 8
        && match Reading(script2, FromBigEndian(incoming[..8]), |incoming| - 8)
           case Pends => r.Waiting?
           case Fails => r.Stuck?
           case Whole(rest) => r.Done? && left == rest
  }

  /** A request is served iff the key is read and known, and its length and the value, unless it is empty, are
      written. */
  ghost predicate RequestEnds(script: seq<Attempt>, preimage: Bytes -> Option<Bytes>, incoming: Bytes, r: Request,
                              left: seq<Attempt>)
  {
    match Reading(script, KEY_SIZE, |incoming|)
    case Pends => r.Pending?
    case Fails => r.Broken?
    case Whole(script1) =>
      |incoming| >= KEY_SIZE
      && match preimage(incoming[..KEY_SIZE])
         case None => r.Missing?
         case Some(value) =>
           match Writing(script1, 8)
           case Pends => r.Pending?
           case Fails => r.Broken?
           case Whole(script2) =>
             if value == [] then r.Served? && left == script2
             else
               match Writing(script2, |value|)
               case Pends => r.Pending?
               case Fails => r.Broken?
               case Whole(rest) => r.Served? && left == rest
  }

  /** A hint is done iff it is written and one byte is read without any error. */
  ghost predicate HintEnds<T>(script: seq<Attempt>, hint: Bytes, incoming: Bytes, r: Outcome<T>, left: seq<Attempt>)
  {
    match Writing(script, |HintCode(hint)|)
    case Pends => r.Waiting?
    case Fails => r.Stuck?
    case Whole(script1) =>
      var p := Poll(script1, 1, |incoming|);
      if p.end.Polling? then r.Waiting?
      else if p.end == Complete(None) then r.Done? && left == p.rest
      else r.Stuck?
  }

  /** Reading the length and then the payload of a hint. */
  function ReadingHint(script: seq<Attempt>, incoming: Bytes): Transfer {
    match Reading(script, 4, |incoming|)
    case Pends => Pends
    case Fails => Fails
    case Whole(script1) =>
      if |incoming| < 4 then Fails else Reading(script1, FromBigEndian(incoming[..4]), |incoming| - 4)
  }

  /** A hint is handed over iff its length and payload are read; for a handled one the acknowledgement matters. */
  ghost predicate NextHintEnds(script: seq<Attempt>, handles: Bytes -> bool, incoming: Bytes, r: Hinted,
                               left: seq<Attempt>)
  {
    match ReadingHint(script, incoming)
    case Pends => r.HintPending?
    case Fails => r.HintBroken?
    case Whole(script2) =>
      |incoming| >= 4 && |incoming| - 4 >= FromBigEndian(incoming[..4])
      && if handles(incoming[4..4 + FromBigEndian(incoming[..4])])
         then (match Writing(script2, 1)
               case Pends => r.HintPending?
               case Fails => r.HintBroken?
               case Whole(rest) => r.Handled? && left == rest)
         else
           var p := Poll(script2, 1, 1);
           if p.end.Polling? then r.HintPending?
           else r == HandlerFailed(incoming[4..4 + FromBigEndian(incoming[..4])]) && left == p.rest
  }

  /** io.ReadFull: the first `n` bytes, or a failure having read fewer. Nothing is asked of the file for n = 0. */
  method ReadFull(f: Poller, n: nat) returns (r: Outcome<Bytes>)
    modifies f
    ensures f.outgoing == old(f.outgoing)
    ensures r.Done? ==> |r.value| == n && r.value + f.incoming == old(f.incoming)
    ensures IsSuffix(f.incoming, old(f.incoming))
    ensures n == 0 ==> r.Done? && f.script == old(f.script)
    ensures Uninterrupted(old(f.script)) ==> Uninterrupted(f.script)
    ensures n > 0 ==> var p := Poll(old(f.script), n, |old(f.incoming)|);
      (r.Done? <==> p.moved == n && !p.end.Unarmed? && !p.end.Polling?) && (r.Waiting? <==> p.end.Polling?)
    ensures match Reading(old(f.script), n, |old(f.incoming)|)
            case Pends => r.Waiting? case Fails => r.Stuck? case Whole(rest) => r.Done? && f.script == rest
  {
    if n == 0 { return Done([]); }
    if Uninterrupted(f.script) { UninterruptedPoll(f.script, n, |f.incoming|); }
    var b := new byte[n];
    var read, end := f.Read(b);
    if end.Polling? { return Waiting; }
    r := if read >= n then Done(b[..]) else Stuck;
  }

  /** A Write whose error is looked at. */
  method Send(f: Poller, data: Bytes) returns (r: Outcome<()>)
    modifies f
    ensures f.incoming == old(f.incoming)
    ensures var p := Poll(old(f.script), |data|, |data|);
      && f.outgoing == old(f.outgoing) + data[..p.moved]
      && (Uninterrupted(old(f.script)) ==> Uninterrupted(f.script))
      && (r.Done? <==> p.end == Complete(None)) && (r.Waiting? <==> p.end.Polling?)
    ensures match Writing(old(f.script), |data|)
            case Pends => r.Waiting? case Fails => r.Stuck? case Whole(rest) => r.Done? && f.script == rest
  {
    if Uninterrupted(f.script) { UninterruptedPoll(f.script, |data|, |data|); }
    var written, end := f.Write(data);
    r := if end.Polling? then Waiting else if end == Complete(None) then Done(()) else Stuck;
  }

  /** `whole` was written, or some of it. */
  ghost predicate WrotePart(before: Bytes, after: Bytes, whole: Bytes) {
    exists k :: 0 <= k <= |whole| && after == before + whole[..k]
  }

  lemma PartOfPrefix(before: Bytes, after: Bytes, a: Bytes, b: Bytes)
    requires WrotePart(before, after, a)
    ensures WrotePart(before, after, a + b)
  {
    var k :| 0 <= k <= |a| && after == before + a[..k];
    assert (a + b)[..k] == a[..k];
  }

  lemma PartOfRest(before: Bytes, after: Bytes, a: Bytes, b: Bytes)
    requires WrotePart(before + a, after, b)
    ensures WrotePart(before, after, a + b)
  {
    var k :| 0 <= k <= |b| && after == (before + a) + b[..k];
    assert (a + b)[..|a| + k] == a + b[..k];
  }

  /** Reading `k` bytes of prefix and then what they announce takes exactly one prefixed value off the stream. */
  lemma PrefixTaken(k: nat, head: Bytes, v: Bytes, rest: Bytes, before: Bytes)
    requires |head| == k && |v| == FromBigEndian(head) && head + (v + rest) == before
    ensures |v| < Pow256(k) && Prefixed(k, v) + rest == before
  {
    EncodeDecoded(head);
  }

  /** Done means that the whole key was sent and one whole length-prefixed value was taken off the stream. */
  method Get(f: Poller, key: Bytes) returns (r: Outcome<Bytes>)
    modifies f
    ensures r.Done? ==> f.outgoing == old(f.outgoing) + key
    ensures r.Done? ==> |r.value| <= MAX_UINT64 && ValueCode(r.value) + f.incoming == old(f.incoming)
    ensures IsSuffix(f.incoming, old(f.incoming)) && WrotePart(old(f.outgoing), f.outgoing, key)
    ensures GetEnds(old(f.script), key, old(f.incoming), r, f.script)
  {
    hide Poll, Reading, Writing;
    Widths();
    var sent := Send(f, key);
    if !sent.Done? { return if sent.Waiting? then Waiting else Stuck; }
    assert key[..|key|] == key;
    var head := ReadFull(f, 8);
    if !head.Done? { return head; }
    assert head.value == old(f.incoming)[..8];
    var length := FromBigEndian(head.value);
    r := ReadFull(f, length);
    if r.Done? {
      PrefixTaken(8, head.value, r.value, f.incoming, old(f.incoming));
    }
  }

  /** One request: nothing is written unless a whole key was read and its pre-image exists. */
  method NextPreimageRequest(f: Poller, preimage: Bytes -> Option<Bytes>) returns (r: Request)
    modifies f
    ensures r.Served? || r.Missing? ==> |r.key| == KEY_SIZE == 32 && r.key + f.incoming == old(f.incoming)
    ensures r.Served? ==>
      preimage(r.key).Some? && f.outgoing == old(f.outgoing) + ValueCode(preimage(r.key).value)
    ensures r.Missing? ==> preimage(r.key) == None && f.outgoing == old(f.outgoing)
    ensures IsSuffix(f.incoming, old(f.incoming))
    ensures f.outgoing != old(f.outgoing) ==>
      && KEY_SIZE <= |old(f.incoming)| && f.incoming == old(f.incoming)[KEY_SIZE..]
      && var v := preimage(old(f.incoming)[..KEY_SIZE]);
         v.Some? && WrotePart(old(f.outgoing), f.outgoing, ValueCode(v.value))
    ensures RequestEnds(old(f.script), preimage, old(f.incoming), r, f.script)
  {
    hide Poll, BigEndian, Reading, Writing;
    var key := ReadFull(f, KEY_SIZE);
    if !key.Done? { return if key.Waiting? then Pending else Broken; }
    var value := preimage(key.value);
    if value.None? { return Missing(key.value); }
    assert key.value == old(f.incoming)[..KEY_SIZE];
    var head := BigEndian(|value.value|, 8);
    var sent := Send(f, head);
    assert WrotePart(old(f.outgoing), f.outgoing, head);
    PartOfPrefix(old(f.outgoing), f.outgoing, head, value.value);
    if !sent.Done? { return if sent.Waiting? then Pending else Broken; }
    assert head[..8] == head;
    if |value.value| == 0 { assert ValueCode(value.value) == head; return Served(key.value); }
    sent := Send(f, value.value);
    assert WrotePart(old(f.outgoing) + head, f.outgoing, value.value);
    PartOfRest(old(f.outgoing), f.outgoing, head, value.value);
    if !sent.Done? { return if sent.Waiting? then Pending else Broken; }
    assert value.value[..|value.value|] == value.value;
    r := Served(key.value);
  }

  /** Done means that the whole hint was sent and exactly one byte was taken off the stream. */
  method Hint(f: Poller, hint: Bytes) returns (r: Outcome<()>)
    modifies f
    ensures r.Done? ==> f.outgoing == old(f.outgoing) + HintCode(hint)
    ensures r.Done? ==> |old(f.incoming)| > 0 && f.incoming == old(f.incoming)[1..]
    ensures IsSuffix(f.incoming, old(f.incoming)) && WrotePart(old(f.outgoing), f.outgoing, HintCode(hint))
    ensures HintEnds(old(f.script), hint, old(f.incoming), r, f.script)
  {
    hide Poll, BigEndian, Writing;
    var code := HintCode(hint);
    r := Send(f, code);
    if !r.Done? { return; }
    assert code[..|code|] == code;
    var b := new byte[1];
    var read, end := f.Read(b);
    r := if end.Polling? then Waiting else if end == Complete(None) then Done(()) else Stuck;
  }

  lemma SuffixTwice(a: Bytes, b: Bytes, c: Bytes)
    requires IsSuffix(a, b) && IsSuffix(b, c)
    ensures IsSuffix(a, c)
  {
  }

  lemma PartsOf(a: Bytes, b: Bytes, c: Bytes, whole: Bytes)
    requires a + (b + c) == whole || a + b + c == whole
    ensures |whole| == |a| + |b| + |c| && whole[..|a|] == a && whole[|a|..|a| + |b|] == b
    ensures IsSuffix(c, whole) && IsSuffix(b + c, whole)
  {
  }

  /** The length and then the payload of a hint. */
  method ReadHint(f: Poller) returns (r: Outcome<Bytes>)
    modifies f
    ensures r.Done? ==> |r.value| < 0x1_0000_0000 && HintCode(r.value) + f.incoming == old(f.incoming)
    ensures f.outgoing == old(f.outgoing) && IsSuffix(f.incoming, old(f.incoming))
    ensures Uninterrupted(old(f.script)) ==> Uninterrupted(f.script)
    ensures match ReadingHint(old(f.script), old(f.incoming))
            case Pends => r.Waiting? case Fails => r.Stuck?
            case Whole(rest) =>
              && r.Done? && f.script == rest && |old(f.incoming)| >= 4
              && |r.value| == FromBigEndian(old(f.incoming)[..4]) <= |old(f.incoming)| - 4
              && r.value == old(f.incoming)[4..4 + |r.value|]
  {
    hide Poll, Uninterrupted, Reading, BigEndian, FromBigEndian, IsSuffix;
    Widths();
    r := ReadFull(f, 4);
    if !r.Done? { return; }
    var head := r.value;
    ghost var rest := f.incoming;
    PartsOf(head, rest, [], old(f.incoming));
    r := ReadFull(f, FromBigEndian(head));
    SuffixTwice(f.incoming, rest, old(f.incoming));
    if r.Done? {
      PrefixTaken(4, head, r.value, f.incoming, old(f.incoming));
      PartsOf(head, r.value, f.incoming, old(f.incoming));
    }
  }

  /** One hint: it is handed over only when it was read whole, and then at most one byte is written;
      a handled hint is acknowledged with exactly one byte, a refused one too unless the poll was interrupted. */
  method NextHint(f: Poller, handles: Bytes -> bool) returns (r: Hinted)
    modifies f
    ensures r.Handled? || r.HandlerFailed? ==>
      && |r.hint| < 0x1_0000_0000 && HintCode(r.hint) + f.incoming == old(f.incoming)
      && handles(r.hint) == r.Handled?
    ensures r.Handled? ==> f.outgoing == old(f.outgoing) + ACK == old(f.outgoing) + [0]
    ensures r.HandlerFailed? && Uninterrupted(old(f.script)) ==> f.outgoing == old(f.outgoing) + ACK
    ensures WrotePart(old(f.outgoing), f.outgoing, ACK) && IsSuffix(f.incoming, old(f.incoming))
    ensures Uninterrupted(old(f.script)) ==> Uninterrupted(f.script)
    ensures NextHintEnds(old(f.script), handles, old(f.incoming), r, f.script)
  {
    hide Poll, Uninterrupted, ReadingHint, Writing;
    assert ACK[..0] == [] && ACK[..1] == ACK;
    var hint := ReadHint(f);
    assert f.outgoing == old(f.outgoing) + ACK[..0];
    if !hint.Done? { return if hint.Waiting? then HintPending else HintBroken; }
    if !handles(hint.value) {
      if Uninterrupted(f.script) { UninterruptedPoll(f.script, 1, 1); }
      var _, end := f.Write(ACK); // whether this fails is not looked at
      return if end.Polling? then HintPending else HandlerFailed(hint.value);
    }
    var sent := Send(f, ACK);
    r := if sent.Waiting? then HintPending else if sent.Done? then Handled(hint.value) else HintBroken;
  }
}
