/** A request/reply exchange over two byte streams that deliver arbitrary fragments, for any framing whose
    messages can be delimited while reading (the shape of op-preimage/oracle.go and op-preimage/hints.go). */
module Duplex {
  import opened Prelude

  /** How many more bytes a reader asks for after having read a prefix; 0 once the message is complete. */
  type Need = Bytes -> nat

  /** Reading by `need` stops exactly at the end of `msg`, whatever the fragments. */
  ghost predicate SelfDelimiting(need: Need, msg: Bytes) {
    && |msg| > 0 && need(msg) == 0
    && forall k :: 0 <= k < |msg| ==> 0 < need(msg[..k]) <= |msg| - k
  }

  /** The requests the client will make, what the server answers, and the framing of both directions. */
  datatype Protocol = Protocol(requests: seq<Bytes>, reply: Bytes -> Bytes, needRequest: Need, needReply: Need)
  {
    ghost predicate Valid() {
      forall i :: 0 <= i < |requests| ==>
        SelfDelimiting(needRequest, requests[i]) && SelfDelimiting(needReply, reply(requests[i]))
    }
  }

  datatype Client = Idle | Sending(rest: Bytes) | Receiving(got: Bytes)
  datatype Server = Reading(part: Bytes) | Replying(left: Bytes)

  /** `up` and `down` hold the bytes in flight; `answers` and `served` what each side has received in full. */
  datatype Conn = Conn(up: Bytes, down: Bytes, client: Client, server: Server, answers: seq<Bytes>, served: seq<Bytes>)

  function Start(): Conn {
    Conn([], [], Idle, Reading([]), [], [])
  }

  /** A step moves a fragment of any length that its side can write, or that is there to be read. */
  datatype Move = Begin | ClientWrite(n: nat) | ServerRead(n: nat) | ServerWrite(n: nat) | ClientRead(n: nat)

  predicate Enabled(p: Protocol, c: Conn, m: Move) {
    match m
    case Begin => c.client.Idle? && |c.answers| < |p.requests|
    case ClientWrite(n) => c.client.Sending? && 0 < n <= |c.client.rest|
    case ServerRead(n) => c.server.Reading? && 0 < n <= |c.up| && n <= p.needRequest(c.server.part)
    case ServerWrite(n) => c.server.Replying? && 0 < n <= |c.server.left|
    case ClientRead(n) => c.client.Receiving? && 0 < n <= |c.down| && n <= p.needReply(c.client.got)
  }

  function Step(p: Protocol, c: Conn, m: Move): Conn
    requires Enabled(p, c, m)
  {
    match m
    case Begin => c.(client := Sending(p.requests[|c.answers|]))
    case ClientWrite(n) =>
      var rest := c.client.rest[n..];
      c.(up := c.up + c.client.rest[..n], client := if rest == [] then Receiving([]) else Sending(rest))
    case ServerRead(n) =>
      var part := c.server.part + c.up[..n];
      if p.needRequest(part) == 0 then c.(up := c.up[n..], server := Replying(p.reply(part)),
                                          served := c.served + [part])
      else c.(up := c.up[n..], server := Reading(part))
    case ServerWrite(n) =>
      var left := c.server.left[n..];
      c.(down := c.down + c.server.left[..n], server := if left == [] then Reading([]) else Replying(left))
    case ClientRead(n) =>
      var got := c.client.got + c.down[..n];
      if p.needReply(got) == 0 then c.(down := c.down[n..], client := Idle, answers := c.answers + [got])
      else c.(down := c.down[n..], client := Receiving(got))
  }

  function Replies(p: Protocol, n: nat): seq<Bytes>
    requires n <= |p.requests|
  {
    seq(n, i requires 0 <= i < n => p.reply(p.requests[i]))
  }

  /** Where the bytes of the current exchange are. */
  ghost predicate Inv(p: Protocol, c: Conn) {
    var n := |c.answers|;
    && n <= |p.requests| && c.answers == Replies(p, n)
    && (c.client.Idle? ==> c.up == [] && c.down == [] && c.server == Reading([]) && c.served == p.requests[..n])
    && (!c.client.Idle? ==> n < |p.requests| && (RequestUnderway(p, c) || ReplyUnderway(p, c)))
  }

  /** The server has part of the request, the rest is in flight or still to be written. */
  ghost predicate RequestUnderway(p: Protocol, c: Conn)
    requires |c.answers| < |p.requests|
  {
    var q := p.requests[|c.answers|];
    && c.served == p.requests[..|c.answers|] && c.down == [] && c.server.Reading? && |c.server.part| < |q|
    && match c.client
       case Idle => false
       case Sending(rest) => rest != [] && c.server.part + c.up + rest == q
       case Receiving(got) => got == [] && c.server.part + c.up == q
  }

  /** The client has part of the reply, the rest is in flight or still to be written. */
  ghost predicate ReplyUnderway(p: Protocol, c: Conn)
    requires |c.answers| < |p.requests|
  {
    var r := p.reply(p.requests[|c.answers|]);
    && c.served == p.requests[..|c.answers| + 1] && c.up == [] && c.client.Receiving? && |c.client.got| < |r|
    && match c.server
       case Reading(part) => part == [] && c.client.got + c.down == r
       case Replying(left) => left != [] && c.client.got + c.down + left == r
  }

  lemma PrefixNeed(need: Need, msg: Bytes, got: Bytes, next: Bytes, n: nat)
    requires SelfDelimiting(need, msg) && |got| < |msg| && n <= |next| && n <= need(got)
    requires |got| + |next| <= |msg| && msg[..|got| + |next|] == got + next
    ensures |got| + n <= |msg| && got + next[..n] == msg[..|got| + n]
    ensures need(got + next[..n]) == 0 <==> |got| + n == |msg|
  {
    assert msg[..|got|] == (got + next)[..|got|] == got;
    assert got + next[..n] == (got + next)[..|got| + n] == msg[..|got| + n];
    assert |got| + n == |msg| ==> msg[..|got| + n] == msg;
  }

  lemma StepInv(p: Protocol, c: Conn, m: Move)
    requires p.Valid() && Inv(p, c) && Enabled(p, c, m)
    ensures Inv(p, Step(p, c, m))
  {
    match m
    case Begin => assert [] + c.up + p.requests[|c.answers|] == p.requests[|c.answers|];
    case ClientWrite(k) => ClientWriteInv(p, c, k);
    case ServerRead(k) => ServerReadInv(p, c, k);
    case ServerWrite(k) => ServerWriteInv(p, c, k);
    case ClientRead(k) => ClientReadInv(p, c, k);
  }

  lemma ClientWriteInv(p: Protocol, c: Conn, k: nat)
    requires p.Valid() && Inv(p, c) && Enabled(p, c, ClientWrite(k))
    ensures Inv(p, Step(p, c, ClientWrite(k)))
  {
    assert RequestUnderway(p, c);
    assert c.client.rest == c.client.rest[..k] + c.client.rest[k..];
    assert RequestUnderway(p, Step(p, c, ClientWrite(k)));
  }

  lemma ServerWriteInv(p: Protocol, c: Conn, k: nat)
    requires p.Valid() && Inv(p, c) && Enabled(p, c, ServerWrite(k))
    ensures Inv(p, Step(p, c, ServerWrite(k)))
  {
    assert ReplyUnderway(p, c);
    assert c.server.left == c.server.left[..k] + c.server.left[k..];
    assert ReplyUnderway(p, Step(p, c, ServerWrite(k)));
  }

  lemma ServerReadInv(p: Protocol, c: Conn, k: nat)
    requires p.Valid() && Inv(p, c) && Enabled(p, c, ServerRead(k))
    ensures Inv(p, Step(p, c, ServerRead(k)))
  {
    var n := |c.answers|;
    var q := p.requests[n];
    assert RequestUnderway(p, c);
    PrefixNeed(p.needRequest, q, c.server.part, c.up, k);
    var part := c.server.part + c.up[..k];
    assert c.up == c.up[..k] + c.up[k..];
    if p.needRequest(part) == 0 {
      assert part == q;
      assert c.served + [part] == p.requests[..n + 1];
      assert [] + c.down + p.reply(q) == p.reply(q);
      assert ReplyUnderway(p, Step(p, c, ServerRead(k)));
    } else {
      assert RequestUnderway(p, Step(p, c, ServerRead(k)));
    }
  }

  lemma ClientReadInv(p: Protocol, c: Conn, k: nat)
    requires p.Valid() && Inv(p, c) && Enabled(p, c, ClientRead(k))
    ensures Inv(p, Step(p, c, ClientRead(k)))
  {
    var n := |c.answers|;
    var r := p.reply(p.requests[n]);
    assert ReplyUnderway(p, c);
    PrefixNeed(p.needReply, r, c.client.got, c.down, k);
    var got := c.client.got + c.down[..k];
    assert c.down == c.down[..k] + c.down[k..];
    if p.needReply(got) == 0 {
      assert got == r;
      assert c.answers + [got] == Replies(p, n + 1);
    } else {
      assert ReplyUnderway(p, Step(p, c, ClientRead(k)));
    }
  }

  // ----- Runs -----

  lemma StartInv(p: Protocol)
    ensures Inv(p, Start())
  {
    assert Replies(p, 0) == [] == p.requests[..0];
  }

  ghost predicate Reachable(p: Protocol, c: Conn, ms: seq<Move>, end: Conn)
    decreases |ms|
  {
    if ms == [] then end == c
    else Enabled(p, c, ms[0]) && Reachable(p, Step(p, c, ms[0]), ms[1..], end)
  }

  /** Whatever the interleaving and the fragments: every answer so far is the server's reply to that very
      request, the server has seen exactly the requests made, in order, and between exchanges no byte is in flight. */
  lemma {:induction false} RunInv(p: Protocol, c: Conn, ms: seq<Move>, end: Conn)
    requires p.Valid() && Inv(p, c) && Reachable(p, c, ms, end)
    ensures Inv(p, end)
    decreases |ms|
  {
    hide Inv, Step, Enabled;
    if ms != [] {
      StepInv(p, c, ms[0]);
      RunInv(p, Step(p, c, ms[0]), ms[1..], end);
    }
  }

  /** Bytes still to be written or read before the run is over. */
  ghost function Remaining(p: Protocol, n: nat): nat
    requires n <= |p.requests|
    decreases |p.requests| - n
  {
    if n == |p.requests| then 0
    else 1 + 2 * |p.requests[n]| + 2 * |p.reply(p.requests[n])| + Remaining(p, n + 1)
  }

  ghost function Work(p: Protocol, c: Conn): nat
    requires Inv(p, c)
  {
    var n := |c.answers|;
    if c.client.Idle? then Remaining(p, n)
    else if c.client.Sending? then 2 * |c.client.rest| + |c.up| + 2 * |p.reply(p.requests[n])| + Remaining(p, n + 1)
    else if RequestUnderway(p, c) then |c.up| + 2 * |p.reply(p.requests[n])| + Remaining(p, n + 1)
    else (if c.server.Replying? then 2 * |c.server.left| else 0) + |c.down| + Remaining(p, n + 1)
  }

  /** Every step does some of the work, so every run is finite. */
  lemma StepWorks(p: Protocol, c: Conn, m: Move)
    requires p.Valid() && Inv(p, c) && Enabled(p, c, m)
    ensures Inv(p, Step(p, c, m)) && Work(p, Step(p, c, m)) < Work(p, c)
  {
    StepInv(p, c, m);
    if m.ServerRead? {
      var q := p.requests[|c.answers|];
      PrefixNeed(p.needRequest, q, c.server.part, c.up, m.n);
      if p.needRequest(c.server.part + c.up[..m.n]) == 0 { assert c.server.part + c.up[..m.n] == q; }
    }
  }

  /** No deadlock: a run can stop only when every request has been answered. */
  lemma NeverStuck(p: Protocol, c: Conn) returns (m: Move)
    requires p.Valid() && Inv(p, c) && !(c.client.Idle? && |c.answers| == |p.requests|)
    ensures Enabled(p, c, m)
  {
    var n := |c.answers|;
    match c.client
    case Idle => m := Begin;
    case Sending(rest) => m := ClientWrite(1);
    case Receiving(got) =>
      if RequestUnderway(p, c) {
        assert p.requests[n][..|c.server.part|] == c.server.part;
        m := ServerRead(1);
      } else if c.server.Replying? {
        m := ServerWrite(1);
      } else {
        assert p.reply(p.requests[n])[..|got|] == got;
        m := ClientRead(1);
      }
  }

  /** A run that cannot go on has delivered everything: the i-th answer is the reply to the i-th request,
      each request was served once and in order, and both streams are empty. */
  lemma CompleteRun(p: Protocol, ms: seq<Move>, end: Conn)
    requires p.Valid() && Reachable(p, Start(), ms, end) && forall m :: !Enabled(p, end, m)
    ensures end.answers == Replies(p, |p.requests|) && end.served == p.requests
    ensures end.up == [] && end.down == []
  {
    StartInv(p);
    RunInv(p, Start(), ms, end);
    if !(end.client.Idle? && |end.answers| == |p.requests|) {
      var m := NeverStuck(p, end);
    }
    assert p.requests[..|p.requests|] == p.requests;
  }
}
