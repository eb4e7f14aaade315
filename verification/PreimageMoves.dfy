/** The polling loops of the four endpoints as moves of the interleaved exchange: each transfer an endpoint makes is,
    round by round, a run of its side's moves, and moves the same bytes as one move of the total. */
module PreimageMoves {
  import opened Prelude
  import opened Duplex
  import opened Preimage
  import opened FilePolling

  /** Who moves bytes which way. */
  datatype Side = ClientWrites | ServerReads | ServerWrites | ClientReads

  function Moving(side: Side, n: nat): Move {
    match side
    case ClientWrites => ClientWrite(n)
    case ServerReads => ServerRead(n)
    case ServerWrites => ServerWrite(n)
    case ClientReads => ClientRead(n)
  }

  /** How many bytes the side can move now: what it has to write, or what it asks for and finds. */
  function Room(p: Protocol, c: Conn, side: Side): nat {
    match side
    case ClientWrites => if c.client.Sending? then |c.client.rest| else 0
    case ServerReads => if c.server.Reading? then Min(p.needRequest(c.server.part), |c.up|) else 0
    case ServerWrites => if c.server.Replying? then |c.server.left| else 0
    case ClientReads => if c.client.Receiving? then Min(p.needReply(c.client.got), |c.down|) else 0
  }

  /** Reading less than what is asked for leaves the rest to ask for. */
  ghost predicate Countdown(need: Need) {
    forall got, x :: |x| < need(got) ==> need(got + x) == need(got) - |x|
  }

  ghost predicate CountsDown(p: Protocol) {
    Countdown(p.needRequest) && Countdown(p.needReply)
  }

  /** The connection after the side has moved `n` bytes. */
  function Moved(p: Protocol, c: Conn, side: Side, n: nat): Conn
    requires n <= Room(p, c, side)
  {
    if n == 0 then c else Step(p, c, Moving(side, n))
  }

  lemma RoomAfter(p: Protocol, c: Conn, side: Side, n: nat)
    requires CountsDown(p) && 0 < n <= Room(p, c, side)
    ensures Room(p, Moved(p, c, side, n), side) >= Room(p, c, side) - n
  {
    match side
    case ServerReads => if n < p.needRequest(c.server.part) { Asks(p.needRequest, c.server.part, c.up[..n]); }
    case ClientReads => if n < p.needReply(c.client.got) { Asks(p.needReply, c.client.got, c.down[..n]); }
    case _ =>
  }

  lemma Asks(need: Need, got: Bytes, x: Bytes)
    requires Countdown(need) && |x| < need(got)
    ensures need(got + x) == need(got) - |x|
  {
  }

  lemma Joined(s: Bytes, a: nat, b: nat)
    requires a + b <= |s|
    ensures s[..a] + s[a..][..b] == s[..a + b] && s[a..][b..] == s[a + b..]
  {
  }

  lemma Regrouped(x: Bytes, y: Bytes, z: Bytes)
    ensures (x + y) + z == x + (y + z)
  {
  }

  lemma ClientWritesTwice(p: Protocol, c: Conn, a: nat, b: nat)
    requires CountsDown(p) && 0 < a && 0 < b && a + b <= Room(p, c, ClientWrites)
    ensures b <= Room(p, Moved(p, c, ClientWrites, a), ClientWrites)
    ensures Moved(p, Moved(p, c, ClientWrites, a), ClientWrites, b) == Moved(p, c, ClientWrites, a + b)
  {
    hide CountsDown;
    RoomAfter(p, c, ClientWrites, a);
    Joined(c.client.rest, a, b);
    Regrouped(c.up, c.client.rest[..a], c.client.rest[a..][..b]);
  }

  lemma ServerReadsTwice(p: Protocol, c: Conn, a: nat, b: nat)
    requires CountsDown(p) && 0 < a && 0 < b && a + b <= Room(p, c, ServerReads)
    ensures b <= Room(p, Moved(p, c, ServerReads, a), ServerReads)
    ensures Moved(p, Moved(p, c, ServerReads, a), ServerReads, b) == Moved(p, c, ServerReads, a + b)
  {
    hide Countdown;
    RoomAfter(p, c, ServerReads, a);
    Asks(p.needRequest, c.server.part, c.up[..a]);
    Joined(c.up, a, b);
    Regrouped(c.server.part, c.up[..a], c.up[a..][..b]);
  }

  lemma ServerWritesTwice(p: Protocol, c: Conn, a: nat, b: nat)
    requires CountsDown(p) && 0 < a && 0 < b && a + b <= Room(p, c, ServerWrites)
    ensures b <= Room(p, Moved(p, c, ServerWrites, a), ServerWrites)
    ensures Moved(p, Moved(p, c, ServerWrites, a), ServerWrites, b) == Moved(p, c, ServerWrites, a + b)
  {
    hide CountsDown;
    RoomAfter(p, c, ServerWrites, a);
    Joined(c.server.left, a, b);
    Regrouped(c.down, c.server.left[..a], c.server.left[a..][..b]);
  }

  lemma ClientReadsTwice(p: Protocol, c: Conn, a: nat, b: nat)
    requires CountsDown(p) && 0 < a && 0 < b && a + b <= Room(p, c, ClientReads)
    ensures b <= Room(p, Moved(p, c, ClientReads, a), ClientReads)
    ensures Moved(p, Moved(p, c, ClientReads, a), ClientReads, b) == Moved(p, c, ClientReads, a + b)
  {
    hide Countdown;
    RoomAfter(p, c, ClientReads, a);
    Asks(p.needReply, c.client.got, c.down[..a]);
    Joined(c.down, a, b);
    Regrouped(c.client.got, c.down[..a], c.down[a..][..b]);
  }

  /** Two moves are one. */
  lemma MovedTwice(p: Protocol, c: Conn, side: Side, a: nat, b: nat)
    requires CountsDown(p) && 0 < a && 0 < b && a + b <= Room(p, c, side)
    ensures b <= Room(p, Moved(p, c, side, a), side)
    ensures Moved(p, Moved(p, c, side, a), side, b) == Moved(p, c, side, a + b)
  {
    hide CountsDown, Room, Moved;
    match side
    case ClientWrites => ClientWritesTwice(p, c, a, b);
    case ServerReads => ServerReadsTwice(p, c, a, b);
    case ServerWrites => ServerWritesTwice(p, c, a, b);
    case ClientReads => ClientReadsTwice(p, c, a, b);
  }

  ghost predicate AllOf(side: Side, ms: seq<Move>) {
    forall i :: 0 <= i < |ms| ==> exists n :: ms[i] == Moving(side, n)
  }

  /** A first move and a run from there. */
  lemma ReachableFirst(p: Protocol, c: Conn, side: Side, n: nat, later: nat, rest: seq<Move>)
    requires CountsDown(p) && 0 < n && n + later <= Room(p, c, side) && AllOf(side, rest)
    requires later <= Room(p, Moved(p, c, side, n), side)
    requires Reachable(p, Moved(p, c, side, n), rest, Moved(p, Moved(p, c, side, n), side, later))
    ensures var ms := [Moving(side, n)] + rest;
      AllOf(side, ms) && Reachable(p, c, ms, Moved(p, c, side, n + later))
  {
    hide Room, CountsDown, Enabled, Step;
    RoomEnabled(p, c, side, n);
    assert ([Moving(side, n)] + rest)[1..] == rest;
    if later > 0 { MovedTwice(p, c, side, n, later); }
  }

  /** A call of Read or Write on the polling file, whatever its rounds are, is a run of moves of its side that ends
      where one move of all the bytes would. */
  lemma {:induction false} RoundsAreMoves(p: Protocol, c: Conn, side: Side, script: seq<Attempt>, want: nat,
                                          available: nat) returns (ms: seq<Move>)
    requires CountsDown(p) && Min(want, available) <= Room(p, c, side)
    ensures AllOf(side, ms)
    ensures Reachable(p, c, ms, Moved(p, c, side, Poll(script, want, available).moved))
    decreases |script|
  {
    hide Step, Room, CountsDown, Enabled, Poll;
    ms := [];
    if script == [] {
      PollNothing(want, available);
    } else {
      var n := Min(script[0].ready, Min(want, available));
      PollRound(script, want, available, 0, n);
      if script[0].armed && n > 0 { RoomAfter(p, c, side, n); }
      if !script[0].armed || (n == 0 && (script[0].Stops() || (!script[0].TimesOut() && n == want))) {
      } else if script[0].Stops() || (!script[0].TimesOut() && n == want) {
        ReachableFirst(p, c, side, n, 0, []);
        ms := [Moving(side, n)] + [];
      } else {
        var rest := RoundsAreMoves(p, Moved(p, c, side, n), side, script[1..], want - n, available - n);
        ms := rest;
        if n > 0 {
          ReachableFirst(p, c, side, n, Poll(script[1..], want - n, available - n).moved, rest);
          ms := [Moving(side, n)] + rest;
        }
      }
    }
  }

  lemma RoomEnabled(p: Protocol, c: Conn, side: Side, n: nat)
    requires 0 < n <= Room(p, c, side)
    ensures Enabled(p, c, Moving(side, n))
  {
  }

  // ----- The two protocols -----

  lemma KeyCountsDown()
    ensures Countdown(NeedKey)
  {
  }

  lemma PrefixedCountsDown(k: nat)
    ensures Countdown(got => NeedPrefixed(k, got))
  {
    forall got: Bytes, x: Bytes | |x| < NeedPrefixed(k, got)
      ensures NeedPrefixed(k, got + x) == NeedPrefixed(k, got) - |x|
    {
      if |got| >= k { assert (got + x)[..k] == got[..k]; }
    }
  }

  lemma AckCountsDown()
    ensures Countdown(got => if got == [] then 1 else 0)
  {
  }

  /** Both protocols ask for what is left, whatever the fragments. */
  lemma EndpointsCountDown(keys: seq<Bytes>, value: Bytes -> Bytes, hints: seq<Bytes>)
    ensures CountsDown(Oracle(keys, value)) && CountsDown(Hinting(hints))
  {
    KeyCountsDown();
    PrefixedCountsDown(8);
    PrefixedCountsDown(4);
    AckCountsDown();
  }

  // ----- The transfers of the four endpoints -----

  /** A transfer polled with `script` is a run of moves of its side. */
  ghost predicate IsRun(p: Protocol, c: Conn, side: Side, n: nat, ms: seq<Move>) {
    n <= Room(p, c, side) && AllOf(side, ms) && Reachable(p, c, ms, Moved(p, c, side, n))
  }

  /** The client's transfers: the request; then, from the reply in flight, `size` bytes first and what they announce
      after that. */
  ghost predicate ClientTransfer(c: Conn, side: Side, want: nat, available: nat, size: nat) {
    match side
    case ClientWrites => c.client.Sending? && want == available == |c.client.rest|
    case ClientReads =>
      && c.client.Receiving? && available == |c.down|
      && if c.client.got == [] then want == size else |c.client.got| == size && want == FromBigEndian(c.client.got)
    case _ => false
  }

  /** The server's transfers: `size` bytes of the request in flight first and, if it has a length, what they announce
      after that; then some of the reply. */
  ghost predicate ServerTransfer(c: Conn, side: Side, want: nat, available: nat, size: nat) {
    match side
    case ServerReads =>
      && c.server.Reading? && available == |c.up|
      && if c.server.part == [] then want == size else |c.server.part| == size && want == FromBigEndian(c.server.part)
    case ServerWrites => c.server.Replying? && want == available <= |c.server.left|
    case _ => false
  }

  /** Every transfer of Get is a run of the client's moves. A complete one leaves the connection where the next starts:
      after the key the length is asked for, after a length the value, and after the value the answer is complete. */
  lemma GetMoves(keys: seq<Bytes>, value: Bytes -> Bytes, c: Conn, side: Side, script: seq<Attempt>, want: nat,
                 available: nat) returns (ms: seq<Move>)
    requires ClientTransfer(c, side, want, available, 8)
    ensures var p, n := Oracle(keys, value), Poll(script, want, available).moved;
      && IsRun(p, c, side, n, ms)
      && (n == want > 0 ==> var c' := Moved(p, c, side, n);
            if side.ClientWrites? then c'.client == Receiving([]) && c'.up == c.up + c.client.rest
            else var got := c.client.got + c.down[..n];
              if c.client.got == [] && FromBigEndian(got) > 0 then c'.client == Receiving(got)
              else c'.client == Idle && c'.answers == c.answers + [got])
  {
    hide Poll, Reachable, FromBigEndian;
    EndpointsCountDown(keys, value, []);
    if side.ClientReads? { TakesPrefixed(8, c.client.got, c.down, Poll(script, want, available).moved); }
    ms := RoundsAreMoves(Oracle(keys, value), c, side, script, want, available);
    var n := Poll(script, want, available).moved;
    if side.ClientWrites? && n == want { assert c.client.rest[..n] == c.client.rest && c.client.rest[n..] == []; }
  }

  /** Reading the prefix, or what it announces. */
  lemma TakesPrefixed(k: nat, got: Bytes, stream: Bytes, n: nat)
    requires k > 0 && n <= |stream|
    ensures got == [] ==> NeedPrefixed(k, got) == k
    ensures got == [] && n == k ==>
      got + stream[..n] == stream[..n] && NeedPrefixed(k, stream[..n]) == FromBigEndian(stream[..n])
    ensures |got| == k ==> NeedPrefixed(k, got) == FromBigEndian(got)
    ensures |got| == k && n == FromBigEndian(got) ==> NeedPrefixed(k, got + stream[..n]) == 0
  {
    hide FromBigEndian;
    if n == k { assert stream[..n][..k] == stream[..n]; }
    if |got| == k { assert got[..k] == got && (got + stream[..n])[..k] == got; }
  }

  /** So is every transfer of NextPreimageRequest one of the server's moves: the key, then the length of the value, then
      the value. */
  lemma NextPreimageRequestMoves(keys: seq<Bytes>, value: Bytes -> Bytes, c: Conn, side: Side, script: seq<Attempt>,
                                 want: nat, available: nat) returns (ms: seq<Move>)
    requires ServerTransfer(c, side, want, available, KEY_SIZE) && (c.server.Reading? ==> c.server.part == [])
    ensures var p, n := Oracle(keys, value), Poll(script, want, available).moved;
      && IsRun(p, c, side, n, ms)
      && (n == want > 0 ==> var c' := Moved(p, c, side, n);
            if side.ServerReads? then
              c'.server == Replying(ValueCode(value(c.up[..n]))) && c'.served == c.served + [c.up[..n]]
            else
              && c'.down == c.down + c.server.left[..n]
              && c'.server == if n == |c.server.left| then Reading([]) else Replying(c.server.left[n..]))
  {
    hide Poll, Reachable, FromBigEndian, ValueCode;
    EndpointsCountDown(keys, value, []);
    ms := RoundsAreMoves(Oracle(keys, value), c, side, script, want, available);
    var n := Poll(script, want, available).moved;
    if side.ServerReads? { assert [] + c.up[..n] == c.up[..n]; }
  }

  /** Every transfer of Hint: the hint with its length, then one byte. */
  lemma HintMoves(hints: seq<Bytes>, c: Conn, side: Side, script: seq<Attempt>, want: nat, available: nat)
    returns (ms: seq<Move>)
    requires ClientTransfer(c, side, want, available, 1) && (c.client.Receiving? ==> c.client.got == [])
    ensures var p, n := Hinting(hints), Poll(script, want, available).moved;
      && IsRun(p, c, side, n, ms)
      && (n == want > 0 ==> var c' := Moved(p, c, side, n);
            if side.ClientWrites? then c'.client == Receiving([]) && c'.up == c.up + c.client.rest
            else c'.client == Idle && c'.answers == c.answers + [c.down[..1]])
  {
    hide Poll, Reachable, FromBigEndian;
    EndpointsCountDown([], key => key, hints);
    ms := RoundsAreMoves(Hinting(hints), c, side, script, want, available);
    var n := Poll(script, want, available).moved;
    if side.ClientReads? { assert [] + c.down[..n] == c.down[..n]; }
    if side.ClientWrites? && n == want { assert c.client.rest[..n] == c.client.rest && c.client.rest[n..] == []; }
  }

  /** Every transfer of NextHint: the length, the payload, and the acknowledgement. */
  lemma NextHintMoves(hints: seq<Bytes>, c: Conn, side: Side, script: seq<Attempt>, want: nat, available: nat)
    returns (ms: seq<Move>)
    requires ServerTransfer(c, side, want, available, 4)
    ensures var p, n := Hinting(hints), Poll(script, want, available).moved;
      && IsRun(p, c, side, n, ms)
      && (n == want > 0 ==> var c' := Moved(p, c, side, n);
            if side.ServerWrites? then
              && c'.down == c.down + c.server.left[..n]
              && c'.server == if n == |c.server.left| then Reading([]) else Replying(c.server.left[n..])
            else var part := c.server.part + c.up[..n];
              if c.server.part == [] && FromBigEndian(part) > 0 then c'.server == Reading(part)
              else c'.server == Replying(ACK) && c'.served == c.served + [part])
  {
    hide Poll, Reachable, FromBigEndian;
    EndpointsCountDown([], key => key, hints);
    if side.ServerReads? { TakesPrefixed(4, c.server.part, c.up, Poll(script, want, available).moved); }
    ms := RoundsAreMoves(Hinting(hints), c, side, script, want, available);
  }
}
