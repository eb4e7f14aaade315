/** The four endpoints talking to each other. A stream is what one end writes and the other reads, so a session is
    given by the bytes each end is assumed to receive; that these are the bytes the other end writes is proved. */
module PreimageSessions {
  import opened Prelude
  import opened Preimage
  import opened FilePolling

  function Concat(ss: seq<Bytes>): Bytes {
    if ss == [] then [] else ss[0] + Concat(ss[1..])
  }

  lemma {:induction false} ConcatAppend(ss: seq<Bytes>, s: Bytes)
    ensures Concat(ss + [s]) == Concat(ss) + s
  {
    if ss == [] {
      assert (ss + [s])[1..] == [];
    } else {
      ConcatAppend(ss[1..], s);
      assert (ss + [s])[1..] == ss[1..] + [s];
    }
  }

  lemma ConcatNone()
    ensures Concat([]) == []
  {
  }

  lemma ConcatFrom(ss: seq<Bytes>, i: nat)
    requires i < |ss|
    ensures Concat(ss[i..]) == ss[i] + Concat(ss[i + 1..])
  {
    assert ss[i..][1..] == ss[i + 1..];
  }

  lemma ConcatUpTo(ss: seq<Bytes>, i: nat)
    requires i < |ss|
    ensures Concat(ss[..i + 1]) == Concat(ss[..i]) + ss[i]
  {
    assert ss[..i + 1] == ss[..i] + [ss[i]];
    ConcatAppend(ss[..i], ss[i]);
  }

  /** A prefixed value can be taken off a stream in one way only. */
  lemma PrefixedUnique(k: nat, v: Bytes, v': Bytes, rest: Bytes, rest': Bytes)
    requires |v| < Pow256(k) && |v'| < Pow256(k) && Prefixed(k, v) + rest == Prefixed(k, v') + rest'
    ensures v == v' && rest == rest'
  {
    hide BigEndian, FromBigEndian;
    var s := Prefixed(k, v) + rest;
    assert s[..k] == BigEndian(|v|, k) && s[..k] == BigEndian(|v'|, k);
    DecodeEncoded(|v|, k);
    DecodeEncoded(|v'|, k);
    RemainderBelow(|v|, Pow256(k));
    RemainderBelow(|v'|, Pow256(k));
    assert v == s[k..k + |v|] && v' == s[k..k + |v'|];
    assert rest == s[k + |v|..] && rest' == s[k + |v'|..];
  }

  lemma ValueUnique(v: Bytes, v': Bytes, rest: Bytes, rest': Bytes)
    requires |v| <= MAX_UINT64 && |v'| <= MAX_UINT64 && ValueCode(v) + rest == ValueCode(v') + rest'
    ensures v == v' && rest == rest'
  {
    hide Prefixed;
    Widths();
    PrefixedUnique(8, v, v', rest, rest');
  }

  lemma HintUnique(h: Bytes, h': Bytes, rest: Bytes, rest': Bytes)
    requires |h| < 0x1_0000_0000 && |h'| < 0x1_0000_0000 && HintCode(h) + rest == HintCode(h') + rest'
    ensures h == h' && rest == rest'
  {
    hide Prefixed;
    Widths();
    PrefixedUnique(4, h, h', rest, rest');
  }

  /** The head of a stream that begins with a prefixed value. */
  lemma PrefixedHead(k: nat, v: Bytes, rest: Bytes)
    requires |v| < Pow256(k)
    ensures |Prefixed(k, v) + rest| == k + |v| + |rest| && FromBigEndian((Prefixed(k, v) + rest)[..k]) == |v|
  {
    hide BigEndian, FromBigEndian;
    assert (Prefixed(k, v) + rest)[..k] == BigEndian(|v|, k);
    DecodeEncoded(|v|, k);
    RemainderBelow(|v|, Pow256(k));
  }

  lemma ValueHead(v: Bytes, rest: Bytes)
    requires |v| <= MAX_UINT64
    ensures |ValueCode(v)| == 8 + |v| && |ValueCode(v) + rest| == 8 + |v| + |rest|
    ensures FromBigEndian((ValueCode(v) + rest)[..8]) == |v|
  {
    Widths();
    PrefixedHead(8, v, rest);
    PrefixedHead(8, v, []);
    assert ValueCode(v) + [] == ValueCode(v);
  }

  lemma HintHead(h: Bytes, rest: Bytes)
    requires |h| < 0x1_0000_0000
    ensures |HintCode(h)| == 4 + |h| && |HintCode(h) + rest| == 4 + |h| + |rest|
    ensures FromBigEndian((HintCode(h) + rest)[..4]) == |h|
  {
    Widths();
    PrefixedHead(4, h, rest);
    PrefixedHead(4, h, []);
    assert HintCode(h) + [] == HintCode(h);
  }

  function ValueCodes(keys: seq<Bytes>, value: Bytes -> Bytes): seq<Bytes> {
    seq(|keys|, i requires 0 <= i < |keys| => ValueCode(value(keys[i])))
  }

  /** One key served. */
  method ServeOne(server: Poller, key: Bytes, value: Bytes -> Bytes, ghost rest: Bytes, ghost n: nat)
    returns (served: bool)
    requires |key| == KEY_SIZE && server.incoming == key + rest
    modifies server
    ensures WrotePart(old(server.outgoing), server.outgoing, ValueCode(value(key)))
    ensures served ==> server.incoming == rest && server.outgoing == old(server.outgoing) + ValueCode(value(key))
    ensures var used := |key| + |ValueCode(value(key))|;
      Fluent(old(server.script), n) && used <= n ==> served && Fluent(server.script, n - used)
  {
    hide Poll, ValueCode, Fluent, RequestEnds;
    ghost var script, incoming := server.script, server.incoming;
    assert incoming[..KEY_SIZE] == key;
    var r := NextPreimageRequest(server, key => Some(value(key)));
    served := r.Served?;
    Nothing(old(server.outgoing), ValueCode(value(key)));
    CodeLength(value(key));
    if Fluent(script, n) && |key| + 8 + |value(key)| <= n {
      RequestFluent(script, n, key => Some(value(key)), incoming, r, server.script, value(key));
    }
  }

  /** The server's side: keys arrive one after the other. */
  method ServeKeys(server: Poller, keys: seq<Bytes>, value: Bytes -> Bytes) returns (served: nat)
    requires forall i :: 0 <= i < |keys| ==> |keys[i]| == KEY_SIZE
    requires server.incoming == Concat(keys) && server.outgoing == []
    modifies server
    ensures served <= |keys|
    ensures WrotePart(Concat(ValueCodes(keys[..served], value)), server.outgoing,
                      if served < |keys| then ValueCode(value(keys[served])) else [])
    ensures served == |keys| ==> server.incoming == [] && server.outgoing == Concat(ValueCodes(keys, value))
    ensures Fluent(old(server.script), |Concat(keys)| + |Concat(ValueCodes(keys, value))|) ==> served == |keys|
  {
    hide Concat, ValueCode, WrotePart, Fluent;
    served := 0;
    var codes := ValueCodes(keys, value);
    ghost var fluent := Fluent(server.script, |Concat(keys)| + |Concat(codes)|);
    assert keys[0..] == keys && codes[0..] == codes && codes[..0] == [];
    ConcatNone();
    while served < |keys|
      invariant served <= |keys|
      invariant server.incoming == Concat(keys[served..]) && server.outgoing == Concat(codes[..served])
      invariant fluent ==> Fluent(server.script, |Concat(keys[served..])| + |Concat(codes[served..])|)
    {
      ConcatFrom(keys, served);
      ConcatFrom(codes, served);
      ConcatUpTo(codes, served);
      assert codes[..served] == ValueCodes(keys[..served], value);
      var ok := ServeOne(server, keys[served], value, Concat(keys[served + 1..]),
                         |Concat(keys[served..])| + |Concat(codes[served..])|);
      if !ok { return; }
      served := served + 1;
    }
    assert keys[served..] == [] && codes[..served] == codes && keys[..served] == keys;
    Nothing(Concat(codes), []);
  }

  lemma CodeLength(v: Bytes)
    ensures |ValueCode(v)| == 8 + |v|
  {
  }

  lemma Nothing(before: Bytes, whole: Bytes)
    ensures WrotePart(before, before, whole)
  {
    assert before == before + whole[..0];
  }

  /** One value asked for. */
  method AskOne(client: Poller, key: Bytes, ghost value: Bytes, ghost rest: Bytes, ghost n: nat)
    returns (answer: Outcome<Bytes>)
    requires |value| <= MAX_UINT64 && client.incoming == ValueCode(value) + rest
    modifies client
    ensures answer.Done? ==> answer.value == value && client.incoming == rest
    ensures answer.Done? ==> client.outgoing == old(client.outgoing) + key
    ensures var used := |key| + |ValueCode(value)|;
      key != [] && Fluent(old(client.script), n) && used <= n ==> answer.Done? && Fluent(client.script, n - used)
  {
    hide Poll, ValueCode, WrotePart, IsSuffix, Fluent, GetEnds;
    ghost var script, incoming := client.script, client.incoming;
    ValueHead(value, rest);
    answer := Get(client, key);
    if key != [] && Fluent(script, n) && |key| + |ValueCode(value)| <= n {
      GetFluent(script, n, key, incoming, answer, client.script);
    }
    if answer.Done? { ValueUnique(answer.value, value, client.incoming, rest); }
  }

  /** The client's side: the answers arrive as the server wrote them. */
  method GetAll(client: Poller, keys: seq<Bytes>, value: Bytes -> Bytes, ghost junk: Bytes)
    returns (answers: seq<Bytes>)
    requires forall i :: 0 <= i < |keys| ==> |value(keys[i])| <= MAX_UINT64
    requires client.incoming == Concat(ValueCodes(keys, value)) + junk && client.outgoing == []
    modifies client
    ensures |answers| <= |keys| && forall i :: 0 <= i < |answers| ==> answers[i] == value(keys[i])
    ensures |answers| == |keys| ==> client.outgoing == Concat(keys) && client.incoming == junk
    ensures (forall i :: 0 <= i < |keys| ==> keys[i] != [])
        && Fluent(old(client.script), |Concat(keys)| + |Concat(ValueCodes(keys, value))|)
      ==> |answers| == |keys|
  {
    hide ValueCode, Concat, Fluent;
    answers := [];
    ghost var codes := ValueCodes(keys, value);
    ghost var fluent := (forall i :: 0 <= i < |keys| ==> keys[i] != [])
                        && Fluent(client.script, |Concat(keys)| + |Concat(codes)|);
    assert codes[0..] == codes && keys[0..] == keys && keys[..0] == [];
    ConcatNone();
    while |answers| < |keys|
      invariant |answers| <= |keys| && forall i :: 0 <= i < |answers| ==> answers[i] == value(keys[i])
      invariant client.incoming == Concat(codes[|answers|..]) + junk && client.outgoing == Concat(keys[..|answers|])
      invariant fluent ==> Fluent(client.script, |Concat(keys[|answers|..])| + |Concat(codes[|answers|..])|)
    {
      var i := |answers|;
      ConcatFrom(codes, i);
      ConcatFrom(keys, i);
      ConcatUpTo(keys, i);
      assert client.incoming == codes[i] + (Concat(codes[i + 1..]) + junk);
      var r := AskOne(client, keys[i], value(keys[i]), Concat(codes[i + 1..]) + junk,
                      |Concat(keys[i..])| + |Concat(codes[i..])|);
      if !r.Done? { return; }
      answers := answers + [r.value];
    }
    assert keys[..|keys|] == keys && codes[|keys|..] == [] && [] + junk == junk;
  }

  /** A session of the two: whatever the fragments and interruptions, the i-th Get that returns gives the server's
      value for the i-th key. If all do, the client wrote what the server was assumed to read, and both streams are
      empty. All do if nothing but missed deadlines goes wrong and enough rounds move a byte. */
  method PreimageSession(keys: seq<Bytes>, value: Bytes -> Bytes, serverScript: seq<Attempt>,
                         clientScript: seq<Attempt>)
    returns (server: Poller, client: Poller, answers: seq<Bytes>)
    requires GoodKeys(keys, value)
    ensures |answers| <= |keys| && forall i :: 0 <= i < |answers| ==> answers[i] == value(keys[i])
    ensures |answers| == |keys| ==> client.outgoing == Concat(keys) && server.incoming == []
    ensures |answers| == |keys| ==> server.outgoing == Concat(ValueCodes(keys, value)) && client.incoming == []
    ensures var n := |Concat(keys)| + |Concat(ValueCodes(keys, value))|;
      Fluent(serverScript, n) && Fluent(clientScript, n) ==> |answers| == |keys|
  {
    hide ValueCode, Fluent;
    server := new Poller(Concat(keys), serverScript);
    var served := ServeKeys(server, keys, value);
    client := new Poller(server.outgoing, clientScript);
    ghost var done := Concat(ValueCodes(keys[..served], value));
    ghost var junk := server.outgoing[|done|..];
    assert keys[..|keys|] == keys;
    answers := GetAll(client, keys[..served], value, junk);
  }

  // ----- Hints -----

  function HintCodes(hints: seq<Bytes>): seq<Bytes> {
    seq(|hints|, i requires 0 <= i < |hints| => HintCode(hints[i]))
  }

  function Acks(n: nat): Bytes {
    seq(n, _ => 0)
  }

  /** The reader's side: hints arrive one after the other and are handed to the router, which may refuse some. */
  method RouteHints(reader: Poller, hints: seq<Bytes>, handles: Bytes -> bool) returns (handed: seq<Bytes>)
    requires forall i :: 0 <= i < |hints| ==> |hints[i]| < 0x1_0000_0000
    requires reader.incoming == Concat(HintCodes(hints)) && reader.outgoing == [] && Uninterrupted(reader.script)
    modifies reader
    ensures |handed| <= |hints| && handed == hints[..|handed|]
    ensures WrotePart(Acks(|handed|), reader.outgoing, ACK)
    ensures |handed| == |hints| ==> reader.incoming == [] && reader.outgoing == Acks(|hints|)
    ensures Fluent(old(reader.script), |Concat(HintCodes(hints))| + |hints|) ==> |handed| == |hints|
  {
    hide Poll, HintCode, Concat, Uninterrupted, IsSuffix, Fluent, NextHintEnds;
    handed := [];
    var codes := HintCodes(hints);
    ghost var fluent := Fluent(reader.script, |Concat(codes)| + |hints|);
    assert codes[0..] == codes && hints[..0] == [];
    ConcatNone();
    while |handed| < |hints|
      invariant |handed| <= |hints| && handed == hints[..|handed|]
      invariant reader.incoming == Concat(codes[|handed|..]) && reader.outgoing == Acks(|handed|)
      invariant Uninterrupted(reader.script)
      invariant fluent ==> Fluent(reader.script, |Concat(codes[|handed|..])| + |hints| - |handed|)
    {
      var i := |handed|;
      ConcatFrom(codes, i);
      HintHead(hints[i], Concat(codes[i + 1..]));
      ghost var script, incoming := reader.script, reader.incoming;
      var r := NextHint(reader, handles);
      if fluent {
        NextHintFluent(script, |Concat(codes[i..])| + |hints| - i, handles, incoming, r, reader.script);
      }
      if r.HintBroken? || r.HintPending? { return; }
      HintUnique(r.hint, hints[i], reader.incoming, Concat(codes[i + 1..]));
      assert Acks(i) + ACK == Acks(i + 1);
      handed := handed + [r.hint];
    }
    assert codes[|hints|..] == [];
    Nothing(Acks(|hints|), ACK);
  }

  /** The writer's side: each hint waits for one byte. */
  method WriteHints(writer: Poller, hints: seq<Bytes>) returns (acked: nat)
    requires writer.outgoing == []
    modifies writer
    ensures acked <= |hints| && acked <= |old(writer.incoming)|
    ensures acked == |hints| ==>
      writer.outgoing == Concat(HintCodes(hints)) && writer.incoming == old(writer.incoming)[|hints|..]
    ensures |hints| <= |old(writer.incoming)| && Fluent(old(writer.script), |Concat(HintCodes(hints))| + |hints|) ==>
      acked == |hints|
  {
    hide Poll, HintCode, Concat, WrotePart, IsSuffix, Fluent, HintEnds;
    acked := 0;
    ghost var codes := HintCodes(hints);
    ghost var fluent := |hints| <= |writer.incoming| && Fluent(writer.script, |Concat(codes)| + |hints|);
    assert codes[0..] == codes && codes[..0] == [];
    ConcatNone();
    while acked < |hints|
      invariant acked <= |hints| && acked <= |old(writer.incoming)|
      invariant writer.incoming == old(writer.incoming)[acked..] && writer.outgoing == Concat(codes[..acked])
      invariant fluent ==> Fluent(writer.script, |Concat(codes[acked..])| + |hints| - acked)
    {
      ConcatUpTo(codes, acked);
      ConcatFrom(codes, acked);
      ghost var script, incoming := writer.script, writer.incoming;
      var r := Hint(writer, hints[acked]);
      if fluent {
        HintFluent(script, |Concat(codes[acked..])| + |hints| - acked, hints[acked], incoming, r, writer.script);
      }
      if !r.Done? { return; }
      acked := acked + 1;
    }
    assert codes[..|hints|] == codes;
  }

  /** A session of the two: the router gets the hints in order, each is acknowledged with exactly one byte whether or
      not the router accepts it, and if all are, the writer wrote what the reader was assumed to read and both streams
      are empty. All are if nothing but missed deadlines goes wrong and enough rounds move a byte. */
  method HintSession(hints: seq<Bytes>, handles: Bytes -> bool, readerScript: seq<Attempt>, writerScript: seq<Attempt>)
    returns (reader: Poller, writer: Poller, handed: seq<Bytes>, acked: nat)
    requires forall i :: 0 <= i < |hints| ==> |hints[i]| < 0x1_0000_0000
    requires Uninterrupted(readerScript)
    ensures |handed| <= |hints| && handed == hints[..|handed|]
    ensures acked <= |hints| && |reader.outgoing| <= |handed| + 1
    ensures acked == |handed| == |hints| ==> writer.outgoing == Concat(HintCodes(hints)) && reader.incoming == []
    ensures acked == |handed| == |hints| ==> reader.outgoing == Acks(|hints|) && writer.incoming == []
    ensures var n := |Concat(HintCodes(hints))| + |hints|;
      && (Fluent(readerScript, n) ==> |handed| == |hints|)
      && (Fluent(readerScript, n) && Fluent(writerScript, n) ==> acked == |hints|)
  {
    hide HintCode, Concat, Fluent;
    reader := new Poller(Concat(HintCodes(hints)), readerScript);
    handed := RouteHints(reader, hints, handles);
    writer := new Poller(reader.outgoing, writerScript);
    acked := WriteHints(writer, hints);
  }
}
