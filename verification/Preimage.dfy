/** The length-prefixed codes of the pre-image and hint streams, and what a whole session delivers
    (op-preimage/oracle.go, op-preimage/hints.go). */
module Preimage {
  import opened Prelude
  import opened Duplex

  function Pow256(k: nat): pos {
    if k == 0 then 1 else 256 * Pow256(k - 1)
  }

  /** The low `k` bytes of `n`, most significant first: a conversion to a fixed width, then PutUint. */
  function BigEndian(n: nat, k: nat): (s: Bytes)
    ensures |s| == k
  {
    if k == 0 then [] else BigEndian(n / 256, k - 1) + [(n % 256) as byte]
  }

  function FromBigEndian(s: Bytes): nat {
    if s == [] then 0 else 256 * FromBigEndian(s[..|s| - 1]) + s[|s| - 1] as int
  }

  /** A value behind its length in `k` bytes. */
  function Prefixed(k: nat, v: Bytes): Bytes {
    BigEndian(|v|, k) + v
  }

  function NeedPrefixed(k: nat, got: Bytes): nat {
    if |got| < k then k - |got|
    else var total := k + FromBigEndian(got[..k]); if |got| < total then total - |got| else 0
  }

  lemma {:induction false} DecodeEncoded(n: nat, k: nat)
    ensures FromBigEndian(BigEndian(n, k)) == n % Pow256(k)
  {
    if k > 0 {
      var s := BigEndian(n, k);
      assert s[..k - 1] == BigEndian(n / 256, k - 1);
      DecodeEncoded(n / 256, k - 1);
      RemainderStep(n, Pow256(k - 1));
    }
  }

  lemma RemainderStep(n: nat, m: pos)
    ensures 256 * (n / 256 % m) + n % 256 == n % (256 * m)
  {
    var h := n / 256;
    var q, r := h / m, h % m;
    assert h == q * m + r;
    assert n == q * (256 * m) + (256 * r + n % 256);
    RemainderUnique(n, 256 * m, q, 256 * r + n % 256);
  }

  lemma RemainderUnique(n: nat, m: pos, q: nat, r: nat)
    requires n == q * m + r && r < m
    ensures n % m == r
  {
    var q2, r2 := n / m, n % m;
    assert n == q2 * m + r2;
    assert (q2 - q) * m == r - r2;
    if q2 != q { NoSmallMultiple(q2 - q, m); }
  }

  lemma NoSmallMultiple(d: int, m: int)
    requires m >= 1 && d != 0
    ensures d * m >= m || d * m <= -m
  {
    if d >= 1 { assert (d - 1) * m >= 0; } else { assert (-1 - d) * m >= 0; }
  }

  lemma {:induction false} EncodeDecoded(s: Bytes)
    ensures FromBigEndian(s) < Pow256(|s|)
    ensures BigEndian(FromBigEndian(s), |s|) == s
  {
    if s != [] {
      EncodeDecoded(s[..|s| - 1]);
      var n := FromBigEndian(s);
      assert n / 256 == FromBigEndian(s[..|s| - 1]) && n % 256 == s[|s| - 1] as int;
    }
  }

  /** A reader that asks for the prefix and then for what the prefix announces stops exactly at the end
      of the message, unless the length does not fit into the prefix. */
  lemma PrefixedSelfDelimiting(k: nat, v: Bytes)
    requires k > 0
    ensures SelfDelimiting(got => NeedPrefixed(k, got), Prefixed(k, v)) <==> |v| < Pow256(k)
  {
    hide SelfDelimiting, Prefixed, NeedPrefixed;
    var declared := |v| % Pow256(k);
    DecodeEncoded(|v|, k);
    RemainderBelow(|v|, Pow256(k));
    DeclaredSelfDelimiting(k, v, declared);
  }

  lemma RemainderBelow(n: nat, m: pos)
    ensures n % m <= n && (n % m == n <==> n < m)
  {
    if n < m {
      RemainderUnique(n, m, 0, n);
    }
  }

  lemma DeclaredSelfDelimiting(k: nat, v: Bytes, declared: nat)
    requires k > 0 && FromBigEndian(BigEndian(|v|, k)) == declared <= |v|
    ensures SelfDelimiting(got => NeedPrefixed(k, got), Prefixed(k, v)) <==> declared == |v|
  {
    hide BigEndian, FromBigEndian;
    var msg := Prefixed(k, v);
    forall j | k <= j <= |msg| ensures FromBigEndian(msg[..j][..k]) == declared {
      assert msg[..j][..k] == BigEndian(|v|, k);
    }
    assert msg[..|msg|] == msg;
    assert NeedPrefixed(k, msg[..k + declared]) == 0;
  }

  lemma Widths()
    ensures Pow256(4) == 0x1_0000_0000 && Pow256(8) == 0x1_0000_0000_0000_0000
  {
    assert Pow256(1) == 256 && Pow256(2) == 0x1_0000 && Pow256(3) == 0x100_0000;
    assert Pow256(5) == 256 * Pow256(4) && Pow256(6) == 256 * Pow256(5) && Pow256(7) == 256 * Pow256(6);
  }

  // ----- Pre-image requests -----

  const KEY_SIZE: nat := 32

  function NeedKey(got: Bytes): nat {
    if |got| < KEY_SIZE then KEY_SIZE - |got| else 0
  }

  function ValueCode(v: Bytes): Bytes {
    Prefixed(8, v)
  }

  function Oracle(keys: seq<Bytes>, value: Bytes -> Bytes): Protocol {
    Protocol(keys, key => ValueCode(value(key)), NeedKey, got => NeedPrefixed(8, got))
  }

  ghost predicate GoodKeys(keys: seq<Bytes>, value: Bytes -> Bytes) {
    forall i :: 0 <= i < |keys| ==> |keys[i]| == KEY_SIZE && |value(keys[i])| <= MAX_UINT64
  }

  lemma OracleValid(keys: seq<Bytes>, value: Bytes -> Bytes)
    requires GoodKeys(keys, value)
    ensures Oracle(keys, value).Valid()
  {
    Widths();
    forall i | 0 <= i < |keys| { PrefixedSelfDelimiting(8, value(keys[i])); }
  }

  /** At any point of any session, the i-th pre-image the client has received is the value of the i-th key. */
  lemma PreimagesSoFar(keys: seq<Bytes>, value: Bytes -> Bytes, ms: seq<Move>, end: Conn)
    requires GoodKeys(keys, value) && Reachable(Oracle(keys, value), Start(), ms, end)
    ensures |end.answers| <= |keys|
    ensures forall i :: 0 <= i < |end.answers| ==> |end.answers[i]| >= 8 && end.answers[i][8..] == value(keys[i])
    ensures end.client.Idle? ==> end.up == [] && end.down == [] && end.served == keys[..|end.answers|]
  {
    var p := Oracle(keys, value);
    OracleValid(keys, value);
    StartInv(p);
    RunInv(p, Start(), ms, end);
    forall i | 0 <= i < |end.answers| ensures |end.answers[i]| >= 8 && end.answers[i][8..] == value(keys[i]) {
      assert end.answers[i] == Replies(p, |end.answers|)[i] == ValueCode(value(keys[i]));
    }
  }

  /** A session that cannot go on has answered every Get, in order, and left nothing on the streams. */
  lemma PreimagesDelivered(keys: seq<Bytes>, value: Bytes -> Bytes, ms: seq<Move>, end: Conn)
    requires GoodKeys(keys, value) && Reachable(Oracle(keys, value), Start(), ms, end)
    requires forall m :: !Enabled(Oracle(keys, value), end, m)
    ensures |end.answers| == |keys| && end.served == keys && end.up == [] && end.down == []
    ensures forall i :: 0 <= i < |keys| ==> |end.answers[i]| >= 8 && end.answers[i][8..] == value(keys[i])
  {
    OracleValid(keys, value);
    CompleteRun(Oracle(keys, value), ms, end);
    PreimagesSoFar(keys, value, ms, end);
  }

  // ----- Hints -----

  const ACK: Bytes := [0]

  function HintCode(h: Bytes): Bytes {
    Prefixed(4, h)
  }

  /** Each hint gets one acknowledgement, whether or not its handler succeeds. */
  function Hinting(hints: seq<Bytes>): Protocol {
    Protocol(seq(|hints|, i requires 0 <= i < |hints| => HintCode(hints[i])), _ => ACK,
             got => NeedPrefixed(4, got), got => if got == [] then 1 else 0)
  }

  lemma HintCodeDecodes(h: Bytes)
    ensures |HintCode(h)| >= 4 && HintCode(h)[4..] == h
  {
  }

  /** The hint stream can be read back exactly when every hint's length fits into 32 bits. */
  lemma HintingValid(hints: seq<Bytes>)
    ensures Hinting(hints).Valid() <==> forall i :: 0 <= i < |hints| ==> |hints[i]| < 0x1_0000_0000
  {
    Widths();
    var p := Hinting(hints);
    forall i | 0 <= i < |hints|
      ensures SelfDelimiting(p.needRequest, p.requests[i]) <==> |hints[i]| < 0x1_0000_0000
    {
      PrefixedSelfDelimiting(4, hints[i]);
    }
    forall i | 0 <= i < |hints| ensures SelfDelimiting(p.needReply, p.reply(p.requests[i])) {
      assert ACK[..0] == [];
    }
  }

  /** A session that cannot go on has handed every hint to the router, in order, and acknowledged each
      with exactly one byte; both streams are empty. */
  lemma HintsDelivered(hints: seq<Bytes>, ms: seq<Move>, end: Conn)
    requires forall i :: 0 <= i < |hints| ==> |hints[i]| < 0x1_0000_0000
    requires Reachable(Hinting(hints), Start(), ms, end) && forall m :: !Enabled(Hinting(hints), end, m)
    ensures |end.served| == |hints| == |end.answers| && end.up == [] && end.down == []
    ensures forall i :: 0 <= i < |hints| ==> |end.served[i]| >= 4 && end.served[i][4..] == hints[i]
    ensures forall i :: 0 <= i < |hints| ==> end.answers[i] == ACK
  {
    HintingValid(hints);
    CompleteRun(Hinting(hints), ms, end);
    forall i | 0 <= i < |hints| ensures |end.served[i]| >= 4 && end.served[i][4..] == hints[i] {
      HintCodeDecodes(hints[i]);
    }
  }
}
