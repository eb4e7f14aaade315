/** Commitment encoding and the key that names a challenge
    (op-alt-da/commitment.go; challengeKey of op-alt-da/dastate.go). */
module Commitments {
  import opened Prelude

  datatype Comm = Keccak(bytes: Bytes) | Generic(bytes: Bytes)

  function TypeByte(c: Comm): byte {
    if c.Keccak? then 0 else 1
  }

  function Encode(c: Comm): Bytes {
    [TypeByte(c)] + c.bytes
  }

  /** What the decoders accept: 32 bytes for Keccak, at least one for generic commitments. */
  predicate WellFormed(c: Comm) {
    if c.Keccak? then |c.bytes| == 32 else |c.bytes| > 0
  }

  /** None is ErrInvalidCommitment. */
  function DecodeCommitmentData(input: Bytes): Option<Comm> {
    if |input| == 0 then None
    else if input[0] == 0 then (if |input[1..]| == 32 then Some(Keccak(input[1..])) else None)
    else if input[0] == 1 then (if |input[1..]| > 0 then Some(Generic(input[1..])) else None)
    else None
  }

  /** Generic commitments are checked by the DA server, so they always verify. */
  predicate Verify(keccak: Bytes -> Bytes, c: Comm, input: Bytes) {
    c.Keccak? ==> c.bytes == keccak(input)
  }

  lemma DecodeOfEncode(c: Comm)
    ensures DecodeCommitmentData(Encode(c)) == if WellFormed(c) then Some(c) else None
  {
    assert Encode(c)[1..] == c.bytes;
  }

  lemma EncodeOfDecode(input: Bytes)
    ensures var r := DecodeCommitmentData(input); r.Some? ==> WellFormed(r.value) && Encode(r.value) == input
  {
    if |input| > 0 { assert input == [input[0]] + input[1..]; }
  }

  // ----- Decimal and hexadecimal text -----

  const DIGITS: string := "0123456789abcdef"

  function DigitValue(c: char): nat {
    if '0' <= c <= '9' then (c - '0') as int
    else if 'a' <= c <= 'f' then (c - 'a') as int + 10
    else 0
  }

  lemma DigitRoundTrip(d: nat)
    requires d < 16
    ensures DigitValue(DIGITS[d]) == d
  {
  }

  /** Go's %d. */
  function Decimal(n: nat): string {
    if n < 10 then [DIGITS[n]] else Decimal(n / 10) + [DIGITS[n % 10]]
  }

  function DecimalValue(s: string): nat {
    if |s| == 0 then 0 else 10 * DecimalValue(s[..|s| - 1]) + DigitValue(s[|s| - 1])
  }

  lemma {:induction false} DecimalRoundTrip(n: nat)
    ensures DecimalValue(Decimal(n)) == n
  {
    var s := Decimal(n);
    DigitRoundTrip(n % 10);
    if n < 10 {
      assert s[..|s| - 1] == [];
    } else {
      DecimalRoundTrip(n / 10);
      assert s[..|s| - 1] == Decimal(n / 10);
    }
  }

  /** Go's %x on bytes. */
  function Hex(b: Bytes): string {
    if |b| == 0 then [] else [DIGITS[b[0] as int / 16], DIGITS[b[0] as int % 16]] + Hex(b[1..])
  }

  lemma {:induction false} HexLength(b: Bytes)
    ensures |Hex(b)| == 2 * |b|
  {
    if |b| > 0 { HexLength(b[1..]); }
  }

  lemma {:induction false} HexInjective(a: Bytes, b: Bytes)
    requires |a| == |b| && Hex(a) == Hex(b)
    ensures a == b
  {
    if |a| > 0 {
      assert Hex(a)[2..] == Hex(a[1..]) && Hex(b)[2..] == Hex(b[1..]);
      HexInjective(a[1..], b[1..]);
      DigitRoundTrip(a[0] as int / 16);
      DigitRoundTrip(b[0] as int / 16);
      DigitRoundTrip(a[0] as int % 16);
      DigitRoundTrip(b[0] as int % 16);
      assert Hex(a)[0] == Hex(b)[0] && Hex(a)[1] == Hex(b)[1];
      assert a == [a[0]] + a[1..] && b == [b[0]] + b[1..];
    }
  }

  // ----- Challenge keys -----

  function ChallengeKey(c: Comm, inclusionBlock: nat): string {
    Decimal(inclusionBlock) + Hex(Encode(c))
  }

  /** Keys of commitments of equal length determine commitment and block. */
  lemma KeyInjective(c: Comm, m: nat, d: Comm, n: nat)
    requires |c.bytes| == |d.bytes| && ChallengeKey(c, m) == ChallengeKey(d, n)
    ensures c == d && m == n
  {
    HexLength(Encode(c));
    HexLength(Encode(d));
    var k := ChallengeKey(c, m);
    var cut := |k| - 2 * (|c.bytes| + 1);
    assert Decimal(m) == k[..cut] == Decimal(n);
    assert Hex(Encode(c)) == k[cut..] == Hex(Encode(d));
    DecimalRoundTrip(m);
    DecimalRoundTrip(n);
    HexInjective(Encode(c), Encode(d));
    assert Encode(c)[1..] == c.bytes && Encode(d)[1..] == d.bytes && Encode(c)[0] == Encode(d)[0];
  }

  /** Every Keccak commitment the decoder accepts has a key of its own. */
  lemma KeccakKeyInjective(c: Comm, m: nat, d: Comm, n: nat)
    requires c.Keccak? && d.Keccak? && WellFormed(c) && WellFormed(d)
    ensures ChallengeKey(c, m) == ChallengeKey(d, n) <==> c == d && m == n
  {
    if ChallengeKey(c, m) == ChallengeKey(d, n) { KeyInjective(c, m, d, n); }
  }

  lemma DecimalTimesTen(n: nat)
    requires n >= 1
    ensures Decimal(10 * n) == Decimal(n) + "0"
  {
    assert (10 * n) / 10 == n && (10 * n) % 10 == 0;
  }

  /** Keys are not injective on generic commitments: the digits 01 can be read as number or as type byte. */
  lemma GenericKeysCollide()
    ensures ChallengeKey(Generic([1, 0xab]), 1) == ChallengeKey(Generic([0xab]), 101)
  {
    assert Decimal(101) == "101" by { assert Decimal(10) == "10"; }
    assert Hex([0xab]) == "ab" by { assert [0xab][1..] == []; }
    var x: Bytes := [1, 0xab];
    assert x[1..] == [0xab];
    assert Hex(x) == "01" + "ab";
    assert Encode(Generic(x))[1..] == x && Encode(Generic([0xab]))[1..] == [0xab];
    assert Decimal(1) == "1";
  }

  /** A generic commitment can even take the key of a Keccak commitment whose hash starts with 01. */
  lemma GenericTakesKeccakKey(rest: Bytes, n: nat)
    requires |rest| == 31 && n >= 1
    ensures WellFormed(Keccak([1] + rest)) && WellFormed(Generic(rest))
    ensures ChallengeKey(Keccak([1] + rest), n) == ChallengeKey(Generic(rest), 100 * n)
  {
    hide Decimal;
    DecimalTimesTen(n);
    DecimalTimesTen(10 * n);
    var k, g := Encode(Keccak([1] + rest)), Encode(Generic(rest));
    assert k == [0] + g && k[1..] == g;
    assert Hex(k) == "00" + Hex(g);
    assert Decimal(n) + ("00" + Hex(g)) == (Decimal(n) + "0" + "0") + Hex(g);
  }
}
