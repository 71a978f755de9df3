/**
 Key derivation (internal/security/credentials.go) against PBKDF2 as defined in section
 5.2 of RFC 8018. HMAC-SHA256 is any function with 32-byte results.
 */
module Pbkdf2 {
  import opened Prelude

  type Byte = b: int | 0 <= b < 256

  const HASH_LEN := 32

  type Prf = f: (seq<Byte>, seq<Byte>) -> seq<Byte> | forall k, m :: |f(k, m)| == HASH_LEN
    witness (k, m) => seq(HASH_LEN, _ => 0)

  function XorByte(a: Byte, b: Byte): Byte { ((a as bv8) ^ (b as bv8)) as Byte }

  lemma XorCommutes(a: Byte, b: Byte)
    ensures XorByte(a, b) == XorByte(b, a)
  {
  }

  /** Exclusive or: zero is neutral, and equal bytes cancel. */
  lemma XorCancels(a: Byte)
    ensures XorByte(a, 0) == a && XorByte(a, a) == 0
  {
  }

  function Xor(a: seq<Byte>, b: seq<Byte>): (r: seq<Byte>)
    requires |a| == |b|
    ensures |r| == |a|
  {
    seq(|a|, i requires 0 <= i < |a| => XorByte(a[i], b[i]))
  }

  // ----- the standard ------------------------------------------------------------------

  /** INT(i): four octets, most significant first. */
  function BigEndian(i: nat): (r: seq<Byte>)
    ensures |r| == 4
  {
    [i / 256 / 256 / 256 % 256, i / 256 / 256 % 256, i / 256 % 256, i % 256]
  }

  /** U_1 = PRF(P, S || INT(i)) and U_c = PRF(P, U_{c-1}). */
  function Link(prf: Prf, password: seq<Byte>, salt: seq<Byte>, i: nat, c: nat): (r: seq<Byte>)
    requires 1 <= c
    ensures |r| == HASH_LEN
  {
    if c == 1 then prf(password, salt + BigEndian(i)) else prf(password, Link(prf, password, salt, i, c - 1))
  }

  /** F(P, S, c, i) = U_1 xor ... xor U_c. */
  function F(prf: Prf, password: seq<Byte>, salt: seq<Byte>, c: nat, i: nat): (r: seq<Byte>)
    requires 1 <= c
    ensures |r| == HASH_LEN
  {
    if c == 1 then Link(prf, password, salt, i, 1)
    else Xor(F(prf, password, salt, c - 1, i), Link(prf, password, salt, i, c))
  }

  /** T_1 || ... || T_l. */
  function Blocks(prf: Prf, password: seq<Byte>, salt: seq<Byte>, c: nat, l: nat): (r: seq<Byte>)
    requires 1 <= c
    ensures |r| == l * HASH_LEN
  {
    if l == 0 then [] else Blocks(prf, password, salt, c, l - 1) + F(prf, password, salt, c, l)
  }

  function Ceil(length: nat): nat { (length + HASH_LEN - 1) / HASH_LEN }

  /** DK = T_1 || ... || T_l <0..dkLen-1> with l = ceil(dkLen / hLen). */
  function DK(prf: Prf, password: seq<Byte>, salt: seq<Byte>, c: nat, dkLen: nat): (r: seq<Byte>)
    requires 1 <= c
    ensures |r| == dkLen
  {
    assert dkLen <= Ceil(dkLen) * HASH_LEN;
    Blocks(prf, password, salt, c, Ceil(dkLen))[..dkLen]
  }

  function Decoded(octets: seq<Byte>): int
    requires |octets| == 4
  {
    var a: int, b: int, c: int, d: int := octets[0], octets[1], octets[2], octets[3];
    ((a * 256 + b) * 256 + c) * 256 + d
  }

  lemma Remainder(i: nat, q: nat, r: nat)
    requires i == q * 0x1_0000_0000 + r && r < 0x1_0000_0000
    ensures i % 0x1_0000_0000 == r
  {
  }

  /** Four digits to the base 256 below a quotient. */
  lemma FourDigits(i: nat, q1: nat, q2: nat, q3: nat, q4: nat, a: nat, b: nat, c: nat, d: nat)
    requires i == q1 * 256 + d && q1 == q2 * 256 + c && q2 == q3 * 256 + b && q3 == q4 * 256 + a
    requires a < 256 && b < 256 && c < 256 && d < 256
    ensures i % 0x1_0000_0000 == ((a * 256 + b) * 256 + c) * 256 + d
  {
    Remainder(i, q4, ((a * 256 + b) * 256 + c) * 256 + d);
  }

  lemma Halved(x: nat)
    ensures x == x / 256 * 256 + x % 256
  {
  }

  lemma Octets(i: nat)
    ensures Decoded(BigEndian(i)) == i % 0x1_0000_0000
  {
    var q1 := i / 256;
    var q2 := q1 / 256;
    var q3 := q2 / 256;
    Halved(i);
    Halved(q1);
    Halved(q2);
    Halved(q3);
    FourDigits(i, q1, q2, q3, q3 / 256, q3 % 256, q2 % 256, q1 % 256, i % 256);
  }

  lemma SameDigit(x: int, y: int, c: int, d: int)
    requires x * 256 + c == y * 256 + d && 0 <= c < 256 && 0 <= d < 256
    ensures x == y && c == d
  {
  }

  lemma DecodedIsFaithful(a: seq<Byte>, b: seq<Byte>)
    requires |a| == |b| == 4 && Decoded(a) == Decoded(b)
    ensures a == b
  {
    var a0: int, a1: int, a2: int, a3: int := a[0], a[1], a[2], a[3];
    var b0: int, b1: int, b2: int, b3: int := b[0], b[1], b[2], b[3];
    SameDigit((a0 * 256 + a1) * 256 + a2, (b0 * 256 + b1) * 256 + b2, a3, b3);
    SameDigit(a0 * 256 + a1, b0 * 256 + b1, a2, b2);
    SameDigit(a0, b0, a1, b1);
  }

  /** The standard's bound on dkLen is what keeps block indices apart: four octets encode
      an index faithfully up to 2^32 - 1 and repeat afterwards. */
  lemma BigEndianFaithful(i: nat, j: nat)
    ensures i < 0x1_0000_0000 ==> Decoded(BigEndian(i)) == i
    ensures BigEndian(i) == BigEndian(j) <==> i % 0x1_0000_0000 == j % 0x1_0000_0000
  {
    hide BigEndian, Decoded;
    Octets(i);
    Octets(j);
    if i % 0x1_0000_0000 == j % 0x1_0000_0000 {
      DecodedIsFaithful(BigEndian(i), BigEndian(j));
    }
  }

  // ----- the code ------------------------------------------------------------------------

  /** hash.Hash as the code uses it: a key and what has been written since the last reset. */
  class Mac {
    const prf: Prf
    const key: seq<Byte>
    var fed: seq<Byte>

    constructor (prf: Prf, key: seq<Byte>)
      ensures this.prf == prf && this.key == key && fed == []
    {
      this.prf := prf;
      this.key := key;
      fed := [];
    }

    method Reset()
      modifies this
      ensures fed == []
    {
      fed := [];
    }

    method Write(data: seq<Byte>)
      modifies this
      ensures fed == old(fed) + data
    {
      fed := fed + data;
    }

    /** Sum(nil): the digest in a buffer of its own. */
    method Sum() returns (digest: array<Byte>)
      ensures fresh(digest) && digest[..] == prf(key, fed)
    {
      var value := prf(key, fed);
      digest := new Byte[HASH_LEN](i requires 0 <= i < HASH_LEN => value[i]);
    }

    /** Sum(u[:0]): the digest written over the buffer of the previous one. */
    method SumInto(u: array<Byte>)
      requires u.Length == HASH_LEN
      modifies u
      ensures u[..] == prf(key, fed)
    {
      var value := prf(key, fed);
      for i := 0 to HASH_LEN
        invariant u[..i] == value[..i]
      {
        u[i] := value[i];
      }
    }
  }

  method XorInto(t: array<Byte>, u: array<Byte>)
    requires t.Length == u.Length && t != u
    modifies t
    ensures t[..] == Xor(old(t[..]), u[..])
  {
    for i := 0 to t.Length
      invariant forall k :: 0 <= k < i ==> t[k] == XorByte(old(t[k]), u[k])
      invariant forall k :: i <= k < t.Length ==> t[k] == old(t[k])
    {
      t[i] := XorByte(t[i], u[i]);
    }
  }

  method PutIndex(buf: array<Byte>, block: nat)
    requires buf.Length == 4
    modifies buf
    ensures buf[..] == BigEndian(block)
  {
    buf[0] := block / 256 / 256 / 256 % 256;
    buf[1] := block / 256 / 256 % 256;
    buf[2] := block / 256 % 256;
    buf[3] := block % 256;
  }

  lemma FirstLink(prf: Prf, password: seq<Byte>, salt: seq<Byte>, i: nat)
    ensures Link(prf, password, salt, i, 1) == F(prf, password, salt, 1, i) == prf(password, salt + BigEndian(i))
  {
  }

  lemma NextLink(prf: Prf, password: seq<Byte>, salt: seq<Byte>, i: nat, c: nat)
    requires 1 <= c
    ensures Link(prf, password, salt, i, c + 1) == prf(password, Link(prf, password, salt, i, c))
    ensures F(prf, password, salt, c + 1, i) == Xor(F(prf, password, salt, c, i), Link(prf, password, salt, i, c + 1))
  {
  }

  /** One more link of the chain, digested over the buffer of the last and added to the sum. */
  method Iterate(mac: Mac, u: array<Byte>, t: array<Byte>)
    requires u.Length == t.Length == HASH_LEN && u != t
    modifies mac, u, t
    ensures u[..] == mac.prf(mac.key, old(u[..])) && t[..] == Xor(old(t[..]), u[..])
  {
    hide Xor;
    ghost var last := u[..];
    mac.Reset();
    mac.Write(u[..]);
    assert mac.fed == last;
    mac.SumInto(u);
    XorInto(t, u);
  }

  /** One block: T_i for i = block. */
  method DeriveBlock(mac: Mac, salt: seq<Byte>, buf: array<Byte>, block: nat, iterations: int) returns (t: array<Byte>)
    requires buf.Length == 4
    modifies mac, buf
    ensures fresh(t) && t[..] == F(mac.prf, mac.key, salt, Max(1, iterations), block)
  {
    hide Xor, BigEndian, Link, F;
    mac.Reset();
    mac.Write(salt);
    PutIndex(buf, block);
    mac.Write(buf[..]);
    assert mac.fed == salt + BigEndian(block);
    var u := mac.Sum();
    t := new Byte[HASH_LEN](i requires 0 <= i < u.Length reads u => u[i]);
    assert t[..] == u[..];
    FirstLink(mac.prf, mac.key, salt, block);
    var iteration := 2;
    while iteration <= iterations
      invariant 2 <= iteration <= Max(2, iterations + 1)
      invariant fresh(u) && fresh(t) && u != t
      invariant u.Length == t.Length == HASH_LEN
      invariant u[..] == Link(mac.prf, mac.key, salt, block, iteration - 1)
      invariant t[..] == F(mac.prf, mac.key, salt, iteration - 1, block)
    {
      NextLink(mac.prf, mac.key, salt, block, iteration - 1);
      Iterate(mac, u, t);
      iteration := iteration + 1;
    }
  }

  /** Every password, salt and length; a work factor below one counts as one. */
  method Derive(prf: Prf, password: seq<Byte>, salt: seq<Byte>, iterations: int, length: nat) returns (out: seq<Byte>)
    ensures out == DK(prf, password, salt, Max(1, iterations), length)
  {
    hide F;
    var mac := new Mac(prf, password);
    var blocks := (length + HASH_LEN - 1) / HASH_LEN;
    out := [];
    var buf := new Byte[4](_ => 0);
    var block := 1;
    while block <= blocks
      invariant 1 <= block <= blocks + 1
      invariant out == Blocks(prf, password, salt, Max(1, iterations), block - 1)
      invariant mac.prf == prf && mac.key == password && fresh(mac) && fresh(buf) && buf.Length == 4
    {
      var t := DeriveBlock(mac, salt, buf, block, iterations);
      out := out + t[..];
      block := block + 1;
    }
    assert length <= blocks * HASH_LEN;
    out := out[..length];
  }
}
