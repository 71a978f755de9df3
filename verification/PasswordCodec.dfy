/**
 The stored form of a password (internal/security/credentials.go): four fields joined by
 '$', a decimal work factor, and two fields in unpadded base64 (RFC 4648, sections 3.2 and 4).
 */
module PasswordCodec {
  import opened Prelude
  import opened Pbkdf2

  // ----- joining and splitting -------------------------------------------------------

  function Join(parts: seq<string>, sep: char): string {
    if parts == [] then ""
    else if |parts| == 1 then parts[0]
    else parts[0] + [sep] + Join(parts[1..], sep)
  }

  /** How far the text before the first separator reaches. */
  function Reach(s: string, sep: char): (r: nat)
    ensures r <= |s| && sep !in s[..r] && (r < |s| ==> s[r] == sep)
  {
    if s == "" || s[0] == sep then 0
    else
      var rest := Reach(s[1..], sep);
      assert s[..1 + rest] == [s[0]] + s[1..][..rest];
      1 + rest
  }

  function Split(s: string, sep: char): (parts: seq<string>)
    ensures parts != [] && forall p :: p in parts ==> sep !in p
    decreases |s|
  {
    var r := Reach(s, sep);
    if r == |s| then assert s[..r] == s; [s] else [s[..r]] + Split(s[r + 1..], sep)
  }

  lemma ReachStops(p: string, rest: string, sep: char)
    requires sep !in p
    ensures Reach(p, sep) == |p| && Reach(p + [sep] + rest, sep) == |p|
  {
    var s := p + [sep] + rest;
    var r := Reach(s, sep);
    assert s[|p|] == sep && forall k :: 0 <= k < |p| ==> s[k] == p[k];
    assert forall k :: 0 <= k < r ==> s[k] in s[..r];
  }

  lemma SplitFirst(p: string, rest: string, sep: char)
    requires sep !in p
    ensures Split(p, sep) == [p] && Split(p + [sep] + rest, sep) == [p] + Split(rest, sep)
  {
    ReachStops(p, rest, sep);
    var s := p + [sep] + rest;
    assert s[..|p|] == p && s[|p| + 1..] == rest && p[..|p|] == p;
    hide Reach;
  }

  /** Splitting undoes joining as long as no field contains the separator... */
  lemma {:induction false} SplitUndoesJoin(parts: seq<string>, sep: char)
    requires parts != [] && forall p :: p in parts ==> sep !in p
    ensures Split(Join(parts, sep), sep) == parts
  {
    hide Reach, Split;
    SplitFirst(parts[0], Join(parts[1..], sep), sep);
    if |parts| == 1 {
      assert parts == [parts[0]];
    } else {
      SplitUndoesJoin(parts[1..], sep);
      assert parts == [parts[0]] + parts[1..];
    }
  }

  /** ...and joining always undoes splitting. */
  lemma {:induction false} JoinUndoesSplit(s: string, sep: char)
    ensures Join(Split(s, sep), sep) == s
    decreases |s|
  {
    var r := Reach(s, sep);
    hide Reach;
    if r < |s| {
      var rest := Split(s[r + 1..], sep);
      JoinUndoesSplit(s[r + 1..], sep);
      JoinFirst(s[..r], rest, sep);
      assert s == s[..r] + [sep] + s[r + 1..];
    }
  }

  lemma JoinFirst(p: string, rest: seq<string>, sep: char)
    requires rest != []
    ensures Join([p] + rest, sep) == p + [sep] + Join(rest, sep)
  {
    assert ([p] + rest)[1..] == rest;
  }

  // ----- decimal work factors ----------------------------------------------------------

  const MAX_INT := 0x7fff_ffff_ffff_ffff

  predicate IsDigit(c: char) { '0' <= c <= '9' }

  function Itoa(n: nat): (s: string)
    ensures s != "" && forall c :: c in s ==> IsDigit(c)
  {
    var d := ['0' + (n % 10) as char];
    if n < 10 then d else Itoa(n / 10) + d
  }

  function Number(s: string): int {
    if s == "" then 0 else Number(s[..|s| - 1]) * 10 + (s[|s| - 1] as int - '0' as int)
  }

  /** strconv.Atoi: an optional sign, at least one digit, and a 64-bit result. */
  function Atoi(s: string): Result<int> {
    var digits := if s != "" && (s[0] == '+' || s[0] == '-') then s[1..] else s;
    if digits == "" || exists c :: c in digits && !IsDigit(c) then Err(Validation)
    else
      var value := if s[0] == '-' then -Number(digits) else Number(digits);
      if -MAX_INT - 1 <= value <= MAX_INT then Ok(value) else Err(Validation)
  }

  lemma {:induction false} NumberOfItoa(n: nat)
    ensures Number(Itoa(n)) == n
  {
    var d := ['0' + (n % 10) as char];
    if n >= 10 {
      NumberOfItoa(n / 10);
      assert (Itoa(n / 10) + d)[..|Itoa(n / 10)|] == Itoa(n / 10);
    } else {
      assert d[..0] == "";
    }
  }

  lemma AtoiUndoesItoa(n: nat)
    requires n <= MAX_INT
    ensures Atoi(Itoa(n)) == Ok(n)
  {
    NumberOfItoa(n);
    assert Itoa(n)[0] in Itoa(n);
  }

  function Pow10(n: nat): nat { if n == 0 then 1 else 10 * Pow10(n - 1) }

  /** Decimal notation: the digits of a text weigh ten times more for every digit after them. */
  lemma {:induction false} NumberIsPositional(a: string, b: string)
    ensures Number(a + b) == Number(a) * Pow10(|b|) + Number(b)
    ensures |b| == 1 && '0' <= b[0] <= '9' ==> Number(b) == b[0] as int - 48
  {
    if b == "" {
      assert a + b == a;
    } else {
      var n := |b| - 1;
      NumberIsPositional(a, b[..n]);
      assert (a + b)[..|a| + n] == a + b[..n];
      Shifted(Number(a), Pow10(n), Number(b[..n]));
      if n == 0 {
        assert b[..0] == "";
      }
    }
  }

  lemma Shifted(x: int, p: int, y: int)
    ensures (x * p + y) * 10 == x * (10 * p) + y * 10
  {
  }

  /** Work factors are written without leading zeros, and a sign in front is read as one. */
  lemma {:induction false} ItoaHasNoLeadingZero(n: nat)
    ensures Itoa(n)[0] == '0' ==> n == 0 && Itoa(n) == "0"
  {
    if n >= 10 {
      ItoaHasNoLeadingZero(n / 10);
    }
  }

  lemma AtoiReadsSigns(n: nat)
    requires n <= MAX_INT
    ensures Atoi(['+'] + Itoa(n)) == Ok(n)
    ensures Atoi(['-'] + Itoa(n)).Ok? && Atoi(['-'] + Itoa(n)).value + n == 0
    ensures Atoi("") == Err(Validation)
  {
    NumberOfItoa(n);
    assert (['-'] + Itoa(n))[1..] == Itoa(n) && (['+'] + Itoa(n))[1..] == Itoa(n);
    hide Itoa, Number;
  }

  // ----- unpadded base64 ------------------------------------------------------------------

  type Sextet = v: int | 0 <= v < 64

  function Symbol(v: Sextet): char {
    if v < 26 then 'A' + v as char
    else if v < 52 then 'a' + (v - 26) as char
    else if v < 62 then '0' + (v - 52) as char
    else if v == 62 then '+'
    else '/'
  }

  function ValueOf(c: char): Option<Sextet> {
    if 'A' <= c <= 'Z' then Some((c - 'A') as int)
    else if 'a' <= c <= 'z' then Some((c - 'a') as int + 26)
    else if '0' <= c <= '9' then Some((c - '0') as int + 52)
    else if c == '+' then Some(62)
    else if c == '/' then Some(63)
    else None
  }

  /** The alphabet of section 4 of RFC 4648, in the order of its values. */
  const ALPHABET: string := Span('A', 'Z') + Span('a', 'z') + Span('0', '9') + "+/"

  /** The characters from the first to the last, in order. */
  function Span(first: char, last: char): string
    requires first <= last < 128 as char
  {
    seq(last as int - first as int + 1, i requires 0 <= i <= last as int - first as int => (first as int + i) as char)
  }

  predicate Foreign(c: char) { c !in ALPHABET }

  lemma SymbolIsStandard(v: Sextet)
    ensures Symbol(v) == ALPHABET[v]
  {
  }

  lemma ValueIsStandard(c: char)
    ensures match ValueOf(c)
            case Some(v) => ALPHABET[v] == c
            case None => Foreign(c)
  {
    if ValueOf(c).None? && c in ALPHABET {
      var i :| 0 <= i < |ALPHABET| && ALPHABET[i] == c;
      SymbolIsStandard(i);
    }
  }

  /** The four groups of a full triple of bytes. */
  function Quad(a: Byte, b: Byte, c: Byte): (v: seq<Sextet>)
    ensures |v| == 4
  {
    [a / 4, a % 4 * 16 + b / 16, b % 16 * 4 + c / 64, c % 64]
  }

  /** Three bytes become four six-bit groups; one or two left over become two or three. */
  function Groups(b: seq<Byte>): seq<Sextet> {
    if b == [] then []
    else if |b| == 1 then [b[0] / 4, b[0] % 4 * 16]
    else if |b| == 2 then [b[0] / 4, b[0] % 4 * 16 + b[1] / 16, b[1] % 16 * 4]
    else Quad(b[0], b[1], b[2]) + Groups(b[3..])
  }

  function Symbols(v: seq<Sextet>): string { seq(|v|, i requires 0 <= i < |v| => Symbol(v[i])) }

  function Encode(b: seq<Byte>): string { Symbols(Groups(b)) }

  /** The decoder skips line breaks and refuses every other foreign character. */
  function Values(s: string): Result<seq<Sextet>> {
    if s == "" then Ok([])
    else if s[0] == '\r' || s[0] == '\n' then Values(s[1..])
    else
      match ValueOf(s[0])
      case None => Err(Validation)
      case Some(v) =>
        var rest :- Values(s[1..]);
        Ok([v] + rest)
  }

  /** A byte from the low bits of one group and the high bits of the next. */
  function Octet(high: int, shift: int, low: Sextet, drop: int): Byte
    requires (0 <= high < 64 && shift == 4 && drop == 16) || (0 <= high < 16 && shift == 16 && drop == 4)
             || (0 <= high < 4 && shift == 64 && drop == 1)
  {
    high * shift + low / drop
  }

  /** Bits that do not fill a byte are dropped unchecked. */
  function Bytes(v: seq<Sextet>): seq<Byte>
    requires |v| % 4 != 1
  {
    if v == [] then []
    else if |v| == 2 then [Octet(v[0], 4, v[1], 16)]
    else if |v| == 3 then [Octet(v[0], 4, v[1], 16), Octet(v[1] % 16, 16, v[2], 4)]
    else [Octet(v[0], 4, v[1], 16), Octet(v[1] % 16, 16, v[2], 4), Octet(v[2] % 4, 64, v[3], 1)] + Bytes(v[4..])
  }

  function Decode(s: string): Result<seq<Byte>> {
    var v :- Values(s);
    if |v| % 4 == 1 then Err(Validation) else Ok(Bytes(v))
  }

  lemma {:induction false} ValuesOfSymbols(v: seq<Sextet>)
    ensures Values(Symbols(v)) == Ok(v)
  {
    if v != [] {
      ValuesOfSymbols(v[1..]);
      assert Symbols(v)[0] == Symbol(v[0]) && Symbols(v)[1..] == Symbols(v[1..]);
      assert v == [v[0]] + v[1..];
    }
  }

  /** The two pieces of a byte put back together, wherever the groups cut it. */
  lemma Mends(a: Byte, b: Byte)
    ensures Octet(a / 4, 4, a % 4 * 16, 16) == a
    ensures Octet(a / 4, 4, a % 4 * 16 + b / 16, 16) == a
    ensures Octet((a % 4 * 16 + b / 16) % 16, 16, b % 16 * 4, 4) == b
  {
    var low: int := a % 4 * 16 + b / 16;
    assert low / 16 == a % 4 && low % 16 == b / 16;
  }

  lemma MendsTriple(a: Byte, b: Byte, c: Byte)
    ensures Octet((a % 4 * 16 + b / 16) % 16, 16, b % 16 * 4 + c / 64, 4) == b
    ensures Octet((b % 16 * 4 + c / 64) % 4, 64, c % 64, 1) == c
  {
    var high: int := a % 4 * 16 + b / 16;
    var low: int := b % 16 * 4 + c / 64;
    assert high % 16 == b / 16 && low / 4 == b % 16 && low % 4 == c / 64;
  }

  lemma HeadBytes(v: seq<Sextet>, rest: seq<Sextet>)
    requires |v| == 4 && |rest| % 4 != 1
    ensures |v + rest| % 4 != 1
    ensures Bytes(v + rest)
            == [Octet(v[0], 4, v[1], 16), Octet(v[1] % 16, 16, v[2], 4), Octet(v[2] % 4, 64, v[3], 1)] + Bytes(rest)
  {
    hide Octet;
    assert (v + rest)[4..] == rest && (v + rest)[0] == v[0] && (v + rest)[1] == v[1]
      && (v + rest)[2] == v[2] && (v + rest)[3] == v[3];
  }

  lemma QuadOctets(a: Byte, b: Byte, c: Byte)
    ensures var v := Quad(a, b, c);
      Octet(v[0], 4, v[1], 16) == a && Octet(v[1] % 16, 16, v[2], 4) == b && Octet(v[2] % 4, 64, v[3], 1) == c
  {
    hide Octet;
    Mends(a, b);
    MendsTriple(a, b, c);
  }

  lemma LastGroups(b: seq<Byte>)
    requires |b| < 3
    ensures |Groups(b)| % 4 != 1 && Bytes(Groups(b)) == b
  {
    hide Octet;
    if |b| == 2 {
      Mends(b[0], b[1]);
      assert b == [b[0], b[1]];
    } else if |b| == 1 {
      Mends(b[0], 0);
      assert b == [b[0]];
    }
  }

  lemma {:induction false} BytesOfGroups(b: seq<Byte>)
    ensures |Groups(b)| % 4 != 1 && Bytes(Groups(b)) == b
  {
    hide Bytes, Octet, Quad;
    if |b| < 3 {
      LastGroups(b);
    } else {
      var rest := Groups(b[3..]);
      BytesOfGroups(b[3..]);
      HeadBytes(Quad(b[0], b[1], b[2]), rest);
      QuadOctets(b[0], b[1], b[2]);
      assert b == [b[0], b[1], b[2]] + b[3..];
    }
  }

  /** The bits of a byte string are taken in order, the first ones most significant, and the
      last group is filled up with zeros (section 4 of RFC 4648). */
  lemma GroupsAreBits(b: seq<Byte>)
    ensures |Groups(b)| == |b| / 3 * 4 + (if |b| % 3 == 0 then 0 else |b| % 3 + 1)
    ensures |b| == 1 ==> Weight(64, 0, 0, Groups(b)[0], Groups(b)[1]) == Weight(256, 0, 0, 0, b[0]) * 16
    ensures |b| == 2 ==>
              Weight(64, 0, Groups(b)[0], Groups(b)[1], Groups(b)[2]) == Weight(256, 0, 0, b[0], b[1]) * 4
    ensures |b| >= 3 ==>
              |Groups(b)| >= 4 && Groups(b)[4..] == Groups(b[3..])
              && Weight(64, Groups(b)[0], Groups(b)[1], Groups(b)[2], Groups(b)[3]) == Weight(256, 0, b[0], b[1], b[2])
  {
    if |b| >= 3 {
      GroupsAreBits(b[3..]);
      QuadIsNumber(b[0], b[1], b[2]);
    } else if |b| == 2 {
      HalfIsNumber(b[0], b[1]);
    }
  }

  /** Four digits to a base, the first one most significant. */
  function Weight(base: int, a: int, b: int, c: int, d: int): int { ((a * base + b) * base + c) * base + d }

  lemma QuadIsNumber(a: int, b: int, c: int)
    requires 0 <= a < 256 && 0 <= b < 256 && 0 <= c < 256
    ensures ((a / 4 * 64 + (a % 4 * 16 + b / 16)) * 64 + (b % 16 * 4 + c / 64)) * 64 + c % 64 == (a * 256 + b) * 256 + c
  {
    assert a == a / 4 * 4 + a % 4 && b == b / 16 * 16 + b % 16 && c == c / 64 * 64 + c % 64;
  }

  lemma HalfIsNumber(a: int, b: int)
    requires 0 <= a < 256 && 0 <= b < 256
    ensures (a / 4 * 64 + (a % 4 * 16 + b / 16)) * 64 + b % 16 * 4 == (a * 256 + b) * 4
  {
    assert a == a / 4 * 4 + a % 4 && b == b / 16 * 16 + b % 16;
  }

  /** The characters of a text that are not line breaks. */
  function Solid(s: string): string {
    if s == "" then ""
    else (if s[0] == '\r' || s[0] == '\n' then "" else [s[0]]) + Solid(s[1..])
  }

  lemma {:induction false} ValuesAccept(s: string)
    ensures Values(s).Ok? <==> forall c :: c in Solid(s) ==> !Foreign(c)
    ensures Values(s).Ok? ==> |Values(s).value| == |Solid(s)|
    ensures Values(s).Err? ==> Values(s) == Err(Validation)
  {
    hide ValueOf, Foreign;
    if s != "" {
      ValuesAccept(s[1..]);
      ValueIsStandard(s[0]);
      InAlphabet(s[0]);
      assert forall c :: c in Solid(s) <==> c in Solid(s[1..]) || (c == s[0] && c != '\r' && c != '\n');
    }
  }

  lemma InAlphabet(c: char)
    ensures ValueOf(c).Some? <==> !Foreign(c)
  {
    ValueIsStandard(c);
  }

  /** Exactly which texts decode: line breaks aside, only characters of the alphabet, and not
      one too many for whole bytes. */
  lemma DecodeAccepts(s: string)
    ensures Decode(s).Ok? <==> (forall c :: c in Solid(s) ==> !Foreign(c)) && |Solid(s)| % 4 != 1
  {
    hide Values, Foreign, Solid, Bytes;
    ValuesAccept(s);
  }

  /** Every byte string survives the trip through unpadded base64. */
  lemma DecodeUndoesEncode(b: seq<Byte>)
    ensures Decode(Encode(b)) == Ok(b)
  {
    ValuesOfSymbols(Groups(b));
    BytesOfGroups(b);
  }

  // ----- the stored form ---------------------------------------------------------------------

  const PREFIX := "pbkdf2_sha256"

  const DEFAULT_ITERATIONS := 60000

  const SALT_LENGTH := 16

  const KEY_LENGTH := 32

  function Stored(iterations: nat, salt: seq<Byte>, key: seq<Byte>): string {
    Join([PREFIX, Itoa(iterations), Encode(salt), Encode(key)], '$')
  }

  datatype Fields = Fields(iterations: nat, salt: seq<Byte>, expected: seq<Byte>)

  function Parse(stored: string): Result<Fields> {
    var parts := Split(stored, '$');
    if |parts| != 4 || parts[0] != PREFIX then Err(Validation)
    else
      var iterations :- Atoi(parts[1]);
      if iterations <= 0 then Err(Validation)
      else
        var salt :- Decode(parts[2]);
        var expected :- Decode(parts[3]);
        Ok(Fields(iterations, salt, expected))
  }

  lemma NoDollar(b: seq<Byte>)
    ensures '$' !in Encode(b)
  {
  }

  /** Whatever was stored is read back: the same factor, salt and key. */
  lemma ParseUndoesStored(iterations: nat, salt: seq<Byte>, key: seq<Byte>)
    requires 0 < iterations <= MAX_INT
    ensures Parse(Stored(iterations, salt, key)) == Ok(Fields(iterations, salt, key))
  {
    hide Encode, Decode, Itoa, Atoi, Join, Split;
    NoDollar(salt);
    NoDollar(key);
    assert '$' !in PREFIX;
    SplitUndoesJoin([PREFIX, Itoa(iterations), Encode(salt), Encode(key)], '$');
    AtoiUndoesItoa(iterations);
    DecodeUndoesEncode(salt);
    DecodeUndoesEncode(key);
  }

  lemma StoredText(iterations: nat, salt: seq<Byte>, key: seq<Byte>)
    ensures Stored(iterations, salt, key) == FourFields(Itoa(iterations), Encode(salt), Encode(key))
  {
    JoinFour(Itoa(iterations), Encode(salt), Encode(key));
  }

  /** The stored text: the algorithm, the factor, the salt and the key, in that order. */
  function FourFields(a: string, b: string, c: string): string {
    "pbkdf2_sha256" + ['$'] + (a + ['$'] + (b + ['$'] + c))
  }

  predicate Reads(a: string, b: string, c: string, f: Fields) {
    '$' !in a && '$' !in b && '$' !in c
    && Atoi(a) == Ok(f.iterations) && 0 < f.iterations && Decode(b) == Ok(f.salt) && Decode(c) == Ok(f.expected)
  }

  /** Exactly which texts are read, and as what: four fields of which the first names the
      algorithm, the second is a positive factor, and the others decode. */
  lemma ParseMeans(stored: string, f: Fields)
    ensures Parse(stored) == Ok(f) <==>
            exists a, b, c :: stored == FourFields(a, b, c) && Reads(a, b, c, f)
  {
    hide Atoi, Decode, Split, Join;
    if Parse(stored) == Ok(f) {
      var parts := Split(stored, '$');
      JoinUndoesSplit(stored, '$');
      JoinFour(parts[1], parts[2], parts[3]);
      assert parts == [PREFIX, parts[1], parts[2], parts[3]];
      assert stored == FourFields(parts[1], parts[2], parts[3]);
    }
    if a, b, c :| stored == FourFields(a, b, c) && Reads(a, b, c, f) {
      JoinFour(a, b, c);
      assert '$' !in PREFIX;
      SplitUndoesJoin([PREFIX, a, b, c], '$');
    }
  }

  lemma JoinFour(a: string, b: string, c: string)
    ensures Join([PREFIX, a, b, c], '$') == FourFields(a, b, c)
  {
    JoinFirst(PREFIX, [a, b, c], '$');
    JoinFirst(a, [b, c], '$');
    JoinFirst(b, [c], '$');
    assert [PREFIX] + [a, b, c] == [PREFIX, a, b, c] && [a] + [b, c] == [a, b, c] && [b] + [c] == [b, c];
  }

  /** What VerifyPassword answers for a stored text. */
  function Verdict(prf: Prf, stored: string, candidate: seq<Byte>): Result<bool> {
    var f :- Parse(stored);
    Ok(f.expected == DK(prf, candidate, f.salt, Max(1, f.iterations), |f.expected|))
  }

  method HashPassword(prf: Prf, password: seq<Byte>, salt: seq<Byte>, iterations: int) returns (r: Result<string>)
    requires iterations <= MAX_INT
    ensures r.Ok? <==> |password| >= 8 && |salt| == 16
    ensures r.Ok? ==>
              var factor := if iterations <= 0 then 60000 else iterations;
              var key := DK(prf, password, salt, factor, 32);
              r.value == FourFields(Itoa(factor), Encode(salt), Encode(key))
              && Parse(r.value) == Ok(Fields(factor, salt, key))
  {
    if |password| < 8 {
      return Err(Validation);
    }
    if |salt| != SALT_LENGTH {
      return Err(Validation);
    }
    var factor := iterations;
    if factor <= 0 {
      factor := DEFAULT_ITERATIONS;
    }
    var key := Derive(prf, password, salt, factor, KEY_LENGTH);
    hide Stored, Parse, DK;
    ParseUndoesStored(factor, salt, key);
    StoredText(factor, salt, key);
    return Ok(Stored(factor, salt, key));
  }

  method VerifyPassword(prf: Prf, stored: string, candidate: seq<Byte>) returns (r: Result<bool>)
    ensures r == Verdict(prf, stored, candidate)
  {
    var parts := Split(stored, '$');
    if |parts| != 4 || parts[0] != PREFIX {
      return Err(Validation);
    }
    var iterations := Atoi(parts[1]);
    if iterations.Err? || iterations.value <= 0 {
      return Err(Validation);
    }
    var salt :- Decode(parts[2]);
    var expected :- Decode(parts[3]);
    var actual := Derive(prf, candidate, salt, iterations.value, |expected|);
    return Ok(expected == actual);
  }

  /** Hashing and verifying together: the stored text of a password accepts a candidate
      exactly when the candidate derives the same key. */
  method HashThenVerify(prf: Prf, password: seq<Byte>, salt: seq<Byte>, iterations: int, candidate: seq<Byte>)
    returns (r: Result<bool>)
    requires iterations <= MAX_INT
    ensures r.Ok? <==> |password| >= 8 && |salt| == SALT_LENGTH
    ensures r.Ok? ==>
              var factor := if iterations <= 0 then DEFAULT_ITERATIONS else iterations;
              r.value <==> DK(prf, candidate, salt, factor, KEY_LENGTH) == DK(prf, password, salt, factor, KEY_LENGTH)
    ensures candidate == password ==> r != Ok(false)
  {
    hide Parse, DK;
    var stored :- HashPassword(prf, password, salt, iterations);
    r := VerifyPassword(prf, stored, candidate);
  }
}
