/**
 Stored timestamps (internal/storage/sqlite/db.go): UTC text in RFC 3339 form with the
 fraction of the second trimmed of trailing zeros, compared by the database as text.
 */
module Timestamps {
  import opened Prelude
  import opened PasswordCodec

  datatype Instant = Instant(year: nat, month: nat, day: nat, hour: nat, minute: nat, second: nat, nano: nat) {
    predicate Valid() {
      year <= 9999 && 1 <= month <= 12 && 1 <= day <= DaysIn(year, month)
      && hour < 24 && minute < 60 && second < 60 && nano < 1_000_000_000
    }

    /** Chronological order of civil time. */
    predicate Before(other: Instant) {
      year < other.year || (year == other.year
      && (month < other.month || (month == other.month
      && (day < other.day || (day == other.day
      && (hour < other.hour || (hour == other.hour
      && (minute < other.minute || (minute == other.minute
      && (second < other.second || (second == other.second && nano < other.nano)))))))))))
    }

    predicate SameSecond(other: Instant) { this.(nano := 0) == other.(nano := 0) }
  }

  function DaysIn(year: nat, month: nat): nat {
    if month == 2 then if year % 4 == 0 && (year % 100 != 0 || year % 400 == 0) then 29 else 28
    else if month in {4, 6, 9, 11} then 30
    else 31
  }

  /** The calendar's month lengths, with a leap day every fourth year but three centuries in four. */
  lemma MonthLengths(year: nat, month: nat)
    requires 1 <= month <= 12
    ensures month in {1, 3, 5, 7, 8, 10, 12} ==> DaysIn(year, month) == 31
    ensures month in {4, 6, 9, 11} ==> DaysIn(year, month) == 30
    ensures month == 2 ==> DaysIn(year, month) == 28 || DaysIn(year, month) == 29
    ensures DaysIn(year, 2) == 29 <==> year % 400 == 0 || (year % 4 == 0 && year % 100 != 0)
  {
  }

  // ----- text ----------------------------------------------------------------------------

  function Digit(d: nat): char
    requires d < 10
  {
    '0' + d as char
  }

  /** The last n decimal digits of v, zero filled. */
  function Pad(n: nat, v: nat): (s: string)
    ensures |s| == n && forall c :: c in s ==> IsDigit(c)
  {
    if n == 0 then "" else Pad(n - 1, v / 10) + [Digit(v % 10)]
  }

  function Zeros(n: nat): (s: string)
    ensures |s| == n && forall c :: c in s ==> c == '0'
  {
    seq(n, _ => '0')
  }

  function TrimZeros(s: string): (r: string)
    ensures r <= s && s == r + Zeros(|s| - |r|) && (r == "" || r[|r| - 1] != '0')
  {
    if s == "" || s[|s| - 1] != '0' then s
    else
      var r := TrimZeros(s[..|s| - 1]);
      assert Zeros(|s| - |r|) == Zeros(|s| - 1 - |r|) + ['0'];
      r
  }

  /** The significant digits of the fraction; empty on a whole second. */
  function Fraction(nano: nat): string { TrimZeros(Pad(9, nano)) }

  function Tail(nano: nat): string {
    var digits := Fraction(nano);
    if digits == "" then "Z" else "." + digits + "Z"
  }

  function Field(n: nat, v: nat, sep: char, rest: string): string { Pad(n, v) + [sep] + rest }

  function FormatTime(t: Instant): string {
    Field(4, t.year, '-', Field(2, t.month, '-', Field(2, t.day, 'T',
      Field(2, t.hour, ':', Field(2, t.minute, ':', Pad(2, t.second) + Tail(t.nano))))))
  }

  /** How the database orders text: character by character, a proper prefix first. */
  predicate TextBefore(a: string, b: string) {
    b != "" && (a == "" || a[0] < b[0] || (a[0] == b[0] && TextBefore(a[1..], b[1..])))
  }

  // ----- reading back ----------------------------------------------------------------------

  function ReadDigits(s: string, n: nat): Result<(nat, string)> {
    if |s| < n || exists c :: c in s[..n] && !IsDigit(c) then Err(Validation)
    else Ok((Natural(s[..n]), s[n..]))
  }

  function Natural(s: string): nat { Max(0, Number(s)) }

  function ReadField(s: string, n: nat, sep: char): Result<(nat, string)> {
    var field :- ReadDigits(s, n);
    if field.1 == "" || field.1[0] != sep then Err(Validation) else Ok((field.0, field.1[1..]))
  }

  function ReadTail(s: string): Result<nat> {
    if s == "Z" then Ok(0)
    else if |s| < 3 || |s| > 11 || s[0] != '.' || s[|s| - 1] != 'Z' then Err(Validation)
    else
      var digits :- ReadDigits(s[1..], |s| - 2);
      Ok(digits.0 * Pow10(9 - (|s| - 2)))
  }

  function ParseTime(s: string): Result<Instant> {
    var year :- ReadField(s, 4, '-');
    var month :- ReadField(year.1, 2, '-');
    var day :- ReadField(month.1, 2, 'T');
    var hour :- ReadField(day.1, 2, ':');
    var minute :- ReadField(hour.1, 2, ':');
    var second :- ReadDigits(minute.1, 2);
    var nano :- ReadTail(second.1);
    var t := Instant(year.0, month.0, day.0, hour.0, minute.0, second.0, nano);
    if t.Valid() then Ok(t) else Err(Validation)
  }

  // ----- comparing text piece by piece --------------------------------------------------------

  /** Equal-length beginnings decide unless they are the same. */
  lemma {:induction false} TextConcat(a: string, p: string, b: string, q: string)
    requires |a| == |b|
    ensures TextBefore(a + p, b + q) <==> (if a == b then TextBefore(p, q) else TextBefore(a, b))
  {
    if a == "" {
      assert a + p == p && b + q == q;
    } else {
      TextConcat(a[1..], p, b[1..], q);
      assert (a + p)[1..] == a[1..] + p && (b + q)[1..] == b[1..] + q;
      assert a == [a[0]] + a[1..] && b == [b[0]] + b[1..];
    }
  }

  lemma {:induction false} PadOrder(n: nat, v: nat, w: nat)
    requires v < Pow10(n) && w < Pow10(n)
    ensures TextBefore(Pad(n, v), Pad(n, w)) <==> v < w
    ensures Pad(n, v) == Pad(n, w) <==> v == w
  {
    if n > 0 {
      PadOrder(n - 1, v / 10, w / 10);
      TextConcat(Pad(n - 1, v / 10), [Digit(v % 10)], Pad(n - 1, w / 10), [Digit(w % 10)]);
      assert Pad(n, v)[..n - 1] == Pad(n - 1, v / 10) && Pad(n, w)[..n - 1] == Pad(n - 1, w / 10);
      assert Pad(n, v)[n - 1] == Digit(v % 10) && Pad(n, w)[n - 1] == Digit(w % 10);
    }
  }

  lemma PadThen(n: nat, v: nat, w: nat, p: string, q: string)
    requires v < Pow10(n) && w < Pow10(n)
    ensures TextBefore(Pad(n, v) + p, Pad(n, w) + q) <==> v < w || (v == w && TextBefore(p, q))
  {
    PadOrder(n, v, w);
    TextConcat(Pad(n, v), p, Pad(n, w), q);
  }

  lemma FieldThen(n: nat, v: nat, w: nat, sep: char, p: string, q: string)
    requires v < Pow10(n) && w < Pow10(n)
    ensures TextBefore(Field(n, v, sep, p), Field(n, w, sep, q)) <==> v < w || (v == w && TextBefore(p, q))
  {
    assert Field(n, v, sep, p) == Pad(n, v) + ([sep] + p) && Field(n, w, sep, q) == Pad(n, w) + ([sep] + q);
    PadThen(n, v, w, [sep] + p, [sep] + q);
    TextConcat([sep], p, [sep], q);
  }

  lemma Powers()
    ensures Pow10(2) == 100 && Pow10(4) == 10_000 && Pow10(9) == 1_000_000_000
  {
    assert Pow10(1) == 10 && Pow10(2) == 100 && Pow10(3) == 1000 && Pow10(4) == 10_000;
    assert Pow10(5) == 100_000 && Pow10(6) == 1_000_000 && Pow10(7) == 10_000_000 && Pow10(8) == 100_000_000;
  }

  // ----- fractions ----------------------------------------------------------------------------

  /** One trimmed fraction, possibly empty, properly begins the other. */
  predicate Nested(x: string, y: string) { x < y || y < x }

  lemma Diverge(common: string, c: char, r: string, e: char, s: string)
    requires c != e
    ensures TextBefore(common + [c] + r, common + [e] + s) <==> c < e
  {
    assert common + [c] + r == common + ([c] + r) && common + [e] + s == common + ([e] + s);
    TextConcat(common, [c] + r, common, [e] + s);
  }

  lemma {:induction false} FirstDifference(x: string, y: string) returns (i: nat)
    requires !(x <= y) && !(y <= x)
    ensures i < |x| && i < |y| && x[i] != y[i] && x[..i] == y[..i]
  {
    if x[0] != y[0] {
      i := 0;
    } else {
      assert x == [x[0]] + x[1..] && y == [y[0]] + y[1..];
      i := FirstDifference(x[1..], y[1..]);
      i := i + 1;
      assert x[..i] == [x[0]] + x[1..][..i - 1] && y[..i] == [y[0]] + y[1..][..i - 1];
    }
  }

  lemma CutAt(x: string, i: nat, after: string)
    requires i < |x|
    ensures x + after == x[..i] + [x[i]] + (x[i + 1..] + after)
  {
    assert x == x[..i] + [x[i]] + x[i + 1..];
  }

  /** Fractions that part at some digit are ordered by that digit, whatever follows. */
  lemma PartedOrder(x: string, y: string, p: string, q: string)
    requires !(x <= y) && !(y <= x)
    ensures TextBefore(x + p, y + q) <==> TextBefore(x, y)
  {
    var i := FirstDifference(x, y);
    CutAt(x, i, p);
    CutAt(y, i, q);
    CutAt(x, i, "");
    CutAt(y, i, "");
    assert x + "" == x && y + "" == y;
    Diverge(x[..i], x[i], x[i + 1..] + p, y[i], y[i + 1..] + q);
    Diverge(x[..i], x[i], x[i + 1..] + "", y[i], y[i + 1..] + "");
  }

  lemma {:induction false} ZerosFirst(n: nat, s: string)
    requires |s| == n && (forall c :: c in s ==> IsDigit(c)) && exists c :: c in s && c != '0'
    ensures TextBefore(Zeros(n), s)
  {
    assert Zeros(n)[1..] == Zeros(n - 1);
    if s[0] == '0' {
      assert s == [s[0]] + s[1..];
      ZerosFirst(n - 1, s[1..]);
    } else {
      assert s[0] in s;
    }
  }

  lemma FractionFacts(nano: nat)
    ensures forall c :: c in Fraction(nano) ==> IsDigit(c)
    ensures |Fraction(nano)| <= 9 && Pad(9, nano) == Fraction(nano) + Zeros(9 - |Fraction(nano)|)
    ensures Fraction(nano) == "" || Fraction(nano)[|Fraction(nano)| - 1] != '0'
  {
    assert forall c :: c in Fraction(nano) ==> c in Pad(9, nano);
  }

  /** A longer fraction, filled up to nine digits, goes on after the shorter one with some
      digit that is not zero. */
  lemma FilledRest(x: string, y: string)
    requires x < y && |y| <= 9 && y[|y| - 1] != '0'
    ensures var filled := y[|x|..] + Zeros(9 - |y|);
      |filled| == 9 - |x| && y + Zeros(9 - |y|) == x + filled && exists c :: c in filled && c != '0'
  {
    var filled := y[|x|..] + Zeros(9 - |y|);
    assert y == x + y[|x|..];
    assert filled[|y| - |x| - 1] == y[|y| - 1];
    assert filled[|y| - |x| - 1] in filled;
  }

  /** A nested fraction is the earlier instant... */
  lemma NestedIsEarlier(a: nat, b: nat)
    requires a < Pow10(9) && b < Pow10(9) && Fraction(a) < Fraction(b)
    ensures a < b
  {
    hide Pad, Fraction, IsDigit, TextBefore, Zeros;
    FractionFacts(a);
    FractionFacts(b);
    var x, y := Fraction(a), Fraction(b);
    var filled := y[|x|..] + Zeros(9 - |y|);
    FilledRest(x, y);
    PadDigits(b);
    assert forall c :: c in filled ==> c in Pad(9, b);
    ZerosFirst(9 - |x|, filled);
    TextConcat(x, Zeros(9 - |x|), x, filled);
    PadOrder(9, a, b);
  }

  lemma PadDigits(v: nat)
    ensures forall c :: c in Pad(9, v) ==> IsDigit(c)
  {
  }

  /** ...but the later text: 'Z' sorts after digits and after the decimal point. */
  lemma NestedTails(x: string, rest: string)
    requires rest != "" && forall c :: c in x + rest ==> IsDigit(c)
    ensures var shorter := if x == "" then "Z" else "." + x + "Z";
      TextBefore("." + (x + rest) + "Z", shorter) && !TextBefore(shorter, "." + (x + rest) + "Z")
  {
    assert "." + (x + rest) + "Z" == "." + x + (rest + "Z");
    assert (x + rest)[|x|] in x + rest && (x + rest)[|x|] == rest[0] == (rest + "Z")[0];
    assert ("." + (x + rest) + "Z")[0] == '.';
    assert TextBefore(rest + "Z", "Z") && !TextBefore("Z", rest + "Z");
    TextConcat("." + x, rest + "Z", "." + x, "Z");
    TextConcat("." + x, "Z", "." + x, rest + "Z");
  }

  lemma NestedReverses(a: nat, b: nat)
    requires a < Pow10(9) && b < Pow10(9) && Fraction(a) < Fraction(b)
    ensures a < b && TextBefore(Tail(b), Tail(a)) && !TextBefore(Tail(a), Tail(b))
  {
    hide Fraction, IsDigit, TextBefore, Pow10;
    NestedIsEarlier(a, b);
    FractionFacts(b);
    var x, y := Fraction(a), Fraction(b);
    assert y == x + y[|x|..];
    NestedTails(x, y[|x|..]);
  }

  lemma PartedNumbers(a: nat, b: nat)
    requires a < Pow10(9) && b < Pow10(9) && !(Fraction(a) <= Fraction(b)) && !(Fraction(b) <= Fraction(a))
    ensures TextBefore(Fraction(a), Fraction(b)) <==> a < b
  {
    hide Pad, Fraction, IsDigit, TextBefore;
    FractionFacts(a);
    FractionFacts(b);
    PartedOrder(Fraction(a), Fraction(b), Zeros(9 - |Fraction(a)|), Zeros(9 - |Fraction(b)|));
    PadOrder(9, a, b);
  }

  lemma PartedTails(a: nat, b: nat)
    requires a < Pow10(9) && b < Pow10(9) && !(Fraction(a) <= Fraction(b)) && !(Fraction(b) <= Fraction(a))
    ensures TextBefore(Tail(a), Tail(b)) <==> a < b
  {
    PartedNumbers(a, b);
    hide Fraction, Pow10, TextBefore;
    var x, y := Fraction(a), Fraction(b);
    PartedOrder(x, y, "Z", "Z");
    assert "." + x + "Z" == "." + (x + "Z") && "." + y + "Z" == "." + (y + "Z");
    TextConcat(".", x + "Z", ".", y + "Z");
  }

  lemma SameFraction(a: nat, b: nat)
    requires a < Pow10(9) && b < Pow10(9) && Fraction(a) == Fraction(b)
    ensures a == b
  {
    hide Pad, Fraction;
    FractionFacts(a);
    FractionFacts(b);
    PadOrder(9, a, b);
  }

  lemma {:induction false} TextIrreflexive(s: string)
    ensures !TextBefore(s, s)
  {
    if s != "" {
      TextIrreflexive(s[1..]);
    }
  }

  lemma TailOrder(a: nat, b: nat)
    requires a < Pow10(9) && b < Pow10(9)
    ensures TextBefore(Tail(a), Tail(b)) <==> if Nested(Fraction(a), Fraction(b)) then b < a else a < b
  {
    hide Fraction, Tail;
    var x, y := Fraction(a), Fraction(b);
    if x == y {
      SameFraction(a, b);
      TextIrreflexive(Tail(a));
    } else if x < y {
      NestedReverses(a, b);
    } else if y < x {
      NestedReverses(b, a);
    } else {
      PartedTails(a, b);
    }
  }

  // ----- the exact order ------------------------------------------------------------------------

  /** Stored text orders two instants like time itself, except that within one second a
      fraction that properly begins the other comes out reversed. */
  lemma StoredOrder(a: Instant, b: Instant)
    requires a.Valid() && b.Valid()
    ensures TextBefore(FormatTime(a), FormatTime(b)) <==>
            if a.SameSecond(b) && Nested(Fraction(a.nano), Fraction(b.nano)) then b.Before(a) else a.Before(b)
  {
    Powers();
    hide Pow10, Pad, Tail, Field, TextBefore, Fraction, Nested;
    TailOrder(a.nano, b.nano);
    var a1, b1 := Pad(2, a.second) + Tail(a.nano), Pad(2, b.second) + Tail(b.nano);
    PadThen(2, a.second, b.second, Tail(a.nano), Tail(b.nano));
    var a2, b2 := Field(2, a.minute, ':', a1), Field(2, b.minute, ':', b1);
    FieldThen(2, a.minute, b.minute, ':', a1, b1);
    var a3, b3 := Field(2, a.hour, ':', a2), Field(2, b.hour, ':', b2);
    FieldThen(2, a.hour, b.hour, ':', a2, b2);
    var a4, b4 := Field(2, a.day, 'T', a3), Field(2, b.day, 'T', b3);
    FieldThen(2, a.day, b.day, 'T', a3, b3);
    var a5, b5 := Field(2, a.month, '-', a4), Field(2, b.month, '-', b4);
    FieldThen(2, a.month, b.month, '-', a4, b4);
    FieldThen(4, a.year, b.year, '-', a5, b5);
  }

  /** With equally long fractions, whole seconds included, text and time always agree. */
  lemma EqualLengthsAgree(a: Instant, b: Instant)
    requires a.Valid() && b.Valid() && |Fraction(a.nano)| == |Fraction(b.nano)|
    ensures TextBefore(FormatTime(a), FormatTime(b)) <==> a.Before(b)
  {
    hide Fraction, FormatTime, TextBefore;
    StoredOrder(a, b);
  }

  /** The claim that text order equals time order fails: half past comes before the whole second. */
  lemma TextOrderIsNotTimeOrder()
    ensures var whole := Instant(2024, 9, 1, 8, 0, 0, 0);
      var half := whole.(nano := 500_000_000);
      whole.Valid() && half.Valid() && whole.Before(half) && TextBefore(FormatTime(half), FormatTime(whole))
  {
    var whole := Instant(2024, 9, 1, 8, 0, 0, 0);
    var half := whole.(nano := 500_000_000);
    Powers();
    ZeroTrims(9);
    assert Fraction(0) == "";
    hide Fraction, Pow10, FormatTime, TextBefore;
    StoredOrder(half, whole);
    if Fraction(500_000_000) == "" {
      SameFraction(0, 500_000_000);
    }
  }

  lemma {:induction false} ZeroTrims(n: nat)
    ensures TrimZeros(Pad(n, 0)) == ""
  {
    if n > 0 {
      ZeroTrims(n - 1);
      assert Pad(n, 0)[..n - 1] == Pad(n - 1, 0);
    }
  }

  // ----- parsing undoes formatting ----------------------------------------------------------------

  lemma {:induction false} NumberOfPad(n: nat, v: nat)
    requires v < Pow10(n)
    ensures Number(Pad(n, v)) == v
  {
    if n > 0 {
      NumberOfPad(n - 1, v / 10);
      assert Pad(n, v)[..n - 1] == Pad(n - 1, v / 10);
    }
  }

  lemma ReadsDigits(n: nat, v: nat, rest: string)
    requires v < Pow10(n)
    ensures ReadDigits(Pad(n, v) + rest, n) == Ok((v, rest))
  {
    NumberOfPad(n, v);
    assert (Pad(n, v) + rest)[..n] == Pad(n, v) && (Pad(n, v) + rest)[n..] == rest;
  }

  lemma ReadsField(n: nat, v: nat, sep: char, rest: string)
    requires v < Pow10(n)
    ensures ReadField(Field(n, v, sep, rest), n, sep) == Ok((v, rest))
  {
    hide ReadDigits, Pad;
    ReadsDigits(n, v, [sep] + rest);
    assert Field(n, v, sep, rest) == Pad(n, v) + ([sep] + rest);
    assert ([sep] + rest)[1..] == rest;
  }

  lemma NumberSnoc(s: string, c: char)
    ensures Number(s + [c]) == Number(s) * 10 + (c as int - '0' as int)
  {
    assert (s + [c])[..|s|] == s;
  }

  lemma TimesTen(x: int, n: nat)
    ensures x * Pow10(0) == x && x * Pow10(n + 1) == x * Pow10(n) * 10
  {
    var p := Pow10(n);
    assert Pow10(n + 1) == 10 * p;
    Reorder(x, p);
  }

  lemma Reorder(x: int, p: int)
    ensures x * (10 * p) == x * p * 10
  {
  }

  lemma {:induction false} NumberThenZeros(s: string, k: nat)
    ensures Number(s + Zeros(k)) == Number(s) * Pow10(k)
  {
    hide Number, Pow10;
    TimesTen(Number(s), if k > 0 then k - 1 else 0);
    if k == 0 {
      assert s + Zeros(0) == s;
    } else {
      NumberThenZeros(s, k - 1);
      NumberSnoc(s + Zeros(k - 1), '0');
      assert s + Zeros(k) == s + Zeros(k - 1) + ['0'];
    }
  }

  /** The trimmed digits, scaled back to nine places, are the nanoseconds. */
  lemma FractionValue(nano: nat)
    requires nano < Pow10(9)
    ensures |Fraction(nano)| <= 9 && Number(Fraction(nano)) * Pow10(9 - |Fraction(nano)|) == nano
  {
    hide Number, Pow10, Pad, Fraction;
    FractionFacts(nano);
    NumberOfPad(9, nano);
    NumberThenZeros(Fraction(nano), 9 - |Fraction(nano)|);
  }

  /** Reading the text between the point and the Z. */
  lemma ReadsPoint(digits: string)
    requires 1 <= |digits| <= 9 && forall c :: c in digits ==> IsDigit(c)
    ensures ReadTail("." + digits + "Z") == Ok(Natural(digits) * Pow10(9 - |digits|))
  {
    hide Number, Pow10, Natural;
    var s := "." + digits + "Z";
    assert s[1..] == digits + "Z" && s[1..][..|digits|] == digits;
    assert s[0] == '.' && s[|s| - 1] == 'Z' && |s| == |digits| + 2;
  }

  lemma ReadsTail(nano: nat)
    requires nano < Pow10(9)
    ensures ReadTail(Tail(nano)) == Ok(nano)
  {
    hide Pad, Fraction, Number, Pow10, ReadTail;
    var digits := Fraction(nano);
    FractionFacts(nano);
    FractionValue(nano);
    if digits == "" {
      NumberOfNothing();
      ReadsNothing();
      assert nano == 0;
    } else {
      ReadsPoint(digits);
      PositiveProduct(Number(digits), Pow10(9 - |digits|), nano);
    }
  }

  lemma ReadsNothing()
    ensures ReadTail("Z") == Ok(0)
  {
  }

  lemma NumberOfNothing()
    ensures Number("") == 0
  {
  }

  lemma PositiveProduct(x: int, y: nat, z: nat)
    requires x * y == z
    ensures Max(0, x) * y == z
  {
  }

  /** Every four-digit-year instant survives storage exactly. */
  lemma ParseUndoesFormat(t: Instant)
    requires t.Valid()
    ensures ParseTime(FormatTime(t)) == Ok(t)
  {
    Powers();
    hide Pow10, Pad, Tail, Field, ReadField, ReadDigits, ReadTail;
    ReadsTail(t.nano);
    var s1 := Pad(2, t.second) + Tail(t.nano);
    ReadsDigits(2, t.second, Tail(t.nano));
    var s2 := Field(2, t.minute, ':', s1);
    ReadsField(2, t.minute, ':', s1);
    var s3 := Field(2, t.hour, ':', s2);
    ReadsField(2, t.hour, ':', s2);
    var s4 := Field(2, t.day, 'T', s3);
    ReadsField(2, t.day, 'T', s3);
    var s5 := Field(2, t.month, '-', s4);
    ReadsField(2, t.month, '-', s4);
    ReadsField(4, t.year, '-', s5);
  }

  lemma FieldShape(n: nat, v: nat, sep: char, rest: string)
    requires v < Pow10(n)
    ensures |Field(n, v, sep, rest)| == n + 1 + |rest| && Number(Field(n, v, sep, rest)[..n]) == v
    ensures Field(n, v, sep, rest)[n] == sep && Field(n, v, sep, rest)[n + 1..] == rest
  {
    NumberOfPad(n, v);
    assert Field(n, v, sep, rest)[..n] == Pad(n, v);
  }

  /** The text after the seconds: a final Z, and before it, unless the second is whole, a point
      and up to nine digits of which the last is not zero. */
  predicate IsTail(s: string, nano: nat) {
    s != "" && s[|s| - 1] == 'Z'
    && if nano == 0 then s == "Z"
       else 3 <= |s| <= 11 && s[0] == '.' && s[|s| - 2] != '0'
            && Number(s[1..|s| - 1]) * Pow10(11 - |s|) == nano
  }

  lemma PointShape(digits: string, nano: nat)
    requires 1 <= |digits| <= 9 && digits[|digits| - 1] != '0' && nano != 0
    requires Number(digits) * Pow10(9 - |digits|) == nano
    ensures IsTail("." + digits + "Z", nano)
  {
    hide Number, Pow10;
    var s := "." + digits + "Z";
    assert s[1..|s| - 1] == digits && s[|s| - 2] == digits[|digits| - 1];
  }

  lemma TailShape(nano: nat)
    requires nano < Pow10(9)
    ensures IsTail(Tail(nano), nano)
  {
    hide Pad, Fraction, Number, Pow10, IsDigit, Zeros;
    FractionFacts(nano);
    FractionValue(nano);
    ZeroFraction();
    var digits := Fraction(nano);
    if digits == "" {
      NumberOfNothing();
    } else {
      hide IsTail;
      PointShape(digits, nano);
    }
  }

  lemma ZeroFraction()
    ensures Fraction(0) == ""
  {
    ZeroTrims(9);
  }

  /** hour:minute:second and the fraction, as FormatTime writes them. */
  function Clock(t: Instant): string {
    Field(2, t.hour, ':', Field(2, t.minute, ':', Pad(2, t.second) + Tail(t.nano)))
  }

  lemma ClockShape(t: Instant)
    requires t.Valid()
    ensures var s := Clock(t);
      9 <= |s| <= 19 && s[2] == ':' && s[5] == ':'
      && Number(s[..2]) == t.hour && Number(s[3..5]) == t.minute && Number(s[6..8]) == t.second
      && IsTail(s[8..], t.nano)
  {
    Powers();
    TailShape(t.nano);
    TailLength(t.nano);
    NumberOfPad(2, t.second);
    hide Pow10, Number, Pad, Tail, Field, IsTail;
    var s1 := Pad(2, t.second) + Tail(t.nano);
    var s2 := Field(2, t.minute, ':', s1);
    FieldShape(2, t.minute, ':', s1);
    var s := Field(2, t.hour, ':', s2);
    FieldShape(2, t.hour, ':', s2);
    assert s[6..] == s2[3..] == s1;
    assert s[3..5] == s2[..2] && s[6..8] == s1[..2] == Pad(2, t.second) && s[8..] == s1[2..] == Tail(t.nano);
  }

  /** The text is year-month-dayThour:minute:second in fixed widths, then the fraction and a Z,
      as section 5.6 of RFC 3339 has it. */
  lemma FormatShape(t: Instant)
    requires t.Valid()
    ensures var s := FormatTime(t);
      20 <= |s| <= 30
      && s[4] == '-' && s[7] == '-' && s[10] == 'T' && s[13] == ':' && s[16] == ':'
      && Number(s[..4]) == t.year && Number(s[5..7]) == t.month && Number(s[8..10]) == t.day
      && Number(s[11..13]) == t.hour && Number(s[14..16]) == t.minute && Number(s[17..19]) == t.second
      && IsTail(s[19..], t.nano)
  {
    Powers();
    ClockShape(t);
    var clock := Clock(t);
    var s4 := Field(2, t.day, 'T', clock);
    var s5 := Field(2, t.month, '-', s4);
    var s := Field(4, t.year, '-', s5);
    assert FormatTime(t) == s;
    hide Pow10, Number, Pad, Tail, Field, IsTail, Clock, FormatTime;
    FieldShape(2, t.day, 'T', clock);
    FieldShape(2, t.month, '-', s4);
    FieldShape(4, t.year, '-', s5);
    DateSlices(s, s5, s4, clock);
  }

  lemma DateSlices(s: string, s5: string, s4: string, clock: string)
    requires 9 <= |clock| && |s4| == 3 + |clock| && |s5| == 3 + |s4| && |s| == 5 + |s5|
    requires s[5..] == s5 && s5[3..] == s4 && s4[3..] == clock
    ensures s[5..7] == s5[..2] && s[7] == s5[2] && s[8..10] == s4[..2] && s[10] == s4[2]
    ensures s[13] == clock[2] && s[16] == clock[5]
    ensures s[11..13] == clock[..2] && s[14..16] == clock[3..5] && s[17..19] == clock[6..8] && s[19..] == clock[8..]
  {
    assert s[8..] == s4 && s[11..] == clock;
  }

  lemma TailLength(nano: nat)
    ensures 1 <= |Tail(nano)| <= 11
  {
    FractionFacts(nano);
  }

  /** So distinct instants have distinct texts. */
  lemma FormatIsInjective(a: Instant, b: Instant)
    requires a.Valid() && b.Valid()
    ensures FormatTime(a) == FormatTime(b) <==> a == b
  {
    hide FormatTime, ParseTime;
    ParseUndoesFormat(a);
    ParseUndoesFormat(b);
  }
}
