/**
 The lease store finds orphaned leases by comparing ISO 8601 text in SQL, not instants.
 This module says when that comparison is the comparison of instants: the text leaves the
 fraction out when it is zero, so section 5.1 of RFC 3339 does not settle the matter.
 */
module IsoTimestamps {

  datatype DateTime = DateTime(
    year: nat, month: nat, day: nat, hour: nat, minute: nat, second: nat, microsecond: nat)

  predicate Leap(year: nat) {
    year % 4 == 0 && (year % 100 != 0 || year % 400 == 0)
  }

  function DaysInMonth(year: nat, month: nat): nat
    requires 1 <= month <= 12
  {
    if month == 2 then (if Leap(year) then 29 else 28)
    else if month in {4, 6, 9, 11} then 30
    else 31
  }

  predicate Valid(d: DateTime) {
    && 1 <= d.year <= 9999 && 1 <= d.month <= 12
    && 1 <= d.day <= DaysInMonth(d.year, d.month)
    && d.hour < 24 && d.minute < 60 && d.second < 60 && d.microsecond < 1_000_000
  }

  function DaysBeforeYear(year: nat): int
    requires 1 <= year
  {
    (year - 1) * 365 + (year - 1) / 4 - (year - 1) / 100 + (year - 1) / 400
  }

  function DaysBeforeMonth(year: nat, month: nat): nat
    requires 1 <= month <= 13
  {
    if month == 1 then 0 else DaysBeforeMonth(year, month - 1) + DaysInMonth(year, month - 1)
  }

  function Day(d: DateTime): int
    requires Valid(d)
  {
    DaysBeforeYear(d.year) + DaysBeforeMonth(d.year, d.month) + d.day
  }

  function MicrosecondOfDay(d: DateTime): nat {
    ((d.hour * 60 + d.minute) * 60 + d.second) * 1_000_000 + d.microsecond
  }

  const DAY_MICROSECONDS := 86_400_000_000

  /** Microseconds since the day before 0001-01-01, in the offset the fields are written in. */
  function Instant(d: DateTime): int
    requires Valid(d)
  {
    Day(d) * DAY_MICROSECONDS + MicrosecondOfDay(d)
  }

  // ---- text -------------------------------------------------------------------------------

  function Digit(n: nat): char
    requires n < 10
  {
    '0' + n as char
  }

  function Pad(n: nat, width: nat): (s: string)
    ensures |s| == width
  {
    if width == 0 then "" else Pad(n / 10, width - 1) + [Digit(n % 10)]
  }

  /** The fraction is written only when it is not zero. */
  function Fraction(microsecond: nat): string {
    if microsecond == 0 then "" else "." + Pad(microsecond, 6)
  }

  /** `zone` is the text of the UTC offset, such as "+00:00". */
  function Iso(d: DateTime, zone: string): string {
    Pad(d.year, 4) + ("-" + (Pad(d.month, 2) + ("-" + (Pad(d.day, 2) + ("T" + (Pad(d.hour, 2)
    + (":" + (Pad(d.minute, 2) + (":" + (Pad(d.second, 2) + (Fraction(d.microsecond) + zone)))))))))))
  }

  /** SQLite's BINARY collation: bytewise, a proper prefix is smaller. */
  predicate TextLess(a: string, b: string) {
    b != "" && (a == "" || a[0] < b[0] || (a[0] == b[0] && TextLess(a[1..], b[1..])))
  }

  // ---- lemmas -----------------------------------------------------------------------------

  function Pow10(n: nat): nat {
    if n == 0 then 1 else 10 * Pow10(n - 1)
  }

  lemma {:induction false} SamePrefix(p: string, s: string, t: string)
    ensures TextLess(p + s, p + t) == TextLess(s, t)
  {
    if p == "" {
      assert p + s == s && p + t == t;
    } else {
      assert (p + s)[1..] == p[1..] + s && (p + t)[1..] == p[1..] + t;
      SamePrefix(p[1..], s, t);
    }
  }

  /** Fixed-width decimals compare as numbers, and a tie is broken by what follows. */
  lemma {:induction false} PadOrder(n: nat, m: nat, width: nat, s: string, t: string)
    requires n < Pow10(width) && m < Pow10(width)
    ensures TextLess(Pad(n, width) + s, Pad(m, width) + t) <==> n < m || (n == m && TextLess(s, t))
    decreases width
  {
    if width == 0 {
      assert Pad(n, 0) + s == s && Pad(m, 0) + t == t;
    } else {
      var x, y := [Digit(n % 10)], [Digit(m % 10)];
      PadOrder(n / 10, m / 10, width - 1, x + s, y + t);
      assert Pad(n, width) + s == Pad(n / 10, width - 1) + (x + s);
      assert Pad(m, width) + t == Pad(m / 10, width - 1) + (y + t);
      assert (x + s)[1..] == s && (y + t)[1..] == t;
    }
  }

  lemma Irreflexive(s: string)
    ensures !TextLess(s, s)
  {
    SamePrefix(s, "", "");
    assert s + "" == s;
  }

  lemma MillionIsSixDigits()
    ensures Pow10(6) == 1_000_000
  {
    assert Pow10(2) == 100;
    assert Pow10(4) == 10_000;
  }

  lemma WrittenFraction(u: nat, zone: string)
    requires 0 < u
    ensures Fraction(u) + zone == "." + (Pad(u, 6) + zone)
  {
    hide Pad;
  }

  lemma WrittenFractionOrder(u: nat, v: nat, zoneU: string, zoneV: string)
    requires 0 < u < 1_000_000 && 0 < v < 1_000_000
    ensures TextLess(Fraction(u) + zoneU, Fraction(v) + zoneV) <==> u < v || (u == v && TextLess(zoneU, zoneV))
  {
    hide Pad, TextLess, Pow10;
    MillionIsSixDigits();
    PadOrder(u, v, 6, zoneU, zoneV);
    SamePrefix(".", Pad(u, 6) + zoneU, Pad(v, 6) + zoneV);
    WrittenFraction(u, zoneU);
    WrittenFraction(v, zoneV);
  }

  predicate BeforeThePoint(zone: string) {
    zone != "" && zone[0] < '.'
  }

  lemma FractionOrder(u: nat, v: nat, zoneU: string, zoneV: string)
    requires u < 1_000_000 && v < 1_000_000 && BeforeThePoint(zoneU) && BeforeThePoint(zoneV)
    ensures TextLess(Fraction(u) + zoneU, Fraction(v) + zoneV) <==> u < v || (u == v && TextLess(zoneU, zoneV))
  {
    assert Fraction(0) + zoneU == zoneU && Fraction(0) + zoneV == zoneV;
    if u == 0 && 0 < v {
      assert (Fraction(v) + zoneV)[0] == '.';
    } else if 0 < u && v == 0 {
      assert (Fraction(u) + zoneU)[0] == '.';
    } else if 0 < u {
      WrittenFractionOrder(u, v, zoneU, zoneV);
    }
  }

  /** A two-digit field after a separator, both sides. */
  lemma FieldOrder(separator: string, n: nat, m: nat, s: string, t: string)
    requires n < 100 && m < 100
    ensures TextLess(separator + (Pad(n, 2) + s), separator + (Pad(m, 2) + t))
            <==> n < m || (n == m && TextLess(s, t))
  {
    assert Pow10(2) == 100;
    SamePrefix(separator, Pad(n, 2) + s, Pad(m, 2) + t);
    PadOrder(n, m, 2, s, t);
  }

  ghost predicate FieldsLessThen(a: DateTime, b: DateTime, tie: bool) {
    a.year < b.year || (a.year == b.year &&
    (a.month < b.month || (a.month == b.month &&
    (a.day < b.day || (a.day == b.day &&
    (a.hour < b.hour || (a.hour == b.hour &&
    (a.minute < b.minute || (a.minute == b.minute &&
    (a.second < b.second || (a.second == b.second && tie)))))))))))
  }

  ghost predicate FieldsLess(a: DateTime, b: DateTime) {
    FieldsLessThen(a, b, a.microsecond < b.microsecond)
  }

  /** Text order is field order down to the second; what follows the seconds breaks the tie. */
  lemma TextOrderToTheSecond(a: DateTime, b: DateTime, zoneA: string, zoneB: string)
    requires Valid(a) && Valid(b)
    ensures TextLess(Iso(a, zoneA), Iso(b, zoneB)) <==>
            FieldsLessThen(a, b, TextLess(Fraction(a.microsecond) + zoneA, Fraction(b.microsecond) + zoneB))
  {
    var a6, b6 := Fraction(a.microsecond) + zoneA, Fraction(b.microsecond) + zoneB;
    FieldOrder(":", a.second, b.second, a6, b6);
    var a5, b5 := ":" + (Pad(a.second, 2) + a6), ":" + (Pad(b.second, 2) + b6);
    FieldOrder(":", a.minute, b.minute, a5, b5);
    var a4, b4 := ":" + (Pad(a.minute, 2) + a5), ":" + (Pad(b.minute, 2) + b5);
    FieldOrder("T", a.hour, b.hour, a4, b4);
    var a3, b3 := "T" + (Pad(a.hour, 2) + a4), "T" + (Pad(b.hour, 2) + b4);
    FieldOrder("-", a.day, b.day, a3, b3);
    var a2, b2 := "-" + (Pad(a.day, 2) + a3), "-" + (Pad(b.day, 2) + b3);
    FieldOrder("-", a.month, b.month, a2, b2);
    assert Pow10(4) == 10_000;
    PadOrder(a.year, b.year, 4, "-" + (Pad(a.month, 2) + a2), "-" + (Pad(b.month, 2) + b2));
  }

  /** Text order is the order of the fields as written; the offset only breaks a tie. */
  lemma TextOrder(a: DateTime, b: DateTime, zoneA: string, zoneB: string)
    requires Valid(a) && Valid(b) && BeforeThePoint(zoneA) && BeforeThePoint(zoneB)
    ensures TextLess(Iso(a, zoneA), Iso(b, zoneB)) <==> FieldsLess(a, b) || (a == b && TextLess(zoneA, zoneB))
  {
    TextOrderToTheSecond(a, b, zoneA, zoneB);
    FractionOrder(a.microsecond, b.microsecond, zoneA, zoneB);
  }

  lemma MonthTable(y: nat)
    ensures DaysBeforeMonth(y, 13) == 365 + if Leap(y) then 1 else 0
  {
    assert DaysBeforeMonth(y, 2) == 31;
    assert DaysBeforeMonth(y, 3) == 59 + if Leap(y) then 1 else 0;
    assert DaysBeforeMonth(y, 5) == DaysBeforeMonth(y, 3) + 61;
    assert DaysBeforeMonth(y, 7) == DaysBeforeMonth(y, 5) + 61;
    assert DaysBeforeMonth(y, 9) == DaysBeforeMonth(y, 7) + 62;
    assert DaysBeforeMonth(y, 11) == DaysBeforeMonth(y, 9) + 61;
    assert DaysBeforeMonth(y, 13) == DaysBeforeMonth(y, 11) + 61;
  }

  lemma QuotientStep(y: nat, k: nat)
    requires 1 <= y && 2 <= k
    ensures y / k == (y - 1) / k + if y % k == 0 then 1 else 0
  {
    var q, r := y / k, y % k;
    assert y == q * k + r;
    if r == 0 {
      assert y - 1 == (q - 1) * k + (k - 1);
      QuotientIs(y - 1, k, q - 1, k - 1);
    } else {
      QuotientIs(y - 1, k, q, r - 1);
    }
  }

  lemma QuotientIs(n: int, k: nat, q: int, r: nat)
    requires 0 <= n && n == q * k + r && r < k
    ensures n / k == q
  {
    var q', r' := n / k, n % k;
    QuotientUnique(q, r, q', r', k);
  }

  lemma QuotientUnique(q: int, r: nat, q': int, r': nat, k: nat)
    requires q * k + r == q' * k + r' && r < k && r' < k
    ensures q == q'
  {
    if q < q' {
      AtLeastOnce(q' - q, k);
    } else if q' < q {
      AtLeastOnce(q - q', k);
    }
  }

  lemma AtLeastOnce(d: int, k: nat)
    requires 1 <= d
    ensures k <= d * k
  {
    assert (d - 1) * k >= 0;
  }

  lemma LeapStep(q4: int, q100: int, q400: int, y: nat)
    requires 1 <= y
    requires q4 == (y - 1) / 4 && q100 == (y - 1) / 100 && q400 == (y - 1) / 400
    ensures y / 4 - y / 100 + y / 400 == q4 - q100 + q400 + if Leap(y) then 1 else 0
  {
    QuotientStep(y, 4);
    QuotientStep(y, 100);
    QuotientStep(y, 400);
    MultiplesOf(y);
  }

  lemma MultiplesOf(y: nat)
    ensures y % 400 == 0 ==> y % 100 == 0
    ensures y % 100 == 0 ==> y % 4 == 0
  {
    if y % 400 == 0 {
      DividesToo(y, 400, 100, 4);
    }
    if y % 100 == 0 {
      DividesToo(y, 100, 4, 25);
    }
  }

  lemma DividesToo(y: nat, k: nat, d: nat, m: nat)
    requires 0 < k && 0 < d && k == m * d && y % k == 0
    ensures y % d == 0
  {
    var q := y / k;
    assert y == q * k;
    assert y == (q * m) * d by {
      MultiplicationAssociates(q, m, d);
    }
    RemainderIs(y, d, q * m);
  }

  lemma MultiplicationAssociates(a: int, b: int, c: int)
    ensures a * (b * c) == (a * b) * c
  {
  }

  lemma RemainderIs(n: nat, k: nat, q: nat)
    requires 0 < k && n == q * k
    ensures n % k == 0
  {
    QuotientIs(n, k, q, 0);
  }

  lemma YearStep(y: nat)
    requires 1 <= y
    ensures DaysBeforeYear(y + 1) == DaysBeforeYear(y) + 365 + if Leap(y) then 1 else 0
  {
    LeapStep((y - 1) / 4, (y - 1) / 100, (y - 1) / 400, y);
    hide Leap;
  }

  lemma {:induction false} YearBounds(y: nat, z: nat)
    requires 1 <= y < z
    ensures DaysBeforeYear(y) + DaysBeforeMonth(y, 13) <= DaysBeforeYear(z)
    decreases z - y
  {
    MonthTable(y);
    YearStep(y);
    if y + 1 < z {
      YearBounds(y + 1, z);
      MonthTable(y + 1);
    }
  }

  lemma {:induction false} MonthBounds(y: nat, m: nat, n: nat)
    requires 1 <= m < n <= 13
    ensures DaysBeforeMonth(y, m) + DaysInMonth(y, m) <= DaysBeforeMonth(y, n)
    decreases n - m
  {
    if m + 1 < n {
      MonthBounds(y, m + 1, n);
    }
  }

  lemma DayOrder(a: DateTime, b: DateTime)
    requires Valid(a) && Valid(b)
    requires a.year < b.year || (a.year == b.year && (a.month < b.month || (a.month == b.month && a.day < b.day)))
    ensures Day(a) < Day(b)
  {
    MonthBounds(a.year, a.month, 13);
    if a.year < b.year {
      YearBounds(a.year, b.year);
    } else if a.month < b.month {
      MonthBounds(a.year, a.month, b.month);
    }
  }

  lemma FieldsLessIsEarlier(a: DateTime, b: DateTime)
    requires Valid(a) && Valid(b) && FieldsLess(a, b)
    ensures Instant(a) < Instant(b)
  {
    assert MicrosecondOfDay(a) < DAY_MICROSECONDS;
    if a.year == b.year && a.month == b.month && a.day == b.day {
      assert MicrosecondOfDay(a) < MicrosecondOfDay(b);
    } else {
      DayOrder(a, b);
      assert Day(a) + 1 <= Day(b);
    }
  }

  lemma FieldsOrderInstants(a: DateTime, b: DateTime)
    requires Valid(a) && Valid(b)
    ensures FieldsLess(a, b) <==> Instant(a) < Instant(b)
  {
    if FieldsLess(a, b) {
      FieldsLessIsEarlier(a, b);
    } else if FieldsLess(b, a) {
      FieldsLessIsEarlier(b, a);
    }
  }

  const UTC := "+00:00"

  /** The condition `expires_at <= ?` on text is the condition on instants, for all UTC values. */
  lemma OrphanQueryIsTimeOrder(expiresAt: DateTime, now: DateTime)
    requires Valid(expiresAt) && Valid(now)
    ensures !TextLess(Iso(now, UTC), Iso(expiresAt, UTC)) <==> Instant(expiresAt) <= Instant(now)
  {
    TextOrder(now, expiresAt, UTC, UTC);
    Irreflexive(UTC);
    FieldsOrderInstants(now, expiresAt);
  }

  ghost predicate OrdersAllInstants(zone: string) {
    forall a, b | Valid(a) && Valid(b) ::
      TextLess(Iso(a, zone), Iso(b, zone)) <==> Instant(a) < Instant(b)
  }

  /**
   A common offset designator orders all instants exactly when its first character sorts before
   the decimal point.  Python's "+hh:mm" and "-hh:mm" do; a "Z" designator would not.
   */
  lemma ZoneDesignatorMustPrecedeThePoint(zone: string)
    requires zone != "" && zone[0] != '.'
    ensures OrdersAllInstants(zone) <==> zone[0] < '.'
  {
    if zone[0] < '.' {
      forall a, b | Valid(a) && Valid(b)
        ensures TextLess(Iso(a, zone), Iso(b, zone)) <==> Instant(a) < Instant(b)
      {
        TextOrder(a, b, zone, zone);
        Irreflexive(zone);
        FieldsOrderInstants(a, b);
      }
    } else {
      var whole := DateTime(1, 1, 1, 0, 0, 0, 0);
      WholeSecondSortsAfterItsFraction(whole, 500_000, zone);
    }
  }

  lemma WholeSecondSortsAfterItsFraction(whole: DateTime, microsecond: nat, zone: string)
    requires Valid(whole) && whole.microsecond == 0 && 0 < microsecond < 1_000_000
    requires zone != "" && '.' < zone[0]
    ensures !OrdersAllInstants(zone)
  {
    var later := whole.(microsecond := microsecond);
    TextOrderToTheSecond(whole, later, zone, zone);
    assert Fraction(0) + zone == zone;
    assert (Fraction(microsecond) + zone)[0] == '.';
    assert Instant(whole) < Instant(later);
  }

  // ---- reading the text back --------------------------------------------------------------

  function Value(text: string): int {
    if text == "" then 0 else 10 * Value(text[..|text| - 1]) + (text[|text| - 1] as int - '0' as int)
  }

  lemma {:induction false} PadReadsBack(n: nat, width: nat)
    requires n < Pow10(width)
    ensures Value(Pad(n, width)) == n
    decreases width
  {
    if width > 0 {
      PadReadsBack(n / 10, width - 1);
      assert Pad(n, width)[..width - 1] == Pad(n / 10, width - 1);
    }
  }

  /** What is where in the text: YYYY-MM-DDThh:mm:ss, a fraction of six digits if there is one, and the offset. */
  function Read(text: string): DateTime
    requires |text| >= 19
  {
    var field := (i: nat, j: nat) requires i <= j <= |text| => if Value(text[i..j]) < 0 then 0 else Value(text[i..j]);
    DateTime(field(0, 4), field(5, 7), field(8, 10), field(11, 13), field(14, 16), field(17, 19),
             if |text| >= 26 && text[19] == '.' then field(20, 26) else 0)
  }

  lemma IsoLayout(d: DateTime, zone: string)
    ensures var t := Iso(d, zone);
            && |t| == 19 + |Fraction(d.microsecond)| + |zone|
            && t[0..4] == Pad(d.year, 4) && t[4] == '-' && t[5..7] == Pad(d.month, 2) && t[7] == '-' && t[8..10] == Pad(d.day, 2)
            && t[10] == 'T' && t[11..13] == Pad(d.hour, 2) && t[13] == ':' && t[14..16] == Pad(d.minute, 2)
            && t[16] == ':' && t[17..19] == Pad(d.second, 2) && t[19..] == Fraction(d.microsecond) + zone
  {
    hide Pad, Fraction;
    var t, rest := Iso(d, zone), Fraction(d.microsecond) + zone;
    assert t[16..] == ":" + (Pad(d.second, 2) + rest);
    assert t[17..] == Pad(d.second, 2) + rest;
    assert t[19..] == rest;
    assert t[17..19] == t[17..][..2];
  }

  /** Reading what was written gives the same fields. */
  lemma IsoReadsBack(d: DateTime, zone: string)
    requires Valid(d) && (zone != "" ==> zone[0] != '.')
    ensures |Iso(d, zone)| >= 19 && Read(Iso(d, zone)) == d
  {
    IsoLayout(d, zone);
    var t := Iso(d, zone);
    assert Pow10(2) == 100;
    assert Pow10(4) == 10_000;
    PadReadsBack(d.year, 4);
    PadReadsBack(d.month, 2);
    PadReadsBack(d.day, 2);
    PadReadsBack(d.hour, 2);
    PadReadsBack(d.minute, 2);
    PadReadsBack(d.second, 2);
    FractionReadsBack(d, zone);
    hide Iso, Pad, Value, Pow10, Fraction;
  }

  lemma FractionReadsBack(d: DateTime, zone: string)
    requires Valid(d) && (zone != "" ==> zone[0] != '.')
    requires var t := Iso(d, zone); |t| >= 19 && t[19..] == Fraction(d.microsecond) + zone
    ensures Read(Iso(d, zone)).microsecond == d.microsecond
  {
    var t := Iso(d, zone);
    MillionIsSixDigits();
    PadReadsBack(d.microsecond, 6);
    hide Iso, Pad, Value, Pow10;
    if d.microsecond == 0 {
      assert t[19..] == zone;
      assert |t| > 19 ==> t[19] == zone[0];
    } else {
      assert t[19..] == "." + Pad(d.microsecond, 6) + zone;
      assert t[19] == t[19..][0] == '.';
      assert t[20..26] == t[19..][1..7] == Pad(d.microsecond, 6);
    }
  }

  // ---- two offsets ------------------------------------------------------------------------

  /** A UTC offset in minutes, less than a day. */
  type Offset = o: int | -1440 < o < 1440

  /** Python's "+hh:mm" and "-hh:mm". */
  function Zone(offset: Offset): string {
    var minutes := if offset < 0 then -offset else offset;
    (if offset < 0 then "-" else "+") + (Pad(minutes / 60, 2) + (":" + Pad(minutes % 60, 2)))
  }

  const MINUTE_MICROSECONDS := 60_000_000

  /** The instant that these fields mean at this offset. */
  function InstantAt(d: DateTime, offset: Offset): int
    requires Valid(d)
  {
    Instant(d) - offset * MINUTE_MICROSECONDS
  }

  /** The store's condition `expires_at <= ?`. */
  predicate Due(now: DateTime, nowOffset: Offset, expires: DateTime, expiresOffset: Offset) {
    !TextLess(Iso(now, Zone(nowOffset)), Iso(expires, Zone(expiresOffset)))
  }

  predicate Expired(now: DateTime, nowOffset: Offset, expires: DateTime, expiresOffset: Offset)
    requires Valid(now) && Valid(expires)
  {
    InstantAt(expires, expiresOffset) <= InstantAt(now, nowOffset)
  }

  lemma SameFieldsSameInstant(a: DateTime, b: DateTime)
    requires Valid(a) && Valid(b)
    ensures a == b <==> Instant(a) == Instant(b)
  {
    FieldsOrderInstants(a, b);
    FieldsOrderInstants(b, a);
  }

  /** What the query compares: the fields as written, whatever they mean; the offsets only break a tie. */
  lemma DueComparesWrittenFields(now: DateTime, nowOffset: Offset, expires: DateTime, expiresOffset: Offset)
    requires Valid(now) && Valid(expires)
    ensures Due(now, nowOffset, expires, expiresOffset) <==>
            Instant(expires) < Instant(now)
            || (Instant(expires) == Instant(now) && !TextLess(Zone(nowOffset), Zone(expiresOffset)))
  {
    TextOrder(now, expires, Zone(nowOffset), Zone(expiresOffset));
    FieldsOrderInstants(now, expires);
    SameFieldsSameInstant(now, expires);
  }

  /**
   Exactly when the query is right about one lease: with L the difference of the written times and D
   that of the offsets, not while L lies between zero and D.
   */
  lemma QueryIsRightIff(now: DateTime, nowOffset: Offset, expires: DateTime, expiresOffset: Offset)
    requires Valid(now) && Valid(expires)
    ensures var l, d := Instant(expires) - Instant(now), (expiresOffset - nowOffset) * MINUTE_MICROSECONDS;
            (Due(now, nowOffset, expires, expiresOffset) <==> Expired(now, nowOffset, expires, expiresOffset)) <==>
            && !(0 < l <= d) && !(d < l < 0)
            && (l == 0 ==> (TextLess(Zone(nowOffset), Zone(expiresOffset)) <==> expiresOffset < nowOffset))
  {
    DueComparesWrittenFields(now, nowOffset, expires, expiresOffset);
  }

  /** With these two offsets the query can miss an expired lease. */
  ghost predicate CanHideAnOrphan(nowOffset: Offset, expiresOffset: Offset) {
    exists now, expires :: Valid(now) && Valid(expires)
      && Expired(now, nowOffset, expires, expiresOffset) && !Due(now, nowOffset, expires, expiresOffset)
  }

  /** With these two offsets the query can expire a lease that is still running. */
  ghost predicate CanExpireALiveLease(nowOffset: Offset, expiresOffset: Offset) {
    exists now, expires :: Valid(now) && Valid(expires)
      && !Expired(now, nowOffset, expires, expiresOffset) && Due(now, nowOffset, expires, expiresOffset)
  }

  const MIDNIGHT := DateTime(2000, 1, 1, 0, 0, 0, 0)

  lemma OneSecondApart()
    ensures Valid(MIDNIGHT) && Valid(MIDNIGHT.(second := 1))
    ensures Instant(MIDNIGHT.(second := 1)) == Instant(MIDNIGHT) + 1_000_000
  {
  }

  /** A second apart as written, and the later one at an offset of at least a minute less or more. */
  lemma OneSecondDecides(nowOffset: Offset, expiresOffset: Offset)
    ensures var later := MIDNIGHT.(second := 1);
            && Valid(MIDNIGHT) && Valid(later)
            && !Due(MIDNIGHT, nowOffset, later, expiresOffset) && Due(later, nowOffset, MIDNIGHT, expiresOffset)
            && (nowOffset < expiresOffset ==> Expired(MIDNIGHT, nowOffset, later, expiresOffset))
            && (expiresOffset < nowOffset ==> !Expired(later, nowOffset, MIDNIGHT, expiresOffset))
  {
    OneSecondApart();
    var later := MIDNIGHT.(second := 1);
    hide Due, Valid, Instant;
    DueComparesWrittenFields(MIDNIGHT, nowOffset, later, expiresOffset);
    DueComparesWrittenFields(later, nowOffset, MIDNIGHT, expiresOffset);
  }

  lemma DueFollowsExpiry(now: DateTime, nowOffset: Offset, expires: DateTime, expiresOffset: Offset)
    requires Valid(now) && Valid(expires)
    ensures expiresOffset <= nowOffset && Expired(now, nowOffset, expires, expiresOffset) ==> Due(now, nowOffset, expires, expiresOffset)
    ensures nowOffset <= expiresOffset && Due(now, nowOffset, expires, expiresOffset) ==> Expired(now, nowOffset, expires, expiresOffset)
  {
    hide Due, Valid, Instant;
    DueComparesWrittenFields(now, nowOffset, expires, expiresOffset);
    Irreflexive(Zone(nowOffset));
  }

  /** The store accepts times in any zone.  An expired lease is missed exactly when the expiry's offset is the larger one. */
  lemma MixedOffsetsHideAnOrphan(nowOffset: Offset, expiresOffset: Offset)
    ensures CanHideAnOrphan(nowOffset, expiresOffset) <==> nowOffset < expiresOffset
  {
    OneSecondDecides(nowOffset, expiresOffset);
    hide Due, Valid, Expired;
    forall now, expires | Valid(now) && Valid(expires) && expiresOffset <= nowOffset && Expired(now, nowOffset, expires, expiresOffset)
      ensures Due(now, nowOffset, expires, expiresOffset)
    {
      DueFollowsExpiry(now, nowOffset, expires, expiresOffset);
    }
  }

  /** A live lease is expired, and its run leased again, exactly when the expiry's offset is the smaller one. */
  lemma MixedOffsetsExpireALiveLease(nowOffset: Offset, expiresOffset: Offset)
    ensures CanExpireALiveLease(nowOffset, expiresOffset) <==> expiresOffset < nowOffset
  {
    OneSecondDecides(nowOffset, expiresOffset);
    hide Due, Valid, Expired;
    forall now, expires | Valid(now) && Valid(expires) && nowOffset <= expiresOffset && Due(now, nowOffset, expires, expiresOffset)
      ensures Expired(now, nowOffset, expires, expiresOffset)
    {
      DueFollowsExpiry(now, nowOffset, expires, expiresOffset);
    }
  }

  /** So the query is the comparison of instants, for all times, exactly when both sides carry one offset. */
  lemma QueryIsTimeOrderIffOneOffset(nowOffset: Offset, expiresOffset: Offset)
    ensures (forall now, expires | Valid(now) && Valid(expires) ::
               Due(now, nowOffset, expires, expiresOffset) <==> Expired(now, nowOffset, expires, expiresOffset))
            <==> nowOffset == expiresOffset
  {
    MixedOffsetsHideAnOrphan(nowOffset, expiresOffset);
    MixedOffsetsExpireALiveLease(nowOffset, expiresOffset);
  }
}
