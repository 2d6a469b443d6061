/** Order keys whose times carry an offset, as the date-time schema admits them
    (contracts/src/domains/funded-comparison.ts:22): what their texts sort by, and when that is the order
    of the instants. */
module OrderOffsets {
  import opened Strings
  import opened OrderKey

  // ------------------------------------------------------------------ civil time as a number

  predicate Leap(year: nat) { year % 4 == 0 && (year % 100 != 0 || year % 400 == 0) }

  function DaysIn(year: nat, month: nat): nat {
    if month == 2 then if Leap(year) then 29 else 28
    else if month in {4, 6, 9, 11} then 30
    else 31
  }

  /** Days before the first of a month, counted from the start of its year. */
  function MonthStart(year: nat, month: nat): nat {
    if month <= 1 then 0 else MonthStart(year, month - 1) + DaysIn(year, month - 1)
  }

  /** Days before the first of January of a year. */
  function YearStart(year: nat): nat {
    if year == 0 then 0 else YearStart(year - 1) + MonthStart(year - 1, 13)
  }

  predicate Valid(t: Instant) {
    t.year < 10000 && 1 <= t.month <= 12 && 1 <= t.day <= DaysIn(t.year, t.month) &&
    t.hour < 24 && t.minute < 60 && t.second < 60 && t.millis < 1000
  }

  function DayNumber(t: Instant): int { YearStart(t.year) + MonthStart(t.year, t.month) + t.day - 1 }

  /** Milliseconds on the clock that shows `t`. */
  function Millis(t: Instant): int {
    (((DayNumber(t) * 24 + t.hour) * 60 + t.minute) * 60 + t.second) * 1000 + t.millis
  }

  lemma {:induction false} MonthsAscend(year: nat, m: nat, n: nat)
    requires 1 <= m < n
    ensures MonthStart(year, m) + DaysIn(year, m) <= MonthStart(year, n)
  {
    if m < n - 1 {
      MonthsAscend(year, m, n - 1);
    }
  }

  lemma {:induction false} YearsAscend(a: nat, b: nat)
    requires a < b
    ensures YearStart(a) + MonthStart(a, 13) <= YearStart(b)
  {
    if a < b - 1 {
      YearsAscend(a, b - 1);
    }
  }

  predicate DateBefore(a: Instant, b: Instant) {
    a.year < b.year || (a.year == b.year && (a.month < b.month || (a.month == b.month && a.day < b.day)))
  }

  /** Days are counted in the order of their dates. */
  lemma DaysAscend(a: Instant, b: Instant)
    requires Valid(a) && Valid(b) && DateBefore(a, b)
    ensures DayNumber(a) < DayNumber(b)
  {
    hide MonthStart, YearStart, DaysIn;
    MonthsAscend(a.year, a.month, 13);
    if a.year < b.year {
      YearsAscend(a.year, b.year);
    } else if a.month < b.month {
      MonthsAscend(a.year, a.month, b.month);
    }
  }

  /** The count orders civil times as their fields do. */
  lemma MillisAscend(a: Instant, b: Instant)
    requires Valid(a) && Valid(b)
    ensures Millis(a) < Millis(b) <==> Before(a, b)
    ensures Millis(a) == Millis(b) <==> a == b
  {
    hide DayNumber;
    if DateBefore(a, b) {
      DaysAscend(a, b);
    } else if DateBefore(b, a) {
      DaysAscend(b, a);
    } else {
      SameDay(a, b);
    }
  }

  lemma SameDay(a: Instant, b: Instant)
    requires a.year == b.year && a.month == b.month && a.day == b.day
    ensures DayNumber(a) == DayNumber(b)
  {
  }

  lemma ValidIsInRange(t: Instant)
    requires Valid(t)
    ensures InRange(t)
  {
  }

  // ------------------------------------------------------------------ texts with an offset

  datatype Offset = Zulu | East(hours: nat, minutes: nat) | West(hours: nat, minutes: nat)

  /** What a local clock shows, and how far it is ahead of UTC. */
  datatype Stamp = Stamp(local: Instant, offset: Offset)

  predicate ValidOffset(o: Offset) { o.Zulu? || (o.hours < 24 && o.minutes < 60) }

  predicate ValidStamp(s: Stamp) { Valid(s.local) && ValidOffset(s.offset) }

  function Minutes(o: Offset): int {
    match o
    case Zulu => 0
    case East(hours, minutes) => hours * 60 + minutes
    case West(hours, minutes) => -(hours * 60 + minutes)
  }

  function OffsetText(o: Offset): string {
    match o
    case Zulu => "Z"
    case East(hours, minutes) => "+" + Fixed(hours, 2) + ":" + Fixed(minutes, 2)
    case West(hours, minutes) => "-" + Fixed(hours, 2) + ":" + Fixed(minutes, 2)
  }

  function LocalText(t: Instant): (s: string)
    ensures |s| == 23
  {
    SecondOf(t) + "." + Fixed(t.millis, 3)
  }

  function TextOf(s: Stamp): string { LocalText(s.local) + OffsetText(s.offset) }

  /** The instant, in milliseconds of UTC. */
  function InstantOf(s: Stamp): int { Millis(s.local) - Minutes(s.offset) * 60000 }

  lemma LocalTextsCompare(a: Instant, b: Instant)
    requires InRange(a) && InRange(b)
    ensures Less(LocalText(a), LocalText(b)) <==> Before(a, b)
    ensures LocalText(a) == LocalText(b) <==> a == b
  {
    hide Fixed, Less, SecondOf;
    Powers();
    SecondsCompare(a, b);
    var x, y := Fixed(a.millis, 3), Fixed(b.millis, 3);
    assert LocalText(a) == SecondOf(a) + (['.'] + x) && LocalText(b) == SecondOf(b) + (['.'] + y);
    PrefixesDecide(SecondOf(a), SecondOf(b), ['.'] + x, ['.'] + y);
    SeparatorDecides('.', x, y);
    FixedLess(a.millis, b.millis, 3);
    assert LocalText(a)[..19] == SecondOf(a) && LocalText(b)[..19] == SecondOf(b);
    assert LocalText(a)[19..] == ['.'] + x && LocalText(b)[19..] == ['.'] + y;
  }

  /** Plus sorts before minus, and both before Z; equal signs sort by the offset's size. */
  predicate OffsetBefore(a: Offset, b: Offset) {
    match a
    case Zulu => false
    case East(hours, minutes) => !b.East? || hours < b.hours || (hours == b.hours && minutes < b.minutes)
    case West(hours, minutes) => b.Zulu? || (b.West? && (hours < b.hours || (hours == b.hours && minutes < b.minutes)))
  }

  lemma SizesCompare(a: Offset, b: Offset, p: string, q: string)
    requires ValidOffset(a) && ValidOffset(b) && !a.Zulu? && !b.Zulu?
    ensures Less(Fixed(a.hours, 2) + ([':'] + (Fixed(a.minutes, 2) + p)),
                 Fixed(b.hours, 2) + ([':'] + (Fixed(b.minutes, 2) + q))) <==>
            a.hours < b.hours ||
            (a.hours == b.hours && (a.minutes < b.minutes || (a.minutes == b.minutes && Less(p, q))))
  {
    Powers();
    FieldDecides(a.minutes, b.minutes, 2, p, q);
    FieldAndSeparatorDecide(a.hours, b.hours, 2, ':', Fixed(a.minutes, 2) + p, Fixed(b.minutes, 2) + q);
  }

  /** An offset's text behind its sign. */
  lemma OffsetNests(o: Offset, p: string)
    requires !o.Zulu?
    ensures OffsetText(o) + p ==
            [if o.East? then '+' else '-'] + (Fixed(o.hours, 2) + ([':'] + (Fixed(o.minutes, 2) + p)))
  {
  }

  lemma OffsetsCompare(a: Offset, b: Offset, p: string, q: string)
    requires ValidOffset(a) && ValidOffset(b) && a != b
    ensures Less(OffsetText(a) + p, OffsetText(b) + q) <==> OffsetBefore(a, b)
  {
    hide Fixed;
    if a.Zulu? {
      OffsetNests(b, q);
    } else if b.Zulu? {
      OffsetNests(a, p);
    } else {
      OffsetNests(a, p);
      OffsetNests(b, q);
      SizesCompare(a, b, p, q);
      var x := Fixed(a.hours, 2) + ([':'] + (Fixed(a.minutes, 2) + p));
      var y := Fixed(b.hours, 2) + ([':'] + (Fixed(b.minutes, 2) + q));
      SeparatorDecides(if a.East? then '+' else '-', x, y);
    }
  }

  /** Texts with offsets sort by the local clock, and only on one clock reading by the offset. */
  lemma TextsCompare(a: Stamp, b: Stamp, p: string, q: string)
    requires ValidStamp(a) && ValidStamp(b) && a != b
    ensures Less(TextOf(a) + p, TextOf(b) + q) <==>
            Millis(a.local) < Millis(b.local) || (a.local == b.local && OffsetBefore(a.offset, b.offset))
  {
    hide Less, Fixed, SecondOf, LocalText, OffsetText, Millis, Before, OffsetBefore;
    ValidIsInRange(a.local);
    ValidIsInRange(b.local);
    MillisAscend(a.local, b.local);
    LocalTextsCompare(a.local, b.local);
    var x, y := OffsetText(a.offset) + p, OffsetText(b.offset) + q;
    assert TextOf(a) + p == LocalText(a.local) + x && TextOf(b) + q == LocalText(b.local) + y;
    PrefixesDecide(LocalText(a.local), LocalText(b.local), x, y);
    if a.local == b.local {
      OffsetsCompare(a.offset, b.offset, p, q);
    }
  }

  /** Sorting the texts sorts the instants exactly when the clocks are further apart than the offsets pull
      them together: the order is lost when the clock that is ahead is so by no more than its offset is. On one
      clock reading it is lost when the offset texts and the offsets themselves are not in opposite order. */
  lemma TextsAgreeWithInstants(a: Stamp, b: Stamp, p: string, q: string)
    requires ValidStamp(a) && ValidStamp(b) && a != b
    ensures var ahead, pull := Millis(b.local) - Millis(a.local), (Minutes(b.offset) - Minutes(a.offset)) * 60000;
            (Less(TextOf(a) + p, TextOf(b) + q) <==> InstantOf(a) < InstantOf(b)) <==>
            if a.local != b.local then !(0 < ahead <= pull) && !(pull < ahead < 0)
            else OffsetBefore(a.offset, b.offset) <==> Minutes(b.offset) < Minutes(a.offset)
  {
    hide Less, TextOf, Millis, OffsetBefore, Minutes, Before;
    TextsCompare(a, b, p, q);
    MillisAscend(a.local, b.local);
  }

  /** In one and the same offset texts sort as instants do. */
  lemma OneOffsetAgrees(a: Stamp, b: Stamp, p: string, q: string)
    requires ValidStamp(a) && ValidStamp(b) && a != b && a.offset == b.offset
    ensures Less(TextOf(a) + p, TextOf(b) + q) <==> InstantOf(a) < InstantOf(b)
  {
    hide Less, TextOf, Millis, OffsetBefore, Before;
    TextsAgreeWithInstants(a, b, p, q);
  }
}
