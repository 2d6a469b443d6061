/** The canonical order of shared-input items (contracts/src/domains/funded-comparison.ts): string keys, what
    order they embed, and the chunk that is accepted when its keys ascend. */
module OrderKey {
  import opened Lists
  import opened Strings

  /** The parts of an input item that enter its key. */
  datatype Item =
    | Invalidation(eventId: string, at: string)
    | SessionBoundary(sessionDate: string, sessionStartAt: string)
    | Opportunity(sourceOpportunityId: string, sourceOrdinal: nat, signalTimestamp: string)
    | Quote(instrumentId: string, timestamp: string, source: string)

  function EffectiveAt(item: Item): string {
    match item
    case SessionBoundary(_, sessionStartAt) => sessionStartAt
    case Opportunity(_, _, signalTimestamp) => signalTimestamp
    case Quote(_, timestamp, _) => timestamp
    case Invalidation(_, at) => at
  }

  /** At one instant: cancel, then clock, then signal, then quote. */
  function Rank(item: Item): (r: nat)
    ensures r < 4
  {
    match item
    case Invalidation(_, _) => 0
    case SessionBoundary(_, _) => 1
    case Opportunity(_, _, _) => 2
    case Quote(_, _, _) => 3
  }

  function IdentityOf(item: Item): string {
    match item
    case SessionBoundary(sessionDate, _) => sessionDate
    case Opportunity(id, ordinal, _) => PadStart(Decimal(ordinal), 10) + ":" + id
    case Quote(instrumentId, timestamp, source) => instrumentId + ":" + timestamp + ":" + source
    case Invalidation(eventId, _) => eventId
  }

  function KeyOf(item: Item): string {
    EffectiveAt(item) + "|" + [Digit(Rank(item))] + "|" + IdentityOf(item)
  }

  // ------------------------------------------------------------------ instants

  /** A civil UTC instant to the millisecond. */
  datatype Instant = Instant(year: nat, month: nat, day: nat, hour: nat, minute: nat, second: nat, millis: nat)

  predicate InRange(t: Instant) {
    t.year < 10000 && t.month < 100 && t.day < 100 &&
    t.hour < 100 && t.minute < 100 && t.second < 100 && t.millis < 1000
  }

  /** The second an instant falls in, written without its fraction. */
  function SecondOf(t: Instant): (s: string)
    ensures |s| == 19
  {
    Fixed(t.year, 4) + "-" + Fixed(t.month, 2) + "-" + Fixed(t.day, 2) + "T" +
    Fixed(t.hour, 2) + ":" + Fixed(t.minute, 2) + ":" + Fixed(t.second, 2)
  }

  /** The fixed-width form, as `toISOString` writes it. */
  function Utc(t: Instant): (s: string)
    ensures |s| == 24
  {
    SecondOf(t) + "." + Fixed(t.millis, 3) + "Z"
  }

  predicate SecondBefore(a: Instant, b: Instant) {
    a.year < b.year || (a.year == b.year && (
      a.month < b.month || (a.month == b.month && (
        a.day < b.day || (a.day == b.day && (
          a.hour < b.hour || (a.hour == b.hour && (
            a.minute < b.minute || (a.minute == b.minute && a.second < b.second)))))))))
  }

  predicate SameSecond(a: Instant, b: Instant) { a == b.(millis := a.millis) }

  predicate Before(a: Instant, b: Instant) { SecondBefore(a, b) || (SameSecond(a, b) && a.millis < b.millis) }

  /** One fixed-width field and what follows it compare like the number and the rest. */
  lemma FieldDecides(m: nat, n: nat, width: nat, x: string, y: string)
    requires m < Pow10(width) && n < Pow10(width)
    ensures Less(Fixed(m, width) + x, Fixed(n, width) + y) <==> m < n || (m == n && Less(x, y))
    ensures Fixed(m, width) + x == Fixed(n, width) + y <==> m == n && x == y
  {
    FixedLess(m, n, width);
    PrefixesDecide(Fixed(m, width), Fixed(n, width), x, y);
    if Fixed(m, width) + x == Fixed(n, width) + y {
      assert (Fixed(m, width) + x)[..width] == Fixed(m, width) && (Fixed(n, width) + y)[..width] == Fixed(n, width);
      assert (Fixed(m, width) + x)[width..] == x && (Fixed(n, width) + y)[width..] == y;
    }
  }

  /** A common separator changes nothing. */
  lemma SeparatorDecides(c: char, x: string, y: string)
    ensures Less([c] + x, [c] + y) <==> Less(x, y)
    ensures [c] + x == [c] + y <==> x == y
  {
    assert ([c] + x)[1..] == x && ([c] + y)[1..] == y;
  }

  lemma FieldAndSeparatorDecide(m: nat, n: nat, width: nat, c: char, x: string, y: string)
    requires m < Pow10(width) && n < Pow10(width)
    ensures Less(Fixed(m, width) + ([c] + x), Fixed(n, width) + ([c] + y)) <==> m < n || (m == n && Less(x, y))
    ensures Fixed(m, width) + ([c] + x) == Fixed(n, width) + ([c] + y) <==> m == n && x == y
  {
    FieldDecides(m, n, width, [c] + x, [c] + y);
    SeparatorDecides(c, x, y);
  }

  function TimeOfDay(t: Instant): string {
    Fixed(t.hour, 2) + ([':'] + (Fixed(t.minute, 2) + ([':'] + Fixed(t.second, 2))))
  }

  lemma SecondNests(t: Instant)
    ensures SecondOf(t) ==
      Fixed(t.year, 4) + (['-'] + (Fixed(t.month, 2) + (['-'] + (Fixed(t.day, 2) + (['T'] + TimeOfDay(t))))))
  {
  }

  lemma Powers()
    ensures Pow10(2) == 100 && Pow10(3) == 1000 && Pow10(4) == 10000 && Pow10(10) == 10000000000
  {
    assert Pow10(1) == 10 && Pow10(5) == 100000 && Pow10(7) == 10000000;
  }

  /** The fixed-width texts of two seconds compare as the seconds do. */
  lemma SecondsCompare(a: Instant, b: Instant)
    requires InRange(a) && InRange(b)
    ensures Less(SecondOf(a), SecondOf(b)) <==> SecondBefore(a, b)
    ensures SecondOf(a) == SecondOf(b) <==> SameSecond(a, b)
  {
    hide Fixed, Less, SecondOf;
    Powers();
    SecondNests(a);
    SecondNests(b);
    TimesCompare(a, b);
    var aDay, bDay := Fixed(a.day, 2) + (['T'] + TimeOfDay(a)), Fixed(b.day, 2) + (['T'] + TimeOfDay(b));
    FieldAndSeparatorDecide(a.day, b.day, 2, 'T', TimeOfDay(a), TimeOfDay(b));
    FieldAndSeparatorDecide(a.month, b.month, 2, '-', aDay, bDay);
    FieldAndSeparatorDecide(a.year, b.year, 4, '-',
                            Fixed(a.month, 2) + (['-'] + aDay), Fixed(b.month, 2) + (['-'] + bDay));
  }

  lemma TimesCompare(a: Instant, b: Instant)
    requires InRange(a) && InRange(b)
    ensures Less(TimeOfDay(a), TimeOfDay(b)) <==>
      a.hour < b.hour || (a.hour == b.hour && (
        a.minute < b.minute || (a.minute == b.minute && a.second < b.second)))
    ensures TimeOfDay(a) == TimeOfDay(b) <==> a.hour == b.hour && a.minute == b.minute && a.second == b.second
  {
    hide Fixed, Less;
    Powers();
    FixedLess(a.second, b.second, 2);
    FieldAndSeparatorDecide(a.minute, b.minute, 2, ':', Fixed(a.second, 2), Fixed(b.second, 2));
    FieldAndSeparatorDecide(a.hour, b.hour, 2, ':',
                            Fixed(a.minute, 2) + ([':'] + Fixed(a.second, 2)),
                            Fixed(b.minute, 2) + ([':'] + Fixed(b.second, 2)));
  }

  /** The fixed-width form embeds the order of instants. */
  lemma UtcCompares(a: Instant, b: Instant)
    requires InRange(a) && InRange(b)
    ensures Less(Utc(a), Utc(b)) <==> Before(a, b)
    ensures Utc(a) == Utc(b) <==> a == b
  {
    hide Fixed, Less, SecondOf;
    Powers();
    SecondsCompare(a, b);
    var x, y := ['.'] + (Fixed(a.millis, 3) + "Z"), ['.'] + (Fixed(b.millis, 3) + "Z");
    assert Utc(a) == SecondOf(a) + x && Utc(b) == SecondOf(b) + y;
    PrefixesDecide(SecondOf(a), SecondOf(b), x, y);
    SeparatorDecides('.', Fixed(a.millis, 3) + "Z", Fixed(b.millis, 3) + "Z");
    FieldDecides(a.millis, b.millis, 3, "Z", "Z");
    Irreflexive("Z");
    assert Utc(a)[..19] == SecondOf(a) && Utc(b)[..19] == SecondOf(b);
    assert Utc(a)[19..] == x && Utc(b)[19..] == y;
  }

  // ------------------------------------------------------------------ ordinals

  function Digits(n: nat): (d: nat)
    ensures d == |Decimal(n)|
  {
    if n < 10 then 1 else Digits(n / 10) + 1
  }

  /** How many characters a padded ordinal takes. */
  function Width(n: nat): nat { if Digits(n) < 10 then 10 else Digits(n) }

  lemma {:induction false} DigitsBound(n: nat)
    ensures n < Pow10(Digits(n)) && (n >= 10 ==> Pow10(Digits(n) - 1) <= n)
  {
    if n >= 10 {
      DigitsBound(n / 10);
    }
  }

  lemma {:induction false} PowersGrow(a: nat, b: nat)
    requires a <= b
    ensures Pow10(a) <= Pow10(b)
    decreases b
  {
    if a < b {
      PowersGrow(a, b - 1);
    }
  }

  lemma PaddedHasItsWidth(n: nat)
    ensures n < Pow10(Width(n)) && PadStart(Decimal(n), 10) == Fixed(n, Width(n))
  {
    DigitsBound(n);
    PowersGrow(Digits(n), Width(n));
    PaddedIsFixed(n, Width(n));
  }

  /** A number without its last b decimal digits. */
  function Lead(n: nat, b: nat): nat { if b == 0 then n else Lead(n / 10, b - 1) }

  lemma {:induction false} LeadDrops(n: nat, b: nat)
    requires b > 0
    ensures Lead(n, b) <= n / 10
    decreases b
  {
    if b > 1 {
      LeadDrops(n / 10, b - 1);
    }
  }

  lemma {:induction false} LeadFits(n: nat, w: nat, b: nat)
    requires n < Pow10(w + b)
    ensures Lead(n, b) < Pow10(w)
    decreases b
  {
    if b > 0 {
      LeadFits(n / 10, w, b - 1);
    }
  }

  lemma {:induction false} FixedSplits(n: nat, a: nat, b: nat)
    ensures Fixed(n, a + b) == Fixed(Lead(n, b), a) + Fixed(n, b)
    decreases b
  {
    if b == 0 {
      assert Fixed(n, 0) == [];
    } else {
      FixedSplits(n / 10, a, b - 1);
      assert Fixed(n, a + b) == Fixed(n / 10, a + b - 1) + [Digit(n % 10)];
    }
  }

  /** Padded ordinals m < n are in order exactly when m is below the leading digits of n at m's width. */
  lemma OrdinalsInOrder(m: nat, n: nat, x: string, y: string)
    requires m < n
    ensures Width(m) <= Width(n)
    ensures Less(PadStart(Decimal(m), 10) + ":" + x, PadStart(Decimal(n), 10) + ":" + y) <==>
            m < Lead(n, Width(n) - Width(m))
    ensures Less(PadStart(Decimal(n), 10) + ":" + y, PadStart(Decimal(m), 10) + ":" + x) <==>
            Lead(n, Width(n) - Width(m)) <= m
  {
    hide Fixed, Less, PadStart, Decimal, Lead, Pow10;
    PaddedHasItsWidth(m);
    PaddedHasItsWidth(n);
    WiderIsLarger(m, n);
    var w, more := Width(m), Width(n) - Width(m);
    FixedSplits(n, w, more);
    var lead := Lead(n, more);
    LeadFits(n, w, more);
    var rest := Fixed(n, more) + ([':'] + y);
    assert Fixed(n, Width(n)) + ":" + y == Fixed(lead, w) + rest;
    assert Fixed(m, w) + ":" + x == Fixed(m, w) + ([':'] + x);
    FieldDecides(m, lead, w, [':'] + x, rest);
    FieldDecides(lead, m, w, rest, [':'] + x);
    if more > 0 {
      DigitBeforeColon(n, more, x, y);
    } else {
      LeadOfNone(n);
    }
  }

  lemma DigitBeforeColon(n: nat, width: nat, x: string, y: string)
    requires width > 0
    ensures !Less([':'] + x, Fixed(n, width) + ([':'] + y))
    ensures Less(Fixed(n, width) + ([':'] + y), [':'] + x)
  {
    FirstIsDigit(n, width);
    assert (Fixed(n, width) + ([':'] + y))[0] == Fixed(n, width)[0];
  }

  lemma {:induction false} FirstIsDigit(n: nat, width: nat)
    requires width > 0
    ensures Fixed(n, width)[0] <= '9'
  {
    if width > 1 {
      FirstIsDigit(n / 10, width - 1);
    }
  }

  lemma LeadOfNone(n: nat)
    ensures Lead(n, 0) == n
  {
  }

  lemma WiderIsLarger(m: nat, n: nat)
    requires m <= n
    ensures Width(m) <= Width(n)
  {
    if Width(m) > Width(n) {
      DigitsBound(m);
      DigitsBound(n);
      PowersGrow(Digits(n), Digits(m) - 1);
    }
  }

  /** Below ten to the tenth padding keeps the numeric order; the next ordinal falls out of it. */
  lemma TenDigitOrdinalsAscend(m: nat, n: nat, x: string, y: string)
    requires m < Pow10(10) && n < Pow10(10)
    ensures Less(PadStart(Decimal(m), 10) + ":" + x, PadStart(Decimal(n), 10) + ":" + y) <==>
            m < n || (m == n && Less(x, y))
  {
    hide Fixed, Less, PadStart, Decimal;
    PaddedIsFixed(m, 10);
    PaddedIsFixed(n, 10);
    FieldAndSeparatorDecide(m, n, 10, ':', x, y);
    assert Fixed(m, 10) + ":" + x == Fixed(m, 10) + ([':'] + x) && Fixed(n, 10) + ":" + y == Fixed(n, 10) + ([':'] + y);
  }

  lemma ElevenDigitsFallBack(x: string, y: string)
    ensures Less(PadStart(Decimal(10000000000), 10) + ":" + y, PadStart(Decimal(9999999999), 10) + ":" + x)
  {
    hide Less, PadStart, Decimal;
    var m, n := 9999999999, 10000000000;
    Powers();
    OrdinalsInOrder(m, n, x, y);
    TenDigits(m);
    ElevenDigits(n);
    LeadDrops(n, Width(n) - Width(m));
  }

  lemma ElevenDigits(n: nat)
    requires n >= Pow10(10)
    ensures Width(n) > 10
  {
    DigitsBound(n);
    PowersGrow(if Digits(n) <= 10 then Digits(n) else 10, 10);
  }

  lemma TenDigits(n: nat)
    requires n < Pow10(10)
    ensures Width(n) == 10
  {
    DigitsBound(n);
    if Digits(n) > 10 {
      PowersGrow(10, Digits(n) - 1);
    }
  }

  // ------------------------------------------------------------------ the embedding

  /** Before the other kind at one instant: cancel, clock, signal, quote. */
  predicate KindBefore(x: Item, y: Item) {
    || (x.Invalidation? && (y.SessionBoundary? || y.Opportunity? || y.Quote?))
    || (x.SessionBoundary? && (y.Opportunity? || y.Quote?))
    || (x.Opportunity? && y.Quote?)
  }

  predicate SameKind(x: Item, y: Item) {
    || (x.Invalidation? && y.Invalidation?) || (x.SessionBoundary? && y.SessionBoundary?)
    || (x.Opportunity? && y.Opportunity?) || (x.Quote? && y.Quote?)
  }

  /** Within a kind: signals by their ordinals as numbers, then their ids; the others by their texts. */
  predicate IdentityBefore(x: Item, y: Item)
    requires SameKind(x, y)
  {
    match x
    case Invalidation(eventId, _) => Less(eventId, y.eventId)
    case SessionBoundary(sessionDate, _) => Less(sessionDate, y.sessionDate)
    case Opportunity(id, ordinal, _) =>
      ordinal < y.sourceOrdinal || (ordinal == y.sourceOrdinal && Less(id, y.sourceOpportunityId))
    case Quote(instrumentId, timestamp, source) =>
      Less(instrumentId + ":" + timestamp + ":" + source, y.instrumentId + ":" + y.timestamp + ":" + y.source)
  }

  predicate RankedBefore(x: Item, y: Item) { KindBefore(x, y) || (SameKind(x, y) && IdentityBefore(x, y)) }

  /** The time a kind is ordered by. */
  predicate Takes(x: Item, at: string) {
    match x
    case Invalidation(_, cancelledAt) => cancelledAt == at
    case SessionBoundary(_, sessionStartAt) => sessionStartAt == at
    case Opportunity(_, _, signalTimestamp) => signalTimestamp == at
    case Quote(_, timestamp, _) => timestamp == at
  }

  lemma KindsInOrder(x: Item, y: Item)
    ensures Rank(x) < Rank(y) <==> KindBefore(x, y)
    ensures Rank(x) == Rank(y) <==> SameKind(x, y)
  {
  }

  predicate TenDigitOrdinal(x: Item) { x.Opportunity? ==> x.sourceOrdinal < Pow10(10) }

  /** Behind effective times of one length the keys compare by time, then rank, then identity. */
  lemma KeysCompare(x: Item, y: Item)
    requires |EffectiveAt(x)| == |EffectiveAt(y)|
    ensures Less(KeyOf(x), KeyOf(y)) <==>
      Less(EffectiveAt(x), EffectiveAt(y)) ||
      (EffectiveAt(x) == EffectiveAt(y) &&
       (Rank(x) < Rank(y) || (Rank(x) == Rank(y) && Less(IdentityOf(x), IdentityOf(y)))))
  {
    hide Less, IdentityOf, EffectiveAt;
    var p, q := ['|'] + IdentityOf(x), ['|'] + IdentityOf(y);
    assert KeyOf(x) == EffectiveAt(x) + (['|'] + ([Digit(Rank(x))] + p));
    assert KeyOf(y) == EffectiveAt(y) + (['|'] + ([Digit(Rank(y))] + q));
    PrefixesDecide(EffectiveAt(x), EffectiveAt(y), ['|'] + ([Digit(Rank(x))] + p), ['|'] + ([Digit(Rank(y))] + q));
    SeparatorDecides('|', [Digit(Rank(x))] + p, [Digit(Rank(y))] + q);
    DigitDecides(Rank(x), Rank(y), p, q);
    SeparatorDecides('|', IdentityOf(x), IdentityOf(y));
  }

  lemma DigitDecides(m: nat, n: nat, p: string, q: string)
    requires m < 10 && n < 10
    ensures Less([Digit(m)] + p, [Digit(n)] + q) <==> m < n || (m == n && Less(p, q))
  {
    assert ([Digit(m)] + p)[1..] == p && ([Digit(n)] + q)[1..] == q;
  }

  lemma IdentitiesCompare(x: Item, y: Item)
    requires SameKind(x, y) && TenDigitOrdinal(x) && TenDigitOrdinal(y)
    ensures Less(IdentityOf(x), IdentityOf(y)) <==> IdentityBefore(x, y)
  {
    hide Less, PadStart, Decimal;
    if x.Opportunity? {
      TenDigitOrdinalsAscend(x.sourceOrdinal, y.sourceOrdinal, x.sourceOpportunityId, y.sourceOpportunityId);
    }
  }

  /** For fixed-width UTC times and ordinals of at most ten digits the keys embed the order of effective
      time, then kind, then ordinal or identity. */
  lemma KeysEmbedTheOrder(x: Item, y: Item, a: Instant, b: Instant)
    requires InRange(a) && InRange(b) && Takes(x, Utc(a)) && Takes(y, Utc(b))
    requires TenDigitOrdinal(x) && TenDigitOrdinal(y)
    ensures Less(KeyOf(x), KeyOf(y)) <==> Before(a, b) || (a == b && RankedBefore(x, y))
  {
    hide Less, KeyOf, IdentityOf, Utc, Rank, KindBefore, SameKind, IdentityBefore, Before;
    assert EffectiveAt(x) == Utc(a) && EffectiveAt(y) == Utc(b);
    KeysCompare(x, y);
    UtcCompares(a, b);
    KindsInOrder(x, y);
    if SameKind(x, y) {
      IdentitiesCompare(x, y);
    }
  }

  /** A whole second written without its fraction sorts behind every fraction of that second: the order is
      lost exactly within one second. */
  lemma ShortFormSortsLast(a: Instant, b: Instant, p: string, q: string)
    requires InRange(a) && InRange(b)
    ensures Less(SecondOf(a) + "Z" + p, Utc(b) + q) <==> SecondBefore(a, b)
    ensures Less(Utc(b) + q, SecondOf(a) + "Z" + p) <==> !SecondBefore(a, b)
  {
    hide Fixed, Less, SecondOf;
    SecondsCompare(a, b);
    SecondsCompare(b, a);
    var x, y := "Z" + p, "." + Fixed(b.millis, 3) + "Z" + q;
    assert SecondOf(a) + "Z" + p == SecondOf(a) + x && Utc(b) + q == SecondOf(b) + y;
    PrefixesDecide(SecondOf(a), SecondOf(b), x, y);
    PrefixesDecide(SecondOf(b), SecondOf(a), y, x);
    PointBeforeZ(p, Fixed(b.millis, 3) + "Z" + q);
    assert y == "." + (Fixed(b.millis, 3) + "Z" + q);
  }

  lemma PointBeforeZ(p: string, r: string)
    ensures Less("." + r, "Z" + p) && !Less("Z" + p, "." + r)
  {
  }

  // ------------------------------------------------------------------ the chunk

  datatype Chunk = Chunk(itemCount: nat, firstEffectiveAt: string, lastEffectiveAt: string, items: seq<Item>)

  datatype Issue = ItemCountMismatch | FirstMismatch | LastMismatch | OutOfOrder(index: nat)

  predicate CountFits(c: Chunk) { c.itemCount == |c.items| }

  predicate FirstFits(c: Chunk) { c.items != [] ==> EffectiveAt(c.items[0]) == c.firstEffectiveAt }

  predicate LastFits(c: Chunk) { c.items != [] ==> EffectiveAt(c.items[|c.items| - 1]) == c.lastEffectiveAt }

  /** The key at `i` is below its neighbour's. */
  predicate StepsBack(items: seq<Item>, i: nat) {
    0 < i < |items| && Less(KeyOf(items[i]), KeyOf(items[i - 1]))
  }

  predicate Accepts(c: Chunk) {
    CountFits(c) && FirstFits(c) && LastFits(c) && forall i :: 0 < i < |c.items| ==> !StepsBack(c.items, i)
  }

  /** Raises each issue exactly when it is there. */
  method CheckChunk(c: Chunk) returns (issues: seq<Issue>)
    ensures ItemCountMismatch in issues <==> !CountFits(c)
    ensures FirstMismatch in issues <==> !FirstFits(c)
    ensures LastMismatch in issues <==> !LastFits(c)
    ensures forall i: nat :: OutOfOrder(i) in issues <==> StepsBack(c.items, i)
    ensures issues == [] <==> Accepts(c)
  {
    hide KeyOf, EffectiveAt, Less;
    issues := When(c.itemCount != |c.items|, ItemCountMismatch);
    var previous := "";
    for index := 0 to |c.items|
      invariant index > 0 ==> previous == KeyOf(c.items[index - 1])
      invariant ItemCountMismatch in issues <==> !CountFits(c)
      invariant FirstMismatch in issues <==> index > 0 && !FirstFits(c)
      invariant LastMismatch in issues <==> index == |c.items| && !LastFits(c)
      invariant forall i: nat :: OutOfOrder(i) in issues <==> i < index && StepsBack(c.items, i)
    {
      var entry := c.items[index];
      var at := EffectiveAt(entry);
      issues := issues + When(index == 0 && at != c.firstEffectiveAt, FirstMismatch);
      issues := issues + When(index == |c.items| - 1 && at != c.lastEffectiveAt, LastMismatch);
      var key := KeyOf(entry);
      issues := issues + When(index > 0 && Less(key, previous), OutOfOrder(index));
      previous := key;
    }
    if issues != [] {
      var issue := issues[0];
      assert issue in issues;
      assert issue.OutOfOrder? ==> StepsBack(c.items, issue.index);
    }
  }

  /** In an accepted chunk no key is below an earlier one. */
  lemma {:induction false} AcceptedKeysAscend(c: Chunk, i: nat, j: nat)
    requires Accepts(c) && i < j < |c.items|
    ensures AtMost(KeyOf(c.items[i]), KeyOf(c.items[j]))
    decreases j
  {
    hide KeyOf, Less, FirstFits, LastFits;
    assert !StepsBack(c.items, j);
    if i < j - 1 {
      AcceptedKeysAscend(c, i, j - 1);
      AtMostTransitive(KeyOf(c.items[i]), KeyOf(c.items[j - 1]), KeyOf(c.items[j]));
    }
  }

  /** The times of its items, in fixed-width UTC. */
  ghost predicate Timed(c: Chunk, times: seq<Instant>) {
    && |times| == |c.items|
    && forall i :: 0 <= i < |times| ==> InRange(times[i]) && Takes(c.items[i], Utc(times[i]))
  }

  /** An accepted chunk with fixed-width times and ten-digit ordinals is pairwise in canonical order, and no
      item lies outside the window the chunk states. */
  lemma AcceptedChunkIsOrdered(c: Chunk, times: seq<Instant>)
    requires Accepts(c) && Timed(c, times) && c.items != []
    requires forall i :: 0 <= i < |c.items| ==> TenDigitOrdinal(c.items[i])
    ensures forall i, j :: 0 <= i < j < |c.items| ==>
      !(Before(times[j], times[i]) || (times[i] == times[j] && RankedBefore(c.items[j], c.items[i])))
    ensures c.firstEffectiveAt == Utc(times[0]) && c.lastEffectiveAt == Utc(times[|times| - 1])
    ensures forall i :: 0 <= i < |c.items| ==>
      !Before(times[i], times[0]) && !Before(times[|times| - 1], times[i])
  {
    hide KeyOf, Less, Utc, RankedBefore, Before, InRange, TenDigitOrdinal;
    forall i, j | 0 <= i < j < |c.items|
      ensures !(Before(times[j], times[i]) || (times[i] == times[j] && RankedBefore(c.items[j], c.items[i]))) {
      AcceptedKeysAscend(c, i, j);
      KeysEmbedTheOrder(c.items[j], c.items[i], times[j], times[i]);
    }
    forall i | 0 <= i < |c.items| ensures !Before(times[i], times[0]) && !Before(times[|times| - 1], times[i]) {
      NotBeforeItself(times[i]);
    }
  }

  lemma NotBeforeItself(t: Instant)
    ensures !Before(t, t)
  {
  }

  // ------------------------------------------------------------------ session dates

  /** Neighbours decide the whole list. */
  method DatesAscendingUnique(values: seq<string>) returns (ascending: bool)
    ensures ascending <==> forall i, j :: 0 <= i < j < |values| ==> Less(values[i], values[j])
  {
    hide Less;
    var index := 1;
    while index < |values|
      invariant 1 <= index
      invariant forall i, j :: 0 <= i < j < index && j < |values| ==> Less(values[i], values[j])
    {
      Trichotomy(values[index - 1], values[index]);
      if AtMost(values[index], values[index - 1]) {
        return false;
      }
      forall i | 0 <= i < index - 1 ensures Less(values[i], values[index]) {
        Transitive(values[i], values[index - 1], values[index]);
      }
      index := index + 1;
    }
    return true;
  }
}
