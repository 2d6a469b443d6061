/** What a slice of the breakdown holds: the bounds of its bucket and its figures, said of the trades alone
    (services/scanner/app/backtest.py:363-452). */
module BacktestSlices {
  import opened Lists
  import opened Clock
  import opened Strings
  import IndicatorLaws
  import opened BacktestMetrics

  // ------------------------------------------------------------------ buckets

  /** The local clock shows this minute of the day. */
  ghost predicate ShowsMinute(zone: Zone, t: Time, minute: int) {
    exists offset, day :: IndicatorLaws.Shows(zone, t, offset, day, minute)
  }

  predicate ScoredWithin(bucket: string, score: int) {
    || (bucket == "0-69" && score <= 69) || (bucket == "70-79" && 70 <= score <= 79)
    || (bucket == "80-89" && 80 <= score <= 89) || (bucket == "90-100" && 90 <= score)
  }

  /** Before ten, before eleven, or later. */
  ghost predicate EnteredWithin(bucket: string, zone: Zone, t: Time) {
    exists minute :: ShowsMinute(zone, t, minute) &&
      (|| (bucket == "09:30-09:59" && minute < 600) || (bucket == "10:00-10:59" && 600 <= minute < 660)
       || (bucket == "11:00+" && 660 <= minute))
  }

  /** One and a half and two and a half are the bounds of both regimes. */
  predicate RegimeWithin(bucket: string, value: Option<real>, low: string, middle: string, high: string) {
    match value
    case None => bucket == "UNKNOWN"
    case Some(x) =>
      || (bucket == low && x < 1.5) || (bucket == middle && 1.5 <= x && x < 2.5) || (bucket == high && 2.5 <= x)
  }

  ghost predicate InBucket(d: Dimension, bucket: string, t: TradeFacts, zone: Zone) {
    match d
    case ScoreBucket => ScoredWithin(bucket, t.score)
    case TimeOfDay => EnteredWithin(bucket, zone, t.entryTime)
    case AtrRegime => RegimeWithin(bucket, t.atrPct, "<1.5%", "1.5-2.49%", "2.5%+")
    case RvolRegime => RegimeWithin(bucket, t.rvol, "<1.5x", "1.5-2.49x", "2.5x+")
    case Sector => if t.sector == None || t.sector == Some("") then bucket == "UNKNOWN" else t.sector == Some(bucket)
    case Strategy => bucket == t.strategy
  }

  lemma MinuteShown(zone: Zone, t: Time, minute: int)
    ensures ShowsMinute(zone, t, minute) <==> minute == LocalMinuteOfDay(zone, t)
  {
    hide IndicatorLaws.Shows, LocalMinuteOfDay, LocalDate;
    IndicatorLaws.SomethingShows(zone, t);
    forall offset, day | IndicatorLaws.Shows(zone, t, offset, day, minute)
      ensures minute == LocalMinuteOfDay(zone, t) {
      IndicatorLaws.ClockShows(zone, t, offset, day, minute);
    }
  }

  lemma TimeBucketExactly(t: Time, zone: Zone, bucket: string)
    ensures TimeBucketOf(t, zone) == bucket <==> EnteredWithin(bucket, zone, t)
  {
    hide ShowsMinute, LocalMinuteOfDay;
    MinuteShown(zone, t, LocalMinuteOfDay(zone, t));
    forall minute ensures ShowsMinute(zone, t, minute) <==> minute == LocalMinuteOfDay(zone, t) {
      MinuteShown(zone, t, minute);
    }
  }

  /** A trade goes into exactly the bucket whose bounds it lies within. */
  lemma BucketExactly(d: Dimension, bucket: string, t: TradeFacts, zone: Zone)
    ensures BucketOf(d, t, zone) == bucket <==> InBucket(d, bucket, t, zone)
  {
    TimeBucketExactly(t.entryTime, zone, bucket);
    hide TimeBucketOf, EnteredWithin;
  }

  // ------------------------------------------------------------------ figures of a list of results

  function Gained(pnl: seq<real>): real {
    if pnl == [] then 0.0 else (if pnl[0] > 0.0 then pnl[0] else 0.0) + Gained(pnl[1..])
  }

  function Lost(pnl: seq<real>): real {
    if pnl == [] then 0.0 else (if pnl[0] < 0.0 then -pnl[0] else 0.0) + Lost(pnl[1..])
  }

  function Above(pnl: seq<real>): nat { if pnl == [] then 0 else (if pnl[0] > 0.0 then 1 else 0) + Above(pnl[1..]) }

  function Below(pnl: seq<real>): nat { if pnl == [] then 0 else (if pnl[0] < 0.0 then 1 else 0) + Below(pnl[1..]) }

  lemma {:induction false} SidesCounted(pnl: seq<real>)
    ensures |Winners(pnl)| == Above(pnl) && Sum(Winners(pnl)) == Gained(pnl)
    ensures |Losers(pnl)| == Below(pnl) && -Sum(Losers(pnl)) == Lost(pnl)
    ensures Sum(pnl) == Gained(pnl) - Lost(pnl)
  {
    if pnl != [] {
      SidesCounted(pnl[1..]);
      assert Winners(pnl) == (if pnl[0] > 0.0 then [pnl[0]] else []) + Winners(pnl[1..]);
      assert Losers(pnl) == (if pnl[0] < 0.0 then [pnl[0]] else []) + Losers(pnl[1..]);
      SumConcat(if pnl[0] > 0.0 then [pnl[0]] else [], Winners(pnl[1..]));
      SumConcat(if pnl[0] < 0.0 then [pnl[0]] else [], Losers(pnl[1..]));
    }
  }

  lemma FlatShare(n: real, w: real, l: real, z: real, gained: real, lost: real, loss: real, e: real)
    requires n > 0.0 && n == w + l + z && loss * l == lost && e == (gained - lost) / n - z / n * loss
    ensures n * e == gained - (n - w) * loss
  {
    assert n * ((gained - lost) / n) == gained - lost;
    assert n * (z / n * loss) == z * loss;
    assert (n - w) * loss == l * loss + z * loss;
  }

  lemma TimesLosses(n: real, w: real, l: real, gained: real, lost: real, loss: real, e: real)
    requires n * e == gained - (n - w) * loss && loss * l == lost
    ensures l * (n * e) == l * gained - (n - w) * lost
  {
    assert l * ((n - w) * loss) == (n - w) * (loss * l);
  }

  /** Expectancy times the number of trades: what was gained, less the mean loss for each trade that gained nothing. */
  predicate Expects(n: real, w: real, l: real, gained: real, lost: real, e: real) {
    && (l == 0.0 ==> n * e == gained)
    && l * (n * e) == l * gained - (n - w) * lost
  }

  lemma SharesExpect(n: real, w: real, l: real, z: real, gained: real, lost: real, loss: real, e: real)
    requires n > 0.0 && n == w + l + z && loss * l == lost && e == (gained - lost) / n - z / n * loss
    requires l == 0.0 ==> loss == 0.0
    ensures Expects(n, w, l, gained, lost, e)
  {
    FlatShare(n, w, l, z, gained, lost, loss, e);
    TimesLosses(n, w, l, gained, lost, loss, e);
  }

  lemma ExpectancyExactly(pnl: seq<real>)
    requires pnl != []
    ensures Expects(|pnl| as real, Above(pnl) as real, Below(pnl) as real, Gained(pnl), Lost(pnl), Expectancy(pnl))
  {
    hide *;
    SidesCounted(pnl);
    ResultsSplit(pnl);
    LossTimesCount(pnl);
    ExpectancyIsMeanLessFlatShare(pnl);
    if Below(pnl) == 0 {
      NoLosers(pnl);
    }
    var n, w, l, z := |pnl| as real, Above(pnl) as real, Below(pnl) as real, |Flat(pnl)| as real;
    SharesExpect(n, w, l, z, Gained(pnl), Lost(pnl), AverageLoss(pnl), Expectancy(pnl));
  }

  lemma NoLosers(pnl: seq<real>)
    requires |Losers(pnl)| == 0
    ensures AverageLoss(pnl) == 0.0
  {
  }

  // ------------------------------------------------------------------ slices

  /** The net results of the trades within a bucket, in trade order. */
  ghost function Results(trades: seq<TradeFacts>, d: Dimension, bucket: string, zone: Zone): seq<real> {
    if trades == [] then []
    else (if InBucket(d, bucket, trades[0], zone) then [trades[0].netPnl] else []) +
         Results(trades[1..], d, bucket, zone)
  }

  lemma {:induction false} GroupResults(trades: seq<TradeFacts>, d: Dimension, bucket: string, zone: Zone)
    ensures Map(Group(trades, (d, bucket), zone), (t: TradeFacts) => t.netPnl) == Results(trades, d, bucket, zone)
  {
    hide BucketOf, InBucket;
    if trades != [] {
      GroupResults(trades[1..], d, bucket, zone);
      BucketExactly(d, bucket, trades[0], zone);
      var rest := Group(trades[1..], (d, bucket), zone);
      assert Map([trades[0]] + rest, (t: TradeFacts) => t.netPnl) ==
             [trades[0].netPnl] + Map(rest, (t: TradeFacts) => t.netPnl);
    }
  }

  function NameOf(d: Dimension): string {
    match d
    case Strategy => "STRATEGY"
    case ScoreBucket => "SCORE_BUCKET"
    case TimeOfDay => "TIME_OF_DAY"
    case Sector => "SECTOR"
    case AtrRegime => "ATR_REGIME"
    case RvolRegime => "RVOL_REGIME"
  }

  lemma FirstDiffers(a: string, b: string)
    requires a != [] && b != [] && a[0] != b[0]
    ensures Less(a, b) <==> a[0] < b[0]
  {
  }

  lemma SecondDiffers(a: string, b: string)
    requires |a| > 1 && |b| > 1 && a[0] == b[0] && a[1] != b[1]
    ensures Less(a, b) <==> a[1] < b[1]
  {
    FirstDiffers(a[1..], b[1..]);
  }

  /** The dimensions are ordered by their names. */
  lemma DimensionsByName(x: Dimension, y: Dimension)
    ensures Rank(x) < Rank(y) <==> Less(NameOf(x), NameOf(y))
    ensures Rank(x) == Rank(y) <==> x == y
  {
    var a, b := NameOf(x), NameOf(y);
    if x == y {
      Irreflexive(a);
    } else if a[0] == b[0] {
      hide Less;
      SecondDiffers(a, b);
    } else {
      hide Less;
      FirstDiffers(a, b);
    }
  }

  /** In order of dimension name and bucket there is one slice for each bucket that a trade lies within and no other,
      and each has the count, the wins, the net result and the expectancy of the trades within its bounds. */
  lemma SlicesExactly(slices: seq<Slice>, trades: seq<TradeFacts>, zone: Zone)
    requires Breakdown(slices, trades, zone)
    ensures forall i, j :: 0 <= i < j < |slices| ==> SliceBefore(slices[i], slices[j])
    ensures forall d, bucket ::
      (exists i :: 0 <= i < |slices| && slices[i].dimension == d && slices[i].bucket == bucket) <==>
      Results(trades, d, bucket, zone) != []
    ensures forall i :: 0 <= i < |slices| ==>
      SliceFits(slices[i], Results(trades, slices[i].dimension, slices[i].bucket, zone))
  {
    hide Group, Results, SliceOf, SliceFits, KeyAtMost, SliceBefore;
    var keys := Map(slices, KeyOf);
    forall i, j | 0 <= i < j < |slices| ensures SliceBefore(slices[i], slices[j]) {
      assert keys[i] != keys[j] && KeyAtMost(keys[i], keys[j]);
      KeysInOrder(slices[i], slices[j]);
    }
    forall d, bucket
      ensures (exists i :: 0 <= i < |slices| && slices[i].dimension == d && slices[i].bucket == bucket) <==>
              Results(trades, d, bucket, zone) != [] {
      GroupResults(trades, d, bucket, zone);
      assert (d, bucket) in keys <==> Group(trades, (d, bucket), zone) != [];
      if (d, bucket) in keys {
        var i :| 0 <= i < |keys| && keys[i] == (d, bucket);
        assert KeyOf(slices[i]) == (d, bucket);
      }
      forall i | 0 <= i < |slices| && slices[i].dimension == d && slices[i].bucket == bucket
        ensures (d, bucket) in keys {
        assert keys[i] == (d, bucket);
      }
    }
    forall i | 0 <= i < |slices|
      ensures SliceFits(slices[i], Results(trades, slices[i].dimension, slices[i].bucket, zone)) {
      GroupResults(trades, keys[i].0, keys[i].1, zone);
      assert keys[i] in keys;
      FitsOfGroup(keys[i], Group(trades, keys[i], zone));
      assert keys[i] == (slices[i].dimension, slices[i].bucket);
    }
  }

  predicate SliceBefore(x: Slice, y: Slice) {
    Less(NameOf(x.dimension), NameOf(y.dimension)) || (x.dimension == y.dimension && Less(x.bucket, y.bucket))
  }

  lemma KeysInOrder(x: Slice, y: Slice)
    requires KeyAtMost(KeyOf(x), KeyOf(y)) && KeyOf(x) != KeyOf(y)
    ensures SliceBefore(x, y)
  {
    DimensionsByName(x.dimension, y.dimension);
    Trichotomy(x.bucket, y.bucket);
    hide Less, NameOf, Rank;
  }

  predicate SliceFits(s: Slice, pnl: seq<real>) {
    && s.trades == |pnl| && s.wins == Above(pnl) && s.netPnl == Gained(pnl) - Lost(pnl)
    && Expects(|pnl| as real, Above(pnl) as real, Below(pnl) as real, Gained(pnl), Lost(pnl), s.expectancy)
  }

  lemma FitsOfGroup(key: Key, values: seq<TradeFacts>)
    requires values != []
    ensures SliceFits(SliceOf(key, values), Map(values, (t: TradeFacts) => t.netPnl))
  {
    var pnl := Map(values, (t: TradeFacts) => t.netPnl);
    SidesCounted(pnl);
    ExpectancyExactly(pnl);
    hide Expectancy, Winners, Gained, Lost, Above, Below, Sum, Expects;
  }
}
