/** Run metrics and their breakdown, before the final rounding (services/scanner/app/backtest.py:321-452). */
module BacktestMetrics {
  import opened Lists
  import opened Clock
  import opened Strings

  // ------------------------------------------------------------------ drawdown

  /** Equity after the first `i` trades. */
  function Equity(capital: real, pnl: seq<real>, i: nat): real
    requires i <= |pnl|
  {
    capital + Sum(pnl[..i])
  }

  method MaximumDrawdown(capital: real, pnl: seq<real>) returns (drawdown: real)
    ensures forall i, j :: 0 <= i <= j <= |pnl| ==> Equity(capital, pnl, i) - Equity(capital, pnl, j) <= drawdown
    ensures exists i, j :: 0 <= i <= j <= |pnl| && drawdown == Equity(capital, pnl, i) - Equity(capital, pnl, j)
  {
    hide Equity;
    var peak, equity := capital, capital;
    ghost var top, high, low := 0, 0, 0;
    drawdown := 0.0;
    EquityStart(capital, pnl);
    for n := 0 to |pnl|
      invariant equity == Equity(capital, pnl, n)
      invariant 0 <= top <= n && peak == Equity(capital, pnl, top)
      invariant forall i :: 0 <= i <= n ==> Equity(capital, pnl, i) <= peak
      invariant 0 <= high <= low <= n && drawdown == Equity(capital, pnl, high) - Equity(capital, pnl, low)
      invariant forall i, j :: 0 <= i <= j <= n ==> Equity(capital, pnl, i) - Equity(capital, pnl, j) <= drawdown
    {
      EquityStep(capital, pnl, n);
      equity := equity + pnl[n];
      if peak < equity {
        peak, top := equity, n + 1;
      }
      if drawdown < peak - equity {
        drawdown, high, low := peak - equity, top, n + 1;
      }
    }
  }

  lemma EquityStart(capital: real, pnl: seq<real>)
    ensures Equity(capital, pnl, 0) == capital
  {
  }

  lemma EquityStep(capital: real, pnl: seq<real>, n: nat)
    requires n < |pnl|
    ensures Equity(capital, pnl, n + 1) == Equity(capital, pnl, n) + pnl[n]
  {
    assert pnl[..n + 1] == pnl[..n] + [pnl[n]];
    SumSnoc(pnl[..n], pnl[n]);
  }

  // ------------------------------------------------------------------ expectancy

  function Winners(pnl: seq<real>): seq<real> { Filter(pnl, (v: real) => v > 0.0) }
  function Losers(pnl: seq<real>): seq<real> { Filter(pnl, (v: real) => v < 0.0) }
  function Flat(pnl: seq<real>): seq<real> { Filter(pnl, (v: real) => v == 0.0) }

  function Mean(values: seq<real>): real { if values == [] then 0.0 else Sum(values) / |values| as real }

  function WinRate(pnl: seq<real>): real { if pnl == [] then 0.0 else |Winners(pnl)| as real / |pnl| as real }

  function AverageWin(pnl: seq<real>): real { Mean(Winners(pnl)) }

  function AverageLoss(pnl: seq<real>): real { Abs(Mean(Losers(pnl))) }

  function Expectancy(pnl: seq<real>): real {
    WinRate(pnl) * AverageWin(pnl) - (1.0 - WinRate(pnl)) * AverageLoss(pnl)
  }

  lemma {:induction false} ResultsSplit(pnl: seq<real>)
    ensures Sum(pnl) == Sum(Winners(pnl)) + Sum(Losers(pnl))
    ensures |pnl| == |Winners(pnl)| + |Losers(pnl)| + |Flat(pnl)|
    ensures Sum(Losers(pnl)) <= 0.0
  {
    if pnl != [] {
      var v, rest := pnl[0], pnl[1..];
      ResultsSplit(rest);
      assert Winners(pnl) == (if v > 0.0 then [v] else []) + Winners(rest);
      assert Losers(pnl) == (if v < 0.0 then [v] else []) + Losers(rest);
      assert Flat(pnl) == (if v == 0.0 then [v] else []) + Flat(rest);
      SumConcat(if v > 0.0 then [v] else [], Winners(rest));
      SumConcat(if v < 0.0 then [v] else [], Losers(rest));
    }
  }

  lemma MeanTimesCount(values: seq<real>)
    ensures Mean(values) * |values| as real == Sum(values)
  {
  }

  lemma LossTimesCount(pnl: seq<real>)
    ensures AverageLoss(pnl) * |Losers(pnl)| as real == -Sum(Losers(pnl))
  {
    ResultsSplit(pnl);
    MeanTimesCount(Losers(pnl));
    NonPositiveMean(Losers(pnl));
  }

  lemma NonPositiveMean(values: seq<real>)
    requires Sum(values) <= 0.0
    ensures Mean(values) <= 0.0
  {
  }

  lemma Shares(n: real, w: real, l: real, z: real, win: real, loss: real, gains: real, losses: real)
    requires n > 0.0 && n == w + l + z && win * w == gains && loss * l == losses
    ensures (w / n) * win - (1.0 - w / n) * loss == (gains - losses) / n - (z / n) * loss
  {
    assert (w / n) * win == (win * w) / n;
    assert n / n == 1.0;
    assert (n - w) / n == n / n - w / n;
    assert ((l + z) / n) * loss == (loss * l) / n + (z / n) * loss;
  }

  lemma ExpectancyParts(pnl: seq<real>)
    requires pnl != []
    ensures var rate := |Winners(pnl)| as real / |pnl| as real;
            Expectancy(pnl) == rate * AverageWin(pnl) - (1.0 - rate) * AverageLoss(pnl)
    ensures AverageWin(pnl) * |Winners(pnl)| as real == Sum(Winners(pnl))
  {
    hide Winners, AverageLoss;
    MeanTimesCount(Winners(pnl));
  }

  /** Expectancy is the mean result, less what a flat trade is charged as if it were an average loss. */
  lemma ExpectancyIsMeanLessFlatShare(pnl: seq<real>)
    requires pnl != []
    ensures Expectancy(pnl) == Sum(pnl) / |pnl| as real - |Flat(pnl)| as real / |pnl| as real * AverageLoss(pnl)
  {
    hide *;
    ExpectancyParts(pnl);
    ResultsSplit(pnl);
    LossTimesCount(pnl);
    Shares(|pnl| as real, |Winners(pnl)| as real, |Losers(pnl)| as real, |Flat(pnl)| as real,
           AverageWin(pnl), AverageLoss(pnl), Sum(Winners(pnl)), -Sum(Losers(pnl)));
  }

  // ------------------------------------------------------------------ analyses

  datatype Dimension = AtrRegime | RvolRegime | ScoreBucket | Sector | Strategy | TimeOfDay

  /** What the breakdown reads of a trade. */
  datatype TradeFacts = TradeFacts(
    strategy: string, score: int, entryTime: Time, sector: Option<string>, atrPct: Option<real>, rvol: Option<real>,
    netPnl: real)

  type Key = (Dimension, string)

  datatype Slice = Slice(dimension: Dimension, bucket: string, trades: nat, wins: nat, expectancy: real, netPnl: real)

  function ScoreBucketOf(score: int): string {
    if score < 70 then "0-69" else if score < 80 then "70-79" else if score < 90 then "80-89" else "90-100"
  }

  function TimeBucketOf(t: Time, zone: Zone): string {
    var minutes := LocalMinuteOfDay(zone, t);
    if minutes < 10 * 60 then "09:30-09:59" else if minutes < 11 * 60 then "10:00-10:59" else "11:00+"
  }

  function AtrBucketOf(value: Option<real>): string {
    if value.None? then "UNKNOWN"
    else if value.value < 1.5 then "<1.5%" else if value.value < 2.5 then "1.5-2.49%" else "2.5%+"
  }

  function RvolBucketOf(value: Option<real>): string {
    if value.None? then "UNKNOWN"
    else if value.value < 1.5 then "<1.5x" else if value.value < 2.5 then "1.5-2.49x" else "2.5x+"
  }

  function BucketOf(dimension: Dimension, t: TradeFacts, zone: Zone): string {
    match dimension
    case AtrRegime => AtrBucketOf(t.atrPct)
    case RvolRegime => RvolBucketOf(t.rvol)
    case ScoreBucket => ScoreBucketOf(t.score)
    case Sector => if t.sector.None? || t.sector.value == "" then "UNKNOWN" else t.sector.value
    case Strategy => t.strategy
    case TimeOfDay => TimeBucketOf(t.entryTime, zone)
  }

  function KeysOf(t: TradeFacts, zone: Zone): set<Key> {
    {(AtrRegime, BucketOf(AtrRegime, t, zone)), (RvolRegime, BucketOf(RvolRegime, t, zone)),
     (ScoreBucket, BucketOf(ScoreBucket, t, zone)), (Sector, BucketOf(Sector, t, zone)),
     (Strategy, BucketOf(Strategy, t, zone)), (TimeOfDay, BucketOf(TimeOfDay, t, zone))}
  }

  function Group(trades: seq<TradeFacts>, key: Key, zone: Zone): seq<TradeFacts> {
    Filter(trades, (t: TradeFacts) => BucketOf(key.0, t, zone) == key.1)
  }

  type Groups = map<Key, seq<TradeFacts>>

  /** The dictionary after the first `n` trades: every nonempty group and no other. */
  ghost predicate Grouped(groups: Groups, trades: seq<TradeFacts>, zone: Zone) {
    && (forall key :: key in groups <==> Group(trades, key, zone) != [])
    && (forall key :: key in groups ==> groups[key] == Group(trades, key, zone))
  }

  function Appended(groups: Groups, keys: set<Key>, t: TradeFacts): Groups {
    map key | key in groups.Keys + keys ::
      (if key in groups then groups[key] else []) + (if key in keys then [t] else [])
  }

  lemma GroupSnoc(trades: seq<TradeFacts>, t: TradeFacts, key: Key, zone: Zone)
    ensures Group(trades + [t], key, zone) ==
            Group(trades, key, zone) + (if BucketOf(key.0, t, zone) == key.1 then [t] else [])
  {
    hide BucketOf;
    var inBucket := (t: TradeFacts) => BucketOf(key.0, t, zone) == key.1;
    FilterConcat(trades, [t], inBucket);
    FilterOne(t, inBucket);
  }

  lemma FilterOne(t: TradeFacts, p: TradeFacts -> bool)
    ensures Filter([t], p) == if p(t) then [t] else []
  {
    assert [t][1..] == [];
  }

  /** A trade goes into the bucket it has in each dimension. */
  lemma KeyListed(t: TradeFacts, key: Key, zone: Zone)
    ensures BucketOf(key.0, t, zone) == key.1 <==> key in KeysOf(t, zone)
  {
    hide BucketOf;
    match key.0
    case AtrRegime =>
    case RvolRegime =>
    case ScoreBucket =>
    case Sector =>
    case Strategy =>
    case TimeOfDay =>
  }

  lemma AppendedGrouped(groups: Groups, trades: seq<TradeFacts>, t: TradeFacts, zone: Zone)
    requires Grouped(groups, trades, zone)
    ensures Grouped(Appended(groups, KeysOf(t, zone), t), trades + [t], zone)
  {
    hide BucketOf, KeysOf, Group;
    forall key
      ensures Group(trades + [t], key, zone) ==
              Group(trades, key, zone) + (if key in KeysOf(t, zone) then [t] else []) {
      GroupSnoc(trades, t, key, zone);
      KeyListed(t, key, zone);
    }
  }

  function SliceOf(key: Key, values: seq<TradeFacts>): Slice {
    var pnl := Map(values, (t: TradeFacts) => t.netPnl);
    Slice(key.0, key.1, |values|, |Winners(pnl)|, Expectancy(pnl), Sum(pnl))
  }

  /** Python's order of the (dimension, bucket) pairs; the constructors stand in the order of their names. */
  function Rank(d: Dimension): nat {
    match d
    case AtrRegime => 0
    case RvolRegime => 1
    case ScoreBucket => 2
    case Sector => 3
    case Strategy => 4
    case TimeOfDay => 5
  }

  predicate KeyAtMost(a: Key, b: Key) { Rank(a.0) < Rank(b.0) || (Rank(a.0) == Rank(b.0) && AtMost(a.1, b.1)) }

  lemma KeyOrder()
    ensures TotalPreorder(KeyAtMost)
  {
    forall x: Key, y: Key ensures KeyAtMost(x, y) || KeyAtMost(y, x) {
      Trichotomy(x.1, y.1);
    }
    forall x: Key, y: Key, z: Key | KeyAtMost(x, y) && KeyAtMost(y, z) ensures KeyAtMost(x, z) {
      if Rank(x.0) == Rank(y.0) == Rank(z.0) { AtMostTransitive(x.1, y.1, z.1); }
    }
  }

  method GroupTrades(trades: seq<TradeFacts>, zone: Zone) returns (groups: Groups)
    ensures Grouped(groups, trades, zone)
  {
    hide BucketOf, KeysOf, Appended;
    groups := map[];
    for n := 0 to |trades|
      invariant Grouped(groups, trades[..n], zone)
    {
      AppendedGrouped(groups, trades[..n], trades[n], zone);
      assert trades[..n + 1] == trades[..n] + [trades[n]];
      groups := Appended(groups, KeysOf(trades[n], zone), trades[n]);
    }
    assert trades[..|trades|] == trades;
  }

  ghost predicate Distinct(keys: seq<Key>) { forall i, j :: 0 <= i < j < |keys| ==> keys[i] != keys[j] }

  method SortedKeys(groups: Groups) returns (keys: seq<Key>)
    ensures Distinct(keys) && forall key :: key in keys <==> key in groups
    ensures SortedBy(keys, KeyAtMost)
  {
    var remaining, listed := groups.Keys, [];
    while remaining != {}
      invariant forall key :: key in listed <==> key in groups && key !in remaining
      invariant remaining <= groups.Keys && Distinct(listed)
      decreases remaining
    {
      if forall x :: x !in remaining { assert false; }
      var key :| key in remaining;
      listed := listed + [key];
      remaining := remaining - {key};
    }
    KeyOrder();
    StableSortSorted(listed, KeyAtMost);
    keys := StableSort(listed, KeyAtMost);
    StaysDistinct(listed, keys);
  }

  lemma StaysDistinct(a: seq<Key>, b: seq<Key>)
    requires Distinct(a) && multiset(a) == multiset(b)
    ensures Distinct(b)
  {
    forall i, j | 0 <= i < j < |b| ensures b[i] != b[j] {
      if b[i] == b[j] {
        CountTwice(b, i, j);
        AtMostOnce(a, b[i]);
        assert false;
      }
    }
  }

  lemma CountTwice(b: seq<Key>, i: nat, j: nat)
    requires i < j < |b| && b[i] == b[j]
    ensures multiset(b)[b[i]] >= 2
  {
    assert b == b[..i] + [b[i]] + b[i + 1..j] + [b[j]] + b[j + 1..];
  }

  lemma {:induction false} AtMostOnce(a: seq<Key>, key: Key)
    requires Distinct(a)
    ensures multiset(a)[key] <= 1
  {
    if a != [] {
      assert a == [a[0]] + a[1..];
      AtMostOnce(a[1..], key);
      assert key == a[0] ==> key !in a[1..];
    }
  }

  function KeyOf(slice: Slice): Key { (slice.dimension, slice.bucket) }

  /** One slice for each nonempty group and no other, in order, with the figures of its group. */
  ghost predicate Breakdown(slices: seq<Slice>, trades: seq<TradeFacts>, zone: Zone) {
    var keys := Map(slices, KeyOf);
    && Distinct(keys) && SortedBy(keys, KeyAtMost)
    && (forall key :: key in keys <==> Group(trades, key, zone) != [])
    && forall i :: 0 <= i < |slices| ==> slices[i] == SliceOf(keys[i], Group(trades, keys[i], zone))
  }

  method Analyses(trades: seq<TradeFacts>, zone: Zone) returns (slices: seq<Slice>)
    ensures Breakdown(slices, trades, zone)
  {
    hide BucketOf, Group, SliceOf, KeyAtMost, Breakdown;
    var groups := GroupTrades(trades, zone);
    var order := SortedKeys(groups);
    slices := [];
    for i := 0 to |order|
      invariant |slices| == i
      invariant forall k :: 0 <= k < i ==> slices[k] == SliceOf(order[k], Group(trades, order[k], zone))
    {
      assert order[i] in groups;
      slices := slices + [SliceOf(order[i], groups[order[i]])];
    }
    SlicesBreakDown(slices, order, trades, zone);
  }

  lemma SlicesBreakDown(slices: seq<Slice>, keys: seq<Key>, trades: seq<TradeFacts>, zone: Zone)
    requires Distinct(keys) && SortedBy(keys, KeyAtMost) && |slices| == |keys|
    requires forall key :: key in keys <==> Group(trades, key, zone) != []
    requires forall i :: 0 <= i < |keys| ==> slices[i] == SliceOf(keys[i], Group(trades, keys[i], zone))
    ensures Breakdown(slices, trades, zone)
  {
    hide Group, KeyAtMost, Expectancy, Winners, Sum;
    assert Map(slices, KeyOf) == keys;
  }

  // ------------------------------------------------------------------ the breakdown adds up

  function Weighted(trades: seq<TradeFacts>, w: TradeFacts -> real): real {
    if trades == [] then 0.0 else w(trades[0]) + Weighted(trades[1..], w)
  }

  /** Weight of all listed groups of one dimension. */
  function DimensionTotal(
      keys: seq<Key>, d: Dimension, trades: seq<TradeFacts>, zone: Zone, w: TradeFacts -> real): real
  {
    if keys == [] then 0.0
    else (if keys[0].0 == d then Weighted(Group(trades, keys[0], zone), w) else 0.0) +
         DimensionTotal(keys[1..], d, trades, zone, w)
  }

  lemma {:induction false} NoTradesNoTotal(keys: seq<Key>, d: Dimension, zone: Zone, w: TradeFacts -> real)
    ensures DimensionTotal(keys, d, [], zone, w) == 0.0
  {
    if keys != [] { NoTradesNoTotal(keys[1..], d, zone, w); }
  }

  lemma GroupCons(t: TradeFacts, rest: seq<TradeFacts>, key: Key, zone: Zone, w: TradeFacts -> real)
    ensures Weighted(Group([t] + rest, key, zone), w) ==
            (if BucketOf(key.0, t, zone) == key.1 then w(t) else 0.0) + Weighted(Group(rest, key, zone), w)
  {
    hide BucketOf;
    assert ([t] + rest)[1..] == rest;
  }

  /** A trade counts once in a dimension whose keys are distinct and list its bucket, else not at all. */
  lemma {:induction false} TotalCons(
      keys: seq<Key>, d: Dimension, t: TradeFacts, rest: seq<TradeFacts>, zone: Zone, w: TradeFacts -> real)
    requires Distinct(keys)
    ensures DimensionTotal(keys, d, [t] + rest, zone, w) ==
            DimensionTotal(keys, d, rest, zone, w) + (if (d, BucketOf(d, t, zone)) in keys then w(t) else 0.0)
  {
    if keys != [] {
      hide BucketOf, Group, Weighted;
      TotalCons(keys[1..], d, t, rest, zone, w);
      GroupCons(t, rest, keys[0], zone, w);
      var key := (d, BucketOf(d, t, zone));
      assert key in keys <==> key == keys[0] || key in keys[1..];
      assert key == keys[0] ==> key !in keys[1..];
    }
  }

  /** Over distinct keys that list every bucket, each dimension sums to the whole run. */
  lemma {:induction false} DimensionAddsUp(
      keys: seq<Key>, d: Dimension, trades: seq<TradeFacts>, zone: Zone, w: TradeFacts -> real)
    requires Distinct(keys) && forall i :: 0 <= i < |trades| ==> (d, BucketOf(d, trades[i], zone)) in keys
    ensures DimensionTotal(keys, d, trades, zone, w) == Weighted(trades, w)
  {
    hide BucketOf;
    if trades == [] {
      NoTradesNoTotal(keys, d, zone, w);
    } else {
      DimensionAddsUp(keys, d, trades[1..], zone, w);
      assert trades == [trades[0]] + trades[1..];
      TotalCons(keys, d, trades[0], trades[1..], zone, w);
    }
  }

  function One(t: TradeFacts): real { 1.0 }
  function Win(t: TradeFacts): real { if t.netPnl > 0.0 then 1.0 else 0.0 }
  function Net(t: TradeFacts): real { t.netPnl }

  /** The three figures of a slice are the weights of its group. */
  lemma {:induction false} SliceWeights(key: Key, values: seq<TradeFacts>)
    ensures SliceOf(key, values).trades as real == Weighted(values, One)
    ensures SliceOf(key, values).wins as real == Weighted(values, Win)
    ensures SliceOf(key, values).netPnl == Weighted(values, Net)
  {
    hide Expectancy;
    if values != [] {
      SliceWeights(key, values[1..]);
      var pnl := Map(values, (t: TradeFacts) => t.netPnl);
      var rest := Map(values[1..], (t: TradeFacts) => t.netPnl);
      assert pnl == [values[0].netPnl] + rest;
      assert pnl[1..] == rest;
    }
  }

  function SliceTrades(slices: seq<Slice>, d: Dimension): real {
    if slices == [] then 0.0
    else (if slices[0].dimension == d then slices[0].trades as real else 0.0) + SliceTrades(slices[1..], d)
  }

  function SliceWins(slices: seq<Slice>, d: Dimension): real {
    if slices == [] then 0.0
    else (if slices[0].dimension == d then slices[0].wins as real else 0.0) + SliceWins(slices[1..], d)
  }

  function SliceNet(slices: seq<Slice>, d: Dimension): real {
    if slices == [] then 0.0
    else (if slices[0].dimension == d then slices[0].netPnl else 0.0) + SliceNet(slices[1..], d)
  }

  lemma {:induction false} SliceTotals(
      slices: seq<Slice>, keys: seq<Key>, trades: seq<TradeFacts>, zone: Zone, d: Dimension)
    requires |slices| == |keys|
    requires forall i :: 0 <= i < |keys| ==> slices[i] == SliceOf(keys[i], Group(trades, keys[i], zone))
    ensures SliceTrades(slices, d) == DimensionTotal(keys, d, trades, zone, One)
    ensures SliceWins(slices, d) == DimensionTotal(keys, d, trades, zone, Win)
    ensures SliceNet(slices, d) == DimensionTotal(keys, d, trades, zone, Net)
  {
    if keys != [] {
      hide Group, Expectancy, Winners, Sum, Weighted;
      assert slices[0].dimension == keys[0].0;
      SliceTotals(slices[1..], keys[1..], trades, zone, d);
      SliceWeights(keys[0], Group(trades, keys[0], zone));
    }
  }

  /** In every dimension the counts, wins and net results of the slices sum to those of the run. */
  lemma BreakdownAddsUp(slices: seq<Slice>, trades: seq<TradeFacts>, zone: Zone, d: Dimension)
    requires Breakdown(slices, trades, zone)
    ensures var pnl := Map(trades, (t: TradeFacts) => t.netPnl);
            && SliceTrades(slices, d) == |trades| as real
            && SliceWins(slices, d) == |Winners(pnl)| as real
            && SliceNet(slices, d) == Sum(pnl)
  {
    hide Expectancy, Winners, Sum, BucketOf, DimensionTotal, Weighted;
    var keys := Map(slices, KeyOf);
    forall i | 0 <= i < |trades| ensures (d, BucketOf(d, trades[i], zone)) in keys {
      BucketListed(trades, i, d, zone);
    }
    SliceTotals(slices, keys, trades, zone, d);
    DimensionAddsUp(keys, d, trades, zone, One);
    DimensionAddsUp(keys, d, trades, zone, Win);
    DimensionAddsUp(keys, d, trades, zone, Net);
    SliceWeights((d, ""), trades);
    CountIsWeight(trades);
  }

  lemma {:induction false} CountIsWeight(trades: seq<TradeFacts>)
    ensures Weighted(trades, One) == |trades| as real
  {
    if trades != [] { CountIsWeight(trades[1..]); }
  }

  lemma BucketListed(trades: seq<TradeFacts>, i: nat, d: Dimension, zone: Zone)
    requires i < |trades|
    ensures Group(trades, (d, BucketOf(d, trades[i], zone)), zone) != []
  {
    hide BucketOf;
    assert trades[i] in Group(trades, (d, BucketOf(d, trades[i], zone)), zone);
  }
}
