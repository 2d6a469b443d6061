/** When discovery raises which reason: one exact condition for each, said of the input alone
    (services/scanner/app/discovery.py:84-214). */
module DiscoveryReasons {
  import opened Lists
  import Clock
  import opened Discovery

  // ------------------------------------------------------------------ texts

  /** `t` is `s` without blanks at either end. */
  ghost predicate Trimmed(s: string, t: string) {
    && (t == [] || (!Blank(t[0]) && !Blank(t[|t| - 1])))
    && exists i, j :: 0 <= i <= j <= |s| && t == s[i..j] &&
                      (forall k :: 0 <= k < i ==> Blank(s[k])) && (forall k :: j <= k < |s| ==> Blank(s[k]))
  }

  lemma TrimmedFront(s: string, t: string)
    requires s != [] && Blank(s[0]) && Trimmed(s[1..], t)
    ensures Trimmed(s, t)
  {
    hide Blank;
    var i, j :| 0 <= i <= j <= |s| - 1 && t == s[1..][i..j] &&
                (forall k :: 0 <= k < i ==> Blank(s[1..][k])) && (forall k :: j <= k < |s| - 1 ==> Blank(s[1..][k]));
    assert t == s[i + 1..j + 1];
    forall k | 0 <= k < i + 1 || j + 1 <= k < |s| ensures Blank(s[k]) {
      if k > 0 { assert s[1..][k - 1] == s[k]; }
    }
  }

  lemma TrimmedBack(s: string, t: string)
    requires s != [] && Blank(s[|s| - 1]) && Trimmed(s[..|s| - 1], t)
    ensures Trimmed(s, t)
  {
    hide Blank;
    var n := |s| - 1;
    var i, j :| 0 <= i <= j <= n && t == s[..n][i..j] &&
                (forall k :: 0 <= k < i ==> Blank(s[..n][k])) && (forall k :: j <= k < n ==> Blank(s[..n][k]));
    assert t == s[i..j];
    forall k | 0 <= k < i || j <= k < |s| ensures Blank(s[k]) {
      if k < n { assert s[..n][k] == s[k]; }
    }
  }

  lemma {:induction false} StripTrims(s: string)
    ensures Trimmed(s, Strip(s))
    decreases |s|
  {
    hide Blank;
    if s == [] {
      assert s[0..0] == [];
    } else if Blank(s[0]) {
      StripTrims(s[1..]);
      hide Trimmed;
      TrimmedFront(s, Strip(s));
    } else if Blank(s[|s| - 1]) {
      StripTrims(s[..|s| - 1]);
      hide Trimmed;
      TrimmedBack(s, Strip(s));
    } else {
      assert s[0..|s|] == s;
    }
  }

  lemma {:induction false} UpperMaps(s: string)
    ensures |Upper(s)| == |s|
    ensures forall i :: 0 <= i < |s| ==>
      Upper(s)[i] == if 'a' <= s[i] <= 'z' then 'A' + (s[i] - 'a') else s[i]
  {
    if s != [] {
      UpperMaps(s[1..]);
    }
  }

  // ------------------------------------------------------------------ lists of reasons

  lemma Raised(x: Reason, reasons: seq<Reason>, c: bool, y: Reason)
    ensures x in reasons + When(c, y) <==> x in reasons || (c && x == y)
  {
  }

  lemma Raised3(x: Reason, a: bool, p: Reason, b: bool, q: Reason, c: bool, r: Reason)
    ensures x in When(a, p) + When(b, q) + When(c, r) <==> (a && x == p) || (b && x == q) || (c && x == r)
  {
    assert x in When(a, p) <==> a && x == p;
    hide When;
    Raised(x, When(a, p), b, q);
    Raised(x, When(a, p) + When(b, q), c, r);
  }

  lemma Raised6(x: Reason, a: bool, p: Reason, b: bool, q: Reason, c: bool, r: Reason, d: bool, s: Reason,
                e: bool, t: Reason, f: bool, u: Reason)
    ensures x in When(a, p) + When(b, q) + When(c, r) + When(d, s) + When(e, t) + When(f, u) <==>
            || (a && x == p) || (b && x == q) || (c && x == r) || (d && x == s) || (e && x == t) || (f && x == u)
  {
    Raised3(x, a, p, b, q, c, r);
    hide When;
    var three := When(a, p) + When(b, q) + When(c, r);
    Raised(x, three, d, s);
    Raised(x, three + When(d, s), e, t);
    Raised(x, three + When(d, s) + When(e, t), f, u);
  }

  lemma Raised8(x: Reason, a: bool, p: Reason, b: bool, q: Reason, c: bool, r: Reason, d: bool, s: Reason,
                e: bool, t: Reason, f: bool, u: Reason, g: bool, y: Reason, h: bool, z: Reason)
    ensures x in When(a, p) + When(b, q) + When(c, r) + When(d, s) + When(e, t) + When(f, u) + When(g, y) + When(h, z)
            <==>
            || (a && x == p) || (b && x == q) || (c && x == r) || (d && x == s) || (e && x == t) || (f && x == u)
            || (g && x == y) || (h && x == z)
  {
    Raised6(x, a, p, b, q, c, r, d, s, e, t, f, u);
    hide When;
    var six := When(a, p) + When(b, q) + When(c, r) + When(d, s) + When(e, t) + When(f, u);
    Raised(x, six, g, y);
    Raised(x, six + When(g, y), h, z);
  }

  // ------------------------------------------------------------------ identity

  predicate RightMarket(v: Input) {
    && v.identity.market == v.market && v.calendar.market == v.market
    && v.policyVersion == (if v.market == CaTsx then CaDiscoveryV1 else UsDiscoveryV1)
  }

  predicate RightExchange(v: Input) {
    match v.market
    case CaTsx => v.identity.exchange == "TSX"
    case UsEquities => v.identity.exchange == "NYSE" || v.identity.exchange == "NASDAQ"
  }

  /** The provider's names of an exchange. */
  predicate SameExchange(market: Market, exchange: string, provider: string) {
    match market
    case CaTsx => exchange == "TSX" && (provider == "TO" || provider == "TSX")
    case UsEquities =>
      || (exchange == "NASDAQ" && (provider == "XNAS" || provider == "NASDAQ"))
      || (exchange == "NYSE" && (provider == "XNYS" || provider == "NYSE"))
  }

  predicate RightMapping(v: Input) {
    && v.identity.symbol == (if v.market == CaTsx then v.providerCode + ".TO" else v.providerCode)
    && SameExchange(v.market, v.identity.exchange, Upper(Strip(v.providerExchange)))
  }

  predicate RightCurrency(v: Input) {
    match v.market
    case CaTsx => v.identity.currency == Cad && v.marketCap.currency == Cad
    case UsEquities => v.identity.currency == Usd && v.marketCap.currency == Usd
  }

  predicate MetadataKnown(v: Input) {
    && v.identity.observedAt <= v.evaluationAt && v.marketCap.observedAt <= v.evaluationAt
    && v.calendar.observedAt <= v.evaluationAt && v.adjustment.observedAt <= v.evaluationAt
  }

  predicate IdentityFault(v: Input, x: Reason) {
    match x
    case MarketMismatch => !RightMarket(v)
    case ExchangeNotAllowed => !RightExchange(v)
    case MappingUnavailable => !RightMapping(v)
    case CurrencyNotAllowed => !RightCurrency(v)
    case ClassificationReviewRequired => v.identity.classification != CommonStockReviewed
    case FutureObservation => !MetadataKnown(v)
    case _ => false
  }

  lemma IdentityReasonsListed(v: Input)
    ensures IdentityReasons(v) ==
            When(!RightMarket(v), MarketMismatch) + When(!RightExchange(v), ExchangeNotAllowed) +
            When(!RightMapping(v), MappingUnavailable) + When(!RightCurrency(v), CurrencyNotAllowed) +
            When(v.identity.classification != CommonStockReviewed, ClassificationReviewRequired) +
            When(!MetadataKnown(v), FutureObservation)
  {
    hide Upper, Strip, When;
  }

  lemma IdentityFaultListed(v: Input, x: Reason)
    ensures IdentityFault(v, x) <==>
            || (!RightMarket(v) && x == MarketMismatch) || (!RightExchange(v) && x == ExchangeNotAllowed)
            || (!RightMapping(v) && x == MappingUnavailable) || (!RightCurrency(v) && x == CurrencyNotAllowed)
            || (v.identity.classification != CommonStockReviewed && x == ClassificationReviewRequired)
            || (!MetadataKnown(v) && x == FutureObservation)
  {
    hide RightMarket, RightExchange, RightMapping, RightCurrency, MetadataKnown;
  }

  /** Each identity reason is raised exactly for its fault, and there are no others. */
  lemma IdentityReasonsExactly(v: Input, x: Reason)
    ensures x in IdentityReasons(v) <==> IdentityFault(v, x)
  {
    hide *;
    IdentityReasonsListed(v);
    IdentityFaultListed(v, x);
    Raised6(x, !RightMarket(v), MarketMismatch, !RightExchange(v), ExchangeNotAllowed, !RightMapping(v),
            MappingUnavailable, !RightCurrency(v), CurrencyNotAllowed,
            v.identity.classification != CommonStockReviewed, ClassificationReviewRequired,
            !MetadataKnown(v), FutureObservation);
  }

  /** Missing capitalization, or one of another source. */
  lemma CapReasonsExactly(v: Input)
    ensures var w := CapPart(v);
            && (MetadataUnavailable in w.reasons <==>
                  v.marketCap.source != v.identity.source || v.marketCap.value.None? || v.marketCap.value.value < 0.0)
            && (InvalidBar in w.reasons <==>
                  && v.marketCap.value.Some? && 0.0 <= v.marketCap.value.value
                  && v.marketCap.observedAt <= v.evaluationAt && !FiniteDouble(v.marketCap.value.value))
            && (forall x :: x in w.reasons ==> x in {MetadataUnavailable, InvalidBar})
            && (MarketCap in w.metrics <==>
                  && v.marketCap.value.Some? && 0.0 <= v.marketCap.value.value
                  && v.marketCap.observedAt <= v.evaluationAt && FiniteDouble(v.marketCap.value.value))
            && (MarketCap in w.metrics ==>
                  w.metrics[MarketCap] == Metric(v.marketCap.value.value, v.marketCap.observedAt))
            && (forall f :: f in w.metrics ==> f == MarketCap)
  {
    hide FiniteDouble;
  }

  // ------------------------------------------------------------------ calendar and boundary

  lemma {:induction false} NeighboursApart(sessions: seq<CalendarSession>, i: nat, j: nat)
    requires i < j < |sessions|
    requires forall k :: 0 <= k < |sessions| ==> sessions[k].open < sessions[k].close
    requires forall k :: 0 < k < |sessions| ==> sessions[k - 1].close < sessions[k].open
    ensures sessions[i].close < sessions[j].open
    decreases j
  {
    if i < j - 1 {
      NeighboursApart(sessions, i, j - 1);
    }
  }

  /** Each session opens before it closes, both on its own date. */
  ghost predicate OnItsDate(zone: Clock.Zone, s: CalendarSession) {
    s.open < s.close && LocalDate(zone, s.open) == s.tradingDate && LocalDate(zone, s.close) == s.tradingDate
  }

  /** A calendar is in order exactly if it is verified, each session lies on its date, and, in order of opening, every
      session closes before every later one opens and has a date of its own. */
  lemma CalendarExactly(v: Input, zone: Clock.Zone)
    ensures var s := SortedSessions(v);
            && Ascending(s, OpenOf) && multiset(s) == multiset(v.calendar.sessions)
            && (CalendarOk(v, zone) <==>
                  && v.calendar.verified
                  && (forall i :: 0 <= i < |s| ==> OnItsDate(zone, s[i]))
                  && (forall i, j :: 0 <= i < j < |s| ==>
                        s[i].close < s[j].open && s[i].tradingDate != s[j].tradingDate))
  {
    hide LocalDate;
    SortByKeySorts(v.calendar.sessions, OpenOf);
    var s := SortedSessions(v);
    if CalendarOk(v, zone) {
      forall k | 0 <= k < |s| ensures OnItsDate(zone, s[k]) && (k > 0 ==> s[k - 1].close < s[k].open) {
        assert SessionOk(zone, s, k);
      }
      forall i, j | 0 <= i < j < |s| ensures s[i].close < s[j].open {
        NeighboursApart(s, i, j);
      }
    } else if v.calendar.verified && forall i :: 0 <= i < |s| ==> OnItsDate(zone, s[i]) {
      if forall i, j :: 0 <= i < j < |s| ==> s[i].close < s[j].open && s[i].tradingDate != s[j].tradingDate {
        forall k | 0 <= k < |s| ensures SessionOk(zone, s, k) {
          assert OnItsDate(zone, s[k]);
        }
      }
    }
  }

  /** The session of the trading date, if the calendar has one. */
  lemma CurrentExactly(v: Input)
    ensures Current(v).Some? <==> exists s :: s in v.calendar.sessions && s.tradingDate == v.tradingDate
    ensures Current(v).Some? ==>
      Current(v).value in v.calendar.sessions && Current(v).value.tradingDate == v.tradingDate
  {
    hide FindSession;
    SortByKeySorts(v.calendar.sessions, OpenOf);
    forall s ensures s in SortedSessions(v) <==> s in v.calendar.sessions {
      assert s in SortedSessions(v) <==> s in multiset(SortedSessions(v));
      assert s in v.calendar.sessions <==> s in multiset(v.calendar.sessions);
    }
  }

  /** The bar ends a whole number of five minutes after the open, by the close, and is the last one that had ended, at
      least fifteen seconds ago. */
  ghost predicate LatestBoundary(v: Input, current: CalendarSession) {
    && (exists k :: 1 <= k && v.completedBarEnd == current.open + k * FIVE_MINUTES)
    && v.completedBarEnd <= current.close
    && v.completedBarEnd + 15 * SECOND <= v.evaluationAt < v.completedBarEnd + FIVE_MINUTES
  }

  lemma BoundaryExactly(v: Input)
    ensures BoundaryOk(v) <==> Current(v).Some? && LatestBoundary(v, Current(v).value)
  {
    hide Current;
    if Current(v).Some? {
      var open := Current(v).value.open;
      var elapsed, since := v.completedBarEnd - open, v.evaluationAt - open;
      Multiples(elapsed, since);
      if elapsed >= FIVE_MINUTES && elapsed % FIVE_MINUTES == 0 {
        assert v.completedBarEnd == open + elapsed / FIVE_MINUTES * FIVE_MINUTES;
      }
    }
  }

  lemma Multiples(elapsed: int, since: int)
    ensures elapsed >= FIVE_MINUTES && elapsed % FIVE_MINUTES == 0 ==> elapsed / FIVE_MINUTES >= 1
    ensures elapsed == elapsed / FIVE_MINUTES * FIVE_MINUTES + elapsed % FIVE_MINUTES
    ensures forall k :: elapsed == k * FIVE_MINUTES ==> elapsed % FIVE_MINUTES == 0
    ensures elapsed % FIVE_MINUTES == 0 ==>
      (since / FIVE_MINUTES * FIVE_MINUTES == elapsed <==> elapsed <= since < elapsed + FIVE_MINUTES)
  {
  }

  ghost predicate SessionFault(v: Input, zone: Clock.Zone, x: Reason) {
    var current := Current(v);
    match x
    case CalendarUnverified => !CalendarOk(v, zone) || current.None?
    case OutsideRegularSession =>
      current.Some? && !(current.value.open <= v.evaluationAt && v.evaluationAt < current.value.close)
    case InvalidEvaluationBoundary => current.Some? && !LatestBoundary(v, current.value)
    case _ => false
  }

  /** Each session reason is raised exactly for its fault, and there are no others. */
  lemma SessionReasonsExactly(v: Input, zone: Clock.Zone, x: Reason)
    ensures x in SessionReasons(v, zone) <==> SessionFault(v, zone, x)
  {
    hide CalendarOk, Current, LatestBoundary, BoundaryOk;
    BoundaryExactly(v);
  }

  // ------------------------------------------------------------------ quote

  predicate PricedWithin(v: Input, q: DiscoveryQuote) {
    Current(v).Some? && q.priceAt.Some? ==>
      Current(v).value.open <= q.priceAt.value < Current(v).value.close
  }

  predicate Unknown(v: Input, q: DiscoveryQuote) {
    q.delayed.None? || q.halted.None? || q.source != v.identity.source
  }

  predicate OutOfHours(v: Input, q: DiscoveryQuote) { q.session != Regular || !PricedWithin(v, q) }

  predicate FromTheFuture(at: Micros, q: DiscoveryQuote) {
    at < q.observedAt || (q.priceAt.Some? && (at < q.priceAt.value || q.observedAt < q.priceAt.value))
  }

  predicate TooOld(at: Micros, q: DiscoveryQuote) {
    q.priceAt.None? || q.observedAt + 30 * SECOND < at || q.priceAt.value + 30 * SECOND < at
  }

  predicate Unpriced(price: Option<real>) { price.None? || price.value <= 0.0 }

  predicate QuoteFault(v: Input, q: DiscoveryQuote, x: Reason) {
    match x
    case QuoteUnavailable => Unknown(v, q) || Unpriced(q.price)
    case QuoteDelayed => q.delayed == Some(true)
    case QuoteHalted => q.halted == Some(true)
    case OutsideRegularSession => OutOfHours(v, q)
    case FutureObservation => FromTheFuture(v.evaluationAt, q)
    case QuoteStale => TooOld(v.evaluationAt, q)
    case InvalidOpen => Unpriced(q.open)
    case _ => false
  }

  lemma QuoteReasonsListed(v: Input, q: DiscoveryQuote)
    ensures QuoteReasons(v, q) ==
            When(Unknown(v, q), QuoteUnavailable) + When(q.delayed == Some(true), QuoteDelayed) +
            When(q.halted == Some(true), QuoteHalted) + When(OutOfHours(v, q), OutsideRegularSession) +
            When(FromTheFuture(v.evaluationAt, q), FutureObservation) + When(TooOld(v.evaluationAt, q), QuoteStale) +
            When(Unpriced(q.price), QuoteUnavailable) + When(Unpriced(q.open), InvalidOpen)
  {
    hide Current, When;
  }

  /** Each quote reason is raised exactly for its fault, and there are no others. */
  lemma QuoteReasonsExactly(v: Input, q: DiscoveryQuote, x: Reason)
    ensures x in QuoteReasons(v, q) <==> QuoteFault(v, q, x)
  {
    QuoteReasonsListed(v, q);
    hide When, QuoteReasons, Unknown, OutOfHours, FromTheFuture, TooOld, Unpriced;
    var at := v.evaluationAt;
    Raised8(x, Unknown(v, q), QuoteUnavailable, q.delayed == Some(true), QuoteDelayed, q.halted == Some(true),
            QuoteHalted, OutOfHours(v, q), OutsideRegularSession, FromTheFuture(at, q), FutureObservation,
            TooOld(at, q), QuoteStale, Unpriced(q.price), QuoteUnavailable, Unpriced(q.open), InvalidOpen);
  }

  // ------------------------------------------------------------------ bars

  predicate Possible(bar: HistoryValues) {
    && 0.0 < bar.low && bar.low <= bar.open && bar.low <= bar.close
    && bar.open <= bar.high && bar.close <= bar.high && 0.0 <= bar.volume
  }

  predicate BarFault(v: Input, bar: HistoryValues, end: Micros, x: Reason) {
    match x
    case InvalidBar => !bar.complete || bar.observedAt < end || !Possible(bar)
    case FutureObservation => v.evaluationAt < bar.observedAt || v.evaluationAt < end
    case AdjustmentUnverified =>
      || bar.source != v.identity.source || bar.adjustmentRevision != v.adjustment.revision
      || !v.adjustment.verified || v.adjustment.convention == UnknownConvention || v.adjustment.unresolvedAction
    case _ => false
  }

  /** Each bar reason is raised exactly for its fault, and there are no others. */
  lemma BarReasonsExactly(v: Input, bar: HistoryValues, end: Micros, x: Reason)
    ensures x in BarReasons(v, bar, end) <==> BarFault(v, bar, end, x)
  {
  }
}
