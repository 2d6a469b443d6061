/** What the context score, the two rankings and the research projection are, each said without its computation
    (contracts/src/domains/scoring.ts:226-440). */
module RankingLaws {
  import opened Lists
  import opened Ranking

  // ------------------------------------------------------------------ the context score

  /** A context of the symbol that says something. */
  predicate Speaks(c: Context, symbol: string) {
    c.symbol == symbol && c.status in {Weak, Neutral, Strong}
  }

  function Speaking(contexts: seq<Context>, symbol: string): nat {
    if contexts == [] then 0
    else (if Speaks(contexts[0], symbol) then 1 else 0) + Speaking(contexts[1..], symbol)
  }

  function Points(contexts: seq<Context>, symbol: string): nat {
    if contexts == [] then 0
    else (if Speaks(contexts[0], symbol) then contexts[0].contextScore else 0) + Points(contexts[1..], symbol)
  }

  lemma {:induction false} UsableCounted(contexts: seq<Context>, symbol: string)
    ensures |UsableScores(contexts, symbol)| == Speaking(contexts, symbol)
    ensures Sum(UsableScores(contexts, symbol)) == Points(contexts, symbol) as real
  {
    if contexts != [] {
      UsableCounted(contexts[1..], symbol);
      var usable := (c: Context) => Usable(c, symbol);
      var score := (c: Context) => c.contextScore as real;
      var rest := Filter(contexts[1..], usable);
      if usable(contexts[0]) {
        assert Map([contexts[0]] + rest, score) == [score(contexts[0])] + Map(rest, score);
        assert ([score(contexts[0])] + Map(rest, score))[1..] == Map(rest, score);
      }
    }
  }

  /** With halves upwards, rounding puts twice the number between twice the integer less one and plus one. */
  lemma RoundExactly(x: real, r: int)
    ensures Round(x) == r <==> (2 * r - 1) as real <= 2.0 * x < (2 * r + 1) as real
  {
  }

  lemma MeanDoubled(total: real, n: real, low: real, high: real)
    requires n > 0.0
    ensures low <= 2.0 * (total / n) < high <==> n * low <= 2.0 * total < n * high
  {
    var q := total / n;
    assert total == q * n;
    assert (2.0 * q - low) * n == 2.0 * total - n * low;
    assert (high - 2.0 * q) * n == n * high - 2.0 * total;
    SignOfProduct(2.0 * q - low, n);
    SignOfProduct(high - 2.0 * q, n);
  }

  lemma SignOfProduct(x: real, n: real)
    requires n > 0.0
    ensures x * n >= 0.0 <==> x >= 0.0
    ensures x * n > 0.0 <==> x > 0.0
  {
  }

  lemma WholeProduct(n: int, k: int)
    ensures (n * k) as real == (n as real) * (k as real)
  {
  }

  lemma RoundedQuotient(total: nat, n: nat, r: int)
    requires n > 0
    ensures Round((total as real) / (n as real)) == r <==> n * (2 * r - 1) <= 2 * total < n * (2 * r + 1)
  {
    var low, high := 2 * r - 1, 2 * r + 1;
    RoundExactly((total as real) / (n as real), r);
    MeanDoubled(total as real, n as real, low as real, high as real);
    WholeProduct(n, low);
    WholeProduct(n, high);
    hide Round;
    var atLeast, below := n * low, n * high;
    assert atLeast <= 2 * total < below <==> atLeast as real <= 2.0 * (total as real) < below as real;
  }

  lemma ScoreAsQuotient(contexts: seq<Context>, symbol: string)
    ensures var n, total := Speaking(contexts, symbol), Points(contexts, symbol);
            ContextScoreForSymbol(contexts, symbol) == if n == 0 then 50 else Round((total as real) / (n as real))
  {
    UsableCounted(contexts, symbol);
    hide UsableScores, Speaking, Points, Round;
  }

  /** The score is the mean of the scores that count, rounded to the nearest integer with halves upwards, and no other
      number is; without any it is fifty. */
  lemma ScoreIsRoundedMean(contexts: seq<Context>, symbol: string, r: int)
    ensures var n, total := Speaking(contexts, symbol), Points(contexts, symbol);
            && (n == 0 ==> ContextScoreForSymbol(contexts, symbol) == 50)
            && (n > 0 ==> (ContextScoreForSymbol(contexts, symbol) == r <==>
                           n * (2 * r - 1) <= 2 * total < n * (2 * r + 1)))
  {
    hide *;
    ScoreAsQuotient(contexts, symbol);
    if Speaking(contexts, symbol) > 0 {
      RoundedQuotient(Points(contexts, symbol), Speaking(contexts, symbol), r);
    }
  }

  lemma {:induction false} CountedWithout(contexts: seq<Context>, symbol: string, i: nat)
    requires i < |contexts|
    ensures var rest := contexts[..i] + contexts[i + 1..];
            && Speaking(contexts, symbol) == Speaking([contexts[i]] + rest, symbol)
            && Points(contexts, symbol) == Points([contexts[i]] + rest, symbol)
  {
    var rest := contexts[..i] + contexts[i + 1..];
    assert ([contexts[i]] + rest)[1..] == rest;
    if i == 0 {
      assert [contexts[0]] + rest == contexts;
    } else {
      CountedWithout(contexts[1..], symbol, i - 1);
      var later := contexts[1..][..i - 1] + contexts[1..][i..];
      assert ([contexts[i]] + later)[1..] == later;
      assert rest[1..] == later;
    }
  }

  lemma SameWithout<T>(a: seq<T>, b: seq<T>, i: nat)
    requires multiset(a) == multiset(b) && a != [] && i < |b| && b[i] == a[0]
    ensures multiset(a[1..]) == multiset(b[..i] + b[i + 1..])
  {
    assert a == [a[0]] + a[1..] && b == b[..i] + [b[i]] + b[i + 1..];
    assert multiset(a) == multiset{a[0]} + multiset(a[1..]);
    assert multiset(b) == multiset(b[..i]) + multiset{b[i]} + multiset(b[i + 1..]);
    assert multiset(a[1..]) == multiset(a) - multiset{a[0]};
    assert multiset(b[..i] + b[i + 1..]) == multiset(b) - multiset{a[0]};
  }

  lemma {:induction false} CountedAlike(a: seq<Context>, b: seq<Context>, symbol: string)
    requires multiset(a) == multiset(b)
    ensures Speaking(a, symbol) == Speaking(b, symbol) && Points(a, symbol) == Points(b, symbol)
  {
    if a == [] {
      assert |multiset(b)| == 0;
    } else {
      assert a[0] in multiset(a);
      SameElements(a, b);
      var i :| 0 <= i < |b| && b[i] == a[0];
      var rest := b[..i] + b[i + 1..];
      SameWithout(a, b, i);
      CountedWithout(b, symbol, i);
      CountedAlike(a[1..], rest, symbol);
      assert ([b[i]] + rest)[1..] == rest;
    }
  }

  /** The order of the contexts has no part in the score. */
  lemma ScoreIgnoresOrder(a: seq<Context>, b: seq<Context>, symbol: string)
    requires multiset(a) == multiset(b)
    ensures ContextScoreForSymbol(a, symbol) == ContextScoreForSymbol(b, symbol)
  {
    CountedAlike(a, b, symbol);
    ScoreIsRoundedMean(a, symbol, ContextScoreForSymbol(a, symbol));
    ScoreIsRoundedMean(b, symbol, ContextScoreForSymbol(a, symbol));
    hide ContextScoreForSymbol;
  }

  // ------------------------------------------------------------------ the live ranking

  const STAGES: seq<State> := [Ready, Forming, Watch, Inactive, Invalidated, Expired, Halted, DataStale]

  /** From ready to stale data. */
  ghost predicate Ahead(x: State, y: State) { exists i, j :: 0 <= i < j < 8 && STAGES[i] == x && STAGES[j] == y }

  lemma StatesInOrder(x: State, y: State)
    ensures StateRank(x) < StateRank(y) <==> Ahead(x, y)
    ensures StateRank(x) == StateRank(y) <==> x == y
  {
    if StateRank(x) < StateRank(y) {
      assert STAGES[StateRank(x)] == x && STAGES[StateRank(y)] == y;
    }
    forall i | 0 <= i < 8 ensures StateRank(STAGES[i]) == i {
    }
  }

  /** The fresher one first, then by symbol and profile. */
  predicate FresherOrNamedFirst(rank: Collation, a: Setup, b: Setup) {
    if a.timestamp != b.timestamp then b.timestamp < a.timestamp
    else if rank(a.symbol) != rank(b.symbol) then rank(a.symbol) < rank(b.symbol)
    else rank(a.profileId) <= rank(b.profileId)
  }

  /** By state, then the higher setup score, then the higher context score, then freshness and names. */
  ghost predicate LivePrecedes(rank: Collation, a: Ranked, b: Ranked) {
    if a.setup.state != b.setup.state then Ahead(a.setup.state, b.setup.state)
    else if a.setup.setupScore != b.setup.setupScore then b.setup.setupScore < a.setup.setupScore
    else if a.contextScore != b.contextScore then b.contextScore < a.contextScore
    else FresherOrNamedFirst(rank, a.setup, b.setup)
  }

  lemma LiveOrderExactly(rank: Collation, a: Ranked, b: Ranked)
    ensures LiveOrder(rank)(a, b) <==> LivePrecedes(rank, a, b)
  {
    StatesInOrder(a.setup.state, b.setup.state);
    hide StateRank, Ahead;
  }

  /** The live ranking holds every setup with its context score, each pair in order. */
  lemma LiveRankingExactly(rank: Collation, setups: seq<Setup>, contexts: seq<Context>)
    ensures var ranked := RankOpportunities(rank, setups, contexts);
            && multiset(Map(ranked, (r: Ranked) => r.setup)) == multiset(setups)
            && (forall i :: 0 <= i < |ranked| ==>
                  ranked[i].contextScore == ContextScoreForSymbol(contexts, ranked[i].setup.symbol))
            && (forall i, j :: 0 <= i < j < |ranked| ==> LivePrecedes(rank, ranked[i], ranked[j]))
  {
    hide ContextScoreForSymbol, CompareOpportunities, LivePrecedes;
    var scored := Map(setups, Scored(contexts));
    var ranked := RankOpportunities(rank, setups, contexts);
    LiveOrderIsTotalPreorder(rank);
    StableSortSorted(scored, LiveOrder(rank));
    SortKeepsMapped(scored, LiveOrder(rank), (r: Ranked) => r.setup);
    assert Map(scored, (r: Ranked) => r.setup) == setups;
    forall i | 0 <= i < |ranked|
      ensures ranked[i].contextScore == ContextScoreForSymbol(contexts, ranked[i].setup.symbol) {
      assert ranked[i] in scored;
    }
    forall i, j | 0 <= i < j < |ranked| ensures LivePrecedes(rank, ranked[i], ranked[j]) {
      LiveOrderExactly(rank, ranked[i], ranked[j]);
      assert LiveOrder(rank)(ranked[i], ranked[j]);
    }
  }

  // ------------------------------------------------------------------ the research projection

  /** What a mode lets context weigh. */
  predicate Weighs(setup: Setup, formula: Formula, w: real) {
    match formula.mode
    case TieBreaker => w == 0.0
    case BoundedContext => w == formula.contextWeight
    case SetupInteraction =>
      if setup.strategy in formula.strategyWeights then w == formula.strategyWeights[setup.strategy] else w == 0.0
  }

  /** `b` is `x` where the cap lets it be, and else the cap in its direction; a negative cap leaves its opposite. */
  predicate Capped(x: real, cap: real, b: real) {
    if cap < 0.0 then b == -cap
    else if x < -cap then b == -cap
    else if cap < x then b == cap
    else b == x
  }

  /** The adjustment is the nearest integer, halves upwards, of the capped distance from neutral; the ranking score is
      the setup's score with it, kept between nought and a hundred; and the setup itself stays as it is. */
  lemma ProjectionExactly(setup: Setup, contextScore: Score, formula: Formula, w: real, b: real)
    requires Weighs(setup, formula, w) && Capped((contextScore - 50) as real * w, formula.maxContextAdjustment, b)
    ensures var r := ProjectRankingResearch(setup, contextScore, formula);
            && r.setup == setup && r.contextScore == contextScore
            && (formula.mode == TieBreaker ==> r.contextAdjustment == 0)
            && (formula.mode != TieBreaker ==>
                  (2 * r.contextAdjustment - 1) as real <= 2.0 * b < (2 * r.contextAdjustment + 1) as real)
            && var moved := setup.setupScore + r.contextAdjustment;
               && (moved < 0 ==> r.rankingScore == 0) && (100 < moved ==> r.rankingScore == 100)
               && (0 <= moved <= 100 ==> r.rankingScore == moved)
  {
    hide Adjustment, Weighs, Capped;
    AdjustmentExactly(setup, contextScore, formula, w, b);
  }

  lemma AdjustmentExactly(setup: Setup, contextScore: Score, formula: Formula, w: real, b: real)
    requires Weighs(setup, formula, w) && Capped((contextScore - 50) as real * w, formula.maxContextAdjustment, b)
    ensures var r := Adjustment(setup, contextScore, formula);
            if formula.mode == TieBreaker then r == 0 else (2 * r - 1) as real <= 2.0 * b < (2 * r + 1) as real
  {
    BoundedAsCapped((contextScore - 50) as real * w, formula.maxContextAdjustment, b);
    RoundExactly(b, Round(b));
    hide BoundedAdjustment, Round, Capped;
    assert WeightFor(setup, formula) == w || formula.mode == TieBreaker;
  }

  lemma BoundedAsCapped(x: real, cap: real, b: real)
    requires Capped(x, cap, b)
    ensures b == BoundedAdjustment(x, cap)
  {
  }

  /** By state, then the higher ranking score, then as the live order. */
  ghost predicate ResearchPrecedes(rank: Collation, a: Researched, b: Researched) {
    if a.setup.state != b.setup.state then Ahead(a.setup.state, b.setup.state)
    else if a.rankingScore != b.rankingScore then b.rankingScore < a.rankingScore
    else if a.setup.setupScore != b.setup.setupScore then b.setup.setupScore < a.setup.setupScore
    else if a.contextScore != b.contextScore then b.contextScore < a.contextScore
    else FresherOrNamedFirst(rank, a.setup, b.setup)
  }

  lemma ResearchOrderExactly(rank: Collation, a: Researched, b: Researched)
    ensures ResearchOrder(rank)(a, b) <==> ResearchPrecedes(rank, a, b)
  {
    StatesInOrder(a.setup.state, b.setup.state);
    hide StateRank, Ahead;
  }

  /** The research ranking holds every setup's projection under its context score, each pair in order. */
  lemma ResearchRankingExactly(rank: Collation, setups: seq<Setup>, contexts: seq<Context>, formula: Formula)
    ensures var ranked := ResearchRankOpportunities(rank, setups, contexts, formula);
            && multiset(Map(ranked, (r: Researched) => r.setup)) == multiset(setups)
            && (forall i :: 0 <= i < |ranked| ==>
                  ranked[i] == ProjectRankingResearch(
                    ranked[i].setup, ContextScoreForSymbol(contexts, ranked[i].setup.symbol), formula))
            && (forall i, j :: 0 <= i < j < |ranked| ==> ResearchPrecedes(rank, ranked[i], ranked[j]))
  {
    hide ContextScoreForSymbol, CompareRankingResearch, ResearchPrecedes, Adjustment;
    var projected := Map(setups, Projection(contexts, formula));
    var ranked := ResearchRankOpportunities(rank, setups, contexts, formula);
    ResearchOrderIsTotalPreorder(rank);
    StableSortSorted(projected, ResearchOrder(rank));
    SortKeepsMapped(projected, ResearchOrder(rank), (r: Researched) => r.setup);
    assert Map(projected, (r: Researched) => r.setup) == setups;
    forall i | 0 <= i < |ranked|
      ensures ranked[i] == ProjectRankingResearch(
        ranked[i].setup, ContextScoreForSymbol(contexts, ranked[i].setup.symbol), formula) {
      assert ranked[i] in projected;
    }
    forall i, j | 0 <= i < j < |ranked| ensures ResearchPrecedes(rank, ranked[i], ranked[j]) {
      ResearchOrderExactly(rank, ranked[i], ranked[j]);
      assert ResearchOrder(rank)(ranked[i], ranked[j]);
    }
  }

  // ------------------------------------------------------------------ equals stay as they came

  lemma {:induction false} InsertedFirst<T(!new)>(x: T, s: seq<T>, le: (T, T) -> bool, equal: T -> bool)
    requires equal(x) ==> forall y :: y in s && equal(y) ==> le(x, y)
    ensures Filter(Insert(x, s, le), equal) == (if equal(x) then [x] else []) + Filter(s, equal)
  {
    if s == [] || le(x, s[0]) {
      assert ([x] + s)[1..] == s;
    } else {
      InsertedFirst(x, s[1..], le, equal);
      var rest := Insert(x, s[1..], le);
      assert ([s[0]] + rest)[1..] == rest;
    }
  }

  /** Elements that compare equal keep the order they came in. */
  lemma {:induction false} EqualsKeepTheirOrder<T(!new)>(s: seq<T>, le: (T, T) -> bool, equal: T -> bool)
    requires forall x, y :: x in s && y in s && equal(x) && equal(y) ==> le(x, y)
    ensures Filter(StableSort(s, le), equal) == Filter(s, equal)
  {
    if s != [] {
      EqualsKeepTheirOrder(s[1..], le, equal);
      SameElements(StableSort(s[1..], le), s[1..]);
      InsertedFirst(s[0], StableSort(s[1..], le), le, equal);
    }
  }
}
