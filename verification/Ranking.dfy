/** Ranking of setups (contracts/src/domains/scoring.ts): the live comparator, the research projections, and
    how far context can move a setup. */
module Ranking {
  import opened Lists

  datatype State = Ready | Forming | Watch | Inactive | Invalidated | Expired | Halted | DataStale

  type Score = n: int | 0 <= n <= 100

  datatype Setup = Setup(
    state: State, setupScore: Score, timestamp: int, symbol: string, profileId: string, strategy: string)

  datatype ContextStatus = Unavailable | Weak | Neutral | Strong | Stale
  datatype Context = Context(symbol: string, status: ContextStatus, contextScore: Score)

  datatype Mode = TieBreaker | BoundedContext | SetupInteraction

  datatype Formula = Formula(
    mode: Mode, contextWeight: real, maxContextAdjustment: real, strategyWeights: map<string, real>)

  datatype Ranked = Ranked(setup: Setup, contextScore: Score)

  datatype Researched = Researched(
    setup: Setup, contextScore: Score, rankingScore: Score, contextAdjustment: int)

  /** Locale comparison of texts: any total preorder of them is one by a real rank. */
  type Collation = string -> real

  const NEUTRAL: Score := 50

  function StateRank(state: State): nat {
    match state
    case Ready => 0
    case Forming => 1
    case Watch => 2
    case Inactive => 3
    case Invalidated => 4
    case Expired => 5
    case Halted => 6
    case DataStale => 7
  }

  /** `a || b` of two numbers. */
  function Or(first: real, second: real): real { if first != 0.0 then first else second }

  /** `Math.round`: to the nearest integer, halves upwards. */
  function Round(x: real): int { (x + 0.5).Floor }

  // ------------------------------------------------------------------ the comparators

  function CompareOpportunities(rank: Collation, a: Ranked, b: Ranked): real {
    Or((StateRank(a.setup.state) - StateRank(b.setup.state)) as real,
    Or((b.setup.setupScore - a.setup.setupScore) as real,
    Or((b.contextScore - a.contextScore) as real,
    Or((b.setup.timestamp - a.setup.timestamp) as real,
    Or(rank(a.setup.symbol) - rank(b.setup.symbol),
       rank(a.setup.profileId) - rank(b.setup.profileId))))))
  }

  function CompareRankingResearch(rank: Collation, a: Researched, b: Researched): real {
    Or((StateRank(a.setup.state) - StateRank(b.setup.state)) as real,
    Or((b.rankingScore - a.rankingScore) as real,
    Or((b.setup.setupScore - a.setup.setupScore) as real,
    Or((b.contextScore - a.contextScore) as real,
    Or((b.setup.timestamp - a.setup.timestamp) as real,
    Or(rank(a.setup.symbol) - rank(b.setup.symbol),
       rank(a.setup.profileId) - rank(b.setup.profileId)))))))
  }

  /** Lexicographic order of number lists: the first difference decides. */
  predicate LexAtMost(a: seq<real>, b: seq<real>)
    requires |a| == |b|
  {
    a == [] || a[0] < b[0] || (a[0] == b[0] && LexAtMost(a[1..], b[1..]))
  }

  lemma {:induction false} LexTotal(a: seq<real>, b: seq<real>)
    requires |a| == |b|
    ensures LexAtMost(a, b) || LexAtMost(b, a)
    ensures LexAtMost(a, b) && LexAtMost(b, a) ==> a == b
  {
    if a != [] {
      LexTotal(a[1..], b[1..]);
      assert a == [a[0]] + a[1..] && b == [b[0]] + b[1..];
    }
  }

  lemma {:induction false} LexTransitive(a: seq<real>, b: seq<real>, c: seq<real>)
    requires |a| == |b| == |c| && LexAtMost(a, b) && LexAtMost(b, c)
    ensures LexAtMost(a, c)
  {
    if a != [] && a[0] == b[0] == c[0] {
      LexTransitive(a[1..], b[1..], c[1..]);
    }
  }

  /** Negating turns a descending part of the order into an ascending one. */
  function LiveKey(rank: Collation, a: Ranked): (key: seq<real>)
    ensures |key| == 6
  {
    [StateRank(a.setup.state) as real, -(a.setup.setupScore as real)] + Remainder(rank, a.contextScore, a.setup)
  }

  function Remainder(rank: Collation, contextScore: Score, setup: Setup): (key: seq<real>)
    ensures |key| == 4
  {
    [-(contextScore as real), -(setup.timestamp as real), rank(setup.symbol), rank(setup.profileId)]
  }

  function ResearchKey(rank: Collation, a: Researched): (key: seq<real>)
    ensures |key| == 7
  {
    [StateRank(a.setup.state) as real, -(a.rankingScore as real), -(a.setup.setupScore as real)] +
    Remainder(rank, a.contextScore, a.setup)
  }

  lemma RemainderCompares(rank: Collation, x: Score, a: Setup, y: Score, b: Setup)
    ensures LexAtMost(Remainder(rank, x, a), Remainder(rank, y, b)) <==>
      Or((y - x) as real,
      Or((b.timestamp - a.timestamp) as real,
      Or(rank(a.symbol) - rank(b.symbol), rank(a.profileId) - rank(b.profileId)))) <= 0.0
  {
    var u, v := Remainder(rank, x, a), Remainder(rank, y, b);
    assert u[1..][1..] == u[2..] && v[1..][1..] == v[2..] && u[2..][1..] == u[3..] && v[2..][1..] == v[3..];
    assert LexAtMost(u[3..], v[3..]) <==> u[3] <= v[3];
    assert LexAtMost(u[2..], v[2..]) <==> u[2] < v[2] || (u[2] == v[2] && u[3] <= v[3]);
    assert LexAtMost(u[1..], v[1..]) <==> u[1] < v[1] || (u[1] == v[1] && LexAtMost(u[2..], v[2..]));
  }

  /** The live comparator orders by state, setup score, context, freshness, symbol and profile, in that order. */
  lemma LiveOrderIsLexicographic(rank: Collation, a: Ranked, b: Ranked)
    ensures CompareOpportunities(rank, a, b) <= 0.0 <==> LexAtMost(LiveKey(rank, a), LiveKey(rank, b))
  {
    RemainderCompares(rank, a.contextScore, a.setup, b.contextScore, b.setup);
    hide Remainder;
    var u, v := LiveKey(rank, a), LiveKey(rank, b);
    assert u[1..][1..] == Remainder(rank, a.contextScore, a.setup);
    assert v[1..][1..] == Remainder(rank, b.contextScore, b.setup);
  }

  lemma ResearchOrderIsLexicographic(rank: Collation, a: Researched, b: Researched)
    ensures CompareRankingResearch(rank, a, b) <= 0.0 <==> LexAtMost(ResearchKey(rank, a), ResearchKey(rank, b))
  {
    RemainderCompares(rank, a.contextScore, a.setup, b.contextScore, b.setup);
    hide Remainder;
    var u, v := ResearchKey(rank, a), ResearchKey(rank, b);
    assert u[1..][1..] == u[2..] && v[1..][1..] == v[2..];
    assert u[2..][1..] == Remainder(rank, a.contextScore, a.setup);
    assert v[2..][1..] == Remainder(rank, b.contextScore, b.setup);
    assert LexAtMost(u[1..], v[1..]) <==> u[1] < v[1] || (u[1] == v[1] && LexAtMost(u[2..], v[2..]));
  }

  function LiveOrder(rank: Collation): (Ranked, Ranked) -> bool {
    (a: Ranked, b: Ranked) => CompareOpportunities(rank, a, b) <= 0.0
  }

  function ResearchOrder(rank: Collation): (Researched, Researched) -> bool {
    (a: Researched, b: Researched) => CompareRankingResearch(rank, a, b) <= 0.0
  }

  lemma LiveOrderIsTotalPreorder(rank: Collation)
    ensures TotalPreorder(LiveOrder(rank))
  {
    hide CompareOpportunities, LiveKey, LexAtMost;
    var le := LiveOrder(rank);
    forall a, b ensures le(a, b) || le(b, a) {
      LiveOrderIsLexicographic(rank, a, b);
      LiveOrderIsLexicographic(rank, b, a);
      LexTotal(LiveKey(rank, a), LiveKey(rank, b));
    }
    forall a, b, c | le(a, b) && le(b, c) ensures le(a, c) {
      LiveOrderIsLexicographic(rank, a, b);
      LiveOrderIsLexicographic(rank, b, c);
      LiveOrderIsLexicographic(rank, a, c);
      LexTransitive(LiveKey(rank, a), LiveKey(rank, b), LiveKey(rank, c));
    }
  }

  lemma ResearchOrderIsTotalPreorder(rank: Collation)
    ensures TotalPreorder(ResearchOrder(rank))
  {
    hide CompareRankingResearch, ResearchKey, LexAtMost;
    var le := ResearchOrder(rank);
    forall a, b ensures le(a, b) || le(b, a) {
      ResearchOrderIsLexicographic(rank, a, b);
      ResearchOrderIsLexicographic(rank, b, a);
      LexTotal(ResearchKey(rank, a), ResearchKey(rank, b));
    }
    forall a, b, c | le(a, b) && le(b, c) ensures le(a, c) {
      ResearchOrderIsLexicographic(rank, a, b);
      ResearchOrderIsLexicographic(rank, b, c);
      ResearchOrderIsLexicographic(rank, a, c);
      LexTransitive(ResearchKey(rank, a), ResearchKey(rank, b), ResearchKey(rank, c));
    }
  }

  // ------------------------------------------------------------------ context

  predicate Usable(c: Context, symbol: string) {
    c.symbol == symbol && c.status != Unavailable && c.status != Stale
  }

  function UsableScores(contexts: seq<Context>, symbol: string): (scores: seq<real>) {
    Map(Filter(contexts, (c: Context) => Usable(c, symbol)), (c: Context) => c.contextScore as real)
  }

  /** The rounded mean of the usable scores of a symbol, neutral without any. */
  function ContextScoreForSymbol(contexts: seq<Context>, symbol: string): Score {
    var scores := UsableScores(contexts, symbol);
    if scores == [] then NEUTRAL
    else
      assert forall i :: 0 <= i < |scores| ==> 0.0 <= scores[i] <= 100.0 by { UsableBetween(contexts, symbol, 0, 100); }
      MeanBetween(scores, 0, 100);
      Round(Sum(scores) / (|scores| as real))
  }

  lemma UsableBetween(contexts: seq<Context>, symbol: string, low: int, high: int)
    requires forall c :: c in contexts && Usable(c, symbol) ==> low <= c.contextScore <= high
    ensures forall i :: 0 <= i < |UsableScores(contexts, symbol)| ==>
      low as real <= UsableScores(contexts, symbol)[i] <= high as real
  {
    var usable := Filter(contexts, (c: Context) => Usable(c, symbol));
    forall i | 0 <= i < |usable| ensures low <= usable[i].contextScore <= high {
      assert usable[i] in usable;
    }
  }

  lemma {:induction false} SumBetween(scores: seq<real>, low: real, high: real)
    requires forall i :: 0 <= i < |scores| ==> low <= scores[i] <= high
    ensures low * (|scores| as real) <= Sum(scores) <= high * (|scores| as real)
  {
    if scores != [] {
      SumBetween(scores[1..], low, high);
      OneMore(low, |scores| - 1);
      OneMore(high, |scores| - 1);
    }
  }

  lemma OneMore(x: real, n: nat)
    ensures x * ((n + 1) as real) == x * (n as real) + x
  {
  }

  lemma MeanBetween(scores: seq<real>, low: int, high: int)
    requires scores != [] && forall i :: 0 <= i < |scores| ==> low as real <= scores[i] <= high as real
    ensures low <= Round(Sum(scores) / (|scores| as real)) <= high
  {
    SumBetween(scores, low as real, high as real);
    QuotientBetween(Sum(scores), |scores| as real, low as real, high as real);
  }

  lemma QuotientBetween(x: real, n: real, low: real, high: real)
    requires n > 0.0 && low * n <= x <= high * n
    ensures low <= x / n <= high
  {
    var q := x / n;
    assert x == q * n;
    assert (q < low ==> (low - q) * n > 0.0) && (q > high ==> (q - high) * n > 0.0);
  }

  /** The score lies between the least and the greatest usable one; stale, unavailable and other symbols'
      contexts have no part in it. */
  lemma ContextScoreWithinUsable(contexts: seq<Context>, symbol: string, low: int, high: int)
    requires forall c :: c in contexts && Usable(c, symbol) ==> low <= c.contextScore <= high
    ensures (exists c :: c in contexts && Usable(c, symbol)) ==> low <= ContextScoreForSymbol(contexts, symbol) <= high
    ensures (forall c :: c in contexts ==> !Usable(c, symbol)) ==> ContextScoreForSymbol(contexts, symbol) == NEUTRAL
  {
    var usable := Filter(contexts, (c: Context) => Usable(c, symbol));
    if usable == [] {
      assert forall c :: c in contexts && Usable(c, symbol) ==> c in usable;
    } else {
      assert usable[0] in usable && usable[0] in contexts && Usable(usable[0], symbol);
      UsableBetween(contexts, symbol, low, high);
      MeanBetween(UsableScores(contexts, symbol), low, high);
    }
  }

  lemma UnusableContextsHaveNoPart(contexts: seq<Context>, symbol: string)
    ensures ContextScoreForSymbol(Filter(contexts, (c: Context) => Usable(c, symbol)), symbol) ==
            ContextScoreForSymbol(contexts, symbol)
  {
    var usable := Filter(contexts, (c: Context) => Usable(c, symbol));
    FilterAll(usable, (c: Context) => Usable(c, symbol));
  }

  // ------------------------------------------------------------------ the research projection

  function Clamp(low: int, high: int, x: int): int {
    var least := if x < high then x else high;
    if least < low then low else least
  }

  function BoundedAdjustment(value: real, maximum: real): real {
    var least := if value < maximum then value else maximum;
    if least < -maximum then -maximum else least
  }

  function WeightFor(setup: Setup, formula: Formula): real {
    if formula.mode.SetupInteraction? then
      if setup.strategy in formula.strategyWeights then formula.strategyWeights[setup.strategy] else 0.0
    else formula.contextWeight
  }

  function WeighedAdjustment(weight: real, contextScore: Score, formula: Formula): int {
    if formula.mode.TieBreaker? then 0
    else Round(BoundedAdjustment((contextScore - NEUTRAL) as real * weight, formula.maxContextAdjustment))
  }

  function Adjustment(setup: Setup, contextScore: Score, formula: Formula): int {
    WeighedAdjustment(WeightFor(setup, formula), contextScore, formula)
  }

  function ProjectRankingResearch(setup: Setup, contextScore: Score, formula: Formula): Researched {
    var adjustment := Adjustment(setup, contextScore, formula);
    Researched(setup, contextScore, Clamp(0, 100, setup.setupScore + adjustment), adjustment)
  }

  function Scored(contexts: seq<Context>): Setup -> Ranked {
    (s: Setup) => Ranked(s, ContextScoreForSymbol(contexts, s.symbol))
  }

  function Projection(contexts: seq<Context>, formula: Formula): Setup -> Researched {
    (s: Setup) => ProjectRankingResearch(s, ContextScoreForSymbol(contexts, s.symbol), formula)
  }

  function RankOpportunities(rank: Collation, setups: seq<Setup>, contexts: seq<Context>): seq<Ranked> {
    StableSort(Map(setups, Scored(contexts)), LiveOrder(rank))
  }

  function ResearchRankOpportunities(rank: Collation, setups: seq<Setup>, contexts: seq<Context>, formula: Formula)
    : seq<Researched>
  {
    StableSort(Map(setups, Projection(contexts, formula)), ResearchOrder(rank))
  }

  // ------------------------------------------------------------------ a tie-breaking formula changes nothing

  function Live(r: Researched): Ranked { Ranked(r.setup, r.contextScore) }

  lemma TieBreakerComparesAsLive(rank: Collation, a: Setup, x: Score, b: Setup, y: Score, formula: Formula)
    requires formula.mode.TieBreaker?
    ensures var p, q := ProjectRankingResearch(a, x, formula), ProjectRankingResearch(b, y, formula);
            CompareRankingResearch(rank, p, q) == CompareOpportunities(rank, Live(p), Live(q))
  {
  }

  /** Under a tie-breaking formula the research ranking is the live ranking. */
  lemma TieBreakerRanksAsLive(rank: Collation, setups: seq<Setup>, contexts: seq<Context>, formula: Formula)
    requires formula.mode.TieBreaker?
    ensures Map(ResearchRankOpportunities(rank, setups, contexts, formula), Live) ==
            RankOpportunities(rank, setups, contexts)
  {
    hide CompareRankingResearch, CompareOpportunities, ContextScoreForSymbol, ProjectRankingResearch;
    var projected := Map(setups, Projection(contexts, formula));
    forall i, j | 0 <= i < |projected| && 0 <= j < |projected|
      ensures ResearchOrder(rank)(projected[i], projected[j]) ==
              LiveOrder(rank)(Live(projected[i]), Live(projected[j])) {
      var a, b := setups[i], setups[j];
      var x, y := ContextScoreForSymbol(contexts, a.symbol), ContextScoreForSymbol(contexts, b.symbol);
      TieBreakerComparesAsLive(rank, a, x, b, y, formula);
    }
    SortMapped(projected, Live, ResearchOrder(rank), LiveOrder(rank));
    forall i | 0 <= i < |setups| ensures Live(projected[i]) == Scored(contexts)(setups[i]) {
      ProjectionKeeps(setups[i], ContextScoreForSymbol(contexts, setups[i].symbol), formula);
    }
    assert Map(projected, Live) == Map(setups, Scored(contexts));
  }

  lemma ProjectionKeeps(setup: Setup, contextScore: Score, formula: Formula)
    ensures Live(ProjectRankingResearch(setup, contextScore, formula)) == Ranked(setup, contextScore)
  {
  }

  // ------------------------------------------------------------------ how far context reaches

  /** The furthest two adjustments can lie apart: twice the cap, when it is an integer. */
  function Reach(maximum: real): int { Round(maximum) - Round(-maximum) }

  lemma IntegerReach(maximum: nat)
    ensures Reach(maximum as real) == 2 * maximum
  {
  }

  lemma RoundMonotone(x: real, y: real)
    requires x <= y
    ensures Round(x) <= Round(y)
  {
  }

  lemma AdjustmentBounded(setup: Setup, contextScore: Score, formula: Formula)
    requires formula.maxContextAdjustment >= 0.0
    ensures Round(-formula.maxContextAdjustment) <= Adjustment(setup, contextScore, formula)
    ensures Adjustment(setup, contextScore, formula) <= Round(formula.maxContextAdjustment)
  {
    var m := formula.maxContextAdjustment;
    var value := BoundedAdjustment((contextScore - NEUTRAL) as real * WeightFor(setup, formula), m);
    assert -m <= value <= m;
    RoundMonotone(-m, value);
    RoundMonotone(value, m);
  }

  /** No context places a setup above one of its state that is ahead by the reach of the cap, and none crosses
      a state, whatever formula, weights and contexts. */
  lemma ContextCannotReachFurther(rank: Collation, a: Setup, x: Score, b: Setup, y: Score, formula: Formula)
    requires formula.maxContextAdjustment >= 0.0
    ensures var p, q := ProjectRankingResearch(a, x, formula), ProjectRankingResearch(b, y, formula);
            && (StateRank(a.state) < StateRank(b.state) ==> CompareRankingResearch(rank, p, q) < 0.0)
            && (a.state == b.state && a.setupScore > b.setupScore &&
                a.setupScore - b.setupScore >= Reach(formula.maxContextAdjustment) ==>
                CompareRankingResearch(rank, p, q) < 0.0)
  {
    hide Round, Adjustment;
    AdjustmentBounded(a, x, formula);
    AdjustmentBounded(b, y, formula);
  }

  /** Two setups of one symbol, strategy and state are adjusted alike, so context never inverts them. */
  lemma OneSymbolIsNeverInverted(rank: Collation, contexts: seq<Context>, formula: Formula, a: Setup, b: Setup)
    requires a.symbol == b.symbol && a.strategy == b.strategy && a.state == b.state && a.setupScore > b.setupScore
    ensures CompareRankingResearch(rank, Projection(contexts, formula)(a), Projection(contexts, formula)(b)) < 0.0
  {
    hide ContextScoreForSymbol, Adjustment;
    AdjustedAlike(a, b, ContextScoreForSymbol(contexts, a.symbol), formula);
  }

  lemma AdjustedAlike(a: Setup, b: Setup, contextScore: Score, formula: Formula)
    requires a.strategy == b.strategy
    ensures Adjustment(a, contextScore, formula) == Adjustment(b, contextScore, formula)
  {
    hide WeighedAdjustment;
    assert WeightFor(a, formula) == WeightFor(b, formula);
  }

  /** The favourable context of one symbol and the poor one of another. */
  function Opposed(favoured: string, other: string): seq<Context> {
    [Context(favoured, Strong, 100), Context(other, Weak, 0)]
  }

  lemma OpposedScores(favoured: string, other: string)
    requires favoured != other
    ensures ContextScoreForSymbol(Opposed(favoured, other), favoured) == 100
    ensures ContextScoreForSymbol(Opposed(favoured, other), other) == 0
  {
    var contexts := Opposed(favoured, other);
    OneUsable(contexts, favoured, contexts[0]);
    OneUsable(contexts, other, contexts[1]);
  }

  lemma OneUsable(contexts: seq<Context>, symbol: string, c: Context)
    requires c in contexts && Usable(c, symbol) && forall d :: d in contexts && Usable(d, symbol) ==> d == c
    ensures ContextScoreForSymbol(contexts, symbol) == c.contextScore
  {
    ContextScoreWithinUsable(contexts, symbol, c.contextScore, c.contextScore);
  }

  /** The ranking of two setups that puts the second one first. */
  ghost predicate PlacesSecondFirst(rank: Collation, a: Setup, b: Setup, contexts: seq<Context>, formula: Formula) {
    var ranked := ResearchRankOpportunities(rank, [a, b], contexts, formula);
    |ranked| == 2 && ranked[0].setup == b && ranked[1].setup == a
  }

  /** Below that reach a ranking does place the weaker setup first: under a heavy weight, with the two contexts
      opposed, it precedes a setup of its state that is ahead by any smaller lead. */
  lemma ContextReachesThatFar(rank: Collation, maximum: real, stronger: Setup, weaker: Setup)
    requires stronger.state == weaker.state && stronger.symbol != weaker.symbol
    requires maximum >= 0.0 && 0 < stronger.setupScore - weaker.setupScore < Reach(maximum)
    ensures PlacesSecondFirst(rank, stronger, weaker, Opposed(weaker.symbol, stronger.symbol),
                              Formula(BoundedContext, maximum, maximum, map[]))
  {
    hide CompareRankingResearch, ContextScoreForSymbol, ProjectRankingResearch;
    var formula := Formula(BoundedContext, maximum, maximum, map[]);
    var contexts := Opposed(weaker.symbol, stronger.symbol);
    OpposedScores(weaker.symbol, stronger.symbol);
    WeakerComparesFirst(rank, maximum, stronger, weaker);
    var p, q := Projection(contexts, formula)(stronger), Projection(contexts, formula)(weaker);
    Antisymmetric(rank, q, p);
    TwoSorted(p, q, ResearchOrder(rank));
    assert Map([stronger, weaker], Projection(contexts, formula)) == [p, q];
    ProjectionKeeps(stronger, 0, formula);
    ProjectionKeeps(weaker, 100, formula);
  }

  lemma TwoSorted<T>(p: T, q: T, le: (T, T) -> bool)
    requires !le(p, q)
    ensures StableSort([p, q], le) == [q, p]
  {
    assert [p, q][1..] == [q] && [q][1..] == [];
    assert StableSort([q], le) == [q];
  }

  lemma WeakerComparesFirst(rank: Collation, maximum: real, stronger: Setup, weaker: Setup)
    requires stronger.state == weaker.state
    requires maximum >= 0.0 && 0 < stronger.setupScore - weaker.setupScore < Reach(maximum)
    ensures var formula := Formula(BoundedContext, maximum, maximum, map[]);
            CompareRankingResearch(rank, ProjectRankingResearch(weaker, 100, formula),
                                   ProjectRankingResearch(stronger, 0, formula)) < 0.0
  {
    assert 50.0 * maximum >= maximum && -50.0 * maximum <= -maximum;
    assert BoundedAdjustment(50.0 * maximum, maximum) == maximum;
    assert BoundedAdjustment(-50.0 * maximum, maximum) == -maximum;
    assert Round(-maximum) <= 0 <= Round(maximum);
  }

  /** In a research ranking a setup never stands behind one of a worse state, nor behind one of its state that
      it leads by the reach of the cap; and nothing is lost or added. */
  lemma ResearchRankingRespectsReach(rank: Collation, setups: seq<Setup>, contexts: seq<Context>, formula: Formula)
    requires formula.maxContextAdjustment >= 0.0
    ensures var ranked := ResearchRankOpportunities(rank, setups, contexts, formula);
            && (forall i, j :: 0 <= i < j < |ranked| ==>
                  && StateRank(ranked[i].setup.state) <= StateRank(ranked[j].setup.state)
                  && (ranked[i].setup.state == ranked[j].setup.state &&
                      ranked[j].setup.setupScore > ranked[i].setup.setupScore ==>
                      ranked[j].setup.setupScore - ranked[i].setup.setupScore < Reach(formula.maxContextAdjustment)))
            && multiset(Map(ranked, (r: Researched) => r.setup)) == multiset(setups)
  {
    hide CompareRankingResearch, ContextScoreForSymbol, ProjectRankingResearch, Reach, StateRank;
    var projected := Map(setups, Projection(contexts, formula));
    var ranked := ResearchRankOpportunities(rank, setups, contexts, formula);
    ResearchOrderIsTotalPreorder(rank);
    StableSortSorted(projected, ResearchOrder(rank));
    forall i, j | 0 <= i < j < |ranked|
      ensures StateRank(ranked[i].setup.state) <= StateRank(ranked[j].setup.state)
      ensures ranked[i].setup.state == ranked[j].setup.state &&
              ranked[j].setup.setupScore > ranked[i].setup.setupScore ==>
                ranked[j].setup.setupScore - ranked[i].setup.setupScore < Reach(formula.maxContextAdjustment) {
      var a, b := ranked[j], ranked[i];
      assert ResearchOrder(rank)(b, a);
      Projected(setups, contexts, formula, a);
      Projected(setups, contexts, formula, b);
      ContextCannotReachFurther(rank, a.setup, a.contextScore, b.setup, b.contextScore, formula);
      Antisymmetric(rank, a, b);
    }
    SortKeepsMapped(projected, ResearchOrder(rank), (r: Researched) => r.setup);
    forall i | 0 <= i < |setups| ensures projected[i].setup == setups[i] {
      ProjectionKeeps(setups[i], ContextScoreForSymbol(contexts, setups[i].symbol), formula);
    }
    assert Map(projected, (r: Researched) => r.setup) == setups;
  }

  /** With an integer cap the context of two symbols can invert two setups of one state exactly if the lead is below
      twice the cap. */
  lemma InvertedBelowTwiceTheCap(rank: Collation, cap: nat, stronger: Setup, weaker: Setup)
    requires stronger.state == weaker.state && stronger.symbol != weaker.symbol
    requires stronger.setupScore > weaker.setupScore
    ensures (exists contexts, formula: Formula ::
               formula.maxContextAdjustment == cap as real &&
               PlacesSecondFirst(rank, stronger, weaker, contexts, formula))
            <==> stronger.setupScore - weaker.setupScore < 2 * cap
  {
    hide ResearchRankOpportunities, Reach;
    IntegerReach(cap);
    if stronger.setupScore - weaker.setupScore < 2 * cap {
      ContextReachesThatFar(rank, cap as real, stronger, weaker);
      assert Formula(BoundedContext, cap as real, cap as real, map[]).maxContextAdjustment == cap as real;
    }
    forall contexts, formula: Formula |
      formula.maxContextAdjustment == cap as real && PlacesSecondFirst(rank, stronger, weaker, contexts, formula)
      ensures stronger.setupScore - weaker.setupScore < 2 * cap {
      ResearchRankingRespectsReach(rank, [stronger, weaker], contexts, formula);
    }
  }

  lemma Antisymmetric(rank: Collation, a: Researched, b: Researched)
    ensures CompareRankingResearch(rank, a, b) < 0.0 <==> !(CompareRankingResearch(rank, b, a) <= 0.0)
  {
  }

  lemma Projected(setups: seq<Setup>, contexts: seq<Context>, formula: Formula, r: Researched)
    requires r in Map(setups, Projection(contexts, formula))
    ensures r == ProjectRankingResearch(r.setup, r.contextScore, formula)
  {
    hide ContextScoreForSymbol, Adjustment;
  }
}
