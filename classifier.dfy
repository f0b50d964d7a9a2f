/**
 * `classifyTicket`: lower-case the ticket, count keyword hits per category,
 * add one random draw per category, divide by the total (or by 1 when it is
 * 0), raise every share to the 5% floor, sort descending, rescale so the
 * shares add up to 1, and report the first entry as the prediction.
 *
 * `Classify` is that computation as a function of the text and the draws;
 * `ClassifyTicket` performs it step by step on arrays, as the source does,
 * and is proved to return what `Classify` returns.
 */
module TicketClassifier {
  import opened Text
  import opened Categories
  import opened Scoring
  import opened Ranking

  /** The `scores` record after the random draws are added, in declaration
      order. */
  function Scores(text: string, noise: seq<real>): (scores: seq<real>)
    requires |noise| == |All|
    ensures |scores| == |All|
  {
    Perturbed(RawScores(Lower(text)), noise)
  }

  /** The rescaling: every probability divided by the sum of all of them. */
  function Normalised(ps: seq<Prediction>): (r: seq<Prediction>)
    requires forall i :: 0 <= i < |ps| ==> ps[i].probability > 0.0
    ensures |r| == |ps|
    ensures forall i :: 0 <= i < |ps| ==>
      r[i].category == ps[i].category && r[i].probability * Sum(Probabilities(ps)) == ps[i].probability
  {
    var sum := Sum(Probabilities(ps));
    SumBoundsElements(Probabilities(ps));
    seq(|ps|, i requires 0 <= i < |ps| => Prediction(ps[i].category, ps[i].probability / sum))
  }

  /** Dividing by a positive number keeps the order of two values. */
  lemma DivisionKeepsOrder(x: real, y: real, d: real)
    requires d > 0.0
    ensures x <= y <==> x / d <= y / d
    ensures x < y <==> x / d < y / d
  {
    if x <= y {
      assert y / d - x / d == (y - x) / d;
    } else {
      assert x / d - y / d == (x - y) / d;
    }
  }

  /** Rescaling positive probabilities keeps every entry's category and
      puts its probability in (0, 1]. */
  lemma NormalisedShape(ps: seq<Prediction>)
    requires forall i :: 0 <= i < |ps| ==> ps[i].probability > 0.0
    ensures |Normalised(ps)| == |ps|
    ensures CategoriesOf(Normalised(ps)) == CategoriesOf(ps)
    ensures forall i :: 0 <= i < |ps| ==> 0.0 < Normalised(ps)[i].probability <= 1.0
  {
    var xs := Probabilities(ps);
    var r := Normalised(ps);
    SumBoundsElements(xs);
    forall i | 0 <= i < |ps| ensures 0.0 < r[i].probability <= 1.0 {
      FractionOfWhole(xs[i], Sum(xs));
      DivisionKeepsOrder(0.0, xs[i], Sum(xs));
    }
  }

  /** Rescaled probabilities add up to exactly 1. */
  lemma NormalisedSumsToOne(ps: seq<Prediction>)
    requires ps != []
    requires forall i :: 0 <= i < |ps| ==> ps[i].probability > 0.0
    ensures Sum(Probabilities(Normalised(ps))) == 1.0
  {
    var xs := Probabilities(ps);
    var sum := Sum(xs);
    SumBoundsElements(xs);
    assert sum >= xs[0] > 0.0;
    SumDivided(xs, Probabilities(Normalised(ps)), sum);
    WholeOverWhole(sum);
  }

  /** Dividing by the positive sum keeps the order set by the sort. */
  lemma NormalisedKeepsOrder(ps: seq<Prediction>)
    requires forall i :: 0 <= i < |ps| ==> ps[i].probability > 0.0
    requires NonIncreasing(ps)
    ensures NonIncreasing(Normalised(ps))
  {
    var xs := Probabilities(ps);
    var r := Normalised(ps);
    SumBoundsElements(xs);
    forall i, j | 0 <= i < j < |ps| ensures r[i].probability >= r[j].probability {
      DivisionKeepsOrder(xs[j], xs[i], Sum(xs));
    }
  }

  /** Each floored share is the entry of its own category. */
  lemma SharesByCategory(scores: seq<real>, e: Prediction)
    requires |scores| == |All|
    requires e in Shares(scores)
    ensures e == Shares(scores)[Index(e.category)]
  {
    var ps := Shares(scores);
    var k :| 0 <= k < |ps| && ps[k] == e;
    assert Index(All[k]) == k;
  }

  /** After sorting, each entry is still the share of its category. */
  lemma RankedByCategory(scores: seq<real>)
    requires |scores| == |All|
    ensures forall i :: 0 <= i < |SortDesc(Shares(scores))| ==>
      SortDesc(Shares(scores))[i] == Shares(scores)[Index(SortDesc(Shares(scores))[i].category)]
  {
    var ps := Shares(scores);
    var ranked := SortDesc(ps);
    SortDescPermutes(ps);
    forall i | 0 <= i < |ranked| ensures ranked[i] == ps[Index(ranked[i].category)] {
      assert ranked[i] in multiset(ps);
      SharesByCategory(scores, ranked[i]);
    }
  }

  /** After sorting, all five categories are present once each. */
  lemma RankedCategories(scores: seq<real>)
    requires |scores| == |All|
    ensures multiset(CategoriesOf(SortDesc(Shares(scores)))) == multiset(All)
  {
    SortDescKeepsCategories(Shares(scores));
    assert CategoriesOf(Shares(scores)) == All;
  }

  /** After sorting, every entry is at least the floor. */
  lemma RankedAboveFloor(scores: seq<real>)
    requires |scores| == |All|
    ensures forall i :: 0 <= i < |SortDesc(Shares(scores))| ==>
      SortDesc(Shares(scores))[i].probability >= Floor
  {
    RankedByCategory(scores);
  }

  /** The sorted shares rescaled to add up to 1. */
  function Final(scores: seq<real>): (final: seq<Prediction>)
    requires |scores| == |All|
    ensures |final| == |All|
  {
    RankedAboveFloor(scores);
    NormalisedShape(SortDesc(Shares(scores)));
    Normalised(SortDesc(Shares(scores)))
  }

  /** `classifyTicket` with the random draws given: the first entry of the
      ranked distribution is the prediction. */
  function Classify(text: string, noise: seq<real>): (r: ClassificationResult)
    requires |noise| == |All|
    ensures |r.allProbabilities| == |All|
    ensures r.category == r.allProbabilities[0].category
    ensures r.confidence == r.allProbabilities[0].probability
  {
    var final := Final(Scores(text, noise));
    ClassificationResult(final[0].category, final[0].probability, final)
  }

  /** Each of the five categories appears exactly once in the ranking. */
  lemma FinalCoversCategories(scores: seq<real>)
    requires |scores| == |All|
    ensures multiset(CategoriesOf(Final(scores))) == multiset(All)
  {
    var ranked := SortDesc(Shares(scores));
    RankedAboveFloor(scores);
    RankedCategories(scores);
    NormalisedShape(ranked);
  }

  /** The ranking is a probability distribution in exact arithmetic: every
      entry lies in (0, 1] and together they add up to 1. */
  lemma FinalIsDistribution(scores: seq<real>)
    requires |scores| == |All|
    ensures forall i :: 0 <= i < |All| ==> 0.0 < Final(scores)[i].probability <= 1.0
    ensures Sum(Probabilities(Final(scores))) == 1.0
  {
    var ranked := SortDesc(Shares(scores));
    RankedAboveFloor(scores);
    NormalisedShape(ranked);
    NormalisedSumsToOne(ranked);
  }

  /** The ranking is ordered by probability, highest first. */
  lemma FinalIsRanked(scores: seq<real>)
    requires |scores| == |All|
    ensures NonIncreasing(Final(scores))
  {
    var ranked := SortDesc(Shares(scores));
    RankedAboveFloor(scores);
    SortDescOrdered(Shares(scores));
    NormalisedKeepsOrder(ranked);
  }

  /** Rescaling keeps the ranking with ties broken by declaration order. */
  lemma NormalisedKeepsRanked(ps: seq<Prediction>)
    requires forall i :: 0 <= i < |ps| ==> ps[i].probability > 0.0
    requires Ranked(ps)
    ensures Ranked(Normalised(ps))
  {
    var xs := Probabilities(ps);
    var r := Normalised(ps);
    SumBoundsElements(xs);
    forall i, j | 0 <= i < j < |ps| ensures Precedes(r[i], r[j]) {
      DivisionKeepsOrder(xs[j], xs[i], Sum(xs));
    }
  }

  /** Ties keep declaration order: of two categories with the same final
      probability, the one the keyword table declares first is ranked first. */
  lemma FinalTiesInDeclarationOrder(scores: seq<real>)
    requires |scores| == |All|
    ensures Ranked(Final(scores))
  {
    var ps := Shares(scores);
    assert InDeclarationOrder(ps) by {
      forall i | 0 <= i < |All| ensures Index(ps[i].category) == i {
        assert ps[i].category == All[i];
      }
    }
    SortDescStable(ps);
    RankedAboveFloor(scores);
    NormalisedKeepsRanked(SortDesc(ps));
  }

  /** What a classification promises, for every ticket and every draws:
      all five categories once each, every probability in (0, 1], a total of
      exactly 1, the ranking ordered highest first with ties in declaration
      order, and the reported confidence the largest probability. */
  lemma ClassifyResultIsRankedDistribution(text: string, noise: seq<real>)
    requires |noise| == |All|
    ensures multiset(CategoriesOf(Classify(text, noise).allProbabilities)) == multiset(All)
    ensures forall i :: 0 <= i < |All| ==> 0.0 < Classify(text, noise).allProbabilities[i].probability <= 1.0
    ensures Sum(Probabilities(Classify(text, noise).allProbabilities)) == 1.0
    ensures Ranked(Classify(text, noise).allProbabilities)
    ensures forall i :: 0 <= i < |All| ==>
      Classify(text, noise).allProbabilities[i].probability <= Classify(text, noise).confidence
  {
    var scores := Scores(text, noise);
    FinalCoversCategories(scores);
    FinalIsDistribution(scores);
    FinalTiesInDeclarationOrder(scores);
    FinalIsRanked(scores);
    forall i | 0 <= i < |All| ensures Final(scores)[i].probability <= Final(scores)[0].probability {
      FirstIsLargest(Final(scores), i);
    }
  }

  /** The floored share of category `c` before the rescaling. */
  function ShareOf(scores: seq<real>, c: Category): real
    requires |scores| == |All|
  {
    Shares(scores)[Index(c)].probability
  }

  /** The sum the rescaling divides by: the floored shares added up. */
  function FlooredTotal(scores: seq<real>): real
    requires |scores| == |All|
  {
    Sum(Probabilities(Shares(scores)))
  }

  /** Every category ends with its floored share divided by the floored
      total, wherever the sort has put it; that total is at least five
      floors, so the division is always defined. */
  lemma FinalByCategory(scores: seq<real>)
    requires |scores| == |All|
    ensures FlooredTotal(scores) >= Floor * 5.0
    ensures forall i :: 0 <= i < |All| ==>
      Final(scores)[i].probability == ShareOf(scores, Final(scores)[i].category) / FlooredTotal(scores)
  {
    var ps := Shares(scores);
    var ranked := SortDesc(ps);
    SumAtLeast(Probabilities(ps), Floor);
    RankedByCategory(scores);
    RankedAboveFloor(scores);
    NormalisedShape(ranked);
    SortDescKeepsTotal(ps);
    forall i | 0 <= i < |All|
      ensures Final(scores)[i].probability == ShareOf(scores, Final(scores)[i].category) / FlooredTotal(scores)
    {
      assert Final(scores)[i].category == ranked[i].category;
      assert ranked[i] == ps[Index(ranked[i].category)];
    }
  }

  /** Shares compare as the scores do, when the scores are not negative. */
  lemma SharesFollowScores(scores: seq<real>, a: nat, b: nat)
    requires |scores| == |All| && a < |All| && b < |All|
    requires forall k :: 0 <= k < |All| ==> scores[k] >= 0.0
    requires scores[a] > scores[b]
    ensures Normalise(scores)[a] > Normalise(scores)[b]
    ensures ShareOf(scores, All[a]) >= ShareOf(scores, All[b])
  {
    SumBoundsElements(scores);
    DivisionKeepsOrder(scores[b], scores[a], Divisor(scores));
  }

  /** The probability the final ranking gives each category. */
  lemma FinalProbabilityOf(scores: seq<real>, c: Category)
    requires |scores| == |All|
    ensures FlooredTotal(scores) >= Floor * 5.0
    ensures ProbabilityOf(Final(scores), c) == ShareOf(scores, c) / FlooredTotal(scores)
  {
    var ps := Final(scores);
    FinalByCategory(scores);
    FinalCoversCategories(scores);
    assert c in multiset(CategoriesOf(ps));
    ProbabilityOfEntry(ps, c, ShareOf(scores, c) / FlooredTotal(scores));
  }

  /** A category with strictly more keyword hits than another ends with at
      least the other's probability: the draws cannot bridge a whole hit, and
      the floor can only make the two equal. */
  lemma MoreHitsNeverLessProbable(text: string, noise: seq<real>, c: Category, d: Category)
    requires IsNoise(noise)
    requires RawScores(Lower(text))[Index(c)] > RawScores(Lower(text))[Index(d)]
    ensures ProbabilityOf(Classify(text, noise).allProbabilities, c) >=
            ProbabilityOf(Classify(text, noise).allProbabilities, d)
  {
    var scores := Scores(text, noise);
    MoreHitsHigherScore(RawScores(Lower(text)), noise, Index(c), Index(d));
    SharesFollowScores(scores, Index(c), Index(d));
    FinalProbabilityOf(scores, c);
    FinalProbabilityOf(scores, d);
    DivisionKeepsOrder(ShareOf(scores, d), ShareOf(scores, c), FlooredTotal(scores));
  }

  /** The floor creates ties only among floored categories: a category whose
      share of the total is above 5% ends strictly above every category whose
      share is at most 5%. */
  lemma ClearShareBeatsFlooredShare(scores: seq<real>, c: Category, d: Category)
    requires |scores| == |All|
    requires Normalise(scores)[Index(c)] > Floor >= Normalise(scores)[Index(d)]
    ensures ProbabilityOf(Final(scores), c) > ProbabilityOf(Final(scores), d)
  {
    FinalProbabilityOf(scores, c);
    FinalProbabilityOf(scores, d);
    assert ShareOf(scores, d) == Floor < ShareOf(scores, c);
    DivisionKeepsOrder(ShareOf(scores, d), ShareOf(scores, c), FlooredTotal(scores));
  }

  /** Draws that are all 0. */
  const NoDraws: seq<real> := [0.0, 0.0, 0.0, 0.0, 0.0]

  /** Among non-negative scores, one above 5% of the total keeps a share
      above the floor and a score of 0 gets a share of 0. */
  lemma ClearScoreAndZeroScoreShares(scores: seq<real>, c: Category, d: Category)
    requires |scores| == |All|
    requires forall k :: 0 <= k < |All| ==> scores[k] >= 0.0
    requires scores[Index(d)] == 0.0 && scores[Index(c)] > Floor * Sum(scores)
    ensures Normalise(scores)[Index(c)] > Floor && Normalise(scores)[Index(d)] == 0.0
  {
    var total := Sum(scores);
    SumBoundsElements(scores);
    assert scores[Index(c)] > 0.0;
    assert total > 0.0 && Divisor(scores) == total;
    AboveFloorShare(scores[Index(c)], total);
  }

  /** Among non-negative scores, one above 5% of the total ends strictly
      above a score of 0. */
  lemma ClearScoreBeatsZeroScore(scores: seq<real>, c: Category, d: Category)
    requires |scores| == |All|
    requires forall k :: 0 <= k < |All| ==> scores[k] >= 0.0
    requires scores[Index(d)] == 0.0 && scores[Index(c)] > Floor * Sum(scores)
    ensures ProbabilityOf(Final(scores), c) > ProbabilityOf(Final(scores), d)
  {
    ClearScoreAndZeroScoreShares(scores, c, d);
    ClearShareBeatsFlooredShare(scores, c, d);
  }

  /** With every draw 0, a category holding more than 5% of all keyword hits
      ends with a strictly higher probability than every category with no
      hit. */
  lemma HitsAboveFloorBeatMisses(text: string, c: Category, d: Category)
    requires RawScores(Lower(text))[Index(d)] == 0
    requires RawScores(Lower(text))[Index(c)] as real > Floor * Sum(Scores(text, NoDraws))
    ensures ProbabilityOf(Classify(text, NoDraws).allProbabilities, c) >
            ProbabilityOf(Classify(text, NoDraws).allProbabilities, d)
  {
    ClearScoreBeatsZeroScore(Scores(text, NoDraws), c, d);
  }

  lemma AboveFloorShare(x: real, total: real)
    requires total > 0.0 && x > Floor * total
    ensures x / total > Floor
  {
    assert x / total - Floor == (x - Floor * total) / total;
  }

  /** Equal floored shares for every category end as 1/5 each. */
  lemma EqualSharesAreUniform(scores: seq<real>)
    requires |scores| == |All|
    requires forall k :: 0 <= k < |All| ==> ShareOf(scores, All[k]) == ShareOf(scores, All[0])
    ensures forall i :: 0 <= i < |All| ==> Final(scores)[i].probability == 1.0 / 5.0
  {
    var w := ShareOf(scores, All[0]);
    var ps := Shares(scores);
    SumConstant(Probabilities(ps), w);
    FinalByCategory(scores);
    assert w >= Floor;
    assert FlooredTotal(scores) == w * 5.0;
    forall i | 0 <= i < |All| ensures Final(scores)[i].probability == 1.0 / 5.0 {
      var c := Final(scores)[i].category;
      assert ShareOf(scores, c) == ShareOf(scores, All[Index(c)]) == w;
      FifthOfFive(w);
    }
  }

  lemma FifthOfFive(w: real)
    requires w > 0.0
    ensures w / (w * 5.0) == 1.0 / 5.0
  {
  }

  /** When every perturbed score is 0 the divisor falls back to 1, every
      category is raised to the floor, and all five end at exactly 1/5. */
  lemma ZeroScoresGiveUniformResult(text: string, noise: seq<real>)
    requires IsNoise(noise)
    requires Sum(Scores(text, noise)) == 0.0
    ensures Divisor(Scores(text, noise)) == 1.0
    ensures forall i :: 0 <= i < |All| ==> Classify(text, noise).allProbabilities[i].probability == 1.0 / 5.0
  {
    var scores := Scores(text, noise);
    SumBoundsElements(scores);
    forall k | 0 <= k < |All| ensures ShareOf(scores, All[k]) == Floor {
      assert scores[k] == 0.0;
    }
    EqualSharesAreUniform(scores);
  }

  /** The empty ticket hits no keyword, so with one and the same draw for
      every category all five end at exactly 1/5. */
  lemma EmptyTicketEqualDrawsUniform(noise: seq<real>)
    requires IsNoise(noise)
    requires forall k :: 0 <= k < |All| ==> noise[k] == noise[0]
    ensures forall i :: 0 <= i < |All| ==> Classify("", noise).allProbabilities[i].probability == 1.0 / 5.0
  {
    var scores := Scores("", noise);
    EmptyTicketScoresAreDraws(noise);
    SumConstant(scores, noise[0]);
    if noise[0] == 0.0 {
      ZeroScoresGiveUniformResult("", noise);
    } else {
      assert Divisor(scores) == noise[0] * 5.0;
      forall k | 0 <= k < |All| ensures ShareOf(scores, All[k]) == ShareOf(scores, All[0]) {
        assert Normalise(scores)[k] == Normalise(scores)[0];
      }
      EqualSharesAreUniform(scores);
    }
  }

  lemma LeaderShare(top: real, total: real)
    requires top > 0.0 && total > 0.0 && total <= top * 5.0
    ensures top / total >= 1.0 / 5.0
  {
    var q := top / total;
    assert q * total == top;
    if q < 1.0 / 5.0 {
      assert q * total < total / 5.0;
    }
  }

  /** A non-negative score strictly above every other one is at least a
      fifth of the total, so its share is never raised to the floor and
      stays strictly above every other floored share. */
  lemma LeaderShareAboveOthers(scores: seq<real>, top: nat)
    requires |scores| == |All| && top < |All|
    requires forall k :: 0 <= k < |All| ==> scores[k] >= 0.0
    requires forall k :: 0 <= k < |All| && k != top ==> scores[k] < scores[top]
    ensures forall k :: 0 <= k < |All| && k != top ==> ShareOf(scores, All[k]) < ShareOf(scores, All[top])
  {
    var other := if top == 0 then 1 else 0;
    assert scores[top] > scores[other] >= 0.0;
    SumAtMost(scores, scores[top]);
    SumBoundsElements(scores);
    LeaderShare(scores[top], Sum(scores));
    forall k | 0 <= k < |All| && k != top ensures ShareOf(scores, All[k]) < ShareOf(scores, All[top]) {
      SharesFollowScores(scores, top, k);
    }
  }

  /** The category with strictly the largest floored share is ranked first. */
  lemma LargestShareRankedFirst(scores: seq<real>, c: Category)
    requires |scores| == |All|
    requires forall k :: 0 <= k < |All| && k != Index(c) ==> ShareOf(scores, All[k]) < ShareOf(scores, c)
    ensures Final(scores)[0].category == c
  {
    var ps := Final(scores);
    FinalByCategory(scores);
    FinalCoversCategories(scores);
    FinalIsRanked(scores);
    if ps[0].category != c {
      var d := ps[0].category;
      assert c in multiset(CategoriesOf(ps));
      var m :| 0 <= m < |ps| && CategoriesOf(ps)[m] == c;
      assert ShareOf(scores, All[Index(d)]) < ShareOf(scores, c);
      FirstIsLargest(ps, m);
      assert ps[0].probability == ShareOf(scores, d) / FlooredTotal(scores);
      assert ps[m].probability == ShareOf(scores, c) / FlooredTotal(scores);
      DivisionKeepsOrder(ShareOf(scores, d), ShareOf(scores, c), FlooredTotal(scores));
      assert false;
    }
  }

  /** A category whose perturbed score is strictly above every other's is
      the prediction. */
  lemma StrictLeaderIsPredicted(text: string, noise: seq<real>, c: Category)
    requires IsNoise(noise)
    requires forall k :: 0 <= k < |All| && k != Index(c) ==> Scores(text, noise)[k] < Scores(text, noise)[Index(c)]
    ensures Classify(text, noise).category == c
  {
    var scores := Scores(text, noise);
    LeaderShareAboveOthers(scores, Index(c));
    LargestShareRankedFirst(scores, c);
  }

  /** In a ranking ordered by probability nothing beats the first entry. */
  lemma FirstIsLargest(ps: seq<Prediction>, m: nat)
    requires NonIncreasing(ps) && m < |ps|
    ensures ps[m].probability <= ps[0].probability
  {
    if m > 0 {
      assert ps[0].probability >= ps[m].probability;
    }
  }

  /** With every draw 0, a ticket that hits strictly more keywords of `c`
      than of any other category is classified as `c`. */
  lemma NoiselessKeywordLeader(text: string, c: Category)
    requires forall k :: 0 <= k < |All| && k != Index(c) ==>
      RawScores(Lower(text))[k] < RawScores(Lower(text))[Index(c)]
    ensures Classify(text, [0.0, 0.0, 0.0, 0.0, 0.0]).category == c
  {
    StrictLeaderIsPredicted(text, [0.0, 0.0, 0.0, 0.0, 0.0], c);
  }

  /** Classification sees only the lower-cased text: a ticket and its
      lower-cased form get the same result for the same draws. */
  lemma CaseInsensitive(text: string, noise: seq<real>)
    requires |noise| == |All|
    ensures Classify(text, noise) == Classify(Lower(text), noise)
  {
    LowerIdempotent(text);
  }

  /** The empty ticket hits no keyword: its scores are the draws alone. */
  lemma EmptyTicketScoresAreDraws(noise: seq<real>)
    requires |noise| == |All|
    ensures Scores("", noise) == noise
  {
    forall k | 0 <= k < |All| ensures RawScores("")[k] == 0 {
      KeywordsAtLeastThreeLong(All[k]);
      ShortTextHitsNothing("", Keywords(All[k]));
    }
  }

  /** The 5% floor does not survive the rescaling: with no keyword hit and
      one draw of 0.4, the other four categories end at 0.05 / 1.2. */
  lemma FloorNotKeptAfterRescaling()
    ensures exists i :: 0 <= i < |All| && Classify("", [0.4, 0.0, 0.0, 0.0, 0.0]).allProbabilities[i].probability < Floor
  {
    var noise := [0.4, 0.0, 0.0, 0.0, 0.0];
    EmptyTicketScoresAreDraws(noise);
    FloorLostBelowOneLeader(noise);
    assert Classify("", noise).allProbabilities == Final(noise);
  }

  /** Scores of 0.4 for Billing and 0 elsewhere: the floored shares add up to
      1.2, so a floored category ends at 0.05 / 1.2. */
  lemma FloorLostBelowOneLeader(scores: seq<real>)
    requires scores == [0.4, 0.0, 0.0, 0.0, 0.0]
    ensures exists i :: 0 <= i < |All| && Final(scores)[i].probability < Floor
  {
    SumConstant(scores[1..], 0.0);
    assert Sum(scores) == 0.4;
    assert Normalise(scores)[0] == 1.0;
    var shares := Probabilities(Shares(scores));
    SumConstant(shares[1..], Floor);
    assert FlooredTotal(scores) == 1.2;
    assert Normalise(scores)[1] == 0.0;
    FlooredCategoryEndsBelowFloor(scores, Technical);
  }

  /** Once the floored shares add up to more than 1, a category that was
      raised to the floor ends below it. */
  lemma FlooredCategoryEndsBelowFloor(scores: seq<real>, c: Category)
    requires |scores| == |All|
    requires ShareOf(scores, c) == Floor && FlooredTotal(scores) > 1.0
    ensures exists i :: 0 <= i < |All| && Final(scores)[i].category == c && Final(scores)[i].probability < Floor
  {
    var ps := Final(scores);
    FinalByCategory(scores);
    FinalCoversCategories(scores);
    assert c in multiset(CategoriesOf(ps));
    var m :| 0 <= m < |ps| && CategoriesOf(ps)[m] == c;
    assert ps[m].probability == Floor / FlooredTotal(scores);
    DividedByMoreThanOne(Floor, FlooredTotal(scores));
  }

  lemma DividedByMoreThanOne(x: real, d: real)
    requires x > 0.0 && d > 1.0
    ensures x / d < x
  {
    assert x - x / d == x * (d - 1.0) / d;
    assert x * (d - 1.0) > 0.0;
  }

  /** The keyword pass and the perturbation, as the source does them: the
      `scores` record is filled category by category and then each entry is
      increased in place by its draw. */
  method ScoreCategories(lowerText: string, noise: seq<real>) returns (result: seq<real>)
    requires |noise| == |All|
    ensures result == Perturbed(RawScores(lowerText), noise)
  {
    ghost var raw := RawScores(lowerText);
    var scores := new real[|All|];
    for k := 0 to |All|
      invariant forall m :: 0 <= m < k ==> scores[m] == raw[m] as real
    {
      scores[k] := KeywordHits(lowerText, Keywords(All[k])) as real;
    }
    for k := 0 to |All|
      invariant forall m :: 0 <= m < k ==> scores[m] == raw[m] as real + noise[m]
      invariant forall m :: k <= m < |All| ==> scores[m] == raw[m] as real
    {
      scores[k] := scores[k] + noise[k];
    }
    result := scores[..];
  }

  /** The total with its fallback, and the floored share of every category
      in declaration order, written into a fresh array. */
  method ShareArray(scores: seq<real>) returns (probabilities: array<Prediction>)
    requires |scores| == |All|
    ensures fresh(probabilities)
    ensures probabilities[..] == Shares(scores)
  {
    var totalScore := Sum(scores);
    if totalScore == 0.0 {
      totalScore := 1.0;
    }
    probabilities := new Prediction[|All|];
    for k := 0 to |All|
      invariant forall m :: 0 <= m < k ==> probabilities[m] == Shares(scores)[m]
    {
      probabilities[k] := Prediction(All[k], Clamp(scores[k] / totalScore));
    }
  }

  /** The rescaling in place: every entry divided by the sum taken before
      the first division. */
  method RescaleInPlace(a: array<Prediction>)
    requires forall i :: 0 <= i < a.Length ==> a[i].probability > 0.0
    modifies a
    ensures a[..] == Normalised(old(a[..]))
  {
    ghost var ranked := a[..];
    var sum := Sum(Probabilities(a[..]));
    SumBoundsElements(Probabilities(ranked));
    for k := 0 to a.Length
      invariant forall m :: 0 <= m < k ==> a[m] == Normalised(ranked)[m]
      invariant forall m :: k <= m < a.Length ==> a[m] == ranked[m]
    {
      assert sum >= Probabilities(ranked)[k] > 0.0;
      a[k] := Prediction(a[k].category, a[k].probability / sum);
    }
  }

  /** The imperative classifier: scores, shares, the in-place sort and the
      in-place rescaling, then the first entry as the prediction. */
  method ClassifyTicket(text: string, noise: seq<real>) returns (result: ClassificationResult)
    requires |noise| == |All|
    ensures result == Classify(text, noise)
  {
    var lowerText := Lower(text);
    var scores := ScoreCategories(lowerText, noise);
    var probabilities := ShareArray(scores);
    SortByProbability(probabilities);
    RankedAboveFloor(scores);
    RescaleInPlace(probabilities);
    result := ClassificationResult(probabilities[0].category, probabilities[0].probability, probabilities[..]);
  }
}
