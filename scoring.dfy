/**
 * From ticket text to one floored share per category: keyword hits, the
 * random perturbation, the guarded division by the total and the 5% floor.
 * Random draws are a parameter; arithmetic is on exact reals.
 */
module Scoring {
  import opened Text
  import opened Categories

  /** Number of `words` that occur in `text`, added up from the first word to
      the last; a word contributes at most 1 however often it occurs. */
  function KeywordHits(text: string, words: seq<string>): (n: nat)
    ensures n <= |words|
    decreases |words|
  {
    if words == [] then 0
    else
      var last := |words| - 1;
      KeywordHits(text, words[..last]) + (if Includes(text, words[last]) then 1 else 0)
  }

  /** Positions of the keywords that occur in `text`. */
  ghost function MatchedKeywords(text: string, words: seq<string>): set<nat> {
    set i: nat | i < |words| && Occurs(words[i], text)
  }

  /** The hit count is the number of distinct keyword positions found in the
      text: repeated occurrences of a keyword add nothing. */
  lemma {:induction false} HitsCountMatchedKeywords(text: string, words: seq<string>)
    ensures KeywordHits(text, words) == |MatchedKeywords(text, words)|
    decreases |words|
  {
    if words != [] {
      var last := |words| - 1;
      HitsCountMatchedKeywords(text, words[..last]);
      var before := MatchedKeywords(text, words[..last]);
      assert last !in before;
      if Occurs(words[last], text) {
        assert MatchedKeywords(text, words) == before + {last};
      } else {
        assert MatchedKeywords(text, words) == before;
      }
    }
  }

  /** Appending text to a ticket never lowers a hit count. */
  lemma {:induction false} HitsGrowWithText(text: string, more: string, words: seq<string>)
    ensures KeywordHits(text, words) <= KeywordHits(text + more, words)
    decreases |words|
  {
    if words != [] {
      var last := |words| - 1;
      HitsGrowWithText(text, more, words[..last]);
      if Occurs(words[last], text) {
        OccursInLongerText(words[last], text, more);
      }
    }
  }

  /** Text shorter than every keyword hits none of them; in particular the
      empty ticket scores 0 everywhere. */
  lemma {:induction false} ShortTextHitsNothing(text: string, words: seq<string>)
    requires forall w :: w in words ==> |text| < |w|
    ensures KeywordHits(text, words) == 0
    decreases |words|
  {
    if words != [] {
      var last := |words| - 1;
      assert forall w :: w in words[..last] ==> w in words;
      ShortTextHitsNothing(text, words[..last]);
    }
  }

  /** The keyword pass: the hit count of every category, in declaration order. */
  function RawScores(lowerText: string): (raw: seq<nat>)
    ensures |raw| == |All|
  {
    seq(|All|, i requires 0 <= i < |All| => KeywordHits(lowerText, Keywords(All[i])))
  }

  /** The raw score of a category is the number of its distinct keywords
      found in the text, so it lies between 0 and the size of its list. */
  lemma RawScoreCountsKeywords(lowerText: string, c: Category)
    ensures RawScores(lowerText)[Index(c)] == |MatchedKeywords(lowerText, Keywords(c))|
    ensures RawScores(lowerText)[Index(c)] <= |Keywords(c)|
  {
    HitsCountMatchedKeywords(lowerText, Keywords(c));
  }

  /** Draws of `Math.random() * 0.5`, one per category in declaration order. */
  ghost predicate IsNoise(noise: seq<real>) {
    |noise| == |All| && forall i :: 0 <= i < |noise| ==> 0.0 <= noise[i] < 0.5
  }

  /** Each hit count plus its random draw. */
  function Perturbed(raw: seq<nat>, noise: seq<real>): (scores: seq<real>)
    requires |noise| == |raw|
    ensures |scores| == |raw|
  {
    seq(|raw|, i requires 0 <= i < |raw| => raw[i] as real + noise[i])
  }

  /** A draw below 0.5 cannot close a gap of one whole hit. */
  lemma MoreHitsHigherScore(raw: seq<nat>, noise: seq<real>, i: nat, j: nat)
    requires IsNoise(noise) && |raw| == |noise|
    requires i < |raw| && j < |raw| && raw[i] > raw[j]
    ensures Perturbed(raw, noise)[i] > Perturbed(raw, noise)[j]
  {
  }

  /** Sum of a list of reals, added from the front; `SumAddsLastEntry`
      shows it equal to `reduce((a, b) => a + b, 0)`, which adds each entry
      to the sum of those before it. */
  function Sum(xs: seq<real>): real {
    if xs == [] then 0.0 else xs[0] + Sum(xs[1..])
  }

  lemma {:induction false} SumAppend(a: seq<real>, b: seq<real>)
    ensures Sum(a + b) == Sum(a) + Sum(b)
  {
    if a == [] {
      assert a + b == b;
    } else {
      assert (a + b)[0] == a[0] && (a + b)[1..] == a[1..] + b;
      SumAppend(a[1..], b);
    }
  }

  /** The left fold: the sum of a list is the sum of all but its last entry
      plus that entry. */
  lemma SumAddsLastEntry(xs: seq<real>)
    requires xs != []
    ensures Sum(xs) == Sum(xs[..|xs| - 1]) + xs[|xs| - 1]
  {
    SumAppend(xs[..|xs| - 1], [xs[|xs| - 1]]);
    assert xs[..|xs| - 1] + [xs[|xs| - 1]] == xs;
    assert [xs[|xs| - 1]][1..] == [];
  }

  /** A sum of values each at least `m` is at least `m` times their number. */
  lemma {:induction false} SumAtLeast(xs: seq<real>, m: real)
    requires forall i :: 0 <= i < |xs| ==> xs[i] >= m
    ensures Sum(xs) >= m * |xs| as real
  {
    if xs != [] {
      SumAtLeast(xs[1..], m);
    }
  }

  /** A sum of values each at most `m` is at most `m` times their number. */
  lemma {:induction false} SumAtMost(xs: seq<real>, m: real)
    requires forall i :: 0 <= i < |xs| ==> xs[i] <= m
    ensures Sum(xs) <= m * |xs| as real
  {
    if xs != [] {
      SumAtMost(xs[1..], m);
    }
  }

  /** Each of a list of non-negative values is at most their sum, and the sum
      is 0 only when every value is. */
  lemma {:induction false} SumBoundsElements(xs: seq<real>)
    requires forall i :: 0 <= i < |xs| ==> xs[i] >= 0.0
    ensures Sum(xs) >= 0.0
    ensures forall i :: 0 <= i < |xs| ==> xs[i] <= Sum(xs)
    ensures Sum(xs) == 0.0 ==> forall i :: 0 <= i < |xs| ==> xs[i] == 0.0
  {
    if xs != [] {
      SumBoundsElements(xs[1..]);
      assert forall i :: 1 <= i < |xs| ==> xs[i] == xs[1..][i - 1];
    }
  }

  /** The sum of values that all equal `v`. */
  lemma {:induction false} SumConstant(xs: seq<real>, v: real)
    requires forall i :: 0 <= i < |xs| ==> xs[i] == v
    ensures Sum(xs) == v * |xs| as real
  {
    if xs != [] {
      SumConstant(xs[1..], v);
    }
  }

  /** Dividing every value by `d` divides the sum by `d`. */
  lemma {:induction false} SumDivided(xs: seq<real>, ys: seq<real>, d: real)
    requires d != 0.0 && |ys| == |xs|
    requires forall i :: 0 <= i < |xs| ==> ys[i] == xs[i] / d
    ensures Sum(ys) == Sum(xs) / d
  {
    if xs != [] {
      SumDivided(xs[1..], ys[1..], d);
      assert Sum(ys) == xs[0] / d + Sum(xs[1..]) / d;
    }
  }

  /** `totalScore`: the sum of the scores, replaced by 1 when it is 0, so
      that dividing by it is always defined. */
  function Divisor(scores: seq<real>): (d: real)
    ensures d != 0.0
    ensures Sum(scores) != 0.0 ==> d == Sum(scores)
    ensures Sum(scores) == 0.0 ==> d == 1.0
  {
    var total := Sum(scores);
    if total == 0.0 then 1.0 else total
  }

  /** The smallest probability a category is given before the rescaling. */
  const Floor: real := 0.05

  /** `Math.max(0.05, x)`: the larger of the floor and `x`. */
  function Clamp(x: real): (y: real)
    ensures y >= Floor && y >= x
    ensures y == x || y == Floor
  {
    if Floor >= x then Floor else x
  }

  /** The mapped `probabilities` before sorting: every category, in
      declaration order, with its share of the total raised to the floor. */
  function Shares(scores: seq<real>): (ps: seq<Prediction>)
    requires |scores| == |All|
    ensures |ps| == |All|
    ensures forall i :: 0 <= i < |All| ==> ps[i].category == All[i] && ps[i].probability >= Floor
  {
    var shares := Normalise(scores);
    seq(|All|, i requires 0 <= i < |All| => Prediction(All[i], Clamp(shares[i])))
  }

  /** Every score divided by the divisor: the shares before the floor. */
  function Normalise(scores: seq<real>): (xs: seq<real>)
    ensures |xs| == |scores|
    ensures forall i :: 0 <= i < |scores| ==> xs[i] * Divisor(scores) == scores[i]
  {
    var d := Divisor(scores);
    seq(|scores|, i requires 0 <= i < |scores| => scores[i] / d)
  }

  /** When the scores are non-negative and not all 0, the unfloored shares
      form a distribution: each lies in [0, 1] and together they make 1. */
  lemma NormalisedScoresSumToOne(scores: seq<real>)
    requires forall i :: 0 <= i < |scores| ==> scores[i] >= 0.0
    requires Sum(scores) != 0.0
    ensures Sum(Normalise(scores)) == 1.0
    ensures forall i :: 0 <= i < |scores| ==> 0.0 <= Normalise(scores)[i] <= 1.0
  {
    var d := Divisor(scores);
    SumBoundsElements(scores);
    SumDivided(scores, Normalise(scores), d);
    assert d == Sum(scores);
    WholeOverWhole(d);
    forall i | 0 <= i < |scores|
      ensures 0.0 <= Normalise(scores)[i] <= 1.0
    {
      FractionOfWhole(scores[i], d);
    }
  }

  lemma WholeOverWhole(d: real)
    requires d != 0.0
    ensures d / d == 1.0
  {
  }

  /** A part of a positive whole, divided by the whole, lies in [0, 1]. */
  lemma FractionOfWhole(x: real, d: real)
    requires 0.0 <= x <= d && d > 0.0
    ensures 0.0 <= x / d <= 1.0
  {
  }
}
