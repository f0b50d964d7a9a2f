# Ticket classifier model

A Dafny model of `classifyTicket`, the simulated support-ticket classifier of
the *show-my-iypn* demo site. Given the text of a ticket, the function

1. lower-cases the text;
2. counts, for each of five categories (Billing inquiry, Technical issue,
   Refund request, Cancellation request, Product inquiry), how many of the
   category's keywords occur in the text as substrings;
3. adds a random draw from [0, 0.5) to every count;
4. divides each score by the total, using 1 when the total is 0;
5. raises every share to at least 0.05;
6. sorts the entries by probability, highest first, with a stable sort;
7. divides every entry by the sum of the floored shares;
8. reports the first entry's category and probability, together with the
   whole ranking.

The project has five modules:

- `Text` models `toLowerCase` and `includes` on ASCII strings.
- `Categories` holds the category type, the keyword table and the result
  records.
- `Scoring` covers steps 2 to 5.
- `Ranking` models the stable sort. It has two forms: a function
  `SortDesc`, and an in-place insertion sort on an array that is proved
  equal to it.
- `TicketClassifier` has two forms of the whole computation:
  - `Classify` is a function of the text and the random draws.
  - `ClassifyTicket` performs the same steps on arrays, in place as the
    source does, and is proved to return exactly what `Classify` returns.

Some properties need `IsNoise`, which says that there is one draw per
category and each lies in [0, 0.5). The other properties hold for any draws.

The 0.05 floor is applied **before** the final rescaling. The final
probabilities can therefore drop below 0.05. `FloorNotKeptAfterRescaling`
shows this for the empty ticket with draws (0.4, 0, 0, 0, 0). There, four
categories end at 0.05 / 1.2. The model follows the code: it does not
claim that every final probability is at least 0.05.

## Model

| member | source | states |
|---|---|---|
| Text.Lower | show-my-iypn-main/show-my-iypn-main/src/components/TicketClassifier.tsx:15 | lower-casing keeps the length, leaves no capital letter, moves every capital 32 code points on and keeps every other character |
| Text.LowerKeepsLowerCase | show-my-iypn-main/show-my-iypn-main/src/components/TicketClassifier.tsx:15 | text without capitals is left unchanged |
| Text.LowerIdempotent | show-my-iypn-main/show-my-iypn-main/src/components/TicketClassifier.tsx:15 | lower-casing twice gives the same text as lower-casing once |
| Text.Includes | show-my-iypn-main/show-my-iypn-main/src/components/TicketClassifier.tsx:30 | `includes` is true exactly when the word occurs as a contiguous block at some position of the text |
| Text.OccursInLongerText | show-my-iypn-main/show-my-iypn-main/src/components/TicketClassifier.tsx:30 | a word found in a text is still found after more text is appended |
| Categories.Label | show-my-iypn-main/show-my-iypn-main/src/components/TicketClassifier.tsx:19-23 | the label each category is reported under, spelled as the keys of the keyword table |
| Categories.Index | show-my-iypn-main/show-my-iypn-main/src/components/TicketClassifier.tsx:18-24 | each category has a position in the declaration order of the keyword table, and the category list holds it at that position |
| Categories.CategoriesDistinct | show-my-iypn-main/show-my-iypn-main/src/components/TicketClassifier.tsx:18-24 | positions and labels identify categories, and each category appears exactly once in the enumeration |
| Categories.Keywords | show-my-iypn-main/show-my-iypn-main/src/components/TicketClassifier.tsx:18-24 | the keyword table, category by category in declaration order; every category has at least one keyword |
| Categories.KeywordsAtLeastThreeLong | show-my-iypn-main/show-my-iypn-main/src/components/TicketClassifier.tsx:19-23 | every keyword in the table has at least three characters |
| Scoring.KeywordHits | show-my-iypn-main/show-my-iypn-main/src/components/TicketClassifier.tsx:29-31 | a category's count is never more than its number of keywords |
| Scoring.HitsCountMatchedKeywords | show-my-iypn-main/show-my-iypn-main/src/components/TicketClassifier.tsx:29-31 | the count is the number of keyword entries that occur in the text; repeated occurrences of an entry add nothing |
| Scoring.HitsGrowWithText | show-my-iypn-main/show-my-iypn-main/src/components/TicketClassifier.tsx:29-31 | appending text to a ticket never lowers any count |
| Scoring.ShortTextHitsNothing | show-my-iypn-main/show-my-iypn-main/src/components/TicketClassifier.tsx:29-31 | a text shorter than every keyword scores 0 |
| Scoring.RawScores | show-my-iypn-main/show-my-iypn-main/src/components/TicketClassifier.tsx:28-32 | the keyword pass gives one count per category; the count of each is stated by RawScoreCountsKeywords |
| Scoring.RawScoreCountsKeywords | show-my-iypn-main/show-my-iypn-main/src/components/TicketClassifier.tsx:28-32 | each category's raw score is the number of its keywords found, between 0 and the size of its list |
| Scoring.Perturbed | show-my-iypn-main/show-my-iypn-main/src/components/TicketClassifier.tsx:35-37 | one perturbed score per category, in the same order |
| Scoring.MoreHitsHigherScore | show-my-iypn-main/show-my-iypn-main/src/components/TicketClassifier.tsx:35-37 | with draws in [0, 0.5), more hits always give a strictly higher perturbed score |
| Scoring.Sum | show-my-iypn-main/show-my-iypn-main/src/components/TicketClassifier.tsx:39 | the sum of the scores, added exactly; how it relates to the left-to-right `reduce` is stated by SumAddsLastEntry and SumAppend |
| Scoring.SumAppend | show-my-iypn-main/show-my-iypn-main/src/components/TicketClassifier.tsx:39 | the sum of two lists joined is the sum of their sums |
| Scoring.SumAddsLastEntry | show-my-iypn-main/show-my-iypn-main/src/components/TicketClassifier.tsx:39 | the sum equals the `reduce` that adds each entry to the sum of those before it |
| Scoring.Divisor | show-my-iypn-main/show-my-iypn-main/src/components/TicketClassifier.tsx:39 | `totalScore` is never 0: it is the sum of the scores whenever that sum is not 0, and 1 when it is 0 |
| Scoring.Clamp | show-my-iypn-main/show-my-iypn-main/src/components/TicketClassifier.tsx:44 | `Math.max(0.05, x)` is at least 0.05 and at least x, and equals one of them |
| Scoring.Normalise | show-my-iypn-main/show-my-iypn-main/src/components/TicketClassifier.tsx:44 | `score / totalScore` for every category: each share times the divisor gives back its score |
| Scoring.Shares | show-my-iypn-main/show-my-iypn-main/src/components/TicketClassifier.tsx:41-45 | the mapped entries list every category in declaration order, each with a probability of at least 0.05 |
| Scoring.NormalisedScoresSumToOne | show-my-iypn-main/show-my-iypn-main/src/components/TicketClassifier.tsx:39-44 | for non-negative scores that are not all 0, the shares before the floor lie in [0, 1] and add up to 1 |
| Ranking.Insert | show-my-iypn-main/show-my-iypn-main/src/components/TicketClassifier.tsx:46 | stable insertion adds exactly one entry |
| Ranking.InsertAddsEntry | show-my-iypn-main/show-my-iypn-main/src/components/TicketClassifier.tsx:46 | insertion adds exactly the inserted entry to the multiset of entries |
| Ranking.InsertKeepsOrder | show-my-iypn-main/show-my-iypn-main/src/components/TicketClassifier.tsx:46 | inserting into a ranking ordered highest first keeps it ordered |
| Ranking.SortDesc | show-my-iypn-main/show-my-iypn-main/src/components/TicketClassifier.tsx:46 | the sort keeps the number of entries |
| Ranking.SortDescOrdered | show-my-iypn-main/show-my-iypn-main/src/components/TicketClassifier.tsx:46 | the sort orders the entries by probability, highest first |
| Ranking.SortDescPermutes | show-my-iypn-main/show-my-iypn-main/src/components/TicketClassifier.tsx:46 | the sorted entries are a permutation of the input |
| Ranking.InsertKeepsRanked | show-my-iypn-main/show-my-iypn-main/src/components/TicketClassifier.tsx:46 | inserting an entry declared after all the others keeps ties in declaration order |
| Ranking.SortDescStable | show-my-iypn-main/show-my-iypn-main/src/components/TicketClassifier.tsx:46 | stability: entries given in declaration order end ranked by probability, with ties in declaration order |
| Ranking.InsertAddsProbability | show-my-iypn-main/show-my-iypn-main/src/components/TicketClassifier.tsx:46 | insertion adds the inserted probability to the total |
| Ranking.InsertAddsCategory | show-my-iypn-main/show-my-iypn-main/src/components/TicketClassifier.tsx:46 | insertion adds the inserted category to the categories present |
| Ranking.SortDescKeepsTotal | show-my-iypn-main/show-my-iypn-main/src/components/TicketClassifier.tsx:46 | sorting keeps the sum of the probabilities |
| Ranking.SortDescKeepsCategories | show-my-iypn-main/show-my-iypn-main/src/components/TicketClassifier.tsx:46 | sorting keeps the multiset of categories |
| Ranking.InsertAt | show-my-iypn-main/show-my-iypn-main/src/components/TicketClassifier.tsx:46 | stable insertion places the entry just before the first entry of smaller probability |
| Ranking.InsertInPlace | show-my-iypn-main/show-my-iypn-main/src/components/TicketClassifier.tsx:46 | one step of the in-place sort leaves the prefix equal to the stable insertion of the next entry, and the rest of the array unchanged |
| Ranking.SortByProbability | show-my-iypn-main/show-my-iypn-main/src/components/TicketClassifier.tsx:46 | the array is sorted in place to exactly the stable descending sort of its old contents |
| TicketClassifier.Scores | show-my-iypn-main/show-my-iypn-main/src/components/TicketClassifier.tsx:15-37 | one perturbed score per category |
| TicketClassifier.Normalised | show-my-iypn-main/show-my-iypn-main/src/components/TicketClassifier.tsx:49-50 | the rescaling keeps every entry and its category, and each new probability times the sum of the old ones gives back the old probability |
| TicketClassifier.NormalisedShape | show-my-iypn-main/show-my-iypn-main/src/components/TicketClassifier.tsx:49-50 | rescaling positive probabilities keeps each entry's category and puts each probability in (0, 1] |
| TicketClassifier.NormalisedSumsToOne | show-my-iypn-main/show-my-iypn-main/src/components/TicketClassifier.tsx:49-50 | rescaled probabilities add up to exactly 1 |
| TicketClassifier.NormalisedKeepsOrder | show-my-iypn-main/show-my-iypn-main/src/components/TicketClassifier.tsx:46-50 | rescaling keeps the order set by the sort |
| TicketClassifier.NormalisedKeepsRanked | show-my-iypn-main/show-my-iypn-main/src/components/TicketClassifier.tsx:46-50 | rescaling keeps ties in declaration order |
| TicketClassifier.SharesByCategory | show-my-iypn-main/show-my-iypn-main/src/components/TicketClassifier.tsx:41-45 | every floored share is the entry of its own category |
| TicketClassifier.RankedByCategory | show-my-iypn-main/show-my-iypn-main/src/components/TicketClassifier.tsx:41-46 | after the sort, each entry is still the floored share of its category |
| TicketClassifier.RankedCategories | show-my-iypn-main/show-my-iypn-main/src/components/TicketClassifier.tsx:41-46 | after the sort, every category is present exactly once |
| TicketClassifier.RankedAboveFloor | show-my-iypn-main/show-my-iypn-main/src/components/TicketClassifier.tsx:41-46 | after the sort, every entry is at least 0.05, so the rescaling sum is positive |
| TicketClassifier.Final | show-my-iypn-main/show-my-iypn-main/src/components/TicketClassifier.tsx:41-50 | the ranking has one entry per category |
| TicketClassifier.Classify | show-my-iypn-main/show-my-iypn-main/src/components/TicketClassifier.tsx:14-57 | the reported category and confidence are those of the first entry of the ranking |
| TicketClassifier.FinalCoversCategories | show-my-iypn-main/show-my-iypn-main/src/components/TicketClassifier.tsx:41-50 | the final ranking lists each of the five categories exactly once |
| TicketClassifier.FinalIsDistribution | show-my-iypn-main/show-my-iypn-main/src/components/TicketClassifier.tsx:48-50 | every final probability lies in (0, 1], and together they add up to exactly 1 |
| TicketClassifier.FinalIsRanked | show-my-iypn-main/show-my-iypn-main/src/components/TicketClassifier.tsx:46-50 | the final ranking is ordered by probability, highest first |
| TicketClassifier.FinalTiesInDeclarationOrder | show-my-iypn-main/show-my-iypn-main/src/components/TicketClassifier.tsx:41-50 | equal final probabilities are ranked in the declaration order of the keyword table |
| TicketClassifier.ClassifyResultIsRankedDistribution | show-my-iypn-main/show-my-iypn-main/src/components/TicketClassifier.tsx:14-57 | for every ticket and every draws: all five categories once each, probabilities in (0, 1] adding up to 1, ordered highest first with ties in declaration order, and a confidence that is the largest probability |
| TicketClassifier.FinalByCategory | show-my-iypn-main/show-my-iypn-main/src/components/TicketClassifier.tsx:39-50 | each category ends with its floored share divided by the sum of all floored shares, wherever the sort puts it; that sum is at least 0.25 |
| TicketClassifier.SharesFollowScores | show-my-iypn-main/show-my-iypn-main/src/components/TicketClassifier.tsx:39-44 | for non-negative scores, a higher score gives a strictly higher share before the floor, and a floored share at least as high |
| TicketClassifier.FinalProbabilityOf | show-my-iypn-main/show-my-iypn-main/src/components/TicketClassifier.tsx:39-50 | the probability the final ranking gives each category is its floored share divided by the sum of all floored shares |
| TicketClassifier.MoreHitsNeverLessProbable | show-my-iypn-main/show-my-iypn-main/src/components/TicketClassifier.tsx:28-50 | with draws in [0, 0.5), a category with strictly more keyword hits than another never ends with a lower probability than it |
| TicketClassifier.ClearShareBeatsFlooredShare | show-my-iypn-main/show-my-iypn-main/src/components/TicketClassifier.tsx:44-50 | a category whose share of the total is above 0.05 ends with a strictly higher probability than every category whose share is at most 0.05; the floor creates ties only among floored categories |
| TicketClassifier.ClearScoreAndZeroScoreShares | show-my-iypn-main/show-my-iypn-main/src/components/TicketClassifier.tsx:39-44 | among non-negative scores, a score above 5% of the total keeps a share above 0.05, and a score of 0 gets a share of 0 |
| TicketClassifier.ClearScoreBeatsZeroScore | show-my-iypn-main/show-my-iypn-main/src/components/TicketClassifier.tsx:39-50 | among non-negative scores, one above 5% of the total ends strictly above a score of 0 |
| TicketClassifier.HitsAboveFloorBeatMisses | show-my-iypn-main/show-my-iypn-main/src/components/TicketClassifier.tsx:28-50 | with every draw 0, a category holding more than 5% of all keyword hits ends strictly above every category with no hit |
| TicketClassifier.EqualSharesAreUniform | show-my-iypn-main/show-my-iypn-main/src/components/TicketClassifier.tsx:44-50 | equal floored shares end as exactly 1/5 each |
| TicketClassifier.ZeroScoresGiveUniformResult | show-my-iypn-main/show-my-iypn-main/src/components/TicketClassifier.tsx:39-50 | when all perturbed scores are 0, `totalScore` falls back to 1 and every category ends at exactly 1/5 |
| TicketClassifier.EmptyTicketScoresAreDraws | show-my-iypn-main/show-my-iypn-main/src/components/TicketClassifier.tsx:28-37 | the empty ticket hits no keyword, so its scores are the draws alone |
| TicketClassifier.EmptyTicketEqualDrawsUniform | show-my-iypn-main/show-my-iypn-main/src/components/TicketClassifier.tsx:28-50 | the empty ticket with equal draws for every category gives every category exactly 1/5 |
| TicketClassifier.LeaderShareAboveOthers | show-my-iypn-main/show-my-iypn-main/src/components/TicketClassifier.tsx:39-44 | a non-negative score strictly above all others gives a floored share strictly above all others |
| TicketClassifier.LargestShareRankedFirst | show-my-iypn-main/show-my-iypn-main/src/components/TicketClassifier.tsx:46-53 | the category with strictly the largest floored share is ranked first |
| TicketClassifier.StrictLeaderIsPredicted | show-my-iypn-main/show-my-iypn-main/src/components/TicketClassifier.tsx:14-57 | with draws in [0, 0.5), a category whose perturbed score is strictly the largest is the predicted category |
| TicketClassifier.FirstIsLargest | show-my-iypn-main/show-my-iypn-main/src/components/TicketClassifier.tsx:46 | in a ranking ordered highest first, no entry exceeds the first |
| TicketClassifier.NoiselessKeywordLeader | show-my-iypn-main/show-my-iypn-main/src/components/TicketClassifier.tsx:14-57 | with every draw 0, a ticket with strictly more hits for one category than for any other is classified as that category |
| TicketClassifier.CaseInsensitive | show-my-iypn-main/show-my-iypn-main/src/components/TicketClassifier.tsx:15 | a ticket and its lower-cased form are classified identically for the same draws |
| TicketClassifier.FlooredCategoryEndsBelowFloor | show-my-iypn-main/show-my-iypn-main/src/components/TicketClassifier.tsx:44-50 | once the floored shares add up to more than 1, a category raised to the floor ends strictly below 0.05 |
| TicketClassifier.FloorLostBelowOneLeader | show-my-iypn-main/show-my-iypn-main/src/components/TicketClassifier.tsx:44-50 | with scores (0.4, 0, 0, 0, 0) some category ends below 0.05 |
| TicketClassifier.FloorNotKeptAfterRescaling | show-my-iypn-main/show-my-iypn-main/src/components/TicketClassifier.tsx:44-50 | the empty ticket with draws (0.4, 0, 0, 0, 0) has a final probability below 0.05 |
| TicketClassifier.ScoreCategories | show-my-iypn-main/show-my-iypn-main/src/components/TicketClassifier.tsx:26-37 | filling the `scores` record and then adding the draws in place yields each category's hit count plus its draw |
| TicketClassifier.ShareArray | show-my-iypn-main/show-my-iypn-main/src/components/TicketClassifier.tsx:39-45 | the fresh `probabilities` array holds every category in declaration order with its share of the guarded total, raised to 0.05 |
| TicketClassifier.RescaleInPlace | show-my-iypn-main/show-my-iypn-main/src/components/TicketClassifier.tsx:49-50 | dividing every entry in place by the sum taken first leaves exactly the rescaled ranking |
| TicketClassifier.ClassifyTicket | show-my-iypn-main/show-my-iypn-main/src/components/TicketClassifier.tsx:14-57 | the step-by-step classification on arrays returns exactly `Classify` of the text and the draws |

## Left out

- `Math.random()` is not modelled. The draws are a parameter, one per
  category in declaration order. Properties that depend on their range
  require `IsNoise`.
- IEEE-754 double arithmetic is not modelled. Scores, shares and sums are
  exact reals, so rounding in the divisions and in the final sum is outside
  the model. This includes a final sum that differs from 1 in the last bit.
- `toLowerCase` covers ASCII capitals only. Unicode case mapping, which can
  also change the length of a string, is not modelled.
- The result's `category` field is the label string in the source. The
  model returns the `Category` value. `Label` gives the string, and
  `CategoriesDistinct` shows that the two determine each other.
- The `|| 1` fallback also replaces `NaN`. NaN cannot arise from these
  inputs, and reals have no NaN.
- Scoring.RawScores: its contract states only the shape of the result.
  The count of each category is stated by RawScoreCountsKeywords.
- Scoring.Sum: it has no contract of its own. SumAddsLastEntry shows that
  it adds up as the `reduce` calls do, and SumBoundsElements, SumAtLeast and
  SumAtMost bound it.
- Scoring.Perturbed: its contract states only the shape of the result.
  What it computes is stated by MoreHitsHigherScore and ScoreCategories.
- TicketClassifier.Scores: its contract states only the shape of the
  result. What it computes is stated by EmptyTicketScoresAreDraws and the
  lemmas that take the scores as given.
- TicketClassifier.Final: its contract states only the shape of the result.
  What it computes is stated by FinalByCategory, FinalIsDistribution,
  FinalIsRanked and FinalTiesInDeclarationOrder.
- The React component is not part of this model. That covers its state,
  the simulated delay, the example tickets, the category styles and the
  animation. The rest of the site is not part of it either, including
  the confusion matrix, metrics cards, header and architecture pages.
