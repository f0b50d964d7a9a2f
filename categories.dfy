/**
 * The fixed vocabulary of the classifier: the five ticket categories, the
 * keyword table that triggers each of them, and the shape of a
 * classification result.
 */
module Categories {
  import opened Text

  /** The ticket categories, one constructor per key of the keyword table. */
  datatype Category = Billing | Technical | Refund | Cancellation | Product

  /** The categories in the order the keyword table declares them, which is
      the order in which its entries are enumerated. */
  const All: seq<Category> := [Billing, Technical, Refund, Cancellation, Product]

  /** The label under which the result reports a category. */
  function Label(c: Category): string {
    match c
    case Billing => "Billing inquiry"
    case Technical => "Technical issue"
    case Refund => "Refund request"
    case Cancellation => "Cancellation request"
    case Product => "Product inquiry"
  }

  /** Position of a category in declaration order. */
  function Index(c: Category): (i: nat)
    ensures i < |All| && All[i] == c
  {
    match c
    case Billing => 0
    case Technical => 1
    case Refund => 2
    case Cancellation => 3
    case Product => 4
  }

  /** The keyword table: the trigger substrings of each category, in order. */
  function Keywords(c: Category): (ws: seq<string>)
    ensures ws != []
  {
    match c
    case Billing =>
      ["bill", "payment", "charge", "invoice", "account", "subscription", "price", "cost", "fee"]
    case Technical =>
      ["error", "bug", "crash", "not working", "problem", "issue", "broken", "fix", "setup",
       "install", "network", "slow"]
    case Refund =>
      ["refund", "money back", "return", "reimburse", "cancel order", "want my money"]
    case Cancellation =>
      ["cancel", "unsubscribe", "stop", "end subscription", "terminate", "close account"]
    case Product =>
      ["feature", "how to", "what is", "does it", "can it", "specifications", "compatible", "support"]
  }

  /** No keyword is shorter than three characters. */
  lemma KeywordsAtLeastThreeLong(c: Category)
    ensures forall w :: w in Keywords(c) ==> |w| >= 3
  {
  }

  /** Every category occurs exactly once in declaration order, and labels
      tell categories apart. */
  lemma {:induction false} CategoriesDistinct(c: Category, d: Category)
    ensures Index(c) == Index(d) <==> c == d
    ensures Label(c) == Label(d) <==> c == d
    ensures multiset(All)[c] == 1
  {
    assert All == [Billing, Technical, Refund, Cancellation, Product];
    assert Label(c) == Label(d) ==> Label(c)[0] == Label(d)[0] && |Label(c)| == |Label(d)|;
  }

  /** One entry of `allProbabilities`. */
  datatype Prediction = Prediction(category: Category, probability: real)

  /** What a classification returns: the predicted category, its probability
      and the whole ranked distribution. */
  datatype ClassificationResult = ClassificationResult(
    category: Category,
    confidence: real,
    allProbabilities: seq<Prediction>)

  /** The probabilities of a list of predictions, in the same order. */
  function Probabilities(ps: seq<Prediction>): seq<real> {
    seq(|ps|, i requires 0 <= i < |ps| => ps[i].probability)
  }

  /** The categories of a list of predictions, in the same order. */
  function CategoriesOf(ps: seq<Prediction>): seq<Category> {
    seq(|ps|, i requires 0 <= i < |ps| => ps[i].category)
  }

  /** The probability a ranking gives category `c`: that of the first entry
      for `c`, or 0 when no entry is for `c`. */
  function ProbabilityOf(ps: seq<Prediction>, c: Category): real {
    if ps == [] then 0.0
    else if ps[0].category == c then ps[0].probability
    else ProbabilityOf(ps[1..], c)
  }

  /** When a ranking has an entry for `c` and all its entries for `c` carry
      probability `p`, the ranking gives `c` probability `p`. */
  lemma {:induction false} ProbabilityOfEntry(ps: seq<Prediction>, c: Category, p: real)
    requires c in CategoriesOf(ps)
    requires forall i :: 0 <= i < |ps| && ps[i].category == c ==> ps[i].probability == p
    ensures ProbabilityOf(ps, c) == p
  {
    if ps[0].category != c {
      assert CategoriesOf(ps) == [ps[0].category] + CategoriesOf(ps[1..]);
      ProbabilityOfEntry(ps[1..], c, p);
    }
  }
}
