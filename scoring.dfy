/** The weighted scoring shared by the evaluation of the initial ideas and the
    evaluation of the three formed concepts: ratings 0..10 per criterion, one
    weight per criterion, score = sum of rating * weight, a "computed" flag per
    scored entity and a stored result. */
module Scoring {
  import opened Store
  import opened Indexing

  /** What is being scored: an initial idea 1..5 (keys `calif{c}_{i}`,
      `resultado{c}`, `calculado{c}`) or a formed concept 1..3 (keys
      `ca{(col-1)*5+i}`, `resultado{col+3}`, `calculadoFormado{col}`). */
  datatype Scorable = Idea | Formed

  predicate IsOwner(s: Scorable, owner: int) {
    match s
    case Idea => IsIdea(owner)
    case Formed => IsColumn(owner)
  }

  function RatingKey(s: Scorable, owner: int, crit: int): Key {
    match s
    case Idea => Calif(owner, crit)
    case Formed => Ca(RatingIndex(owner, crit))
  }

  /** Where the result of an owner is kept: `resultado{c}` for idea c, and
      `resultado{col+5}` for formed concept col, past the five ideas. The
      pages write the formed results at `resultado{col+3}` instead
      (WrittenResultKey), which collides with ideas 4 and 5; the model uses
      the separated slots. */
  function ResultKey(s: Scorable, owner: int): Key {
    match s
    case Idea => Resultado(owner)
    case Formed => Resultado(owner + MaxIdeas)
  }

  /** The result keys as the pages write them: `resultado{c}` for idea c and
      `resultado{col+3}` for formed concept col. */
  function WrittenResultKey(s: Scorable, owner: int): Key {
    match s
    case Idea => Resultado(owner)
    case Formed => Resultado(owner + FormedConcepts)
  }

  function FlagKey(s: Scorable, owner: int): Key {
    match s
    case Idea => Calculado(owner)
    case Formed => CalculadoFormado(owner)
  }

  /** No two (owner, criterion) pairs share a rating key, and no two owners
      share a result key or a flag key. */
  lemma KeysInjective(s: Scorable, o1: int, c1: int, o2: int, c2: int)
    requires IsOwner(s, o1) && IsOwner(s, o2) && IsCriterion(c1) && IsCriterion(c2)
    ensures RatingKey(s, o1, c1) == RatingKey(s, o2, c2) <==> o1 == o2 && c1 == c2
    ensures ResultKey(s, o1) == ResultKey(s, o2) <==> o1 == o2
    ensures FlagKey(s, o1) == FlagKey(s, o2) <==> o1 == o2
  {
    if s.Formed? { RatingIndexInjective(o1, c1, o2, c2); }
  }

  /** As written, the formed concepts' results `resultado4..6` share
      `resultado4` and `resultado5` with ideas 4 and 5. */
  lemma ResultKeysOverlap()
    ensures WrittenResultKey(Idea, 4) == WrittenResultKey(Formed, 1)
    ensures WrittenResultKey(Idea, 5) == WrittenResultKey(Formed, 2)
  {
  }

  /** As written, a result stored for idea 4 is what the formed-concept page
      reads back as formed concept 1's result, and is enough for that page's
      reload to mark formed concept 1 computed; the reverse also holds. */
  lemma WrittenResultReadAcross(d: Record, x: real)
    ensures var e := d[WrittenResultKey(Idea, 4) := Number(x)];
      Get(e, WrittenResultKey(Formed, 1)) == Some(Number(x)) && Has(e, WrittenResultKey(Formed, 1))
    ensures var e := d[WrittenResultKey(Formed, 1) := Number(x)];
      Get(e, WrittenResultKey(Idea, 4)) == Some(Number(x)) && Has(e, WrittenResultKey(Idea, 4))
  {
  }

  /** With the separated slots no idea shares a result key with a formed
      concept, so the ideas and the formed concepts own eight distinct
      result keys. */
  lemma ResultKeysSeparate(s1: Scorable, o1: int, s2: Scorable, o2: int)
    requires IsOwner(s1, o1) && IsOwner(s2, o2)
    ensures ResultKey(s1, o1) == ResultKey(s2, o2) <==> s1 == s2 && o1 == o2
  {
  }

  /** Hence storing or clearing one owner's result leaves the stored result
      of every other owner, of either kind, as it was. */
  lemma ResultWriteKeepsOthers(d: Record, s1: Scorable, o1: int, v: Value, s2: Scorable, o2: int)
    requires IsOwner(s1, o1) && IsOwner(s2, o2) && (s1 != s2 || o1 != o2)
    ensures Get(d[ResultKey(s1, o1) := v], ResultKey(s2, o2)) == Get(d, ResultKey(s2, o2))
  {
    ResultKeysSeparate(s1, o1, s2, o2);
  }

  predicate InRange(x: real) { 0.0 <= x <= 10.0 }

  predicate AllInRange(r: seq<real>) {
    forall i | 0 <= i < |r| :: InRange(r[i])
  }

  /** One rating's share of the score. */
  function Weighted(rating: real, weight: real): real {
    rating * weight
  }

  /** Sum of r[i] * w[i]. */
  function WeightedSum(r: seq<real>, w: seq<real>): real
    requires |r| == |w|
  {
    if |r| == 0 then 0.0
    else WeightedSum(r[..|r| - 1], w[..|w| - 1]) + Weighted(r[|r| - 1], w[|w| - 1])
  }

  lemma WeightedSumStep(r: seq<real>, w: seq<real>, k: nat)
    requires |r| == |w| && k < |r|
    ensures WeightedSum(r[..k + 1], w[..k + 1]) == WeightedSum(r[..k], w[..k]) + Weighted(r[k], w[k])
  {
    assert r[..k + 1][..k] == r[..k];
    assert w[..k + 1][..k] == w[..k];
  }

  /** The sum of r[i] * w[i] over the first n criteria, as calcular's loop
      accumulates it. */
  function SumUpTo(r: seq<real>, w: seq<real>, n: nat): real
    requires n <= |r| == |w|
  {
    if n == 0 then 0.0 else SumUpTo(r, w, n - 1) + Weighted(r[n - 1], w[n - 1])
  }

  lemma {:induction false} SumUpToSpec(r: seq<real>, w: seq<real>, n: nat)
    requires n <= |r| == |w|
    ensures SumUpTo(r, w, n) == WeightedSum(r[..n], w[..n])
  {
    if n > 0 {
      SumUpToSpec(r, w, n - 1);
      WeightedSumStep(r, w, n - 1);
    }
  }

  /** With every rating in 0..10 and every weight non-negative, the score lies
      between 0 and 10 times the sum of the weights. */
  lemma {:induction false} WeightedSumBounds(r: seq<real>, w: seq<real>)
    requires |r| == |w| && AllInRange(r)
    requires forall i | 0 <= i < |w| :: w[i] >= 0.0
    ensures 0.0 <= WeightedSum(r, w) <= 10.0 * Total(w)
  {
    if |r| > 0 {
      var n := |r| - 1;
      WeightedSumBounds(r[..n], w[..n]);
      assert w[..n] == w[..|w| - 1];
      assert WeightedSum(r, w) == WeightedSum(r[..n], w[..n]) + Weighted(r[n], w[n]);
      assert Total(w) == Total(w[..n]) + w[n];
      assert 0.0 <= r[n] <= 10.0;
      WeightedBounds(r[n], w[n]);
    }
  }

  lemma WeightedBounds(x: real, y: real)
    requires 0.0 <= x <= 10.0 && y >= 0.0
    ensures 0.0 <= Weighted(x, y) <= 10.0 * y
  {
    ProductNonneg(x, y);
    ProductNonneg(10.0 - x, y);
  }

  function Total(w: seq<real>): real {
    if |w| == 0 then 0.0 else Total(w[..|w| - 1]) + w[|w| - 1]
  }

  /** The weights of criteria 1..5: `parseFloat(data['peso' + i]) || 0`. */
  function Weights(d: Record): (w: seq<real>)
    ensures |w| == NumCriteria
  {
    seq(NumCriteria, i => NumOr0(d, Peso(i + 1)))
  }

  /** The stored ratings of one owner, a missing or unparsable one as 0. */
  function StoredRatings(d: Record, s: Scorable, owner: int): (r: seq<real>)
    ensures |r| == NumCriteria
  {
    seq(NumCriteria, i => NumOr0(d, RatingKey(s, owner, i + 1)))
  }

  // ---------------------------------------------------------------------------
  // The rating inputs of a page: one number input per (owner, criterion).

  type Inputs = map<(int, int), Option<real>>

  /** A blank rating is auto-filled with 0 before scoring. */
  function Filled(v: Option<real>): real {
    match v
    case None => 0.0
    case Some(x) => x
  }

  predicate HasRow(inputs: Inputs, owner: int) {
    forall i | 1 <= i <= NumCriteria :: (owner, i) in inputs
  }

  /** The ratings `calcular` scores: the owner's inputs, blanks read as 0. */
  function FilledRatings(inputs: Inputs, owner: int): (r: seq<real>)
    ensures |r| == NumCriteria
  {
    seq(NumCriteria, i => if (owner, i + 1) in inputs then Filled(inputs[(owner, i + 1)]) else 0.0)
  }

  /** The owner's inputs after `calcular`: each blank one among criteria
      1..n now holds 0. */
  function FillRowUpTo(inputs: Inputs, owner: int, n: nat): Inputs {
    if n == 0 then inputs
    else
      var prev := FillRowUpTo(inputs, owner, n - 1);
      if (owner, n) in inputs then prev[(owner, n) := Some(Filled(inputs[(owner, n)]))] else prev
  }

  function FillRow(inputs: Inputs, owner: int): Inputs {
    FillRowUpTo(inputs, owner, NumCriteria)
  }

  lemma {:induction false} FillRowUpToSpec(inputs: Inputs, owner: int, n: nat)
    ensures FillRowUpTo(inputs, owner, n).Keys == inputs.Keys
    ensures forall k | k in inputs ::
      FillRowUpTo(inputs, owner, n)[k] == if k.0 == owner && 1 <= k.1 <= n then Some(Filled(inputs[k])) else inputs[k]
  {
    if n > 0 { FillRowUpToSpec(inputs, owner, n - 1); }
  }

  lemma {:induction false} FillRowUpToAhead(inputs: Inputs, owner: int, n: nat, m: int)
    requires n < m && (owner, m) in inputs
    ensures (owner, m) in FillRowUpTo(inputs, owner, n)
    ensures FillRowUpTo(inputs, owner, n)[(owner, m)] == inputs[(owner, m)]
  {
    if n > 0 { FillRowUpToAhead(inputs, owner, n - 1, m); }
  }

  /** Filling blanks with 0 does not change what the row scores, and leaves
      every other row alone. */
  lemma FillRowSpec(inputs: Inputs, owner: int)
    ensures FillRow(inputs, owner).Keys == inputs.Keys
    ensures FilledRatings(FillRow(inputs, owner), owner) == FilledRatings(inputs, owner)
    ensures forall o | o != owner :: FilledRatings(FillRow(inputs, owner), o) == FilledRatings(inputs, o)
    ensures forall i | IsCriterion(i) && (owner, i) in inputs :: FillRow(inputs, owner)[(owner, i)].Some?
  {
    FillRowUpToSpec(inputs, owner, NumCriteria);
  }

  /** Every non-blank rating input holds a number in 0..10 (`validateAll`). */
  predicate RatingsValid(inputs: Inputs) {
    forall k | k in inputs :: inputs[k].Some? ==> InRange(inputs[k].value)
  }

  // ---------------------------------------------------------------------------
  // calcular and the rating-edit listener, as functions of the record.

  /** The record after the ratings r[0..n) of `owner` are written. */
  function WithRatings(d: Record, s: Scorable, owner: int, r: seq<real>, n: nat): Record
    requires n <= |r|
  {
    if n == 0 then d else WithRatings(d, s, owner, r, n - 1)[RatingKey(s, owner, n) := Number(r[n - 1])]
  }

  /** The record after `calcular(owner)` with ratings r: the ratings are stored;
      when all of them lie in 0..10 the weighted sum is stored as the result and
      the owner is flagged computed, otherwise the flag is cleared and the old
      result is left in place. */
  function Calculate(d: Record, s: Scorable, owner: int, r: seq<real>): Record
    requires |r| == NumCriteria
  {
    var stored := WithRatings(d, s, owner, r, NumCriteria);
    if AllInRange(r) then
      stored[ResultKey(s, owner) := Number(WeightedSum(r, Weights(d)))][FlagKey(s, owner) := Flag(true)]
    else
      stored[FlagKey(s, owner) := Flag(false)]
  }

  /** The record after a rating of `owner` is edited: a computed owner loses
      its flag and its result becomes `null`; otherwise nothing changes. */
  function Invalidate(d: Record, s: Scorable, owner: int): Record {
    if Has(d, FlagKey(s, owner)) then
      d[FlagKey(s, owner) := Flag(false)][ResultKey(s, owner) := Null]
    else d
  }

  predicate IsRatingKeyOf(s: Scorable, owner: int, k: Key) {
    exists i | 1 <= i <= NumCriteria :: k == RatingKey(s, owner, i)
  }

  lemma {:induction false} WithRatingsSpec(d: Record, s: Scorable, owner: int, r: seq<real>, n: nat)
    requires IsOwner(s, owner) && n <= |r| && n <= NumCriteria
    ensures forall i | 1 <= i <= n ::
      (RatingKey(s, owner, i) in WithRatings(d, s, owner, r, n)
       && WithRatings(d, s, owner, r, n)[RatingKey(s, owner, i)] == Number(r[i - 1]))
    ensures forall k | !IsRatingKeyOf(s, owner, k) :: Get(WithRatings(d, s, owner, r, n), k) == Get(d, k)
  {
    if n > 0 {
      WithRatingsSpec(d, s, owner, r, n - 1);
      forall i | 1 <= i < n ensures RatingKey(s, owner, i) != RatingKey(s, owner, n) {
        KeysInjective(s, owner, i, owner, n);
      }
    }
  }

  /** Writing ratings leaves every key that is not a rating key alone. */
  lemma {:induction false} WithRatingsKeepsOthers(d: Record, s: Scorable, owner: int, r: seq<real>, n: nat, k: Key)
    requires n <= |r| && !k.Calif? && !k.Ca?
    ensures Get(WithRatings(d, s, owner, r, n), k) == Get(d, k)
  {
    if n > 0 { WithRatingsKeepsOthers(d, s, owner, r, n - 1, k); }
  }

  /** Writing the ratings 1..n of `owner` leaves every other key alone. */
  lemma {:induction false} WithRatingsKeepsKey(d: Record, s: Scorable, owner: int, r: seq<real>, n: nat, k: Key)
    requires n <= |r|
    requires forall c | 1 <= c <= n :: k != RatingKey(s, owner, c)
    ensures Get(WithRatings(d, s, owner, r, n), k) == Get(d, k)
  {
    if n > 0 { WithRatingsKeepsKey(d, s, owner, r, n - 1, k); }
  }

  /** `calcular` stores every rating it scored at the owner's rating keys. */
  lemma CalculateStoresRatings(d: Record, s: Scorable, owner: int, r: seq<real>)
    requires IsOwner(s, owner) && |r| == NumCriteria
    ensures StoredRatings(Calculate(d, s, owner, r), s, owner) == r
    ensures forall i | IsCriterion(i) ::
      (RatingKey(s, owner, i) in Calculate(d, s, owner, r)
       && Calculate(d, s, owner, r)[RatingKey(s, owner, i)] == Number(r[i - 1]))
  {
    WithRatingsSpec(d, s, owner, r, NumCriteria);
  }

  /** All ratings in 0..10: the result is the weighted sum and the flag is set. */
  lemma CalculateAccepted(d: Record, s: Scorable, owner: int, r: seq<real>)
    requires IsOwner(s, owner) && |r| == NumCriteria && AllInRange(r)
    ensures Calculate(d, s, owner, r)[ResultKey(s, owner)] == Number(WeightedSum(r, Weights(d)))
    ensures Calculate(d, s, owner, r)[FlagKey(s, owner)] == Flag(true)
  {
  }

  /** Some rating outside 0..10: the flag is cleared and the stored result,
      or its absence, is kept. */
  lemma CalculateRejected(d: Record, s: Scorable, owner: int, r: seq<real>)
    requires IsOwner(s, owner) && |r| == NumCriteria && !AllInRange(r)
    ensures Calculate(d, s, owner, r)[FlagKey(s, owner)] == Flag(false)
    ensures Get(Calculate(d, s, owner, r), ResultKey(s, owner)) == Get(d, ResultKey(s, owner))
  {
    WithRatingsSpec(d, s, owner, r, NumCriteria);
  }

  /** `calcular` touches only the owner's ratings, result and flag. */
  lemma CalculateFrame(d: Record, s: Scorable, owner: int, r: seq<real>, k: Key)
    requires IsOwner(s, owner) && |r| == NumCriteria
    requires !IsRatingKeyOf(s, owner, k) && k != ResultKey(s, owner) && k != FlagKey(s, owner)
    ensures Get(Calculate(d, s, owner, r), k) == Get(d, k)
  {
    WithRatingsSpec(d, s, owner, r, NumCriteria);
  }

  /** A computed owner's stored result is the weighted sum of its stored
      ratings under the stored weights. */
  predicate Consistent(d: Record, s: Scorable, owner: int) {
    Has(d, FlagKey(s, owner)) ==>
      ResultKey(s, owner) in d && d[ResultKey(s, owner)] == Number(WeightedSum(StoredRatings(d, s, owner), Weights(d)))
  }

  /** Both `calcular` and the edit listener leave the owner consistent. */
  lemma CalculateConsistent(d: Record, s: Scorable, owner: int, r: seq<real>)
    requires IsOwner(s, owner) && |r| == NumCriteria
    ensures Consistent(Calculate(d, s, owner, r), s, owner)
  {
    CalculateStoresRatings(d, s, owner, r);
    CalculateKeepsWeights(d, s, owner, r);
    if AllInRange(r) {
      CalculateAccepted(d, s, owner, r);
    }
  }

  /** `calcular` writes no weight. */
  lemma CalculateKeepsWeights(d: Record, s: Scorable, owner: int, r: seq<real>)
    requires IsOwner(s, owner) && |r| == NumCriteria
    ensures Weights(Calculate(d, s, owner, r)) == Weights(d)
  {
    var e := Calculate(d, s, owner, r);
    forall i | 0 <= i < NumCriteria ensures Weights(e)[i] == Weights(d)[i] {
      CalculateFrame(d, s, owner, r, Peso(i + 1));
    }
  }

  lemma InvalidateSpec(d: Record, s: Scorable, owner: int)
    ensures !Has(Invalidate(d, s, owner), FlagKey(s, owner))
    ensures Consistent(Invalidate(d, s, owner), s, owner)
    ensures Has(d, FlagKey(s, owner)) ==> Invalidate(d, s, owner)[ResultKey(s, owner)] == Null
    ensures forall k | k != FlagKey(s, owner) && k != ResultKey(s, owner) ::
      Get(Invalidate(d, s, owner), k) == Get(d, k)
    ensures !Has(d, FlagKey(s, owner)) ==> Invalidate(d, s, owner) == d
  {
  }

  /** Invalidating one owner leaves every other owner's flag and result alone. */
  lemma InvalidateOthers(d: Record, s: Scorable, owner: int, other: int)
    requires IsOwner(s, owner) && IsOwner(s, other) && owner != other
    ensures Get(Invalidate(d, s, owner), FlagKey(s, other)) == Get(d, FlagKey(s, other))
    ensures Get(Invalidate(d, s, owner), ResultKey(s, other)) == Get(d, ResultKey(s, other))
  {
    KeysInjective(s, owner, 1, other, 1);
  }

  /** Two records agree on everything `Consistent` reads for owner o: its
      flag, its result, its ratings and the weights. */
  predicate SameScoreView(d: Record, e: Record, t: Scorable, o: int) {
    && Get(e, FlagKey(t, o)) == Get(d, FlagKey(t, o))
    && Get(e, ResultKey(t, o)) == Get(d, ResultKey(t, o))
    && (forall i | 1 <= i <= NumCriteria :: Get(e, RatingKey(t, o, i)) == Get(d, RatingKey(t, o, i)))
    && (forall i | 1 <= i <= NumCriteria :: Get(e, Peso(i)) == Get(d, Peso(i)))
  }

  lemma ConsistentTransfers(d: Record, e: Record, t: Scorable, o: int)
    requires Consistent(d, t, o) && SameScoreView(d, e, t, o)
    ensures Consistent(e, t, o)
  {
    forall i | 0 <= i < NumCriteria
      ensures StoredRatings(e, t, o)[i] == StoredRatings(d, t, o)[i] && Weights(e)[i] == Weights(d)[i]
    {
      assert Get(e, RatingKey(t, o, i + 1)) == Get(d, RatingKey(t, o, i + 1));
      assert Get(e, Peso(i + 1)) == Get(d, Peso(i + 1));
    }
    assert StoredRatings(e, t, o) == StoredRatings(d, t, o);
    assert Weights(e) == Weights(d);
    if Has(e, FlagKey(t, o)) {
      assert Has(d, FlagKey(t, o));
      assert Get(e, ResultKey(t, o)) == Get(d, ResultKey(t, o));
    }
  }

  /** `calcular` of any owner keeps every owner of either page consistent:
      the owner calculated by the first clause of CalculateConsistent, any
      other because none of the keys its consistency reads is written. */
  lemma CalculateKeepsConsistent(d: Record, s: Scorable, owner: int, r: seq<real>, t: Scorable, o: int)
    requires IsOwner(s, owner) && IsOwner(t, o) && |r| == NumCriteria
    requires Consistent(d, t, o)
    ensures Consistent(Calculate(d, s, owner, r), t, o)
  {
    if s == t && owner == o {
      CalculateConsistent(d, s, owner, r);
    } else {
      var e := Calculate(d, s, owner, r);
      KeysInjective(t, o, 1, o, 1);
      ResultKeysSeparate(s, owner, t, o);
      if s == t { KeysInjective(s, owner, 1, o, 1); }
      CalculateFrame(d, s, owner, r, FlagKey(t, o));
      CalculateFrame(d, s, owner, r, ResultKey(t, o));
      forall i | IsCriterion(i) ensures Get(e, RatingKey(t, o, i)) == Get(d, RatingKey(t, o, i)) {
        forall j | 1 <= j <= NumCriteria ensures RatingKey(t, o, i) != RatingKey(s, owner, j) {
          if s == t { KeysInjective(s, o, i, owner, j); }
        }
        CalculateFrame(d, s, owner, r, RatingKey(t, o, i));
      }
      forall i | IsCriterion(i) ensures Get(e, Peso(i)) == Get(d, Peso(i)) {
        CalculateFrame(d, s, owner, r, Peso(i));
      }
      ConsistentTransfers(d, e, t, o);
    }
  }

  /** The edit listener's invalidation of any owner keeps every owner of
      either page consistent. */
  lemma InvalidateKeepsConsistent(d: Record, s: Scorable, owner: int, t: Scorable, o: int)
    requires IsOwner(s, owner) && IsOwner(t, o)
    requires Consistent(d, t, o)
    ensures Consistent(Invalidate(d, s, owner), t, o)
  {
    InvalidateSpec(d, s, owner);
    if s != t || owner != o {
      ResultKeysSeparate(s, owner, t, o);
      if s == t { KeysInjective(s, owner, 1, o, 1); }
      ConsistentTransfers(d, Invalidate(d, s, owner), t, o);
    }
  }

  /** The example 8,5,0,10,6 under weights 2,2,2,2,2 scores 58. */
  lemma ScoreExample()
    ensures WeightedSum([8.0, 5.0, 0.0, 10.0, 6.0], [2.0, 2.0, 2.0, 2.0, 2.0]) == 58.0
  {
    var r := [8.0, 5.0, 0.0, 10.0, 6.0];
    var w := [2.0, 2.0, 2.0, 2.0, 2.0];
    assert r[..0] == [] && w[..0] == [];
    WeightedSumStep(r, w, 0);
    WeightedSumStep(r, w, 1);
    WeightedSumStep(r, w, 2);
    WeightedSumStep(r, w, 3);
    WeightedSumStep(r, w, 4);
    assert r[..5] == r && w[..5] == w;
  }
}
