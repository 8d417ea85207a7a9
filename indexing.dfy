/** The flat storage slots behind the two-dimensional tables of the wizard.

    Five ideas with three possibilities each, and three formation columns per
    idea, share the slots 1..15 of `pos{n}` and `pastel_grupo{n}`; three formed
    concepts with five criteria each share the slots 1..15 of `ca{n}`. */
module Indexing {

  const MaxIdeas := 5
  const SlotsPerIdea := 3
  const FormedConcepts := 3
  const NumCriteria := 5

  predicate IsIdea(c: int) { 1 <= c <= MaxIdeas }
  predicate IsSlot(n: int) { 1 <= n <= SlotsPerIdea }
  predicate IsColumn(col: int) { 1 <= col <= FormedConcepts }
  predicate IsCriterion(i: int) { 1 <= i <= NumCriteria }

  /** Slot of possibility `n` (or formation column `n`) of idea `idea`:
      `(idea - 1) * 3 + n`. */
  function FlatIndex(idea: int, n: int): int {
    (idea - 1) * SlotsPerIdea + n
  }

  /** The idea and the slot a flat index 1..15 stands for. */
  function IdeaOf(k: int): int { (k - 1) / SlotsPerIdea + 1 }
  function SlotOf(k: int): int { (k - 1) % SlotsPerIdea + 1 }

  /** Slot of the rating of formed concept `col` on criterion `crit`:
      `(col - 1) * 5 + crit`. */
  function RatingIndex(col: int, crit: int): int {
    (col - 1) * NumCriteria + crit
  }

  function ColumnOf(k: int): int { (k - 1) / NumCriteria + 1 }
  function CriterionOf(k: int): int { (k - 1) % NumCriteria + 1 }

  /** Every (idea, slot) lands in 1..15, inside the idea's own block of three. */
  lemma FlatIndexRange(idea: int, n: int)
    requires IsIdea(idea) && IsSlot(n)
    ensures 1 <= FlatIndex(idea, n) <= MaxIdeas * SlotsPerIdea
    ensures (idea - 1) * SlotsPerIdea < FlatIndex(idea, n) <= idea * SlotsPerIdea
  {
  }

  /** The flat index and the pair (IdeaOf, SlotOf) are inverse to each other. */
  lemma FlatIndexRoundTrip(idea: int, n: int)
    requires IsIdea(idea) && IsSlot(n)
    ensures IdeaOf(FlatIndex(idea, n)) == idea && SlotOf(FlatIndex(idea, n)) == n
  {
    var k := FlatIndex(idea, n);
    assert k - 1 == (idea - 1) * SlotsPerIdea + (n - 1);
  }

  lemma FlatIndexOnto(k: int)
    requires 1 <= k <= MaxIdeas * SlotsPerIdea
    ensures IsIdea(IdeaOf(k)) && IsSlot(SlotOf(k))
    ensures FlatIndex(IdeaOf(k), SlotOf(k)) == k
  {
  }

  /** Distinct (idea, slot) pairs never share a flat slot. */
  lemma FlatIndexInjective(i1: int, n1: int, i2: int, n2: int)
    requires IsIdea(i1) && IsSlot(n1) && IsIdea(i2) && IsSlot(n2)
    ensures FlatIndex(i1, n1) == FlatIndex(i2, n2) <==> i1 == i2 && n1 == n2
  {
    if FlatIndex(i1, n1) == FlatIndex(i2, n2) {
      FlatIndexRoundTrip(i1, n1);
      FlatIndexRoundTrip(i2, n2);
    }
  }

  lemma RatingIndexRoundTrip(col: int, crit: int)
    requires IsColumn(col) && IsCriterion(crit)
    ensures 1 <= RatingIndex(col, crit) <= FormedConcepts * NumCriteria
    ensures ColumnOf(RatingIndex(col, crit)) == col && CriterionOf(RatingIndex(col, crit)) == crit
  {
    var k := RatingIndex(col, crit);
    assert k - 1 == (col - 1) * NumCriteria + (crit - 1);
  }

  lemma RatingIndexInjective(c1: int, i1: int, c2: int, i2: int)
    requires IsColumn(c1) && IsCriterion(i1) && IsColumn(c2) && IsCriterion(i2)
    ensures RatingIndex(c1, i1) == RatingIndex(c2, i2) <==> c1 == c2 && i1 == i2
  {
    if RatingIndex(c1, i1) == RatingIndex(c2, i2) {
      RatingIndexRoundTrip(c1, i1);
      RatingIndexRoundTrip(c2, i2);
    }
  }

  /** The `ca` slots of one formed concept. */
  function ColumnSlots(col: int): set<int> {
    set i | 1 <= i <= NumCriteria :: RatingIndex(col, i)
  }

  /** The three columns' rating slots are pairwise disjoint and together are
      exactly 1..15. */
  lemma ColumnSlotsPartition()
    ensures forall c1, c2 | IsColumn(c1) && IsColumn(c2) && c1 != c2 :: ColumnSlots(c1) !! ColumnSlots(c2)
    ensures forall k :: k in ColumnSlots(1) + ColumnSlots(2) + ColumnSlots(3) <==> 1 <= k <= FormedConcepts * NumCriteria
  {
    forall c1, c2 | IsColumn(c1) && IsColumn(c2) && c1 != c2
      ensures ColumnSlots(c1) !! ColumnSlots(c2)
    {
      forall k | k in ColumnSlots(c1) ensures k !in ColumnSlots(c2) {
        var i :| 1 <= i <= NumCriteria && k == RatingIndex(c1, i);
        forall j | 1 <= j <= NumCriteria ensures k != RatingIndex(c2, j) {
          RatingIndexInjective(c1, i, c2, j);
        }
      }
    }
    forall k | 1 <= k <= FormedConcepts * NumCriteria ensures k in ColumnSlots(1) + ColumnSlots(2) + ColumnSlots(3) {
      var col, crit := ColumnOf(k), CriterionOf(k);
      assert RatingIndex(col, crit) == k;
      assert k in ColumnSlots(col);
    }
  }
}
