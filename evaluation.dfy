/** The steps both evaluation pages perform on the record and on their rating
    inputs: rendering the stored ratings into the inputs, re-marking stored
    results as computed (`recalcularTodo`), scoring one owner (`calcular`),
    checking the non-blank inputs (`validateAll`), counting computed owners
    (`todosCalculados`) and storing every input (`saveAndContinue`).

    `owners` is the list of entities a page has rendered a table for, in
    page order: the existing initial ideas, or the formed concepts 1..3. */
module Evaluation {
  import opened Store
  import opened Indexing
  import opened Ideas
  import opened Scoring

  predicate OwnersOk(s: Scorable, owners: seq<int>) {
    forall j | 0 <= j < |owners| :: IsOwner(s, owners[j])
  }

  /** The (owner, criterion) pairs for which a page has a rating input. */
  function Cells(owners: seq<int>): set<(int, int)> {
    set o, i | o in owners && 1 <= i <= NumCriteria :: (o, i)
  }

  lemma CellsHaveRows(inputs: Inputs, owners: seq<int>)
    requires inputs.Keys == Cells(owners)
    ensures forall o | o in owners :: HasRow(inputs, o)
  {
    forall o, i | o in owners && 1 <= i <= NumCriteria ensures (o, i) in inputs {
      assert (o, i) in Cells(owners);
    }
  }

  /** The rating inputs right after rendering: each shows the stored rating,
      or is blank when the stored value is missing or not a number. */
  function LoadedInputs(d: Record, s: Scorable, owners: seq<int>): (r: Inputs)
    ensures r.Keys == Cells(owners)
  {
    map k | k in Cells(owners) :: ParsedOf(d, RatingKey(s, k.0, k.1))
  }

  /** Freshly rendered inputs score exactly what is stored. */
  lemma LoadedInputsMatchStored(d: Record, s: Scorable, owners: seq<int>, o: int)
    requires o in owners
    ensures FilledRatings(LoadedInputs(d, s, owners), o) == StoredRatings(d, s, o)
  {
    var inputs := LoadedInputs(d, s, owners);
    forall i | 0 <= i < NumCriteria
      ensures FilledRatings(inputs, o)[i] == StoredRatings(d, s, o)[i]
    {
      assert (o, i + 1) in Cells(owners);
    }
  }

  // ---------------------------------------------------------------------------
  // recalcularTodo

  /** The record after `recalcularTodo`: each owner with a truthy stored
      result is flagged computed again. */
  function Adopted(d: Record, s: Scorable, owners: seq<int>): Record
    decreases |owners|
  {
    if owners == [] then d
    else
      var e := Adopted(d, s, owners[..|owners| - 1]);
      var o := owners[|owners| - 1];
      if Has(e, ResultKey(s, o)) then e[FlagKey(s, o) := Flag(true)] else e
  }

  predicate IsFlagOf(s: Scorable, owners: seq<int>, k: Key) {
    exists j | 0 <= j < |owners| :: k == FlagKey(s, owners[j])
  }

  lemma {:induction false} AdoptedSpec(d: Record, s: Scorable, owners: seq<int>)
    ensures forall j | 0 <= j < |owners| && Has(d, ResultKey(s, owners[j])) ::
      Get(Adopted(d, s, owners), FlagKey(s, owners[j])) == Some(Flag(true))
    ensures forall j | 0 <= j < |owners| && !Has(d, ResultKey(s, owners[j])) ::
      Get(Adopted(d, s, owners), FlagKey(s, owners[j])) == Get(d, FlagKey(s, owners[j]))
    ensures forall k | !IsFlagOf(s, owners, k) :: Get(Adopted(d, s, owners), k) == Get(d, k)
  {
    if owners != [] {
      var prev := owners[..|owners| - 1];
      var o := owners[|owners| - 1];
      AdoptedSpec(d, s, prev);
      var e := Adopted(d, s, prev);
      assert Get(e, ResultKey(s, o)) == Get(d, ResultKey(s, o)) by {
        assert !IsFlagOf(s, prev, ResultKey(s, o));
      }
      forall k | !IsFlagOf(s, owners, k) ensures Get(Adopted(d, s, owners), k) == Get(d, k) {
        assert !IsFlagOf(s, prev, k) by {
          forall j | 0 <= j < |prev| ensures k != FlagKey(s, prev[j]) {
            assert prev[j] == owners[j];
          }
        }
        assert k != FlagKey(s, owners[|owners| - 1]);
      }
      forall j | 0 <= j < |owners| - 1 && !Has(d, ResultKey(s, owners[j]))
        ensures Get(Adopted(d, s, owners), FlagKey(s, owners[j])) == Get(d, FlagKey(s, owners[j]))
      {
        assert owners[j] == prev[j];
        if FlagKey(s, owners[j]) == FlagKey(s, o) {
          assert FlagKey(s, owners[j]) == FlagKey(s, prev[j]);
        }
      }
      forall j | 0 <= j < |owners| - 1 && Has(d, ResultKey(s, owners[j]))
        ensures Get(Adopted(d, s, owners), FlagKey(s, owners[j])) == Some(Flag(true))
      {
        assert owners[j] == prev[j];
      }
    }
  }

  /** `recalcularTodo` changes only flags, so it never changes the existing
      ideas or any rating. */
  lemma AdoptedKeepsNonFlags(d: Record, s: Scorable, owners: seq<int>)
    ensures forall c :: Get(Adopted(d, s, owners), Concepto(c)) == Get(d, Concepto(c))
    ensures Existing(Adopted(d, s, owners)) == Existing(d)
    ensures forall o, i :: Get(Adopted(d, s, owners), RatingKey(s, o, i)) == Get(d, RatingKey(s, o, i))
    ensures forall o :: Get(Adopted(d, s, owners), ResultKey(s, o)) == Get(d, ResultKey(s, o))
  {
    AdoptedSpec(d, s, owners);
    forall c ensures Get(Adopted(d, s, owners), Concepto(c)) == Get(d, Concepto(c)) {
      assert !IsFlagOf(s, owners, Concepto(c));
    }
    ExistingFrame(d, Adopted(d, s, owners));
    forall o, i ensures Get(Adopted(d, s, owners), RatingKey(s, o, i)) == Get(d, RatingKey(s, o, i)) {
      assert !IsFlagOf(s, owners, RatingKey(s, o, i));
    }
    forall o ensures Get(Adopted(d, s, owners), ResultKey(s, o)) == Get(d, ResultKey(s, o)) {
      assert !IsFlagOf(s, owners, ResultKey(s, o));
    }
  }

  /** recalcularTodo, for the owners whose result element was rendered. */
  /** Adopting stored results writes no rating. */
  lemma AdoptedKeepsStoredRatings(d: Record, s: Scorable, owners: seq<int>, o: int)
    ensures StoredRatings(Adopted(d, s, owners), s, o) == StoredRatings(d, s, o)
  {
    AdoptedKeepsNonFlags(d, s, owners);
    var e := Adopted(d, s, owners);
    forall i | 0 <= i < NumCriteria ensures StoredRatings(e, s, o)[i] == StoredRatings(d, s, o)[i] {
      assert Get(e, RatingKey(s, o, i + 1)) == Get(d, RatingKey(s, o, i + 1));
    }
  }

  /** Right after page load every listed owner's inputs show its stored
      ratings, so each listed owner is synced. */
  lemma LoadedSynced(d: Record, s: Scorable, owners: seq<int>)
    ensures forall o | o in owners :: Synced(Adopted(d, s, owners), s, LoadedInputs(d, s, owners), o)
  {
    forall o | o in owners ensures Synced(Adopted(d, s, owners), s, LoadedInputs(d, s, owners), o) {
      LoadedInputsMatchStored(d, s, owners, o);
      AdoptedKeepsStoredRatings(d, s, owners, o);
    }
  }

  method AdoptStoredResults(d: Record, s: Scorable, owners: seq<int>) returns (e: Record)
    ensures e == Adopted(d, s, owners)
    ensures forall j | 0 <= j < |owners| ::
      Get(e, FlagKey(s, owners[j])) == if Has(d, ResultKey(s, owners[j])) then Some(Flag(true)) else Get(d, FlagKey(s, owners[j]))
  {
    e := d;
    var j := 0;
    while j < |owners|
      invariant 0 <= j <= |owners|
      invariant e == Adopted(d, s, owners[..j])
    {
      var conc := owners[j];
      assert owners[..j + 1][..j] == owners[..j];
      if Has(e, ResultKey(s, conc)) {
        e := e[FlagKey(s, conc) := Flag(true)];
      }
      j := j + 1;
    }
    assert owners[..|owners|] == owners;
    AdoptedSpec(d, s, owners);
  }

  // ---------------------------------------------------------------------------
  // calcular

  /** calcular(owner): auto-fills blank ratings with 0, stores every rating,
      sums rating * weight and, when all ratings lie in 0..10, stores the result
      and flags the owner computed; otherwise clears the flag. */
  method CalculateOwner(d: Record, inputs: Inputs, s: Scorable, owner: int) returns (e: Record, filled: Inputs)
    requires IsOwner(s, owner) && HasRow(inputs, owner)
    ensures e == Calculate(d, s, owner, FilledRatings(inputs, owner))
    ensures filled == FillRow(inputs, owner)
  {
    var total, valid;
    e, filled, total, valid := ScoreRatings(d, inputs, s, owner);
    if valid {
      e := e[ResultKey(s, owner) := Number(total)][FlagKey(s, owner) := Flag(true)];
    } else {
      e := e[FlagKey(s, owner) := Flag(false)];
    }
  }

  /** calcular's loop over criteria 1..5. */
  method ScoreRatings(d: Record, inputs: Inputs, s: Scorable, owner: int)
    returns (e: Record, filled: Inputs, total: real, valid: bool)
    requires HasRow(inputs, owner)
    ensures e == WithRatings(d, s, owner, FilledRatings(inputs, owner), NumCriteria)
    ensures filled == FillRow(inputs, owner)
    ensures total == WeightedSum(FilledRatings(inputs, owner), Weights(d))
    ensures valid == AllInRange(FilledRatings(inputs, owner))
  {
    total := 0.0;
    valid := true;
    e := d;
    filled := inputs;
    var i := 1;
    while i <= NumCriteria
      invariant 1 <= i <= NumCriteria + 1
      invariant ScoredBefore(d, inputs, s, owner, i, e, filled, total, valid)
    {
      ScoreStep(d, inputs, s, owner, i, e, filled, total, valid);
      var v := filled[(owner, i)];
      if v.None? {
        filled := filled[(owner, i) := Some(0.0)];
      }
      var calif := Filled(v);
      var peso := NumOr0(e, Peso(i));
      if !InRange(calif) {
        valid := false;
      }
      total := total + Weighted(calif, peso);
      e := e[RatingKey(s, owner, i) := Number(calif)];
      i := i + 1;
    }
    ScoredAll(d, inputs, s, owner, e, filled, total, valid);
  }

  /** The state of calcular's loop before criterion i: the ratings of
      criteria 1..i-1 are written, their blanks filled, their weighted sum
      taken and their range checked. */
  ghost predicate ScoredBefore(d: Record, inputs: Inputs, s: Scorable, owner: int, i: int,
                               e: Record, filled: Inputs, total: real, valid: bool)
    requires 1 <= i <= NumCriteria + 1
  {
    var r, w := FilledRatings(inputs, owner), Weights(d);
    && e == WithRatings(d, s, owner, r, i - 1)
    && filled == FillRowUpTo(inputs, owner, i - 1)
    && total == SumUpTo(r, w, i - 1)
    && (valid <==> forall j | 0 <= j < i - 1 :: InRange(r[j]))
  }

  /** One round of calcular's loop: criterion i's input is filled, read with
      the weight from the partly written record, added to the sum, checked
      and written. */
  lemma ScoreStep(d: Record, inputs: Inputs, s: Scorable, owner: int, i: int,
                  e: Record, filled: Inputs, total: real, valid: bool)
    requires HasRow(inputs, owner) && 1 <= i <= NumCriteria
    requires ScoredBefore(d, inputs, s, owner, i, e, filled, total, valid)
    ensures (owner, i) in filled
    ensures var v := filled[(owner, i)]; var calif := Filled(v);
      ScoredBefore(d, inputs, s, owner, i + 1,
        e[RatingKey(s, owner, i) := Number(calif)],
        if v.None? then filled[(owner, i) := Some(0.0)] else filled,
        total + Weighted(calif, NumOr0(e, Peso(i))),
        valid && InRange(calif))
  {
    var r, w := FilledRatings(inputs, owner), Weights(d);
    FillStep(inputs, owner, i);
    InputAt(inputs, owner, i, filled[(owner, i)]);
    WeightAt(d, s, owner, r, i, e);
    SumStep(r, w, i, total);
    RatingsStep(d, s, owner, r, i, e);
    ValidStep(r, i, valid);
  }

  lemma InputAt(inputs: Inputs, owner: int, i: int, v: Option<real>)
    requires 1 <= i <= NumCriteria && (owner, i) in inputs && inputs[(owner, i)] == v
    ensures FilledRatings(inputs, owner)[i - 1] == Filled(v)
  {
  }

  lemma WeightAt(d: Record, s: Scorable, owner: int, r: seq<real>, i: int, e: Record)
    requires 1 <= i <= NumCriteria == |r| && e == WithRatings(d, s, owner, r, i - 1)
    ensures NumOr0(e, Peso(i)) == Weights(d)[i - 1]
  {
    WithRatingsKeepsOthers(d, s, owner, r, i - 1, Peso(i));
  }

  lemma SumStep(r: seq<real>, w: seq<real>, i: int, total: real)
    requires 1 <= i <= |r| == |w| && total == SumUpTo(r, w, i - 1)
    ensures total + Weighted(r[i - 1], w[i - 1]) == SumUpTo(r, w, i)
  {
  }

  lemma RatingsStep(d: Record, s: Scorable, owner: int, r: seq<real>, i: int, e: Record)
    requires 1 <= i <= |r| && e == WithRatings(d, s, owner, r, i - 1)
    ensures e[RatingKey(s, owner, i) := Number(r[i - 1])] == WithRatings(d, s, owner, r, i)
  {
  }

  lemma ValidStep(r: seq<real>, i: int, valid: bool)
    requires 1 <= i <= |r| && (valid <==> forall j | 0 <= j < i - 1 :: InRange(r[j]))
    ensures (valid && InRange(r[i - 1])) <==> forall j | 0 <= j < i :: InRange(r[j])
  {
  }

  lemma ScoredAll(d: Record, inputs: Inputs, s: Scorable, owner: int,
                  e: Record, filled: Inputs, total: real, valid: bool)
    requires ScoredBefore(d, inputs, s, owner, NumCriteria + 1, e, filled, total, valid)
    ensures e == WithRatings(d, s, owner, FilledRatings(inputs, owner), NumCriteria)
    ensures filled == FillRow(inputs, owner)
    ensures total == WeightedSum(FilledRatings(inputs, owner), Weights(d))
    ensures valid == AllInRange(FilledRatings(inputs, owner))
  {
    var r, w := FilledRatings(inputs, owner), Weights(d);
    SumUpToSpec(r, w, NumCriteria);
    assert r[..NumCriteria] == r && w[..NumCriteria] == w;
  }

  /** One round of calcular's loop on the inputs: a blank input of
      criterion i becomes 0, a filled one is kept. */
  lemma FillStep(inputs: Inputs, owner: int, i: int)
    requires HasRow(inputs, owner) && 1 <= i <= NumCriteria
    ensures var prev, v := FillRowUpTo(inputs, owner, i - 1), inputs[(owner, i)];
      && (owner, i) in prev && prev[(owner, i)] == v
      && FillRowUpTo(inputs, owner, i) == (if v.None? then prev[(owner, i) := Some(0.0)] else prev)
  {
    FillRowUpToAhead(inputs, owner, i - 1, i);
    var prev, v := FillRowUpTo(inputs, owner, i - 1), inputs[(owner, i)];
    if v.Some? {
      assert prev[(owner, i) := Some(Filled(v))] == prev;
    }
  }

  // ---------------------------------------------------------------------------
  // validateAll

  /** validateAll's first half: every non-blank rating input lies in 0..10. */
  method RatingsAreValid(inputs: Inputs, owners: seq<int>) returns (allValid: bool)
    requires inputs.Keys == Cells(owners)
    ensures allValid == RatingsValid(inputs)
  {
    allValid := true;
    var j := 0;
    while j < |owners|
      invariant 0 <= j <= |owners|
      invariant allValid == forall k | k in inputs && k.0 in owners[..j] :: CellValid(inputs, k)
    {
      var o := owners[j];
      var i := 1;
      while i <= NumCriteria
        invariant 1 <= i <= NumCriteria + 1
        invariant allValid == ((forall k | k in inputs && k.0 in owners[..j] :: CellValid(inputs, k))
          && forall c | 1 <= c < i :: CellValid(inputs, (o, c)))
      {
        assert (o, i) in Cells(owners);
        var v := inputs[(o, i)];
        if v.Some? && !InRange(v.value) {
          allValid := false;
        }
        i := i + 1;
      }
      assert owners[..j + 1] == owners[..j] + [o];
      forall k | k in inputs && k.0 == o ensures 1 <= k.1 <= NumCriteria {
        assert k in Cells(owners);
      }
      j := j + 1;
    }
    assert owners[..|owners|] == owners;
    forall k | k in inputs ensures k.0 in owners {
      assert k in Cells(owners);
    }
  }

  predicate CellValid(inputs: Inputs, k: (int, int)) {
    k in inputs && (inputs[k].Some? ==> InRange(inputs[k].value))
  }

  /** What validateAll shows: nothing when the ratings are valid and every
      owner is computed, else the range error first, else the reminder to
      calculate everything. */
  datatype RatingMessage = NoError | RatingsOutOfRange | CalculateAll

  function StatusMessage(allValid: bool, allComputed: bool): (m: RatingMessage)
    ensures m == NoError <==> allValid && allComputed
    ensures m == RatingsOutOfRange <==> !allValid
    ensures m == CalculateAll <==> allValid && !allComputed
  {
    if allValid && allComputed then NoError
    else if !allValid then RatingsOutOfRange
    else CalculateAll
  }

  // ---------------------------------------------------------------------------
  // todosCalculados

  /** How many of the owners carry a truthy computed flag. */
  function ComputedAmong(d: Record, s: Scorable, owners: seq<int>): nat
    decreases |owners|
  {
    if owners == [] then 0
    else ComputedAmong(d, s, owners[..|owners| - 1]) + (if Has(d, FlagKey(s, owners[|owners| - 1])) then 1 else 0)
  }

  /** The count never exceeds the number of owners, and reaches it exactly
      when every owner is computed. */
  lemma {:induction false} ComputedAmongSpec(d: Record, s: Scorable, owners: seq<int>)
    ensures ComputedAmong(d, s, owners) <= |owners|
    ensures ComputedAmong(d, s, owners) == |owners| <==> forall j | 0 <= j < |owners| :: Has(d, FlagKey(s, owners[j]))
  {
    if owners != [] {
      var prev := owners[..|owners| - 1];
      ComputedAmongSpec(d, s, prev);
      assert forall j | 0 <= j < |prev| :: owners[j] == prev[j];
    }
  }

  // ---------------------------------------------------------------------------
  // saveAndContinue

  /** The record after every rendered row has been stored, blanks as 0. */
  function SaveRows(d: Record, s: Scorable, inputs: Inputs, owners: seq<int>): Record
    decreases |owners|
  {
    if owners == [] then d
    else
      var o := owners[|owners| - 1];
      WithRatings(SaveRows(d, s, inputs, owners[..|owners| - 1]), s, o, FilledRatings(inputs, o), NumCriteria)
  }

  predicate IsRatingOfAny(s: Scorable, owners: seq<int>, k: Key) {
    exists j | 0 <= j < |owners| :: IsRatingKeyOf(s, owners[j], k)
  }

  lemma {:induction false} SaveRowsSpec(d: Record, s: Scorable, inputs: Inputs, owners: seq<int>)
    requires OwnersOk(s, owners)
    ensures forall o, i | o in owners && IsCriterion(i) ::
      (RatingKey(s, o, i) in SaveRows(d, s, inputs, owners)
       && SaveRows(d, s, inputs, owners)[RatingKey(s, o, i)] == Number(FilledRatings(inputs, o)[i - 1]))
    ensures forall k | !IsRatingOfAny(s, owners, k) :: Get(SaveRows(d, s, inputs, owners), k) == Get(d, k)
  {
    if owners != [] {
      var prev := owners[..|owners| - 1];
      var o := owners[|owners| - 1];
      var e := SaveRows(d, s, inputs, prev);
      assert OwnersOk(s, prev) by {
        forall j | 0 <= j < |prev| ensures IsOwner(s, prev[j]) { assert prev[j] == owners[j]; }
      }
      SaveRowsSpec(d, s, inputs, prev);
      WithRatingsSpec(e, s, o, FilledRatings(inputs, o), NumCriteria);
      forall p, i | p in owners && IsCriterion(i)
        ensures RatingKey(s, p, i) in SaveRows(d, s, inputs, owners)
          && SaveRows(d, s, inputs, owners)[RatingKey(s, p, i)] == Number(FilledRatings(inputs, p)[i - 1])
      {
        if p != o {
          var j :| 0 <= j < |owners| && owners[j] == p;
          assert IsOwner(s, p) && IsOwner(s, o);
          assert p in prev by { assert prev[j] == p; }
          assert !IsRatingKeyOf(s, o, RatingKey(s, p, i)) by {
            forall c | 1 <= c <= NumCriteria ensures RatingKey(s, p, i) != RatingKey(s, o, c) {
              KeysInjective(s, p, i, o, c);
            }
          }
        }
      }
      forall k | !IsRatingOfAny(s, owners, k) ensures Get(SaveRows(d, s, inputs, owners), k) == Get(d, k) {
        assert !IsRatingKeyOf(s, o, k) by {
          assert o == owners[|owners| - 1];
        }
        assert !IsRatingOfAny(s, prev, k) by {
          forall j | 0 <= j < |prev| ensures !IsRatingKeyOf(s, prev[j], k) {
            assert prev[j] == owners[j];
          }
        }
      }
    }
  }

  /** saveAndContinue's store loop: every input, blank as 0, of every row. */
  method StoreRows(d: Record, s: Scorable, inputs: Inputs, owners: seq<int>) returns (e: Record)
    requires forall o | o in owners :: HasRow(inputs, o)
    ensures e == SaveRows(d, s, inputs, owners)
  {
    e := d;
    var j := 0;
    while j < |owners|
      invariant 0 <= j <= |owners|
      invariant e == SaveRows(d, s, inputs, owners[..j])
    {
      assert owners[..j + 1][..j] == owners[..j];
      assert owners[j] in owners;
      e := StoreRow(e, s, inputs, owners[j]);
      j := j + 1;
    }
    assert owners[..|owners|] == owners;
  }

  /** The inputs of one row, blank as 0. */
  method StoreRow(d: Record, s: Scorable, inputs: Inputs, o: int) returns (e: Record)
    requires HasRow(inputs, o)
    ensures e == WithRatings(d, s, o, FilledRatings(inputs, o), NumCriteria)
  {
    ghost var r := FilledRatings(inputs, o);
    e := d;
    var i := 1;
    while i <= NumCriteria
      invariant 1 <= i <= NumCriteria + 1
      invariant e == WithRatings(d, s, o, r, i - 1)
    {
      var v := inputs[(o, i)];
      var value := if v.None? then 0.0 else v.value;
      e := e[RatingKey(s, o, i) := Number(value)];
      i := i + 1;
    }
  }

  /** A flagged owner whose inputs still show what is stored. */
  predicate Synced(d: Record, s: Scorable, inputs: Inputs, o: int) {
    Has(d, FlagKey(s, o)) ==> FilledRatings(inputs, o) == StoredRatings(d, s, o)
  }

  /** Storing the rows of owners whose inputs match the record changes no
      stored rating value (a missing rating, read as 0, is now stored as 0). */
  lemma SaveRowsKeepsSyncedRatings(d: Record, s: Scorable, inputs: Inputs, owners: seq<int>)
    requires OwnersOk(s, owners)
    requires forall o | o in owners :: FilledRatings(inputs, o) == StoredRatings(d, s, o)
    ensures forall o | o in owners :: StoredRatings(SaveRows(d, s, inputs, owners), s, o) == StoredRatings(d, s, o)
  {
    SaveRowsSpec(d, s, inputs, owners);
    var e := SaveRows(d, s, inputs, owners);
    forall o | o in owners ensures StoredRatings(e, s, o) == StoredRatings(d, s, o) {
      forall i | 0 <= i < NumCriteria ensures StoredRatings(e, s, o)[i] == StoredRatings(d, s, o)[i] {
        assert IsCriterion(i + 1);
      }
    }
  }

  // ---------------------------------------------------------------------------
  // What each step preserves of a page's state.

  lemma CalculateKeepsExisting(d: Record, s: Scorable, owner: int, r: seq<real>)
    requires IsOwner(s, owner) && |r| == NumCriteria
    ensures Existing(Calculate(d, s, owner, r)) == Existing(d)
  {
    forall c | IsIdea(c) ensures TextOr(Calculate(d, s, owner, r), Concepto(c)) == TextOr(d, Concepto(c)) {
      CalculateFrame(d, s, owner, r, Concepto(c));
    }
    ExistingFrame(d, Calculate(d, s, owner, r));
  }

  lemma InvalidateKeepsExisting(d: Record, s: Scorable, owner: int)
    ensures Existing(Invalidate(d, s, owner)) == Existing(d)
  {
    InvalidateSpec(d, s, owner);
    ExistingFrame(d, Invalidate(d, s, owner));
  }

  /** After `calcular(owner)` with the owner's filled inputs, every rendered
      owner that was in step with its inputs still is. */
  lemma CalculateKeepsSynced(d: Record, s: Scorable, inputs: Inputs, owner: int, o: int)
    requires IsOwner(s, owner) && IsOwner(s, o) && HasRow(inputs, owner)
    requires Synced(d, s, inputs, o)
    ensures Synced(Calculate(d, s, owner, FilledRatings(inputs, owner)), s, FillRow(inputs, owner), o)
  {
    var r := FilledRatings(inputs, owner);
    FillRowSpec(inputs, owner);
    if o == owner {
      CalculateStoresRatings(d, s, owner, r);
    } else {
      KeysInjective(s, owner, 1, o, 1);
      CalculateFrame(d, s, owner, r, FlagKey(s, o));
      CalculateKeepsOtherRatings(d, s, owner, r, o);
    }
  }

  lemma CalculateKeepsOtherRatings(d: Record, s: Scorable, owner: int, r: seq<real>, o: int)
    requires IsOwner(s, owner) && IsOwner(s, o) && o != owner && |r| == NumCriteria
    ensures StoredRatings(Calculate(d, s, owner, r), s, o) == StoredRatings(d, s, o)
  {
    var e := Calculate(d, s, owner, r);
    forall i | 0 <= i < NumCriteria
      ensures StoredRatings(e, s, o)[i] == StoredRatings(d, s, o)[i]
    {
      OtherRatingKept(d, s, owner, r, o, i + 1);
    }
  }

  lemma OtherRatingKept(d: Record, s: Scorable, owner: int, r: seq<real>, o: int, c: int)
    requires IsOwner(s, owner) && IsOwner(s, o) && o != owner && |r| == NumCriteria && IsCriterion(c)
    ensures Get(Calculate(d, s, owner, r), RatingKey(s, o, c)) == Get(d, RatingKey(s, o, c))
  {
    forall j | 1 <= j <= NumCriteria ensures RatingKey(s, o, c) != RatingKey(s, owner, j) {
      KeysInjective(s, o, c, owner, j);
    }
    CalculateFrame(d, s, owner, r, RatingKey(s, o, c));
  }

  /** After an edit of (owner, crit), every owner is still in step. */
  lemma EditKeepsSynced(d: Record, s: Scorable, inputs: Inputs, owner: int, crit: int, v: Option<real>, o: int)
    requires IsOwner(s, owner) && IsOwner(s, o)
    requires Synced(d, s, inputs, o)
    ensures Synced(Invalidate(d, s, owner), s, inputs[(owner, crit) := v], o)
  {
    if o != owner {
      KeysInjective(s, owner, 1, o, 1);
      InvalidateSpec(d, s, owner);
      var e := Invalidate(d, s, owner);
      EditKeepsOtherRow(inputs, owner, crit, v, o);
      forall i | 0 <= i < NumCriteria ensures StoredRatings(e, s, o)[i] == StoredRatings(d, s, o)[i] {
        InvalidateKeepsRating(d, s, owner, o, i + 1);
      }
    } else {
      InvalidateSpec(d, s, owner);
    }
  }

  lemma EditKeepsOtherRow(inputs: Inputs, owner: int, crit: int, v: Option<real>, o: int)
    requires o != owner
    ensures FilledRatings(inputs[(owner, crit) := v], o) == FilledRatings(inputs, o)
  {
  }

  lemma InvalidateKeepsRating(d: Record, s: Scorable, owner: int, o: int, c: int)
    ensures Get(Invalidate(d, s, owner), RatingKey(s, o, c)) == Get(d, RatingKey(s, o, c))
  {
    InvalidateSpec(d, s, owner);
  }

  /** Storing the rows touches only ratings: the existing ideas and every
      flag are unchanged. */
  lemma SaveRowsKeepsOthers(d: Record, s: Scorable, inputs: Inputs, owners: seq<int>)
    requires OwnersOk(s, owners)
    ensures Existing(SaveRows(d, s, inputs, owners)) == Existing(d)
    ensures forall o :: Get(SaveRows(d, s, inputs, owners), FlagKey(s, o)) == Get(d, FlagKey(s, o))
  {
    SaveRowsSpec(d, s, inputs, owners);
    var e := SaveRows(d, s, inputs, owners);
    forall c ensures Get(e, Concepto(c)) == Get(d, Concepto(c)) {
      assert !IsRatingOfAny(s, owners, Concepto(c));
    }
    ExistingFrame(d, e);
    forall o ensures Get(e, FlagKey(s, o)) == Get(d, FlagKey(s, o)) {
      assert !IsRatingOfAny(s, owners, FlagKey(s, o));
    }
  }

  /** A rating key of an owner the save does not store is no rating key
      of the saved rows. */
  lemma NotSavedRating(s: Scorable, owners: seq<int>, t: Scorable, o: int, i: int)
    requires OwnersOk(s, owners) && IsOwner(t, o) && IsCriterion(i)
    requires s != t || o !in owners
    ensures !IsRatingOfAny(s, owners, RatingKey(t, o, i))
  {
    if s == t {
      forall j, c | 0 <= j < |owners| && 1 <= c <= NumCriteria
        ensures RatingKey(t, o, i) != RatingKey(s, owners[j], c)
      {
        KeysInjective(s, o, i, owners[j], c);
      }
    }
  }

  /** The save leaves everything an unsaved owner's consistency reads. */
  lemma SaveRowsKeepsScoreView(d: Record, s: Scorable, inputs: Inputs, owners: seq<int>, t: Scorable, o: int)
    requires OwnersOk(s, owners) && IsOwner(t, o)
    requires s != t || o !in owners
    ensures SameScoreView(d, SaveRows(d, s, inputs, owners), t, o)
  {
    SaveRowsSpec(d, s, inputs, owners);
    assert !IsRatingOfAny(s, owners, FlagKey(t, o));
    assert !IsRatingOfAny(s, owners, ResultKey(t, o));
    forall i | 1 <= i <= NumCriteria
      ensures Get(SaveRows(d, s, inputs, owners), RatingKey(t, o, i)) == Get(d, RatingKey(t, o, i))
    {
      NotSavedRating(s, owners, t, o, i);
    }
    forall i | 1 <= i <= NumCriteria
      ensures Get(SaveRows(d, s, inputs, owners), Peso(i)) == Get(d, Peso(i))
    {
      assert !IsRatingOfAny(s, owners, Peso(i));
    }
  }

  /** The save keeps the weights. */
  lemma SaveRowsKeepsWeights(d: Record, s: Scorable, inputs: Inputs, owners: seq<int>)
    requires OwnersOk(s, owners)
    ensures Weights(SaveRows(d, s, inputs, owners)) == Weights(d)
  {
    SaveRowsSpec(d, s, inputs, owners);
    var e := SaveRows(d, s, inputs, owners);
    forall i | 0 <= i < NumCriteria ensures Weights(e)[i] == Weights(d)[i] {
      assert !IsRatingOfAny(s, owners, Peso(i + 1));
    }
  }

  /** The save keeps the stored ratings of a saved owner whose inputs agree
      with them, and keeps its flag and its result. */
  lemma SaveRowsKeepsSyncedOwner(d: Record, s: Scorable, inputs: Inputs, owners: seq<int>, o: int)
    requires OwnersOk(s, owners) && o in owners
    requires FilledRatings(inputs, o) == StoredRatings(d, s, o)
    ensures var e := SaveRows(d, s, inputs, owners);
      && StoredRatings(e, s, o) == StoredRatings(d, s, o)
      && Get(e, FlagKey(s, o)) == Get(d, FlagKey(s, o)) && Get(e, ResultKey(s, o)) == Get(d, ResultKey(s, o))
  {
    SaveRowsSpec(d, s, inputs, owners);
    var e := SaveRows(d, s, inputs, owners);
    assert !IsRatingOfAny(s, owners, FlagKey(s, o));
    assert !IsRatingOfAny(s, owners, ResultKey(s, o));
    forall i | 0 <= i < NumCriteria ensures StoredRatings(e, s, o)[i] == StoredRatings(d, s, o)[i] {
      assert IsCriterion(i + 1);
    }
  }

  /** `saveAndContinue` keeps every owner of either page consistent, since a
      computed owner's inputs agree with its stored ratings (Synced) and the
      save writes nothing but ratings. */
  lemma SaveRowsKeepsConsistent(d: Record, s: Scorable, inputs: Inputs, owners: seq<int>, t: Scorable, o: int)
    requires OwnersOk(s, owners) && IsOwner(t, o)
    requires forall p | p in owners :: Synced(d, s, inputs, p)
    requires Consistent(d, t, o)
    ensures Consistent(SaveRows(d, s, inputs, owners), t, o)
  {
    var e := SaveRows(d, s, inputs, owners);
    if s == t && o in owners {
      if Has(d, FlagKey(t, o)) {
        assert Synced(d, s, inputs, o);
        SaveRowsKeepsSyncedOwner(d, s, inputs, owners, o);
        SaveRowsKeepsWeights(d, s, inputs, owners);
      } else {
        SaveRowsKeepsOthers(d, s, inputs, owners);
      }
    } else {
      SaveRowsKeepsScoreView(d, s, inputs, owners, t, o);
      ConsistentTransfers(d, e, t, o);
    }
  }
}
