/** The evaluation of the initial ideas (evaluacion): one table per existing
    idea with five rating inputs and a "Calcular" button, and one save button
    for the page. */
module IdeaEvaluation {
  import opened Store
  import opened Indexing
  import opened Ideas
  import opened Scoring
  import opened Evaluation

  /** todosCalculados: there is at least one existing idea and every existing
      idea is flagged computed. */
  predicate AllComputed(d: Record) {
    Existing(d) != [] && forall c | c in Existing(d) :: Has(d, Calculado(c))
  }

  method TodosCalculados(d: Record) returns (all: bool)
    ensures all == AllComputed(d)
  {
    var numeroDeConceptos := CountConcepts(d);
    if numeroDeConceptos == 0 {
      return false;
    }
    var calculados := 0;
    var conc := 1;
    while conc <= MaxIdeas
      invariant 1 <= conc <= MaxIdeas + 1
      invariant calculados == ComputedAmong(d, Idea, ExistingUpTo(d, conc - 1))
    {
      var conceptoNombre := TextOr(d, Concepto(conc));
      if Trim(conceptoNombre) != "" {
        assert ExistingUpTo(d, conc) == ExistingUpTo(d, conc - 1) + [conc];
        ComputedAmongStep(d, ExistingUpTo(d, conc - 1), conc);
        if Has(d, Calculado(conc)) {
          calculados := calculados + 1;
        }
      } else {
        assert ExistingUpTo(d, conc) == ExistingUpTo(d, conc - 1);
      }
      conc := conc + 1;
    }
    all := calculados == numeroDeConceptos;
    AllComputedByCount(d);
  }

  lemma ComputedAmongStep(d: Record, prev: seq<int>, c: int)
    ensures ComputedAmong(d, Idea, prev + [c]) == ComputedAmong(d, Idea, prev) + if Has(d, Calculado(c)) then 1 else 0
  {
    assert (prev + [c])[..|prev|] == prev;
  }

  /** All existing ideas are computed exactly when the computed ones are as
      many as the existing ones, and there is at least one. */
  lemma AllComputedByCount(d: Record)
    ensures AllComputed(d) <==> |Existing(d)| != 0 && ComputedAmong(d, Idea, Existing(d)) == |Existing(d)|
  {
    ComputedAmongSpec(d, Idea, Existing(d));
    var e := Existing(d);
    assert (forall c | c in e :: Has(d, Calculado(c))) <==> forall j | 0 <= j < |e| :: Has(d, FlagKey(Idea, e[j]));
  }

  /** The owners of this page are the existing ideas. */
  lemma ExistingAreOwners(d: Record)
    ensures OwnersOk(Idea, Existing(d))
  {
    ExistingSpec(d);
  }

  class IdeaEvaluationPage {
    /** The page's copy of the record. */
    var data: Record
    /** What local storage holds. */
    var stored: Record
    /** The rating inputs, keyed by (idea, criterion). */
    var inputs: Inputs
    var saveEnabled: bool
    var message: RatingMessage

    /** The inputs are those of the rendered tables, and every computed idea
        still shows its stored ratings. */
    ghost predicate Valid()
      reads this
    {
      inputs.Keys == Cells(Existing(data))
      && forall o | o in Existing(data) :: Synced(data, Idea, inputs, o)
    }

    /** Page load: a table per existing idea showing the stored ratings, every
        existing idea with a stored result re-marked as computed, then
        `validateAll`. With no idea the page only shows a notice and returns
        before both, so the button and the message keep the state the page's
        markup gives them, passed in as `shownEnabled` and `shownMessage`. */
    constructor Load(saved: Record, shownEnabled: bool, shownMessage: RatingMessage)
      ensures Valid()
      ensures stored == saved
      ensures inputs == LoadedInputs(saved, Idea, Existing(saved))
      ensures data == Adopted(saved, Idea, Existing(saved))
      ensures Existing(saved) != [] ==>
        saveEnabled == (RatingsValid(inputs) && AllComputed(data)) &&
        message == StatusMessage(RatingsValid(inputs), AllComputed(data))
      ensures Existing(saved) == [] ==>
        inputs == map[] && data == saved &&
        saveEnabled == shownEnabled && message == shownMessage
    {
      var owners := ExistingConcepts(saved);
      data := saved;
      stored := saved;
      inputs := LoadedInputs(saved, Idea, owners);
      saveEnabled := shownEnabled;
      message := shownMessage;
      new;
      if owners != [] {
        data := AdoptStoredResults(data, Idea, owners);
        AdoptedKeepsNonFlags(saved, Idea, owners);
        LoadedSynced(saved, Idea, owners);
        ValidateAll();
      }
    }

    /** validateAll: enable saving iff every non-blank rating is in 0..10 and
        every existing idea is computed, and show the matching message. */
    method ValidateAll()
      requires Valid()
      modifies this`saveEnabled, this`message
      ensures saveEnabled == (RatingsValid(inputs) && AllComputed(data))
      ensures message == StatusMessage(RatingsValid(inputs), AllComputed(data))
      ensures saveEnabled <==> message == NoError
    {
      var allCalculated := TodosCalculados(data);
      var owners := ExistingConcepts(data);
      var allValid := RatingsAreValid(inputs, owners);
      saveEnabled := allValid && allCalculated;
      message := StatusMessage(allValid, allCalculated);
    }

    /** calcular(conc): score the idea's inputs; an idea without a table has
        neither inputs nor a result element, so nothing changes. */
    method Calcular(conc: int)
      requires Valid()
      modifies this`data, this`inputs, this`saveEnabled, this`message
      ensures Valid()
      ensures conc in Existing(old(data)) ==>
        data == Calculate(old(data), Idea, conc, FilledRatings(old(inputs), conc))
        && inputs == FillRow(old(inputs), conc)
      ensures conc !in Existing(old(data)) ==> data == old(data) && inputs == old(inputs)
      ensures saveEnabled == (RatingsValid(inputs) && AllComputed(data))
      ensures message == StatusMessage(RatingsValid(inputs), AllComputed(data))
    {
      var cs := ExistingConcepts(data);
      if conc in cs {
        CellsHaveRows(inputs, cs);
        ExistingAreOwners(data);
        ghost var d0, in0 := data, inputs;
        data, inputs := CalculateOwner(data, inputs, Idea, conc);
        CalculateKeepsExisting(d0, Idea, conc, FilledRatings(in0, conc));
        FillRowSpec(in0, conc);
        forall o | o in cs ensures Synced(data, Idea, inputs, o) {
          CalculateKeepsSynced(d0, Idea, in0, conc, o);
        }
      }
      ValidateAll();
    }

    /** The input listener: rating (conc, crit) now reads `v`; a computed
        idea loses its flag and result. */
    method EditRating(conc: int, crit: int, v: Option<real>)
      requires Valid() && (conc, crit) in inputs
      modifies this`data, this`inputs, this`saveEnabled, this`message
      ensures Valid()
      ensures inputs == old(inputs)[(conc, crit) := v]
      ensures data == Invalidate(old(data), Idea, conc)
      ensures saveEnabled == (RatingsValid(inputs) && AllComputed(data))
      ensures message == StatusMessage(RatingsValid(inputs), AllComputed(data))
    {
      ghost var d0, in0 := data, inputs;
      assert (conc, crit) in Cells(Existing(d0));
      ExistingAreOwners(d0);
      inputs := inputs[(conc, crit) := v];
      if Has(data, Calculado(conc)) {
        data := data[Calculado(conc) := Flag(false)][Resultado(conc) := Null];
      }
      InvalidateKeepsExisting(d0, Idea, conc);
      forall o | o in Existing(d0) ensures Synced(data, Idea, inputs, o) {
        EditKeepsSynced(d0, Idea, in0, conc, crit, v, o);
      }
      ValidateAll();
    }

    /** saveAndContinue: refused unless every existing idea is computed;
        otherwise every rating input is stored (blank as 0) and the record is
        written to local storage, which changes no stored rating value. */
    method SaveAndContinue()
      requires Valid()
      modifies this`data, this`stored
      ensures Valid()
      ensures !AllComputed(old(data)) ==> data == old(data) && stored == old(stored)
      ensures AllComputed(old(data)) ==>
        data == SaveRows(old(data), Idea, inputs, Existing(old(data))) && stored == data
      ensures forall o | o in Existing(old(data)) && AllComputed(old(data)) ::
        StoredRatings(data, Idea, o) == StoredRatings(old(data), Idea, o)
    {
      var all := TodosCalculados(data);
      if !all {
        return;
      }
      ghost var d0 := data;
      var owners := ExistingConcepts(data);
      ExistingAreOwners(d0);
      CellsHaveRows(inputs, owners);
      data := StoreRows(data, Idea, inputs, owners);
      stored := data;
      SaveRowsKeepsOthers(d0, Idea, inputs, owners);
      forall o | o in owners ensures FilledRatings(inputs, o) == StoredRatings(d0, Idea, o) {
        assert Synced(d0, Idea, inputs, o);
        assert Has(d0, FlagKey(Idea, o));
      }
      SaveRowsKeepsSyncedRatings(d0, Idea, inputs, owners);
      forall o | o in owners ensures Synced(data, Idea, inputs, o) {
        assert Get(data, FlagKey(Idea, o)) == Get(d0, FlagKey(Idea, o));
      }
    }
  }
}
