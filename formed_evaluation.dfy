/** The evaluation of the three formed concepts (evalConceptos): one table
    per formed concept with the options chosen for it, five rating inputs,
    a "Calcular" button per table and one save button for the page. */
module FormedEvaluation {
  import opened Store
  import opened Indexing
  import opened Ideas
  import opened Scoring
  import opened Evaluation

  /** The formed concepts that get a table: all three as soon as one initial
      idea exists, none otherwise. */
  function Owners(d: Record): (os: seq<int>)
    ensures OwnersOk(Formed, os)
    ensures os == [] <==> Existing(d) == []
  {
    if Existing(d) != [] then [1, 2, 3] else []
  }

  /** todosCalculados: all three formed concepts are flagged computed. */
  predicate AllComputed(d: Record) {
    forall col | 1 <= col <= FormedConcepts :: Has(d, CalculadoFormado(col))
  }

  method TodosCalculados(d: Record) returns (all: bool)
    ensures all == AllComputed(d)
  {
    ghost var cols := [1, 2, 3];
    var calculados := 0;
    var conc := 1;
    while conc <= FormedConcepts
      invariant 1 <= conc <= FormedConcepts + 1
      invariant calculados == ComputedAmong(d, Formed, cols[..conc - 1])
    {
      assert cols[..conc][..conc - 1] == cols[..conc - 1];
      if Has(d, CalculadoFormado(conc)) {
        calculados := calculados + 1;
      }
      conc := conc + 1;
    }
    all := calculados == FormedConcepts;
    assert cols[..FormedConcepts] == cols;
    ComputedAmongSpec(d, Formed, cols);
    assert AllComputed(d) <==> forall j | 0 <= j < 3 :: Has(d, FlagKey(Formed, cols[j]));
  }

  // ---------------------------------------------------------------------------
  // obtenerOpcionesSeleccionadas

  /** The option chosen for formation column `col` of idea `c`. */
  function Choice(d: Record, c: int, col: int): string {
    TextOr(d, PastelGrupo(FlatIndex(c, col)))
  }

  /** The non-blank choices of column `col` over the ideas `cs`, in order. */
  function Choices(d: Record, col: int, cs: seq<int>): seq<string>
    decreases |cs|
  {
    if cs == [] then []
    else
      var c := cs[|cs| - 1];
      Choices(d, col, cs[..|cs| - 1]) + (if Trim(Choice(d, c, col)) != "" then [Choice(d, c, col)] else [])
  }

  /** The list grows by idea cs[j]'s choice when it is not blank. */
  lemma ChoicesStep(d: Record, col: int, cs: seq<int>, j: int)
    requires 0 <= j < |cs|
    ensures Choices(d, col, cs[..j + 1]) == Choices(d, col, cs[..j])
      + (if Trim(Choice(d, cs[j], col)) != "" then [Choice(d, cs[j], col)] else [])
  {
    assert cs[..j + 1][..j] == cs[..j];
  }

  /** At most one option per idea. */
  lemma {:induction false} ChoicesLength(d: Record, col: int, cs: seq<int>)
    ensures |Choices(d, col, cs)| <= |cs|
  {
    if cs != [] { ChoicesLength(d, col, cs[..|cs| - 1]); }
  }

  /** Every listed option is a non-blank choice of one of the ideas. */
  lemma {:induction false} ChoicesSound(d: Record, col: int, cs: seq<int>)
    ensures forall x | x in Choices(d, col, cs) :: !IsBlank(x) && exists c | c in cs :: x == Choice(d, c, col)
  {
    if cs != [] {
      var prev := cs[..|cs| - 1];
      var c := cs[|cs| - 1];
      ChoicesSound(d, col, prev);
      TrimEmptyIffBlank(Choice(d, c, col));
      forall x | x in Choices(d, col, cs) ensures !IsBlank(x) && exists c' | c' in cs :: x == Choice(d, c', col) {
        if x in Choices(d, col, prev) {
          var c' :| c' in prev && x == Choice(d, c', col);
          assert c' in cs;
        } else {
          assert x == Choice(d, c, col);
        }
      }
    }
  }

  /** Every non-blank choice of one of the ideas is listed. */
  lemma {:induction false} ChoicesComplete(d: Record, col: int, cs: seq<int>)
    ensures forall c | c in cs && !IsBlank(Choice(d, c, col)) :: Choice(d, c, col) in Choices(d, col, cs)
  {
    if cs != [] {
      var prev := cs[..|cs| - 1];
      var c := cs[|cs| - 1];
      ChoicesComplete(d, col, prev);
      TrimEmptyIffBlank(Choice(d, c, col));
      forall c' | c' in cs && !IsBlank(Choice(d, c', col)) ensures Choice(d, c', col) in Choices(d, col, cs) {
        if c' != c { assert c' in prev; }
      }
    }
  }

  /** obtenerOpcionesSeleccionadas(col): the non-blank choices of the column
      over the existing ideas. */
  method SelectedOptions(d: Record, col: int) returns (opts: seq<string>)
    ensures opts == Choices(d, col, Existing(d))
  {
    var cs := ExistingConcepts(d);
    opts := [];
    var j := 0;
    while j < |cs|
      invariant 0 <= j <= |cs|
      invariant opts == Choices(d, col, cs[..j])
    {
      ChoicesStep(d, col, cs, j);
      var grupoKey := PastelGrupo(FlatIndex(cs[j], col));
      var opcion := TextOr(d, grupoKey);
      if Trim(opcion) != "" {
        opts := opts + [opcion];
      }
      j := j + 1;
    }
    assert cs[..|cs|] == cs;
  }

  /** The options of a column: at most one per existing idea, none blank,
      and every non-blank choice of an existing idea among them. */
  lemma ChoicesOfExisting(d: Record, col: int)
    ensures |Choices(d, col, Existing(d))| <= |Existing(d)|
    ensures forall x | x in Choices(d, col, Existing(d)) :: !IsBlank(x)
    ensures forall c | IsIdea(c) && !IsBlank(TextOr(d, Concepto(c))) && !IsBlank(Choice(d, c, col)) ::
      Choice(d, c, col) in Choices(d, col, Existing(d))
  {
    var cs := Existing(d);
    ExistingSpec(d);
    ChoicesLength(d, col, cs);
    ChoicesSound(d, col, cs);
    ChoicesComplete(d, col, cs);
  }

  // ---------------------------------------------------------------------------
  // The page

  class FormedEvaluationPage {
    /** The page's copy of the record. */
    var data: Record
    /** What local storage holds. */
    var stored: Record
    /** The rating inputs, keyed by (formed concept, criterion). */
    var inputs: Inputs
    var saveEnabled: bool
    var message: RatingMessage

    /** The inputs are those of the rendered tables, and every computed
        formed concept still shows its stored ratings. */
    ghost predicate Valid()
      reads this
    {
      inputs.Keys == Cells(Owners(data))
      && forall o | o in Owners(data) :: Synced(data, Formed, inputs, o)
    }

    /** Page load: render the tables from the stored record, re-mark every
        stored result as computed (`recalcularTodo`), then `validateAll`.
        With no idea the page only shows a notice and returns before both,
        so the button and the message keep the state the page's markup
        gives them, passed in as `shownEnabled` and `shownMessage`. */
    constructor Load(saved: Record, shownEnabled: bool, shownMessage: RatingMessage)
      ensures Valid()
      ensures stored == saved
      ensures inputs == LoadedInputs(saved, Formed, Owners(saved))
      ensures data == Adopted(saved, Formed, Owners(saved))
      ensures Existing(saved) != [] ==>
        saveEnabled == (RatingsValid(inputs) && AllComputed(data)) &&
        message == StatusMessage(RatingsValid(inputs), AllComputed(data))
      ensures Existing(saved) == [] ==>
        inputs == map[] && data == saved &&
        saveEnabled == shownEnabled && message == shownMessage
    {
      var cs := ExistingConcepts(saved);
      var owners := if |cs| == 0 then [] else [1, 2, 3];
      data := saved;
      stored := saved;
      inputs := LoadedInputs(saved, Formed, owners);
      saveEnabled := shownEnabled;
      message := shownMessage;
      new;
      if owners != [] {
        data := AdoptStoredResults(data, Formed, owners);
        AdoptedKeepsNonFlags(saved, Formed, owners);
        LoadedSynced(saved, Formed, owners);
        ValidateAll();
      }
    }

    /** validateAll: enable saving iff every non-blank rating is in 0..10 and
        all formed concepts are computed, and show the matching message. */
    method ValidateAll()
      requires Valid()
      modifies this`saveEnabled, this`message
      ensures saveEnabled == (RatingsValid(inputs) && AllComputed(data))
      ensures message == StatusMessage(RatingsValid(inputs), AllComputed(data))
      ensures saveEnabled <==> message == NoError
    {
      var allCalculated := TodosCalculados(data);
      var cs := ExistingConcepts(data);
      var owners := if |cs| == 0 then [] else [1, 2, 3];
      var allValid := RatingsAreValid(inputs, owners);
      saveEnabled := allValid && allCalculated;
      message := StatusMessage(allValid, allCalculated);
    }

    /** calcular(col): score the column's inputs. Without rendered tables
        there are no inputs and no result element, so nothing changes. */
    method Calcular(col: int)
      requires Valid() && IsColumn(col)
      modifies this`data, this`inputs, this`saveEnabled, this`message
      ensures Valid()
      ensures Owners(old(data)) != [] ==>
        data == Calculate(old(data), Formed, col, FilledRatings(old(inputs), col))
        && inputs == FillRow(old(inputs), col)
      ensures Owners(old(data)) == [] ==> data == old(data) && inputs == old(inputs)
      ensures saveEnabled == (RatingsValid(inputs) && AllComputed(data))
      ensures message == StatusMessage(RatingsValid(inputs), AllComputed(data))
    {
      var cs := ExistingConcepts(data);
      if |cs| != 0 {
        CellsHaveRows(inputs, Owners(data));
        ghost var d0, in0 := data, inputs;
        ghost var owners := Owners(d0);
        data, inputs := CalculateOwner(data, inputs, Formed, col);
        CalculateKeepsExisting(d0, Formed, col, FilledRatings(in0, col));
        FillRowSpec(in0, col);
        forall o | o in owners ensures Synced(data, Formed, inputs, o) {
          CalculateKeepsSynced(d0, Formed, in0, col, o);
        }
      }
      ValidateAll();
    }

    /** The input listener: rating (col, crit) now reads `v`; a computed
        column loses its flag and result. */
    method EditRating(col: int, crit: int, v: Option<real>)
      requires Valid() && (col, crit) in inputs
      modifies this`data, this`inputs, this`saveEnabled, this`message
      ensures Valid()
      ensures inputs == old(inputs)[(col, crit) := v]
      ensures data == Invalidate(old(data), Formed, col)
      ensures saveEnabled == (RatingsValid(inputs) && AllComputed(data))
      ensures message == StatusMessage(RatingsValid(inputs), AllComputed(data))
    {
      ghost var d0, in0 := data, inputs;
      assert (col, crit) in Cells(Owners(d0));
      assert IsColumn(col);
      inputs := inputs[(col, crit) := v];
      if Has(data, CalculadoFormado(col)) {
        data := data[CalculadoFormado(col) := Flag(false)][ResultKey(Formed, col) := Null];
      }
      InvalidateKeepsExisting(d0, Formed, col);
      forall o | o in Owners(d0) ensures Synced(data, Formed, inputs, o) {
        EditKeepsSynced(d0, Formed, in0, col, crit, v, o);
      }
      ValidateAll();
    }

    /** saveAndContinue: refused unless every formed concept is computed;
        otherwise every rating input is stored (blank as 0) and the record is
        written to local storage. Since edits clear the flag, every stored
        rating value is what it was. */
    method SaveAndContinue()
      requires Valid()
      modifies this`data, this`stored
      ensures Valid()
      ensures !AllComputed(old(data)) ==> data == old(data) && stored == old(stored)
      ensures AllComputed(old(data)) ==>
        data == SaveRows(old(data), Formed, inputs, Owners(old(data))) && stored == data
      ensures forall o | o in Owners(old(data)) && AllComputed(old(data)) ::
        StoredRatings(data, Formed, o) == StoredRatings(old(data), Formed, o)
    {
      var all := TodosCalculados(data);
      if !all {
        return;
      }
      ghost var d0 := data;
      ghost var owners := Owners(d0);
      var cs := ExistingConcepts(data);
      var os := if |cs| == 0 then [] else [1, 2, 3];
      CellsHaveRows(inputs, owners);
      data := StoreRows(data, Formed, inputs, os);
      stored := data;
      SaveRowsKeepsOthers(d0, Formed, inputs, owners);
      forall o | o in owners ensures FilledRatings(inputs, o) == StoredRatings(d0, Formed, o) {
        assert Synced(d0, Formed, inputs, o);
        assert Has(d0, FlagKey(Formed, o));
      }
      SaveRowsKeepsSyncedRatings(d0, Formed, inputs, owners);
      forall o | o in owners ensures Synced(data, Formed, inputs, o) {
        assert Get(data, FlagKey(Formed, o)) == Get(d0, FlagKey(Formed, o));
      }
    }
  }
}
