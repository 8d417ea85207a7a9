/** The criteria step (criterios): project name and description, five
    weighted criteria and up to five initial ideas, with the rule that gates
    advancing and the migration of records from the earlier four-criterion
    format. */
module Criteria {
  import opened Store
  import opened Indexing

  /** What the form's inputs hold: the text inputs as typed, the weights as
      number inputs (`None` when blank). */
  datatype Form = Form(name: string, description: string, criteria: seq<string>,
                       weights: seq<Option<real>>, concepts: seq<string>)

  predicate WellFormed(f: Form) {
    |f.criteria| == NumCriteria && |f.weights| == NumCriteria && |f.concepts| == MaxIdeas
  }

  /** `parseFloat(el.value) || 0`. */
  function WeightValue(w: Option<real>): real {
    if w.Some? then w.value else 0.0
  }

  /** `reduce((a, b) => a + b, 0)`. */
  function Sum(ws: seq<real>): real {
    if ws == [] then 0.0 else Sum(ws[..|ws| - 1]) + ws[|ws| - 1]
  }

  function WeightValues(f: Form): seq<real> {
    seq(|f.weights|, i requires 0 <= i < |f.weights| => WeightValue(f.weights[i]))
  }

  function WeightSum(f: Form): real {
    Sum(WeightValues(f))
  }

  predicate CriteriaFilled(f: Form)
    requires WellFormed(f)
  {
    forall i | 0 <= i < NumCriteria :: Trim(f.criteria[i]) != ""
  }

  predicate WeightsFilled(f: Form)
    requires WellFormed(f)
  {
    forall i | 0 <= i < NumCriteria :: WeightValue(f.weights[i]) > 0.0
  }

  predicate SomeWeight(f: Form) {
    exists i | 0 <= i < |f.weights| :: WeightValue(f.weights[i]) > 0.0
  }

  predicate SomeConcept(f: Form) {
    exists i | 0 <= i < |f.concepts| :: Trim(f.concepts[i]) != ""
  }

  /** The save button is enabled: name and description non-blank, all five
      criteria non-blank, all five weights positive and summing to exactly
      10, and at least one idea. */
  predicate CanAdvance(f: Form)
    requires WellFormed(f)
  {
    Trim(f.name) != "" && Trim(f.description) != "" && CriteriaFilled(f)
    && WeightsFilled(f) && WeightSum(f) == 10.0 && SomeConcept(f)
  }

  /** The text under the weights; `SumMismatch` shows the actual sum. */
  datatype Message = NoMessage | SumMismatch(actual: real) | NoConcept | NoName
                   | NoDescription | MissingCriteria | MissingWeights

  function ValidationMessage(f: Form): Message
    requires WellFormed(f)
  {
    if CanAdvance(f) then NoMessage
    else if WeightSum(f) != 10.0 && SomeWeight(f) then SumMismatch(WeightSum(f))
    else if !SomeConcept(f) then NoConcept
    else if Trim(f.name) == "" then NoName
    else if Trim(f.description) == "" then NoDescription
    else if !CriteriaFilled(f) then MissingCriteria
    else if !WeightsFilled(f) then MissingWeights
    else NoMessage
  }

  /** The message is empty exactly when advancing is allowed, so a blocked
      form always says why. The errors come in a fixed priority: a wrong sum
      (only when some weight is positive), then no idea, then the name, the
      description, the criteria and the weights. */
  lemma MessageSpec(f: Form)
    requires WellFormed(f)
    ensures ValidationMessage(f) == NoMessage <==> CanAdvance(f)
    ensures ValidationMessage(f).SumMismatch? <==> WeightSum(f) != 10.0 && SomeWeight(f)
    ensures ValidationMessage(f).SumMismatch? ==> ValidationMessage(f).actual == WeightSum(f)
    ensures ValidationMessage(f) == NoConcept ==> !SomeConcept(f)
    ensures ValidationMessage(f) == NoName ==> SomeConcept(f) && Trim(f.name) == ""
    ensures ValidationMessage(f) == NoDescription ==> SomeConcept(f) && Trim(f.name) != "" && Trim(f.description) == ""
    ensures ValidationMessage(f) == MissingCriteria ==>
      SomeConcept(f) && Trim(f.name) != "" && Trim(f.description) != "" && !CriteriaFilled(f)
    ensures ValidationMessage(f) == MissingWeights ==>
      SomeConcept(f) && Trim(f.name) != "" && Trim(f.description) != "" && CriteriaFilled(f) && !WeightsFilled(f)
    ensures !CanAdvance(f) && !SomeConcept(f) && !(WeightSum(f) != 10.0 && SomeWeight(f)) ==> ValidationMessage(f) == NoConcept
  {
    if WeightsFilled(f) {
      assert WeightValue(f.weights[0]) > 0.0;
    }
  }

  /** With every weight 0 the sum message is suppressed: an otherwise
      complete form asks for the weights. */
  lemma ZeroWeightsAskForWeights(f: Form)
    requires WellFormed(f)
    requires forall i | 0 <= i < NumCriteria :: f.weights[i].None? || f.weights[i] == Some(0.0)
    requires Trim(f.name) != "" && Trim(f.description) != "" && CriteriaFilled(f) && SomeConcept(f)
    ensures ValidationMessage(f) == MissingWeights
  {
    assert !WeightsFilled(f) by {
      assert WeightValue(f.weights[0]) == 0.0;
    }
    assert !SomeWeight(f);
  }

  lemma SumOfFive(a: real, b: real, c: real, e: real, g: real)
    ensures Sum([a, b, c, e, g]) == a + b + c + e + g
  {
    assert [a][..0] == [];
    assert Sum([a]) == a;
    assert [a, b][..1] == [a];
    assert Sum([a, b]) == a + b;
    assert [a, b, c][..2] == [a, b];
    assert Sum([a, b, c]) == a + b + c;
    assert [a, b, c, e][..3] == [a, b, c];
    assert Sum([a, b, c, e]) == a + b + c + e;
    assert [a, b, c, e, g][..4] == [a, b, c, e];
  }

  /** Five weights of 3 are blocked with "actual: 15.0". */
  lemma SumExample(f: Form)
    requires WellFormed(f)
    requires forall i | 0 <= i < NumCriteria :: f.weights[i] == Some(3.0)
    ensures !CanAdvance(f) && ValidationMessage(f) == SumMismatch(15.0)
  {
    assert WeightValues(f) == [3.0, 3.0, 3.0, 3.0, 3.0];
    SumOfFive(3.0, 3.0, 3.0, 3.0, 3.0);
    assert WeightValue(f.weights[0]) > 0.0;
  }

  /** Five weights of 2 pass once the texts are filled in. */
  lemma PassExample(f: Form)
    requires WellFormed(f)
    requires forall i | 0 <= i < NumCriteria :: f.weights[i] == Some(2.0)
    requires Trim(f.name) != "" && Trim(f.description) != "" && CriteriaFilled(f) && SomeConcept(f)
    ensures CanAdvance(f) && ValidationMessage(f) == NoMessage
  {
    assert WeightValues(f) == [2.0, 2.0, 2.0, 2.0, 2.0];
    SumOfFive(2.0, 2.0, 2.0, 2.0, 2.0);
  }

  // ---------------------------------------------------------------------------
  // migrateOldData

  /** A record with a fourth criterion but no fifth gets an empty fifth
      criterion and weight. */
  function Migrated(d: Record): Record {
    if Has(d, Criterio(4)) && !Has(d, Criterio(5)) then d[Criterio(5) := Text("")][Peso(5) := Text("")]
    else d
  }

  /** The migration touches only `criterio5` and `peso5`, and only when
      `criterio4` is set and `criterio5` is empty or absent. */
  lemma MigratedSpec(d: Record)
    ensures forall k | k != Criterio(5) && k != Peso(5) :: Get(Migrated(d), k) == Get(d, k)
    ensures !(Has(d, Criterio(4)) && !Has(d, Criterio(5))) ==> Migrated(d) == d
    ensures Has(d, Criterio(4)) && !Has(d, Criterio(5)) ==>
      Get(Migrated(d), Criterio(5)) == Some(Text("")) && Get(Migrated(d), Peso(5)) == Some(Text(""))
  {
  }

  /** Migrating twice is migrating once. */
  lemma MigratedIdempotent(d: Record)
    ensures Migrated(Migrated(d)) == Migrated(d)
  {
    var m := Migrated(d);
    if Has(d, Criterio(4)) && !Has(d, Criterio(5)) {
      assert m[Criterio(5) := Text("")][Peso(5) := Text("")] == m;
    }
  }

  /** A stored fifth weight without a fifth criterion is cleared. */
  lemma MigrationClearsWeight()
    ensures var d := map[Criterio(4) := Text("Cost"), Criterio(5) := Text(""), Peso(5) := Number(3.0)];
      Get(d, Peso(5)) == Some(Number(3.0)) && Get(Migrated(d), Peso(5)) == Some(Text(""))
  {
    var d := map[Criterio(4) := Text("Cost"), Criterio(5) := Text(""), Peso(5) := Number(3.0)];
    assert Has(d, Criterio(4)) && !Has(d, Criterio(5));
  }

  // ---------------------------------------------------------------------------
  // loadSavedData and saveAndContinue

  /** The form as loadSavedData fills it from a record. */
  function LoadedForm(d: Record): (f: Form)
    ensures WellFormed(f)
  {
    Form(TextOr(d, ProjectName), TextOr(d, ProjectDescription),
         seq(NumCriteria, i => TextOr(d, Criterio(i + 1))),
         seq(NumCriteria, i => ParsedOf(d, Peso(i + 1))),
         seq(MaxIdeas, i => TextOr(d, Concepto(i + 1))))
  }

  /** The three groups of numbered inputs of the page. */
  datatype InputGroup = CriterionInputs | WeightInputs | ConceptInputs

  function InputKey(g: InputGroup, i: int): Key {
    match g
    case CriterionInputs => Criterio(i)
    case WeightInputs => Peso(i)
    case ConceptInputs => Concepto(i)
  }

  predicate IsInputKey(g: InputGroup, k: Key, n: int) {
    (match g
     case CriterionInputs => k.Criterio?
     case WeightInputs => k.Peso?
     case ConceptInputs => k.Concepto?) && 1 <= k.n <= n
  }

  /** What saveAndContinue stores for input i of a group: texts trimmed,
      weights as typed. */
  function InputValue(f: Form, g: InputGroup, i: int): Value
    requires WellFormed(f) && 1 <= i <= NumCriteria
  {
    match g
    case CriterionInputs => Text(Trim(f.criteria[i - 1]))
    case WeightInputs => OfInput(f.weights[i - 1])
    case ConceptInputs => Text(Trim(f.concepts[i - 1]))
  }

  function WriteInputs(d: Record, f: Form, g: InputGroup, n: int): Record
    requires WellFormed(f) && n <= NumCriteria
    decreases n
  {
    if n < 1 then d else WriteInputs(d, f, g, n - 1)[InputKey(g, n) := InputValue(f, g, n)]
  }

  lemma {:induction false} WriteInputsWrites(d: Record, f: Form, g: InputGroup, n: int)
    requires WellFormed(f) && n <= NumCriteria
    decreases n
    ensures forall i | 1 <= i <= n :: Get(WriteInputs(d, f, g, n), InputKey(g, i)) == Some(InputValue(f, g, i))
  {
    if n >= 1 {
      WriteInputsWrites(d, f, g, n - 1);
    }
  }

  lemma {:induction false} WriteInputsKeeps(d: Record, f: Form, g: InputGroup, n: int)
    requires WellFormed(f) && n <= NumCriteria
    decreases n
    ensures forall k | !IsInputKey(g, k, n) :: Get(WriteInputs(d, f, g, n), k) == Get(d, k)
  {
    if n >= 1 {
      WriteInputsKeeps(d, f, g, n - 1);
    }
  }

  function WithHeader(d: Record, f: Form): Record {
    d[ProjectName := Text(Trim(f.name))][ProjectDescription := Text(Trim(f.description))][NumCriterios := Number(NumCriteria as real)]
  }

  /** The record saveAndContinue writes. */
  function Saved(d: Record, f: Form): Record
    requires WellFormed(f)
  {
    WriteInputs(WriteInputs(WriteInputs(WithHeader(d, f), f, CriterionInputs, NumCriteria), f, WeightInputs, NumCriteria), f, ConceptInputs, MaxIdeas)
  }

  predicate IsSavedKey(k: Key) {
    k == ProjectName || k == ProjectDescription || k == NumCriterios
    || ((k.Criterio? || k.Peso? || k.Concepto?) && 1 <= k.n <= NumCriteria)
  }

  /** Saving writes exactly the header, criteria 1..5, weights 1..5 and ideas
      1..5; in particular a sixth criterion or weight is left alone. */
  lemma SavedKeeps(d: Record, f: Form)
    requires WellFormed(f)
    ensures forall k | !IsSavedKey(k) :: Get(Saved(d, f), k) == Get(d, k)
  {
    var d0 := WithHeader(d, f);
    var d1 := WriteInputs(d0, f, CriterionInputs, NumCriteria);
    var d2 := WriteInputs(d1, f, WeightInputs, NumCriteria);
    WriteInputsKeeps(d0, f, CriterionInputs, NumCriteria);
    WriteInputsKeeps(d1, f, WeightInputs, NumCriteria);
    WriteInputsKeeps(d2, f, ConceptInputs, MaxIdeas);
  }

  lemma {:induction false} WriteInputsKeepsKey(d: Record, f: Form, g: InputGroup, n: int, k: Key)
    requires WellFormed(f) && n <= NumCriteria && !IsInputKey(g, k, n)
    decreases n
    ensures Get(WriteInputs(d, f, g, n), k) == Get(d, k)
  {
    if n >= 1 {
      WriteInputsKeepsKey(d, f, g, n - 1, k);
    }
  }

  lemma {:induction false} WriteInputsWritesKey(d: Record, f: Form, g: InputGroup, n: int, i: int)
    requires WellFormed(f) && n <= NumCriteria && 1 <= i <= n
    decreases n
    ensures Get(WriteInputs(d, f, g, n), InputKey(g, i)) == Some(InputValue(f, g, i))
  {
    if i < n {
      WriteInputsWritesKey(d, f, g, n - 1, i);
    }
  }

  /** Saving stores the trimmed texts, the weights as typed and
      `numCriterios = 5`. */
  lemma SavedWrites(d: Record, f: Form)
    requires WellFormed(f)
    ensures Get(Saved(d, f), ProjectName) == Some(Text(Trim(f.name)))
    ensures Get(Saved(d, f), ProjectDescription) == Some(Text(Trim(f.description)))
    ensures Get(Saved(d, f), NumCriterios) == Some(Number(5.0))
    ensures forall i | 1 <= i <= NumCriteria ::
      Get(Saved(d, f), Criterio(i)) == Some(Text(Trim(f.criteria[i - 1])))
      && Get(Saved(d, f), Peso(i)) == Some(OfInput(f.weights[i - 1]))
      && Get(Saved(d, f), Concepto(i)) == Some(Text(Trim(f.concepts[i - 1])))
  {
    SavedHeader(d, f, ProjectName);
    SavedHeader(d, f, ProjectDescription);
    SavedHeader(d, f, NumCriterios);
    forall i | 1 <= i <= NumCriteria
      ensures Get(Saved(d, f), Criterio(i)) == Some(Text(Trim(f.criteria[i - 1])))
      ensures Get(Saved(d, f), Peso(i)) == Some(OfInput(f.weights[i - 1]))
      ensures Get(Saved(d, f), Concepto(i)) == Some(Text(Trim(f.concepts[i - 1])))
    {
      SavedInput(d, f, CriterionInputs, i);
      SavedInput(d, f, WeightInputs, i);
      SavedInput(d, f, ConceptInputs, i);
    }
  }

  lemma SavedHeader(d: Record, f: Form, k: Key)
    requires WellFormed(f)
    requires k == ProjectName || k == ProjectDescription || k == NumCriterios
    ensures Get(Saved(d, f), k) == Get(WithHeader(d, f), k)
  {
    var d0 := WithHeader(d, f);
    var d1 := WriteInputs(d0, f, CriterionInputs, NumCriteria);
    var d2 := WriteInputs(d1, f, WeightInputs, NumCriteria);
    WriteInputsKeepsKey(d0, f, CriterionInputs, NumCriteria, k);
    WriteInputsKeepsKey(d1, f, WeightInputs, NumCriteria, k);
    WriteInputsKeepsKey(d2, f, ConceptInputs, MaxIdeas, k);
  }

  lemma SavedInput(d: Record, f: Form, g: InputGroup, i: int)
    requires WellFormed(f) && 1 <= i <= NumCriteria
    ensures Get(Saved(d, f), InputKey(g, i)) == Some(InputValue(f, g, i))
  {
    var d0 := WithHeader(d, f);
    var d1 := WriteInputs(d0, f, CriterionInputs, NumCriteria);
    var d2 := WriteInputs(d1, f, WeightInputs, NumCriteria);
    var k := InputKey(g, i);
    match g
    case CriterionInputs =>
      WriteInputsWritesKey(d0, f, g, NumCriteria, i);
      WriteInputsKeepsKey(d1, f, WeightInputs, NumCriteria, k);
      WriteInputsKeepsKey(d2, f, ConceptInputs, MaxIdeas, k);
    case WeightInputs =>
      WriteInputsWritesKey(d1, f, g, NumCriteria, i);
      WriteInputsKeepsKey(d2, f, ConceptInputs, MaxIdeas, k);
    case ConceptInputs =>
      WriteInputsWritesKey(d2, f, g, MaxIdeas, i);
  }

  /** The form with its texts trimmed, as saving leaves it. */
  function Normalized(f: Form): (n: Form)
    requires WellFormed(f)
    ensures WellFormed(n)
  {
    Form(Trim(f.name), Trim(f.description),
         seq(NumCriteria, i requires 0 <= i < NumCriteria => Trim(f.criteria[i])),
         f.weights,
         seq(MaxIdeas, i requires 0 <= i < MaxIdeas => Trim(f.concepts[i])))
  }

  /** Loading a saved record shows the saved form with its texts trimmed. */
  lemma SaveLoadRoundTrip(d: Record, f: Form)
    requires WellFormed(f)
    ensures LoadedForm(Saved(d, f)) == Normalized(f)
  {
    SavedHeader(d, f, ProjectName);
    SavedHeader(d, f, ProjectDescription);
    ReloadedCriteria(d, f);
    ReloadedWeights(d, f);
    ReloadedConcepts(d, f);
  }

  lemma ReloadedCriteria(d: Record, f: Form)
    requires WellFormed(f)
    ensures LoadedForm(Saved(d, f)).criteria == Normalized(f).criteria
  {
    var s := Saved(d, f);
    var l, n := LoadedForm(s).criteria, Normalized(f).criteria;
    forall i | 0 <= i < NumCriteria ensures l[i] == n[i] {
      SavedInput(d, f, CriterionInputs, i + 1);
      assert s[Criterio(i + 1)] == Text(Trim(f.criteria[i]));
    }
  }

  lemma ReloadedWeights(d: Record, f: Form)
    requires WellFormed(f)
    ensures LoadedForm(Saved(d, f)).weights == Normalized(f).weights
  {
    var s := Saved(d, f);
    var l, n := LoadedForm(s).weights, Normalized(f).weights;
    forall i | 0 <= i < NumCriteria ensures l[i] == n[i] {
      SavedInput(d, f, WeightInputs, i + 1);
      assert s[Peso(i + 1)] == OfInput(f.weights[i]);
    }
  }

  lemma ReloadedConcepts(d: Record, f: Form)
    requires WellFormed(f)
    ensures LoadedForm(Saved(d, f)).concepts == Normalized(f).concepts
  {
    var s := Saved(d, f);
    var l, n := LoadedForm(s).concepts, Normalized(f).concepts;
    forall i | 0 <= i < MaxIdeas ensures l[i] == n[i] {
      SavedInput(d, f, ConceptInputs, i + 1);
      assert s[Concepto(i + 1)] == Text(Trim(f.concepts[i]));
    }
  }

  /** Trimming the texts does not change whether the form may advance. */
  lemma NormalizedKeepsAdvance(f: Form)
    requires WellFormed(f)
    ensures CanAdvance(Normalized(f)) == CanAdvance(f)
    ensures ValidationMessage(Normalized(f)) == ValidationMessage(f)
  {
    var n := Normalized(f);
    TrimIdempotent(f.name);
    TrimIdempotent(f.description);
    forall i | 0 <= i < NumCriteria ensures Trim(n.criteria[i]) == Trim(f.criteria[i]) {
      TrimIdempotent(f.criteria[i]);
    }
    forall i | 0 <= i < MaxIdeas ensures Trim(n.concepts[i]) == Trim(f.concepts[i]) {
      TrimIdempotent(f.concepts[i]);
    }
    assert CriteriaFilled(n) == CriteriaFilled(f);
    assert SomeConcept(n) == SomeConcept(f) by {
      if SomeConcept(f) {
        var i :| 0 <= i < |f.concepts| && Trim(f.concepts[i]) != "";
        assert Trim(n.concepts[i]) != "";
      }
      if SomeConcept(n) {
        var i :| 0 <= i < |n.concepts| && Trim(n.concepts[i]) != "";
        assert Trim(f.concepts[i]) != "";
      }
    }
  }

  /** A form that may advance comes back unchanged (up to trimming) on the
      next visit: the migration does not fire, since criterion 5 is set. */
  lemma ReloadAfterSave(d: Record, f: Form)
    requires WellFormed(f) && CanAdvance(f)
    ensures Migrated(Saved(d, f)) == Saved(d, f)
    ensures LoadedForm(Migrated(Saved(d, f))) == Normalized(f)
    ensures CanAdvance(LoadedForm(Migrated(Saved(d, f))))
  {
    SavedInput(d, f, CriterionInputs, 5);
    var s := Saved(d, f);
    assert Trim(f.criteria[4]) != "";
    assert s[Criterio(5)] == Text(Trim(f.criteria[4]));
    assert Has(s, Criterio(5));
    SaveLoadRoundTrip(d, f);
    NormalizedKeepsAdvance(f);
  }

  class CriteriaPage {
    /** The page's copy of the record. */
    var data: Record
    /** What local storage holds. */
    var stored: Record
    var form: Form
    var saveEnabled: bool
    var message: Message

    ghost predicate Valid()
      reads this
    {
      WellFormed(form)
    }

    /** initializePage: migrate first, then fill the form from the migrated
        record, then validate. */
    constructor Load(saved: Record)
      ensures Valid()
      ensures stored == saved
      ensures data == Migrated(saved)
      ensures form == LoadedForm(Migrated(saved))
      ensures saveEnabled == CanAdvance(form) && message == ValidationMessage(form)
    {
      var migrated := Migrated(saved);
      data := migrated;
      stored := saved;
      form := LoadedForm(migrated);
      saveEnabled := CanAdvance(LoadedForm(migrated));
      message := ValidationMessage(LoadedForm(migrated));
    }

    /** validateAndEnable. */
    method ValidateAndEnable()
      requires Valid()
      modifies this`saveEnabled, this`message
      ensures saveEnabled == CanAdvance(form)
      ensures message == ValidationMessage(form)
      ensures saveEnabled <==> message == NoMessage
    {
      saveEnabled := CanAdvance(form);
      message := ValidationMessage(form);
      MessageSpec(form);
    }

    /** The input listeners: the user changes the form, and it is
        validated again. */
    method Edit(f: Form)
      requires Valid() && WellFormed(f)
      modifies this`form, this`saveEnabled, this`message
      ensures Valid() && form == f
      ensures saveEnabled == CanAdvance(f) && message == ValidationMessage(f)
    {
      form := f;
      ValidateAndEnable();
    }

    /** saveAndContinue: header, criteria and weights 1..5 and the ideas are
        stored, then the record is written to local storage. */
    method SaveAndContinue()
      requires Valid()
      modifies this`data, this`stored
      ensures data == Saved(old(data), form)
      ensures stored == data
    {
      data := data[ProjectName := Text(Trim(form.name))];
      data := data[ProjectDescription := Text(Trim(form.description))];
      data := data[NumCriterios := Number(NumCriteria as real)];
      ghost var d0 := data;
      var id := 1;
      while id <= NumCriteria
        invariant 1 <= id <= NumCriteria + 1
        invariant data == WriteInputs(d0, form, CriterionInputs, id - 1)
      {
        data := data[Criterio(id) := Text(Trim(form.criteria[id - 1]))];
        id := id + 1;
      }
      ghost var d1 := data;
      id := 1;
      while id <= NumCriteria
        invariant 1 <= id <= NumCriteria + 1
        invariant data == WriteInputs(d1, form, WeightInputs, id - 1)
      {
        data := data[Peso(id) := OfInput(form.weights[id - 1])];
        id := id + 1;
      }
      ghost var d2 := data;
      id := 1;
      while id <= MaxIdeas
        invariant 1 <= id <= MaxIdeas + 1
        invariant data == WriteInputs(d2, form, ConceptInputs, id - 1)
      {
        data := data[Concepto(id) := Text(Trim(form.concepts[id - 1]))];
        id := id + 1;
      }
      stored := data;
    }
  }
}
