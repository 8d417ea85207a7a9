/** The second task page (diagrama2): the best-concept header and the task
    rows 16..30, each with a person, a task and an output field. */
module TaskPlan {
  import opened Store

  const FirstRow := 16
  /** Fifteen rows, 16..30. */
  const LastRow := FirstRow + 14

  predicate IsRow(i: int) {
    FirstRow <= i <= LastRow
  }

  predicate IsRowKey(k: Key) {
    (k.Persona? || k.Tarea? || k.Salida?) && IsRow(k.n)
  }

  /** Every row 16..30 has its three inputs on the page. */
  predicate HasRowInputs(inputs: map<Key, string>) {
    forall i | FirstRow <= i <= LastRow :: Persona(i) in inputs && Tarea(i) in inputs && Salida(i) in inputs
  }

  /** What generarTareas shows for rows 16..n: the stored text, or "". */
  function RenderedUpTo(d: Record, n: int): map<Key, string>
    decreases n
  {
    if n < FirstRow then map[]
    else RenderedUpTo(d, n - 1)[Persona(n) := TextOr(d, Persona(n))][Tarea(n) := TextOr(d, Tarea(n))][Salida(n) := TextOr(d, Salida(n))]
  }

  lemma {:induction false} RenderedUpToSpec(d: Record, n: int)
    decreases n
    ensures forall k :: k in RenderedUpTo(d, n) <==> (k.Persona? || k.Tarea? || k.Salida?) && FirstRow <= k.n <= n
    ensures forall k | k in RenderedUpTo(d, n) :: RenderedUpTo(d, n)[k] == TextOr(d, k)
  {
    if n >= FirstRow {
      RenderedUpToSpec(d, n - 1);
    }
  }

  /** Exactly rows 16..30 are rendered, each field showing its stored text
      or "". */
  lemma RenderedSpec(d: Record)
    ensures forall k :: k in RenderedUpTo(d, LastRow) <==> IsRowKey(k)
    ensures forall k | k in RenderedUpTo(d, LastRow) :: RenderedUpTo(d, LastRow)[k] == TextOr(d, k)
  {
    RenderedUpToSpec(d, LastRow);
  }

  /** generarTareas: one row per index 16..30. */
  method GenerarTareas(d: Record) returns (inputs: map<Key, string>)
    ensures inputs == RenderedUpTo(d, LastRow)
    ensures HasRowInputs(inputs)
  {
    inputs := map[];
    var i := FirstRow;
    while i <= LastRow
      invariant FirstRow <= i <= LastRow + 1
      invariant inputs == RenderedUpTo(d, i - 1)
      invariant forall j | FirstRow <= j < i :: Persona(j) in inputs && Tarea(j) in inputs && Salida(j) in inputs
    {
      var responsable := TextOr(d, Persona(i));
      var tarea := TextOr(d, Tarea(i));
      var salida := TextOr(d, Salida(i));
      inputs := inputs[Persona(i) := responsable][Tarea(i) := tarea][Salida(i) := salida];
      i := i + 1;
    }
  }

  /** The record after saving rows 16..n, each field trimmed. */
  function SavedUpTo(d: Record, inputs: map<Key, string>, n: int): Record
    requires HasRowInputs(inputs)
    requires n <= LastRow
    decreases n
  {
    if n < FirstRow then d else RowSaved(SavedUpTo(d, inputs, n - 1), inputs, n)
  }

  /** The record after row i's three inputs are stored, trimmed. */
  function RowSaved(d: Record, inputs: map<Key, string>, i: int): Record
    requires Persona(i) in inputs && Tarea(i) in inputs && Salida(i) in inputs
  {
    d[Persona(i) := Text(Trim(inputs[Persona(i)]))][Tarea(i) := Text(Trim(inputs[Tarea(i)]))]
      [Salida(i) := Text(Trim(inputs[Salida(i)]))]
  }

  /** Row i's three fields hold its inputs, trimmed. */
  predicate RowStored(d: Record, inputs: map<Key, string>, i: int)
    requires Persona(i) in inputs && Tarea(i) in inputs && Salida(i) in inputs
  {
    && Get(d, Persona(i)) == Some(Text(Trim(inputs[Persona(i)])))
    && Get(d, Tarea(i)) == Some(Text(Trim(inputs[Tarea(i)])))
    && Get(d, Salida(i)) == Some(Text(Trim(inputs[Salida(i)])))
  }

  lemma {:induction false} SavedUpToWrites(d: Record, inputs: map<Key, string>, n: int)
    requires HasRowInputs(inputs)
    requires n <= LastRow
    decreases n
    ensures forall i | FirstRow <= i <= n :: RowStored(SavedUpTo(d, inputs, n), inputs, i)
  {
    if n >= FirstRow {
      SavedUpToWrites(d, inputs, n - 1);
      forall i | FirstRow <= i < n ensures RowStored(SavedUpTo(d, inputs, n), inputs, i) {
        RowSavedKeepsOtherRow(SavedUpTo(d, inputs, n - 1), inputs, n, i);
      }
    }
  }

  /** Storing row i leaves row j != i as it was. */
  lemma RowSavedKeepsOtherRow(d: Record, inputs: map<Key, string>, i: int, j: int)
    requires HasRowInputs(inputs) && IsRow(i) && IsRow(j) && i != j
    requires RowStored(d, inputs, j)
    ensures RowStored(RowSaved(d, inputs, i), inputs, j)
  {
  }

  lemma {:induction false} SavedUpToKeeps(d: Record, inputs: map<Key, string>, n: int)
    requires HasRowInputs(inputs)
    requires n <= LastRow
    decreases n
    ensures forall k: Key | !((k.Persona? || k.Tarea? || k.Salida?) && FirstRow <= k.n <= n) ::
      Get(SavedUpTo(d, inputs, n), k) == Get(d, k)
  {
    if n >= FirstRow {
      SavedUpToKeeps(d, inputs, n - 1);
      var prev := SavedUpTo(d, inputs, n - 1);
      var s := SavedUpTo(d, inputs, n);
      forall k: Key | !((k.Persona? || k.Tarea? || k.Salida?) && FirstRow <= k.n <= n)
        ensures Get(s, k) == Get(d, k)
      {
        RowSavedKeeps(prev, inputs, n, k);
      }
    }
  }

  /** Storing row i changes no key outside row i. */
  lemma RowSavedKeeps(d: Record, inputs: map<Key, string>, i: int, k: Key)
    requires Persona(i) in inputs && Tarea(i) in inputs && Salida(i) in inputs
    requires k != Persona(i) && k != Tarea(i) && k != Salida(i)
    ensures Get(RowSaved(d, inputs, i), k) == Get(d, k)
  {
  }

  /** The record saveAndContinue writes. */
  function Saved(d: Record, inputs: map<Key, string>): Record
    requires HasRowInputs(inputs)
  {
    SavedUpTo(d, inputs, LastRow)
  }

  /** Saving stores every row field of 16..30 trimmed and changes no other
      key: rows 1..15 of the first task page keep their values. */
  lemma SavedSpec(d: Record, inputs: map<Key, string>)
    requires HasRowInputs(inputs)
    ensures forall i | IsRow(i) :: RowStored(Saved(d, inputs), inputs, i)
    ensures forall k: Key | !IsRowKey(k) :: Get(Saved(d, inputs), k) == Get(d, k)
  {
    SavedUpToWrites(d, inputs, LastRow);
    SavedUpToKeeps(d, inputs, LastRow);
  }

  /** In particular rows 1..15, which the first task page owns, are not
      touched. */
  lemma SaveKeepsFirstRows(d: Record, inputs: map<Key, string>, i: int)
    requires HasRowInputs(inputs)
    requires 1 <= i < FirstRow
    ensures Get(Saved(d, inputs), Persona(i)) == Get(d, Persona(i))
    ensures Get(Saved(d, inputs), Tarea(i)) == Get(d, Tarea(i))
    ensures Get(Saved(d, inputs), Salida(i)) == Get(d, Salida(i))
  {
    SavedUpToKeeps(d, inputs, LastRow);
  }

  /** Reloading after a save shows every row field already trimmed, so
      saving again writes the same texts. */
  lemma SaveIsStable(d: Record, inputs: map<Key, string>, i: int)
    requires HasRowInputs(inputs) && IsRow(i)
    ensures var r := RenderedUpTo(Saved(d, inputs), LastRow);
      && Persona(i) in r && r[Persona(i)] == Trim(inputs[Persona(i)]) && Trim(r[Persona(i)]) == r[Persona(i)]
      && Tarea(i) in r && r[Tarea(i)] == Trim(inputs[Tarea(i)]) && Trim(r[Tarea(i)]) == r[Tarea(i)]
      && Salida(i) in r && r[Salida(i)] == Trim(inputs[Salida(i)]) && Trim(r[Salida(i)]) == r[Salida(i)]
  {
    var s := Saved(d, inputs);
    SavedUpToWrites(d, inputs, LastRow);
    assert RowStored(s, inputs, i);
    RenderedSpec(s);
    TrimIdempotent(inputs[Persona(i)]);
    TrimIdempotent(inputs[Tarea(i)]);
    TrimIdempotent(inputs[Salida(i)]);
  }

  /** The store loop of saveAndContinue: the three inputs of each row
      16..30, trimmed. */
  method StoreTasks(d: Record, inputs: map<Key, string>) returns (e: Record)
    requires HasRowInputs(inputs)
    ensures e == Saved(d, inputs)
  {
    e := d;
    var i := FirstRow;
    while i <= LastRow
      invariant FirstRow <= i <= LastRow + 1
      invariant e == SavedUpTo(d, inputs, i - 1)
    {
      e := StoreRow(e, inputs, i);
      i := i + 1;
    }
  }

  /** One round of the store loop: row i's person, task and output. */
  method StoreRow(d: Record, inputs: map<Key, string>, i: int) returns (e: Record)
    requires Persona(i) in inputs && Tarea(i) in inputs && Salida(i) in inputs
    ensures e == RowSaved(d, inputs, i)
  {
    e := d[Persona(i) := Text(Trim(inputs[Persona(i)]))];
    e := e[Tarea(i) := Text(Trim(inputs[Tarea(i)]))];
    e := e[Salida(i) := Text(Trim(inputs[Salida(i)]))];
  }

  class TaskPlanPage {
    /** The page's copy of the record. */
    var data: Record
    /** What local storage holds. */
    var stored: Record
    /** The person, task and output inputs of rows 16..30. */
    var inputs: map<Key, string>

    ghost predicate Valid()
      reads this
    {
      HasRowInputs(inputs)
    }

    /** Page load: rows 16..30 show the stored texts. */
    constructor Load(saved: Record)
      ensures Valid()
      ensures data == saved && stored == saved
      ensures inputs == RenderedUpTo(saved, LastRow)
    {
      var rendered := GenerarTareas(saved);
      data := saved;
      stored := saved;
      inputs := rendered;
    }

    /** The user types `v` into row field `k`. */
    method EditField(k: Key, v: string)
      requires Valid() && k in inputs
      modifies this`inputs
      ensures Valid()
      ensures inputs == old(inputs)[k := v]
    {
      inputs := inputs[k := v];
    }

    /** saveAndContinue: every row input is stored trimmed, then the record is
        written to local storage. */
    method SaveAndContinue()
      requires Valid()
      modifies this`data, this`stored
      ensures data == Saved(old(data), inputs)
      ensures stored == data
    {
      data := StoreTasks(data, inputs);
      stored := data;
    }
  }
}
