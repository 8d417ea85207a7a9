/** The "best concept" header of the prevention page and of the second task
    page: the formed concept with the highest stored result, and what it is
    made of, one entry per existing idea. Both pages share this code. */
module BestConcept {
  import opened Store
  import opened Indexing
  import opened Ideas
  import opened Scoring

  /** The stored results of formed concepts 1..3, an absent or unparsable
      one as 0. */
  function Results(d: Record): (rs: seq<real>)
    ensures |rs| == FormedConcepts
    ensures forall j | 0 <= j < FormedConcepts :: rs[j] == NumOr0(d, ResultKey(Formed, j + 1))
  {
    [NumOr0(d, ResultKey(Formed, 1)), NumOr0(d, ResultKey(Formed, 2)), NumOr0(d, ResultKey(Formed, 3))]
  }

  /** `Math.max(...rs)`. */
  function Max(rs: seq<real>): real
    requires |rs| > 0
  {
    if |rs| == 1 then rs[0]
    else
      var m := Max(rs[..|rs| - 1]);
      if rs[|rs| - 1] > m then rs[|rs| - 1] else m
  }

  lemma {:induction false} MaxSpec(rs: seq<real>)
    requires |rs| > 0
    ensures Max(rs) in rs
    ensures forall k | 0 <= k < |rs| :: rs[k] <= Max(rs)
  {
    if |rs| > 1 {
      var prev := rs[..|rs| - 1];
      MaxSpec(prev);
      assert forall k | 0 <= k < |prev| :: rs[k] == prev[k];
    }
  }

  /** `rs.indexOf(x)`: the first position holding x, or -1. */
  function IndexOf(rs: seq<real>, x: real): int {
    if rs == [] then -1
    else if rs[0] == x then 0
    else
      var i := IndexOf(rs[1..], x);
      if i < 0 then -1 else i + 1
  }

  lemma {:induction false} IndexOfSpec(rs: seq<real>, x: real)
    ensures x in rs ==> (0 <= IndexOf(rs, x) < |rs| && rs[IndexOf(rs, x)] == x
      && forall k | 0 <= k < IndexOf(rs, x) :: rs[k] != x)
    ensures x !in rs ==> IndexOf(rs, x) == -1
  {
    if rs != [] && rs[0] != x {
      IndexOfSpec(rs[1..], x);
      assert x in rs ==> x in rs[1..];
      if x in rs {
        var i := IndexOf(rs[1..], x);
        forall k | 0 <= k < i + 1 ensures rs[k] != x {
          if k > 0 { assert rs[k] == rs[1..][k - 1]; }
        }
      }
    }
  }

  /** mejorIdx: the first position of the maximum, or -1 when every result
      is 0. */
  function BestIndex(rs: seq<real>): int
    requires |rs| == FormedConcepts
  {
    if forall k | 0 <= k < |rs| :: rs[k] == 0.0 then -1 else IndexOf(rs, Max(rs))
  }

  /** The best index is -1 exactly when all three results are 0; otherwise it
      is a position holding the maximum, and every earlier result is
      strictly smaller (ties go to the first). */
  lemma BestIndexSpec(rs: seq<real>)
    requires |rs| == FormedConcepts
    ensures BestIndex(rs) == -1 <==> forall k | 0 <= k < |rs| :: rs[k] == 0.0
    ensures BestIndex(rs) != -1 ==> (0 <= BestIndex(rs) < FormedConcepts
      && (forall k | 0 <= k < |rs| :: rs[k] <= rs[BestIndex(rs)])
      && (forall k | 0 <= k < BestIndex(rs) :: rs[k] < rs[BestIndex(rs)]))
  {
    MaxSpec(rs);
    IndexOfSpec(rs, Max(rs));
  }

  /** A negative result with two zeros still yields a best concept: the
      first zero. */
  lemma BestIndexNegativeExample()
    ensures BestIndex([-1.0, 0.0, 0.0]) == 1
  {
    var rs := [-1.0, 0.0, 0.0];
    BestIndexSpec(rs);
    assert rs[0] != 0.0;
    var b := BestIndex(rs);
    assert rs[1] <= rs[b] && rs[b] <= rs[1];
  }

  /** Ties go to the first formed concept. */
  lemma BestIndexTieExample()
    ensures BestIndex([5.0, 5.0, 3.0]) == 0
  {
    BestIndexSpec([5.0, 5.0, 3.0]);
  }

  // ---------------------------------------------------------------------------
  // Composition of the best concept

  /** One line of the composition list: the idea, its text and the chosen
      possibility, or `None` for "no selection". */
  datatype Entry = Entry(concept: int, name: string, option: Option<string>)

  /** The option chosen for idea `c` in the column of the best concept. */
  function Selection(d: Record, c: int, best: int): string {
    TextOr(d, PastelGrupo(FlatIndex(c, best + 1)))
  }

  function Possibility(d: Record, c: int, n: int): string {
    TextOr(d, Pos(FlatIndex(c, n)))
  }

  /** The first possibility n..3 of idea `c` whose text equals `sel`. */
  function FirstMatch(d: Record, c: int, sel: string, n: int): Option<string>
    decreases SlotsPerIdea + 1 - n
  {
    if n > SlotsPerIdea then None
    else if Possibility(d, c, n) == sel then Some(Possibility(d, c, n))
    else FirstMatch(d, c, sel, n + 1)
  }

  lemma {:induction false} FirstMatchSpec(d: Record, c: int, sel: string, n: int)
    requires 1 <= n
    decreases SlotsPerIdea + 1 - n
    ensures FirstMatch(d, c, sel, n).Some? <==> exists m | n <= m <= SlotsPerIdea :: Possibility(d, c, m) == sel
    ensures FirstMatch(d, c, sel, n).Some? ==> FirstMatch(d, c, sel, n).value == sel
  {
    if n <= SlotsPerIdea && Possibility(d, c, n) != sel {
      FirstMatchSpec(d, c, sel, n + 1);
      if exists m | n <= m <= SlotsPerIdea :: Possibility(d, c, m) == sel {
        var m :| n <= m <= SlotsPerIdea && Possibility(d, c, m) == sel;
        assert m != n;
      }
    }
  }

  function EntryFor(d: Record, c: int, best: int): Entry {
    Entry(c, TextOr(d, Concepto(c)), FirstMatch(d, c, Selection(d, c, best), 1))
  }

  /** The composition list: nothing without a best concept, else one entry
      per existing idea in ascending order. */
  function Composition(d: Record, best: int): seq<Entry> {
    if best >= 0 && Existing(d) != [] then seq(|Existing(d)|, j requires 0 <= j < |Existing(d)| => EntryFor(d, Existing(d)[j], best))
    else []
  }

  /** One entry per existing idea, in ascending order, naming the idea; the
      option shown is the stored selection, present exactly when one of the
      idea's three possibilities has that text. */
  lemma CompositionSpec(d: Record, best: int)
    ensures best < 0 ==> Composition(d, best) == []
    ensures best >= 0 ==> |Composition(d, best)| == |Existing(d)|
    ensures forall j | 0 <= j < |Composition(d, best)| ::
      var e := Composition(d, best)[j];
      e.concept == Existing(d)[j] && e.name == TextOr(d, Concepto(e.concept))
      && (e.option.Some? ==> e.option.value == Selection(d, e.concept, best))
      && (e.option.Some? <==> exists n | 1 <= n <= SlotsPerIdea :: Possibility(d, e.concept, n) == Selection(d, e.concept, best))
    ensures forall i, j | 0 <= i < j < |Composition(d, best)| :: Composition(d, best)[i].concept < Composition(d, best)[j].concept
  {
    ExistingSpec(d);
    forall j | 0 <= j < |Composition(d, best)| {
      FirstMatchSpec(d, Existing(d)[j], Selection(d, Existing(d)[j], best), 1);
    }
  }

  /** An empty selection (the idea has nothing chosen in that column) whose
      idea has an empty or missing possibility is shown as an empty option
      rather than as "no selection". */
  lemma EmptySelectionShowsEmptyOption(d: Record, c: int, best: int, n: int)
    requires Selection(d, c, best) == "" && IsSlot(n) && Possibility(d, c, n) == ""
    ensures EntryFor(d, c, best).option == Some("")
  {
    FirstMatchSpec(d, c, "", 1);
  }

  /** The composition loop of generarMejorConcepto: for each existing idea,
      search its three possibilities for the selected text, stopping at the
      first match. */
  method ComposeBest(d: Record, best: int) returns (opciones: seq<Entry>)
    ensures opciones == Composition(d, best)
  {
    var cs := ExistingConcepts(d);
    opciones := [];
    if best >= 0 && |cs| > 0 {
      var j := 0;
      while j < |cs|
        invariant 0 <= j <= |cs|
        invariant |opciones| == j
        invariant forall k | 0 <= k < j :: opciones[k] == EntryFor(d, cs[k], best)
      {
        var conc := cs[j];
        var opcionSeleccionada := TextOr(d, PastelGrupo(FlatIndex(conc, best + 1)));
        var nombreConcepto := TextOr(d, Concepto(conc));
        var opcion := FindOption(d, conc, opcionSeleccionada);
        opciones := opciones + [Entry(conc, nombreConcepto, opcion)];
        j := j + 1;
      }
    }
  }

  /** The inner search of the composition loop: the first of the idea's
      three possibilities whose text equals the selection. */
  method FindOption(d: Record, conc: int, opcionSeleccionada: string) returns (opcion: Option<string>)
    ensures opcion == FirstMatch(d, conc, opcionSeleccionada, 1)
  {
    opcion := None;
    var opcionNum := 1;
    while opcionNum <= SlotsPerIdea
      invariant 1 <= opcionNum <= SlotsPerIdea + 1
      invariant FirstMatch(d, conc, opcionSeleccionada, 1) == FirstMatch(d, conc, opcionSeleccionada, opcionNum)
    {
      var posibilidad := TextOr(d, Pos(FlatIndex(conc, opcionNum)));
      if posibilidad == opcionSeleccionada {
        opcion := Some(posibilidad);
        return;
      }
      opcionNum := opcionNum + 1;
    }
  }

  /** generarMejorConcepto: the best index from `resultado4..6`, then the
      composition of that formed concept. */
  method BestConceptSection(d: Record) returns (mejorIdx: int, opciones: seq<Entry>)
    ensures mejorIdx == BestIndex(Results(d))
    ensures -1 <= mejorIdx < FormedConcepts
    ensures opciones == Composition(d, mejorIdx)
  {
    var resultados := [NumOr0(d, ResultKey(Formed, 1)), NumOr0(d, ResultKey(Formed, 2)), NumOr0(d, ResultKey(Formed, 3))];
    mejorIdx := IndexOf(resultados, Max(resultados));
    if forall k | 0 <= k < |resultados| :: resultados[k] == 0.0 {
      mejorIdx := -1;
    }
    BestIndexSpec(resultados);
    opciones := ComposeBest(d, mejorIdx);
  }
}
