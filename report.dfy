/** The results page (resultados): the selection groups of the formed
    concepts, and the decisions the report takes before laying anything out:
    which evaluations, prevention tables and task rows are listed, the totals
    it recomputes, and the best formed concept it names. */
module Report {
  import opened Store
  import opened Indexing
  import opened Ideas
  import opened Scoring
  import opened BestConcept

  // ---------------------------------------------------------------------------
  // generarGruposDinamicos

  /** One selection group of a formed concept: its `pastel_grupo` slot, the
      idea it belongs to, and the selection, `None` (null) when absent or
      falsy. */
  datatype Group = Group(numero: int, nombreConcepto: string, seleccion: Option<Value>)

  function GroupFor(d: Record, c: int, col: int): Group {
    var numero := FlatIndex(c, col);
    var k := PastelGrupo(numero);
    Group(numero, TextOr(d, Concepto(c)), if Has(d, k) then Some(d[k]) else None)
  }

  /** The groups of column `col`, one per idea of `cs`, in the same order. */
  function GroupsOf(d: Record, cs: seq<int>, col: int): seq<Group> {
    if cs == [] then [] else GroupsOf(d, cs[..|cs| - 1], col) + [GroupFor(d, cs[|cs| - 1], col)]
  }

  lemma {:induction false} GroupsOfSpec(d: Record, cs: seq<int>, col: int)
    ensures |GroupsOf(d, cs, col)| == |cs|
    ensures forall j | 0 <= j < |cs| :: GroupsOf(d, cs, col)[j] == GroupFor(d, cs[j], col)
  {
    if cs != [] {
      GroupsOfSpec(d, cs[..|cs| - 1], col);
    }
  }

  /** Every column holds one group per existing idea, in ascending idea
      order, for the slot `(c-1)*3 + col`; the selection is the stored value
      when it is truthy and null otherwise. All slots lie in 1..15, and no two
      groups of any columns share one. */
  lemma GroupsSpec(d: Record, col1: int, col2: int, j1: int, j2: int)
    requires IsColumn(col1) && IsColumn(col2)
    requires 0 <= j1 < |Existing(d)| && 0 <= j2 < |Existing(d)|
    ensures var g1, g2 := GroupsOf(d, Existing(d), col1), GroupsOf(d, Existing(d), col2);
      && |g1| == |Existing(d)| == |g2|
      && g1[j1].numero == FlatIndex(Existing(d)[j1], col1)
      && 1 <= g1[j1].numero <= MaxIdeas * SlotsPerIdea
      && (g1[j1].seleccion.Some? <==> Has(d, PastelGrupo(g1[j1].numero)))
      && (g1[j1].seleccion.Some? ==> g1[j1].seleccion.value == d[PastelGrupo(g1[j1].numero)])
      && (g1[j1].numero == g2[j2].numero <==> j1 == j2 && col1 == col2)
  {
    var cs := Existing(d);
    ExistingSpec(d);
    GroupsOfSpec(d, cs, col1);
    GroupsOfSpec(d, cs, col2);
    assert cs[j1] in cs && cs[j2] in cs;
    FlatIndexRange(cs[j1], col1);
    FlatIndexInjective(cs[j1], col1, cs[j2], col2);
    if cs[j1] == cs[j2] && j1 != j2 {
      StrictlyIncreasingDistinct(cs, j1, j2);
    }
  }

  lemma StrictlyIncreasingDistinct(s: seq<int>, i: int, j: int)
    requires StrictlyIncreasing(s) && 0 <= i < |s| && 0 <= j < |s| && i != j
    ensures s[i] != s[j]
  {
    if i < j { assert s[i] < s[j]; } else { assert s[j] < s[i]; }
  }

  /** generarGruposDinamicos: one loop over the existing ideas pushing onto
      the three columns. */
  method DynamicGroups(d: Record) returns (col1: seq<Group>, col2: seq<Group>, col3: seq<Group>)
    ensures col1 == GroupsOf(d, Existing(d), 1)
    ensures col2 == GroupsOf(d, Existing(d), 2)
    ensures col3 == GroupsOf(d, Existing(d), 3)
  {
    var cs := ExistingConcepts(d);
    col1, col2, col3 := [], [], [];
    for j := 0 to |cs|
      invariant col1 == GroupsOf(d, cs[..j], 1)
      invariant col2 == GroupsOf(d, cs[..j], 2)
      invariant col3 == GroupsOf(d, cs[..j], 3)
    {
      var conc := cs[j];
      var baseGrupo := (conc - 1) * SlotsPerIdea;
      var nombreConcepto := TextOr(d, Concepto(conc));
      GroupsStep(d, cs, j, baseGrupo);
      col1 := col1 + [Group(baseGrupo + 1, nombreConcepto, Selection(d, baseGrupo + 1))];
      col2 := col2 + [Group(baseGrupo + 2, nombreConcepto, Selection(d, baseGrupo + 2))];
      col3 := col3 + [Group(baseGrupo + 3, nombreConcepto, Selection(d, baseGrupo + 3))];
    }
    assert cs[..|cs|] == cs;
  }

  /** One round of the loop: the three groups pushed for idea cs[j]. */
  lemma GroupsStep(d: Record, cs: seq<int>, j: int, baseGrupo: int)
    requires 0 <= j < |cs| && baseGrupo == (cs[j] - 1) * SlotsPerIdea
    ensures forall col | 1 <= col <= FormedConcepts ::
      GroupsOf(d, cs[..j + 1], col)
      == GroupsOf(d, cs[..j], col) + [Group(baseGrupo + col, TextOr(d, Concepto(cs[j])), Selection(d, baseGrupo + col))]
  {
    assert cs[..j + 1][..j] == cs[..j];
  }

  /** `data['pastel_grupo' + n] || null`. */
  function Selection(d: Record, n: int): (r: Option<Value>)
    ensures r.Some? <==> Has(d, PastelGrupo(n))
    ensures r.Some? ==> r.value == d[PastelGrupo(n)] && Truthy(r.value)
  {
    if Has(d, PastelGrupo(n)) then Some(d[PastelGrupo(n)]) else None
  }

  // ---------------------------------------------------------------------------
  // Which evaluations are listed

  /** tieneDatosEvaluacionOriginal / tieneDatosEvaluacionFormado: some rating
      of the owner is stored and truthy. */
  predicate HasRatings(d: Record, s: Scorable, owner: int) {
    exists i | 1 <= i <= NumCriteria :: Has(d, RatingKey(s, owner, i))
  }

  /** The search loop of both helpers, returning at the first truthy rating. */
  method HasEvaluationData(d: Record, s: Scorable, owner: int) returns (found: bool)
    ensures found == HasRatings(d, s, owner)
  {
    for i := 1 to NumCriteria + 1
      invariant forall j | 1 <= j < i :: !Has(d, RatingKey(s, owner, j))
    {
      var key := RatingKey(s, owner, i);
      if Has(d, key) {
        return true;
      }
    }
    return false;
  }

  /** A formed concept is listed exactly when one of its own `ca` slots holds
      a rating, and each slot 1..15 belongs to exactly one formed concept. */
  lemma FormedListedSpec(d: Record, col: int)
    requires IsColumn(col)
    ensures HasRatings(d, Formed, col) <==> exists k | k in ColumnSlots(col) :: Has(d, Ca(k))
    ensures forall k | 1 <= k <= FormedConcepts * NumCriteria :: IsColumn(ColumnOf(k)) && k in ColumnSlots(ColumnOf(k))
  {
    ColumnSlotsPartition();
    forall k | 1 <= k <= FormedConcepts * NumCriteria
      ensures IsColumn(ColumnOf(k)) && k in ColumnSlots(ColumnOf(k))
    {
      assert k in ColumnSlots(1) + ColumnSlots(2) + ColumnSlots(3);
      var c := if k in ColumnSlots(1) then 1 else if k in ColumnSlots(2) then 2 else 3;
      var i :| 1 <= i <= NumCriteria && k == RatingIndex(c, i);
      RatingIndexRoundTrip(c, i);
    }
    if exists k | k in ColumnSlots(col) :: Has(d, Ca(k)) {
      var k :| k in ColumnSlots(col) && Has(d, Ca(k));
      var i :| 1 <= i <= NumCriteria && k == RatingIndex(col, i);
      assert Has(d, RatingKey(Formed, col, i));
    }
  }

  // ---------------------------------------------------------------------------
  // The totals the report recomputes

  /** The rating of criterion i as stored, 0 when missing or unparsable. */
  lemma StoredRatingAt(d: Record, s: Scorable, owner: int, i: int)
    requires IsCriterion(i)
    ensures StoredRatings(d, s, owner)[i - 1] == NumOr0(d, RatingKey(s, owner, i))
    ensures Weights(d)[i - 1] == NumOr0(d, Peso(i))
  {
  }

  /** A rating that is not stored, or stored falsy, reads as 0 and adds
      nothing. */
  lemma MissingAddsNothing(d: Record, k: Key, w: real)
    requires !Has(d, k)
    ensures NumOr0(d, k) == 0.0 && Weighted(NumOr0(d, k), w) == 0.0
  {
  }

  /** The initial-idea total: the loop adds the weighted rating only of the
      criteria whose rating is stored, which is the weighted sum with every
      missing rating as 0. */
  method IdeaTotal(d: Record, conc: int) returns (total: real)
    ensures total == WeightedSum(StoredRatings(d, Idea, conc), Weights(d))
  {
    ghost var r, w := StoredRatings(d, Idea, conc), Weights(d);
    total := 0.0;
    for i := 1 to NumCriteria + 1
      invariant total == SumUpTo(r, w, i - 1)
    {
      var calif := NumOr0(d, Calif(conc, i));
      var peso := NumOr0(d, Peso(i));
      StoredRatingAt(d, Idea, conc, i);
      if Has(d, Calif(conc, i)) {
        var ponderado := Weighted(calif, peso);
        total := total + ponderado;
      } else {
        MissingAddsNothing(d, Calif(conc, i), peso);
      }
    }
    SumUpToSpec(r, w, NumCriteria);
    assert r[..NumCriteria] == r && w[..NumCriteria] == w;
  }

  /** The formed-concept total: every criterion's weighted rating, a missing
      rating or weight as 0. */
  method FormedTotal(d: Record, conc: int) returns (total: real)
    ensures total == WeightedSum(StoredRatings(d, Formed, conc), Weights(d))
  {
    ghost var r, w := StoredRatings(d, Formed, conc), Weights(d);
    total := 0.0;
    for i := 1 to NumCriteria + 1
      invariant total == SumUpTo(r, w, i - 1)
    {
      var key := Ca(RatingIndex(conc, i));
      var calif := NumOr0(d, key);
      var peso := NumOr0(d, Peso(i));
      StoredRatingAt(d, Formed, conc, i);
      total := total + Weighted(calif, peso);
    }
    SumUpToSpec(r, w, NumCriteria);
    assert r[..NumCriteria] == r && w[..NumCriteria] == w;
  }

  /** The score the report computes for an owner. */
  function Score(d: Record, s: Scorable, owner: int): real {
    WeightedSum(StoredRatings(d, s, owner), Weights(d))
  }

  /** For an owner the evaluation pages left computed, the report's total is
      the result they stored. */
  lemma ScoreMatchesStoredResult(d: Record, s: Scorable, owner: int)
    requires Consistent(d, s, owner) && Has(d, FlagKey(s, owner))
    ensures ResultKey(s, owner) in d && d[ResultKey(s, owner)] == Number(Score(d, s, owner))
  {
  }

  /** Right after an accepted `calcular`, the total the report recomputes
      from the stored ratings and weights is the result the page stored, the
      weighted sum of the ratings entered. CalculateKeepsConsistent,
      InvalidateKeepsConsistent and SaveRowsKeepsConsistent carry this
      through the later steps of both evaluation pages. */
  lemma ScoreAfterCalculate(d: Record, s: Scorable, owner: int, r: seq<real>)
    requires IsOwner(s, owner) && |r| == NumCriteria && AllInRange(r)
    ensures var e := Calculate(d, s, owner, r);
      && Has(e, FlagKey(s, owner))
      && ResultKey(s, owner) in e && e[ResultKey(s, owner)] == Number(Score(e, s, owner))
      && Score(e, s, owner) == WeightedSum(r, Weights(d))
  {
    CalculateAccepted(d, s, owner, r);
    CalculateStoresRatings(d, s, owner, r);
    CalculateKeepsWeights(d, s, owner, r);
  }

  function WeightSum5(r: seq<real>, w: seq<real>): real
    requires |r| == 5 && |w| == 5
  {
    Weighted(r[0], w[0]) + Weighted(r[1], w[1]) + Weighted(r[2], w[2]) + Weighted(r[3], w[3]) + Weighted(r[4], w[4])
  }

  lemma WeightedSumOfFive(r: seq<real>, w: seq<real>)
    requires |r| == 5 && |w| == 5
    ensures WeightedSum(r, w) == WeightSum5(r, w)
  {
    assert r[..0] == [] && w[..0] == [];
    WeightedSumStep(r, w, 0);
    WeightedSumStep(r, w, 1);
    WeightedSumStep(r, w, 2);
    WeightedSumStep(r, w, 3);
    WeightedSumStep(r, w, 4);
    assert r[..5] == r && w[..5] == w;
  }

  /** Nothing clears a result when a weight changes: idea 1 computed with
      rating 1 under weight 2 stores 2, and once `peso1` becomes 3, as the
      criteria save writes it (Criteria.SavedWrites) while keeping every
      flag, result and rating (Criteria.SavedKeeps), idea 1 is still flagged
      computed but the report's total is 3. */
  lemma WeightChangeLeavesStaleResult()
    ensures var d := map[Calif(1, 1) := Number(1.0), Peso(1) := Number(2.0),
                         Resultado(1) := Number(2.0), Calculado(1) := Flag(true)];
      var e := d[Peso(1) := Number(3.0)];
      && Consistent(d, Idea, 1)
      && Has(e, FlagKey(Idea, 1)) && e[ResultKey(Idea, 1)] == Number(2.0)
      && Score(e, Idea, 1) == 3.0
      && !Consistent(e, Idea, 1)
  {
    var d := map[Calif(1, 1) := Number(1.0), Peso(1) := Number(2.0),
                 Resultado(1) := Number(2.0), Calculado(1) := Flag(true)];
    var e := d[Peso(1) := Number(3.0)];
    assert StoredRatings(d, Idea, 1) == [1.0, 0.0, 0.0, 0.0, 0.0];
    assert StoredRatings(e, Idea, 1) == [1.0, 0.0, 0.0, 0.0, 0.0];
    assert Weights(d) == [2.0, 0.0, 0.0, 0.0, 0.0];
    assert Weights(e) == [3.0, 0.0, 0.0, 0.0, 0.0];
    WeightedSumOfFive(StoredRatings(d, Idea, 1), Weights(d));
    WeightedSumOfFive(StoredRatings(e, Idea, 1), Weights(e));
  }

  /** With every stored rating in 0..10 and the weights non-negative, a
      total lies between 0 and ten times the sum of the weights. */
  lemma ScoreBounds(d: Record, s: Scorable, owner: int)
    requires AllInRange(StoredRatings(d, s, owner))
    requires forall i | 0 <= i < NumCriteria :: Weights(d)[i] >= 0.0
    ensures 0.0 <= Score(d, s, owner) <= 10.0 * Total(Weights(d))
  {
    WeightedSumBounds(StoredRatings(d, s, owner), Weights(d));
  }

  // ---------------------------------------------------------------------------
  // The formed-concept section and the results it writes back

  /** The record after the section for formed concepts 1..n: each listed
      concept's total stored as its result. */
  function FormedWritten(d: Record, n: nat): Record
    decreases n
  {
    if n == 0 then d
    else
      var e := FormedWritten(d, n - 1);
      if HasRatings(d, Formed, n) then e[ResultKey(Formed, n) := Number(Score(d, Formed, n))] else e
  }

  /** The section writes only the results of the listed formed concepts 1..n:
      each gets its total; every other key keeps its value. */
  lemma {:induction false} FormedWrittenSpec(d: Record, n: nat)
    requires n <= FormedConcepts
    ensures forall c | 1 <= c <= n && HasRatings(d, Formed, c) ::
      Get(FormedWritten(d, n), ResultKey(Formed, c)) == Some(Number(Score(d, Formed, c)))
    ensures forall k | !(exists c | 1 <= c <= n :: k == ResultKey(Formed, c) && HasRatings(d, Formed, c)) ::
      Get(FormedWritten(d, n), k) == Get(d, k)
  {
    if n > 0 {
      FormedWrittenSpec(d, n - 1);
      forall c | 1 <= c < n ensures ResultKey(Formed, c) != ResultKey(Formed, n) {
        ResultKeysSeparate(Formed, c, Formed, n);
      }
    }
  }

  /** Two records that differ at most in their `resultado` keys hold the
      same ratings and weights, so the report computes the same totals and
      lists the same evaluations from both. */
  lemma SameScores(d: Record, e: Record, s: Scorable, owner: int)
    requires forall k: Key | !k.Resultado? :: Get(e, k) == Get(d, k)
    ensures StoredRatings(e, s, owner) == StoredRatings(d, s, owner) && Weights(e) == Weights(d)
    ensures HasRatings(e, s, owner) <==> HasRatings(d, s, owner)
  {
    forall i | 1 <= i <= NumCriteria
      ensures Get(e, RatingKey(s, owner, i)) == Get(d, RatingKey(s, owner, i)) && Get(e, Peso(i)) == Get(d, Peso(i))
    {
    }
    assert forall i | 0 <= i < NumCriteria :: StoredRatings(e, s, owner)[i] == StoredRatings(d, s, owner)[i];
    assert forall i | 0 <= i < NumCriteria :: Weights(e)[i] == Weights(d)[i];
  }

  /** The formed-concept section's loop: each listed concept's total is
      computed from the record as it stands and written as its result. */
  method FormedSection(d: Record) returns (e: Record, tieneEvalConceptos: bool)
    ensures e == FormedWritten(d, FormedConcepts)
    ensures tieneEvalConceptos <==> exists c | IsColumn(c) :: HasRatings(d, Formed, c)
  {
    e := d;
    tieneEvalConceptos := false;
    for conc := 1 to FormedConcepts + 1
      invariant e == FormedWritten(d, conc - 1)
      invariant forall k: Key | !k.Resultado? :: Get(e, k) == Get(d, k)
      invariant tieneEvalConceptos <==> exists c | 1 <= c < conc :: HasRatings(d, Formed, c)
    {
      SameScores(d, e, Formed, conc);
      var listed := HasEvaluationData(e, Formed, conc);
      if listed {
        tieneEvalConceptos := true;
        var total := FormedTotal(e, conc);
        e := e[ResultKey(Formed, conc) := Number(total)];
      }
    }
  }

  // ---------------------------------------------------------------------------
  // The best formed concept named by the report

  /** The scan over resultado of formed concepts 1..n with strict `>`,
      starting from index -1 and score -1: the pair (mejorIndice,
      mejorPuntuacion). */
  function Scan(rs: seq<real>, n: nat): (int, real)
    requires n <= |rs|
  {
    if n == 0 then (-1, -1.0)
    else
      var (bi, bp) := Scan(rs, n - 1);
      if rs[n - 1] > bp then (n, rs[n - 1]) else (bi, bp)
  }

  /** The scan ends on the first position of the maximum when some result
      exceeds -1, and on (-1, -1) otherwise. */
  lemma {:induction false} ScanSpec(rs: seq<real>, n: nat)
    requires n <= |rs|
    ensures var (bi, bp) := Scan(rs, n);
      if exists k | 0 <= k < n :: rs[k] > -1.0 then
        && 1 <= bi <= n && bp == rs[bi - 1]
        && (forall k | 0 <= k < n :: rs[k] <= bp)
        && (forall k | 0 <= k < bi - 1 :: rs[k] < bp)
      else bi == -1 && bp == -1.0
  {
    if n > 0 {
      ScanSpec(rs, n - 1);
    }
  }

  /** The scan loop over the three stored formed results. */
  method ScanBest(rs: seq<real>) returns (mejorIndice: int, mejorPuntuacion: real)
    requires |rs| == FormedConcepts
    ensures (mejorIndice, mejorPuntuacion) == Scan(rs, FormedConcepts)
  {
    mejorIndice := -1;
    mejorPuntuacion := -1.0;
    for i := 0 to FormedConcepts
      invariant (mejorIndice, mejorPuntuacion) == Scan(rs, i)
    {
      var puntuacion := rs[i];
      if puntuacion > mejorPuntuacion {
        mejorPuntuacion := puntuacion;
        mejorIndice := i + 1;
      }
    }
  }

  /** `mejorIndice > 0 && mejorPuntuacion > 0`: the report names a best
      concept. */
  predicate Reported(rs: seq<real>)
    requires |rs| == FormedConcepts
  {
    var (bi, bp) := Scan(rs, FormedConcepts);
    bi > 0 && bp > 0.0
  }

  /** The report names a best concept exactly when some result is positive,
      and then it is the first formed concept reaching the maximum, the one
      the prevention and task pages pick. When all results are 0 neither
      names one. */
  lemma ReportedSpec(rs: seq<real>)
    requires |rs| == FormedConcepts
    ensures Reported(rs) <==> exists k | 0 <= k < |rs| :: rs[k] > 0.0
    ensures Reported(rs) ==> Scan(rs, FormedConcepts).0 == BestIndex(rs) + 1
    ensures (forall k | 0 <= k < |rs| :: rs[k] == 0.0) ==> !Reported(rs) && BestIndex(rs) == -1
  {
    ScanSpec(rs, FormedConcepts);
    BestIndexSpec(rs);
    var (bi, bp) := Scan(rs, FormedConcepts);
    if Reported(rs) {
      assert rs[bi - 1] > 0.0;
    }
  }

  /** Unlike the other pages, the report names no best concept when the
      results are -1, 0, 0, while those pages pick formed concept 2. */
  lemma ReportDiffersOnNonPositive()
    ensures !Reported([-1.0, 0.0, 0.0]) && BestIndex([-1.0, 0.0, 0.0]) == 1
  {
    ReportedSpec([-1.0, 0.0, 0.0]);
    BestIndexNegativeExample();
  }

  /** The formed section followed by the scan over the results it leaves:
      the index and score the "best concept" section reports. */
  method BestSection(d: Record) returns (e: Record, mejorIndice: int, mejorPuntuacion: real)
    ensures e == FormedWritten(d, FormedConcepts)
    ensures (mejorIndice, mejorPuntuacion) == Scan(Results(e), FormedConcepts)
  {
    var listed;
    e, listed := FormedSection(d);
    var resultados := [NumOr0(e, ResultKey(Formed, 1)), NumOr0(e, ResultKey(Formed, 2)), NumOr0(e, ResultKey(Formed, 3))];
    mejorIndice, mejorPuntuacion := ScanBest(resultados);
  }

  // ---------------------------------------------------------------------------
  // Prevention tables and task rows

  /** The ten values of prevention table t the report looks at. */
  function PreventionKeys(t: int): seq<Key> {
    [FallaPotencial(t), Efecto(t), Sev(t), Ocu(t), Riesgo(t),
     AccionReal(t), Responsable(t), FechaCell(t), AccionTom(t), Fecha(t)]
  }

  /** A prevention table is listed when one of its ten values is truthy. */
  predicate PreventionListed(d: Record, t: int) {
    exists k | k in PreventionKeys(t) :: Has(d, k)
  }

  /** The loop over the three tables: the listed ones, and whether any is. */
  method ListedPrevention(d: Record) returns (tables: seq<int>, tienePrevencion: bool)
    ensures forall t :: t in tables <==> 1 <= t <= 3 && PreventionListed(d, t)
    ensures tienePrevencion <==> tables != []
  {
    tables := [];
    tienePrevencion := false;
    for i := 1 to 4
      invariant forall t :: t in tables <==> 1 <= t < i && PreventionListed(d, t)
      invariant tienePrevencion <==> tables != []
    {
      var ks := PreventionKeys(i);
      if Has(d, ks[0]) || Has(d, ks[1]) || Has(d, ks[2]) || Has(d, ks[3]) || Has(d, ks[4])
        || Has(d, ks[5]) || Has(d, ks[6]) || Has(d, ks[7]) || Has(d, ks[8]) || Has(d, ks[9])
      {
        tienePrevencion := true;
        tables := tables + [i];
      } else {
        assert !PreventionListed(d, i);
      }
    }
  }

  /** A task row is listed when its person, task or output is truthy. */
  predicate TaskListed(d: Record, i: int) {
    Has(d, Persona(i)) || Has(d, Tarea(i)) || Has(d, Salida(i))
  }

  /** The loop over task rows lo..hi: the listed ones. */
  method ListedTaskRows(d: Record, lo: int, hi: int) returns (rows: seq<int>)
    requires lo <= hi + 1
    ensures forall i :: i in rows <==> lo <= i <= hi && TaskListed(d, i)
  {
    rows := [];
    for i := lo to hi + 1
      invariant forall j :: j in rows <==> lo <= j < i && TaskListed(d, j)
    {
      if Has(d, Persona(i)) || Has(d, Tarea(i)) || Has(d, Salida(i)) {
        rows := rows + [i];
      }
    }
  }

  /** The task section: rows 1..15 and then 16..30; it reports "no tasks"
      unless a row is listed. */
  method ListedTasks(d: Record) returns (first: seq<int>, second: seq<int>, tieneTareas: bool)
    ensures forall i :: i in first <==> 1 <= i <= 15 && TaskListed(d, i)
    ensures forall i :: i in second <==> 16 <= i <= 30 && TaskListed(d, i)
    ensures tieneTareas <==> exists i | 1 <= i <= 30 :: TaskListed(d, i)
  {
    first := ListedTaskRows(d, 1, 15);
    second := ListedTaskRows(d, 16, 30);
    tieneTareas := first != [] || second != [];
    if tieneTareas {
      var i := if first != [] then first[0] else second[0];
      assert i in first || i in second;
    }
  }
}
