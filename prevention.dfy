/** The prevention page (prevenir): three prevention tables, each with text
    and date fields, a severity and an occurrence input and a computed risk,
    below the best-concept header. */
module Prevention {
  import opened Store

  const Tables := 3

  predicate IsTable(t: int) {
    1 <= t <= Tables
  }

  /** The text and date inputs of table `t`, in page order. */
  function FieldKeys(t: int): (ks: seq<Key>)
    ensures |ks| == 7
  {
    [FallaPotencial(t), Efecto(t), AccionReal(t), Responsable(t), FechaCell(t), AccionTom(t), Fecha(t)]
  }

  /** Every text and date input of the page, in page order. */
  function AllFieldKeys(): (ks: seq<Key>)
    ensures |ks| == 7 * Tables
  {
    FieldKeys(1) + FieldKeys(2) + FieldKeys(3)
  }

  predicate IsFieldKey(k: Key) {
    (k.FallaPotencial? || k.Efecto? || k.AccionReal? || k.Responsable?
     || k.FechaCell? || k.AccionTom? || k.Fecha?) && IsTable(k.n)
  }

  /** The page's field list holds exactly the field keys, each once. */
  lemma AllFieldKeysSpec()
    ensures forall k :: k in AllFieldKeys() <==> IsFieldKey(k)
    ensures forall i, j | 0 <= i < j < |AllFieldKeys()| :: AllFieldKeys()[i] != AllFieldKeys()[j]
  {
    var ks := AllFieldKeys();
    forall k | IsFieldKey(k) ensures k in ks {
      var t := k.n;
      assert k in FieldKeys(t);
      assert t == 1 || t == 2 || t == 3;
    }
  }

  /** The value a field shows on load: the stored text, with today's date
      for an empty "today" cell. */
  function LoadedField(d: Record, k: Key, today: string): string {
    if k.FechaCell? && TextOr(d, k) == "" then today else TextOr(d, k)
  }

  function LoadedFields(d: Record, today: string): (f: map<Key, string>)
    ensures f.Keys == set k | k in AllFieldKeys()
  {
    map k | k in AllFieldKeys() :: LoadedField(d, k, today)
  }

  /** A number input shown on load: the stored number, or blank. */
  function LoadedScores(d: Record, severity: bool): (m: map<int, Option<real>>)
    ensures m.Keys == {1, 2, 3}
  {
    map t | 1 <= t <= Tables :: ParsedOf(d, ScoreKey(severity, t))
  }

  function ScoreKey(severity: bool, t: int): Key {
    if severity then Sev(t) else Ocu(t)
  }

  // ---------------------------------------------------------------------------
  // calcularRiesgo

  /** `severidad * ocurrencia`. */
  function Product(sev: real, ocu: real): real {
    sev * ocu
  }

  /** The risk of a table: severity times occurrence when both are filled in
      and in 1..10; otherwise no risk (and an alert). */
  function Risk(sev: Option<real>, ocu: Option<real>): Option<real> {
    if sev.Some? && ocu.Some? && 1.0 <= sev.value <= 10.0 && 1.0 <= ocu.value <= 10.0 then Some(Product(sev.value, ocu.value))
    else None
  }

  /** A risk is computed exactly for two values in 1..10, and then lies in
      1..100 and is at least each factor. */
  lemma RiskSpec(sev: Option<real>, ocu: Option<real>)
    ensures Risk(sev, ocu).Some? <==> sev.Some? && ocu.Some? && 1.0 <= sev.value <= 10.0 && 1.0 <= ocu.value <= 10.0
    ensures Risk(sev, ocu).Some? ==>
      1.0 <= Risk(sev, ocu).value <= 100.0
      && sev.value <= Risk(sev, ocu).value && ocu.value <= Risk(sev, ocu).value
  {
    if Risk(sev, ocu).Some? {
      var s, o := sev.value, ocu.value;
      ProductNonneg(s - 1.0, o);
      ProductNonneg(10.0 - s, o);
      ProductNonneg(o - 1.0, s);
    }
  }

  /** The check and product of calcularRiesgo: blank (NaN) or out-of-scale
      scores are refused. */
  method ComputeRisk(sev: Option<real>, ocu: Option<real>) returns (riesgo: Option<real>)
    ensures riesgo == Risk(sev, ocu)
  {
    if sev.None? || ocu.None? || sev.value < 1.0 || sev.value > 10.0 || ocu.value < 1.0 || ocu.value > 10.0 {
      return None;
    }
    riesgo := Some(Product(sev.value, ocu.value));
  }

  /** The record after calcularRiesgo(t): the risk written when accepted,
      nothing otherwise. */
  function WithRisk(d: Record, t: int, sev: Option<real>, ocu: Option<real>): Record {
    if Risk(sev, ocu).Some? then d[Riesgo(t) := Number(Risk(sev, ocu).value)] else d
  }

  /** The score input of table t, blank when the page has none. */
  function ScoreOf(m: map<int, Option<real>>, t: int): Option<real> {
    if t in m then m[t] else None
  }

  /** recalcularRiesgosSiExisten over tables 1..n: a table whose two inputs
      are both filled in is computed. */
  function Recalculated(d: Record, sev: map<int, Option<real>>, ocu: map<int, Option<real>>, n: int): Record
    decreases n
  {
    if n < 1 then d
    else
      var prev := Recalculated(d, sev, ocu, n - 1);
      if ScoreOf(sev, n).Some? && ScoreOf(ocu, n).Some? then WithRisk(prev, n, ScoreOf(sev, n), ScoreOf(ocu, n))
      else prev
  }

  /** After recalculation each table's risk is its computed risk when both
      inputs are valid and the stored one otherwise; no other key changes. */
  lemma {:induction false} RecalculatedSpec(d: Record, sev: map<int, Option<real>>, ocu: map<int, Option<real>>, n: int)
    ensures forall t | 1 <= t <= n ::
      Get(Recalculated(d, sev, ocu, n), Riesgo(t)) ==
        match Risk(ScoreOf(sev, t), ScoreOf(ocu, t))
        case Some(r) => Some(Number(r))
        case None => Get(d, Riesgo(t))
    ensures forall k: Key | !(k.Riesgo? && 1 <= k.n <= n) :: Get(Recalculated(d, sev, ocu, n), k) == Get(d, k)
  {
    if n >= 1 {
      RecalculatedSpec(d, sev, ocu, n - 1);
    }
  }

  // ---------------------------------------------------------------------------
  // saveAndContinue

  /** Every text and date input in `ks` stored as typed. */
  function WriteFields(d: Record, fields: map<Key, string>, ks: seq<Key>): Record
    requires forall k | k in ks :: k in fields
  {
    if ks == [] then d
    else
      var k := ks[|ks| - 1];
      WriteFields(d, fields, ks[..|ks| - 1])[k := Text(fields[k])]
  }

  lemma {:induction false} WriteFieldsSpec(d: Record, fields: map<Key, string>, ks: seq<Key>)
    requires forall k | k in ks :: k in fields
    ensures forall k | k in ks :: Get(WriteFields(d, fields, ks), k) == Some(Text(fields[k]))
    ensures forall k | k !in ks :: Get(WriteFields(d, fields, ks), k) == Get(d, k)
  {
    if ks != [] {
      var prev := ks[..|ks| - 1];
      WriteFieldsSpec(d, fields, prev);
      assert forall k | k in ks :: k in prev || k == ks[|ks| - 1];
    }
  }

  /** The severity (or occurrence) inputs of tables 1..n stored, blank as "". */
  function WriteScores(d: Record, severity: bool, m: map<int, Option<real>>, n: int): Record
    decreases n
  {
    if n < 1 then d
    else WriteScores(d, severity, m, n - 1)[ScoreKey(severity, n) := OfInput(ScoreOf(m, n))]
  }

  lemma {:induction false} WriteScoresSpec(d: Record, severity: bool, m: map<int, Option<real>>, n: int)
    ensures forall t | 1 <= t <= n :: Get(WriteScores(d, severity, m, n), ScoreKey(severity, t)) == Some(OfInput(ScoreOf(m, t)))
    ensures forall k: Key | !((if severity then k.Sev? else k.Ocu?) && 1 <= k.n <= n) :: Get(WriteScores(d, severity, m, n), k) == Get(d, k)
  {
    if n >= 1 {
      WriteScoresSpec(d, severity, m, n - 1);
    }
  }

  /** The record saveAndContinue writes. */
  function Saved(d: Record, fields: map<Key, string>, sev: map<int, Option<real>>, ocu: map<int, Option<real>>): Record
    requires forall k | k in AllFieldKeys() :: k in fields
  {
    WriteScores(WriteScores(WriteFields(d, fields, AllFieldKeys()), true, sev, Tables), false, ocu, Tables)
  }

  /** Saving stores every field as typed and every score input (blank as
      ""), and nothing else: in particular no risk is recomputed. */
  lemma SavedSpec(d: Record, fields: map<Key, string>, sev: map<int, Option<real>>, ocu: map<int, Option<real>>)
    requires forall k | k in AllFieldKeys() :: k in fields
    ensures forall k | IsFieldKey(k) :: k in fields && Get(Saved(d, fields, sev, ocu), k) == Some(Text(fields[k]))
    ensures forall t | IsTable(t) :: Get(Saved(d, fields, sev, ocu), Sev(t)) == Some(OfInput(ScoreOf(sev, t)))
    ensures forall t | IsTable(t) :: Get(Saved(d, fields, sev, ocu), Ocu(t)) == Some(OfInput(ScoreOf(ocu, t)))
    ensures forall k: Key | !IsFieldKey(k) && !((k.Sev? || k.Ocu?) && IsTable(k.n)) ::
      Get(Saved(d, fields, sev, ocu), k) == Get(d, k)
  {
    SavedFields(d, fields, sev, ocu);
    SavedScores(d, fields, sev, ocu);
    SavedOthers(d, fields, sev, ocu);
  }

  lemma SavedFields(d: Record, fields: map<Key, string>, sev: map<int, Option<real>>, ocu: map<int, Option<real>>)
    requires forall k | k in AllFieldKeys() :: k in fields
    ensures forall k | IsFieldKey(k) :: k in fields && Get(Saved(d, fields, sev, ocu), k) == Some(Text(fields[k]))
  {
    var d1 := WriteFields(d, fields, AllFieldKeys());
    var d2 := WriteScores(d1, true, sev, Tables);
    AllFieldKeysSpec();
    WriteFieldsSpec(d, fields, AllFieldKeys());
    WriteScoresSpec(d1, true, sev, Tables);
    WriteScoresSpec(d2, false, ocu, Tables);
  }

  lemma SavedScores(d: Record, fields: map<Key, string>, sev: map<int, Option<real>>, ocu: map<int, Option<real>>)
    requires forall k | k in AllFieldKeys() :: k in fields
    ensures forall t | IsTable(t) :: Get(Saved(d, fields, sev, ocu), Sev(t)) == Some(OfInput(ScoreOf(sev, t)))
    ensures forall t | IsTable(t) :: Get(Saved(d, fields, sev, ocu), Ocu(t)) == Some(OfInput(ScoreOf(ocu, t)))
  {
    var d1 := WriteFields(d, fields, AllFieldKeys());
    var d2 := WriteScores(d1, true, sev, Tables);
    WriteScoresSpec(d1, true, sev, Tables);
    WriteScoresSpec(d2, false, ocu, Tables);
    forall t | IsTable(t) ensures Get(Saved(d, fields, sev, ocu), Sev(t)) == Some(OfInput(ScoreOf(sev, t))) {
      assert ScoreKey(true, t) == Sev(t);
    }
    forall t | IsTable(t) ensures Get(Saved(d, fields, sev, ocu), Ocu(t)) == Some(OfInput(ScoreOf(ocu, t))) {
      assert ScoreKey(false, t) == Ocu(t);
    }
  }

  lemma SavedOthers(d: Record, fields: map<Key, string>, sev: map<int, Option<real>>, ocu: map<int, Option<real>>)
    requires forall k | k in AllFieldKeys() :: k in fields
    ensures forall k: Key | !IsFieldKey(k) && !((k.Sev? || k.Ocu?) && IsTable(k.n)) ::
      Get(Saved(d, fields, sev, ocu), k) == Get(d, k)
  {
    var d1 := WriteFields(d, fields, AllFieldKeys());
    var d2 := WriteScores(d1, true, sev, Tables);
    AllFieldKeysSpec();
    WriteFieldsSpec(d, fields, AllFieldKeys());
    WriteScoresSpec(d1, true, sev, Tables);
    WriteScoresSpec(d2, false, ocu, Tables);
  }

  /** Reloading the saved record shows every field and score input as it was
      saved, except that an emptied "today" cell shows today's date again. */
  lemma SaveLoadRoundTrip(d: Record, fields: map<Key, string>, sev: map<int, Option<real>>, ocu: map<int, Option<real>>, today: string)
    requires forall k | k in AllFieldKeys() :: k in fields
    ensures var s := Saved(d, fields, sev, ocu);
      (forall k | IsFieldKey(k) :: k in fields && LoadedField(s, k, today) == (if k.FechaCell? && fields[k] == "" then today else fields[k]))
      && (forall t | IsTable(t) :: ParsedOf(s, Sev(t)) == ScoreOf(sev, t) && ParsedOf(s, Ocu(t)) == ScoreOf(ocu, t))
  {
    var s := Saved(d, fields, sev, ocu);
    SavedSpec(d, fields, sev, ocu);
    forall k | IsFieldKey(k) ensures TextOr(s, k) == fields[k] {
      assert s[k] == Text(fields[k]);
    }
    forall t | IsTable(t) ensures ParsedOf(s, Sev(t)) == ScoreOf(sev, t) && ParsedOf(s, Ocu(t)) == ScoreOf(ocu, t) {
      assert s[Sev(t)] == OfInput(ScoreOf(sev, t));
      assert s[Ocu(t)] == OfInput(ScoreOf(ocu, t));
    }
  }

  class PreventionPage {
    /** The page's copy of the record. */
    var data: Record
    /** What local storage holds. */
    var stored: Record
    /** The text and date inputs. */
    var fields: map<Key, string>
    /** The severity and occurrence inputs, by table. */
    var sev: map<int, Option<real>>
    var ocu: map<int, Option<real>>

    /** The inputs are those of the three rendered tables. */
    ghost predicate Valid()
      reads this
    {
      (forall k | k in AllFieldKeys() :: k in fields)
      && sev.Keys == {1, 2, 3} && ocu.Keys == {1, 2, 3}
    }

    /** Page load: the tables show the stored values (today's date in an
        empty "today" cell), then every table with both scores filled in is
        recomputed. */
    constructor Load(saved: Record, today: string)
      ensures Valid()
      ensures stored == saved
      ensures fields == LoadedFields(saved, today)
      ensures sev == LoadedScores(saved, true) && ocu == LoadedScores(saved, false)
      ensures data == Recalculated(saved, sev, ocu, Tables)
    {
      data := saved;
      stored := saved;
      fields := LoadedFields(saved, today);
      sev := LoadedScores(saved, true);
      ocu := LoadedScores(saved, false);
      new;
      RecalcularRiesgosSiExisten();
    }

    /** calcularRiesgo(t): the risk is written when both scores are in 1..10;
        otherwise an alert is shown and nothing changes. */
    method CalcularRiesgo(t: int) returns (alerted: bool)
      modifies this`data
      ensures data == WithRisk(old(data), t, ScoreOf(sev, t), ScoreOf(ocu, t))
      ensures alerted <==> t in sev && t in ocu && Risk(ScoreOf(sev, t), ScoreOf(ocu, t)).None?
    {
      alerted := false;
      if !(t in sev && t in ocu) {
        return;
      }
      var riesgo := ComputeRisk(sev[t], ocu[t]);
      if riesgo.None? {
        alerted := true;
        return;
      }
      data := data[Riesgo(t) := Number(riesgo.value)];
    }

    /** recalcularRiesgosSiExisten: every table whose two scores are filled
        in is computed. */
    method RecalcularRiesgosSiExisten()
      modifies this`data
      ensures data == Recalculated(old(data), sev, ocu, Tables)
    {
      var tabla := 1;
      while tabla <= Tables
        invariant 1 <= tabla <= Tables + 1
        invariant data == Recalculated(old(data), sev, ocu, tabla - 1)
      {
        if ScoreOf(sev, tabla).Some? && ScoreOf(ocu, tabla).Some? {
          var _ := CalcularRiesgo(tabla);
        }
        tabla := tabla + 1;
      }
    }

    /** The user types `v` into field `k`. */
    method EditField(k: Key, v: string)
      requires Valid() && k in fields
      modifies this`fields
      ensures Valid()
      ensures fields == old(fields)[k := v]
    {
      fields := fields[k := v];
    }

    /** The user types into the severity or occurrence input of table `t`. */
    method EditScore(severity: bool, t: int, v: Option<real>)
      requires Valid() && IsTable(t)
      modifies this`sev, this`ocu
      ensures Valid()
      ensures severity ==> sev == old(sev)[t := v] && ocu == old(ocu)
      ensures !severity ==> ocu == old(ocu)[t := v] && sev == old(sev)
    {
      if severity {
        sev := sev[t := v];
      } else {
        ocu := ocu[t := v];
      }
    }

    /** saveAndContinue: every field as typed and every score input is stored,
        and the record is written to local storage. */
    method SaveAndContinue()
      requires Valid()
      modifies this`data, this`stored
      ensures data == Saved(old(data), fields, sev, ocu)
      ensures stored == data
    {
      var ks := AllFieldKeys();
      var i := 0;
      while i < |ks|
        invariant 0 <= i <= |ks|
        invariant data == WriteFields(old(data), fields, ks[..i])
      {
        assert ks[..i + 1][..i] == ks[..i];
        data := data[ks[i] := Text(fields[ks[i]])];
        i := i + 1;
      }
      assert ks[..i] == ks;
      ghost var d1 := data;
      var tabla := 1;
      while tabla <= Tables
        invariant 1 <= tabla <= Tables + 1
        invariant data == WriteScores(d1, true, sev, tabla - 1)
      {
        data := data[Sev(tabla) := OfInput(ScoreOf(sev, tabla))];
        tabla := tabla + 1;
      }
      ghost var d2 := data;
      tabla := 1;
      while tabla <= Tables
        invariant 1 <= tabla <= Tables + 1
        invariant data == WriteScores(d2, false, ocu, tabla - 1)
      {
        data := data[Ocu(tabla) := OfInput(ScoreOf(ocu, tabla))];
        tabla := tabla + 1;
      }
      stored := data;
    }
  }
}
