/** The shared project record that every page of the wizard loads, edits and
    writes back (the `projectData` JSON object kept in local storage).

    The record is modelled as a finite map from structured keys to values. Each
    key constructor stands for one family of flat JSON keys (`pos7` is
    `Pos(7)`, `calif2_4` is `Calif(2, 4)`), so the flat index arithmetic of the
    pages is kept exactly, while the string formatting of key names is not. */
module Store {

  datatype Option<+T> = None | Some(value: T)

  datatype Key =
    | ProjectName | ProjectDescription | NumCriterios
    | Criterio(n: int) | Peso(n: int) | Concepto(n: int)
    | Pos(n: int) | PastelGrupo(n: int)
    | Calif(conc: int, crit: int) | Ca(n: int)
    | Resultado(n: int) | Calculado(n: int) | CalculadoFormado(n: int)
    | FallaPotencial(n: int) | Efecto(n: int) | Sev(n: int) | Ocu(n: int) | Riesgo(n: int)
    | AccionReal(n: int) | Responsable(n: int) | FechaCell(n: int) | AccionTom(n: int) | Fecha(n: int)
    | Persona(n: int) | Tarea(n: int) | Salida(n: int)

  /** A stored JSON value. `Number(x)` stands for a non-empty string that
      parses to `x` (a rating, a weight, a result written by `toFixed`), or for
      the number `numCriterios`; `Text` is any other string. */
  datatype Value = Text(s: string) | Number(x: real) | Flag(b: bool) | Null

  type Record = map<Key, Value>

  /** JavaScript truthiness of a stored value: the empty string, `false` and
      `null` are falsy; a numeric string (even "0") is truthy. */
  predicate Truthy(v: Value) {
    match v
    case Text(s) => s != ""
    case Number(_) => true
    case Flag(b) => b
    case Null => false
  }

  /** `data[k]` used as a condition: present and truthy. */
  predicate Has(d: Record, k: Key) {
    k in d && Truthy(d[k])
  }

  /** `data[k]` as an optional value: `None` is `undefined`. */
  function Get(d: Record, k: Key): (r: Option<Value>)
    ensures r.Some? <==> k in d
    ensures r.Some? ==> r.value == d[k]
  {
    if k in d then Some(d[k]) else None
  }

  /** `data[k] || ''` for a key that holds text. */
  function TextOr(d: Record, k: Key): (s: string)
    ensures s != "" ==> k in d && d[k] == Text(s)
    ensures k in d && d[k].Text? ==> s == d[k].s
  {
    if k in d && d[k].Text? then d[k].s else ""
  }

  /** `parseFloat(data[k]) || 0`: a missing, blank or unparsable value counts as 0. */
  function NumOr0(d: Record, k: Key): (x: real)
    ensures k in d && d[k].Number? ==> x == d[k].x
    ensures !(k in d && d[k].Number?) ==> x == 0.0
  {
    if k in d && d[k].Number? then d[k].x else 0.0
  }

  /** The value a number input is parsed to when the record is read back:
      `parseFloat(data[k])`, with `None` for NaN. */
  function ParsedOf(d: Record, k: Key): (r: Option<real>)
    ensures r.Some? <==> k in d && d[k].Number?
  {
    if k in d && d[k].Number? then Some(d[k].x) else None
  }

  /** The stored form of a number input's value: its number, or "" when blank. */
  function OfInput(v: Option<real>): (r: Value)
    ensures Truthy(r) <==> v.Some?
    ensures v.Some? ==> r == Number(v.value)
  {
    match v
    case None => Text("")
    case Some(x) => Number(x)
  }

  // ---------------------------------------------------------------------------
  // String.prototype.trim

  /** The characters `trim` removes: ECMAScript WhiteSpace and LineTerminator. */
  predicate IsWhitespace(c: char) {
    c == ' ' || c == '\t' || c == '\n' || c == '\r' || c == '\U{000B}' || c == '\U{000C}'
    || c == '\U{00A0}' || c == '\U{1680}' || ('\U{2000}' <= c <= '\U{200A}')
    || c == '\U{2028}' || c == '\U{2029}' || c == '\U{202F}' || c == '\U{205F}'
    || c == '\U{3000}' || c == '\U{FEFF}'
  }

  predicate IsBlank(s: string) {
    forall i | 0 <= i < |s| :: IsWhitespace(s[i])
  }

  function TrimStart(s: string): (r: string)
    ensures |r| <= |s|
  {
    if s != [] && IsWhitespace(s[0]) then TrimStart(s[1..]) else s
  }

  function TrimEnd(s: string): (r: string)
    ensures |r| <= |s|
  {
    if s != [] && IsWhitespace(s[|s| - 1]) then TrimEnd(s[..|s| - 1]) else s
  }

  function Trim(s: string): string {
    TrimEnd(TrimStart(s))
  }

  lemma {:induction false} TrimStartEmpty(s: string)
    ensures TrimStart(s) == "" <==> IsBlank(s)
  {
    if s != [] && IsWhitespace(s[0]) {
      TrimStartEmpty(s[1..]);
      assert IsBlank(s) <==> IsBlank(s[1..]) by {
        if IsBlank(s[1..]) {
          forall i | 0 <= i < |s| ensures IsWhitespace(s[i]) {
            if i > 0 { assert s[i] == s[1..][i - 1]; }
          }
        }
      }
    }
  }

  lemma {:induction false} TrimEndEmpty(s: string)
    ensures TrimEnd(s) == "" <==> IsBlank(s)
  {
    if s != [] && IsWhitespace(s[|s| - 1]) {
      TrimEndEmpty(s[..|s| - 1]);
      assert IsBlank(s) <==> IsBlank(s[..|s| - 1]) by {
        if IsBlank(s[..|s| - 1]) {
          forall i | 0 <= i < |s| ensures IsWhitespace(s[i]) {
            if i < |s| - 1 { assert s[i] == s[..|s| - 1][i]; }
          }
        }
      }
    }
  }

  /** A string trims to the empty string exactly when it is all whitespace. */
  lemma TrimEmptyIffBlank(s: string)
    ensures Trim(s) == "" <==> IsBlank(s)
  {
    TrimStartEmpty(s);
    TrimEndEmpty(TrimStart(s));
    TrimStartNoLead(s);
  }

  lemma {:induction false} TrimStartNoLead(s: string)
    ensures TrimStart(s) != [] ==> !IsWhitespace(TrimStart(s)[0])
    ensures TrimStart(s) == s[|s| - |TrimStart(s)|..]
  {
    if s != [] && IsWhitespace(s[0]) { TrimStartNoLead(s[1..]); }
  }

  lemma {:induction false} TrimEndNoTrail(s: string)
    ensures TrimEnd(s) != [] ==> !IsWhitespace(TrimEnd(s)[|TrimEnd(s)| - 1])
    ensures TrimEnd(s) == s[..|TrimEnd(s)|]
  {
    if s != [] && IsWhitespace(s[|s| - 1]) { TrimEndNoTrail(s[..|s| - 1]); }
  }

  lemma {:induction false} TrimEndKeepsLead(s: string)
    requires s != [] && !IsWhitespace(s[0])
    ensures TrimEnd(s) != [] && TrimEnd(s)[0] == s[0]
  {
    if IsWhitespace(s[|s| - 1]) {
      assert |s| > 1;
      TrimEndKeepsLead(s[..|s| - 1]);
    }
  }

  /** Trimming twice is trimming once: a saved, trimmed field is stable. */
  lemma TrimIdempotent(s: string)
    ensures Trim(Trim(s)) == Trim(s)
  {
    var a := TrimStart(s);
    var t := TrimEnd(a);
    TrimStartNoLead(s);
    TrimEndNoTrail(a);
    if t != [] {
      TrimEndKeepsLead(a);
      assert TrimStart(t) == t;
      assert TrimEnd(t) == t;
    }
  }

  /** A product of two non-negative reals is non-negative. */
  lemma ProductNonneg(x: real, y: real)
    requires x >= 0.0 && y >= 0.0
    ensures x * y >= 0.0
  {
  }
}
