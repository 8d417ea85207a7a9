/** The initial ideas ("conceptos") 1..5 and which of them exist. Every page
    after the criteria step works only on the existing ideas, in ascending
    order. */
module Ideas {
  import opened Store
  import opened Indexing

  /** Idea `c` exists when `(data['concepto' + c] || '').trim() !== ''`. */
  predicate IsExisting(d: Record, c: int) {
    Trim(TextOr(d, Concepto(c))) != ""
  }

  /** The existing ideas among 1..n, in ascending order. */
  function ExistingUpTo(d: Record, n: nat): seq<int> {
    if n == 0 then [] else ExistingUpTo(d, n - 1) + (if IsExisting(d, n) then [n] else [])
  }

  function Existing(d: Record): seq<int> {
    ExistingUpTo(d, MaxIdeas)
  }

  predicate StrictlyIncreasing(s: seq<int>) {
    forall i, j | 0 <= i < j < |s| :: s[i] < s[j]
  }

  lemma {:induction false} ExistingUpToSpec(d: Record, n: nat)
    ensures StrictlyIncreasing(ExistingUpTo(d, n))
    ensures forall c :: c in ExistingUpTo(d, n) <==> 1 <= c <= n && IsExisting(d, c)
    ensures |ExistingUpTo(d, n)| <= n
  {
    if n > 0 {
      ExistingUpToSpec(d, n - 1);
      var prev := ExistingUpTo(d, n - 1);
      if IsExisting(d, n) {
        var s := prev + [n];
        forall i, j | 0 <= i < j < |s| ensures s[i] < s[j] {
          if j == |prev| { assert s[i] in prev; } else { assert s[i] == prev[i] && s[j] == prev[j]; }
        }
      }
    }
  }

  /** The existing ideas are strictly increasing, lie in 1..5, and are exactly
      the ideas whose text is not blank. */
  lemma ExistingSpec(d: Record)
    ensures StrictlyIncreasing(Existing(d))
    ensures forall c :: c in Existing(d) <==> IsIdea(c) && !IsBlank(TextOr(d, Concepto(c)))
    ensures |Existing(d)| <= MaxIdeas
  {
    ExistingUpToSpec(d, MaxIdeas);
    forall c ensures IsExisting(d, c) <==> !IsBlank(TextOr(d, Concepto(c))) {
      TrimEmptyIffBlank(TextOr(d, Concepto(c)));
    }
  }

  /** An idea whose text starts with a non-whitespace character exists. */
  lemma NonBlankExists(d: Record, c: int, text: string)
    requires IsIdea(c) && TextOr(d, Concepto(c)) == text && text != [] && !IsWhitespace(text[0])
    ensures c in Existing(d) && Existing(d) != []
  {
    ExistingSpec(d);
  }

  /** The existing ideas depend only on the `concepto` keys. */
  lemma {:induction false} ExistingUpToFrame(d: Record, e: Record, n: nat)
    requires forall c | 1 <= c <= n :: TextOr(d, Concepto(c)) == TextOr(e, Concepto(c))
    ensures ExistingUpTo(d, n) == ExistingUpTo(e, n)
  {
    if n > 0 { ExistingUpToFrame(d, e, n - 1); }
  }

  lemma ExistingFrame(d: Record, e: Record)
    requires forall c | IsIdea(c) :: TextOr(d, Concepto(c)) == TextOr(e, Concepto(c))
    ensures Existing(d) == Existing(e)
  {
    ExistingUpToFrame(d, e, MaxIdeas);
  }

  /** obtenerConceptosExistentes: collects the existing ideas in a loop. */
  method ExistingConcepts(d: Record) returns (cs: seq<int>)
    ensures cs == Existing(d)
    ensures StrictlyIncreasing(cs) && |cs| <= MaxIdeas
    ensures forall c :: c in cs <==> IsIdea(c) && !IsBlank(TextOr(d, Concepto(c)))
  {
    cs := [];
    var conc := 1;
    while conc <= MaxIdeas
      invariant 1 <= conc <= MaxIdeas + 1
      invariant cs == ExistingUpTo(d, conc - 1)
    {
      var concepto := TextOr(d, Concepto(conc));
      if Trim(concepto) != "" {
        cs := cs + [conc];
      }
      conc := conc + 1;
    }
    ExistingSpec(d);
  }

  /** contarConceptos: counts the existing ideas in a loop. */
  method CountConcepts(d: Record) returns (count: nat)
    ensures count == |Existing(d)|
    ensures count <= MaxIdeas
    ensures count == 0 <==> forall c | IsIdea(c) :: IsBlank(TextOr(d, Concepto(c)))
  {
    count := 0;
    var conc := 1;
    while conc <= MaxIdeas
      invariant 1 <= conc <= MaxIdeas + 1
      invariant count == |ExistingUpTo(d, conc - 1)|
    {
      var concepto := TextOr(d, Concepto(conc));
      if Trim(concepto) != "" {
        count := count + 1;
      }
      conc := conc + 1;
    }
    ExistingSpec(d);
    if count != 0 {
      assert Existing(d)[0] in Existing(d);
    }
  }
}
