/** The possibilities page (morfologia): for every existing idea three text
    inputs, the i-th of idea c kept at `pos{(c-1)*3+i}`. */
module Possibilities {
  import opened Store
  import opened Indexing
  import opened Ideas

  /** The slots of idea c's three inputs. */
  function IdeaSlots(c: int): seq<int> {
    [FlatIndex(c, 1), FlatIndex(c, 2), FlatIndex(c, 3)]
  }

  /** The slots of the inputs rendered for ideas 1..n, in document order:
      three per existing idea, none for a blank one. */
  function SlotsUpTo(d: Record, n: nat): seq<int> {
    if n == 0 then [] else SlotsUpTo(d, n - 1) + (if IsExisting(d, n) then IdeaSlots(n) else [])
  }

  function RenderedSlots(d: Record): seq<int> {
    SlotsUpTo(d, MaxIdeas)
  }

  /** Idea c's three slots are exactly the flat indices whose idea is c. */
  lemma IdeaSlotsSpec(c: int, k: int)
    requires IsIdea(c)
    ensures k in IdeaSlots(c) <==> (c - 1) * SlotsPerIdea < k <= c * SlotsPerIdea
    ensures (c - 1) * SlotsPerIdea < k <= c * SlotsPerIdea ==> IdeaOf(k) == c
  {
    if (c - 1) * SlotsPerIdea < k <= c * SlotsPerIdea {
      assert k == FlatIndex(c, k - (c - 1) * SlotsPerIdea);
      FlatIndexRoundTrip(c, k - (c - 1) * SlotsPerIdea);
    }
  }

  lemma {:induction false} SlotsUpToSpec(d: Record, n: nat)
    requires n <= MaxIdeas
    ensures forall k :: k in SlotsUpTo(d, n) <==> 1 <= k <= n * SlotsPerIdea && IsExisting(d, IdeaOf(k))
  {
    if n > 0 {
      SlotsUpToSpec(d, n - 1);
      forall k ensures k in SlotsUpTo(d, n) <==> 1 <= k <= n * SlotsPerIdea && IsExisting(d, IdeaOf(k)) {
        IdeaSlotsSpec(n, k);
      }
    }
  }

  /** Exactly the slots of the existing ideas are rendered, all within 1..15,
      and so no slot of a blank idea. */
  lemma RenderedSlotsSpec(d: Record)
    ensures forall k :: k in RenderedSlots(d) <==> 1 <= k <= MaxIdeas * SlotsPerIdea && IsExisting(d, IdeaOf(k))
    ensures forall c, i | IsIdea(c) && IsSlot(i) :: FlatIndex(c, i) in RenderedSlots(d) <==> IsExisting(d, c)
  {
    SlotsUpToSpec(d, MaxIdeas);
    forall c, i | IsIdea(c) && IsSlot(i) ensures FlatIndex(c, i) in RenderedSlots(d) <==> IsExisting(d, c) {
      FlatIndexRange(c, i);
      FlatIndexRoundTrip(c, i);
    }
  }

  /** The rendered slots depend only on the ideas' texts. */
  lemma {:induction false} SlotsUpToFrame(d: Record, e: Record, n: nat)
    requires forall c | 1 <= c <= n :: TextOr(d, Concepto(c)) == TextOr(e, Concepto(c))
    ensures SlotsUpTo(d, n) == SlotsUpTo(e, n)
  {
    if n > 0 { SlotsUpToFrame(d, e, n - 1); }
  }

  /** generarTablas: three inputs per existing idea, each pre-filled with the
      stored possibility or ''. */
  method GenerarTablas(d: Record) returns (slots: seq<int>, inputs: map<int, string>)
    ensures slots == RenderedSlots(d)
    ensures forall k :: k in inputs <==> k in slots
    ensures forall k | k in inputs :: inputs[k] == TextOr(d, Pos(k))
  {
    slots := [];
    inputs := map[];
    for conc := 1 to MaxIdeas + 1
      invariant slots == SlotsUpTo(d, conc - 1)
      invariant forall k :: k in inputs <==> k in slots
      invariant forall k | k in inputs :: inputs[k] == TextOr(d, Pos(k))
    {
      var conceptoNombre := TextOr(d, Concepto(conc));
      if Trim(conceptoNombre) != "" {
        ghost var before := slots;
        for i := 1 to SlotsPerIdea + 1
          invariant slots == before + IdeaSlots(conc)[..i - 1]
          invariant forall k :: k in inputs <==> k in slots
          invariant forall k | k in inputs :: inputs[k] == TextOr(d, Pos(k))
        {
          var posIdx := FlatIndex(conc, i);
          var savedValue := TextOr(d, Pos(posIdx));
          inputs := inputs[posIdx := savedValue];
          assert IdeaSlots(conc)[..i] == IdeaSlots(conc)[..i - 1] + [posIdx];
          slots := slots + [posIdx];
        }
        assert IdeaSlots(conc)[..SlotsPerIdea] == IdeaSlots(conc);
      }
    }
  }

  /** The record after saveAndContinue stores the inputs of `slots`, each
      trimmed. */
  function Saved(d: Record, inputs: map<int, string>, slots: seq<int>): Record
    requires forall k | k in slots :: k in inputs
  {
    if slots == [] then d
    else
      var k := slots[|slots| - 1];
      Saved(d, inputs, slots[..|slots| - 1])[Pos(k) := Text(Trim(inputs[k]))]
  }

  /** Saving writes the trimmed input of every rendered slot and nothing
      else. */
  lemma {:induction false} SavedSpec(d: Record, inputs: map<int, string>, slots: seq<int>)
    requires forall k | k in slots :: k in inputs
    ensures forall k | k in slots :: Get(Saved(d, inputs, slots), Pos(k)) == Some(Text(Trim(inputs[k])))
    ensures forall key: Key | !(key.Pos? && key.n in slots) :: Get(Saved(d, inputs, slots), key) == Get(d, key)
  {
    if slots != [] {
      var prev := slots[..|slots| - 1];
      assert forall k | k in prev :: k in slots;
      SavedSpec(d, inputs, prev);
    }
  }

  /** The possibilities of a blank idea keep their stored values. */
  lemma SaveKeepsBlankIdeas(d: Record, inputs: map<int, string>, c: int, i: int)
    requires forall k | k in RenderedSlots(d) :: k in inputs
    requires IsIdea(c) && IsSlot(i) && !IsExisting(d, c)
    ensures Get(Saved(d, inputs, RenderedSlots(d)), Pos(FlatIndex(c, i))) == Get(d, Pos(FlatIndex(c, i)))
  {
    RenderedSlotsSpec(d);
    SavedSpec(d, inputs, RenderedSlots(d));
  }

  /** Reloading the page after a save shows every rendered input trimmed,
      so a second save stores the same texts. */
  lemma SaveThenReload(d: Record, inputs: map<int, string>, slots: seq<int>)
    requires forall k | k in slots :: k in inputs
    ensures forall k | k in slots ::
      TextOr(Saved(d, inputs, slots), Pos(k)) == Trim(inputs[k]) && Trim(Trim(inputs[k])) == Trim(inputs[k])
  {
    SavedSpec(d, inputs, slots);
    forall k | k in slots ensures Trim(Trim(inputs[k])) == Trim(inputs[k]) {
      TrimIdempotent(inputs[k]);
    }
  }

  /** Saving touches no `concepto` key, so the same inputs are rendered. */
  lemma SaveKeepsSlots(d: Record, inputs: map<int, string>, slots: seq<int>)
    requires forall k | k in slots :: k in inputs
    ensures RenderedSlots(Saved(d, inputs, slots)) == RenderedSlots(d)
  {
    SavedSpec(d, inputs, slots);
    var e := Saved(d, inputs, slots);
    forall c | 1 <= c <= MaxIdeas ensures TextOr(d, Concepto(c)) == TextOr(e, Concepto(c)) {
      assert Get(e, Concepto(c)) == Get(d, Concepto(c));
    }
    SlotsUpToFrame(d, e, MaxIdeas);
  }

  /** saveAndContinue's loop over the rendered inputs. */
  method StorePossibilities(d: Record, inputs: map<int, string>, slots: seq<int>) returns (e: Record)
    requires forall k | k in slots :: k in inputs
    ensures e == Saved(d, inputs, slots)
  {
    e := d;
    for j := 0 to |slots|
      invariant e == Saved(d, inputs, slots[..j])
    {
      var idx := slots[j];
      assert slots[..j + 1][..j] == slots[..j];
      e := e[Pos(idx) := Text(Trim(inputs[idx]))];
    }
    assert slots[..|slots|] == slots;
  }

  class PossibilitiesPage {
    /** The page's copy of the record. */
    var data: Record
    /** What local storage holds. */
    var stored: Record
    /** The slots of the rendered inputs, in document order. */
    var slots: seq<int>
    /** The text of each rendered input. */
    var inputs: map<int, string>

    ghost predicate Valid()
      reads this
    {
      && slots == RenderedSlots(data)
      && forall k :: k in inputs <==> k in slots
    }

    /** Page load: the inputs of the existing ideas show the stored texts. */
    constructor Load(saved: Record)
      ensures Valid()
      ensures data == saved && stored == saved
      ensures forall k | k in inputs :: inputs[k] == TextOr(saved, Pos(k))
    {
      var s, m := GenerarTablas(saved);
      data := saved;
      stored := saved;
      slots := s;
      inputs := m;
    }

    /** The user types `v` into the input of slot k. */
    method EditInput(k: int, v: string)
      requires Valid() && k in inputs
      modifies this`inputs
      ensures Valid()
      ensures inputs == old(inputs)[k := v]
    {
      inputs := inputs[k := v];
    }

    /** saveAndContinue: every rendered input is stored trimmed and the
        record is written to local storage. */
    method SaveAndContinue()
      requires Valid()
      modifies this`data, this`stored
      ensures Valid()
      ensures data == Saved(old(data), inputs, slots) && stored == data
    {
      ghost var d0 := data;
      data := StorePossibilities(data, inputs, slots);
      stored := data;
      SaveKeepsSlots(d0, inputs, slots);
    }
  }
}
