/**
 * The OpenGL ring buffer of the player: one mapped buffer split into
 * `num_sections` sections of `max_elements_per_section` elements. Elements are
 * pushed into the current write section; locking it fences the section,
 * empties its end index and advances to the next section. Fences are a flag
 * per section; waiting on one returns once it signals and keeps it.
 */
module RingBuffer {
  import opened Machine

  datatype Ring<T> = Ring(
    maxPerSection: nat, starts: seq<nat>, ends: seq<nat>, fenced: seq<bool>,
    writeSection: nat, data: map<int, T>)

  predicate Inv<T>(r: Ring<T>)
  {
    && |r.starts| == |r.ends| == |r.fenced| > 0
    && r.writeSection < |r.ends|
    && (forall i :: 0 <= i < |r.starts| ==> r.starts[i] == i * r.maxPerSection)
    && (forall i :: 0 <= i < |r.ends| ==> r.ends[i] <= r.maxPerSection)
  }

  /** The constructor: section `i` starts at `i * max_elements`; every end index is 0; no fences. */
  function Create<T>(maxPerSection: nat, numSections: nat): (r: Ring<T>)
    requires numSections > 0
    ensures Inv(r) && |r.ends| == numSections && r.writeSection == 0
    ensures forall i :: 0 <= i < numSections ==> r.ends[i] == 0 && !r.fenced[i]
  {
    Ring(maxPerSection, seq(numSections, i => i * maxPerSection), seq(numSections, _ => 0),
         seq(numSections, _ => false), 0, map[])
  }

  /** `size`: the end index of the write section. */
  function Size<T>(r: Ring<T>): nat
    requires Inv(r)
  {
    r.ends[r.writeSection]
  }

  /** `push_elm`: ignored when the section is full; otherwise written at `start + end`. */
  function PushElm<T>(r: Ring<T>, elm: T): (s: Ring<T>)
    requires Inv(r)
    ensures Inv(s) && s.writeSection == r.writeSection && s.fenced == r.fenced
    ensures Size(r) + 1 > r.maxPerSection ==> s == r
    ensures Size(r) + 1 <= r.maxPerSection ==>
      && s.ends == r.ends[r.writeSection := Size(r) + 1]
      && s.data == r.data[r.starts[r.writeSection] + Size(r) := elm]
  {
    var start := r.starts[r.writeSection];
    var end := r.ends[r.writeSection];
    if end + 1 > r.maxPerSection then r
    else r.(data := r.data[start + end := elm], ends := r.ends[r.writeSection := end + 1])
  }

  /** `advance_write_section` as written: wraps only when `write_section + 1 > num_sections`. */
  function AdvanceAsWritten(writeSection: nat, numSections: nat): nat
  {
    if writeSection + 1 > numSections then 0 else writeSection + 1
  }

  /** `advance_write_section` corrected: wraps when the next section would be `num_sections`. */
  function Advance(writeSection: nat, numSections: nat): (r: nat)
    requires writeSection < numSections
    ensures r < numSections && r == (writeSection + 1) % numSections
  {
    if writeSection + 1 >= numSections then
      ModUnique(writeSection + 1, numSections, 1, 0);
      0
    else
      ModUnique(writeSection + 1, numSections, 0, writeSection + 1);
      writeSection + 1
  }

  /** `lock_and_advance`: fence the write section, empty it, and move to the next section. */
  function LockAndAdvance<T>(r: Ring<T>): (s: Ring<T>)
    requires Inv(r)
    ensures Inv(s) && s.data == r.data
    ensures s.fenced == r.fenced[r.writeSection := true] && s.ends == r.ends[r.writeSection := 0]
    ensures s.writeSection == (r.writeSection + 1) % |r.ends|
  {
    r.(fenced := r.fenced[r.writeSection := true], ends := r.ends[r.writeSection := 0],
       writeSection := Advance(r.writeSection, |r.ends|))
  }

  /**
   * `lock_and_advance` as written, with the `+ 1 > num_sections` advance: it
   * agrees with the corrected one except from the last section, where it
   * moves to section `num_sections`, past the index arrays.
   */
  function LockAndAdvanceAsWritten<T>(r: Ring<T>): (s: Ring<T>)
    requires Inv(r)
    ensures s.data == r.data && s.fenced == LockAndAdvance(r).fenced && s.ends == LockAndAdvance(r).ends
    ensures r.writeSection + 1 < |r.ends| ==> s == LockAndAdvance(r)
    ensures r.writeSection + 1 == |r.ends| ==> s.writeSection == |r.ends| && !Inv(s)
  {
    r.(fenced := r.fenced[r.writeSection := true], ends := r.ends[r.writeSection := 0],
       writeSection := AdvanceAsWritten(r.writeSection, |r.ends|))
  }

  /** Every pushed element lands inside its own section. */
  lemma PushStaysInSection<T>(r: Ring<T>, elm: T)
    requires Inv(r) && Size(r) < r.maxPerSection
    ensures var k := r.starts[r.writeSection] + Size(r);
      r.writeSection * r.maxPerSection <= k < (r.writeSection + 1) * r.maxPerSection
      && k < r.maxPerSection * |r.ends|
      && PushElm(r, elm).data[k] == elm
  {
    RegionBound(r.writeSection, Size(r), r.maxPerSection, |r.ends|);
  }

  /** `count` successive corrected advances from section 0. */
  function AdvanceTimes(count: nat, numSections: nat): (r: nat)
    requires numSections > 0
    ensures r < numSections
  {
    if count == 0 then 0 else Advance(AdvanceTimes(count - 1, numSections), numSections)
  }

  /** The corrected advance visits sections 0, 1, ... in order and is back at 0 after `num_sections` steps. */
  lemma {:induction false} AdvanceCycles(count: nat, numSections: nat)
    requires 0 < numSections && count <= numSections
    ensures AdvanceTimes(count, numSections) == count % numSections
  {
    if count > 0 {
      AdvanceCycles(count - 1, numSections);
      ModUnique(count - 1, numSections, 0, count - 1);
    }
  }

  /**
   * Counterexample: with three sections, three advances from section 0 reach
   * section 3, past the last section, so the next `size` or `push_elm` indexes
   * past the three-element index arrays.
   */
  lemma AdvanceAsWrittenLeavesRange()
    ensures AdvanceAsWritten(AdvanceAsWritten(AdvanceAsWritten(0, 3), 3), 3) == 3
  {
  }
}

/** The ring buffer as an object whose end indices, fences and write section change in place. */
module RingBufferClass {
  import opened Machine
  import opened RingBuffer

  class GlRingBuffer<T> {
    const maxPerSection: nat
    const starts: seq<nat>
    var ends: seq<nat>
    var fenced: seq<bool>
    var writeSection: nat
    var data: map<int, T>

    function Model(): Ring<T>
      reads this
    {
      Ring(maxPerSection, starts, ends, fenced, writeSection, data)
    }

    predicate Valid()
      reads this
    {
      Inv(Model())
    }

    constructor (maxElements: nat, numSections: nat)
      requires numSections > 0
      ensures Valid() && Model() == Create(maxElements, numSections)
    {
      maxPerSection := maxElements;
      var s: seq<nat> := [];
      var i := 0;
      while i < numSections
        invariant 0 <= i <= numSections && |s| == i
        invariant forall k :: 0 <= k < i ==> s[k] == k * maxElements
      {
        s := s + [i * maxElements];
        i := i + 1;
      }
      starts := s;
      ends := seq(numSections, _ => 0);
      fenced := seq(numSections, _ => false);
      writeSection := 0;
      data := map[];
    }

    method Size() returns (n: nat)
      requires Valid()
      ensures n == RingBuffer.Size(Model())
    {
      n := ends[writeSection];
    }

    method PushElm(elm: T)
      requires Valid()
      modifies this
      ensures Valid() && Model() == RingBuffer.PushElm(old(Model()), elm)
    {
      var start := starts[writeSection];
      var end := ends[writeSection];
      if end + 1 > maxPerSection {
        return;
      }
      data := data[start + end := elm];
      ends := ends[writeSection := end + 1];
    }

    method LockAndAdvance()
      requires Valid()
      modifies this
      ensures Valid() && Model() == RingBuffer.LockAndAdvance(old(Model()))
    {
      fenced := fenced[writeSection := true];
      ends := ends[writeSection := 0];
      if writeSection + 1 >= |ends| {
        writeSection := 0;
      } else {
        writeSection := writeSection + 1;
      }
    }
  }
}
