/**
 * The animated sprite's frame bookkeeping (`animated_sprite`): which
 * animation of its SAD contents is current, the linear frame index within
 * the sprite sheet, looping or clamping at the end, and the two flip flags.
 * Geometry and drawing are floating-point GL work and are not modelled.
 */
module AnimatedSprite {
  import opened Machine
  import opened Wrappers

  /** The parsed SAD contents: per animation, sheet offset, frame size, rows and columns. */
  datatype SadContents = SadContents(
    x: seq<u32>, y: seq<u32>, sw: seq<u32>, sh: seq<u32>, rows: seq<u32>, cols: seq<u32>)

  predicate WellFormed(sad: SadContents)
  {
    |sad.y| == |sad.x| && |sad.sw| == |sad.x| && |sad.sh| == |sad.x|
    && |sad.rows| == |sad.x| && |sad.cols| == |sad.x|
  }

  /** `animation_data`: the current animation, its linear frame, the sheet size and the flags. */
  datatype AnimationState = AnimationState(
    animationIndex: u32, frame: u32, sheetSize: u32, loops: bool, hFlip: bool, vFlip: bool)

  /** The default `animation_data`. */
  const INITIAL: AnimationState := AnimationState(0, 0, 0, true, false, false)

  /**
   * `change_current_animation_to`: with SAD contents and an index below the
   * animation count, the animation restarts at frame 0 with a sheet of
   * `rows * cols` frames (32-bit product) and the flips kept; otherwise
   * nothing changes.
   */
  function ChangeAnimation(sad: Option<SadContents>, a: AnimationState, index: u32, loops: bool): (r: AnimationState)
    requires sad.Some? ==> WellFormed(sad.value)
    ensures r.hFlip == a.hFlip && r.vFlip == a.vFlip
    ensures sad.None? || index >= |sad.value.x| ==> r == a
    ensures sad.Some? && index < |sad.value.x| ==>
      && r.animationIndex == index && r.frame == 0 && r.loops == loops
      && r.sheetSize == Wrap32(sad.value.rows[index] as int * sad.value.cols[index] as int)
  {
    match sad
    case None => a
    case Some(s) =>
      if index < |s.x| then
        AnimationState(index, 0, Wrap32(s.rows[index] as int * s.cols[index] as int), loops, a.hFlip, a.vFlip)
      else a
  }

  function ToggleHFlip(a: AnimationState): (r: AnimationState)
    ensures r.hFlip != a.hFlip && r.(hFlip := a.hFlip) == a
  {
    a.(hFlip := !a.hFlip)
  }

  function ToggleVFlip(a: AnimationState): (r: AnimationState)
    ensures r.vFlip != a.vFlip && r.(vFlip := a.vFlip) == a
  {
    a.(vFlip := !a.vFlip)
  }

  /** Toggling a flip twice restores the state. */
  lemma ToggleTwice(a: AnimationState)
    ensures ToggleHFlip(ToggleHFlip(a)) == a && ToggleVFlip(ToggleVFlip(a)) == a
  {
  }

  /** The columns of the current animation are known and nonzero, as the unsigned division needs. */
  predicate CanDelinearize(sad: Option<SadContents>, a: AnimationState)
  {
    sad.Some? ==> a.animationIndex < |sad.value.cols| && sad.value.cols[a.animationIndex] != 0
  }

  /** `delinearize_animation_frame_index`: (row, column) of the frame, or (0, 0) without SAD contents. */
  function Delinearize(sad: Option<SadContents>, a: AnimationState): (r: (nat, nat))
    requires CanDelinearize(sad, a)
    ensures sad.None? ==> r == (0, 0)
    ensures sad.Some? ==>
      var cols := sad.value.cols[a.animationIndex];
      r.1 < cols && r.0 * cols + r.1 == a.frame
  {
    match sad
    case None => (0, 0)
    case Some(s) =>
      var cols := s.cols[a.animationIndex];
      (a.frame / cols, a.frame % cols)
  }

  /** A frame inside a sheet of `rows * cols` frames has its row below `rows`. */
  lemma DelinearizeInSheet(sad: Option<SadContents>, a: AnimationState)
    requires CanDelinearize(sad, a) && sad.Some? && a.animationIndex < |sad.value.rows|
    requires a.frame < sad.value.rows[a.animationIndex] as int * sad.value.cols[a.animationIndex] as int
    ensures Delinearize(sad, a).0 < sad.value.rows[a.animationIndex]
  {
    var rows: int := sad.value.rows[a.animationIndex];
    var cols: int := sad.value.cols[a.animationIndex];
    var (row, col) := Delinearize(sad, a);
    MulCancel(row, rows, cols);
  }

  lemma MulCancel(a: nat, b: nat, m: nat)
    requires a * m < b * m
    ensures a < b
  {
    if a >= b {
      MulMonotone(b, a, m);
    }
  }

  /** Stepping the remainder modulo `n` is the remainder of the step. */
  lemma ModStep(k: nat, n: nat)
    requires n > 0
    ensures ((k % n) + 1) % n == (k + 1) % n
  {
    var q := k / n;
    var m := k % n;
    if m + 1 < n {
      ModUnique(m + 1, n, 0, m + 1);
      ModUnique(k + 1, n, q, m + 1);
    } else {
      ModUnique(m + 1, n, 1, 0);
      ModUnique(k + 1, n, q + 1, 0);
    }
  }

  /** A looping animation needs a nonempty sheet, as the frame is reduced modulo its size. */
  predicate CanUpdate(a: AnimationState)
  {
    a.loops ==> a.sheetSize != 0
  }

  /**
   * `update_animation_frame`: the 32-bit frame counter steps forward; a
   * looping animation wraps modulo the sheet size, a non-looping one steps
   * back when it reaches the sheet size.
   */
  function UpdateFrame(a: AnimationState): (r: AnimationState)
    requires CanUpdate(a)
    ensures r == a.(frame := r.frame) && CanUpdate(r)
  {
    var f := Wrap32(a.frame + 1);
    if a.loops then a.(frame := f % a.sheetSize)
    else if f == a.sheetSize then a.(frame := Wrap32(f - 1))
    else a.(frame := f)
  }

  /** Inside the sheet, a looping animation advances modulo the sheet size and a non-looping one stops on the last frame. */
  lemma UpdateStaysInSheet(a: AnimationState)
    requires CanUpdate(a) && a.frame < a.sheetSize
    ensures UpdateFrame(a).frame < a.sheetSize
    ensures a.loops ==> UpdateFrame(a).frame == (a.frame + 1) % a.sheetSize
    ensures !a.loops ==> UpdateFrame(a).frame == if a.frame + 1 < a.sheetSize then a.frame + 1 else a.sheetSize - 1
  {
  }

  /** `count` successive frame updates. */
  function UpdateTimes(a: AnimationState, count: nat): (r: AnimationState)
    requires CanUpdate(a)
    ensures CanUpdate(r) && r == a.(frame := r.frame)
    decreases count
  {
    if count == 0 then a else UpdateFrame(UpdateTimes(a, count - 1))
  }

  /** From frame 0, a looping animation shows frame `k mod size` after `k` updates. */
  lemma {:induction false} LoopingCycles(a: AnimationState, count: nat)
    requires a.loops && a.sheetSize != 0 && a.frame == 0
    ensures UpdateTimes(a, count).frame == count % a.sheetSize
    decreases count
  {
    if count > 0 {
      var b := UpdateTimes(a, count - 1);
      LoopingCycles(a, count - 1);
      assert b.loops && b.sheetSize == a.sheetSize && b.frame == (count - 1) % a.sheetSize;
      UpdateStaysInSheet(b);
      ModStep(count - 1, a.sheetSize);
      assert UpdateTimes(a, count).frame == UpdateFrame(b).frame;
    }
  }

  /** From frame 0, a non-looping animation shows frame `min(k, size - 1)` after `k` updates, then holds it. */
  lemma {:induction false} NonLoopingClamps(a: AnimationState, count: nat)
    requires !a.loops && a.sheetSize != 0 && a.frame == 0
    ensures UpdateTimes(a, count).frame == if count < a.sheetSize then count else a.sheetSize - 1
    decreases count
  {
    if count > 0 {
      NonLoopingClamps(a, count - 1);
      UpdateStaysInSheet(UpdateTimes(a, count - 1));
    }
  }
}

/** The animated sprite as an object whose animation state changes in place. */
module AnimatedSpriteClass {
  import opened Machine
  import opened Wrappers
  import opened AnimatedSprite

  class AnimatedSpriteEntity {
    const sad: Option<SadContents>
    var current: AnimationState

    predicate Valid()
      reads this
    {
      sad.Some? ==> WellFormed(sad.value)
    }

    /** The constructor starts from the default state and switches to the
        first animation, looping. */
    constructor(contents: Option<SadContents>, firstAnimIdx: u32)
      requires contents.Some? ==> WellFormed(contents.value)
      ensures Valid() && sad == contents && current == ChangeAnimation(contents, INITIAL, firstAnimIdx, true)
    {
      sad := contents;
      current := INITIAL;
      new;
      ChangeCurrentAnimationTo(firstAnimIdx, true);
    }

    method ChangeCurrentAnimationTo(index: u32, loops: bool)
      requires Valid()
      modifies this
      ensures Valid() && current == ChangeAnimation(sad, old(current), index, loops)
    {
      if sad.Some? {
        if index < |sad.value.x| {
          var rows := sad.value.rows[index];
          var cols := sad.value.cols[index];
          current := AnimationState(index, 0, Wrap32(rows as int * cols as int), loops, current.hFlip, current.vFlip);
        }
      }
    }

    method ToggleHFlip()
      modifies this
      ensures current == AnimatedSprite.ToggleHFlip(old(current))
    {
      current := current.(hFlip := !current.hFlip);
    }

    method ToggleVFlip()
      modifies this
      ensures current == AnimatedSprite.ToggleVFlip(old(current))
    {
      current := current.(vFlip := !current.vFlip);
    }

    method DelinearizeFrameIndex() returns (rowCol: (nat, nat))
      requires CanDelinearize(sad, current)
      ensures rowCol == Delinearize(sad, current)
    {
      if sad.None? {
        return (0, 0);
      }
      var cols := sad.value.cols[current.animationIndex];
      rowCol := (current.frame / cols, current.frame % cols);
    }

    method UpdateAnimationFrame()
      requires CanUpdate(current)
      modifies this
      ensures current == UpdateFrame(old(current))
    {
      var f := Wrap32(current.frame + 1);
      if current.loops {
        f := f % current.sheetSize;
      } else if f == current.sheetSize {
        f := Wrap32(f - 1);
      }
      current := current.(frame := f);
    }
  }
}
