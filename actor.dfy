/**
 * The actor (`actor`): an animated character whose current animation comes
 * from its SAD file, whose frame is a (row, column) pair advanced column by
 * column, and whose walk selects animations by heading. The SAD file is
 * seen as the sequence of its decoded animation records; the heading, which
 * the source computes from floating-point displacement, is a parameter, as
 * is whether the target is beyond the walking threshold.
 */
module Actor {
  import opened Machine
  import opened Wrappers

  /** One animation record: its index, sheet offset, frame size, rows and columns. */
  datatype AnimationRecord = AnimationRecord(index: u32, x: u32, y: u32, sw: u32, sh: u32, rows: u32, cols: u32)

  datatype Heading = NorthWest | North | NorthEast | East | SouthEast | South | SouthWest | West

  datatype ActorState = ActorState(
    sad: Option<seq<AnimationRecord>>, current: AnimationRecord,
    alpha: nat, beta: nat, hFlipped: bool, vFlipped: bool)

  /** The animation selected while walking north, south, and in any other direction. */
  const WALK_NORTH: u32 := 0
  const WALK_SOUTH: u32 := 1
  const WALK_SIDE: u32 := 6

  /** The animation selected on arrival facing north, south, and any other direction. */
  const IDLE_NORTH: u32 := 3
  const IDLE_SOUTH: u32 := 4
  const IDLE_SIDE: u32 := 5

  /** `get_animation` with bound checking. */
  function GetAnimation(records: seq<AnimationRecord>, index: u32): (r: Option<AnimationRecord>)
    ensures r.Some? <==> index < |records|
    ensures r.Some? ==> r.value == records[index]
  {
    if index < |records| then Some(records[index]) else None
  }

  /** `swtich_to_animation`: a record that exists becomes current from its first frame; otherwise nothing changes. */
  function SwitchToAnimation(s: ActorState, index: u32): (r: ActorState)
    ensures r.sad == s.sad && r.hFlipped == s.hFlipped && r.vFlipped == s.vFlipped
    ensures s.sad.Some? && index < |s.sad.value| ==>
      r.current == s.sad.value[index] && r.alpha == 0 && r.beta == 0
    ensures s.sad.None? || index >= |s.sad.value| ==> r == s
  {
    match s.sad
    case None => s
    case Some(records) =>
      match GetAnimation(records, index)
      case Some(animation) => s.(current := animation, alpha := 0, beta := 0)
      case None => s
  }

  /** A non-empty row count, as the row wraps modulo it. */
  predicate CanAdvance(s: ActorState)
  {
    s.current.rows != 0
  }

  /** `advance_current_anim_frame`: the next column, or the first column of the next row (mod rows). */
  function AdvanceFrame(s: ActorState): (r: ActorState)
    requires CanAdvance(s)
    ensures r == s.(alpha := r.alpha, beta := r.beta) && CanAdvance(r)
  {
    if s.beta + 1 < s.current.cols then s.(beta := s.beta + 1)
    else s.(alpha := (s.alpha + 1) % s.current.rows, beta := 0)
  }

  /** The frame inside the sheet. */
  predicate InSheet(s: ActorState)
  {
    s.alpha < s.current.rows && s.beta < s.current.cols
  }

  /** The frame's position in row-major order. */
  function Linear(s: ActorState): nat
  {
    s.alpha * s.current.cols + s.beta
  }

  /**
   * Inside the sheet, an advance moves one frame forward in row-major
   * order, wrapping from the last frame to the first, and stays inside.
   */
  lemma AdvanceIsNextFrame(s: ActorState)
    requires CanAdvance(s) && InSheet(s)
    ensures InSheet(AdvanceFrame(s))
    ensures Linear(AdvanceFrame(s)) == (Linear(s) + 1) % (s.current.rows as int * s.current.cols as int)
  {
    RowMajorStep(s.alpha, s.beta, s.current.rows, s.current.cols);
  }

  /** One step in row-major order over a `rows` by `cols` grid, with wrap-around. */
  lemma RowMajorStep(alpha: nat, beta: nat, rows: nat, cols: nat)
    requires alpha < rows && beta < cols
    ensures beta + 1 < cols ==> alpha * cols + (beta + 1) == (alpha * cols + beta + 1) % (rows * cols)
    ensures beta + 1 >= cols ==> ((alpha + 1) % rows) * cols == (alpha * cols + beta + 1) % (rows * cols)
  {
    var n := rows * cols;
    var next := alpha * cols + beta + 1;
    MulMonotone(alpha + 1, rows, cols);
    assert (alpha + 1) * cols == alpha * cols + cols;
    if beta + 1 < cols {
      ModUnique(next, n, 0, next);
    } else if alpha + 1 < rows {
      MulMonotone(alpha + 2, rows, cols);
      assert (alpha + 2) * cols == (alpha + 1) * cols + cols;
      ModUnique(alpha + 1, rows, 0, alpha + 1);
      ModUnique(next, n, 0, next);
    } else {
      ModUnique(alpha + 1, rows, 1, 0);
      ModUnique(next, n, 1, 0);
    }
  }

  function ToggleHFlip(s: ActorState): (r: ActorState)
    ensures r.hFlipped != s.hFlipped && r.(hFlipped := s.hFlipped) == s
  {
    s.(hFlipped := !s.hFlipped)
  }

  function ToggleVFlip(s: ActorState): (r: ActorState)
    ensures r.vFlipped != s.vFlipped && r.(vFlipped := s.vFlipped) == s
  {
    s.(vFlipped := !s.vFlipped)
  }

  /** `drop_sad_file`: the actor no longer has a SAD file. */
  function DropSadFile(s: ActorState): (r: ActorState)
    ensures r.sad.None? && r == s.(sad := None)
  {
    s.(sad := None)
  }

  /** Without a SAD file, switching animations changes nothing. */
  lemma SwitchAfterDropIsNoOp(s: ActorState, index: u32)
    ensures SwitchToAnimation(DropSadFile(s), index) == DropSadFile(s)
  {
  }

  predicate FacesWest(h: Heading)
  {
    h == West || h == NorthWest || h == SouthWest
  }

  /**
   * `walk_to`, after the heading is computed. Beyond the threshold: north
   * and south select their walk unless already current; every other heading
   * selects the side walk unless current and sets the h-flip for a westward
   * heading, clears it for an eastward one. Within the threshold the idle
   * animation for the heading is selected on every call. The movement itself
   * is floating point and not modelled.
   */
  function WalkTo(s: ActorState, heading: Heading, beyondThreshold: bool): (r: ActorState)
    ensures r.sad == s.sad
  {
    if beyondThreshold then
      match heading
      case North => if s.current.index != WALK_NORTH then SwitchToAnimation(s, WALK_NORTH) else s
      case South => if s.current.index != WALK_SOUTH then SwitchToAnimation(s, WALK_SOUTH) else s
      case _ =>
        var t := if s.current.index != WALK_SIDE then SwitchToAnimation(s, WALK_SIDE) else s;
        if t.hFlipped != FacesWest(heading) then ToggleHFlip(t) else t
    else
      match heading
      case North => SwitchToAnimation(s, IDLE_NORTH)
      case South => SwitchToAnimation(s, IDLE_SOUTH)
      case _ => SwitchToAnimation(s, IDLE_SIDE)
  }

  /** Walking sideways flips the sprite exactly when the heading points west; north and south leave the flip alone. */
  lemma WalkFlipFollowsHeading(s: ActorState, heading: Heading)
    ensures heading != North && heading != South ==> WalkTo(s, heading, true).hFlipped == FacesWest(heading)
    ensures heading == North || heading == South ==> WalkTo(s, heading, true).hFlipped == s.hFlipped
  {
  }

  /** The animation a walk ends on: the record with the selected index, when the SAD file has it. */
  function WalkAnimation(heading: Heading, beyondThreshold: bool): u32
  {
    match (heading, beyondThreshold)
    case (North, true) => WALK_NORTH
    case (South, true) => WALK_SOUTH
    case (_, true) => WALK_SIDE
    case (North, false) => IDLE_NORTH
    case (South, false) => IDLE_SOUTH
    case (_, false) => IDLE_SIDE
  }

  /**
   * When the SAD file stores each animation at its own index, a walk leaves
   * the animation for its heading current, restarting it whenever it was
   * switched to.
   */
  lemma WalkSelectsAnimation(s: ActorState, heading: Heading, beyondThreshold: bool)
    requires s.sad.Some? && |s.sad.value| > 6
    requires forall i :: 0 <= i < |s.sad.value| ==> s.sad.value[i].index == i
    ensures WalkTo(s, heading, beyondThreshold).current == s.sad.value[WalkAnimation(heading, beyondThreshold)]
      || (beyondThreshold && s.current.index == WalkAnimation(heading, beyondThreshold)
          && WalkTo(s, heading, beyondThreshold).current == s.current)
  {
  }
}

/** The actor as an object whose animation and frame change in place. */
module ActorClass {
  import opened Machine
  import opened Wrappers
  import opened Actor

  class ActorEntity {
    var sad: Option<seq<AnimationRecord>>
    var current: AnimationRecord
    var alpha: nat
    var beta: nat
    var hFlipped: bool
    var vFlipped: bool

    function Model(): ActorState
      reads this
    {
      ActorState(sad, current, alpha, beta, hFlipped, vFlipped)
    }

    /** The constructor: with a SAD file holding `firstAnimation`, that record becomes current. */
    constructor(file: Option<seq<AnimationRecord>>, firstAnimation: u32)
      ensures file.Some? && firstAnimation < |file.value| ==> current == file.value[firstAnimation]
      ensures sad == file && alpha == 0 && beta == 0 && !hFlipped && !vFlipped
    {
      sad := file;
      current := AnimationRecord(0, 0, 0, 0, 0, 0, 0);
      alpha := 0;
      beta := 0;
      hFlipped := false;
      vFlipped := false;
      if file.Some? {
        var animation := GetAnimation(file.value, firstAnimation);
        if animation.Some? {
          current := animation.value;
        }
      }
    }

    method SwitchToAnimation(index: u32)
      modifies this
      ensures Model() == Actor.SwitchToAnimation(old(Model()), index)
    {
      if sad.Some? {
        var animation := GetAnimation(sad.value, index);
        if animation.Some? {
          current := animation.value;
          alpha := 0;
          beta := 0;
        }
      }
    }

    method AdvanceCurrentAnimFrame()
      requires CanAdvance(Model())
      modifies this
      ensures Model() == AdvanceFrame(old(Model()))
    {
      if beta + 1 < current.cols {
        beta := beta + 1;
      } else {
        alpha := (alpha + 1) % current.rows;
        beta := 0;
      }
    }

    method ToggleHFlip()
      modifies this
      ensures Model() == Actor.ToggleHFlip(old(Model()))
    {
      hFlipped := !hFlipped;
    }

    method ToggleVFlip()
      modifies this
      ensures Model() == Actor.ToggleVFlip(old(Model()))
    {
      vFlipped := !vFlipped;
    }

    method DropSadFile()
      modifies this
      ensures Model() == Actor.DropSadFile(old(Model()))
    {
      sad := None;
    }

    method WalkTo(heading: Heading, beyondThreshold: bool)
      modifies this
      ensures Model() == Actor.WalkTo(old(Model()), heading, beyondThreshold)
    {
      if beyondThreshold {
        match heading
        case North =>
          if current.index != WALK_NORTH {
            SwitchToAnimation(WALK_NORTH);
          }
        case South =>
          if current.index != WALK_SOUTH {
            SwitchToAnimation(WALK_SOUTH);
          }
        case _ =>
          if current.index != WALK_SIDE {
            SwitchToAnimation(WALK_SIDE);
          }
          if hFlipped != FacesWest(heading) {
            ToggleHFlip();
          }
      } else {
        match heading
        case North => SwitchToAnimation(IDLE_NORTH);
        case South => SwitchToAnimation(IDLE_SOUTH);
        case _ => SwitchToAnimation(IDLE_SIDE);
      }
    }
  }
}
