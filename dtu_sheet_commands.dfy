/**
 * The command-driven character sheet of ui/character_sheet.cpp: a window
 * resize rescales the background and queues a refresh; otherwise the front
 * empathy command moves one point between empathy and the free points,
 * within empathy 0..5, and queues a refresh when it does. The window size
 * is an input of each update.
 */
module DtuSheetCommands {
  import opened Machine
  import opened DtuCommands

  const EMPATHY_MAX: int := 5

  /** The sheet's defaults: every attribute 0, twelve free points. */
  const DEFAULT_POINTS: u8 := 12

  datatype SheetState = SheetState(scale: (real, real, real), empathy: u8, points: u8)

  function Abs(x: real): real
  {
    if x < 0.0 then -x else x
  }

  /** The state of a new sheet, background scale aside. */
  function Initial(scale: (real, real, real)): (st: SheetState)
  {
    SheetState(scale, 0, DEFAULT_POINTS)
  }

  /** update: the resize branch returns before any command is handled; an
      empathy command is always popped, with a refresh queued behind the
      rest when it applied; any other command stays. */
  function Update(st: SheetState, q: seq<Command>, ww: real, wh: real): (r: (SheetState, seq<Command>))
  {
    if Abs(st.scale.0 - ww) > 1.0 || Abs(st.scale.1 - wh) > 1.0 then
      (st.(scale := (ww, wh, 1.0)), q + [UiRefresh])
    else
      match Front(q)
      case EmpathyUp =>
        if st.empathy as int + 1 <= EMPATHY_MAX then
          (st.(empathy := st.empathy + 1, points := Wrap8(st.points as int - 1)), q[1..] + [UiRefresh])
        else (st, q[1..])
      case EmpathyDown =>
        if st.empathy as int - 1 >= 0 then
          (st.(empathy := st.empathy - 1, points := Wrap8(st.points as int + 1)), q[1..] + [UiRefresh])
        else (st, q[1..])
      case _ => (st, q)
  }

  /** Empathy plus the free points stays at the default twelve, with
      empathy at most five. */
  predicate PointsInv(st: SheetState)
  {
    st.empathy as int + st.points as int == DEFAULT_POINTS as int && st.empathy as int <= EMPATHY_MAX
  }

  lemma InitialKeepsInv(scale: (real, real, real))
    ensures PointsInv(Initial(scale))
  {
  }

  /** From the invariant the free points never wrap: an applied
      empathy_up takes a point from at least seven, an applied
      empathy_down gives one back to at most twelve. */
  lemma UpdateKeepsInv(st: SheetState, q: seq<Command>, ww: real, wh: real)
    requires PointsInv(st)
    ensures PointsInv(Update(st, q, ww, wh).0)
    ensures st.points >= 7
    ensures Update(st, q, ww, wh).0.points as int == st.points as int - (Update(st, q, ww, wh).0.empathy as int - st.empathy as int)
  {
    if !(Abs(st.scale.0 - ww) > 1.0 || Abs(st.scale.1 - wh) > 1.0) {
      match Front(q)
      case EmpathyUp =>
        if st.empathy as int + 1 <= EMPATHY_MAX {
          assert Wrap8(st.points as int - 1) == st.points - 1;
        }
      case EmpathyDown =>
        if st.empathy as int - 1 >= 0 {
          assert Wrap8(st.points as int + 1) == st.points + 1;
        }
      case _ =>
    }
  }

  /** A resize takes the whole update: the commands wait, a refresh is
      queued behind them and the background takes the window's size. */
  lemma ResizeDefersCommands(st: SheetState, q: seq<Command>, ww: real, wh: real)
    requires Abs(st.scale.0 - ww) > 1.0 || Abs(st.scale.1 - wh) > 1.0
    ensures Update(st, q, ww, wh) == (SheetState((ww, wh, 1.0), st.empathy, st.points), q + [UiRefresh])
  {
  }

  /** Without a resize, an empathy command at the front is consumed and a
      refresh is queued exactly when empathy changed; other commands and
      the sheet stay. */
  lemma CommandRefreshesOnChange(st: SheetState, q: seq<Command>, ww: real, wh: real)
    requires !(Abs(st.scale.0 - ww) > 1.0 || Abs(st.scale.1 - wh) > 1.0)
    ensures var (s, q2) := Update(st, q, ww, wh);
      && s.scale == st.scale
      && (Front(q) == EmpathyUp || Front(q) == EmpathyDown ==>
            q2 == q[1..] + (if s.empathy != st.empathy then [UiRefresh] else []))
      && (Front(q) != EmpathyUp && Front(q) != EmpathyDown ==> q2 == q && s == st)
      && (s.empathy > st.empathy ==> Front(q) == EmpathyUp && s.empathy as int == st.empathy as int + 1)
      && (s.empathy < st.empathy ==> Front(q) == EmpathyDown && s.empathy as int == st.empathy as int - 1)
  {
  }
}

/** The character sheet state and command queue as the object update
    changes through its references. */
module DtuSheetCommandsScreen {
  import opened Machine
  import opened DtuCommands
  import opened DtuSheetCommands

  class SheetScreen {
    var scale: (real, real, real)
    var empathy: u8
    var points: u8
    var cmdq: seq<Command>

    function Model(): SheetState
      reads this
    {
      SheetState(scale, empathy, points)
    }

    constructor ()
      ensures Model() == Initial((1.0, 1.0, 1.0)) && cmdq == []
      ensures PointsInv(Model())
    {
      scale := (1.0, 1.0, 1.0);
      empathy := 0;
      points := DEFAULT_POINTS;
      cmdq := [];
    }

    method Update(ww: real, wh: real)
      modifies this
      ensures (Model(), cmdq) == DtuSheetCommands.Update(old(Model()), old(cmdq), ww, wh)
      ensures old(PointsInv(Model())) ==> PointsInv(Model())
    {
      ghost var st0 := Model();
      ghost var q0 := cmdq;
      if Abs(scale.0 - ww) > 1.0 || Abs(scale.1 - wh) > 1.0 {
        scale := (ww, wh, 1.0);
        cmdq := cmdq + [UiRefresh];
      } else {
        ExecuteFront(ww, wh);
      }
      if PointsInv(st0) {
        UpdateKeepsInv(st0, q0, ww, wh);
      }
    }

    /** The front command, on a window whose size has not changed. */
    method ExecuteFront(ww: real, wh: real)
      requires !(Abs(scale.0 - ww) > 1.0 || Abs(scale.1 - wh) > 1.0)
      modifies this
      ensures (Model(), cmdq) == DtuSheetCommands.Update(old(Model()), old(cmdq), ww, wh)
    {
      var front := if |cmdq| == 0 then Idle else cmdq[0];
      match front
      case EmpathyUp =>
        if empathy as int + 1 <= EMPATHY_MAX {
          empathy := empathy + 1;
          points := Wrap8(points as int - 1);
          assert (cmdq + [UiRefresh])[1..] == cmdq[1..] + [UiRefresh];
          cmdq := cmdq + [UiRefresh];
        }
        cmdq := cmdq[1..];
      case EmpathyDown =>
        if empathy as int - 1 >= 0 {
          empathy := empathy - 1;
          points := Wrap8(points as int + 1);
          assert (cmdq + [UiRefresh])[1..] == cmdq[1..] + [UiRefresh];
          cmdq := cmdq + [UiRefresh];
        }
        cmdq := cmdq[1..];
      case _ =>
    }
  }
}
