/**
 * The new-game screen of new_game.cpp: mouse clicks and scrolls over the
 * empathy group queue empathy commands, and each update applies the front
 * one to the empathy rank and the points left, within rank 0..5. Where the
 * cursor lies is an input of each callback. The screen's state header is
 * not part of this model; rank and points are taken as plain integers.
 */
module DtuNewGame {
  import opened DtuCommands

  const MAX_RANK: int := 5

  datatype Ranks = Ranks(rank: int, remaining: int)

  /** update: an empathy command is applied when its bound allows and then
      popped; any other command stays at the front. */
  function Update(st: Ranks, q: seq<Command>): (r: (Ranks, seq<Command>))
  {
    match Front(q)
    case EmpathyUp =>
      (if st.rank + 1 <= MAX_RANK && st.remaining >= 1 then Ranks(st.rank + 1, st.remaining - 1) else st, q[1..])
    case EmpathyDown =>
      (if st.rank - 1 >= 0 then Ranks(st.rank - 1, st.remaining + 1) else st, q[1..])
    case _ => (st, q)
  }

  /** mouse_click: a left press over the up button queues empathy_up, over
      the down button empathy_down. */
  function MouseClick(q: seq<Command>, leftPress: bool, inUp: bool, inDown: bool): (r: seq<Command>)
  {
    q + (if leftPress && inUp then [EmpathyUp] else []) + (if leftPress && inDown then [EmpathyDown] else [])
  }

  /** mouse_scroll: scrolling up over the empathy group queues empathy_up,
      scrolling down empathy_down. */
  function MouseScroll(q: seq<Command>, yOffset: real, inGroup: bool): (r: seq<Command>)
  {
    q + (if yOffset > 0.0 && inGroup then [EmpathyUp] else []) + (if yOffset < 0.0 && inGroup then [EmpathyDown] else [])
  }

  predicate RanksInv(st: Ranks, total: int)
  {
    0 <= st.rank <= MAX_RANK && st.remaining >= 0 && st.rank + st.remaining == total
  }

  /** An update keeps rank plus points, rank within 0..5 and the points
      non-negative; it pops exactly an empathy command, raises the rank only
      with a point to spend, and leaves every other command and the ranks as
      they were. */
  lemma UpdateKeepsInv(st: Ranks, q: seq<Command>, total: int)
    requires RanksInv(st, total)
    ensures var (s, q2) := Update(st, q);
      && RanksInv(s, total)
      && (Front(q) == EmpathyUp || Front(q) == EmpathyDown ==> q2 == q[1..])
      && (Front(q) != EmpathyUp && Front(q) != EmpathyDown ==> q2 == q && s == st)
      && (s.rank > st.rank ==> Front(q) == EmpathyUp && st.remaining >= 1)
      && (s.rank < st.rank ==> Front(q) == EmpathyDown)
  {
  }

  /** Input callbacks only append, so the queue keeps its order. */
  lemma InputOnlyAppends(q: seq<Command>, leftPress: bool, inUp: bool, inDown: bool, yOffset: real, inGroup: bool)
    ensures MouseClick(q, leftPress, inUp, inDown)[..|q|] == q
    ensures MouseScroll(q, yOffset, inGroup)[..|q|] == q
    ensures OnlyEmpathy(q) ==> OnlyEmpathy(MouseClick(q, leftPress, inUp, inDown))
    ensures OnlyEmpathy(q) ==> OnlyEmpathy(MouseScroll(q, yOffset, inGroup))
    ensures |MouseScroll(q, yOffset, inGroup)| <= |q| + 1
  {
    assert MouseClick(q, leftPress, inUp, inDown)[..|q|] == q;
    assert MouseScroll(q, yOffset, inGroup)[..|q|] == q;
  }

  /** `n` updates in a row. */
  function Updates(st: Ranks, q: seq<Command>, n: nat): (r: (Ranks, seq<Command>))
    decreases n
  {
    if n == 0 then (st, q) else var (s, q2) := Update(st, q); Updates(s, q2, n - 1)
  }

  /** A queue of empathy commands is drained by as many updates as it
      holds, with the invariant kept throughout. */
  lemma {:induction false} UpdatesDrainEmpathyCommands(st: Ranks, q: seq<Command>, total: int)
    requires RanksInv(st, total) && OnlyEmpathy(q)
    ensures Updates(st, q, |q|).1 == [] && RanksInv(Updates(st, q, |q|).0, total)
    decreases |q|
  {
    if |q| > 0 {
      var (s, q2) := Update(st, q);
      UpdateKeepsInv(st, q, total);
      assert q2 == q[1..];
      assert OnlyEmpathy(q2);
      UpdatesDrainEmpathyCommands(s, q2, total);
    }
  }
}

/** The new-game screen as the object its callbacks update: the command
    queue, the empathy ranks and the four sprite draw lists. */
module DtuNewGameScreen {
  import opened Machine
  import opened DtuCommands
  import opened DtuNewGame

  class NewGameScreen {
    var cmdq: seq<Command>
    var rank: int
    var remaining: int
    var textureHandles: seq<u64>
    var textureIds: seq<u32>
    var alphas: seq<real>
    var models: seq<seq<real>>

    function Ranks(): DtuNewGame.Ranks
      reads this
    {
      DtuNewGame.Ranks(rank, remaining)
    }

    method Update()
      modifies this
      ensures (Ranks(), cmdq) == DtuNewGame.Update(old(Ranks()), old(cmdq))
      ensures textureHandles == old(textureHandles) && textureIds == old(textureIds)
      ensures alphas == old(alphas) && models == old(models)
    {
      var front := if |cmdq| == 0 then Idle else cmdq[0];
      match front
      case EmpathyUp =>
        if rank + 1 <= MAX_RANK && remaining >= 1 {
          rank := rank + 1;
          remaining := remaining - 1;
        }
        cmdq := cmdq[1..];
      case EmpathyDown =>
        if rank - 1 >= 0 {
          rank := rank - 1;
          remaining := remaining + 1;
        }
        cmdq := cmdq[1..];
      case _ =>
    }

    method MouseClick(leftPress: bool, inUp: bool, inDown: bool)
      modifies this
      ensures cmdq == DtuNewGame.MouseClick(old(cmdq), leftPress, inUp, inDown)
      ensures Ranks() == old(Ranks())
    {
      if leftPress && inUp {
        cmdq := cmdq + [EmpathyUp];
      }
      if leftPress && inDown {
        cmdq := cmdq + [EmpathyDown];
      }
    }

    method MouseScroll(yOffset: real, inGroup: bool)
      modifies this
      ensures cmdq == DtuNewGame.MouseScroll(old(cmdq), yOffset, inGroup)
      ensures Ranks() == old(Ranks())
    {
      if yOffset > 0.0 && inGroup {
        cmdq := cmdq + [EmpathyUp];
      }
      if yOffset < 0.0 && inGroup {
        cmdq := cmdq + [EmpathyDown];
      }
    }

    /** unload: the four draw lists and the command queue emptied; the
        ranks, static to update, stay. */
    method Unload()
      modifies this
      ensures cmdq == [] && textureHandles == [] && textureIds == [] && alphas == [] && models == []
      ensures Ranks() == old(Ranks())
    {
      textureHandles := [];
      textureIds := [];
      alphas := [];
      models := [];
      cmdq := [];
    }
  }
}
