/**
 * The global state of the 2048 module as an object: the component maps,
 * the free-ID, stale-piece and game-state queues, the should-add flag and
 * the scores are fields that the piece, table and queue routines update in
 * place. Each method is proved against the function of the same name in
 * Game2048, and keeps the invariant proved there.
 */
module Game2048Globals {
  import opened Machine
  import opened Wrappers
  import opened Board2048
  import opened Game2048

  /** The IDs 0..15 pushed one by one, as both new_game and on_load do. */
  method AllIds() returns (ids: seq<nat>)
    ensures ids == Range(0, BOARD_SLOTS)
  {
    ids := [];
    var i: nat := 0;
    while i < BOARD_SLOTS
      invariant i <= BOARD_SLOTS && ids == Range(0, i)
    {
      ids := ids + [i];
      i := i + 1;
    }
  }

  class Globals {
    var freeIds: seq<nat>
    var stale: seq<nat>
    var positions: map<nat, Coord>
    var exponents: map<nat, nat>
    var targetExponents: map<nat, nat>
    var slots: map<nat, nat>
    var targetSlots: map<nat, nat>
    var states: seq<GameState>
    var shouldAdd: bool
    var points: u64
    var best: u64

    function Model(): Game
      reads this
    {
      Game(freeIds, stale, positions, exponents, targetExponents, slots, targetSlots,
           states, shouldAdd, points, best)
    }

    predicate Valid()
      reads this
    {
      Inv(Model())
    }

    /** The module before on_load: every container empty, both scores zero. */
    constructor ()
      ensures Unloaded(Model()) && Model().points == 0 && Model().best == 0
      ensures !Model().shouldAdd
    {
      freeIds := [];
      stale := [];
      positions := map[];
      exponents := map[];
      targetExponents := map[];
      slots := map[];
      targetSlots := map[];
      states := [];
      shouldAdd := false;
      points := 0;
      best := 0;
    }

    method CreatePiece(exponent: nat, slot: nat) returns (id: nat)
      requires Valid() && |freeIds| > 0 && slot < BOARD_SLOTS
      modifies this
      ensures Valid()
      ensures (Model(), id) == Game2048.CreatePiece(old(Model()), exponent, slot)
    {
      id := freeIds[0];
      freeIds := freeIds[1..];
      positions := positions[id := SLOT_COORDS[slot]];
      exponents := exponents[id := exponent];
      targetExponents := targetExponents[id := exponent];
      slots := slots[id := slot];
      targetSlots := targetSlots[id := slot];
      assert (Model(), id) == Game2048.CreatePiece(old(Model()), exponent, slot);
      CreatePieceKeepsInv(old(Model()), exponent, slot);
    }

    method DeletePiece(id: nat)
      requires Valid() && id < BOARD_SLOTS
      modifies this
      ensures Valid() && Model() == Game2048.DeletePiece(old(Model()), id)
    {
      if id !in freeIds {
        positions := positions - {id};
        exponents := exponents - {id};
        targetExponents := targetExponents - {id};
        slots := slots - {id};
        targetSlots := targetSlots - {id};
        freeIds := freeIds + [id];
      }
      assert Model() == Game2048.DeletePiece(old(Model()), id);
      DeletePieceKeepsInv(old(Model()), id);
    }

    method MarkStale(id: nat)
      requires Valid() && id < BOARD_SLOTS
      modifies this
      ensures Valid() && Model() == Game2048.MarkStale(old(Model()), id)
    {
      stale := stale + [id];
    }

    /** remove_stale: pop and delete the front stale ID until none is left. */
    method RemoveStale()
      requires Valid()
      modifies this
      ensures Valid() && Model() == Game2048.RemoveStale(old(Model()))
    {
      ghost var start := old(Model());
      while |stale| != 0
        invariant Valid() && Game2048.RemoveStale(Model()) == Game2048.RemoveStale(start)
        decreases |stale|
      {
        var front := stale[0];
        RemoveStaleStep(Model());
        DeletePiece(front);
        stale := stale[1..];
      }
      assert Model() == Game2048.RemoveStale(Model());
    }

    method AddGamePoints(p: nat)
      modifies this
      ensures Model() == Game2048.AddGamePoints(old(Model()), p)
    {
      points := Wrap64(points + p) as u64;
    }

    /** The five maps of new_game cleared. */
    method ClearPieces()
      modifies this
      ensures Model() == old(Model()).(positions := map[], exponents := map[], targetExponents := map[],
                                       slots := map[], targetSlots := map[])
    {
      positions := map[];
      exponents := map[];
      targetExponents := map[];
      slots := map[];
      targetSlots := map[];
    }

    /** new_game, without the two random pieces it then creates. */
    method NewGame()
      requires forall k :: 0 <= k < |stale| ==> stale[k] < BOARD_SLOTS
      modifies this
      ensures Valid() && Model() == Game2048.NewGame(old(Model()))
    {
      ghost var target := Game2048.NewGame(Model());
      NewGameResets(Model());
      ClearPieces();
      var ids := AllIds();
      freeIds := ids;
      states := [Idle];
      best := if points > best then points else best;
      points := 0;
      assert Model() == target;
    }

    /** The part of on_load that sets up the game: IDs 0..15, idle, and the
        pieces of the start-up board. */
    method OnLoad()
      requires Unloaded(Model())
      modifies this
      ensures Valid() && Model() == Game2048.OnLoad(old(Model()))
    {
      SeededPoolInv(Model());
      var ids := AllIds();
      freeIds := freeIds + ids;
      states := states + [Idle];
      CreateAllPieces(LOAD_PIECES);
      OnLoadPool(old(Model()));
    }

    /** create_piece for each (exponent, slot) pair in order. */
    method CreateAllPieces(pieces: seq<(nat, nat)>)
      requires Valid() && |pieces| <= |freeIds|
      requires forall k :: 0 <= k < |pieces| ==> pieces[k].1 < BOARD_SLOTS
      modifies this
      ensures Model() == CreateAll(old(Model()), pieces)
    {
      var k := 0;
      while k < |pieces|
        invariant k <= |pieces| && Valid() && |freeIds| == |old(freeIds)| - k
        invariant CreateAll(Model(), pieces[k..]) == CreateAll(old(Model()), pieces)
      {
        var id := CreatePiece(pieces[k].0, pieces[k].1);
        assert pieces[k..][1..] == pieces[k + 1..];
        k := k + 1;
      }
      assert pieces[k..] == [];
    }

    method KeyboardEvent(key: int, action: int)
      requires Valid()
      modifies this
      ensures Valid() && Model() == Game2048.KeyboardEvent(old(Model()), key, action)
    {
      if states[0] == Idle && key == KEY_RIGHT && action == PRESS {
        states := states[1..];
        states := states + RIGHT_MOVE;
      }
      KeyboardEventKeepsInv(old(Model()), key, action);
    }

    /** Write each retarget of `moves` into the target-slot map, in order. */
    method Retarget(data: seq<nat>, moves: seq<Retarget>)
      requires forall m :: m in moves ==> m.pos < |data|
      modifies this
      ensures Model() == old(Model()).(targetSlots := ApplyRetargets(old(targetSlots), data, moves))
    {
      var k := 0;
      while k < |moves|
        invariant k <= |moves|
        invariant Model() == old(Model()).(targetSlots := ApplyRetargets(old(targetSlots), data, moves[..k]))
      {
        assert moves[..k + 1][..k] == moves[..k];
        targetSlots := targetSlots[data[moves[k].pos] := moves[k].slot];
        k := k + 1;
      }
      assert moves[..k] == moves;
    }

    /** compress_<d> on line `i`. */
    method CompressLine(d: Direction, i: nat)
      modifies this
      ensures Model() == Game2048.CompressLine(old(Model()), d, i)
    {
      var el := ElementOf(slots, d, i);
      var moves := CompressTable(d, el.config, i);
      TablesTouchOnlyPieces(d, el.config, [0, 0, 0, 0], i);
      Retarget(el.data, moves);
      if |moves| > 0 {
        shouldAdd := true;
      }
    }

    /** compress_right, compress_up and compress_down: each line in turn. */
    method Compress(d: Direction)
      requires Valid()
      modifies this
      ensures Valid() && Model() == CompressBoard(old(Model()), d)
    {
      var i := 0;
      while i < 4
        invariant i <= 4 && Model() == CompressLines(old(Model()), d, i)
      {
        CompressLine(d, i);
        i := i + 1;
      }
      CompressBoardKeepsInv(old(Model()), d);
    }

    /** merge_<d> on line `i`, given the round's points so far. */
    method MergeLine(d: Direction, i: nat, roundPoints: nat) returns (total: nat)
      modifies this
      ensures (Model(), total) == Game2048.MergeLine(old(Model()), d, i, roundPoints)
    {
      var el := ElementOf(slots, d, i);
      var e := [Get(exponents, el.data[0]), Get(exponents, el.data[1]),
                Get(exponents, el.data[2]), Get(exponents, el.data[3])];
      assert e == ExponentsOf(Model(), el);
      TablesTouchOnlyPieces(d, el.config, e, i);
      total := roundPoints;
      var m := MergeTable(d, el.config, e, i);
      if m.Merged? {
        total := ApplyMerge(d, el.data, m, roundPoints);
      }
    }

    /** The merge found in a line, applied to the target maps, the stale
        queue and the should-add flag. */
    method ApplyMerge(d: Direction, data: seq<nat>, m: Merge, roundPoints: nat) returns (total: nat)
      requires m.Merged? && m.raised < |data| && m.stale < |data|
      requires forall t :: t in m.moves ==> t.pos < |data|
      modifies this
      ensures (Model(), total) == Game2048.ApplyMerge(old(Model()), d, data, m, roundPoints)
    {
      var id := data[m.raised];
      var exponent := Get(targetExponents, id) + 1;
      Retarget(data, m.moves);
      targetExponents := targetExponents[id := exponent];
      stale := stale + [data[m.stale]];
      total := roundPoints;
      if d != Right {
        shouldAdd := true;
        total := roundPoints + Pow2(exponent);
      }
    }

    /** merge_right, merge_up and merge_down: each line in turn, then the
        round's points, which right merges never have, go to the score. */
    method Merge(d: Direction)
      requires Valid()
      modifies this
      ensures Valid() && Model() == MergeBoard(old(Model()), d)
    {
      var roundPoints := 0;
      var i := 0;
      while i < 4
        invariant i <= 4 && (Model(), roundPoints) == MergeLines(old(Model()), d, i)
      {
        roundPoints := MergeLine(d, i, roundPoints);
        i := i + 1;
      }
      if d != Right {
        AddGamePoints(roundPoints);
      }
      MergeBoardKeepsInv(old(Model()), d);
    }

    /** update, with "every piece has reached its target" as a parameter. */
    method Update(piecesIdle: bool)
      requires Valid()
      modifies this
      ensures Valid() && Model() == Game2048.Update(old(Model()), piecesIdle)
    {
      if piecesIdle && Pops(states[0]) {
        RunStage();
        states := states[1..];
      }
      UpdateKeepsInv(old(Model()), piecesIdle);
    }

    /** The body of the case of update for the front state. */
    method RunStage()
      requires Valid() && Pops(states[0])
      modifies this
      ensures Valid() && Model() == Stage(old(Model())) && states == old(states)
    {
      StageKeepsInv(Model());
      match states[0]
      case CompressRight => Compress(Right);
      case MergeRight => Merge(Right);
      case PieceRemoval => RemoveStale();
      case AddPiece => shouldAdd := false;
    }
  }
}
