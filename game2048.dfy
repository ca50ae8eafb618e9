// Global state of the 2048 module: the piece-ID pool with its component
// maps, the stale-piece queue, the game-state queue, the score, and the
// application of the compress/merge tables to the board.
module Game2048 {
  import opened Machine
  import opened Wrappers
  import opened Board2048

  /** The game states, in the order of their codes 0..10. */
  datatype GameState =
    | Idle | CompressUp | CompressDown | CompressLeft | CompressRight
    | MergeUp | MergeDown | MergeLeft | MergeRight | PieceRemoval | AddPiece

  /** The directions whose tables exist. */
  datatype Direction = Up | Down | Right

  const BOARD_SLOTS: nat := 16
  const KEY_RIGHT: int := 262
  const PRESS: int := 1

  /** The states a right-arrow press queues, in order. */
  const RIGHT_MOVE: seq<GameState> :=
    [CompressRight, MergeRight, PieceRemoval, CompressRight, AddPiece, Idle]

  /** Screen position of a slot (the depth coordinate is left out). */
  datatype Coord = Coord(x: int, y: int)

  const SLOT_COORDS: seq<Coord> := [
    Coord(15, 315), Coord(136, 315), Coord(257, 315), Coord(378, 315),
    Coord(15, 436), Coord(136, 436), Coord(257, 436), Coord(378, 436),
    Coord(15, 557), Coord(136, 557), Coord(257, 557), Coord(378, 557),
    Coord(15, 678), Coord(136, 678), Coord(257, 678), Coord(378, 678)
  ]

  /** The slot table is a 4 x 4 grid with a pitch of 121 on both axes,
      slots numbered row by row. */
  lemma SlotCoordsFormGrid()
    ensures |SLOT_COORDS| == BOARD_SLOTS
    ensures forall s :: 0 <= s < 16 ==>
      SLOT_COORDS[s] == Coord(15 + 121 * (s % 4), 315 + 121 * (s / 4))
  {
  }

  datatype Game = Game(
    freeIds: seq<nat>,
    stale: seq<nat>,
    positions: map<nat, Coord>,
    exponents: map<nat, nat>,
    targetExponents: map<nat, nat>,
    slots: map<nat, nat>,
    targetSlots: map<nat, nat>,
    states: seq<GameState>,
    shouldAdd: bool,
    points: u64,
    best: u64)

  /** Every ID 0..15 is either free (once) or live, and the five component
      maps hold exactly the live IDs. */
  predicate PoolInv(g: Game)
  {
    && (forall k :: 0 <= k < |g.freeIds| ==> g.freeIds[k] < BOARD_SLOTS)
    && (forall a, b :: 0 <= a < b < |g.freeIds| ==> g.freeIds[a] != g.freeIds[b])
    && (forall id :: id in g.slots ==> id < BOARD_SLOTS && id !in g.freeIds)
    && (forall id :: 0 <= id < BOARD_SLOTS ==> id in g.freeIds || id in g.slots)
    && g.positions.Keys == g.slots.Keys
    && g.exponents.Keys == g.slots.Keys
    && g.targetExponents.Keys == g.slots.Keys
    && g.targetSlots.Keys == g.slots.Keys
  }

  /** The pool invariant, stale IDs that name pieces, and a state queue that
      is never empty and always ends in idle. */
  predicate Inv(g: Game)
  {
    && PoolInv(g)
    && (forall k :: 0 <= k < |g.stale| ==> g.stale[k] < BOARD_SLOTS)
    && |g.states| > 0 && g.states[|g.states| - 1] == Idle
  }

  function Get(m: map<nat, nat>, id: nat): nat
  {
    if id in m then m[id] else 0
  }

  function Range(lo: nat, hi: nat): (r: seq<nat>)
    requires lo <= hi
    ensures |r| == hi - lo && forall k :: 0 <= k < |r| ==> r[k] == lo + k
  {
    seq(hi - lo, k => lo + k)
  }

  // ---------------------------------------------------------------------
  // Piece-ID pool
  // ---------------------------------------------------------------------

  /** create_piece: the front free ID becomes a piece at `slot` with both
      current and target values set. */
  function CreatePiece(g: Game, exponent: nat, slot: nat): (r: (Game, nat))
    requires |g.freeIds| > 0 && slot < BOARD_SLOTS
  {
    var id := g.freeIds[0];
    (g.(freeIds := g.freeIds[1..],
        positions := g.positions[id := SLOT_COORDS[slot]],
        exponents := g.exponents[id := exponent],
        targetExponents := g.targetExponents[id := exponent],
        slots := g.slots[id := slot],
        targetSlots := g.targetSlots[id := slot]),
     id)
  }

  /** delete_piece: a no-op for a free ID; otherwise the ID leaves every map
      and goes to the back of the free queue. */
  function DeletePiece(g: Game, id: nat): Game
  {
    if id in g.freeIds then g
    else
      g.(positions := g.positions - {id},
         exponents := g.exponents - {id},
         targetExponents := g.targetExponents - {id},
         slots := g.slots - {id},
         targetSlots := g.targetSlots - {id},
         freeIds := g.freeIds + [id])
  }

  function MarkStale(g: Game, id: nat): Game
  {
    g.(stale := g.stale + [id])
  }

  /** Deleting the given IDs front to back. */
  function DeleteAll(g: Game, ids: seq<nat>): Game
    decreases |ids|
  {
    if |ids| == 0 then g else DeleteAll(DeletePiece(g, ids[0]), ids[1..])
  }

  /** remove_stale: delete every queued stale ID in order and empty the queue. */
  function RemoveStale(g: Game): Game
  {
    DeleteAll(g, g.stale).(stale := [])
  }

  lemma CreatePieceKeepsInv(g: Game, exponent: nat, slot: nat)
    requires Inv(g) && |g.freeIds| > 0 && slot < BOARD_SLOTS
    ensures Inv(CreatePiece(g, exponent, slot).0)
    ensures var (h, id) := CreatePiece(g, exponent, slot);
      && id < BOARD_SLOTS && id !in g.slots && id in h.slots && id !in h.freeIds
      && h.slots[id] == slot && h.exponents[id] == exponent
      && h.targetSlots[id] == slot && h.targetExponents[id] == exponent
      && |h.freeIds| == |g.freeIds| - 1
  {
    CreatePieceKeepsPoolInv(g, exponent, slot);
  }

  /** The pool part of `CreatePieceKeepsInv`: the front ID moves from the free queue to the live pieces. */
  lemma CreatePieceKeepsPoolInv(g: Game, exponent: nat, slot: nat)
    requires PoolInv(g) && |g.freeIds| > 0 && slot < BOARD_SLOTS
    ensures PoolInv(CreatePiece(g, exponent, slot).0)
    ensures CreatePiece(g, exponent, slot).1 !in g.slots
    ensures CreatePiece(g, exponent, slot).1 !in CreatePiece(g, exponent, slot).0.freeIds
  {
    var (h, id) := CreatePiece(g, exponent, slot);
    PopFrontKeepsQueue(g.freeIds);
    assert h.freeIds == g.freeIds[1..];
    assert h.slots.Keys == g.slots.Keys + {id};
  }

  /** Popping the front of a duplicate-free queue of IDs below 16 leaves such
      a queue, without the popped ID, holding every other ID it held. */
  lemma PopFrontKeepsQueue(f: seq<nat>)
    requires |f| > 0
    requires forall k :: 0 <= k < |f| ==> f[k] < BOARD_SLOTS
    requires forall a, b :: 0 <= a < b < |f| ==> f[a] != f[b]
    ensures forall k :: 0 <= k < |f[1..]| ==> f[1..][k] < BOARD_SLOTS
    ensures forall a, b :: 0 <= a < b < |f[1..]| ==> f[1..][a] != f[1..][b]
    ensures f[0] < BOARD_SLOTS && f[0] !in f[1..]
    ensures forall x :: x in f ==> x == f[0] || x in f[1..]
  {
    forall x | x in f
      ensures x == f[0] || x in f[1..]
    {
      var k :| 0 <= k < |f| && f[k] == x;
      if k > 0 {
        assert f[1..][k - 1] == x;
      }
    }
  }

  lemma DeletePieceKeepsInv(g: Game, id: nat)
    requires Inv(g) && id < BOARD_SLOTS
    ensures Inv(DeletePiece(g, id))
    ensures id in DeletePiece(g, id).freeIds && id !in DeletePiece(g, id).slots
  {
    if id !in g.freeIds {
      var h := DeletePiece(g, id);
      assert id in g.slots;
      assert h.freeIds[|h.freeIds| - 1] == id;
    }
  }

  /** Deleting a piece just created restores the component maps and moves
      the ID it took from the front of the free queue to the back. */
  lemma CreateThenDeleteRestores(g: Game, exponent: nat, slot: nat)
    requires Inv(g) && |g.freeIds| > 0 && slot < BOARD_SLOTS
    ensures var (h, id) := CreatePiece(g, exponent, slot);
      var d := DeletePiece(h, id);
      && d.slots == g.slots && d.targetSlots == g.targetSlots
      && d.exponents == g.exponents && d.targetExponents == g.targetExponents
      && d.positions == g.positions
      && d.freeIds == g.freeIds[1..] + [g.freeIds[0]]
  {
    var (h, id) := CreatePiece(g, exponent, slot);
    CreatePieceKeepsPoolInv(g, exponent, slot);
    assert id !in g.positions && id !in g.exponents && id !in g.targetExponents && id !in g.targetSlots;
    assert DeletePiece(h, id) == h.(positions := h.positions - {id},
                                    exponents := h.exponents - {id},
                                    targetExponents := h.targetExponents - {id},
                                    slots := h.slots - {id},
                                    targetSlots := h.targetSlots - {id},
                                    freeIds := h.freeIds + [id]);
    UpdateThenRemove(g.positions, id, SLOT_COORDS[slot]);
    UpdateThenRemove(g.exponents, id, exponent);
    UpdateThenRemove(g.targetExponents, id, exponent);
    UpdateThenRemove(g.slots, id, slot);
    UpdateThenRemove(g.targetSlots, id, slot);
  }

  /** Adding a new key and removing it again gives back the map. */
  lemma UpdateThenRemove<V>(m: map<nat, V>, k: nat, v: V)
    requires k !in m
    ensures m[k := v] - {k} == m
  {
  }

  /** Deleting twice is deleting once. */
  lemma DeleteIsIdempotent(g: Game, id: nat)
    ensures DeletePiece(DeletePiece(g, id), id) == DeletePiece(g, id)
  {
    if id !in g.freeIds {
      assert DeletePiece(g, id).freeIds[|g.freeIds|] == id;
    }
  }

  lemma {:induction false} DeleteAllKeepsInv(g: Game, ids: seq<nat>)
    requires Inv(g) && forall k :: 0 <= k < |ids| ==> ids[k] < BOARD_SLOTS
    ensures Inv(DeleteAll(g, ids))
    ensures forall k :: 0 <= k < |ids| ==> ids[k] !in DeleteAll(g, ids).slots
    ensures DeleteAll(g, ids).states == g.states && DeleteAll(g, ids).stale == g.stale
    decreases |ids|
  {
    if |ids| > 0 {
      DeletePieceKeepsInv(g, ids[0]);
      DeleteAllKeepsInv(DeletePiece(g, ids[0]), ids[1..]);
      DeleteAllKeepsDeleted(DeletePiece(g, ids[0]), ids[1..], ids[0]);
      forall k | 0 < k < |ids|
        ensures ids[k] !in DeleteAll(g, ids).slots
      {
        assert ids[k] == ids[1..][k - 1];
      }
    }
  }

  /** Further deletions never bring a deleted ID back. */
  lemma {:induction false} DeleteAllKeepsDeleted(g: Game, ids: seq<nat>, id: nat)
    requires id !in g.slots
    ensures id !in DeleteAll(g, ids).slots
    decreases |ids|
  {
    if |ids| > 0 {
      DeleteAllKeepsDeleted(DeletePiece(g, ids[0]), ids[1..], id);
    }
  }

  /** remove_stale keeps the invariant, empties the stale queue and leaves
      none of the stale IDs alive. */
  lemma RemoveStaleKeepsInv(g: Game)
    requires Inv(g)
    ensures Inv(RemoveStale(g)) && RemoveStale(g).stale == [] && RemoveStale(g).states == g.states
    ensures forall k :: 0 <= k < |g.stale| ==> g.stale[k] !in RemoveStale(g).slots
  {
    DeleteAllKeepsInv(g, g.stale);
  }

  /** Deleting pieces never reads or writes the stale queue. */
  lemma {:induction false} DeleteAllIgnoresStale(g: Game, ids: seq<nat>, s: seq<nat>)
    ensures DeleteAll(g.(stale := s), ids) == DeleteAll(g, ids).(stale := s)
    decreases |ids|
  {
    if |ids| > 0 {
      assert DeletePiece(g.(stale := s), ids[0]) == DeletePiece(g, ids[0]).(stale := s);
      DeleteAllIgnoresStale(DeletePiece(g, ids[0]), ids[1..], s);
    }
  }

  /** One iteration of remove_stale's loop leaves the rest of its work unchanged,
      and keeps the invariant. */
  lemma RemoveStaleStep(g: Game)
    requires Inv(g) && |g.stale| > 0
    ensures var h := DeletePiece(g, g.stale[0]).(stale := g.stale[1..]);
      Inv(h) && RemoveStale(h) == RemoveStale(g)
  {
    var d := DeletePiece(g, g.stale[0]);
    DeletePieceKeepsInv(g, g.stale[0]);
    DeleteAllIgnoresStale(d, g.stale[1..], g.stale[1..]);
  }

  // ---------------------------------------------------------------------
  // Score, new game, load
  // ---------------------------------------------------------------------

  /** add_game_points: a `unsigned long long` addition. */
  function AddGamePoints(g: Game, p: nat): (r: Game)
    ensures g.points + p < U64_MODULUS ==> r.points == g.points + p
    ensures r == g.(points := r.points)
  {
    g.(points := Wrap64(g.points + p))
  }

  /** new_game: clear the maps, the free queue and the state queue, keep the
      best score, zero the points, free IDs 0..15 and queue idle. The stale
      queue and the should-add flag are not touched. */
  function NewGame(g: Game): Game
  {
    g.(positions := map[], exponents := map[], targetExponents := map[],
       slots := map[], targetSlots := map[],
       freeIds := Range(0, BOARD_SLOTS),
       states := [Idle],
       best := if g.points > g.best then g.points else g.best,
       points := 0)
  }

  /** After new_game every ID is free, nothing is alive, the queue is idle
      and the best score is the larger of the old best and the old points. */
  lemma NewGameResets(g: Game)
    requires forall k :: 0 <= k < |g.stale| ==> g.stale[k] < BOARD_SLOTS
    ensures Inv(NewGame(g))
    ensures NewGame(g).slots == map[] && |NewGame(g).freeIds| == BOARD_SLOTS
    ensures NewGame(g).states == [Idle] && NewGame(g).points == 0
    ensures NewGame(g).best >= g.best && NewGame(g).best >= g.points
    ensures NewGame(g).best == g.best || NewGame(g).best == g.points
  {
    var h := NewGame(g);
    forall id | 0 <= id < BOARD_SLOTS
      ensures id in h.freeIds
    {
      assert h.freeIds[id] == id;
    }
  }

  /** The pieces on_load creates, as (exponent, slot) pairs in order. */
  const LOAD_PIECES: seq<(nat, nat)> :=
    [(1, 0), (1, 2), (2, 4), (1, 5), (1, 7), (2, 8), (1, 9), (1, 10), (1, 11)]

  /** create_piece for each (exponent, slot) pair in order. */
  function CreateAll(g: Game, pieces: seq<(nat, nat)>): Game
    requires |pieces| <= |g.freeIds|
    requires forall k :: 0 <= k < |pieces| ==> pieces[k].1 < BOARD_SLOTS
    decreases |pieces|
  {
    if |pieces| == 0 then g
    else CreateAll(CreatePiece(g, pieces[0].0, pieces[0].1).0, pieces[1..])
  }

  /** Creating pieces in order keeps the invariant, hands out the front free
      IDs in order, and puts the k-th of them in the k-th requested slot. */
  lemma {:induction false} CreateAllKeepsInv(g: Game, pieces: seq<(nat, nat)>)
    requires Inv(g) && |pieces| <= |g.freeIds|
    requires forall k :: 0 <= k < |pieces| ==> pieces[k].1 < BOARD_SLOTS
    ensures Inv(CreateAll(g, pieces))
    ensures CreateAll(g, pieces).freeIds == g.freeIds[|pieces|..]
    ensures CreateAll(g, pieces).states == g.states
    ensures forall k :: 0 <= k < |pieces| ==>
      && g.freeIds[k] in CreateAll(g, pieces).slots
      && CreateAll(g, pieces).slots[g.freeIds[k]] == pieces[k].1
      && CreateAll(g, pieces).exponents[g.freeIds[k]] == pieces[k].0
    decreases |pieces|
  {
    if |pieces| > 0 {
      var (h, id) := CreatePiece(g, pieces[0].0, pieces[0].1);
      CreatePieceKeepsInv(g, pieces[0].0, pieces[0].1);
      CreateAllKeepsInv(h, pieces[1..]);
      CreateAllKeepsLive(h, pieces[1..], id);
      forall k | 0 < k < |pieces|
        ensures g.freeIds[k] == h.freeIds[k - 1] && pieces[k] == pieces[1..][k - 1]
      {
      }
    }
  }

  /** Creating more pieces never moves or rescales a live piece. */
  lemma {:induction false} CreateAllKeepsLive(g: Game, pieces: seq<(nat, nat)>, id: nat)
    requires Inv(g) && |pieces| <= |g.freeIds| && id in g.slots
    requires forall k :: 0 <= k < |pieces| ==> pieces[k].1 < BOARD_SLOTS
    ensures id in CreateAll(g, pieces).slots && id in CreateAll(g, pieces).exponents
    ensures CreateAll(g, pieces).slots[id] == g.slots[id]
    ensures CreateAll(g, pieces).exponents[id] == g.exponents[id]
    decreases |pieces|
  {
    if |pieces| > 0 {
      var (h, created) := CreatePiece(g, pieces[0].0, pieces[0].1);
      CreatePieceKeepsInv(g, pieces[0].0, pieces[0].1);
      CreateAllKeepsLive(h, pieces[1..], id);
    }
  }

  /** The module state before loading: no IDs, no pieces, no states. */
  predicate Unloaded(g: Game)
  {
    && g.freeIds == [] && g.stale == [] && g.states == []
    && g.positions == map[] && g.exponents == map[] && g.targetExponents == map[]
    && g.slots == map[] && g.targetSlots == map[]
  }

  /** on_load: append IDs 0..15 to the free queue and idle to the state
      queue, then create the pieces of the start-up board. */
  function OnLoad(g: Game): Game
  {
    CreateAll(g.(freeIds := g.freeIds + Range(0, BOARD_SLOTS), states := g.states + [Idle]),
              LOAD_PIECES)
  }

  /** Loading an unloaded module gives IDs 0..8 the pieces of the start-up
      list in order, leaves IDs 9..15 free, queues idle and satisfies the
      invariant. */
  lemma OnLoadBoard(g: Game)
    requires Unloaded(g)
    ensures Inv(OnLoad(g)) && OnLoad(g).states == [Idle]
    ensures |OnLoad(g).freeIds| == BOARD_SLOTS - |LOAD_PIECES|
    ensures forall k :: 0 <= k < |OnLoad(g).freeIds| ==> OnLoad(g).freeIds[k] == |LOAD_PIECES| + k
    ensures forall k :: 0 <= k < |LOAD_PIECES| ==>
      && k in OnLoad(g).slots && OnLoad(g).slots[k] == LOAD_PIECES[k].1
      && OnLoad(g).exponents[k] == LOAD_PIECES[k].0
  {
    OnLoadPool(g);
    OnLoadPieces(g);
  }

  /** The pool half of OnLoadBoard. */
  lemma OnLoadPool(g: Game)
    requires Unloaded(g)
    ensures Inv(OnLoad(g)) && OnLoad(g).states == [Idle]
    ensures |OnLoad(g).freeIds| == BOARD_SLOTS - |LOAD_PIECES|
    ensures forall k :: 0 <= k < |OnLoad(g).freeIds| ==> OnLoad(g).freeIds[k] == |LOAD_PIECES| + k
  {
    SeededPoolInv(g);
    LoadFrom(g.(freeIds := g.freeIds + Range(0, BOARD_SLOTS), states := g.states + [Idle]), LOAD_PIECES);
  }

  /** The board half of OnLoadBoard. */
  lemma OnLoadPieces(g: Game)
    requires Unloaded(g)
    ensures forall k :: 0 <= k < |LOAD_PIECES| ==>
      && k in OnLoad(g).slots && OnLoad(g).slots[k] == LOAD_PIECES[k].1
      && OnLoad(g).exponents[k] == LOAD_PIECES[k].0
  {
    SeededPoolInv(g);
    LoadFrom(g.(freeIds := g.freeIds + Range(0, BOARD_SLOTS), states := g.states + [Idle]), LOAD_PIECES);
  }

  /** Creating pieces from a pool whose free queue is 0..15 in order gives
      the k-th piece ID k. */
  lemma LoadFrom(s: Game, pieces: seq<(nat, nat)>)
    requires Inv(s) && |s.freeIds| == BOARD_SLOTS
    requires forall k :: 0 <= k < |s.freeIds| ==> s.freeIds[k] == k
    requires |pieces| <= BOARD_SLOTS
    requires forall k :: 0 <= k < |pieces| ==> pieces[k].1 < BOARD_SLOTS
    ensures Inv(CreateAll(s, pieces))
    ensures |CreateAll(s, pieces).freeIds| == BOARD_SLOTS - |pieces|
    ensures forall k :: 0 <= k < |CreateAll(s, pieces).freeIds| ==>
      CreateAll(s, pieces).freeIds[k] == |pieces| + k
    ensures forall k :: 0 <= k < |pieces| ==>
      && k in CreateAll(s, pieces).slots && CreateAll(s, pieces).slots[k] == pieces[k].1
      && CreateAll(s, pieces).exponents[k] == pieces[k].0
    ensures CreateAll(s, pieces).states == s.states
  {
    CreateAllKeepsInv(s, pieces);
    forall k | 0 <= k < |pieces|
      ensures s.freeIds[k] == k
    {
    }
  }

  /** Appending IDs 0..15 and idle to an unloaded state gives a valid one. */
  lemma SeededPoolInv(g: Game)
    requires Unloaded(g)
    ensures var s := g.(freeIds := g.freeIds + Range(0, BOARD_SLOTS), states := g.states + [Idle]);
      Inv(s) && s.freeIds == Range(0, BOARD_SLOTS) && s.states == [Idle]
  {
    SeededWith(g, Range(0, BOARD_SLOTS));
  }

  lemma SeededWith(g: Game, ids: seq<nat>)
    requires Unloaded(g)
    requires |ids| == BOARD_SLOTS && forall k :: 0 <= k < |ids| ==> ids[k] == k
    ensures var s := g.(freeIds := g.freeIds + ids, states := g.states + [Idle]);
      Inv(s) && s.freeIds == ids && s.states == [Idle]
  {
    assert g.freeIds + ids == ids;
    assert g.states + [Idle] == [Idle];
    FreshPoolInv(g.(freeIds := ids, states := [Idle]), ids);
  }

  /** A board with no pieces, no stale IDs, only idle queued and every ID
      free in order satisfies the invariant. */
  lemma FreshPoolInv(s: Game, ids: seq<nat>)
    requires s.freeIds == ids && s.stale == [] && s.states == [Idle]
    requires s.slots == map[] && s.positions == map[] && s.exponents == map[]
    requires s.targetSlots == map[] && s.targetExponents == map[]
    requires |ids| == BOARD_SLOTS && forall k :: 0 <= k < |ids| ==> ids[k] == k
    ensures Inv(s)
  {
    forall id | 0 <= id < BOARD_SLOTS
      ensures id in ids
    {
      assert ids[id] == id;
    }
  }

  /** inside_new_game_button: strictly inside the button rectangle with
      corner (358, 66) and extent (138, 40). */
  function InsideNewGameButton(x: real, y: real): (r: bool)
    ensures r ==> 358.0 < x < 496.0 && 66.0 < y < 106.0
    ensures !r ==> x <= 358.0 || x >= 496.0 || y <= 66.0 || y >= 106.0
  {
    var inX := 358.0 < x && x < 358.0 + 138.0;
    var inY := 66.0 < y && y < 66.0 + 40.0;
    inX && inY
  }

  /** The border of the button does not count as inside. */
  lemma NewGameButtonExcludesBorder(x: real, y: real)
    requires x == 358.0 || x == 496.0 || y == 66.0 || y == 106.0
    ensures !InsideNewGameButton(x, y)
  {
  }

  // ---------------------------------------------------------------------
  // State queue
  // ---------------------------------------------------------------------

  /** keyboard_event: only an idle board reacts, and only to a right-arrow
      press, which replaces idle with the stages of a right move. */
  function KeyboardEvent(g: Game, key: int, action: int): Game
    requires |g.states| > 0
  {
    if g.states[0] == Idle && key == KEY_RIGHT && action == PRESS then
      g.(states := g.states[1..] + RIGHT_MOVE)
    else g
  }

  lemma KeyboardEventKeepsInv(g: Game, key: int, action: int)
    requires Inv(g)
    ensures Inv(KeyboardEvent(g, key, action))
    ensures KeyboardEvent(g, key, action) != g ==>
      && g.states[0] == Idle && key == KEY_RIGHT && action == PRESS
      && KeyboardEvent(g, key, action).states == g.states[1..] + RIGHT_MOVE
  {
  }

  // ---------------------------------------------------------------------
  // Elements and the tables applied to the board
  // ---------------------------------------------------------------------

  /** The lowest ID from `id` up whose piece sits in `slot`. */
  function PieceAt(slots: map<nat, nat>, slot: nat, id: nat): (r: Option<nat>)
    ensures r.Some? ==> r.value in slots && slots[r.value] == slot && id <= r.value < BOARD_SLOTS
    ensures r.None? ==> forall j :: id <= j < BOARD_SLOTS && j in slots ==> slots[j] != slot
    decreases BOARD_SLOTS - id
  {
    if id >= BOARD_SLOTS then None
    else if id in slots && slots[id] == slot then Some(id)
    else PieceAt(slots, slot, id + 1)
  }

  function IdOrZero(found: Option<nat>): nat
  {
    if found.Some? then found.value else 0
  }

  /** The slot of position `p` of line `i`: rows for right, columns otherwise. */
  function LineSlot(d: Direction, i: nat, p: nat): nat
  {
    if d == Right then p + 4 * i else i + 4 * p
  }

  /** The element of line `i` as the board's slots show it. */
  function ElementOf(slots: map<nat, nat>, d: Direction, i: nat): (e: Element)
    ensures WellFormed(e)
    ensures forall p :: 0 <= p < 4 && Occupancy(e.config)[p] ==>
      e.data[p] in slots && slots[e.data[p]] == LineSlot(d, i, p) && e.data[p] < BOARD_SLOTS
  {
    var f0 := PieceAt(slots, LineSlot(d, i, 0), 0);
    var f1 := PieceAt(slots, LineSlot(d, i, 1), 0);
    var f2 := PieceAt(slots, LineSlot(d, i, 2), 0);
    var f3 := PieceAt(slots, LineSlot(d, i, 3), 0);
    Element(ConfigOf([f0.Some?, f1.Some?, f2.Some?, f3.Some?]),
            [IdOrZero(f0), IdOrZero(f1), IdOrZero(f2), IdOrZero(f3)])
  }

  function CompressTable(d: Direction, c: Config, i: nat): seq<Retarget>
  {
    match d
    case Up => Board2048.CompressUp(c, i)
    case Down => Board2048.CompressDown(c, i)
    case Right => Board2048.CompressRight(c, i)
  }

  function MergeTable(d: Direction, c: Config, e: seq<nat>, i: nat): Merge
    requires |e| == 4
  {
    match d
    case Up => Board2048.MergeUp(c, e, i)
    case Down => Board2048.MergeDown(c, e, i)
    case Right => Board2048.MergeRight(c, e, i)
  }

  /** Every table retargets only positions holding pieces, and a merge names
      two such positions. */
  lemma TablesTouchOnlyPieces(d: Direction, c: Config, e: seq<nat>, i: nat)
    requires |e| == 4
    ensures MovesOnlyPieces(CompressTable(d, c, i), Occupancy(c))
    ensures MergeTable(d, c, e, i).Merged? ==>
      var m := MergeTable(d, c, e, i);
      && MovesOnlyPieces(m.moves, Occupancy(c))
      && m.raised < 4 && m.stale < 4
      && Occupancy(c)[m.raised] && Occupancy(c)[m.stale]
  {
    match d
    case Up => CompressUpPacks(c, i); MergeUpTakesTopmostPair(c, e, i);
    case Down => CompressDownPacks(c, i); MergeDownTakesBottommostPair(c, e, i);
    case Right => CompressRightPacks(c, i); MergeRightTakesRightmostPair(c, e, i);
  }

  /** The target maps of a merged board keep their keys, and only live IDs
      join the stale queue. */
  predicate MergeShape(g: Game, h: Game)
  {
    && OnlyTargetsDiffer(g, h)
    && h.targetSlots.Keys == g.targetSlots.Keys
    && h.targetExponents.Keys == g.targetExponents.Keys
    && (forall k :: 0 <= k < |h.stale| ==> h.stale[k] < BOARD_SLOTS)
  }

  /** The maps a merge reads and writes agree on the live IDs, which are
      all below 16, and the stale queue names only such IDs. */
  predicate MergeReady(g: Game)
  {
    && g.slots.Keys == g.targetSlots.Keys && g.slots.Keys == g.targetExponents.Keys
    && (forall id :: id in g.slots ==> id < BOARD_SLOTS)
    && (forall k :: 0 <= k < |g.stale| ==> g.stale[k] < BOARD_SLOTS)
  }

  /** Writing each retarget into the target-slot map, in order. */
  function ApplyRetargets(targets: map<nat, nat>, data: seq<nat>, moves: seq<Retarget>): (r: map<nat, nat>)
    requires forall m :: m in moves ==> m.pos < |data|
    ensures (forall m :: m in moves ==> data[m.pos] in targets) ==> r.Keys == targets.Keys
    decreases |moves|
  {
    if |moves| == 0 then targets
    else
      var last := moves[|moves| - 1];
      ApplyRetargets(targets, data, moves[..|moves| - 1])[data[last.pos] := last.slot]
  }

  /** compress_<d> on line `i`. Every handled configuration sets should-add. */
  function CompressLine(g: Game, d: Direction, i: nat): (h: Game)
    ensures OnlyTargetsDiffer(g, h) && h.stale == g.stale && h.points == g.points
    ensures h.targetExponents == g.targetExponents
    ensures g.slots.Keys <= g.targetSlots.Keys ==> h.targetSlots.Keys == g.targetSlots.Keys
  {
    var el := ElementOf(g.slots, d, i);
    var moves := CompressTable(d, el.config, i);
    TablesTouchOnlyPieces(d, el.config, [0, 0, 0, 0], i);
    g.(targetSlots := ApplyRetargets(g.targetSlots, el.data, moves),
       shouldAdd := if |moves| > 0 then true else g.shouldAdd)
  }

  /** compress_<d> on lines 0..n-1, in order. */
  function CompressLines(g: Game, d: Direction, n: nat): (h: Game)
    ensures OnlyTargetsDiffer(g, h) && h.stale == g.stale && h.points == g.points
    ensures h.targetExponents == g.targetExponents
    ensures g.slots.Keys <= g.targetSlots.Keys ==> h.targetSlots.Keys == g.targetSlots.Keys
  {
    if n == 0 then g else CompressLine(CompressLines(g, d, n - 1), d, n - 1)
  }

  function ExponentsOf(g: Game, el: Element): seq<nat>
    requires WellFormed(el)
  {
    [Get(g.exponents, el.data[0]), Get(g.exponents, el.data[1]),
     Get(g.exponents, el.data[2]), Get(g.exponents, el.data[3])]
  }

  function Pow2(n: nat): (r: nat)
    ensures r >= 1
  {
    if n == 0 then 1 else 2 * Pow2(n - 1)
  }

  /** A merge found in a line whose IDs are `data`: retarget the line, raise
      the absorbing piece's target exponent and mark the other piece stale;
      up and down merges also score `1 << new exponent` and set should-add,
      right merges do neither. */
  function ApplyMerge(g: Game, d: Direction, data: seq<nat>, m: Merge, points: nat): (r: (Game, nat))
    requires m.Merged? && m.raised < |data| && m.stale < |data|
    requires forall t :: t in m.moves ==> t.pos < |data|
    ensures OnlyTargetsDiffer(g, r.0) && r.0.points == g.points
    ensures MergeReady(g) ==>
      data[m.raised] in g.slots ==>
      data[m.stale] < BOARD_SLOTS ==>
      (forall t :: t in m.moves ==> data[t.pos] in g.slots) ==>
      MergeShape(g, r.0)
    ensures r.0.targetExponents ==
      g.targetExponents[data[m.raised] := Get(g.targetExponents, data[m.raised]) + 1]
    ensures r.0.stale == g.stale + [data[m.stale]]
    ensures r.1 == if d == Right then points else points + Pow2(Get(g.targetExponents, data[m.raised]) + 1)
    ensures r.0.shouldAdd == (d != Right || g.shouldAdd)
  {
    var id := data[m.raised];
    var exponent := Get(g.targetExponents, id) + 1;
    (g.(targetSlots := ApplyRetargets(g.targetSlots, data, m.moves),
        targetExponents := g.targetExponents[id := exponent],
        stale := g.stale + [data[m.stale]],
        shouldAdd := if d == Right then g.shouldAdd else true),
     if d == Right then points else points + Pow2(exponent))
  }

  /** merge_<d> on line `i`, with the round's points so far. */
  function MergeLine(g: Game, d: Direction, i: nat, points: nat): (r: (Game, nat))
    ensures OnlyTargetsDiffer(g, r.0) && r.0.points == g.points
    ensures MergeReady(g) ==> MergeShape(g, r.0)
    ensures r.0.stale == g.stale || (|r.0.stale| == |g.stale| + 1 && r.0.stale[..|g.stale|] == g.stale)
    ensures d == Right ==> r.1 == points
    ensures d != Right ==> r.1 >= points + 2 * (|r.0.stale| - |g.stale|)
  {
    var el := ElementOf(g.slots, d, i);
    var e := ExponentsOf(g, el);
    TablesTouchOnlyPieces(d, el.config, e, i);
    var m := MergeTable(d, el.config, e, i);
    if m.Merged? then MergePair(g, d, el, m, points) else (g, points)
  }

  /** The merge a table chose on an element whose pieces are all live. */
  function MergePair(g: Game, d: Direction, el: Element, m: Merge, points: nat): (r: (Game, nat))
    requires WellFormed(el) && m.Merged? && m.raised < 4 && m.stale < 4
    requires forall p :: 0 <= p < 4 && Occupancy(el.config)[p] ==> el.data[p] in g.slots && el.data[p] < BOARD_SLOTS
    requires MovesOnlyPieces(m.moves, Occupancy(el.config))
    requires Occupancy(el.config)[m.raised] && Occupancy(el.config)[m.stale]
    ensures OnlyTargetsDiffer(g, r.0) && r.0.points == g.points
    ensures MergeReady(g) ==> MergeShape(g, r.0)
    ensures |r.0.stale| == |g.stale| + 1 && r.0.stale[..|g.stale|] == g.stale
    ensures d == Right ==> r.1 == points
    ensures d != Right ==> r.1 >= points + 2
  {
    var r := ApplyMerge(g, d, el.data, m, points);
    assert r.0.stale[..|g.stale|] == g.stale;
    r
  }

  /** merge_<d> on lines 0..n-1, in order, accumulating the round's points. */
  function MergeLines(g: Game, d: Direction, n: nat): (r: (Game, nat))
    ensures OnlyTargetsDiffer(g, r.0) && r.0.points == g.points
    ensures MergeReady(g) ==> MergeShape(g, r.0)
    ensures |g.stale| <= |r.0.stale| <= |g.stale| + n
    ensures d == Right ==> r.1 == 0
    ensures d != Right ==> r.1 >= 2 * (|r.0.stale| - |g.stale|)
  {
    if n == 0 then (g, 0)
    else
      var (h, p) := MergeLines(g, d, n - 1);
      var r := MergeLine(h, d, n - 1, p);
      MergeShapeChains(g, h, r.0);
      r
  }

  /** Merge shapes compose, and a merge-ready board stays ready after a pass
      of that shape. */
  lemma MergeShapeChains(g: Game, h: Game, k: Game)
    requires OnlyTargetsDiffer(g, h) && OnlyTargetsDiffer(h, k)
    requires MergeReady(g) ==> MergeShape(g, h)
    requires MergeReady(h) ==> MergeShape(h, k)
    ensures MergeReady(g) ==> MergeReady(h) && MergeShape(g, k)
  {
  }

  /** A whole merge pass: up and down add the round's points to the score
      once at the end; right adds nothing. */
  function MergeBoard(g: Game, d: Direction): Game
  {
    var (h, p) := MergeLines(g, d, 4);
    if d == Right then h else AddGamePoints(h, p)
  }

  /**
   * The score changes once per pass: the merges leave it alone, and up and
   * down then add the round's points (at least 2 per piece made stale) in
   * one `unsigned long long` addition; right leaves it unchanged.
   */
  lemma MergeBoardScoresOnce(g: Game, d: Direction)
    ensures var r := MergeLines(g, d, 4);
      && MergeBoard(g, d).points == (if d == Right then g.points else AddGamePoints(g, r.1).points)
      && MergeBoard(g, d).stale == r.0.stale
      && (d != Right ==> r.1 >= 2 * (|r.0.stale| - |g.stale|))
  {
    var r := MergeLines(g, d, 4);
    var b := MergeBoard(g, d);
    if d != Right {
      assert b == AddGamePoints(r.0, r.1);
      SameScoreSameSum(g, r.0, r.1);
    }
  }

  lemma SameScoreSameSum(g: Game, h: Game, p: nat)
    requires h.points == g.points
    ensures AddGamePoints(h, p).points == AddGamePoints(g, p).points
  {
  }

  function CompressBoard(g: Game, d: Direction): Game
  {
    CompressLines(g, d, 4)
  }

  /** With distinct IDs at the retargeted positions, the piece at position
      `p` ends at the slot its last retarget names, and IDs not at any
      retargeted position keep their target. */
  lemma {:induction false} ApplyRetargetsAt(targets: map<nat, nat>, data: seq<nat>, moves: seq<Retarget>, occ: seq<bool>)
    requires |data| == 4 && |occ| == 4
    requires MovesOnlyPieces(moves, occ)
    requires forall a, b :: 0 <= a < 4 && 0 <= b < 4 && a != b && occ[a] && occ[b] ==> data[a] != data[b]
    requires forall p :: 0 <= p < 4 && occ[p] ==> data[p] in targets
    ensures ApplyRetargets(targets, data, moves).Keys == targets.Keys
    ensures forall p :: 0 <= p < 4 && occ[p] ==>
      ApplyRetargets(targets, data, moves)[data[p]] == FinalSlot(moves, p, targets[data[p]])
    ensures forall id :: id in targets && (forall p :: 0 <= p < 4 && occ[p] ==> data[p] != id) ==>
      ApplyRetargets(targets, data, moves)[id] == targets[id]
    decreases |moves|
  {
    if |moves| > 0 {
      var prefix := moves[..|moves| - 1];
      assert MovesOnlyPieces(prefix, occ) by {
        forall m | m in prefix ensures m.pos < 4 && occ[m.pos] {
          assert m in moves;
        }
      }
      ApplyRetargetsAt(targets, data, prefix, occ);
      assert moves[|moves| - 1] in moves;
    }
  }

  /** The reference slot of the piece at position `p` of line `i` once the
      line is packed in direction `d`. */
  function PackedSlot(d: Direction, occ: seq<bool>, i: nat, p: nat): nat
    requires |occ| == 4
  {
    match d
    case Right => 4 - Count(occ) + Rank(occ, p) + 4 * i
    case Up => i + 4 * Rank(occ, p)
    case Down => i + 4 * (4 - Count(occ) + Rank(occ, p))
  }

  /** Each compression table packs the line in its direction. */
  lemma CompressTablePacks(d: Direction, c: Config, i: nat)
    ensures forall p :: 0 <= p < 4 && Occupancy(c)[p] ==>
      FinalSlot(CompressTable(d, c, i), p, LineSlot(d, i, p)) == PackedSlot(d, Occupancy(c), i, p)
  {
    match d
    case Right => CompressRightPacks(c, i);
    case Up => CompressUpPacks(c, i);
    case Down => CompressDownPacks(c, i);
  }

  /** The pieces an element names at different positions are different. */
  lemma ElementIdsDistinct(slots: map<nat, nat>, d: Direction, i: nat)
    ensures var el := ElementOf(slots, d, i);
      forall a, b ::
        0 <= a < 4 && 0 <= b < 4 && a != b && Occupancy(el.config)[a] && Occupancy(el.config)[b]
        ==> el.data[a] != el.data[b]
  {
    var el := ElementOf(slots, d, i);
    forall a, b | 0 <= a < 4 && 0 <= b < 4 && a != b
      && Occupancy(el.config)[a] && Occupancy(el.config)[b]
      ensures el.data[a] != el.data[b]
    {
      assert LineSlot(d, i, a) != LineSlot(d, i, b);
    }
  }

  /** Compressing one line of a settled board (every piece's target is its
      slot) sends each of the line's pieces to its packed slot, and leaves
      the targets of every other piece alone. */
  lemma CompressLinePacks(g: Game, d: Direction, i: nat)
    requires PoolInv(g)
    requires forall id :: id in g.slots ==> g.targetSlots[id] == g.slots[id]
    ensures var el := ElementOf(g.slots, d, i);
      var h := CompressLine(g, d, i);
      && h.targetSlots.Keys == g.targetSlots.Keys
      && (forall p :: 0 <= p < 4 && Occupancy(el.config)[p] ==>
            h.targetSlots[el.data[p]] == PackedSlot(d, Occupancy(el.config), i, p))
      && (forall id :: id in g.slots && (forall p :: 0 <= p < 4 ==> g.slots[id] != LineSlot(d, i, p)) ==>
            h.targetSlots[id] == g.targetSlots[id])
  {
    var el := ElementOf(g.slots, d, i);
    var occ := Occupancy(el.config);
    var moves := CompressTable(d, el.config, i);
    TablesTouchOnlyPieces(d, el.config, [0, 0, 0, 0], i);
    ElementIdsDistinct(g.slots, d, i);
    ApplyRetargetsAt(g.targetSlots, el.data, moves, occ);
    CompressTablePacks(d, el.config, i);
    forall id | id in g.slots && (forall p :: 0 <= p < 4 ==> g.slots[id] != LineSlot(d, i, p))
      ensures forall p :: 0 <= p < 4 && occ[p] ==> el.data[p] != id
    {
    }
  }

  /** `h` differs from `g` at most in targets, stale queue, should-add flag
      and points. */
  predicate OnlyTargetsDiffer(g: Game, h: Game)
  {
    && h.freeIds == g.freeIds && h.positions == g.positions && h.exponents == g.exponents
    && h.slots == g.slots && h.states == g.states && h.best == g.best
  }

  /** Rewriting targets of live pieces, and queueing live IDs as stale,
      keeps the invariant. */
  lemma TargetsOnlyKeepInv(g: Game, h: Game)
    requires Inv(g) && OnlyTargetsDiffer(g, h)
    requires h.targetSlots.Keys == g.slots.Keys && h.targetExponents.Keys == g.slots.Keys
    requires forall k :: 0 <= k < |h.stale| ==> h.stale[k] < BOARD_SLOTS
    ensures Inv(h)
  {
  }

  lemma CompressBoardKeepsInv(g: Game, d: Direction)
    requires Inv(g)
    ensures Inv(CompressBoard(g, d))
    ensures CompressBoard(g, d).slots == g.slots && CompressBoard(g, d).states == g.states
  {
    TargetsOnlyKeepInv(g, CompressBoard(g, d));
  }

  lemma MergeBoardKeepsInv(g: Game, d: Direction)
    requires Inv(g)
    ensures Inv(MergeBoard(g, d)) && MergeBoard(g, d).slots == g.slots
    ensures MergeBoard(g, d).states == g.states
  {
    var (h, p) := MergeLines(g, d, 4);
    assert MergeReady(g);
    TargetsOnlyKeepInv(g, h);
    if d != Right {
      ScoreKeepsInv(h, AddGamePoints(h, p).points);
    }
  }

  /** The score is not part of the invariant. */
  lemma ScoreKeepsInv(g: Game, points: u64)
    requires Inv(g)
    ensures Inv(g.(points := points))
  {
  }

  // ---------------------------------------------------------------------
  // update
  // ---------------------------------------------------------------------

  /** The stages update runs once the pieces have settled. */
  predicate Pops(st: GameState)
  {
    st == CompressRight || st == MergeRight || st == PieceRemoval || st == AddPiece
  }

  /** The work of the stage at the front of the queue, before it is popped. */
  function Stage(g: Game): Game
    requires |g.states| > 0 && Pops(g.states[0])
  {
    match g.states[0]
    case CompressRight => CompressBoard(g, Right)
    case MergeRight => MergeBoard(g, Right)
    case PieceRemoval => RemoveStale(g)
    case AddPiece => g.(shouldAdd := false)
  }

  /** update: a pending move stage runs, and is popped, only when every
      piece has reached its target; an idle or unknown front state changes
      nothing. */
  function Update(g: Game, piecesIdle: bool): Game
    requires |g.states| > 0
  {
    if piecesIdle && Pops(g.states[0]) then Stage(g).(states := g.states[1..]) else g
  }

  /** Every stage keeps the invariant and leaves the state queue alone. */
  lemma StageKeepsInv(g: Game)
    requires Inv(g) && Pops(g.states[0])
    ensures Inv(Stage(g)) && Stage(g).states == g.states
  {
    match g.states[0]
    case CompressRight => CompressBoardKeepsInv(g, Right);
    case MergeRight => MergeBoardKeepsInv(g, Right);
    case PieceRemoval => RemoveStaleKeepsInv(g);
    case AddPiece =>
  }

  /** Popping a state other than the final idle keeps the invariant. */
  lemma PopKeepsInv(g: Game)
    requires Inv(g) && g.states[0] != Idle
    ensures |g.states| > 1 && Inv(g.(states := g.states[1..]))
  {
  }

  /** update keeps the invariant; it pops exactly one state when it acts,
      never pops idle, and does nothing while pieces are moving. */
  lemma UpdateKeepsInv(g: Game, piecesIdle: bool)
    requires Inv(g)
    ensures Inv(Update(g, piecesIdle))
    ensures !piecesIdle || !Pops(g.states[0]) ==> Update(g, piecesIdle) == g
    ensures piecesIdle && Pops(g.states[0]) ==> Update(g, piecesIdle).states == g.states[1..]
  {
    if piecesIdle && Pops(g.states[0]) {
      StageKeepsInv(g);
      PopKeepsInv(Stage(g));
    }
  }

  function UpdateTimes(g: Game, n: nat): Game
    requires Inv(g)
    ensures Inv(UpdateTimes(g, n))
    decreases n
  {
    if n == 0 then g
    else
      UpdateKeepsInv(g, true);
      UpdateTimes(Update(g, true), n - 1)
  }

  /** With settled pieces, update pops a front state it handles. */
  lemma UpdatePopsFront(g: Game)
    requires Inv(g) && Pops(g.states[0])
    ensures Inv(Update(g, true)) && Update(g, true).states == g.states[1..]
  {
    UpdateKeepsInv(g, true);
  }

  lemma PopsShift(s: seq<GameState>, t: seq<GameState>, n: nat)
    requires 0 < n < |s| && t == s[1..]
    requires forall k :: 0 <= k < n ==> Pops(s[k])
    ensures n - 1 < |t| && t[n - 1..] == s[n..]
    ensures forall k :: 0 <= k < n - 1 ==> Pops(t[k])
  {
    forall k | 0 <= k < n - 1
      ensures Pops(t[k])
    {
      assert t[k] == s[k + 1];
    }
  }

  /** With settled pieces, `n` updates pop the first `n` states when they
      are all stages update handles. */
  lemma {:induction false} UpdateTimesPops(g: Game, n: nat)
    requires Inv(g) && n < |g.states|
    requires forall k :: 0 <= k < n ==> Pops(g.states[k])
    ensures UpdateTimes(g, n).states == g.states[n..]
    decreases n
  {
    if n > 0 {
      var u := Update(g, true);
      UpdatePopsFront(g);
      PopsShift(g.states, u.states, n);
      UpdateTimesPops(u, n - 1);
      assert UpdateTimes(g, n) == UpdateTimes(u, n - 1);
    }
  }

  /** From a quiet idle board, a right-arrow press followed by five updates
      with settled pieces runs compress, merge, removal, compress and
      add-piece in that order and returns the queue to idle. */
  lemma RightMoveReturnsToIdle(g: Game)
    requires Inv(g) && g.states == [Idle]
    ensures var k := KeyboardEvent(g, KEY_RIGHT, PRESS);
      && k.states == RIGHT_MOVE
      && Inv(k)
      && UpdateTimes(k, 5).states == [Idle]
  {
    var k := KeyboardEvent(g, KEY_RIGHT, PRESS);
    KeyboardEventKeepsInv(g, KEY_RIGHT, PRESS);
    UpdateTimesPops(k, 5);
  }
}
