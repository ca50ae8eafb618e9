// Board elements of the 2048 module and the compress/merge tables that
// retarget pieces along one row or column.
//
// A row or column ("line") is read as four positions 0..3. In a row `i` the
// piece at position `p` sits in slot `p + 4 * i`; in a column `i` it sits in
// slot `i + 4 * p`. A table names, for each retargeted position, the slot
// the piece at that position must move to.
module Board2048 {

  /** The sixteen occupancy patterns of a line: X a piece, O an empty slot,
      positions 0..3 read left to right. */
  datatype Config =
    | OOOO | XOOO | OXOO | OOXO | OOOX
    | XXOO | XOXO | XOOX | OXXO | OXOX | OOXX
    | XXXO | XXOX | XOXX | OXXX | XXXX

  function Occupancy(c: Config): (r: seq<bool>)
    ensures |r| == 4
  {
    match c
    case OOOO => [false, false, false, false]
    case XOOO => [true, false, false, false]
    case OXOO => [false, true, false, false]
    case OOXO => [false, false, true, false]
    case OOOX => [false, false, false, true]
    case XXOO => [true, true, false, false]
    case XOXO => [true, false, true, false]
    case XOOX => [true, false, false, true]
    case OXXO => [false, true, true, false]
    case OXOX => [false, true, false, true]
    case OOXX => [false, false, true, true]
    case XXXO => [true, true, true, false]
    case XXOX => [true, true, false, true]
    case XOXX => [true, false, true, true]
    case OXXX => [false, true, true, true]
    case XXXX => [true, true, true, true]
  }

  /** The pattern of four occupancy flags. */
  function ConfigOf(occ: seq<bool>): (c: Config)
    requires |occ| == 4
    ensures Occupancy(c) == occ
  {
    if occ[0] then
      if occ[1] then
        if occ[2] then (if occ[3] then XXXX else XXXO)
        else (if occ[3] then XXOX else XXOO)
      else
        if occ[2] then (if occ[3] then XOXX else XOXO)
        else (if occ[3] then XOOX else XOOO)
    else
      if occ[1] then
        if occ[2] then (if occ[3] then OXXX else OXXO)
        else (if occ[3] then OXOX else OXOO)
      else
        if occ[2] then (if occ[3] then OOXX else OOXO)
        else (if occ[3] then OOOX else OOOO)
  }

  /** A board element as the tables see it: the pattern of a line and the
      piece ID at each position (meaningful only where the pattern has X). */
  datatype Element = Element(config: Config, data: seq<nat>)

  predicate WellFormed(e: Element)
  {
    |e.data| == 4
  }

  /** "Move the piece at position `pos` to slot `slot`." */
  datatype Retarget = Retarget(pos: nat, slot: nat)

  /** The outcome of merging one line: no merge, or the retargets, the
      position whose piece absorbs the other (its exponent is raised) and the
      position whose piece is marked stale. */
  datatype Merge = NoMerge | Merged(moves: seq<Retarget>, raised: nat, stale: nat)

  // ---------------------------------------------------------------------
  // Reference definitions: packed lines and the ranks of pieces in them
  // ---------------------------------------------------------------------

  function Bit(b: bool): nat { if b then 1 else 0 }

  /** Number of pieces strictly before position `k`. */
  function Rank(occ: seq<bool>, k: nat): nat
    requires |occ| == 4
  {
    (if k > 0 then Bit(occ[0]) else 0)
    + (if k > 1 then Bit(occ[1]) else 0)
    + (if k > 2 then Bit(occ[2]) else 0)
    + (if k > 3 then Bit(occ[3]) else 0)
  }

  function Count(occ: seq<bool>): nat
    requires |occ| == 4
  {
    Rank(occ, 4)
  }

  /** No empty position lies between a piece and the end (position 3). */
  predicate PackedToEnd(occ: seq<bool>)
    requires |occ| == 4
  {
    (occ[0] ==> occ[1]) && (occ[1] ==> occ[2]) && (occ[2] ==> occ[3])
  }

  /** No empty position lies between a piece and the start (position 0). */
  predicate PackedToStart(occ: seq<bool>)
    requires |occ| == 4
  {
    (occ[3] ==> occ[2]) && (occ[2] ==> occ[1]) && (occ[1] ==> occ[0])
  }

  /** The slot a retarget list sends position `pos` to, `stay` if none. */
  function FinalSlot(moves: seq<Retarget>, pos: nat, stay: nat): nat
  {
    if |moves| == 0 then stay
    else if moves[|moves| - 1].pos == pos then moves[|moves| - 1].slot
    else FinalSlot(moves[..|moves| - 1], pos, stay)
  }

  /** The last retarget of a position wins, in lists of two and three. */
  lemma FinalSlotUnfold()
    ensures forall a: Retarget, b: Retarget, pos: nat, stay: nat ::
      FinalSlot([a, b], pos, stay)
        == if b.pos == pos then b.slot else if a.pos == pos then a.slot else stay
    ensures forall a: Retarget, b: Retarget, d: Retarget, pos: nat, stay: nat ::
      FinalSlot([a, b, d], pos, stay)
        == if d.pos == pos then d.slot
           else if b.pos == pos then b.slot
           else if a.pos == pos then a.slot
           else stay
  {
    forall a: Retarget, b: Retarget, pos: nat, stay: nat
      ensures FinalSlot([a, b], pos, stay)
        == if b.pos == pos then b.slot else if a.pos == pos then a.slot else stay
    {
      assert [a, b][..1] == [a];
      assert [a][..0] == [];
      assert FinalSlot([a], pos, stay) == if a.pos == pos then a.slot else stay;
    }
    forall a: Retarget, b: Retarget, d: Retarget, pos: nat, stay: nat
      ensures FinalSlot([a, b, d], pos, stay)
        == if d.pos == pos then d.slot
           else if b.pos == pos then b.slot
           else if a.pos == pos then a.slot
           else stay
    {
      assert [a, b, d][..2] == [a, b];
      assert [a, b][..1] == [a];
      assert [a][..0] == [];
      assert FinalSlot([a], pos, stay) == if a.pos == pos then a.slot else stay;
      assert FinalSlot([a, b], pos, stay) == if b.pos == pos then b.slot else FinalSlot([a], pos, stay);
    }
  }

  predicate MovesOnlyPieces(moves: seq<Retarget>, occ: seq<bool>)
    requires |occ| == 4
  {
    forall m :: m in moves ==> m.pos < 4 && occ[m.pos]
  }

  // ---------------------------------------------------------------------
  // Compression tables
  // ---------------------------------------------------------------------

  /** compress_right for row `i`, as written: the OXXO case omits the row
      offset and always targets slots 2 and 3. */
  function CompressRightAsWritten(c: Config, i: nat): (r: seq<Retarget>)
    ensures c != OXXO ==> r == CompressRight(c, i)
  {
    if c == OXXO then [Retarget(1, 2), Retarget(2, 3)] else CompressRight(c, i)
  }

  /** compress_right for row `i` with the row offset applied in every case. */
  function CompressRight(c: Config, i: nat): seq<Retarget>
  {
    match c
    case XOOO => [Retarget(0, 3 + i * 4)]
    case OXOO => [Retarget(1, 3 + i * 4)]
    case OOXO => [Retarget(2, 3 + i * 4)]
    case XXOO => [Retarget(0, 2 + i * 4), Retarget(1, 3 + i * 4)]
    case XOXO => [Retarget(0, 2 + i * 4), Retarget(2, 3 + i * 4)]
    case XOOX => [Retarget(0, 2 + i * 4)]
    case OXXO => [Retarget(1, 2 + i * 4), Retarget(2, 3 + i * 4)]
    case OXOX => [Retarget(1, 2 + i * 4)]
    case XXXO => [Retarget(0, 1 + i * 4), Retarget(1, 2 + i * 4), Retarget(2, 3 + i * 4)]
    case XXOX => [Retarget(0, 1 + i * 4), Retarget(1, 2 + i * 4)]
    case XOXX => [Retarget(0, 1 + i * 4)]
    case _ => []
  }

  /** compress_up for column `i`. */
  function CompressUp(c: Config, i: nat): seq<Retarget>
  {
    match c
    case OXOO => [Retarget(1, i)]
    case OOXO => [Retarget(2, i)]
    case OOOX => [Retarget(3, i)]
    case XOXO => [Retarget(2, i + 4)]
    case XOOX => [Retarget(3, i + 4)]
    case OXXO => [Retarget(1, i), Retarget(2, i + 4)]
    case OXOX => [Retarget(1, i), Retarget(3, i + 4)]
    case OOXX => [Retarget(2, i), Retarget(3, i + 4)]
    case XXOX => [Retarget(3, i + 4 * 2)]
    case XOXX => [Retarget(2, i + 4), Retarget(3, i + 4 * 2)]
    case OXXX => [Retarget(1, i), Retarget(2, i + 4), Retarget(3, i + 4 * 2)]
    case _ => []
  }

  /** compress_down for column `i`. */
  function CompressDown(c: Config, i: nat): seq<Retarget>
  {
    match c
    case XOOO => [Retarget(0, i + 4 * 3)]
    case OXOO => [Retarget(1, i + 4 * 3)]
    case OOXO => [Retarget(2, i + 4 * 3)]
    case OXOX => [Retarget(1, i + 4 * 2)]
    case XOOX => [Retarget(0, i + 4 * 2)]
    case OXXO => [Retarget(1, i + 4 * 2), Retarget(2, i + 4 * 3)]
    case XXOO => [Retarget(0, i + 4 * 2), Retarget(1, i + 4 * 3)]
    case XOXO => [Retarget(0, i + 4 * 2), Retarget(2, i + 4 * 3)]
    case XOXX => [Retarget(0, i + 4)]
    case XXOX => [Retarget(0, i + 4), Retarget(1, i + 4 * 2)]
    case XXXO => [Retarget(0, i + 4), Retarget(1, i + 4 * 2), Retarget(2, i + 4 * 3)]
    case _ => []
  }

  /** Compressing a row to the right moves only pieces, sends the piece at
      position `k` to the slot of row `i` whose column is its rank among the
      row's pieces counted from the right wall, and moves something exactly
      when the row is not already packed to the right. */
  lemma CompressRightPacks(c: Config, i: nat)
    ensures MovesOnlyPieces(CompressRight(c, i), Occupancy(c))
    ensures forall k :: 0 <= k < 4 && Occupancy(c)[k] ==>
      FinalSlot(CompressRight(c, i), k, k + 4 * i)
        == 4 - Count(Occupancy(c)) + Rank(Occupancy(c), k) + 4 * i
    ensures |CompressRight(c, i)| > 0 <==> !PackedToEnd(Occupancy(c))
  {
    FinalSlotUnfold();
    match c
    case OOOO =>
    case XOOO =>
    case OXOO =>
    case OOXO =>
    case OOOX =>
    case XXOO =>
    case XOXO =>
    case XOOX =>
    case OXXO =>
    case OXOX =>
    case OOXX =>
    case XXXO =>
    case XXOX =>
    case XOXX =>
    case OXXX =>
    case XXXX =>
  }

  /** The as-written OXXO case of compress_right sends the pieces of row 1
      into slots 2 and 3, which belong to row 0. */
  lemma CompressRightAsWrittenLeavesRow()
    ensures CompressRightAsWritten(OXXO, 1) == [Retarget(1, 2), Retarget(2, 3)]
    ensures FinalSlot(CompressRightAsWritten(OXXO, 1), 1, 1 + 4) / 4 == 0
    ensures FinalSlot(CompressRightAsWritten(OXXO, 1), 1, 1 + 4)
      != 4 - Count(Occupancy(OXXO)) + Rank(Occupancy(OXXO), 1) + 4 * 1
  {
  }

  /** Compressing a column upwards packs its pieces towards row 0 in order. */
  lemma CompressUpPacks(c: Config, i: nat)
    ensures MovesOnlyPieces(CompressUp(c, i), Occupancy(c))
    ensures forall k :: 0 <= k < 4 && Occupancy(c)[k] ==>
      FinalSlot(CompressUp(c, i), k, i + 4 * k) == i + 4 * Rank(Occupancy(c), k)
    ensures |CompressUp(c, i)| > 0 <==> !PackedToStart(Occupancy(c))
  {
    FinalSlotUnfold();
    match c
    case OOOO =>
    case XOOO =>
    case OXOO =>
    case OOXO =>
    case OOOX =>
    case XXOO =>
    case XOXO =>
    case XOOX =>
    case OXXO =>
    case OXOX =>
    case OOXX =>
    case XXXO =>
    case XXOX =>
    case XOXX =>
    case OXXX =>
    case XXXX =>
  }

  /** Compressing a column downwards packs its pieces towards row 3 in order. */
  lemma CompressDownPacks(c: Config, i: nat)
    ensures MovesOnlyPieces(CompressDown(c, i), Occupancy(c))
    ensures forall k :: 0 <= k < 4 && Occupancy(c)[k] ==>
      FinalSlot(CompressDown(c, i), k, i + 4 * k)
        == i + 4 * (4 - Count(Occupancy(c)) + Rank(Occupancy(c), k))
    ensures |CompressDown(c, i)| > 0 <==> !PackedToEnd(Occupancy(c))
  {
    FinalSlotUnfold();
    match c
    case OOOO =>
    case XOOO =>
    case OXOO =>
    case OOXO =>
    case OOOX =>
    case XXOO =>
    case XOXO =>
    case XOOX =>
    case OXXO =>
    case OXOX =>
    case OOXX =>
    case XXXO =>
    case XXOX =>
    case XOXX =>
    case OXXX =>
    case XXXX =>
  }

  // ---------------------------------------------------------------------
  // Merge tables; `e` holds the exponent of the piece at each position
  // ---------------------------------------------------------------------

  /** merge_right for row `i`: the rightmost equal pair merges into the
      right slot and the pieces left of it follow. */
  function MergeRight(c: Config, e: seq<nat>, i: nat): Merge
    requires |e| == 4
  {
    match c
    case OOXX =>
      if e[2] == e[3] then Merged([Retarget(2, 3 + i * 4)], 2, 3)
      else NoMerge
    case OXXX =>
      if e[2] == e[3] then Merged([Retarget(1, 2 + i * 4), Retarget(2, 3 + i * 4)], 2, 3)
      else if e[1] == e[2] then Merged([Retarget(1, 2 + i * 4)], 1, 2)
      else NoMerge
    case XXXX =>
      if e[2] == e[3] then
        Merged([Retarget(0, 1 + i * 4), Retarget(1, 2 + i * 4), Retarget(2, 3 + i * 4)], 2, 3)
      else if e[1] == e[2] then Merged([Retarget(0, 1 + i * 4), Retarget(1, 2 + i * 4)], 1, 2)
      else if e[0] == e[1] then Merged([Retarget(0, 1 + i * 4)], 0, 1)
      else NoMerge
    case _ => NoMerge
  }

  /** merge_up for column `i`: the topmost equal pair merges into the upper
      slot and the pieces below it follow. */
  function MergeUp(c: Config, e: seq<nat>, i: nat): Merge
    requires |e| == 4
  {
    match c
    case XXOO =>
      if e[0] == e[1] then Merged([Retarget(1, i)], 1, 0)
      else NoMerge
    case XXXO =>
      if e[0] == e[1] then Merged([Retarget(1, i), Retarget(2, i + 4)], 1, 0)
      else if e[1] == e[2] then Merged([Retarget(2, i + 4)], 2, 1)
      else NoMerge
    case XXXX =>
      if e[0] == e[1] then
        Merged([Retarget(1, i), Retarget(2, i + 4), Retarget(3, i + 4 * 2)], 1, 0)
      else if e[1] == e[2] then Merged([Retarget(2, i + 4), Retarget(3, i + 4 * 2)], 2, 1)
      else if e[2] == e[3] then Merged([Retarget(3, i + 4 * 2)], 3, 2)
      else NoMerge
    case _ => NoMerge
  }

  /** merge_down for column `i`: the bottommost equal pair merges into the
      lower slot and the pieces above it follow. */
  function MergeDown(c: Config, e: seq<nat>, i: nat): Merge
    requires |e| == 4
  {
    match c
    case OOXX =>
      if e[2] == e[3] then Merged([Retarget(2, i + 4 * 3)], 2, 3)
      else NoMerge
    case OXXX =>
      if e[2] == e[3] then Merged([Retarget(1, i + 4 * 2), Retarget(2, i + 4 * 3)], 2, 3)
      else if e[1] == e[2] then Merged([Retarget(1, i + 4 * 2)], 1, 2)
      else NoMerge
    case XXXX =>
      if e[2] == e[3] then
        Merged([Retarget(0, i + 4), Retarget(1, i + 4 * 2), Retarget(2, i + 4 * 3)], 2, 3)
      else if e[1] == e[2] then Merged([Retarget(0, i + 4), Retarget(1, i + 4 * 2)], 1, 2)
      else if e[0] == e[1] then Merged([Retarget(0, i + 4)], 0, 1)
      else NoMerge
    case _ => NoMerge
  }

  /** Some two neighbouring pieces of the line have equal exponents. */
  predicate HasEqualPair(occ: seq<bool>, e: seq<nat>)
    requires |occ| == 4 && |e| == 4
  {
    || (occ[0] && occ[1] && e[0] == e[1])
    || (occ[1] && occ[2] && e[1] == e[2])
    || (occ[2] && occ[3] && e[2] == e[3])
  }

  /** On a row packed to the right, merge_right merges exactly when two
      neighbours are equal; it takes the rightmost such pair, the left piece
      absorbs the right one and takes its slot, pieces further left shift one
      slot right and pieces further right stay. A row that is not packed is
      never merged. */
  lemma MergeRightTakesRightmostPair(c: Config, e: seq<nat>, i: nat)
    requires |e| == 4
    ensures !PackedToEnd(Occupancy(c)) ==> MergeRight(c, e, i) == NoMerge
    ensures PackedToEnd(Occupancy(c)) ==>
      (MergeRight(c, e, i).Merged? <==> HasEqualPair(Occupancy(c), e))
    ensures MergeRight(c, e, i).Merged? ==>
      var m := MergeRight(c, e, i);
      && 1 <= m.stale < 4 && m.raised == m.stale - 1
      && Occupancy(c)[m.raised] && Occupancy(c)[m.stale] && e[m.raised] == e[m.stale]
      && (forall j :: m.stale < j < 4 ==> e[j - 1] != e[j])
      && MovesOnlyPieces(m.moves, Occupancy(c))
      && FinalSlot(m.moves, m.raised, m.raised + 4 * i) == m.stale + 4 * i
      && (forall j :: 0 <= j < m.raised && Occupancy(c)[j] ==>
            FinalSlot(m.moves, j, j + 4 * i) == j + 1 + 4 * i)
      && (forall j :: m.stale < j < 4 && Occupancy(c)[j] ==>
            FinalSlot(m.moves, j, j + 4 * i) == j + 4 * i)
  {
    MergeRightChoice(c, e, i);
    MergeRightMoves(c, e, i);
    MergeRightShifts(c, e, i);
  }

  /** Whether merge_right merges, and the pair it picks. */
  lemma MergeRightChoice(c: Config, e: seq<nat>, i: nat)
    requires |e| == 4
    ensures !PackedToEnd(Occupancy(c)) ==> MergeRight(c, e, i) == NoMerge
    ensures PackedToEnd(Occupancy(c)) ==>
      (MergeRight(c, e, i).Merged? <==> HasEqualPair(Occupancy(c), e))
    ensures MergeRight(c, e, i).Merged? ==>
      var m := MergeRight(c, e, i);
      && 1 <= m.stale < 4 && m.raised == m.stale - 1
      && Occupancy(c)[m.raised] && Occupancy(c)[m.stale] && e[m.raised] == e[m.stale]
      && (forall j :: m.stale < j < 4 ==> e[j - 1] != e[j])
  {
    match c
    case OOOO =>
    case XOOO =>
    case OXOO =>
    case OOXO =>
    case OOOX =>
    case XXOO =>
    case XOXO =>
    case XOOX =>
    case OXXO =>
    case OXOX =>
    case OOXX =>
    case XXXO =>
    case XXOX =>
    case XOXX =>
    case OXXX =>
    case XXXX =>
  }

  /** merge_right moves only pieces, and the absorbing piece onto the absorbed one's slot. */
  lemma MergeRightMoves(c: Config, e: seq<nat>, i: nat)
    requires |e| == 4
    ensures MergeRight(c, e, i).Merged? ==>
      var m := MergeRight(c, e, i);
      && MovesOnlyPieces(m.moves, Occupancy(c))
      && FinalSlot(m.moves, m.raised, m.raised + 4 * i) == m.stale + 4 * i
  {
    FinalSlotUnfold();
    match c
    case OOOO =>
    case XOOO =>
    case OXOO =>
    case OOXO =>
    case OOOX =>
    case XXOO =>
    case XOXO =>
    case XOOX =>
    case OXXO =>
    case OXOX =>
    case OOXX =>
    case XXXO =>
    case XXOX =>
    case XOXX =>
    case OXXX =>
    case XXXX =>
  }

  /** Where merge_right sends the pieces outside the merging pair. */
  lemma MergeRightShifts(c: Config, e: seq<nat>, i: nat)
    requires |e| == 4
    ensures MergeRight(c, e, i).Merged? ==>
      var m := MergeRight(c, e, i);
      (forall j :: 0 <= j < m.raised && Occupancy(c)[j] ==>
            FinalSlot(m.moves, j, j + 4 * i) == j + 1 + 4 * i)
      && (forall j :: m.stale < j < 4 && Occupancy(c)[j] ==>
            FinalSlot(m.moves, j, j + 4 * i) == j + 4 * i)
  {
    FinalSlotUnfold();
    match c
    case OOOO =>
    case XOOO =>
    case OXOO =>
    case OOXO =>
    case OOOX =>
    case XXOO =>
    case XOXO =>
    case XOOX =>
    case OXXO =>
    case OXOX =>
    case OOXX =>
    case XXXO =>
    case XXOX =>
    case XOXX =>
    case OXXX =>
    case XXXX =>
  }

  /** On a column packed upwards, merge_up merges exactly when two
      neighbours are equal; it takes the topmost such pair, the lower piece
      absorbs the upper one and takes its slot, pieces further down shift one
      row up and pieces above stay. */
  lemma MergeUpTakesTopmostPair(c: Config, e: seq<nat>, i: nat)
    requires |e| == 4
    ensures !PackedToStart(Occupancy(c)) ==> MergeUp(c, e, i) == NoMerge
    ensures PackedToStart(Occupancy(c)) ==>
      (MergeUp(c, e, i).Merged? <==> HasEqualPair(Occupancy(c), e))
    ensures MergeUp(c, e, i).Merged? ==>
      var m := MergeUp(c, e, i);
      && 0 <= m.stale < 3 && m.raised == m.stale + 1
      && Occupancy(c)[m.raised] && Occupancy(c)[m.stale] && e[m.raised] == e[m.stale]
      && (forall j :: 0 <= j < m.stale ==> e[j] != e[j + 1])
      && MovesOnlyPieces(m.moves, Occupancy(c))
      && FinalSlot(m.moves, m.raised, i + 4 * m.raised) == i + 4 * m.stale
      && (forall j :: m.raised < j < 4 && Occupancy(c)[j] ==>
            FinalSlot(m.moves, j, i + 4 * j) == i + 4 * (j - 1))
      && (forall j :: 0 <= j < m.stale && Occupancy(c)[j] ==>
            FinalSlot(m.moves, j, i + 4 * j) == i + 4 * j)
  {
    MergeUpChoice(c, e, i);
    MergeUpMoves(c, e, i);
    MergeUpShifts(c, e, i);
  }

  /** Whether merge_up merges, and the pair it picks. */
  lemma MergeUpChoice(c: Config, e: seq<nat>, i: nat)
    requires |e| == 4
    ensures !PackedToStart(Occupancy(c)) ==> MergeUp(c, e, i) == NoMerge
    ensures PackedToStart(Occupancy(c)) ==>
      (MergeUp(c, e, i).Merged? <==> HasEqualPair(Occupancy(c), e))
    ensures MergeUp(c, e, i).Merged? ==>
      var m := MergeUp(c, e, i);
      && 0 <= m.stale < 3 && m.raised == m.stale + 1
      && Occupancy(c)[m.raised] && Occupancy(c)[m.stale] && e[m.raised] == e[m.stale]
      && (forall j :: 0 <= j < m.stale ==> e[j] != e[j + 1])
  {
    match c
    case OOOO =>
    case XOOO =>
    case OXOO =>
    case OOXO =>
    case OOOX =>
    case XXOO =>
    case XOXO =>
    case XOOX =>
    case OXXO =>
    case OXOX =>
    case OOXX =>
    case XXXO =>
    case XXOX =>
    case XOXX =>
    case OXXX =>
    case XXXX =>
  }

  /** merge_up moves only pieces, and the absorbing piece onto the absorbed one's slot. */
  lemma MergeUpMoves(c: Config, e: seq<nat>, i: nat)
    requires |e| == 4
    ensures MergeUp(c, e, i).Merged? ==>
      var m := MergeUp(c, e, i);
      && MovesOnlyPieces(m.moves, Occupancy(c))
      && FinalSlot(m.moves, m.raised, i + 4 * m.raised) == i + 4 * m.stale
  {
    FinalSlotUnfold();
    match c
    case OOOO =>
    case XOOO =>
    case OXOO =>
    case OOXO =>
    case OOOX =>
    case XXOO =>
    case XOXO =>
    case XOOX =>
    case OXXO =>
    case OXOX =>
    case OOXX =>
    case XXXO =>
    case XXOX =>
    case XOXX =>
    case OXXX =>
    case XXXX =>
  }

  /** Where merge_up sends the pieces outside the merging pair. */
  lemma MergeUpShifts(c: Config, e: seq<nat>, i: nat)
    requires |e| == 4
    ensures MergeUp(c, e, i).Merged? ==>
      var m := MergeUp(c, e, i);
      (forall j :: m.raised < j < 4 && Occupancy(c)[j] ==>
            FinalSlot(m.moves, j, i + 4 * j) == i + 4 * (j - 1))
      && (forall j :: 0 <= j < m.stale && Occupancy(c)[j] ==>
            FinalSlot(m.moves, j, i + 4 * j) == i + 4 * j)
  {
    FinalSlotUnfold();
    match c
    case OOOO =>
    case XOOO =>
    case OXOO =>
    case OOXO =>
    case OOOX =>
    case XXOO =>
    case XOXO =>
    case XOOX =>
    case OXXO =>
    case OXOX =>
    case OOXX =>
    case XXXO =>
    case XXOX =>
    case XOXX =>
    case OXXX =>
    case XXXX =>
  }

  /** On a column packed downwards, merge_down merges exactly when two
      neighbours are equal; it takes the bottommost such pair, the upper
      piece absorbs the lower one and takes its slot, pieces further up shift
      one row down and pieces below stay. */
  lemma MergeDownTakesBottommostPair(c: Config, e: seq<nat>, i: nat)
    requires |e| == 4
    ensures !PackedToEnd(Occupancy(c)) ==> MergeDown(c, e, i) == NoMerge
    ensures PackedToEnd(Occupancy(c)) ==>
      (MergeDown(c, e, i).Merged? <==> HasEqualPair(Occupancy(c), e))
    ensures MergeDown(c, e, i).Merged? ==>
      var m := MergeDown(c, e, i);
      && 1 <= m.stale < 4 && m.raised == m.stale - 1
      && Occupancy(c)[m.raised] && Occupancy(c)[m.stale] && e[m.raised] == e[m.stale]
      && (forall j :: m.stale < j < 4 ==> e[j - 1] != e[j])
      && MovesOnlyPieces(m.moves, Occupancy(c))
      && FinalSlot(m.moves, m.raised, i + 4 * m.raised) == i + 4 * m.stale
      && (forall j :: 0 <= j < m.raised && Occupancy(c)[j] ==>
            FinalSlot(m.moves, j, i + 4 * j) == i + 4 * (j + 1))
      && (forall j :: m.stale < j < 4 && Occupancy(c)[j] ==>
            FinalSlot(m.moves, j, i + 4 * j) == i + 4 * j)
  {
    MergeDownChoice(c, e, i);
    MergeDownMoves(c, e, i);
    MergeDownShifts(c, e, i);
  }

  /** Whether merge_down merges, and the pair it picks. */
  lemma MergeDownChoice(c: Config, e: seq<nat>, i: nat)
    requires |e| == 4
    ensures !PackedToEnd(Occupancy(c)) ==> MergeDown(c, e, i) == NoMerge
    ensures PackedToEnd(Occupancy(c)) ==>
      (MergeDown(c, e, i).Merged? <==> HasEqualPair(Occupancy(c), e))
    ensures MergeDown(c, e, i).Merged? ==>
      var m := MergeDown(c, e, i);
      && 1 <= m.stale < 4 && m.raised == m.stale - 1
      && Occupancy(c)[m.raised] && Occupancy(c)[m.stale] && e[m.raised] == e[m.stale]
      && (forall j :: m.stale < j < 4 ==> e[j - 1] != e[j])
  {
    match c
    case OOOO =>
    case XOOO =>
    case OXOO =>
    case OOXO =>
    case OOOX =>
    case XXOO =>
    case XOXO =>
    case XOOX =>
    case OXXO =>
    case OXOX =>
    case OOXX =>
    case XXXO =>
    case XXOX =>
    case XOXX =>
    case OXXX =>
    case XXXX =>
  }

  /** merge_down moves only pieces, and the absorbing piece onto the absorbed one's slot. */
  lemma MergeDownMoves(c: Config, e: seq<nat>, i: nat)
    requires |e| == 4
    ensures MergeDown(c, e, i).Merged? ==>
      var m := MergeDown(c, e, i);
      && MovesOnlyPieces(m.moves, Occupancy(c))
      && FinalSlot(m.moves, m.raised, i + 4 * m.raised) == i + 4 * m.stale
  {
    FinalSlotUnfold();
    match c
    case OOOO =>
    case XOOO =>
    case OXOO =>
    case OOXO =>
    case OOOX =>
    case XXOO =>
    case XOXO =>
    case XOOX =>
    case OXXO =>
    case OXOX =>
    case OOXX =>
    case XXXO =>
    case XXOX =>
    case XOXX =>
    case OXXX =>
    case XXXX =>
  }

  /** Where merge_down sends the pieces outside the merging pair. */
  lemma MergeDownShifts(c: Config, e: seq<nat>, i: nat)
    requires |e| == 4
    ensures MergeDown(c, e, i).Merged? ==>
      var m := MergeDown(c, e, i);
      (forall j :: 0 <= j < m.raised && Occupancy(c)[j] ==>
            FinalSlot(m.moves, j, i + 4 * j) == i + 4 * (j + 1))
      && (forall j :: m.stale < j < 4 && Occupancy(c)[j] ==>
            FinalSlot(m.moves, j, i + 4 * j) == i + 4 * j)
  {
    FinalSlotUnfold();
    match c
    case OOOO =>
    case XOOO =>
    case OXOO =>
    case OOXO =>
    case OOOX =>
    case XXOO =>
    case XOXO =>
    case XOOX =>
    case OXXO =>
    case OXOX =>
    case OOXX =>
    case XXXO =>
    case XXOX =>
    case XOXX =>
    case OXXX =>
    case XXXX =>
  }
}
