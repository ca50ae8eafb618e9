/**
 * The piece table of the later 2048 module: a free-ID list seeded with
 * 0..15, a slot map and an exponent map keyed by piece ID, the occupancy
 * query and the slot choice of add_random. The random draws are inputs.
 */
module Piece2048 {
  import opened Wrappers

  const PIECE_IDS: nat := 16

  datatype Pieces = Pieces(free: seq<nat>, slots: map<nat, nat>, exponents: map<nat, nat>)

  /** Every ID 0..15 is either free (once) or a piece, the two maps hold
      exactly the pieces, and no other ID appears. */
  predicate Inv(p: Pieces)
  {
    && (forall k :: 0 <= k < |p.free| ==> p.free[k] < PIECE_IDS)
    && (forall a, b :: 0 <= a < b < |p.free| ==> p.free[a] != p.free[b])
    && (forall id :: id in p.slots ==> id < PIECE_IDS && id !in p.free)
    && (forall id :: 0 <= id < PIECE_IDS ==> id in p.free || id in p.slots)
    && p.exponents.Keys == p.slots.Keys
  }

  /** The table before any piece exists: IDs 0..15 free in order. */
  function Initial(): (p: Pieces)
    ensures Inv(p) && |p.free| == PIECE_IDS && p.slots == map[]
  {
    var p := Pieces(seq(PIECE_IDS, k => k), map[], map[]);
    assert forall id :: 0 <= id < PIECE_IDS ==> p.free[id] == id && id in p.free;
    p
  }

  /** add: nothing when no ID is free; otherwise the front ID becomes a
      piece at `slot` with `exponent` and leaves the free list. */
  function Add(p: Pieces, slot: nat, exponent: nat): Pieces
  {
    if |p.free| == 0 then p
    else
      var id := p.free[0];
      Pieces(p.free[1..], p.slots[id := slot], p.exponents[id := exponent])
  }

  /** remove as written: the ID leaves both maps and is appended to the
      free list whether or not it was a piece. */
  function RemoveAsWritten(p: Pieces, id: nat): Pieces
  {
    Pieces(p.free + [id], p.slots - {id}, p.exponents - {id})
  }

  /** remove as intended: only a piece's ID goes back to the free list. */
  function Remove(p: Pieces, id: nat): Pieces
  {
    if id !in p.slots then p
    else Pieces(p.free + [id], p.slots - {id}, p.exponents - {id})
  }

  /** is_occupied: some piece sits in `slot`. */
  predicate Occupied(p: Pieces, slot: nat)
  {
    exists id :: id in p.slots && p.slots[id] == slot
  }

  /** The slot add_random settles on: the first draw no piece sits in. */
  function FirstFree(p: Pieces, draws: seq<nat>): Option<nat>
    decreases |draws|
  {
    if |draws| == 0 then None
    else if !Occupied(p, draws[0]) then Some(draws[0])
    else FirstFree(p, draws[1..])
  }

  lemma AddKeepsInv(p: Pieces, slot: nat, exponent: nat)
    requires Inv(p)
    ensures Inv(Add(p, slot, exponent))
    ensures |p.free| > 0 ==>
      var q := Add(p, slot, exponent);
      && p.free[0] !in p.slots && q.slots[p.free[0]] == slot
      && q.exponents[p.free[0]] == exponent && p.free[0] !in q.free
      && |q.free| == |p.free| - 1
  {
    if |p.free| > 0 {
      var q := Add(p, slot, exponent);
      var id := p.free[0];
      assert p.free == [id] + q.free;
      forall i | 0 <= i < PIECE_IDS
        ensures i in q.free || i in q.slots
      {
        if i != id && i in p.free {
          var k :| 0 <= k < |p.free| && p.free[k] == i;
          assert q.free[k - 1] == i;
        }
      }
    }
  }

  lemma RemoveKeepsInv(p: Pieces, id: nat)
    requires Inv(p)
    ensures Inv(Remove(p, id))
    ensures id !in Remove(p, id).slots
    ensures id < PIECE_IDS ==> id in Remove(p, id).free
  {
    if id in p.slots {
      var q := Remove(p, id);
      assert q.free[|q.free| - 1] == id;
    }
  }

  /** Removing a piece just added restores both maps and moves the ID it
      took from the front of the free list to the back. */
  lemma AddThenRemoveRestores(p: Pieces, slot: nat, exponent: nat)
    requires Inv(p) && |p.free| > 0
    ensures Remove(Add(p, slot, exponent), p.free[0])
      == Pieces(p.free[1..] + [p.free[0]], p.slots, p.exponents)
  {
    AddKeepsInv(p, slot, exponent);
  }

  /** A piece added lands in its slot, so the slot reads as occupied. */
  lemma AddOccupies(p: Pieces, slot: nat, exponent: nat)
    requires |p.free| > 0
    ensures Occupied(Add(p, slot, exponent), slot)
  {
    var id := p.free[0];
    assert Add(p, slot, exponent).slots[id] == slot;
  }

  /** The draw chosen is one of the draws, no piece sits in it, and every
      draw before it was taken; no choice means every draw was taken. */
  lemma {:induction false} FirstFreeIsFirstUnoccupied(p: Pieces, draws: seq<nat>)
    ensures FirstFree(p, draws).Some? ==>
      exists k :: 0 <= k < |draws| && draws[k] == FirstFree(p, draws).value
        && !Occupied(p, draws[k]) && forall j :: 0 <= j < k ==> Occupied(p, draws[j])
    ensures FirstFree(p, draws).None? <==> forall k :: 0 <= k < |draws| ==> Occupied(p, draws[k])
    decreases |draws|
  {
    if |draws| > 0 && Occupied(p, draws[0]) {
      FirstFreeIsFirstUnoccupied(p, draws[1..]);
      if FirstFree(p, draws[1..]).Some? {
        var k :| 0 <= k < |draws[1..]| && draws[1..][k] == FirstFree(p, draws[1..]).value
          && !Occupied(p, draws[1..][k]) && forall j :: 0 <= j < k ==> Occupied(p, draws[1..][j]);
        assert draws[k + 1] == draws[1..][k];
        assert forall j :: 0 <= j < k + 1 ==> Occupied(p, draws[j]) by {
          forall j | 0 <= j < k + 1
            ensures Occupied(p, draws[j])
          {
            if j > 0 {
              assert draws[j] == draws[1..][j - 1];
            }
          }
        }
      } else {
        forall k | 0 <= k < |draws|
          ensures Occupied(p, draws[k])
        {
          if k > 0 {
            assert draws[k] == draws[1..][k - 1];
          }
        }
      }
    }
  }

  /** Removing an ID that is already free, as written, appends it a second
      time: with one piece in slot 5 (ID 0), removing the free ID 1 leaves
      16 free entries, ID 1 among them twice, and the invariant broken. */
  lemma RemoveAsWrittenDuplicatesFreeId()
    ensures var p := Add(Initial(), 5, 1);
      var q := RemoveAsWritten(p, 1);
      && Inv(p) && 0 in p.slots && 1 in p.free
      && |q.free| == PIECE_IDS && q.free[0] == 1 && q.free[PIECE_IDS - 1] == 1
      && !Inv(q)
  {
    var p := Add(Initial(), 5, 1);
    AddKeepsInv(Initial(), 5, 1);
    var q := RemoveAsWritten(p, 1);
    assert p.free[0] == 1;
    assert q.free[0] == 1 && q.free[PIECE_IDS - 1] == 1;
  }

  /** Sixteen pieces, ID `k` in slot `k`: every slot of the board is taken. */
  function FullBoard(): (p: Pieces)
    ensures Inv(p) && |p.free| == 0
    ensures forall slot :: 0 <= slot < PIECE_IDS ==> Occupied(p, slot)
  {
    var ids := Initial().free;
    var slots := map id | id in ids :: id;
    var p := Pieces([], slots, map id | id in slots :: 1);
    assert forall slot :: 0 <= slot < PIECE_IDS ==> Occupied(p, slot) by {
      forall slot | 0 <= slot < PIECE_IDS
        ensures Occupied(p, slot)
      {
        assert slot in p.slots && p.slots[slot] == slot;
      }
    }
    p
  }

  /**
   * add_random as written keeps drawing while the drawn slot is taken. On a
   * full board every draw of `pos_distrib` (0..15) is taken, so no sequence
   * of draws, however long, ends the loop.
   */
  lemma AddRandomAsWrittenNeverSettles(draws: seq<nat>)
    requires forall k :: 0 <= k < |draws| ==> draws[k] < PIECE_IDS
    ensures Inv(FullBoard()) && FirstFree(FullBoard(), draws).None?
  {
    FirstFreeIsFirstUnoccupied(FullBoard(), draws);
  }
}

/** The piece table as an object whose methods update its fields, each
    proved against the function of the same name in Piece2048. */
module Piece2048Table {
  import opened Wrappers
  import opened Piece2048

  class PieceTable {
    var free: seq<nat>
    var slots: map<nat, nat>
    var exponents: map<nat, nat>

    function Model(): Pieces
      reads this
    {
      Pieces(free, slots, exponents)
    }

    predicate Valid()
      reads this
    {
      Inv(Model())
    }

    /** The static initialisers: IDs 0..15 free, no piece. */
    constructor ()
      ensures Model() == Initial() && Valid()
    {
      var ids: seq<nat> := [];
      var i: nat := 0;
      while i < PIECE_IDS
        invariant i <= PIECE_IDS && ids == seq(i, k => k)
      {
        ids := ids + [i];
        i := i + 1;
      }
      free := ids;
      slots := map[];
      exponents := map[];
      new;
      assert Model() == Initial();
    }

    method Add(slot: nat, exponent: nat)
      requires Valid()
      modifies this
      ensures Valid() && Model() == Piece2048.Add(old(Model()), slot, exponent)
    {
      if |free| != 0 {
        var id := free[0];
        slots := slots[id := slot];
        exponents := exponents[id := exponent];
        free := free[1..];
      }
      AddKeepsInv(old(Model()), slot, exponent);
    }

    method Remove(id: nat)
      requires Valid()
      modifies this
      ensures Valid() && Model() == Piece2048.Remove(old(Model()), id)
    {
      if id in slots {
        slots := slots - {id};
        exponents := exponents - {id};
        free := free + [id];
      }
      RemoveKeepsInv(old(Model()), id);
    }

    /** is_occupied: a scan over the pieces for one in `slot`. */
    method IsOccupied(slot: nat) returns (r: bool)
      ensures r <==> Occupied(Model(), slot)
    {
      var ids := slots.Keys;
      while ids != {}
        invariant ids <= slots.Keys
        invariant forall id :: id in slots && id !in ids ==> slots[id] != slot
        decreases |ids|
      {
        var id :| id in ids;
        if slots[id] == slot {
          return true;
        }
        ids := ids - {id};
      }
      return false;
    }

    /** add_random, given the exponent and the sequence of slot draws: keep
        drawing while the slot is taken, then add a piece there. */
    method AddRandom(exponent: nat, draws: seq<nat>) returns (chosen: Option<nat>)
      requires Valid() && 1 <= exponent <= 2
      modifies this
      ensures Valid() && chosen == FirstFree(old(Model()), draws)
      ensures chosen.Some? ==> Model() == Piece2048.Add(old(Model()), chosen.value, exponent)
      ensures chosen.None? ==> Model() == old(Model())
    {
      chosen := None;
      var k := 0;
      while k < |draws| && chosen.None?
        invariant k <= |draws| && Model() == old(Model())
        invariant chosen.None? ==> FirstFree(Model(), draws) == FirstFree(Model(), draws[k..])
        invariant chosen.Some? ==> chosen == FirstFree(Model(), draws)
        decreases |draws| - k, chosen.None?
      {
        assert draws[k..][1..] == draws[k + 1..];
        var taken := IsOccupied(draws[k]);
        if !taken {
          chosen := Some(draws[k]);
        } else {
          k := k + 1;
        }
      }
      if chosen.Some? {
        Add(chosen.value, exponent);
      }
    }
  }
}
