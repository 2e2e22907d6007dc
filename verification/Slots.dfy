/** The table of device slots and the operations of the driver on it. */
module Slots {
  import opened Basics
  import opened Words
  import opened Commands

  type BufId = nat

  /** `binded_slot` of a buffer that is not bound. */
  const NO_SLOT := -1

  datatype SlotTable = SlotTable(table: seq<Option<BufId>>, free: int)

  /** The number of empty places. */
  function CountFree(table: seq<Option<BufId>>): nat {
    if table == [] then 0
    else CountFree(table[..|table| - 1]) + (if table[|table| - 1].None? then 1 else 0)
  }

  function EmptyTable(): (table: seq<Option<BufId>>)
    ensures |table| == NUM_SLOTS && CountFree(table) == NUM_SLOTS
  {
    AllFree(seq(NUM_SLOTS, _ => None));
    seq(NUM_SLOTS, _ => None)
  }

  lemma {:induction false} AllFree(table: seq<Option<BufId>>)
    requires forall k :: 0 <= k < |table| ==> table[k].None?
    ensures CountFree(table) == |table|
  {
    if table != [] {
      AllFree(table[..|table| - 1]);
    }
  }

  /** The first empty place, or -1. */
  function FirstFree(table: seq<Option<BufId>>): (slot: int)
    ensures -1 <= slot < |table|
    ensures slot >= 0 ==> table[slot].None?
    ensures slot == -1 <==> forall i :: 0 <= i < |table| ==> table[i].Some?
    ensures forall i :: 0 <= i < slot ==> table[i].Some?
  {
    if table == [] then -1
    else
      var before := FirstFree(table[..|table| - 1]);
      if before >= 0 then before else if table[|table| - 1].None? then |table| - 1 else -1
  }

  /** What `get_slot` answers. */
  function FreeSlot(s: SlotTable): int {
    if s.free > 0 then FirstFree(s.table) else -1
  }

  lemma {:induction false} CountFreeUpdate(table: seq<Option<BufId>>, i: nat, x: Option<BufId>)
    requires i < |table|
    ensures CountFree(table[i := x])
            == CountFree(table) + (if x.None? then 1 else 0) - (if table[i].None? then 1 else 0)
  {
    var n := |table| - 1;
    if i < n {
      CountFreeUpdate(table[..n], i, x);
      assert table[i := x][..n] == table[..n][i := x];
    } else {
      assert table[i := x][..n] == table[..n];
    }
  }

  lemma {:induction false} CountFreePositive(table: seq<Option<BufId>>)
    ensures CountFree(table) > 0 <==> FirstFree(table) >= 0
  {
    if table != [] {
      CountFreePositive(table[..|table| - 1]);
    }
  }

  // ---------- The operations in place ----------

  /** The part of the device structure that concerns slots, with the commands fed on the way. */
  class DeviceSlots {
    var buffSlots: array<Option<BufId>>
    var freeSlots: int
    var bindedSlot: map<BufId, int>
    var fed: seq<Cmd>

    /** Table and buffers agree on who is bound where, and the counter counts the empty places. */
    ghost predicate Valid()
      reads this, buffSlots
    {
      && buffSlots.Length == NUM_SLOTS
      && freeSlots == CountFree(buffSlots[..])
      && (forall i :: 0 <= i < NUM_SLOTS && buffSlots[i].Some? ==>
            buffSlots[i].value in bindedSlot && bindedSlot[buffSlots[i].value] == i)
      && (forall b :: b in bindedSlot && bindedSlot[b] != NO_SLOT ==>
            0 <= bindedSlot[b] < NUM_SLOTS && buffSlots[bindedSlot[b]] == Some(b))
    }

    ghost function View(): SlotTable
      reads this, buffSlots
    {
      SlotTable(buffSlots[..], freeSlots)
    }

    /** Searches for an empty slot. */
    method GetSlot() returns (slot: int)
      requires buffSlots.Length == NUM_SLOTS
      ensures slot == FreeSlot(View())
    {
      slot := -1;
      if freeSlots > 0 {
        var i := 0;
        while i < NUM_SLOTS
          invariant 0 <= i <= NUM_SLOTS && slot == -1
          invariant forall j :: 0 <= j < i ==> buffSlots[j].Some?
        {
          if buffSlots[i].None? {
            slot := i;
            break;
          }
          i := i + 1;
        }
        assert slot == FirstFree(buffSlots[..]);
      }
    }

    /** Binds a buffer that is not bound to an empty slot. */
    method BindSlot(b: BufId, slot: Slot, seed: bv64, allowed: Word, table: bv64)
      requires Valid() && b in bindedSlot && bindedSlot[b] == NO_SLOT
      requires buffSlots[slot].None?
      modifies this, buffSlots
      ensures Valid() && buffSlots == old(buffSlots)
      ensures View() == SlotTable(old(View()).table[slot := Some(b)], old(View()).free - 1)
      ensures bindedSlot == old(bindedSlot)[b := slot]
      ensures fed == old(fed) + [Bind(SlotBits(slot), seed, allowed, table)]
    {
      CountFreeUpdate(buffSlots[..], slot, Some(b));
      freeSlots := freeSlots - 1;
      buffSlots[slot] := Some(b);
      bindedSlot := bindedSlot[b := slot];
      fed := fed + [Bind(SlotBits(slot), seed, allowed, table)];
      assert buffSlots[..] == old(buffSlots[..])[slot := Some(b)];
    }

    /** Unbinds a bound buffer. */
    method UnbindSlot(b: BufId)
      requires Valid() && b in bindedSlot && bindedSlot[b] != NO_SLOT
      modifies this, buffSlots
      ensures Valid() && buffSlots == old(buffSlots)
      ensures View() == SlotTable(old(View()).table[old(bindedSlot)[b] := None], old(View()).free + 1)
      ensures bindedSlot == old(bindedSlot)[b := NO_SLOT]
      ensures fed == old(fed) + [Unbind(SlotBits(old(bindedSlot)[b]))]
    {
      var slot := bindedSlot[b];
      CountFreeUpdate(buffSlots[..], slot, None);
      buffSlots[slot] := None;
      bindedSlot := bindedSlot[b := NO_SLOT];
      freeSlots := freeSlots + 1;
      fed := fed + [Unbind(SlotBits(slot))];
      assert buffSlots[..] == old(buffSlots[..])[slot := None];
    }
  }
}
