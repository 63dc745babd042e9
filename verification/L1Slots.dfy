/**
 The fixed table of L1 collections: which slot a new collection gets, and how a
 finished collector is taken out. The functions say what the table becomes; the
 class walks the array the way the consumer does.
 */
module L1Slots {
  import opened Wrappers
  import opened MacAddress
  import opened DclState

  /** Lowest index at or after i that holds v, or |slots|. */
  function FindFrom(slots: seq<Option<nat>>, v: Option<nat>, i: nat): (r: nat)
    requires i <= |slots|
    ensures i <= r <= |slots|
    ensures forall k | i <= k < r :: slots[k] != v
    ensures r < |slots| ==> slots[r] == v
    decreases |slots| - i
  {
    if i == |slots| || slots[i] == v then i else FindFrom(slots, v, i + 1)
  }

  predicate HoldsMac(slots: seq<Option<nat>>, coll: map<nat, Collector>, k: nat, mac: Mac)
    requires k < |slots|
  {
    slots[k].Some? && slots[k].value in coll && coll[slots[k].value].mac == mac
  }

  predicate InProgress(slots: seq<Option<nat>>, coll: map<nat, Collector>, mac: Mac) {
    exists k | 0 <= k < |slots| :: HoldsMac(slots, coll, k, mac)
  }

  /** The slot a start for mac is given: none if disabled, in progress already, or full. */
  function Admit(slots: seq<Option<nat>>, coll: map<nat, Collector>, disabled: bool, mac: Mac): Option<nat> {
    var free := FindFrom(slots, None, 0);
    if disabled || InProgress(slots, coll, mac) || free == |slots| then None else Some(free)
  }

  /** Takes a collector out of the first slot that points to it. */
  function Evict(slots: seq<Option<nat>>, c: nat): seq<Option<nat>> {
    var k := FindFrom(slots, Some(c), 0);
    if k == |slots| then slots else slots[k := None]
  }

  /** A start is admitted exactly if starts are allowed, no slot has the MAC and one is free; it gets the lowest free one. */
  lemma AdmittedIff(slots: seq<Option<nat>>, coll: map<nat, Collector>, disabled: bool, mac: Mac)
    ensures Admit(slots, coll, disabled, mac).Some? <==>
            && !disabled && None in slots
            && forall k | 0 <= k < |slots| && slots[k].Some? && slots[k].value in coll :: coll[slots[k].value].mac != mac
    ensures var a := Admit(slots, coll, disabled, mac);
            a.Some? ==> a.value < |slots| && slots[a.value] == None && None !in slots[..a.value]
  {
    assert forall k | 0 <= k < |slots| && slots[k].Some? && slots[k].value in coll && coll[slots[k].value].mac == mac ::
             HoldsMac(slots, coll, k, mac);
  }

  /** Exactly the lowest slot that points to the collector is cleared. */
  lemma EvictedAt(slots: seq<Option<nat>>, c: nat, k: nat)
    requires k < |slots|
    ensures |Evict(slots, c)| == |slots|
    ensures Evict(slots, c)[k] == if slots[k] == Some(c) && Some(c) !in slots[..k] then None else slots[k]
  {
    var p := FindFrom(slots, Some(c), 0);
    assert p < k ==> slots[..k][p] == Some(c);
  }

  /** The table itself; l1_lock is held around every method. */
  class Table {
    var slots: array<Option<nat>>
    var disabled: bool

    constructor (n: nat)
      ensures slots.Length == n && !disabled && fresh(slots)
      ensures forall i | 0 <= i < n :: slots[i] == None
    {
      slots := new Option<nat>[n](i => None);
      disabled := false;
    }

    /** The three loops of a start: duplicate check, free slot, registration. */
    method Start(coll: map<nat, Collector>, mac: Mac, c: nat, resources: bool) returns (started: bool)
      modifies slots
      ensures started == (resources && Admit(old(slots[..]), coll, disabled, mac).Some?)
      ensures slots[..] ==
              if started then old(slots[..])[Admit(old(slots[..]), coll, disabled, mac).value := Some(c)]
              else old(slots[..])
      ensures started ==>
                && !disabled
                && (forall k | 0 <= k < slots.Length && old(slots[k]).Some? && old(slots[k]).value in coll ::
                      coll[old(slots[k]).value].mac != mac)
                && exists i | 0 <= i < slots.Length :: old(slots[i]) == None && slots[i] == Some(c) && None !in old(slots[..i])
      ensures !started && resources ==>
                || disabled || None !in old(slots[..])
                || exists k | 0 <= k < slots.Length && old(slots[k]).Some? && old(slots[k]).value in coll ::
                     coll[old(slots[k]).value].mac == mac
    {
      AdmittedIff(slots[..], coll, disabled, mac);
      if disabled {
        return false;
      }
      var i := 0;
      while i < slots.Length
        invariant 0 <= i <= slots.Length
        invariant forall k | 0 <= k < i :: !HoldsMac(slots[..], coll, k, mac)
        invariant slots[..] == old(slots[..])
      {
        if slots[i].Some? && slots[i].value in coll && coll[slots[i].value].mac == mac {
          assert HoldsMac(slots[..], coll, i, mac);
          return false;
        }
        i := i + 1;
      }
      var slot := -1;
      i := 0;
      while i < slots.Length
        invariant 0 <= i <= slots.Length
        invariant slot == -1
        invariant FindFrom(slots[..], None, 0) >= i
        invariant slots[..] == old(slots[..])
      {
        if slots[i] == None {
          slot := i;
          break;
        }
        i := i + 1;
      }
      if slot == -1 || !resources {
        return false;
      }
      slots[slot] := Some(c);
      return true;
    }

    /** A collector leaving: clear the slot that points to it, then stop looking. */
    method Remove(c: nat)
      modifies slots
      ensures slots[..] == Evict(old(slots[..]), c)
      ensures forall k | 0 <= k < slots.Length ::
                slots[k] == if old(slots[k]) == Some(c) && Some(c) !in old(slots[..k]) then None else old(slots[k])
    {
      forall k | 0 <= k < slots.Length
        ensures Evict(slots[..], c)[k] == if slots[k] == Some(c) && Some(c) !in slots[..k] then None else slots[k]
      {
        EvictedAt(slots[..], c, k);
        assert slots[..][..k] == slots[..k];
      }
      var i := 0;
      while i < slots.Length
        invariant 0 <= i <= slots.Length
        invariant FindFrom(slots[..], Some(c), 0) >= i
        invariant slots[..] == old(slots[..])
      {
        if slots[i] == Some(c) {
          slots[i] := None;
          return;
        }
        i := i + 1;
      }
    }
  }
}
