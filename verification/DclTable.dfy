/**
 The table of L1 collections over all interleavings: at most one collector per
 MAC, no pointer to a freed collector.
 */
module DclTable {
  import opened Wrappers
  import opened DclState
  import opened L1Slots
  import opened DclSteps
  import opened DclLocks

  /** The collector has taken itself out of the table. */
  predicate Left(x: Collector) {
    x.pc.Cleared? || x.pc.Freed?
  }

  predicate Registered(t: Collections, c: nat) {
    c in t.coll && !Left(t.coll[c]) && t.coll[c].slot < |t.slots| && t.slots[t.coll[c].slot] == Some(c)
  }

  /** Slots and collectors that have not left correspond one to one, and no two share a MAC. */
  ghost predicate SlotsSound(t: Collections) {
    && (forall i | 0 <= i < |t.slots| && t.slots[i].Some? ::
          Registered(t, t.slots[i].value) && t.coll[t.slots[i].value].slot == i)
    && (forall c | c in t.coll && !Left(t.coll[c]) :: Registered(t, c))
    && (forall c, d | c in t.coll && d in t.coll && c != d && !Left(t.coll[c]) && !Left(t.coll[d]) ::
          t.coll[c].mac != t.coll[d].mac)
  }

  /** While the consumer scans the table, the collector it found stays in its slot. */
  ghost predicate ScanSound(t: Collections, pc: ConsumerPc) {
    && (pc.CStopWait? ==>
          Registered(t, pc.target) && t.coll[pc.target].slot == pc.k && t.coll[pc.target].mac == pc.d.mac)
    && (pc.CScan? && pc.found.Some? ==>
          && Registered(t, pc.found.value) && t.coll[pc.found.value].mac == pc.d.mac
          && t.coll[pc.found.value].slot < pc.k)
  }

  ghost predicate TableInv(s: Dcl) {
    SlotsSound(s.l1) && ScanSound(s.l1, s.consumer)
  }

  // ----- the three ways the table changes

  lemma SetSound(t: Collections, c: nat, x: Collector, pc: ConsumerPc)
    requires SlotsSound(t) && ScanSound(t, pc)
    requires c in t.coll && x.mac == t.coll[c].mac && x.slot == t.coll[c].slot && Left(x) == Left(t.coll[c])
    ensures SlotsSound(SetCollector(t, c, x)) && ScanSound(SetCollector(t, c, x), pc)
  {
  }

  function WithNew(t: Collections, c: nat, slot: nat, x: Collector): Collections
    requires slot < |t.slots|
  {
    Collections(t.slots[slot := Some(c)], t.disabled, t.coll[c := x])
  }

  lemma AddSound(t: Collections, c: nat, slot: nat, x: Collector)
    requires SlotsSound(t) && c !in t.coll && x.slot == slot && !Left(x)
    requires Admit(t.slots, t.coll, t.disabled, x.mac) == Some(slot)
    ensures SlotsSound(WithNew(t, c, slot, x))
  {
    var t' := WithNew(t, c, slot, x);
    forall d | d in t.coll && !Left(t.coll[d])
      ensures t.coll[d].mac != x.mac && Registered(t', d)
    {
      assert Registered(t, d);
      if t.coll[d].mac == x.mac {
        assert HoldsMac(t.slots, t.coll, t.coll[d].slot, x.mac);
        assert false;
      }
    }
  }

  lemma ClearSound(t: Collections, c: nat)
    requires SlotsSound(t) && c in t.coll && !Left(t.coll[c])
    ensures Registered(t, c) && Evict(t.slots, c) == t.slots[t.coll[c].slot := None]
    ensures SlotsSound(SetPc(t, c, Cleared).(slots := Evict(t.slots, c)))
  {
  }

  lemma TableLoop(s: Dcl, a: ConsumerAct, s': Dcl)
    requires TableInv(s) && LoopStep(s, a, s')
    ensures TableInv(s')
  {
  }

  lemma TableDevice(s: Dcl, a: ConsumerAct, s': Dcl)
    requires TableInv(s) && DeviceStep(s, a, s')
    ensures TableInv(s')
  {
  }

  lemma TableEmit(s: Dcl, a: ConsumerAct, s': Dcl)
    requires TableInv(s) && EmitStep(s, a, s')
    ensures TableInv(s')
  {
  }

  lemma TableSocket(s: Dcl, a: CommsAct, s': Dcl)
    requires TableInv(s) && SocketStep(s, a, s')
    ensures TableInv(s')
  {
  }

  lemma TableStart(s: Dcl, a: CommsAct, s': Dcl)
    requires Own(s) && TableInv(s) && StartStep(s, a, s')
    ensures TableInv(s')
  {
    match a
    case AcceptStart(c) =>
      var slot := Admit(s.l1.slots, s.l1.coll, s.l1.disabled, s.comms.mac).value;
      AddSound(s.l1, c, slot, s'.l1.coll[c]);
      assert s'.l1 == WithNew(s.l1, c, slot, s'.l1.coll[c]);
    case CreateThread => SetSound(s.l1, s.comms.c, s'.l1.coll[s.comms.c], s.consumer);
    case _ =>
  }

  lemma TableCollect(s: Dcl, c: nat, a: CollectorAct, s': Dcl)
    requires Own(s) && TableInv(s) && CollectStep(s, c, a, s')
    ensures TableInv(s')
  {
    if a.ClearSlot? {
      ClearSound(s.l1, c);
    } else {
      SetSound(s.l1, c, s'.l1.coll[c], s.consumer);
      assert s'.l1 == SetCollector(s.l1, c, s'.l1.coll[c]);
    }
  }

  lemma TableDonePush(s: Dcl, c: nat, a: CollectorAct, s': Dcl)
    requires TableInv(s) && DonePushStep(s, c, a, s')
    ensures TableInv(s')
  {
    SetSound(s.l1, c, s'.l1.coll[c], s.consumer);
    assert s'.l1 == SetCollector(s.l1, c, s'.l1.coll[c]);
  }

  lemma TablePusher(s: Dcl, p: nat, a: PusherAct, s': Dcl)
    requires TableInv(s) && PusherStep(s, p, a, s')
    ensures TableInv(s')
  {
  }

  lemma TableDeinit(s: Dcl, a: DeinitAct, s': Dcl)
    requires TableInv(s) && DeinitStep(s, a, s')
    ensures TableInv(s')
  {
    if a.DeinitStop? {
      var c := s.l1.slots[s.deinit.k].value;
      SetSound(s.l1, c, s'.l1.coll[c], s.consumer);
    }
  }

  lemma TableStep(s: Dcl, a: Action, s': Dcl)
    requires Own(s) && TableInv(s) && Step(s, a, s')
    ensures TableInv(s')
  {
    match a
    case ByConsumer(x) =>
      if LoopStep(s, x, s') { TableLoop(s, x, s'); }
      else if DeviceStep(s, x, s') { TableDevice(s, x, s'); }
      else { TableEmit(s, x, s'); }
    case ByComms(x) => if SocketStep(s, x, s') { TableSocket(s, x, s'); } else { TableStart(s, x, s'); }
    case ByCollector(c, x) =>
      if CollectStep(s, c, x, s') { TableCollect(s, c, x, s'); } else { TableDonePush(s, c, x, s'); }
    case ByPusher(p, x) => TablePusher(s, p, x, s');
    case ByDeinit(x) => TableDeinit(s, x, s');
  }

  /** A rejected start changes nothing; an accepted one has a MAC nobody is collecting for. */
  lemma StartOutcome(s: Dcl, a: CommsAct, s': Dcl)
    requires Own(s) && TableInv(s) && StartStep(s, a, s')
    ensures a.RejectStart? ==> s'.l1 == s.l1
    ensures a.AcceptStart? ==>
              && !s.l1.disabled
              && (forall c | c in s.l1.coll && !Left(s.l1.coll[c]) :: s.l1.coll[c].mac != s.comms.mac)
              && Registered(s'.l1, a.c) && s'.l1.coll[a.c].mac == s.comms.mac
              && (forall k | 0 <= k < |s.l1.slots| && s.l1.slots[k].Some? :: s'.l1.slots[k] == s.l1.slots[k])
  {
    if a.AcceptStart? {
      TableStart(s, a, s');
      forall c | c in s.l1.coll && !Left(s.l1.coll[c])
        ensures s.l1.coll[c].mac != s.comms.mac
      {
        assert Registered(s.l1, c);
        assert !HoldsMac(s.l1.slots, s.l1.coll, s.l1.coll[c].slot, s.comms.mac);
      }
    }
  }

  /** A collector is freed only after it left the table. */
  lemma FreedLeftFirst(s: Dcl, c: nat, s': Dcl)
    requires TableInv(s) && CollectorStep(s, c, Free, s')
    ensures forall k | 0 <= k < |s.l1.slots| :: s.l1.slots[k] != Some(c)
  {
  }
}
