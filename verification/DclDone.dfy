/**
 Accounting for L1 collection DONE: a collector that ends has had at least one
 DONE requested for it, pushed by itself or made by disconnect processing.
 */
module DclDone {
  import opened Wrappers
  import opened DclState
  import opened DclSteps
  import opened DclLocks
  import opened DclTable

  /** The collector disconnect processing is stopping, with its DONE request still to come. */
  function Target(pc: ConsumerPc): Option<nat> {
    match pc
    case CStopWait(_, _, _, c) => Some(c)
    case CScan(_, _, _, found) => found
    case _ => None
  }

  /** The collector whose RETURN the consumer is waiting for. */
  function Awaited(pc: ConsumerPc): Option<nat> {
    if pc.CStopWait? then Some(pc.target) else None
  }

  /** Answered a stop or pushed: on the way out of the table. */
  predicate Returning(pc: CollectorPc) {
    pc.Leaving? || pc.L1Hold? || pc.Cleared? || pc.Freed?
  }

  /** What a collector itself has done by the place it is at: it pushes unless it left by the branch for STOP. */
  predicate OwnPath(x: Collector) {
    match x.pc
    case ReturnAck => x.stopRead && x.queued == 0
    case PushQueued => !x.stopRead && x.queued == 1
    case PushSignal => !x.stopRead && x.queued == 1
    case _ =>
      if Returning(x.pc) then x.queued == (if x.stopRead then 0 else 1) else !x.stopRead && x.queued == 0
  }

  /** Whoever was told to stop was found by disconnect processing or by deinit. */
  predicate FoundFirst(x: Collector, beingStopped: bool) {
    x.note > 0 || x.stopRead ==> x.direct > 0 || x.byDeinit || beingStopped
  }

  ghost predicate DoneInv(s: Dcl) {
    forall c | c in s.l1.coll ::
      OwnPath(s.l1.coll[c]) && FoundFirst(s.l1.coll[c], Target(s.consumer) == Some(c))
  }

  lemma DoneConsumer(s: Dcl, a: ConsumerAct, s': Dcl)
    requires TableInv(s) && DoneInv(s) && DeviceStep(s, a, s')
    ensures DoneInv(s')
  {
    forall c | c in s'.l1.coll
      ensures OwnPath(s'.l1.coll[c]) && FoundFirst(s'.l1.coll[c], Target(s'.consumer) == Some(c))
    {
      DoneKeptByConsumer(s, a, s', c);
    }
  }

  lemma DoneKeptByConsumer(s: Dcl, a: ConsumerAct, s': Dcl, c: nat)
    requires TableInv(s) && DoneInv(s) && DeviceStep(s, a, s') && c in s'.l1.coll
    ensures OwnPath(s'.l1.coll[c]) && FoundFirst(s'.l1.coll[c], Target(s'.consumer) == Some(c))
  {
    assert c in s.l1.coll;
    assert OwnPath(s.l1.coll[c]) && FoundFirst(s.l1.coll[c], Target(s.consumer) == Some(c));
  }

  lemma DoneStart(s: Dcl, a: CommsAct, s': Dcl)
    requires Own(s) && DoneInv(s) && StartStep(s, a, s')
    ensures DoneInv(s')
  {
  }

  lemma DoneCollector(s: Dcl, c: nat, a: CollectorAct, s': Dcl)
    requires DoneInv(s) && CollectorStep(s, c, a, s')
    ensures DoneInv(s')
  {
    var target := Target(s.consumer) == Some(c);
    assert OwnPath(s.l1.coll[c]) && FoundFirst(s.l1.coll[c], target);
    CollectorStops(s, c, a, s');
    if CollectStep(s, c, a, s') {
      DoneKeptByCollect(s, c, a, s', target);
    } else {
      DoneKeptByPush(s, c, a, s', target);
    }
  }

  lemma DoneKeptByCollect(s: Dcl, c: nat, a: CollectorAct, s': Dcl, target: bool)
    requires CollectStep(s, c, a, s') && OwnPath(s.l1.coll[c]) && FoundFirst(s.l1.coll[c], target)
    ensures c in s'.l1.coll && OwnPath(s'.l1.coll[c]) && FoundFirst(s'.l1.coll[c], target)
  {
  }

  lemma DoneKeptByPush(s: Dcl, c: nat, a: CollectorAct, s': Dcl, target: bool)
    requires DonePushStep(s, c, a, s') && OwnPath(s.l1.coll[c]) && FoundFirst(s.l1.coll[c], target)
    ensures c in s'.l1.coll && OwnPath(s'.l1.coll[c]) && FoundFirst(s'.l1.coll[c], target)
  {
  }

  lemma DoneDeinit(s: Dcl, a: DeinitAct, s': Dcl)
    requires DoneInv(s) && DeinitStep(s, a, s')
    ensures DoneInv(s')
  {
  }

  /** Nothing about the collectors changes, nor about whom the consumer is stopping. */
  predicate SameStops(s: Dcl, s': Dcl) {
    s'.l1 == s.l1 && Target(s'.consumer) == Target(s.consumer) && Awaited(s'.consumer) == Awaited(s.consumer)
  }

  lemma ConsumerElsewhere(s: Dcl, a: ConsumerAct, s': Dcl)
    requires LoopStep(s, a, s') || EmitStep(s, a, s')
    ensures SameStops(s, s')
  {
  }

  lemma SocketElsewhere(s: Dcl, a: CommsAct, s': Dcl)
    requires SocketStep(s, a, s')
    ensures SameStops(s, s')
  {
  }

  lemma PusherElsewhere(s: Dcl, p: nat, a: PusherAct, s': Dcl)
    requires PusherStep(s, p, a, s')
    ensures SameStops(s, s')
  {
  }

  lemma CollectorStops(s: Dcl, c: nat, a: CollectorAct, s': Dcl)
    requires CollectorStep(s, c, a, s')
    ensures c in s'.l1.coll && s'.l1.coll == s.l1.coll[c := s'.l1.coll[c]]
    ensures Target(s'.consumer) == Target(s.consumer) && Awaited(s'.consumer) == Awaited(s.consumer)
  {
  }

  lemma DoneElsewhere(s: Dcl, s': Dcl)
    requires DoneInv(s) && SameStops(s, s')
    ensures DoneInv(s')
  {
  }

  lemma DoneStep(s: Dcl, a: Action, s': Dcl)
    requires Own(s) && TableInv(s) && DoneInv(s) && Step(s, a, s')
    ensures DoneInv(s')
  {
    match a
    case ByConsumer(x) =>
      if DeviceStep(s, x, s') { DoneConsumer(s, x, s'); } else { ConsumerElsewhere(s, x, s'); DoneElsewhere(s, s'); }
    case ByComms(x) =>
      if StartStep(s, x, s') { DoneStart(s, x, s'); } else { SocketElsewhere(s, x, s'); DoneElsewhere(s, s'); }
    case ByCollector(c, x) => DoneCollector(s, c, x, s');
    case ByPusher(p, x) =>
      PusherElsewhere(s, p, x, s');
      DoneElsewhere(s, s');
    case ByDeinit(x) => DoneDeinit(s, x, s');
  }

  /** A collector that is gone pushed its DONE exactly if it did not leave by the branch for STOP. */
  lemma EndedByEitherBranch(s: Dcl, c: nat)
    requires TableInv(s) && DoneInv(s)
    requires c in s.l1.coll && Left(s.l1.coll[c])
    ensures s.l1.coll[c].queued == if s.l1.coll[c].stopRead then 0 else 1
    ensures s.l1.coll[c].stopRead ==> s.l1.coll[c].direct > 0 || s.l1.coll[c].byDeinit
  {
    assert OwnPath(s.l1.coll[c]) && FoundFirst(s.l1.coll[c], Target(s.consumer) == Some(c));
  }
}
