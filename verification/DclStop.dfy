/**
 Stopping a collector: the STOP and RETURN tokens, and how many DONE requests a
 collector ends with when disconnect processing gets all its stops acknowledged.
 */
module DclStop {
  import opened Wrappers
  import opened Notify
  import opened DclState
  import opened DclSteps
  import opened DclLocks
  import opened DclTable
  import opened DclDone

  /** The counter of a collector's ack eventfd; 0 once it is closed. */
  function AckOf(acks: map<Fd, nat>, c: nat): nat {
    if CollectorAck(c) in acks then acks[CollectorAck(c)] else 0
  }

  /** A stop wait on this batch reads the RETURN of the collector it stopped. */
  predicate ReadsReturn(s: Dcl, b: Batch)
    requires s.consumer.CStopWait? && Reported(s.h.acks, b)
  {
    var own := CollectorAck(s.consumer.target);
    b.fd == own || (b.Two? && b.fd2 == own && s.h.acks[b.fd] == NOTIFY_L1_THREAD_RETURN)
  }

  /** The consumer's wait for a RETURN ends only by reading it. Nothing is asked of deinit. */
  predicate StopAnswered(s: Dcl, a: Action) {
    match a
    case ByConsumer(StopTimeout) => false
    case ByConsumer(StopRead(b)) => s.consumer.CStopWait? && Reported(s.h.acks, b) && ReadsReturn(s, b)
    case _ => true
  }

  // ----- tokens

  predicate FdState(x: Collector, ack: nat, awaited: bool) {
    if awaited then
      || (x.note == NOTIFY_L1_THREAD_STOP && ack == 0 && !x.pc.ReturnAck?)
      || (x.note == 0 && ack == 0)
      || (x.note == 0 && ack == NOTIFY_L1_THREAD_RETURN && !x.pc.ReturnAck?)
    else
      x.note == 0 && ack == 0 && !x.pc.ReturnAck?
  }

  predicate FdAt(s: Dcl, c: nat)
    requires c in s.l1.coll
  {
    s.l1.coll[c].byDeinit || FdState(s.l1.coll[c], AckOf(s.h.acks, c), Awaited(s.consumer) == Some(c))
  }

  /** Unless deinit told it to stop, STOP and RETURN are in flight only between the consumer and the collector it is stopping. */
  ghost predicate FdInv(s: Dcl) {
    && (forall c | c in s.l1.coll :: FdAt(s, c))
    && (forall c | CollectorAck(c) in s.h.acks :: c in s.l1.coll)
    && (forall c | c in s.l1.coll && !Left(s.l1.coll[c]) :: CollectorAck(c) in s.h.acks)
    && CommsAck in s.h.acks
  }

  lemma FdInit(s: Dcl)
    requires Init(s)
    ensures FdInv(s)
  {
  }

  lemma FdLoop(s: Dcl, a: ConsumerAct, s': Dcl)
    requires FdInv(s) && LoopStep(s, a, s')
    ensures FdInv(s')
  {
  }

  lemma FdDevice(s: Dcl, a: ConsumerAct, s': Dcl)
    requires TableInv(s) && FdInv(s) && DeviceStep(s, a, s') && StopAnswered(s, ByConsumer(a))
    ensures FdInv(s')
  {
    forall c | c in s'.l1.coll
      ensures FdAt(s', c)
    {
      FdKeptByDevice(s, a, s', c);
    }
  }

  lemma FdKeptByDevice(s: Dcl, a: ConsumerAct, s': Dcl, c: nat)
    requires TableInv(s) && FdInv(s) && DeviceStep(s, a, s') && StopAnswered(s, ByConsumer(a)) && c in s'.l1.coll
    ensures FdAt(s', c)
  {
    assert c in s.l1.coll;
    assert FdAt(s, c);
  }

  lemma FdEmit(s: Dcl, a: ConsumerAct, s': Dcl)
    requires FdInv(s) && EmitStep(s, a, s')
    ensures FdInv(s')
  {
  }

  lemma FdSocket(s: Dcl, a: CommsAct, s': Dcl)
    requires FdInv(s) && SocketStep(s, a, s')
    ensures FdInv(s')
  {
  }

  lemma FdStart(s: Dcl, a: CommsAct, s': Dcl)
    requires Own(s) && TableInv(s) && FdInv(s) && StartStep(s, a, s')
    ensures FdInv(s')
  {
  }

  lemma FdCollect(s: Dcl, c: nat, a: CollectorAct, s': Dcl)
    requires FdInv(s) && CollectStep(s, c, a, s')
    ensures FdInv(s')
  {
    forall d | d in s'.l1.coll
      ensures FdAt(s', d)
    {
      assert FdAt(s, d);
      if d == c {
        FdKeptByCollect(s, c, a, s');
      } else {
        FdOfOthers(s, c, a, s', d);
      }
    }
  }

  lemma FdKeptByCollect(s: Dcl, c: nat, a: CollectorAct, s': Dcl)
    requires CollectStep(s, c, a, s') && FdAt(s, c)
    ensures FdAt(s', c)
  {
  }

  lemma FdOfOthers(s: Dcl, c: nat, a: CollectorAct, s': Dcl, d: nat)
    requires CollectStep(s, c, a, s') && d in s.l1.coll && d != c
    ensures s'.l1.coll[d] == s.l1.coll[d] && AckOf(s'.h.acks, d) == AckOf(s.h.acks, d) && s'.consumer == s.consumer
  {
  }

  lemma FdDonePush(s: Dcl, c: nat, a: CollectorAct, s': Dcl)
    requires FdInv(s) && DonePushStep(s, c, a, s')
    ensures FdInv(s')
  {
  }

  lemma FdPusher(s: Dcl, p: nat, a: PusherAct, s': Dcl)
    requires FdInv(s) && PusherStep(s, p, a, s')
    ensures FdInv(s')
  {
  }

  lemma FdDeinit(s: Dcl, a: DeinitAct, s': Dcl)
    requires FdInv(s) && DeinitStep(s, a, s')
    ensures FdInv(s')
  {
    forall c | c in s'.l1.coll
      ensures FdAt(s', c)
    {
      assert FdAt(s, c);
      FdKeptByDeinit(s, a, s', c);
    }
    DeinitKeepsRegistrations(s, a, s');
  }

  /** Deinit's waits may take any token away, but bring none. */
  lemma FdKeptByDeinit(s: Dcl, a: DeinitAct, s': Dcl, c: nat)
    requires DeinitStep(s, a, s') && c in s.l1.coll && FdAt(s, c)
    ensures c in s'.l1.coll && FdAt(s', c)
  {
  }

  lemma DeinitKeepsRegistrations(s: Dcl, a: DeinitAct, s': Dcl)
    requires DeinitStep(s, a, s')
    ensures s'.h.acks.Keys == s.h.acks.Keys && s'.l1.coll.Keys == s.l1.coll.Keys
    ensures forall c | c in s.l1.coll :: s'.l1.coll[c].pc == s.l1.coll[c].pc
  {
  }

  lemma FdStep(s: Dcl, a: Action, s': Dcl)
    requires Own(s) && TableInv(s) && FdInv(s) && Step(s, a, s') && StopAnswered(s, a)
    ensures FdInv(s')
  {
    match a
    case ByConsumer(x) =>
      if LoopStep(s, x, s') { FdLoop(s, x, s'); }
      else if DeviceStep(s, x, s') { FdDevice(s, x, s'); }
      else { FdEmit(s, x, s'); }
    case ByComms(x) => if SocketStep(s, x, s') { FdSocket(s, x, s'); } else { FdStart(s, x, s'); }
    case ByCollector(c, x) => if CollectStep(s, c, x, s') { FdCollect(s, c, x, s'); } else { FdDonePush(s, c, x, s'); }
    case ByPusher(p, x) => FdPusher(s, p, x, s');
    case ByDeinit(x) => FdDeinit(s, x, s');
  }

  // ----- counting

  /** Every stop of the consumer is written and answered. */
  predicate StopAcknowledged(s: Dcl, a: Action) {
    StopAnswered(s, a) && a != ByConsumer(ScanHit(false))
  }

  /** Whoever took the branch for STOP has its one direct request, or is about to. */
  predicate CountState(x: Collector, awaited: bool, found: bool) {
    if (if awaited then x.note == 0 else found) then x.stopRead && x.direct == 0
    else x.direct == if x.stopRead then 1 else 0
  }

  predicate CountAt(s: Dcl, c: nat)
    requires c in s.l1.coll
  {
    s.l1.coll[c].byDeinit || CountState(s.l1.coll[c], Awaited(s.consumer) == Some(c), Target(s.consumer) == Some(c))
  }

  ghost predicate CountInv(s: Dcl) {
    forall c | c in s.l1.coll :: CountAt(s, c)
  }

  lemma CountInit(s: Dcl)
    requires Init(s)
    ensures CountInv(s)
  {
  }

  lemma CountDevice(s: Dcl, a: ConsumerAct, s': Dcl)
    requires TableInv(s) && FdInv(s) && CountInv(s) && DeviceStep(s, a, s') && StopAcknowledged(s, ByConsumer(a))
    ensures CountInv(s')
  {
    forall c | c in s'.l1.coll
      ensures CountAt(s', c)
    {
      CountKeptByDevice(s, a, s', c);
    }
  }

  lemma CountKeptByDevice(s: Dcl, a: ConsumerAct, s': Dcl, c: nat)
    requires TableInv(s) && FdInv(s) && CountInv(s) && DeviceStep(s, a, s') && StopAcknowledged(s, ByConsumer(a))
    requires c in s'.l1.coll
    ensures CountAt(s', c)
  {
    assert c in s.l1.coll;
    assert CountAt(s, c) && FdAt(s, c);
  }

  lemma CountStart(s: Dcl, a: CommsAct, s': Dcl)
    requires TableInv(s) && CountInv(s) && StartStep(s, a, s')
    ensures CountInv(s')
  {
    forall c | c in s'.l1.coll
      ensures CountAt(s', c)
    {
      assert c in s.l1.coll ==> CountAt(s, c);
    }
  }

  lemma CountCollector(s: Dcl, c: nat, a: CollectorAct, s': Dcl)
    requires DoneInv(s) && FdInv(s) && CountInv(s) && CollectorStep(s, c, a, s')
    ensures CountInv(s')
  {
    assert OwnPath(s.l1.coll[c]) && FdAt(s, c) && CountAt(s, c);
    CollectorStops(s, c, a, s');
    CountKeptByCollector(s, c, a, s');
    forall d | d in s'.l1.coll
      ensures CountAt(s', d)
    {
      assert CountAt(s, d);
    }
  }

  lemma CountKeptByCollector(s: Dcl, c: nat, a: CollectorAct, s': Dcl)
    requires CollectorStep(s, c, a, s') && OwnPath(s.l1.coll[c]) && FdAt(s, c) && CountAt(s, c)
    ensures c in s'.l1.coll && CountAt(s', c)
  {
  }

  lemma CountDeinit(s: Dcl, a: DeinitAct, s': Dcl)
    requires CountInv(s) && DeinitStep(s, a, s')
    ensures CountInv(s')
  {
    forall c | c in s'.l1.coll
      ensures CountAt(s', c)
    {
      assert CountAt(s, c);
    }
  }

  lemma CountElsewhere(s: Dcl, s': Dcl)
    requires CountInv(s) && SameStops(s, s')
    ensures CountInv(s')
  {
    forall c | c in s'.l1.coll
      ensures CountAt(s', c)
    {
      assert CountAt(s, c);
    }
  }

  lemma CountConsumer(s: Dcl, a: ConsumerAct, s': Dcl)
    requires TableInv(s) && FdInv(s) && CountInv(s) && ConsumerStep(s, a, s') && StopAcknowledged(s, ByConsumer(a))
    ensures CountInv(s')
  {
    if DeviceStep(s, a, s') {
      CountDevice(s, a, s');
    } else {
      ConsumerElsewhere(s, a, s');
      CountElsewhere(s, s');
    }
  }

  lemma CountComms(s: Dcl, a: CommsAct, s': Dcl)
    requires TableInv(s) && CountInv(s) && CommsStep(s, a, s')
    ensures CountInv(s')
  {
    if StartStep(s, a, s') {
      CountStart(s, a, s');
    } else {
      SocketElsewhere(s, a, s');
      CountElsewhere(s, s');
    }
  }

  lemma CountStep(s: Dcl, a: Action, s': Dcl)
    requires TableInv(s) && DoneInv(s) && FdInv(s) && CountInv(s) && Step(s, a, s') && StopAcknowledged(s, a)
    ensures CountInv(s')
  {
    match a
    case ByConsumer(x) => CountConsumer(s, x, s');
    case ByComms(x) => CountComms(s, x, s');
    case ByCollector(c, x) => CountCollector(s, c, x, s');
    case ByPusher(p, x) =>
      PusherElsewhere(s, p, x, s');
      CountElsewhere(s, s');
    case ByDeinit(x) => CountDeinit(s, x, s');
  }

  /** When the consumer gets its stops acknowledged, a collector that is gone had exactly one DONE requested. */
  lemma AcknowledgedMeansOnce(s: Dcl, c: nat)
    requires TableInv(s) && DoneInv(s) && CountInv(s)
    requires c in s.l1.coll && Left(s.l1.coll[c]) && !s.l1.coll[c].byDeinit
    ensures s.l1.coll[c].queued + s.l1.coll[c].direct == 1
  {
    EndedByEitherBranch(s, c);
    assert CountAt(s, c);
  }
}
