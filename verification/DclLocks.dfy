/**
 What a step of one thread leaves alone, the two mutexes, and the lock order.
 */
module DclLocks {
  import opened Wrappers
  import opened DclState
  import opened DclSteps

  // ----- ownership

  /** A mutex belongs to a thread exactly while that thread is inside its critical section. */
  ghost predicate Own(s: Dcl) {
    OwnSingles(s) && OwnCollectors(s.mx, s.l1.coll, s.comms) && OwnPushers(s.mx, s.pushers)
  }

  /** The threads there is one of. */
  predicate OwnSingles(s: Dcl) {
    && (ConsumerInside(s.consumer) <==> s.mx.consumer == Some(ConsumerT))
    && (s.comms.HelloHold? <==> s.mx.consumer == Some(CommsT))
    && (s.deinit.DHold? <==> s.mx.consumer == Some(DeinitT))
    && (ConsumerInsideL1(s.consumer) <==> s.mx.l1 == Some(ConsumerT))
    && (s.comms.StartHold? <==> s.mx.l1 == Some(CommsT))
    && (DeinitInsideL1(s.deinit) <==> s.mx.l1 == Some(DeinitT))
  }

  ghost predicate OwnCollectors(mx: Mutexes, coll: map<nat, Collector>, comms: CommsPc) {
    && (mx.consumer.Some? && mx.consumer.value.CollectorT? ==> mx.consumer.value.id in coll)
    && (mx.l1.Some? && mx.l1.value.CollectorT? ==> mx.l1.value.id in coll)
    && (forall c | c in coll ::
          && (CollectorInside(coll[c].pc) <==> mx.consumer == Some(CollectorT(c)))
          && (coll[c].pc.L1Hold? <==> mx.l1 == Some(CollectorT(c)))
          // registered by the comms thread, thread not yet created
          && (coll[c].pc.Created? <==> comms == Spawn(c)))
  }

  ghost predicate OwnPushers(mx: Mutexes, pushers: map<nat, PusherPc>) {
    && (mx.consumer.Some? && mx.consumer.value.PusherT? ==> mx.consumer.value.id in pushers)
    && !(mx.l1.Some? && mx.l1.value.PusherT?)
    && (forall p | p in pushers :: PusherInside(pushers[p]) <==> mx.consumer == Some(PusherT(p)))
  }

  lemma OwnLoop(s: Dcl, a: ConsumerAct, s': Dcl)
    requires Own(s) && LoopStep(s, a, s')
    ensures Own(s')
  {
  }

  lemma OwnDevice(s: Dcl, a: ConsumerAct, s': Dcl)
    requires Own(s) && DeviceStep(s, a, s')
    ensures Own(s')
  {
  }

  lemma OwnEmit(s: Dcl, a: ConsumerAct, s': Dcl)
    requires Own(s) && EmitStep(s, a, s')
    ensures Own(s')
  {
  }

  lemma OwnSocket(s: Dcl, a: CommsAct, s': Dcl)
    requires Own(s) && SocketStep(s, a, s')
    ensures Own(s')
  {
  }

  lemma OwnStart(s: Dcl, a: CommsAct, s': Dcl)
    requires Own(s) && StartStep(s, a, s')
    ensures Own(s')
  {
  }

  lemma OwnCollect(s: Dcl, c: nat, a: CollectorAct, s': Dcl)
    requires Own(s) && CollectStep(s, c, a, s')
    ensures Own(s')
  {
    CollectKeepsSingles(s, c, a, s');
    CollectKeepsCollectors(s, c, a, s');
    CollectLeavesPushers(s, c, a, s');
  }

  lemma CollectKeepsSingles(s: Dcl, c: nat, a: CollectorAct, s': Dcl)
    requires Own(s) && CollectStep(s, c, a, s')
    ensures OwnSingles(s')
  {
  }

  lemma CollectKeepsCollectors(s: Dcl, c: nat, a: CollectorAct, s': Dcl)
    requires Own(s) && CollectStep(s, c, a, s')
    ensures OwnCollectors(s'.mx, s'.l1.coll, s'.comms)
  {
  }

  lemma CollectLeavesPushers(s: Dcl, c: nat, a: CollectorAct, s': Dcl)
    requires OwnPushers(s.mx, s.pushers) && CollectStep(s, c, a, s')
    ensures OwnPushers(s'.mx, s'.pushers)
  {
  }

  lemma OwnDonePush(s: Dcl, c: nat, a: CollectorAct, s': Dcl)
    requires Own(s) && DonePushStep(s, c, a, s')
    ensures Own(s')
  {
  }

  lemma OwnPusher(s: Dcl, p: nat, a: PusherAct, s': Dcl)
    requires Own(s) && PusherStep(s, p, a, s')
    ensures Own(s')
  {
  }

  lemma OwnDeinit(s: Dcl, a: DeinitAct, s': Dcl)
    requires Own(s) && DeinitStep(s, a, s')
    ensures Own(s')
  {
  }

  lemma OwnStep(s: Dcl, a: Action, s': Dcl)
    requires Own(s) && Step(s, a, s')
    ensures Own(s')
  {
    match a
    case ByConsumer(x) =>
      if LoopStep(s, x, s') { OwnLoop(s, x, s'); }
      else if DeviceStep(s, x, s') { OwnDevice(s, x, s'); }
      else { OwnEmit(s, x, s'); }
    case ByComms(x) => if SocketStep(s, x, s') { OwnSocket(s, x, s'); } else { OwnStart(s, x, s'); }
    case ByCollector(c, x) => if CollectStep(s, c, x, s') { OwnCollect(s, c, x, s'); } else { OwnDonePush(s, c, x, s'); }
    case ByPusher(p, x) => OwnPusher(s, p, x, s');
    case ByDeinit(x) => OwnDeinit(s, x, s');
  }

  // ----- lock order

  /** Thread t is blocked in pthread_mutex_lock on a mutex that thread u owns. */
  predicate BlockedBy(s: Dcl, t: Tid, u: Tid) {
    || (WantsLock(s, t) && s.mx.consumer == Some(u))
    || (WantsL1(s, t) && s.mx.l1 == Some(u))
  }

  /** Height in the lock order: consumer lock first, then the collector lock. */
  function Rank(s: Dcl, t: Tid): nat {
    if WantsLock(s, t) then 2 else if WantsL1(s, t) then 1 else 0
  }

  /** The documented order: whoever holds l1_lock asks for neither mutex. */
  lemma L1HolderAsksForNothing(s: Dcl, t: Tid)
    requires Own(s) && s.mx.l1 == Some(t)
    ensures !WantsLock(s, t) && !WantsL1(s, t)
  {
  }

  lemma BlockedByDescends(s: Dcl, t: Tid, u: Tid)
    requires Own(s) && BlockedBy(s, t, u)
    ensures Rank(s, u) < Rank(s, t)
  {
  }

  lemma {:induction false} ChainDescends(s: Dcl, chain: seq<Tid>, i: nat)
    requires Own(s) && i < |chain|
    requires forall k | 0 <= k < |chain| - 1 :: BlockedBy(s, chain[k], chain[k + 1])
    ensures Rank(s, chain[i]) + i <= Rank(s, chain[0])
  {
    if i > 0 {
      ChainDescends(s, chain, i - 1);
      BlockedByDescends(s, chain[i - 1], chain[i]);
    }
  }

  /** No threads, however many, wait for each other in a circle. */
  lemma NoMutexCycle(s: Dcl, cycle: seq<Tid>)
    requires Own(s) && |cycle| > 0
    ensures !(&& (forall k | 0 <= k < |cycle| - 1 :: BlockedBy(s, cycle[k], cycle[k + 1]))
              && BlockedBy(s, cycle[|cycle| - 1], cycle[0]))
  {
    if (forall k | 0 <= k < |cycle| - 1 :: BlockedBy(s, cycle[k], cycle[k + 1])) &&
       BlockedBy(s, cycle[|cycle| - 1], cycle[0])
    {
      ChainDescends(s, cycle, |cycle| - 1);
      BlockedByDescends(s, cycle[|cycle| - 1], cycle[0]);
      assert false;
    }
  }
}
