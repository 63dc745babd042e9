/**
 The event queue: nothing pushed is overlooked, everything is processed once and
 in order, and nothing is processed after exit_consumer is set.
 */
module DclQueue {
  import opened Wrappers
  import opened DclState
  import opened DclSteps
  import opened DclLocks

  /** The consumer is between taking an event and clearing queue_wakeup. */
  predicate Draining(pc: ConsumerPc) {
    ConsumerInside(pc) && !pc.CHead?
  }

  predicate FlagPending(s: Dcl) {
    s.mx.consumer.Some? && BetweenPushAndFlag(s, s.mx.consumer.value)
  }

  ghost predicate QueueInv(s: Dcl) {
    && s.q.popped + s.q.events == s.q.pushed
    && (s.q.events != [] ==> s.q.wakeup || FlagPending(s))
    && (Draining(s.consumer) ==> !s.q.exit)
    && (s.consumer.CExited? ==> s.q.exit)
    && (s.consumer.CAsleep? && s.q.wakeup ==> exists t :: AboutToSignal(s, t))
  }

  // ----- a pending signal survives every step of the other threads

  lemma ConsumerKeepsCollectorPcs(s: Dcl, a: ConsumerAct, s': Dcl, c: nat)
    requires ConsumerStep(s, a, s') && c in s.l1.coll
    ensures c in s'.l1.coll && s'.l1.coll[c].pc == s.l1.coll[c].pc
  {
    if DeviceStep(s, a, s') {
      DeviceKeepsCollectorPcs(s, a, s', c);
    }
  }

  lemma DeviceKeepsCollectorPcs(s: Dcl, a: ConsumerAct, s': Dcl, c: nat)
    requires DeviceStep(s, a, s') && c in s.l1.coll
    ensures c in s'.l1.coll && s'.l1.coll[c].pc == s.l1.coll[c].pc
  {
  }

  lemma CommsKeepsCollectorPcs(s: Dcl, a: CommsAct, s': Dcl, c: nat)
    requires Own(s) && CommsStep(s, a, s') && c in s.l1.coll && !s.l1.coll[c].pc.Created?
    ensures c in s'.l1.coll && s'.l1.coll[c].pc == s.l1.coll[c].pc
  {
  }

  lemma CollectorsKeepEachOther(s: Dcl, d: nat, a: CollectorAct, s': Dcl, c: nat)
    requires CollectorStep(s, d, a, s') && c in s.l1.coll && c != d
    ensures c in s'.l1.coll && s'.l1.coll[c].pc == s.l1.coll[c].pc
  {
  }

  lemma DeinitKeepsCollectorPcs(s: Dcl, a: DeinitAct, s': Dcl, c: nat)
    requires DeinitStep(s, a, s') && c in s.l1.coll
    ensures c in s'.l1.coll && s'.l1.coll[c].pc == s.l1.coll[c].pc
  {
  }

  lemma CollectorSignalStays(s: Dcl, a: Action, s': Dcl, c: nat)
    requires Own(s) && Step(s, a, s') && AboutToSignal(s, CollectorT(c)) && Actor(a) != CollectorT(c)
    ensures AboutToSignal(s', CollectorT(c))
  {
    match a
    case ByConsumer(x) => ConsumerKeepsCollectorPcs(s, x, s', c);
    case ByComms(x) => CommsKeepsCollectorPcs(s, x, s', c);
    case ByCollector(d, x) => CollectorsKeepEachOther(s, d, x, s', c);
    case ByPusher(_, _) =>
    case ByDeinit(x) => DeinitKeepsCollectorPcs(s, x, s', c);
  }

  lemma ConsumerLeavesSignallers(s: Dcl, a: ConsumerAct, s': Dcl)
    requires ConsumerStep(s, a, s')
    ensures s'.deinit == s.deinit && s'.pushers == s.pushers
  {
  }

  lemma CommsLeavesSignallers(s: Dcl, a: CommsAct, s': Dcl)
    requires CommsStep(s, a, s')
    ensures s'.deinit == s.deinit && s'.pushers == s.pushers
  {
  }

  lemma CollectorLeavesSignallers(s: Dcl, c: nat, a: CollectorAct, s': Dcl)
    requires CollectorStep(s, c, a, s')
    ensures s'.deinit == s.deinit && s'.pushers == s.pushers
  {
  }

  lemma OtherSignalStays(s: Dcl, a: Action, s': Dcl, t: Tid)
    requires Step(s, a, s') && AboutToSignal(s, t) && Actor(a) != t && !t.CollectorT?
    ensures AboutToSignal(s', t)
  {
    match a
    case ByConsumer(x) => ConsumerLeavesSignallers(s, x, s');
    case ByComms(x) => CommsLeavesSignallers(s, x, s');
    case ByCollector(c, x) => CollectorLeavesSignallers(s, c, x, s');
    case ByPusher(_, _) =>
    case ByDeinit(_) =>
  }

  lemma SignalStaysPending(s: Dcl, a: Action, s': Dcl, t: Tid)
    requires Own(s) && Step(s, a, s') && AboutToSignal(s, t) && Actor(a) != t
    ensures AboutToSignal(s', t)
  {
    if t.CollectorT? {
      CollectorSignalStays(s, a, s', t.id);
    } else {
      OtherSignalStays(s, a, s', t);
    }
  }

  lemma QueueLoop(s: Dcl, a: ConsumerAct, s': Dcl)
    requires Own(s) && QueueInv(s) && LoopStep(s, a, s')
    ensures QueueInv(s')
  {
  }

  lemma QueueDevice(s: Dcl, a: ConsumerAct, s': Dcl)
    requires Own(s) && QueueInv(s) && DeviceStep(s, a, s')
    ensures QueueInv(s')
  {
  }

  lemma QueueEmit(s: Dcl, a: ConsumerAct, s': Dcl)
    requires Own(s) && QueueInv(s) && EmitStep(s, a, s')
    ensures QueueInv(s')
  {
  }

  lemma QueueComms(s: Dcl, a: CommsAct, s': Dcl)
    requires Own(s) && QueueInv(s) && CommsStep(s, a, s')
    ensures QueueInv(s')
  {
    CommsLeavesQueue(s, a, s');
    if s'.consumer.CAsleep? && s'.q.wakeup {
      var t :| AboutToSignal(s, t);
      SignalStaysPending(s, ByComms(a), s', t);
    }
  }

  lemma CommsLeavesQueue(s: Dcl, a: CommsAct, s': Dcl)
    requires Own(s) && QueueInv(s) && CommsStep(s, a, s')
    ensures s'.q == s.q && s'.consumer == s.consumer
    ensures s.q.events != [] ==> s.q.wakeup || FlagPending(s')
  {
    if StartStep(s, a, s') {
      StartLeavesQueue(s, a, s');
    }
  }

  lemma StartLeavesQueue(s: Dcl, a: CommsAct, s': Dcl)
    requires Own(s) && StartStep(s, a, s')
    ensures s'.q == s.q && s'.consumer == s.consumer && (FlagPending(s) ==> FlagPending(s'))
  {
  }

  lemma QueueCollect(s: Dcl, c: nat, a: CollectorAct, s': Dcl)
    requires Own(s) && QueueInv(s) && CollectStep(s, c, a, s')
    ensures QueueInv(s')
  {
    if s'.consumer.CAsleep? && s'.q.wakeup {
      var t :| AboutToSignal(s, t);
      SignalStaysPending(s, ByCollector(c, a), s', t);
    }
  }

  lemma QueueDonePush(s: Dcl, c: nat, a: CollectorAct, s': Dcl)
    requires Own(s) && QueueInv(s) && DonePushStep(s, c, a, s')
    ensures QueueInv(s')
  {
    if a.RaiseFlag? {
      assert AboutToSignal(s', CollectorT(c));
    } else if s'.consumer.CAsleep? && s'.q.wakeup {
      var t :| AboutToSignal(s, t);
      SignalStaysPending(s, ByCollector(c, a), s', t);
    }
  }

  lemma QueuePusher(s: Dcl, p: nat, a: PusherAct, s': Dcl)
    requires Own(s) && QueueInv(s) && PusherStep(s, p, a, s')
    ensures QueueInv(s')
  {
    if a.PushRaiseFlag? {
      assert AboutToSignal(s', PusherT(p));
    } else if s'.consumer.CAsleep? && s'.q.wakeup {
      var t :| AboutToSignal(s, t);
      SignalStaysPending(s, ByPusher(p, a), s', t);
    }
  }

  lemma QueueDeinit(s: Dcl, a: DeinitAct, s': Dcl)
    requires Own(s) && QueueInv(s) && DeinitStep(s, a, s')
    ensures QueueInv(s')
  {
    if a.DeinitExit? {
      assert AboutToSignal(s', DeinitT);
    } else if s'.consumer.CAsleep? && s'.q.wakeup {
      var t :| AboutToSignal(s, t);
      SignalStaysPending(s, ByDeinit(a), s', t);
    }
  }

  lemma QueueStep(s: Dcl, a: Action, s': Dcl)
    requires Own(s) && QueueInv(s) && Step(s, a, s')
    ensures QueueInv(s')
  {
    match a
    case ByConsumer(x) =>
      if LoopStep(s, x, s') { QueueLoop(s, x, s'); }
      else if DeviceStep(s, x, s') { QueueDevice(s, x, s'); }
      else { QueueEmit(s, x, s'); }
    case ByComms(x) => QueueComms(s, x, s');
    case ByCollector(c, x) =>
      if CollectStep(s, c, x, s') { QueueCollect(s, c, x, s'); } else { QueueDonePush(s, c, x, s'); }
    case ByPusher(p, x) => QueuePusher(s, p, x, s');
    case ByDeinit(x) => QueueDeinit(s, x, s');
  }

  /** Someone is about to signal a sleeping consumer that has events to process, and the signal wakes it. */
  lemma SleeperIsWoken(s: Dcl) returns (wake: Action, s': Dcl)
    requires Own(s) && QueueInv(s) && s.mx.consumer.None? && s.q.events != [] && s.consumer.CAsleep?
    ensures AboutToSignal(s, Actor(wake)) && Step(s, wake, s')
    ensures s'.consumer.CStart? && s'.q == s.q && s'.mx == s.mx
  {
    var t :| AboutToSignal(s, t);
    match t
    case DeinitT =>
      wake, s' := ByDeinit(DeinitSignal), s.(consumer := CStart, deinit := DCommsStop);
    case CollectorT(c) =>
      wake, s' := ByCollector(c, Signal), s.(l1 := SetPc(s.l1, c, Leaving), consumer := CStart);
    case PusherT(p) =>
      wake, s' := ByPusher(p, PusherAct.PushSignal), s.(pushers := s.pushers - {p}, consumer := CStart);
  }

  /** Awake and with the lock free, the consumer takes the first event in three steps of its own. */
  lemma AwakeTakesNext(s: Dcl) returns (s1: Dcl, s2: Dcl, s': Dcl)
    requires s.consumer.CStart? && s.mx.consumer.None? && s.q.events != [] && s.q.wakeup && !s.q.exit
    ensures Step(s, ByConsumer(Acquire), s1) && Step(s1, ByConsumer(ConsumerAct.Begin), s2) && Step(s2, ByConsumer(Pop), s')
    ensures s'.q.popped == s.q.popped + [s.q.events[0]]
  {
    s1 := s.(mx := s.mx.(consumer := Some(ConsumerT)), consumer := CHead);
    s2 := s1.(consumer := CDrain);
    s' := s2.(q := s.q.(events := s.q.events[1..], popped := s.q.popped + [s.q.events[0]]), consumer := StartOf(s.q.events[0]));
  }

  /**
   No lost wakeup: whenever the lock is free and something is queued, the next event is at most
   four steps away, the first of them (if the consumer sleeps) by a thread already past its push.
   */
  lemma NoLostWakeup(s: Dcl) returns (wake: Action, s0: Dcl, s1: Dcl, s2: Dcl, s': Dcl)
    requires Own(s) && QueueInv(s) && s.mx.consumer.None? && s.q.events != [] && !s.q.exit
    ensures if s.consumer.CAsleep? then AboutToSignal(s, Actor(wake)) && Step(s, wake, s0) else s0 == s
    ensures Step(s0, ByConsumer(Acquire), s1) && Step(s1, ByConsumer(ConsumerAct.Begin), s2) && Step(s2, ByConsumer(Pop), s')
    ensures s'.q.popped == s.q.popped + [s.q.events[0]]
  {
    wake, s0 := ByConsumer(Acquire), s;
    if s.consumer.CAsleep? {
      wake, s0 := SleeperIsWoken(s);
    }
    s1, s2, s' := AwakeTakesNext(s0);
  }

  /** Once exit_consumer is set nothing more is taken from the queue. */
  lemma NothingProcessedAfterExit(s: Dcl, a: Action, s': Dcl)
    requires Own(s) && QueueInv(s) && Step(s, a, s') && s.q.exit
    ensures s'.q.popped == s.q.popped
  {
    if a.ByConsumer? {
      if s'.q.popped != s.q.popped {
        OnlyPopProcesses(s, a.ca, s');
        assert false;
      }
    } else {
      OthersProcessNothing(s, a, s');
    }
  }

  lemma OthersProcessNothing(s: Dcl, a: Action, s': Dcl)
    requires Step(s, a, s') && !a.ByConsumer?
    ensures s'.q.popped == s.q.popped
  {
  }

  lemma OnlyPopProcesses(s: Dcl, a: ConsumerAct, s': Dcl)
    requires ConsumerStep(s, a, s') && s'.q.popped != s.q.popped
    ensures a.Pop? && s.consumer.CDrain?
  {
  }
}
