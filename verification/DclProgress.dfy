/**
 Progress: while a mutex is held, a thread that holds one can always take a step,
 so no set of threads is stuck on the mutexes.
 */
module DclProgress {
  import opened Wrappers
  import opened DclState
  import opened L1Slots
  import opened DclSteps
  import opened DclLocks
  import opened DclTable

  lemma ScanMoves(s: Dcl) returns (a: Action, s': Dcl)
    requires s.consumer.CScan?
    ensures Step(s, a, s') && Actor(a) == ConsumerT
  {
    var CScan(d, rest, k, found) := s.consumer;
    if k >= |s.l1.slots| {
      a := ByConsumer(ScanEnd);
      if found.Some? && found.value in s.l1.coll {
        var x := s.l1.coll[found.value];
        s' := s.(mx := s.mx.(l1 := None), consumer := CGate(DoneOf(d, rest)),
                 l1 := SetCollector(s.l1, found.value, x.(direct := x.direct + 1)));
      } else {
        s' := s.(mx := s.mx.(l1 := None), consumer := CGate(StationOf(d, rest)));
      }
    } else if HoldsMac(s.l1.slots, s.l1.coll, k, d.mac) {
      a := ByConsumer(ScanHit(false));
      s' := s.(consumer := CScan(d, rest, k + 1, Some(s.l1.slots[k].value)));
    } else {
      a := ByConsumer(ScanMiss);
      s' := s.(consumer := CScan(d, rest, k + 1, found));
    }
  }

  lemma DeviceMoves(s: Dcl) returns (a: Action, s': Dcl)
    requires s.consumer.CDevices? || s.consumer.CScan? || s.consumer.CStopWait? || (s.consumer.CWantL1? && s.mx.l1.None?)
    ensures Step(s, a, s') && Actor(a) == ConsumerT
  {
    match s.consumer
    case CDevices(rest) =>
      a := ByConsumer(NextDevice);
      s' := s.(consumer := if rest == [] then CDrain
                           else if rest[0].leaving then CWantL1(rest[0], rest[1..])
                           else CGate(StationOf(rest[0], rest[1..])));
    case CWantL1(d, rest) =>
      a := ByConsumer(AcquireL1);
      s' := s.(mx := s.mx.(l1 := Some(ConsumerT)), consumer := CScan(d, rest, 0, None));
    case CStopWait(d, rest, k, c) =>
      a := ByConsumer(StopTimeout);
      s' := s.(consumer := CScan(d, rest, k + 1, Some(c)));
    case _ => a, s' := ScanMoves(s);
  }

  lemma LoopMoves(s: Dcl) returns (a: Action, s': Dcl)
    requires s.consumer.CHead? || s.consumer.CDrain?
    ensures Step(s, a, s') && Actor(a) == ConsumerT
  {
    if s.consumer.CHead? {
      a := ByConsumer(if !s.q.wakeup then Sleep else if s.q.exit then Leave else ConsumerAct.Begin);
      s' := if !s.q.wakeup then s.(mx := s.mx.(consumer := None), consumer := CAsleep)
            else if s.q.exit then s.(mx := s.mx.(consumer := None), consumer := CExited)
            else s.(consumer := CDrain);
    } else if s.q.events == [] {
      a := ByConsumer(Drained);
      s' := s.(q := s.q.(wakeup := false), consumer := CHead);
    } else {
      var ev := s.q.events[0];
      a := ByConsumer(Pop);
      s' := s.(q := s.q.(events := s.q.events[1..], popped := s.q.popped + [ev]), consumer := StartOf(ev));
    }
  }

  lemma EmitMoves(s: Dcl) returns (a: Action, s': Dcl)
    requires s.consumer.CGate? || s.consumer.CEmit? || s.consumer.CWrite? || s.consumer.CWait?
    ensures Step(s, a, s') && Actor(a) == ConsumerT
  {
    match s.consumer
    case CGate(site) =>
      a := ByConsumer(Gate);
      s' := s.(consumer := if s.h.ready then CEmit(site) else AfterFail(site));
    case CEmit(site) =>
      a := ByConsumer(AllocFail);
      s' := s.(h := s.h.(tlv := None), consumer := AfterFail(site), log := s.log + [Attempt]);
    case CWrite(site, out) =>
      a := ByConsumer(WriteReady(false));
      s' := HandoffFailed(s, site, s.h.acks);
    case CWait(site, out) =>
      a := ByConsumer(WaitTimeout);
      s' := HandoffFailed(s, site, s.h.acks);
  }

  lemma ConsumerMoves(s: Dcl) returns (a: Action, s': Dcl)
    requires ConsumerInside(s.consumer) && (s.consumer.CWantL1? ==> s.mx.l1.None?)
    ensures Step(s, a, s') && Actor(a) == ConsumerT
  {
    if s.consumer.CHead? || s.consumer.CDrain? {
      a, s' := LoopMoves(s);
    } else if s.consumer.CGate? || s.consumer.CEmit? || s.consumer.CWrite? || s.consumer.CWait? {
      a, s' := EmitMoves(s);
    } else {
      a, s' := DeviceMoves(s);
    }
  }

  lemma CommsMoves(s: Dcl) returns (a: Action, s': Dcl)
    requires s.comms.HelloHold? || s.comms.StartHold?
    ensures Step(s, a, s') && Actor(a) == CommsT
  {
    if s.comms.HelloHold? {
      a := ByComms(SetReady);
      s' := s.(mx := s.mx.(consumer := None), h := s.h.(ready := true), comms := Idle, log := s.log + [Ready]);
    } else {
      a := ByComms(RejectStart(false));
      s' := s.(mx := s.mx.(l1 := None), comms := Idle);
    }
  }

  lemma CollectorMoves(s: Dcl, c: nat) returns (a: Action, s': Dcl)
    requires c in s.l1.coll && (CollectorInside(s.l1.coll[c].pc) || s.l1.coll[c].pc.L1Hold?)
    ensures Step(s, a, s') && Actor(a) == CollectorT(c)
  {
    var x := s.l1.coll[c];
    if x.pc.PushHold? {
      a := ByCollector(c, Enqueue);
      s' := s.(l1 := SetCollector(s.l1, c, x.(pc := PushQueued, queued := x.queued + 1)),
               q := s.q.(events := s.q.events + [L1Done(c)], pushed := s.q.pushed + [L1Done(c)]));
    } else if x.pc.PushQueued? {
      a := ByCollector(c, RaiseFlag);
      s' := s.(l1 := SetPc(s.l1, c, CollectorPc.PushSignal), q := s.q.(wakeup := true), mx := s.mx.(consumer := None));
    } else {
      a := ByCollector(c, ClearSlot);
      s' := s.(l1 := SetPc(s.l1, c, Cleared).(slots := Evict(s.l1.slots, c)),
               h := s.h.(acks := s.h.acks - {CollectorAck(c)}), mx := s.mx.(l1 := None));
    }
  }

  lemma PusherMoves(s: Dcl, p: nat) returns (a: Action, s': Dcl)
    requires p in s.pushers && PusherInside(s.pushers[p])
    ensures Step(s, a, s') && Actor(a) == PusherT(p)
  {
    if s.pushers[p].PHold? {
      var ev := s.pushers[p].ev;
      a := ByPusher(p, PushEnqueue);
      s' := s.(pushers := s.pushers[p := PQueued], q := s.q.(events := s.q.events + [ev], pushed := s.q.pushed + [ev]));
    } else {
      a := ByPusher(p, PushRaiseFlag);
      s' := s.(pushers := s.pushers[p := PSignal], q := s.q.(wakeup := true), mx := s.mx.(consumer := None));
    }
  }

  lemma DeinitMoves(s: Dcl) returns (a: Action, s': Dcl)
    requires TableInv(s) && (s.deinit.DHold? || DeinitInsideL1(s.deinit))
    ensures Step(s, a, s') && Actor(a) == DeinitT
  {
    match s.deinit
    case DScan(k) =>
      if k >= |s.l1.slots| {
        a := ByDeinit(DeinitDisable);
        s' := s.(l1 := s.l1.(disabled := true), mx := s.mx.(l1 := None), deinit := DFifoWait);
      } else if s.l1.slots[k].None? {
        a := ByDeinit(DeinitSkip);
        s' := s.(deinit := DScan(k + 1));
      } else {
        var c := s.l1.slots[k].value;
        assert Registered(s.l1, c);
        a := ByDeinit(DeinitStop(false));
        s' := s.(l1 := SetCollector(s.l1, c, s.l1.coll[c].(byDeinit := true)), deinit := DStopWait(k));
      }
    case DStopWait(k) =>
      a := ByDeinit(DeinitStopDone(None));
      s' := s.(deinit := DScan(k + 1));
    case _ =>
      a := ByDeinit(DeinitExit);
      s' := s.(q := s.q.(exit := true, wakeup := true), mx := s.mx.(consumer := None), deinit := DSignal);
  }

  /** While a mutex is held, some thread that holds one can move. */
  lemma SomeHolderMoves(s: Dcl) returns (t: Tid, a: Action, s': Dcl)
    requires Own(s) && TableInv(s) && (s.mx.consumer.Some? || s.mx.l1.Some?)
    ensures Step(s, a, s') && Actor(a) == t && (s.mx.consumer == Some(t) || s.mx.l1 == Some(t))
  {
    t := if s.mx.l1.Some? then s.mx.l1.value else s.mx.consumer.value;
    match t
    case ConsumerT => a, s' := ConsumerMoves(s);
    case CommsT => a, s' := CommsMoves(s);
    case DeinitT => a, s' := DeinitMoves(s);
    case CollectorT(c) => a, s' := CollectorMoves(s, c);
    case PusherT(p) => a, s' := PusherMoves(s, p);
  }
}
