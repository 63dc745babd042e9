/**
 From the event taken to the TLV attempted: which event leads to which tag, which
 devices follow a diff, and what comms_ready means.
 */
module DclDispatch {
  import opened Notify
  import opened DclState
  import opened DclSteps
  import opened DclGating
  import opened DclRequests
  import opened DclSends

  // ----- events and tags

  /** todo is what is left of all, in order. */
  predicate Suffix(todo: seq<Device>, all: seq<Device>) {
    |todo| <= |all| && all[|all| - |todo|..] == todo
  }

  /** The event taken last calls for a TLV of this site. */
  predicate SiteFits(ev: Event, site: Site) {
    match site
    case Single(DataBatch) => ev.Frame?
    case Single(CsiAndCfo) => ev.Csi?
    case Single(L1CollectionDone) => ev.L1Done?
    case Single(TemperatureData) => ev.Temperature?
    case Single(_) => false
    case DoneOf(d, rest) => ev.Diff? && Suffix([d] + rest, ev.devices) && d.leaving
    case StationOf(d, rest) => ev.Diff? && Suffix([d] + rest, ev.devices)
    case RadioOf(d, rest) => ev.Diff? && Suffix([d] + rest, ev.devices)
  }

  predicate DevicesFit(ev: Event, todo: seq<Device>) {
    ev.Diff? && Suffix(todo, ev.devices)
  }

  predicate Fits(pc: ConsumerPc, ev: Event) {
    match pc
    case CGate(site) => SiteFits(ev, site)
    case CEmit(site) => SiteFits(ev, site)
    case CWrite(site, _) => SiteFits(ev, site)
    case CWait(site, _) => SiteFits(ev, site)
    case CDevices(rest) => DevicesFit(ev, rest)
    case CWantL1(d, rest) => DevicesFit(ev, [d] + rest) && d.leaving
    case CScan(d, rest, _, _) => DevicesFit(ev, [d] + rest) && d.leaving
    case CStopWait(d, rest, _, _) => DevicesFit(ev, [d] + rest) && d.leaving
    case _ => true
  }

  predicate Processing(pc: ConsumerPc) {
    ConsumerInside(pc) && !pc.CHead? && !pc.CDrain?
  }

  /** What the consumer is at follows from the event it took last. */
  predicate DispatchInv(s: Dcl) {
    Processing(s.consumer) ==> s.q.popped != [] && Fits(s.consumer, s.q.popped[|s.q.popped| - 1])
  }

  lemma DispatchInit(s: Dcl)
    requires Init(s)
    ensures DispatchInv(s)
  {
  }

  /** What taking an event leads to, event by event. */
  lemma PopLeadsTo(s: Dcl, s': Dcl)
    requires LoopStep(s, Pop, s')
    ensures s.q.events[0].Frame? ==> s'.consumer == CGate(Single(DataBatch))
    ensures s.q.events[0].Csi? ==> s'.consumer == CGate(Single(CsiAndCfo))
    ensures s.q.events[0].L1Done? ==> s'.consumer == CGate(Single(L1CollectionDone))
    ensures s.q.events[0].Temperature? ==> s'.consumer == CGate(Single(TemperatureData))
    ensures s.q.events[0].Diff? ==> s'.consumer == CDevices(s.q.events[0].devices)
    ensures s.q.events[0].Config? ==> s'.consumer == CDrain
    ensures s'.q.popped == s.q.popped + [s.q.events[0]]
  {
  }

  lemma DispatchLoop(s: Dcl, a: ConsumerAct, s': Dcl)
    requires DispatchInv(s) && LoopStep(s, a, s')
    ensures DispatchInv(s')
  {
    if a.Pop? {
      PopLeadsTo(s, s');
    }
  }

  lemma Shorter(todo: seq<Device>, all: seq<Device>)
    requires todo != [] && Suffix(todo, all)
    ensures Suffix(todo[1..], all) && Suffix([todo[0]] + todo[1..], all)
  {
    assert all[|all| - |todo[1..]|..] == all[|all| - |todo|..][1..];
    assert [todo[0]] + todo[1..] == todo;
  }

  lemma DispatchDevice(s: Dcl, a: ConsumerAct, s': Dcl)
    requires DispatchInv(s) && DeviceStep(s, a, s')
    ensures DispatchInv(s')
  {
    if a.NextDevice? && s.consumer.rest != [] {
      Shorter(s.consumer.rest, s.q.popped[|s.q.popped| - 1].devices);
    }
  }

  lemma DispatchEmit(s: Dcl, a: ConsumerAct, s': Dcl)
    requires DispatchInv(s) && EmitStep(s, a, s')
    ensures DispatchInv(s')
  {
    var site := s.consumer.site;
    if !site.Single? {
      Shorter([site.d] + site.rest, s.q.popped[|s.q.popped| - 1].devices);
      assert ([site.d] + site.rest)[1..] == site.rest;
    }
  }

  lemma DispatchElsewhere(s: Dcl, s': Dcl)
    requires DispatchInv(s) && s'.q.popped == s.q.popped
    requires s'.consumer == s.consumer || (s.consumer.CAsleep? && s'.consumer.CStart?)
    ensures DispatchInv(s')
  {
  }

  lemma DispatchStep(s: Dcl, a: Action, s': Dcl)
    requires DispatchInv(s) && Step(s, a, s')
    ensures DispatchInv(s')
  {
    match a
    case ByConsumer(x) =>
      if LoopStep(s, x, s') { DispatchLoop(s, x, s'); }
      else if DeviceStep(s, x, s') { DispatchDevice(s, x, s'); }
      else { DispatchEmit(s, x, s'); }
    case ByComms(x) =>
      CommsAsksNothing(s, x, s', 0);
      DispatchElsewhere(s, s');
    case ByCollector(c, x) =>
      CollectorAsksNothing(s, c, x, s', 0);
      DispatchElsewhere(s, s');
    case ByPusher(_, _) => DispatchElsewhere(s, s');
    case ByDeinit(x) =>
      DeinitAsksNothing(s, x, s', 0);
      DispatchElsewhere(s, s');
  }

  // ----- from one device to the next

  /** The devices of a diff still to be dealt with, the one in hand first. */
  function Todo(pc: ConsumerPc): seq<Device> {
    match pc
    case CDevices(rest) => rest
    case CWantL1(d, rest) => [d] + rest
    case CScan(d, rest, _, _) => [d] + rest
    case CStopWait(d, rest, _, _) => [d] + rest
    case CGate(site) => TodoAt(site)
    case CEmit(site) => TodoAt(site)
    case CWrite(site, _) => TodoAt(site)
    case CWait(site, _) => TodoAt(site)
    case _ => []
  }

  function TodoAt(site: Site): seq<Device> {
    if site.Single? then [] else [site.d] + site.rest
  }

  /** The first device left is handed to its collector's stop if it leaves, else straight to its station update. */
  lemma NextDeviceLeadsTo(s: Dcl, s': Dcl)
    requires DeviceStep(s, NextDevice, s')
    ensures s.consumer.CDevices?
    ensures s.consumer.rest == [] ==> s'.consumer == CDrain
    ensures s.consumer.rest != [] ==>
              Todo(s'.consumer) == s.consumer.rest
              && if s.consumer.rest[0].leaving then s'.consumer.CWantL1? else s'.consumer.CGate? && s'.consumer.site.StationOf?
  {
    if s.consumer.rest != [] {
      assert [s.consumer.rest[0]] + s.consumer.rest[1..] == s.consumer.rest;
    }
  }

  /** No step of the consumer loses a device: all stay, or the one in hand is done with. */
  lemma NoDeviceSkipped(s: Dcl, a: ConsumerAct, s': Dcl)
    requires ConsumerStep(s, a, s') && Processing(s.consumer)
    ensures Todo(s'.consumer) == Todo(s.consumer) || (Todo(s.consumer) != [] && s'.consumer == CDevices(Todo(s.consumer)[1..]))
  {
    if a.NextDevice? {
      NextDeviceLeadsTo(s, s');
    } else if DeviceStep(s, a, s') {
      StopKeepsDevices(s, a, s');
    } else {
      EmitKeepsDevices(s, a, s');
    }
  }

  lemma StopKeepsDevices(s: Dcl, a: ConsumerAct, s': Dcl)
    requires DeviceStep(s, a, s') && !a.NextDevice?
    ensures Todo(s'.consumer) == Todo(s.consumer)
  {
  }

  lemma EmitKeepsDevices(s: Dcl, a: ConsumerAct, s': Dcl)
    requires EmitStep(s, a, s')
    ensures Todo(s'.consumer) == Todo(s.consumer) || (Todo(s.consumer) != [] && s'.consumer == CDevices(Todo(s.consumer)[1..]))
  {
    var site := s.consumer.site;
    assert !site.Single? ==> ([site.d] + site.rest)[1..] == site.rest;
  }

  /** A radio update is attempted only right behind the station update that was sent. */
  predicate RadioInv(s: Dcl) {
    (s.consumer.CEmit? || s.consumer.CWrite? || s.consumer.CWait?) && s.consumer.site.RadioOf? ==>
      s.h.emits != [] && s.h.emits[|s.h.emits| - 1].tag == StationUpdate
  }

  lemma RadioStep(s: Dcl, a: Action, s': Dcl)
    requires DispatchInv(s) && Carrying(s) && RadioInv(s) && NoRadioAtGate(s) && Step(s, a, s')
    ensures RadioInv(s') && NoRadioAtGate(s')
  {
    match a
    case ByConsumer(x) =>
      if EmitStep(s, x, s') { RadioEmit(s, x, s'); } else { LoopCarries(s, x, s'); NotAtRadio(s, x, s'); }
    case ByComms(x) => CommsCarries(s, x, s');
    case _ => OtherThreadsFrame(s, a, s');
  }

  predicate NoRadioAtGate(s: Dcl) {
    s.consumer.CGate? ==> !s.consumer.site.RadioOf?
  }

  lemma RadioEmit(s: Dcl, a: ConsumerAct, s': Dcl)
    requires Carrying(s) && RadioInv(s) && NoRadioAtGate(s) && EmitStep(s, a, s')
    ensures RadioInv(s') && NoRadioAtGate(s')
  {
  }

  lemma NotAtRadio(s: Dcl, a: ConsumerAct, s': Dcl)
    requires LoopStep(s, a, s') || DeviceStep(s, a, s')
    ensures !s'.consumer.CEmit? && !s'.consumer.CWrite? && !s'.consumer.CWait? && NoRadioAtGate(s')
  {
  }

  // ----- what the flags mean

  /** The last thing said about the comms is that they are ready. */
  ghost predicate LastReady(log: seq<Mark>) {
    exists k :: 0 <= k < |log| && log[k].Ready? && forall j | k < j < |log| :: !log[j].Failed?
  }

  ghost predicate ReadyInv(s: Dcl) {
    s.h.ready <==> LastReady(s.log)
  }

  lemma LastReadyNext(log: seq<Mark>, m: Mark)
    ensures LastReady(log + [m]) <==> m.Ready? || (LastReady(log) && !m.Failed?)
  {
    var log' := log + [m];
    if m.Ready? {
      assert log'[|log|].Ready?;
    } else {
      if k :| 0 <= k < |log| && log[k].Ready? && forall j | k < j < |log| :: !log[j].Failed? {
        assert log'[k].Ready?;
      }
      if k :| 0 <= k < |log'| && log'[k].Ready? && forall j | k < j < |log'| :: !log'[j].Failed? {
        assert log[k].Ready? && !log'[|log|].Failed?;
        assert forall j | k < j < |log| :: log[j] == log'[j];
      }
    }
  }

  lemma ReadyEmit(s: Dcl, a: ConsumerAct, s': Dcl)
    requires ReadyInv(s) && EmitStep(s, a, s')
    ensures ReadyInv(s')
  {
    if s'.log != s.log {
      var m := s'.log[|s.log|];
      assert s'.log == s.log + [m];
      LastReadyNext(s.log, m);
    }
  }

  lemma ReadySocket(s: Dcl, a: CommsAct, s': Dcl)
    requires ReadyInv(s) && SocketStep(s, a, s')
    ensures ReadyInv(s')
  {
    LastReadyNext(s.log, Version);
    LastReadyNext(s.log, Ready);
  }

  lemma ReadyStep(s: Dcl, a: Action, s': Dcl)
    requires ReadyInv(s) && Step(s, a, s')
    ensures ReadyInv(s')
  {
    match a
    case ByConsumer(x) => if EmitStep(s, x, s') { ReadyEmit(s, x, s'); } else { LoopLeavesLog(s, x, s'); }
    case ByComms(x) => if SocketStep(s, x, s') { ReadySocket(s, x, s'); }
    case _ => OtherThreadsFrame(s, a, s');
  }

  lemma LoopLeavesLog(s: Dcl, a: ConsumerAct, s': Dcl)
    requires LoopStep(s, a, s') || DeviceStep(s, a, s')
    ensures s'.log == s.log && s'.h.ready == s.h.ready
  {
  }

  lemma FlagsInit(s: Dcl)
    requires Init(s)
    ensures ReadyInv(s) && RadioInv(s) && NoRadioAtGate(s)
  {
  }
}
