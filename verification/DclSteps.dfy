/**
 The steps of the machine, one relation per thread. A step is labelled with the
 choice the environment made: results of foreign calls, which eventfds epoll
 reports, whether a wait times out. epoll_wait and the reads it leads to are one
 step: a write by another thread between the two could as well have come before.
 */
module DclSteps {
  import opened Wrappers
  import opened Notify
  import opened TlvFraming
  import opened MacAddress
  import opened DclState
  import opened L1Slots

  /** epoll_wait reports at most MAX_EPOLL_EVENTS == 2 descriptors. */
  datatype Batch = One(fd: Fd) | Two(fd: Fd, fd2: Fd)

  predicate Reported(acks: map<Fd, nat>, b: Batch) {
    && b.fd in acks && acks[b.fd] > 0
    && (b.Two? ==> b.fd2 != b.fd && b.fd2 in acks && acks[b.fd2] > 0)
  }

  /** cujoagent_wait_for_event on a reported batch: reads in order, gives up at the first mismatch. */
  function Read(acks: map<Fd, nat>, b: Batch, expected: nat): (map<Fd, nat>, bool)
    requires Reported(acks, b)
  {
    if acks[b.fd] != expected || b.One? then (acks[b.fd := 0], acks[b.fd] == expected)
    else (acks[b.fd := 0][b.fd2 := 0], acks[b.fd2] == expected)
  }

  /** eventfd write: adds to the counter. */
  function Written(acks: map<Fd, nat>, fd: Fd, token: nat, written: bool): map<Fd, nat> {
    if written && fd in acks then acks[fd := acks[fd] + token] else acks
  }

  function SetCollector(t: Collections, c: nat, x: Collector): Collections {
    t.(coll := t.coll[c := x])
  }

  function SetPc(t: Collections, c: nat, pc: CollectorPc): Collections
    requires c in t.coll
  {
    SetCollector(t, c, t.coll[c].(pc := pc))
  }

  // ----- consumer thread

  datatype ConsumerAct =
    | Acquire
    | SpuriousWake
    | Sleep
    | Leave
    | Begin
    | Pop
    | Drained
    | NextDevice
    | AcquireL1
    | ScanMiss
    | ScanHit(written: bool)
    | ScanEnd
    | StopRead(batch: Batch)
    | StopTimeout
    | Gate
    | GiveUp
    | AllocFail
    | Alloc(payload: seq<byte>)
    | WriteReady(written: bool)
    | WaitRead(batch: Batch)
    | WaitTimeout

  function StartOf(ev: Event): ConsumerPc {
    match ev
    case Config => CDrain
    case Diff(devices) => CDevices(devices)
    case Frame => CGate(Single(DataBatch))
    case Csi => CGate(Single(CsiAndCfo))
    case L1Done(_) => CGate(Single(L1CollectionDone))
    case Temperature => CGate(Single(TemperatureData))
  }

  /** Where the consumer goes on when the emit at a site succeeded. */
  function AfterOk(site: Site): ConsumerPc {
    match site
    case Single(_) => CDrain
    case DoneOf(d, rest) => CGate(StationOf(d, rest))
    case StationOf(d, rest) => CEmit(RadioOf(d, rest))
    case RadioOf(_, rest) => CDevices(rest)
  }

  /** Where it goes on when the emit failed, or comms_ready was false. */
  function AfterFail(site: Site): ConsumerPc {
    if site.Single? then CDrain else CDevices(site.rest)
  }

  /** cujoagent_consumer_queue_loop. */
  predicate LoopStep(s: Dcl, a: ConsumerAct, s': Dcl) {
    match a
    case Acquire =>
      && s.consumer.CStart? && s.mx.consumer.None?
      && s' == s.(mx := s.mx.(consumer := Some(ConsumerT)), consumer := CHead)
    case SpuriousWake => s.consumer.CAsleep? && s' == s.(consumer := CStart)
    case Sleep =>
      && s.consumer.CHead? && !s.q.wakeup
      && s' == s.(mx := s.mx.(consumer := None), consumer := CAsleep)
    case Leave =>
      && s.consumer.CHead? && s.q.wakeup && s.q.exit
      && s' == s.(mx := s.mx.(consumer := None), consumer := CExited)
    case Begin => s.consumer.CHead? && s.q.wakeup && !s.q.exit && s' == s.(consumer := CDrain)
    case Pop =>
      && s.consumer.CDrain? && s.q.events != []
      && var ev := s.q.events[0];
         s' == s.(q := s.q.(events := s.q.events[1..], popped := s.q.popped + [ev]), consumer := StartOf(ev))
    case Drained =>
      && s.consumer.CDrain? && s.q.events == []
      && s' == s.(q := s.q.(wakeup := false), consumer := CHead)
    case _ => false
  }

  /** cujoagent_process_client_state up to the first emit for a device: stopping its L1 collector. */
  predicate DeviceStep(s: Dcl, a: ConsumerAct, s': Dcl) {
    match a
    case NextDevice =>
      && s.consumer.CDevices?
      && var rest := s.consumer.rest;
         s' == s.(consumer :=
           if rest == [] then CDrain
           else if rest[0].leaving then CWantL1(rest[0], rest[1..])
           else CGate(StationOf(rest[0], rest[1..])))
    case AcquireL1 =>
      && s.consumer.CWantL1? && s.mx.l1.None?
      && s' == s.(mx := s.mx.(l1 := Some(ConsumerT)), consumer := CScan(s.consumer.d, s.consumer.rest, 0, None))
    case ScanMiss =>
      && s.consumer.CScan? && s.consumer.k < |s.l1.slots|
      && !HoldsMac(s.l1.slots, s.l1.coll, s.consumer.k, s.consumer.d.mac)
      && var CScan(d, rest, k, found) := s.consumer;
         s' == s.(consumer := CScan(d, rest, k + 1, found))
    case ScanHit(written) =>
      && s.consumer.CScan? && s.consumer.k < |s.l1.slots|
      && HoldsMac(s.l1.slots, s.l1.coll, s.consumer.k, s.consumer.d.mac)
      && var CScan(d, rest, k, _) := s.consumer;
         var c := s.l1.slots[k].value;
         var x := s.l1.coll[c];
         s' == if written then
                 s.(l1 := SetCollector(s.l1, c, x.(note := x.note + NOTIFY_L1_THREAD_STOP)),
                    consumer := CStopWait(d, rest, k, c))
               else s.(consumer := CScan(d, rest, k + 1, Some(c)))
    case ScanEnd =>
      && s.consumer.CScan? && s.consumer.k >= |s.l1.slots|
      && var CScan(d, rest, _, found) := s.consumer;
         s' == if found.Some? && found.value in s.l1.coll then
                 var x := s.l1.coll[found.value];
                 s.(mx := s.mx.(l1 := None), consumer := CGate(DoneOf(d, rest)),
                    l1 := SetCollector(s.l1, found.value, x.(direct := x.direct + 1)))
               else s.(mx := s.mx.(l1 := None), consumer := CGate(StationOf(d, rest)))
    case StopRead(batch) =>
      && s.consumer.CStopWait? && Reported(s.h.acks, batch)
      && var CStopWait(d, rest, k, c) := s.consumer;
         s' == s.(h := s.h.(acks := Read(s.h.acks, batch, NOTIFY_L1_THREAD_RETURN).0),
                  consumer := CScan(d, rest, k + 1, Some(c)))
    case StopTimeout =>
      && s.consumer.CStopWait?
      && var CStopWait(d, rest, k, c) := s.consumer;
         s' == s.(consumer := CScan(d, rest, k + 1, Some(c)))
    case _ => false
  }

  /** The error path of cujoagent_emit_event_tlv after the TLV was allocated. */
  function HandoffFailed(s: Dcl, site: Site, acks: map<Fd, nat>): Dcl {
    s.(h := s.h.(ready := false, tlv := None, acks := acks), consumer := AfterFail(site),
       log := s.log + [Failed(s.comms.HelloLock? || s.comms.HelloHold?)])
  }

  /** The comms_ready checks and cujoagent_emit_event_tlv. */
  predicate EmitStep(s: Dcl, a: ConsumerAct, s': Dcl) {
    match a
    case Gate =>
      && s.consumer.CGate?
      && var site := s.consumer.site;
         s' == s.(consumer := if s.h.ready then CEmit(site) else AfterFail(site))
    case GiveUp =>                    // the data for the event could not be gathered, or is not complete yet
      && s.consumer.CGate? && s.consumer.site.Single? && s.consumer.site.tag != L1CollectionDone
      && s' == s.(consumer := CDrain)
    case AllocFail =>
      && s.consumer.CEmit?
      && s' == s.(h := s.h.(tlv := None), consumer := AfterFail(s.consumer.site), log := s.log + [Attempt])
    case Alloc(payload) =>
      && s.consumer.CEmit?
      && var out := BuildTlv(SiteTag(s.consumer.site), payload);
         s' == s.(h := s.h.(tlv := Some(out)), consumer := CWrite(s.consumer.site, out), log := s.log + [Attempt])
    case WriteReady(written) =>
      && s.consumer.CWrite?
      && var CWrite(site, out) := s.consumer;
         s' == if written then s.(h := s.h.(note := s.h.note + ReadyToken(SiteTag(site))), consumer := CWait(site, out))
               else HandoffFailed(s, site, s.h.acks)
    case WaitRead(batch) =>
      && s.consumer.CWait? && Reported(s.h.acks, batch)
      && var CWait(site, out) := s.consumer;
         var (acks, ok) := Read(s.h.acks, batch, SentToken(SiteTag(site)));
         s' == if ok then s.(h := s.h.(acks := acks, tlv := None, emits := s.h.emits + [out]), consumer := AfterOk(site))
               else HandoffFailed(s, site, acks)
    case WaitTimeout => s.consumer.CWait? && s' == HandoffFailed(s, s.consumer.site, s.h.acks)
    case _ => false
  }

  predicate ConsumerStep(s: Dcl, a: ConsumerAct, s': Dcl) {
    LoopStep(s, a, s') || DeviceStep(s, a, s') || EmitStep(s, a, s')
  }

  // ----- comms thread

  datatype CommsAct =
    | Hello(versionSent: bool)
    | AcquireForReady
    | SetReady
    | ReadNote
    | LookAtTlv
    | CompareSize
    | Send(sent: bool)
    | WriteAck(written: bool)
    | AckStop(written: bool)
    | ReceiveStart(mac: Mac)
    | AcquireForStart
    | RejectStart(resources: bool)
    | AcceptStart(c: nat)
    | CreateThread

  /** What the comms thread does with a notification it read. */
  function OnNote(note: nat): CommsPc {
    match AnswerTo(note)
    case Some(sent) => NullCheck(sent)
    case None => if note == NOTIFY_SOCKET_THREAD_STOP then StopAck else Idle
  }

  /** Answering HELLO and sending TLVs. */
  predicate SocketStep(s: Dcl, a: CommsAct, s': Dcl) {
    match a
    case Hello(versionSent) =>
      && (s.comms.Handshake? || s.comms.Idle?)
      && s' == if versionSent then s.(comms := HelloLock, log := s.log + [Version])
               else s.(comms := if s.comms.Handshake? then Exited else Idle)
    case AcquireForReady =>
      && s.comms.HelloLock? && s.mx.consumer.None?
      && s' == s.(mx := s.mx.(consumer := Some(CommsT)), comms := HelloHold)
    case SetReady =>
      && s.comms.HelloHold?
      && s' == s.(mx := s.mx.(consumer := None), h := s.h.(ready := true), comms := Idle, log := s.log + [Ready])
    case ReadNote =>
      && s.comms.Idle? && s.h.note > 0
      && s' == s.(h := s.h.(note := 0), comms := OnNote(s.h.note))
    case LookAtTlv => s.comms.NullCheck? && s' == s.(comms := if s.h.tlv.None? then Idle else SizeCheck(s.comms.sent))
    case CompareSize =>
      && s.comms.SizeCheck?
      && s' == s.(comms := if s.h.tlv.Some? && SizeAgrees(s.h.tlv.value) then SendTo(s.comms.sent) else Idle)
    case Send(sent) =>
      && s.comms.SendTo?
      && s' == if sent && s.h.tlv.Some? then
                 s.(h := s.h.(sends := s.h.sends + [s.h.tlv.value]), comms := AckWrite(s.comms.sent))
               else s.(comms := Idle)
    case WriteAck(written) =>
      && s.comms.AckWrite?
      && s' == s.(h := s.h.(acks := Written(s.h.acks, CommsAck, s.comms.sent, written)), comms := Idle)
    case AckStop(written) =>
      && s.comms.StopAck?
      && s' == s.(h := s.h.(acks := Written(s.h.acks, CommsAck, NOTIFY_SOCKET_THREAD_RETURN, written)), comms := Exited)
    case _ => false
  }

  /** cujoagent_start_l1_collection. */
  predicate StartStep(s: Dcl, a: CommsAct, s': Dcl) {
    match a
    case ReceiveStart(mac) => s.comms.Idle? && s' == s.(comms := StartLock(mac))
    case AcquireForStart =>
      && s.comms.StartLock? && s.mx.l1.None?
      && s' == s.(mx := s.mx.(l1 := Some(CommsT)), comms := StartHold(s.comms.mac))
    case RejectStart(resources) =>
      && s.comms.StartHold?
      && (resources ==> Admit(s.l1.slots, s.l1.coll, s.l1.disabled, s.comms.mac).None?)
      && s' == s.(mx := s.mx.(l1 := None), comms := Idle)
    case AcceptStart(c) =>
      && s.comms.StartHold? && c !in s.l1.coll
      && var slot := Admit(s.l1.slots, s.l1.coll, s.l1.disabled, s.comms.mac);
         && slot.Some?
         && s' == s.(mx := s.mx.(l1 := None), comms := Spawn(c),
                     h := s.h.(acks := s.h.acks[CollectorAck(c) := 0]),
                     l1 := Collections(s.l1.slots[slot.value := Some(c)], s.l1.disabled,
                                       s.l1.coll[c := Collector(s.comms.mac, slot.value, Created, 0, 0, 0, false, false)]))
    case CreateThread =>
      && s.comms.Spawn? && s.comms.c in s.l1.coll
      && s' == s.(l1 := SetPc(s.l1, s.comms.c, Setup), comms := Idle)
    case _ => false
  }

  predicate CommsStep(s: Dcl, a: CommsAct, s': Dcl) {
    SocketStep(s, a, s') || StartStep(s, a, s')
  }

  // ----- L1 collector threads

  datatype CollectorAct =
    | SetupOk
    | SetupFail
    | TimerOrTimeout
    | ReadStop
    | WriteReturn(written: bool)
    | LockQueue
    | Enqueue
    | RaiseFlag
    | Signal
    | LockL1
    | ClearSlot
    | Free

  /** pthread_cond_signal: wakes the consumer if it sleeps. */
  function Woken(pc: ConsumerPc): ConsumerPc {
    if pc.CAsleep? then CStart else pc
  }

  /** cujoagent_l1_collector: waiting to be stopped or to expire, and leaving the table. */
  predicate CollectStep(s: Dcl, c: nat, a: CollectorAct, s': Dcl) {
    && c in s.l1.coll
    && var x := s.l1.coll[c];
       match a
       case SetupOk => x.pc.Setup? && s' == s.(l1 := SetPc(s.l1, c, Waiting))
       case SetupFail => x.pc.Setup? && s' == s.(l1 := SetPc(s.l1, c, PushWant))
       case TimerOrTimeout => x.pc.Waiting? && s' == s.(l1 := SetPc(s.l1, c, PushWant))
       case ReadStop =>
         && x.pc.Waiting? && x.note > 0
         && s' == s.(l1 := SetCollector(s.l1, c,
              if x.note == NOTIFY_L1_THREAD_STOP then x.(note := 0, pc := ReturnAck, stopRead := true)
              else x.(note := 0, pc := PushWant)))
       case WriteReturn(written) =>
         && x.pc.ReturnAck?
         && s' == s.(l1 := SetPc(s.l1, c, Leaving),
                     h := s.h.(acks := Written(s.h.acks, CollectorAck(c), NOTIFY_L1_THREAD_RETURN, written)))
       case LockL1 =>
         && x.pc.Leaving? && s.mx.l1.None?
         && s' == s.(l1 := SetPc(s.l1, c, L1Hold), mx := s.mx.(l1 := Some(CollectorT(c))))
       case ClearSlot =>
         && x.pc.L1Hold?
         && s' == s.(l1 := SetPc(s.l1, c, Cleared).(slots := Evict(s.l1.slots, c)),
                     h := s.h.(acks := s.h.acks - {CollectorAck(c)}), mx := s.mx.(l1 := None))
       case Free => x.pc.Cleared? && s' == s.(l1 := SetPc(s.l1, c, Freed))
       case _ => false
  }

  /** The collector pushing its DONE event. */
  predicate DonePushStep(s: Dcl, c: nat, a: CollectorAct, s': Dcl) {
    && c in s.l1.coll
    && var x := s.l1.coll[c];
       match a
       case LockQueue =>
         && x.pc.PushWant? && s.mx.consumer.None?
         && s' == s.(l1 := SetPc(s.l1, c, PushHold), mx := s.mx.(consumer := Some(CollectorT(c))))
       case Enqueue =>
         && x.pc.PushHold?
         && s' == s.(l1 := SetCollector(s.l1, c, x.(pc := PushQueued, queued := x.queued + 1)),
                     q := s.q.(events := s.q.events + [L1Done(c)], pushed := s.q.pushed + [L1Done(c)]))
       case RaiseFlag =>
         && x.pc.PushQueued?
         && s' == s.(l1 := SetPc(s.l1, c, CollectorPc.PushSignal), q := s.q.(wakeup := true), mx := s.mx.(consumer := None))
       case Signal => x.pc.PushSignal? && s' == s.(l1 := SetPc(s.l1, c, Leaving), consumer := Woken(s.consumer))
       case _ => false
  }

  predicate CollectorStep(s: Dcl, c: nat, a: CollectorAct, s': Dcl) {
    CollectStep(s, c, a, s') || DonePushStep(s, c, a, s')
  }

  // ----- RBUS callbacks and the FIFO thread: anyone who pushes

  datatype PusherAct =
    | CallPush(ev: Event)
    | PushLock
    | PushEnqueue
    | PushRaiseFlag
    | PushSignal

  predicate PusherStep(s: Dcl, p: nat, a: PusherAct, s': Dcl) {
    match a
    case CallPush(ev) => p !in s.pushers && !ev.L1Done? && s' == s.(pushers := s.pushers[p := PWant(ev)])
    case PushLock =>
      && p in s.pushers && s.pushers[p].PWant? && s.mx.consumer.None?
      && s' == s.(pushers := s.pushers[p := PHold(s.pushers[p].ev)], mx := s.mx.(consumer := Some(PusherT(p))))
    case PushEnqueue =>
      && p in s.pushers && s.pushers[p].PHold?
      && var ev := s.pushers[p].ev;
         s' == s.(pushers := s.pushers[p := PQueued],
                  q := s.q.(events := s.q.events + [ev], pushed := s.q.pushed + [ev]))
    case PushRaiseFlag =>
      && p in s.pushers && s.pushers[p].PQueued?
      && s' == s.(pushers := s.pushers[p := PSignal], q := s.q.(wakeup := true), mx := s.mx.(consumer := None))
    case PushSignal =>
      && p in s.pushers && s.pushers[p].PSignal?
      && s' == s.(pushers := s.pushers - {p}, consumer := Woken(s.consumer))
  }

  // ----- the thread that runs cujoagent_wifidatacollection_deinit

  datatype DeinitAct =
    | StartDeinit
    | DeinitLockL1
    | DeinitSkip
    | DeinitStop(written: bool)
    | DeinitStopDone(batch: Option<Batch>)
    | DeinitDisable
    | DeinitFifo(batch: Option<Batch>)
    | DeinitLock
    | DeinitExit
    | DeinitSignal
    | DeinitCommsStop(written: bool)
    | DeinitCommsDone(batch: Option<Batch>)

  /** A wait of deinit: its result is ignored, but what it reads is gone. */
  function AfterWait(acks: map<Fd, nat>, batch: Option<Batch>, expected: nat): map<Fd, nat> {
    if batch.Some? && Reported(acks, batch.value) then Read(acks, batch.value, expected).0 else acks
  }

  predicate DeinitStep(s: Dcl, a: DeinitAct, s': Dcl) {
    match a
    case StartDeinit => s.deinit.DIdle? && s' == s.(deinit := DWantL1)
    case DeinitLockL1 =>
      && s.deinit.DWantL1? && s.mx.l1.None?
      && s' == s.(mx := s.mx.(l1 := Some(DeinitT)), deinit := DScan(0))
    case DeinitSkip =>
      && s.deinit.DScan? && s.deinit.k < |s.l1.slots| && s.l1.slots[s.deinit.k].None?
      && s' == s.(deinit := DScan(s.deinit.k + 1))
    case DeinitStop(written) =>
      && s.deinit.DScan? && s.deinit.k < |s.l1.slots|
      && s.l1.slots[s.deinit.k].Some? && s.l1.slots[s.deinit.k].value in s.l1.coll
      && var c := s.l1.slots[s.deinit.k].value;
         var x := s.l1.coll[c];
         s' == s.(l1 := SetCollector(s.l1, c, x.(byDeinit := true,
                    note := if written then x.note + NOTIFY_L1_THREAD_STOP else x.note)),
                  deinit := DStopWait(s.deinit.k))
    case DeinitStopDone(batch) =>
      && s.deinit.DStopWait?
      && s' == s.(h := s.h.(acks := AfterWait(s.h.acks, batch, NOTIFY_L1_THREAD_RETURN)), deinit := DScan(s.deinit.k + 1))
    case DeinitDisable =>
      && s.deinit.DScan? && s.deinit.k >= |s.l1.slots|
      && s' == s.(l1 := s.l1.(disabled := true), mx := s.mx.(l1 := None), deinit := DFifoWait)
    case DeinitFifo(batch) =>
      && s.deinit.DFifoWait?
      && s' == s.(h := s.h.(acks := AfterWait(s.h.acks, batch, NOTIFY_FIFO_THREAD_RETURN)), deinit := DWantLock)
    case DeinitLock =>
      && s.deinit.DWantLock? && s.mx.consumer.None?
      && s' == s.(mx := s.mx.(consumer := Some(DeinitT)), deinit := DHold)
    case DeinitExit =>
      && s.deinit.DHold?
      && s' == s.(q := s.q.(exit := true, wakeup := true), mx := s.mx.(consumer := None), deinit := DSignal)
    case DeinitSignal => s.deinit.DSignal? && s' == s.(consumer := Woken(s.consumer), deinit := DCommsStop)
    case DeinitCommsStop(written) =>
      && s.deinit.DCommsStop?
      && s' == s.(h := s.h.(note := if written then s.h.note + NOTIFY_SOCKET_THREAD_STOP else s.h.note),
                  deinit := DCommsWait)
    case DeinitCommsDone(batch) =>
      && s.deinit.DCommsWait?
      && s' == s.(h := s.h.(acks := AfterWait(s.h.acks, batch, NOTIFY_SOCKET_THREAD_RETURN)), deinit := DDone)
  }

  // ----- the whole machine

  datatype Action =
    | ByConsumer(ca: ConsumerAct)
    | ByComms(ma: CommsAct)
    | ByCollector(c: nat, la: CollectorAct)
    | ByPusher(p: nat, pa: PusherAct)
    | ByDeinit(da: DeinitAct)

  predicate Step(s: Dcl, a: Action, s': Dcl) {
    match a
    case ByConsumer(ca) => ConsumerStep(s, ca, s')
    case ByComms(ma) => CommsStep(s, ma, s')
    case ByCollector(c, la) => CollectorStep(s, c, la, s')
    case ByPusher(p, pa) => PusherStep(s, p, pa, s')
    case ByDeinit(da) => DeinitStep(s, da, s')
  }

  /** The thread that takes a step. */
  function Actor(a: Action): Tid {
    match a
    case ByConsumer(_) => ConsumerT
    case ByComms(_) => CommsT
    case ByCollector(c, _) => CollectorT(c)
    case ByPusher(p, _) => PusherT(p)
    case ByDeinit(_) => DeinitT
  }

  /** A run: states joined by labelled steps from an initial state. */
  predicate IsRun(states: seq<Dcl>, acts: seq<Action>) {
    && |states| == |acts| + 1
    && Init(states[0])
    && forall i | 0 <= i < |acts| :: Step(states[i], acts[i], states[i + 1])
  }
}
