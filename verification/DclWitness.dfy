/**
 Concrete runs. They show what the hypotheses of the run properties are for: a HELLO
 that is already waiting for the lock reopens the gate after a failure it did not
 follow; a stop that is not written, or not acknowledged in time, doubles a DONE; and
 after one timed-out wait an emit can report success for a TLV that is never sent.
 */
module DclWitness {
  import opened Wrappers
  import opened Notify
  import opened TlvFraming
  import opened DclState
  import opened L1Slots
  import opened DclSteps
  import opened DclPaths

  function Start(slots: nat): Dcl {
    Dcl(Mutexes(None, None), Queue([], false, false, [], []), Handoff(false, None, 0, map[CommsAck := 0], [], []),
        Collections(seq(slots, i => None), false, map[]), CStart, Handshake, DIdle, map[], [])
  }

  lemma Begin0(slots: nat) returns (p: Path)
    ensures RunTo(p, Start(slots))
  {
    p := Path([Start(slots)], []);
  }

  /** HELLO, VERSION, comms_ready. */
  lemma Greet(p: Path, s: Dcl) returns (p': Path, s': Dcl)
    requires RunTo(p, s) && (s.comms.Idle? || s.comms.Handshake?) && s.mx.consumer.None?
    ensures RunTo(p', s')
    ensures s' == s.(h := s.h.(ready := true), comms := Idle, log := s.log + [Version] + [Ready])
  {
    var s1 := s.(comms := HelloLock, log := s.log + [Version]);
    p' := Then(p, s, ByComms(Hello(true)), s1);
    p', s' := FinishHello(p', s1);
  }

  lemma FinishHello(p: Path, s: Dcl) returns (p': Path, s': Dcl)
    requires RunTo(p, s) && s.comms.HelloLock? && s.mx.consumer.None?
    ensures RunTo(p', s')
    ensures s' == s.(h := s.h.(ready := true), comms := Idle, log := s.log + [Ready])
  {
    var s1 := s.(mx := s.mx.(consumer := Some(CommsT)), comms := HelloHold);
    p' := Then(p, s, ByComms(AcquireForReady), s1);
    s' := s1.(mx := s.mx.(consumer := None), h := s.h.(ready := true), comms := Idle, log := s.log + [Ready]);
    p' := Then(p', s1, ByComms(SetReady), s');
    assert s' == s.(h := s.h.(ready := true), comms := Idle, log := s.log + [Ready]);
  }

  /** Someone queues an event while nobody holds the lock. */
  lemma QueueEvent(p: Path, s: Dcl, ev: Event) returns (p': Path, s': Dcl)
    requires RunTo(p, s) && s.pushers == map[] && s.mx.consumer.None? && !ev.L1Done?
    ensures RunTo(p', s')
    ensures s' == s.(q := s.q.(events := s.q.events + [ev], pushed := s.q.pushed + [ev], wakeup := true),
                     consumer := Woken(s.consumer))
  {
    var s1 := s.(pushers := map[0 := PWant(ev)]);
    p' := Then(p, s, ByPusher(0, CallPush(ev)), s1);
    var s2 := s1.(pushers := s1.pushers[0 := PHold(ev)], mx := s.mx.(consumer := Some(PusherT(0))));
    p' := Then(p', s1, ByPusher(0, PushLock), s2);
    var s3 := s2.(pushers := s2.pushers[0 := PQueued], q := s.q.(events := s.q.events + [ev], pushed := s.q.pushed + [ev]));
    p' := Then(p', s2, ByPusher(0, PushEnqueue), s3);
    p', s' := FinishPush(p', s3);
    assert s3.pushers - {0} == map[];
  }

  lemma FinishPush(p: Path, s: Dcl) returns (p': Path, s': Dcl)
    requires RunTo(p, s) && 0 in s.pushers && s.pushers[0].PQueued?
    ensures RunTo(p', s')
    ensures s' == s.(pushers := s.pushers - {0}, q := s.q.(wakeup := true), mx := s.mx.(consumer := None),
                     consumer := Woken(s.consumer))
  {
    var s1 := s.(pushers := s.pushers[0 := PSignal], q := s.q.(wakeup := true), mx := s.mx.(consumer := None));
    p' := Then(p, s, ByPusher(0, PushRaiseFlag), s1);
    s' := s1.(pushers := s1.pushers - {0}, consumer := Woken(s1.consumer));
    p' := Then(p', s1, ByPusher(0, PusherAct.PushSignal), s');
    assert s1.pushers - {0} == s.pushers - {0};
  }

  /** The consumer wakes and takes the one event queued. */
  lemma TakeEvent(p: Path, s: Dcl) returns (p': Path, s': Dcl)
    requires RunTo(p, s) && s.consumer.CStart? && s.mx.consumer.None? && s.q.wakeup && !s.q.exit && |s.q.events| == 1
    ensures RunTo(p', s')
    ensures s' == s.(mx := s.mx.(consumer := Some(ConsumerT)), consumer := StartOf(s.q.events[0]),
                     q := s.q.(events := [], popped := s.q.popped + s.q.events))
  {
    var s1 := s.(mx := s.mx.(consumer := Some(ConsumerT)), consumer := CHead);
    p' := Then(p, s, ByConsumer(Acquire), s1);
    var s2 := s1.(consumer := CDrain);
    p' := Then(p', s1, ByConsumer(ConsumerAct.Begin), s2);
    s' := s2.(q := s.q.(events := s.q.events[1..], popped := s.q.popped + [s.q.events[0]]), consumer := StartOf(s.q.events[0]));
    p' := Then(p', s2, ByConsumer(Pop), s');
    assert s.q.events[1..] == [] && [s.q.events[0]] == s.q.events;
  }

  /** An event reaches its emit with the gate open. */
  lemma AttemptEvent(p: Path, s: Dcl, tag: Tag, payload: seq<byte>) returns (p': Path, s': Dcl)
    requires RunTo(p, s) && s.consumer == CGate(Single(tag)) && s.h.ready
    ensures RunTo(p', s')
    ensures var out := BuildTlv(tag, payload);
            s' == s.(h := s.h.(tlv := Some(out)), consumer := CWrite(Single(tag), out), log := s.log + [Attempt])
  {
    var s1 := s.(consumer := CEmit(Single(tag)));
    p' := Then(p, s, ByConsumer(Gate), s1);
    var out := BuildTlv(tag, payload);
    s' := s1.(h := s.h.(tlv := Some(out)), consumer := CWrite(Single(tag), out), log := s.log + [Attempt]);
    p' := Then(p', s1, ByConsumer(Alloc(payload)), s');
  }

  /** READY is written; a HELLO is answered meanwhile; the wait times out. */
  lemma FailBesideHello(p: Path, s: Dcl) returns (p': Path, s': Dcl)
    requires RunTo(p, s) && s.consumer.CWrite? && s.consumer.site == Single(DataBatch) && s.comms.Idle?
    ensures RunTo(p', s')
    ensures s' == s.(h := s.h.(ready := false, tlv := None, note := s.h.note + 6),
                     consumer := CDrain, comms := HelloLock, log := s.log + [Version] + [Failed(true)])
  {
    var s1 := s.(h := s.h.(note := s.h.note + 6), consumer := CWait(s.consumer.site, s.consumer.out));
    p' := Then(p, s, ByConsumer(WriteReady(true)), s1);
    var s2 := s1.(comms := HelloLock, log := s.log + [Version]);
    p' := Then(p', s1, ByComms(Hello(true)), s2);
    p', s' := TimeOut(p', s2);
  }

  lemma TimeOut(p: Path, s: Dcl) returns (p': Path, s': Dcl)
    requires RunTo(p, s) && s.consumer.CWait? && s.consumer.site == Single(DataBatch)
    ensures RunTo(p', s') && s' == HandoffFailed(s, Single(DataBatch), s.h.acks)
  {
    s' := HandoffFailed(s, Single(DataBatch), s.h.acks);
    p' := Then(p, s, ByConsumer(WaitTimeout), s');
  }

  /** Nothing left to do: the consumer goes back to sleep. */
  lemma GoToSleep(p: Path, s: Dcl) returns (p': Path, s': Dcl)
    requires RunTo(p, s) && s.consumer.CDrain? && s.q.events == []
    ensures RunTo(p', s')
    ensures s' == s.(mx := s.mx.(consumer := None), q := s.q.(wakeup := false), consumer := CAsleep)
  {
    var s1 := s.(q := s.q.(wakeup := false), consumer := CHead);
    p' := Then(p, s, ByConsumer(Drained), s1);
    s' := s1.(mx := s.mx.(consumer := None), consumer := CAsleep);
    p' := Then(p', s1, ByConsumer(Sleep), s');
  }

  /** A frame's handoff fails beside a HELLO, its READY still unread; then the HELLO sets comms_ready. */
  lemma LeftoverReady() returns (p: Path, s: Dcl)
    ensures RunTo(p, s) && s.consumer.CAsleep? && s.comms.Idle? && s.pushers == map[] && s.mx.consumer.None?
    ensures s.q.events == [] && !s.q.exit && s.deinit.DIdle?
    ensures s.h == Handoff(true, None, NOTIFY_BATCH_DATA_READY, map[CommsAck := 0], [], [])
    ensures s.log == [Version, Ready, Attempt, Version, Failed(true), Ready] && s.q.popped == [Frame]
  {
    p := Begin0(0);
    p, s := Greet(p, Start(0));
    p, s := QueueEvent(p, s, Frame);
    p, s := TakeEvent(p, s);
    p, s := AttemptEvent(p, s, DataBatch, []);
    p, s := FailBesideHello(p, s);
    p, s := GoToSleep(p, s);
    assert s.log == [Version, Ready, Attempt, Version, Failed(true)];
    p, s := FinishHello(p, s);
  }

  /** An emit is attempted after a failed handoff although no VERSION was sent in between. */
  lemma HelloInHandReopensTheGate() returns (p: Path, s: Dcl)
    ensures RunTo(p, s)
    ensures |s.log| == 7 && s.log[4] == Failed(true) && s.log[6] == Attempt
    ensures forall k | 4 < k < 6 :: s.log[k] != Version
  {
    p, s := LeftoverReady();
    p, s := QueueEvent(p, s, Frame);
    p, s := TakeEvent(p, s);
    p, s := AttemptEvent(p, s, DataBatch, []);
    assert s.log == [Version, Ready, Attempt, Version, Failed(true), Ready, Attempt];
  }

  /** A frame's and a CSI sample's READY add up to the STOP of the comms thread: it leaves, and nobody asked it to. */
  lemma AddedTokensStopComms() returns (p: Path, s: Dcl)
    ensures RunTo(p, s) && s.comms.Exited? && s.deinit.DIdle? && s.q.popped == [Frame, Csi]
  {
    p, s := LeftoverReady();
    p, s := QueueEvent(p, s, Csi);
    p, s := TakeEvent(p, s);
    p, s := AttemptEvent(p, s, CsiAndCfo, []);
    var s1 := s.(h := s.h.(note := NOTIFY_SOCKET_THREAD_STOP), consumer := CWait(s.consumer.site, s.consumer.out));
    p := Then(p, s, ByConsumer(WriteReady(true)), s1);
    p, s := TakeStop(p, s1);
  }

  lemma TakeStop(p: Path, s: Dcl) returns (p': Path, s': Dcl)
    requires RunTo(p, s) && s.comms.Idle? && s.h.note == NOTIFY_SOCKET_THREAD_STOP
    ensures RunTo(p', s') && s'.comms.Exited? && s'.deinit == s.deinit && s'.q == s.q
  {
    var s1 := s.(h := s.h.(note := 0), comms := StopAck);
    p' := Then(p, s, ByComms(ReadNote), s1);
    s' := s1.(h := s1.h.(acks := Written(s1.h.acks, CommsAck, NOTIFY_SOCKET_THREAD_RETURN, true)), comms := Exited);
    p' := Then(p', s1, ByComms(AckStop(true)), s');
  }

  // ----- a stop that is not acknowledged in time

  function OneCollector(m: MacAddress.Mac, pc: CollectorPc, note: nat, queued: nat, direct: nat): map<nat, Collector> {
    map[0 := Collector(m, 0, pc, note, queued, direct, false, false)]
  }

  /** A collection for m is started and its collector gives up during setup. */
  lemma StartCollector(p: Path, s: Dcl, m: MacAddress.Mac) returns (p': Path, s': Dcl)
    requires RunTo(p, s) && s.comms.Idle? && s.mx.l1.None? && s.l1 == Collections([None], false, map[])
    ensures RunTo(p', s')
    ensures s' == s.(h := s.h.(acks := s.h.acks[CollectorAck(0) := 0]),
                     l1 := Collections([Some(0)], false, OneCollector(m, PushWant, 0, 0, 0)))
  {
    var s2;
    p', s2 := ReceiveStartMessage(p, s, m);
    var s3 := s2.(mx := s.mx, comms := Spawn(0), h := s.h.(acks := s.h.acks[CollectorAck(0) := 0]),
                  l1 := Collections([Some(0)], false, OneCollector(m, Created, 0, 0, 0)));
    assert Admit(s2.l1.slots, s2.l1.coll, false, m) == Some(0);
    p' := Then(p', s2, ByComms(AcceptStart(0)), s3);
    p', s' := GiveUpSetup(p', s3, m);
  }

  lemma ReceiveStartMessage(p: Path, s: Dcl, m: MacAddress.Mac) returns (p': Path, s': Dcl)
    requires RunTo(p, s) && s.comms.Idle? && s.mx.l1.None?
    ensures RunTo(p', s')
    ensures s' == s.(mx := s.mx.(l1 := Some(CommsT)), comms := StartHold(m))
  {
    var s1 := s.(comms := StartLock(m));
    p' := Then(p, s, ByComms(ReceiveStart(m)), s1);
    s' := s1.(mx := s.mx.(l1 := Some(CommsT)), comms := StartHold(m));
    p' := Then(p', s1, ByComms(AcquireForStart), s');
  }

  lemma GiveUpSetup(p: Path, s: Dcl, m: MacAddress.Mac) returns (p': Path, s': Dcl)
    requires RunTo(p, s) && s.comms == Spawn(0) && s.l1 == Collections([Some(0)], false, OneCollector(m, Created, 0, 0, 0))
    ensures RunTo(p', s')
    ensures s' == s.(comms := Idle, l1 := Collections([Some(0)], false, OneCollector(m, PushWant, 0, 0, 0)))
  {
    var s1 := s.(comms := Idle, l1 := Collections([Some(0)], false, OneCollector(m, Setup, 0, 0, 0)));
    p' := Then(p, s, ByComms(CreateThread), s1);
    s' := s1.(l1 := Collections([Some(0)], false, OneCollector(m, PushWant, 0, 0, 0)));
    p' := Then(p', s1, ByCollector(0, SetupFail), s');
  }

  /** The station leaves: the consumer begins to look for its collector. */
  lemma BeginScan(p: Path, s: Dcl, m: MacAddress.Mac) returns (p': Path, s': Dcl)
    requires RunTo(p, s) && s.consumer == CDevices([Device(m, true)]) && s.mx.l1.None?
    ensures RunTo(p', s')
    ensures s' == s.(mx := s.mx.(l1 := Some(ConsumerT)), consumer := CScan(Device(m, true), [], 0, None))
  {
    var d := Device(m, true);
    var s1 := s.(consumer := CWantL1(d, []));
    assert [d][1..] == [];
    p' := Then(p, s, ByConsumer(NextDevice), s1);
    s' := s1.(mx := s.mx.(l1 := Some(ConsumerT)), consumer := CScan(d, [], 0, None));
    p' := Then(p', s1, ByConsumer(AcquireL1), s');
  }

  /** It writes STOP and waits in vain. */
  lemma StopInVain(p: Path, s: Dcl, m: MacAddress.Mac) returns (p': Path, s': Dcl)
    requires RunTo(p, s) && s.consumer == CScan(Device(m, true), [], 0, None)
    requires s.l1 == Collections([Some(0)], false, OneCollector(m, PushWant, 0, 0, 0))
    ensures RunTo(p', s')
    ensures s' == s.(consumer := CScan(Device(m, true), [], 1, Some(0)),
                     l1 := Collections([Some(0)], false, OneCollector(m, PushWant, 16, 0, 0)))
  {
    var s1 := s.(consumer := CStopWait(Device(m, true), [], 0, 0),
                 l1 := Collections([Some(0)], false, OneCollector(m, PushWant, 16, 0, 0)));
    p' := Then(p, s, ByConsumer(ScanHit(true)), s1);
    s' := s1.(consumer := CScan(Device(m, true), [], 1, Some(0)));
    p' := Then(p', s1, ByConsumer(StopTimeout), s');
  }

  /** Or it cannot even write STOP. */
  lemma StopUnwritten(p: Path, s: Dcl, m: MacAddress.Mac) returns (p': Path, s': Dcl)
    requires RunTo(p, s) && s.consumer == CScan(Device(m, true), [], 0, None)
    requires s.l1 == Collections([Some(0)], false, OneCollector(m, PushWant, 0, 0, 0))
    ensures RunTo(p', s') && s' == s.(consumer := CScan(Device(m, true), [], 1, Some(0)))
  {
    s' := s.(consumer := CScan(Device(m, true), [], 1, Some(0)));
    p' := Then(p, s, ByConsumer(ScanHit(false)), s');
  }

  /** Either way it asks for a DONE itself, and finds no memory for it. */
  lemma AskDirectly(p: Path, s: Dcl, m: MacAddress.Mac, note: nat) returns (p': Path, s': Dcl)
    requires RunTo(p, s) && s.consumer == CScan(Device(m, true), [], 1, Some(0)) && s.h.ready
    requires s.l1 == Collections([Some(0)], false, OneCollector(m, PushWant, note, 0, 0))
    ensures RunTo(p', s')
    ensures s' == s.(mx := s.mx.(l1 := None), consumer := CDrain, h := s.h.(tlv := None), log := s.log + [Attempt],
                     l1 := Collections([Some(0)], false, OneCollector(m, PushWant, note, 0, 1)))
  {
    var s1 := s.(mx := s.mx.(l1 := None), consumer := CGate(DoneOf(Device(m, true), [])),
                 l1 := Collections([Some(0)], false, OneCollector(m, PushWant, note, 0, 1)));
    p' := Then(p, s, ByConsumer(ScanEnd), s1);
    p', s' := FindNoMemory(p', s1, DoneOf(Device(m, true), []));
  }

  lemma FindNoMemory(p: Path, s: Dcl, site: Site) returns (p': Path, s': Dcl)
    requires RunTo(p, s) && s.consumer == CGate(site) && s.h.ready && !site.Single? && site.rest == []
    ensures RunTo(p', s')
    ensures s' == s.(h := s.h.(tlv := None), consumer := CDrain, log := s.log + [Attempt])
  {
    var s1 := s.(consumer := CEmit(site));
    p' := Then(p, s, ByConsumer(Gate), s1);
    var s2 := s1.(h := s.h.(tlv := None), consumer := CDevices([]), log := s.log + [Attempt]);
    p' := Then(p', s1, ByConsumer(AllocFail), s2);
    s' := s2.(consumer := CDrain);
    p' := Then(p', s2, ByConsumer(NextDevice), s');
  }

  /** Then the collector gets the lock and pushes its own DONE. */
  lemma PushAnyway(p: Path, s: Dcl, m: MacAddress.Mac, note: nat) returns (p': Path, s': Dcl)
    requires RunTo(p, s) && s.mx.consumer.None?
    requires s.l1 == Collections([Some(0)], false, OneCollector(m, PushWant, note, 0, 1))
    ensures RunTo(p', s') && s'.deinit == s.deinit
    ensures s'.l1 == Collections([Some(0)], false, OneCollector(m, PushQueued, note, 1, 1))
  {
    var s1 := s.(l1 := Collections([Some(0)], false, OneCollector(m, PushHold, note, 0, 1)),
                 mx := s.mx.(consumer := Some(CollectorT(0))));
    p' := Then(p, s, ByCollector(0, LockQueue), s1);
    s' := s1.(l1 := Collections([Some(0)], false, OneCollector(m, PushQueued, note, 1, 1)),
              q := s.q.(events := s.q.events + [L1Done(0)], pushed := s.q.pushed + [L1Done(0)]));
    p' := Then(p', s1, ByCollector(0, Enqueue), s');
  }

  /** A collection is under way, its collector about to push, when its station leaves. */
  lemma StationLeaves(m: MacAddress.Mac) returns (p: Path, s: Dcl)
    ensures RunTo(p, s) && s.consumer == CScan(Device(m, true), [], 0, None)
    ensures s.l1 == Collections([Some(0)], false, OneCollector(m, PushWant, 0, 0, 0))
    ensures s.h.ready && s.deinit.DIdle? && s.q.events == []
  {
    p := Begin0(1);
    p, s := Greet(p, Start(1));
    assert Start(1).l1.slots == [None];
    p, s := StartCollector(p, s, m);
    p, s := QueueEvent(p, s, Diff([Device(m, true)]));
    p, s := TakeEvent(p, s);
    p, s := BeginScan(p, s, m);
  }

  /** One collector, two DONE requests, because the wait for RETURN timed out. */
  lemma TimedOutStopDoublesDone(m: MacAddress.Mac) returns (p: Path, s: Dcl)
    ensures RunTo(p, s) && s.deinit.DIdle?
    ensures 0 in s.l1.coll && s.l1.coll[0].queued == 1 && s.l1.coll[0].direct == 1
  {
    p, s := StationLeaves(m);
    p, s := StopInVain(p, s, m);
    p, s := AskDirectly(p, s, m, 16);
    p, s := GoToSleep(p, s);
    p, s := PushAnyway(p, s, m, 16);
  }

  /** The same because STOP could not be written. */
  lemma UnwrittenStopDoublesDone(m: MacAddress.Mac) returns (p: Path, s: Dcl)
    ensures RunTo(p, s) && s.deinit.DIdle?
    ensures 0 in s.l1.coll && s.l1.coll[0].queued == 1 && s.l1.coll[0].direct == 1 && s.l1.coll[0].note == 0
  {
    p, s := StationLeaves(m);
    p, s := StopUnwritten(p, s, m);
    p, s := AskDirectly(p, s, m, 0);
    p, s := GoToSleep(p, s);
    p, s := PushAnyway(p, s, m, 0);
  }

  // ----- an answer that comes late

  /** READY is written, and the comms thread gets as far as its sendto. */
  lemma ReadyToSend(p: Path, s: Dcl, out: TlvContext) returns (p': Path, s': Dcl)
    requires RunTo(p, s) && s.consumer == CWrite(Single(DataBatch), out) && s.h.tlv == Some(out)
    requires SizeAgrees(out) && s.comms.Idle? && s.h.note == 0
    ensures RunTo(p', s')
    ensures s' == s.(consumer := CWait(Single(DataBatch), out), comms := SendTo(7))
  {
    var s1 := s.(h := s.h.(note := 6), consumer := CWait(Single(DataBatch), out));
    p' := Then(p, s, ByConsumer(WriteReady(true)), s1);
    var s2 := s1.(h := s.h, comms := NullCheck(7));
    p' := Then(p', s1, ByComms(ReadNote), s2);
    p', s' := PassChecks(p', s2, out);
  }

  lemma PassChecks(p: Path, s: Dcl, out: TlvContext) returns (p': Path, s': Dcl)
    requires RunTo(p, s) && s.comms == NullCheck(7) && s.h.tlv == Some(out) && SizeAgrees(out)
    ensures RunTo(p', s') && s' == s.(comms := SendTo(7))
  {
    var s1 := s.(comms := SizeCheck(7));
    p' := Then(p, s, ByComms(LookAtTlv), s1);
    s' := s1.(comms := SendTo(7));
    p' := Then(p', s1, ByComms(CompareSize), s');
  }

  /** The TLV is sent, but the wait for SENT times out before SENT is written. */
  lemma AnswerLate(p: Path, s: Dcl, out: TlvContext) returns (p': Path, s': Dcl)
    requires RunTo(p, s) && s.consumer == CWait(Single(DataBatch), out) && s.h.tlv == Some(out) && s.comms == SendTo(7)
    requires s.h.acks == map[CommsAck := 0]
    ensures RunTo(p', s')
    ensures s' == s.(consumer := CDrain, comms := Idle, log := s.log + [Failed(false)],
                     h := s.h.(ready := false, tlv := None, sends := s.h.sends + [out], acks := map[CommsAck := 7]))
  {
    var s1 := s.(h := s.h.(sends := s.h.sends + [out]), comms := AckWrite(7));
    p' := Then(p, s, ByComms(Send(true)), s1);
    var s2;
    p', s2 := TimeOut(p', s1);
    s' := s2.(h := s2.h.(acks := map[CommsAck := 7]), comms := Idle);
    assert Written(s2.h.acks, CommsAck, 7, true) == map[CommsAck := 7];
    p' := Then(p', s2, ByComms(WriteAck(true)), s');
  }

  /** The next wait takes the late SENT for its own. */
  lemma TakeStaleAnswer(p: Path, s: Dcl, out: TlvContext) returns (p': Path, s': Dcl)
    requires RunTo(p, s) && s.consumer == CWait(Single(DataBatch), out) && s.h.acks == map[CommsAck := 7]
    ensures RunTo(p', s')
    ensures s' == s.(consumer := CDrain, h := s.h.(tlv := None, emits := s.h.emits + [out], acks := map[CommsAck := 0]))
  {
    var acks := s.h.acks[CommsAck := 0];
    assert acks == map[CommsAck := 0];
    s' := s.(consumer := CDrain, h := s.h.(tlv := None, emits := s.h.emits + [out], acks := acks));
    p' := Then(p, s, ByConsumer(WaitRead(One(CommsAck))), s');
  }

  /** A first frame is on its way to the comms thread's sendto. */
  lemma FirstFrame(payload: seq<byte>) returns (p: Path, s: Dcl)
    requires |payload| < LENGTH_MODULUS
    ensures RunTo(p, s) && s.comms == SendTo(7) && s.pushers == map[]
    ensures s.consumer == CWait(Single(DataBatch), BuildTlv(DataBatch, payload))
    ensures s.q.events == [] && !s.q.exit && s.deinit.DIdle?
    ensures s.h == Handoff(true, Some(BuildTlv(DataBatch, payload)), 0, map[CommsAck := 0], [], [])
  {
    p := Begin0(0);
    p, s := Greet(p, Start(0));
    p, s := QueueEvent(p, s, Frame);
    p, s := TakeEvent(p, s);
    p, s := AttemptEvent(p, s, DataBatch, payload);
    p, s := ReadyToSend(p, s, BuildTlv(DataBatch, payload));
  }

  /** It is sent too late for its emit, and the agent says HELLO again. */
  lemma LateFrame(payload: seq<byte>) returns (p: Path, s: Dcl)
    requires |payload| < LENGTH_MODULUS
    ensures RunTo(p, s) && s.consumer.CAsleep? && s.comms.Idle? && s.pushers == map[] && s.mx.consumer.None?
    ensures s.q.events == [] && !s.q.exit && s.deinit.DIdle?
    ensures s.h == Handoff(true, None, 0, map[CommsAck := 7], [], [BuildTlv(DataBatch, payload)])
  {
    p, s := FirstFrame(payload);
    p, s := AnswerLate(p, s, BuildTlv(DataBatch, payload));
    p, s := GoToSleep(p, s);
    p, s := Greet(p, s);
  }

  /** The next frame's emit reports success while the comms thread is about to send that frame. */
  lemma UnsentSuccess(first: seq<byte>, second: seq<byte>) returns (p: Path, s: Dcl)
    requires |first| < LENGTH_MODULUS && |second| < LENGTH_MODULUS
    ensures RunTo(p, s) && s.consumer.CDrain? && s.comms == SendTo(7) && s.pushers == map[]
    ensures s.q.events == [] && !s.q.exit && s.deinit.DIdle? && s.h.ready
    ensures s.h.emits == [BuildTlv(DataBatch, second)] && s.h.sends == [BuildTlv(DataBatch, first)]
  {
    p, s := LateFrame(first);
    p, s := QueueEvent(p, s, Frame);
    p, s := TakeEvent(p, s);
    p, s := AttemptEvent(p, s, DataBatch, second);
    p, s := ReadyToSend(p, s, BuildTlv(DataBatch, second));
    p, s := TakeStaleAnswer(p, s, BuildTlv(DataBatch, second));
  }

  /**
   One timed-out wait, no deinit: an emit succeeds whose TLV is never sent, and what goes out
   instead is the next emit's TLV, with a payload the size check would have refused.
   */
  lemma StaleAnswerSendsUnchecked(first: seq<byte>, second: seq<byte>, big: seq<byte>) returns (p: Path, s: Dcl)
    requires |first| < LENGTH_MODULUS && |second| < LENGTH_MODULUS <= |big|
    ensures RunTo(p, s) && s.deinit.DIdle?
    ensures s.h.emits == [BuildTlv(DataBatch, second)]
    ensures s.h.sends == [BuildTlv(DataBatch, first), BuildTlv(DataBatch, big)] && !SizeAgrees(s.h.sends[1])
  {
    p, s := UnsentSuccess(first, second);
    p, s := GoToSleep(p, s);
    p, s := QueueEvent(p, s, Frame);
    p, s := TakeEvent(p, s);
    p, s := AttemptEvent(p, s, DataBatch, big);
    var out := BuildTlv(DataBatch, big);
    SizeCrossCheckIffPayloadFits(DataBatch, big);
    var s' := s.(h := s.h.(sends := s.h.sends + [out]), comms := AckWrite(7));
    p := Then(p, s, ByComms(Send(true)), s');
    s := s';
  }
}
