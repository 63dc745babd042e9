/**
 The TLV handoff between the consumer and the comms thread, in runs before deinit
 in which no wait times out.
 */
module DclHandoff {
  import opened Wrappers
  import opened Notify
  import opened TlvFraming
  import opened DclState
  import opened DclSteps
  import opened DclDone
  import opened DclStop

  predicate NoTimeout(a: Action) {
    match a
    case ByDeinit(_) => false
    case ByConsumer(WaitTimeout) => false
    case ByConsumer(StopTimeout) => false
    case _ => true
  }

  /** Deinit has not begun. */
  ghost predicate BeforeDeinit(s: Dcl) {
    s.deinit.DIdle? && forall c | c in s.l1.coll :: !s.l1.coll[c].byDeinit
  }

  lemma StaysBeforeDeinit(s: Dcl, a: Action, s': Dcl)
    requires BeforeDeinit(s) && Step(s, a, s') && NoTimeout(a)
    ensures BeforeDeinit(s')
  {
    match a
    case ByConsumer(x) => ConsumerMarksNone(s, x, s');
    case ByComms(x) => CommsMarksNone(s, x, s');
    case ByCollector(c, x) => CollectorMarksNone(s, c, x, s');
    case ByPusher(p, x) => PusherElsewhere(s, p, x, s');
  }

  lemma ConsumerMarksNone(s: Dcl, a: ConsumerAct, s': Dcl)
    requires BeforeDeinit(s) && ConsumerStep(s, a, s')
    ensures BeforeDeinit(s')
  {
    if DeviceStep(s, a, s') {
      DeviceMarksNone(s, a, s');
    }
  }

  lemma DeviceMarksNone(s: Dcl, a: ConsumerAct, s': Dcl)
    requires BeforeDeinit(s) && DeviceStep(s, a, s')
    ensures BeforeDeinit(s')
  {
  }

  lemma CommsMarksNone(s: Dcl, a: CommsAct, s': Dcl)
    requires BeforeDeinit(s) && CommsStep(s, a, s')
    ensures BeforeDeinit(s')
  {
  }

  lemma CollectorMarksNone(s: Dcl, c: nat, a: CollectorAct, s': Dcl)
    requires BeforeDeinit(s) && CollectorStep(s, c, a, s')
    ensures BeforeDeinit(s')
  {
  }

  /** About to look at tlv_ctx. */
  predicate ReadsTlv(pc: CommsPc) {
    pc.NullCheck? || pc.SizeCheck? || pc.SendTo?
  }

  /** No handoff is under way. */
  predicate Quiet(h: Handoff, comms: CommsPc) {
    && h.note == 0 && CommsAck in h.acks && h.acks[CommsAck] == 0
    && !ReadsTlv(comms) && !comms.AckWrite? && !comms.StopAck?
    && h.sends == h.emits
  }

  /** The stages of the handoff of out, from READY written to SENT written (or dropped). */
  predicate InFlight(h: Handoff, comms: CommsPc, out: TlvContext) {
    && CommsAck in h.acks && !comms.StopAck?
    && var ack := h.acks[CommsAck];
       || (h.note == ReadyToken(out.tag) && ack == 0 && !ReadsTlv(comms) && !comms.AckWrite? && h.sends == h.emits)
       || (h.note == 0 && ack == 0 && ReadsTlv(comms) && comms.sent == SentToken(out.tag) && h.sends == h.emits
           && (comms.SendTo? ==> SizeAgrees(out)))
       || (h.note == 0 && ack == 0 && comms.AckWrite? && comms.sent == SentToken(out.tag) && h.sends == h.emits + [out])
       || (h.note == 0 && ack == SentToken(out.tag) && !ReadsTlv(comms) && !comms.AckWrite? && h.sends == h.emits + [out])
       || (h.note == 0 && ack == 0 && !ReadsTlv(comms) && !comms.AckWrite?
           && (h.sends == h.emits || h.sends == h.emits + [out]))
  }

  /** The TLV was built by an emit and passed the size cross-check. */
  predicate Framed(t: TlvContext) {
    t == BuildTlv(t.tag, t.data) && SizeAgrees(t)
  }

  ghost predicate HandoffInv(s: Dcl) {
    && (forall t | t in s.h.sends :: Framed(t))
    && (match s.consumer
        case CWait(site, out) =>
          s.h.tlv == Some(out) && out == BuildTlv(SiteTag(site), out.data) && InFlight(s.h, s.comms, out)
        case CWrite(site, out) =>
          s.h.tlv == Some(out) && out == BuildTlv(SiteTag(site), out.data) && Quiet(s.h, s.comms)
        case _ => s.h.tlv == None && Quiet(s.h, s.comms))
  }

  lemma HandoffInit(s: Dcl)
    requires Init(s)
    ensures HandoffInv(s)
  {
  }

  // ----- tokens are never confused

  /** In a wait for SENT only the comms thread's own SENT can be read. */
  lemma OnlySentIsRead(s: Dcl, b: Batch)
    requires BeforeDeinit(s) && FdInv(s) && HandoffInv(s) && s.consumer.CWait? && Reported(s.h.acks, b)
    ensures b == One(CommsAck) && s.h.acks[CommsAck] == SentToken(SiteTag(s.consumer.site))
    ensures Read(s.h.acks, b, SentToken(SiteTag(s.consumer.site))).1
  {
    forall fd | fd in s.h.acks && fd.CollectorAck?
      ensures s.h.acks[fd] == 0
    {
      assert FdAt(s, fd.c);
    }
    assert forall fd | fd in s.h.acks :: fd.CollectorAck? || fd == CommsAck;
  }

  /** In a wait for RETURN only the stopped collector's own RETURN can be read. */
  lemma OnlyReturnIsRead(s: Dcl, b: Batch)
    requires BeforeDeinit(s) && FdInv(s) && HandoffInv(s) && s.consumer.CStopWait? && Reported(s.h.acks, b)
    ensures b == One(CollectorAck(s.consumer.target)) && s.h.acks[b.fd] == NOTIFY_L1_THREAD_RETURN
  {
    forall fd | fd in s.h.acks && fd.CollectorAck?
      ensures s.h.acks[fd] == 0 || (fd.c == s.consumer.target && s.h.acks[fd] == NOTIFY_L1_THREAD_RETURN)
    {
      assert FdAt(s, fd.c);
    }
    assert forall fd | fd in s.h.acks :: fd.CollectorAck? || fd == CommsAck;
  }

  /** The comms thread only ever reads the READY of the emit that waits for it. */
  lemma OnlyReadyIsRead(s: Dcl)
    requires HandoffInv(s) && s.h.note > 0
    ensures s.consumer.CWait? && s.h.note == ReadyToken(SiteTag(s.consumer.site))
    ensures OnNote(s.h.note) == NullCheck(SentToken(SiteTag(s.consumer.site)))
  {
  }

  lemma NoTimeoutMeansAnswered(s: Dcl, a: Action, s': Dcl)
    requires BeforeDeinit(s) && FdInv(s) && HandoffInv(s) && Step(s, a, s') && NoTimeout(a)
    ensures StopAnswered(s, a)
  {
  }

  // ----- preservation

  lemma HandoffEmit(s: Dcl, a: ConsumerAct, s': Dcl)
    requires BeforeDeinit(s) && FdInv(s) && HandoffInv(s) && EmitStep(s, a, s') && !a.WaitTimeout?
    ensures HandoffInv(s')
  {
    if a.WaitRead? {
      OnlySentIsRead(s, a.batch);
    }
  }

  lemma HandoffDevice(s: Dcl, a: ConsumerAct, s': Dcl)
    requires BeforeDeinit(s) && FdInv(s) && HandoffInv(s) && DeviceStep(s, a, s')
    ensures HandoffInv(s')
  {
  }

  lemma HandoffLoop(s: Dcl, a: ConsumerAct, s': Dcl)
    requires HandoffInv(s) && LoopStep(s, a, s')
    ensures HandoffInv(s')
  {
  }

  lemma HandoffSocket(s: Dcl, a: CommsAct, s': Dcl)
    requires HandoffInv(s) && SocketStep(s, a, s')
    ensures HandoffInv(s')
  {
    if a.ReadNote? {
      OnlyReadyIsRead(s);
    }
  }

  lemma HandoffStart(s: Dcl, a: CommsAct, s': Dcl)
    requires HandoffInv(s) && StartStep(s, a, s')
    ensures HandoffInv(s')
  {
  }

  lemma HandoffCollector(s: Dcl, c: nat, a: CollectorAct, s': Dcl)
    requires HandoffInv(s) && CollectorStep(s, c, a, s')
    ensures HandoffInv(s')
  {
  }

  lemma HandoffPusher(s: Dcl, p: nat, a: PusherAct, s': Dcl)
    requires HandoffInv(s) && PusherStep(s, p, a, s')
    ensures HandoffInv(s')
  {
  }

  lemma HandoffStep(s: Dcl, a: Action, s': Dcl)
    requires BeforeDeinit(s) && FdInv(s) && HandoffInv(s) && Step(s, a, s') && NoTimeout(a)
    ensures HandoffInv(s')
  {
    match a
    case ByConsumer(x) =>
      if LoopStep(s, x, s') { HandoffLoop(s, x, s'); }
      else if DeviceStep(s, x, s') { HandoffDevice(s, x, s'); }
      else { HandoffEmit(s, x, s'); }
    case ByComms(x) => if SocketStep(s, x, s') { HandoffSocket(s, x, s'); } else { HandoffStart(s, x, s'); }
    case ByCollector(c, x) => HandoffCollector(s, c, x, s');
    case ByPusher(p, x) => HandoffPusher(s, p, x, s');
  }

  // ----- what follows

  /** A framed TLV reads back as the tag and payload its emit was given. */
  lemma FramedParses(t: TlvContext, code: nat)
    requires Framed(t) && code < LENGTH_MODULUS
    ensures t.len < LENGTH_MODULUS && |Wire(code, t.len, t.data)| == t.size
    ensures Parse(Wire(code, t.len, t.data)) == Some((code, t.data))
  {
    SizeCrossCheckIffPayloadFits(t.tag, t.data);
    WireRoundTrip(code, t.data);
  }
}
