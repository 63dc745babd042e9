/**
 What tlv_ctx holds, what is put on the socket, and who finds tlv_ctx filled, in runs
 with timeouts and deinit.
 */
module DclSends {
  import opened Wrappers
  import opened Notify
  import opened TlvFraming
  import opened DclState
  import opened DclSteps
  import opened DclHandoff
  import opened DclGating

  // ----- tlv_ctx

  /** tlv_ctx holds what the emit in progress was given, and nothing outside emits. */
  predicate Carrying(s: Dcl) {
    match s.consumer
    case CWrite(site, out) => s.h.tlv == Some(out) && out == BuildTlv(SiteTag(site), out.data)
    case CWait(site, out) => s.h.tlv == Some(out) && out == BuildTlv(SiteTag(site), out.data)
    case _ => s.h.tlv == None
  }

  predicate IsAlloc(a: Action) {
    a.ByConsumer? && a.ca.Alloc?
  }

  /** The step puts a TLV on the socket. */
  predicate Sends(s: Dcl, a: Action) {
    a == ByComms(Send(true)) && s.h.tlv.Some?
  }

  lemma CarryingInit(s: Dcl)
    requires Init(s)
    ensures Carrying(s)
  {
  }

  lemma EmitCarries(s: Dcl, a: ConsumerAct, s': Dcl)
    requires Carrying(s) && EmitStep(s, a, s')
    ensures Carrying(s') && s'.comms == s.comms && s'.h.sends == s.h.sends && s'.deinit == s.deinit
    ensures if a.Alloc? then s'.h.tlv == Some(BuildTlv(SiteTag(s.consumer.site), a.payload))
            else s'.h.tlv == s.h.tlv || s'.h.tlv == None
  {
  }

  lemma LoopCarries(s: Dcl, a: ConsumerAct, s': Dcl)
    requires Carrying(s) && (LoopStep(s, a, s') || DeviceStep(s, a, s'))
    ensures Carrying(s') && s'.comms == s.comms && s'.h == s.h.(acks := s'.h.acks) && s'.deinit == s.deinit
    ensures !s'.consumer.CWrite? && !s'.consumer.CWait? && !a.Alloc?
  {
  }

  lemma SocketCarries(s: Dcl, a: CommsAct, s': Dcl)
    requires SocketStep(s, a, s')
    ensures s'.consumer == s.consumer && s'.h.tlv == s.h.tlv && s'.h.emits == s.h.emits && s'.deinit == s.deinit
    ensures s'.h.sends == if Sends(s, ByComms(a)) then s.h.sends + [s.h.tlv.value] else s.h.sends
    ensures s'.comms.SendTo? ==> s'.h.tlv.Some? && SizeAgrees(s'.h.tlv.value)
  {
  }

  lemma StartCarries(s: Dcl, a: CommsAct, s': Dcl)
    requires StartStep(s, a, s')
    ensures s'.h == s.h.(acks := s'.h.acks) && s'.consumer == s.consumer && s'.deinit == s.deinit
    ensures !ReadsTlv(s'.comms) && !s'.comms.AckWrite? && !a.Send?
    ensures CommsAck in s.h.acks ==> CommsAck in s'.h.acks && s'.h.acks[CommsAck] == s.h.acks[CommsAck]
  {
  }

  /** The consumer's part in it. */
  lemma ConsumerCarries(s: Dcl, a: ConsumerAct, s': Dcl)
    requires Carrying(s) && ConsumerStep(s, a, s')
    ensures Carrying(s') && s'.comms == s.comms && s'.h.sends == s.h.sends && s'.deinit == s.deinit
    ensures if a.Alloc? then s.consumer.CEmit? && s'.h.tlv == Some(BuildTlv(SiteTag(s.consumer.site), a.payload))
            else s'.h.tlv == s.h.tlv || s'.h.tlv == None
  {
    if EmitStep(s, a, s') {
      EmitCarries(s, a, s');
    } else {
      LoopCarries(s, a, s');
    }
  }

  /** The comms thread's part in it. */
  lemma CommsCarries(s: Dcl, a: CommsAct, s': Dcl)
    requires CommsStep(s, a, s')
    ensures s'.consumer == s.consumer && s'.h.tlv == s.h.tlv && s'.h.emits == s.h.emits
    ensures s'.h.sends == if Sends(s, ByComms(a)) then s.h.sends + [s.h.tlv.value] else s.h.sends
    ensures s'.comms.SendTo? ==> s'.h.tlv.Some? && SizeAgrees(s'.h.tlv.value)
  {
    if SocketStep(s, a, s') {
      SocketCarries(s, a, s');
    } else {
      StartCarries(s, a, s');
    }
  }

  lemma CarryingStep(s: Dcl, a: Action, s': Dcl)
    requires Carrying(s) && Step(s, a, s')
    ensures Carrying(s')
    ensures s'.h.sends == if Sends(s, a) then s.h.sends + [s.h.tlv.value] else s.h.sends
  {
    match a
    case ByConsumer(x) => ConsumerCarries(s, x, s');
    case ByComms(x) => CommsCarries(s, x, s');
    case _ => OtherThreadsFrame(s, a, s');
  }

  /** Once a TLV has been checked, another one too long can still be put in its place and sent unchecked. */
  lemma UncheckedSend(s: Dcl, payload: seq<byte>, s': Dcl) returns (s'': Dcl)
    requires s.comms.SendTo? && Step(s, ByConsumer(Alloc(payload)), s') && |payload| >= LENGTH_MODULUS
    ensures Step(s', ByComms(Send(true)), s'')
    ensures s''.h.sends == s.h.sends + [BuildTlv(SiteTag(s.consumer.site), payload)]
    ensures !Framed(s''.h.sends[|s.h.sends|])
  {
    var out := BuildTlv(SiteTag(s.consumer.site), payload);
    SizeCrossCheckIffPayloadFits(out.tag, payload);
    s'' := s'.(h := s'.h.(sends := s'.h.sends + [out]), comms := AckWrite(s.comms.sent));
  }

  // ----- who finds tlv_ctx filled

  /** No READY of an earlier emit is unread or being served when an emit begins. */
  predicate BeginsQuiet(s: Dcl, a: Action) {
    IsAlloc(a) ==> s.h.note == 0 && !ReadsTlv(s.comms)
  }

  /** The counter holds the token, and perhaps deinit's STOP on top. */
  predicate NoteIs(s: Dcl, token: nat) {
    s.h.note == token || (s.h.note == token + NOTIFY_SOCKET_THREAD_STOP && (s.deinit.DCommsWait? || s.deinit.DDone?))
  }

  /** While an emit waits, the comms thread has its READY, or none. */
  predicate FoundByOwn(s: Dcl) {
    match s.consumer
    case CWrite(_, _) => NoteIs(s, 0) && !ReadsTlv(s.comms)
    case CWait(_, out) =>
      || (NoteIs(s, ReadyToken(out.tag)) && !ReadsTlv(s.comms))
      || (NoteIs(s, 0) && (ReadsTlv(s.comms) ==> s.comms.sent == SentToken(out.tag)))
    case _ => true
  }

  lemma FoundInit(s: Dcl)
    requires Init(s)
    ensures FoundByOwn(s)
  {
  }

  lemma FoundEmit(s: Dcl, a: ConsumerAct, s': Dcl)
    requires Carrying(s) && FoundByOwn(s) && EmitStep(s, a, s') && BeginsQuiet(s, ByConsumer(a))
    ensures FoundByOwn(s')
  {
  }

  lemma FoundSocket(s: Dcl, a: CommsAct, s': Dcl)
    requires FoundByOwn(s) && SocketStep(s, a, s')
    ensures FoundByOwn(s')
  {
  }

  lemma FoundDeinit(s: Dcl, a: DeinitAct, s': Dcl)
    requires FoundByOwn(s) && DeinitStep(s, a, s')
    ensures FoundByOwn(s')
  {
  }

  lemma FoundElsewhere(s: Dcl, s': Dcl)
    requires FoundByOwn(s) && s'.h.note == s.h.note && s'.deinit == s.deinit
    requires s'.comms == s.comms || !ReadsTlv(s'.comms)
    requires s'.consumer == s.consumer || (s.consumer.CAsleep? && s'.consumer.CStart?)
    ensures FoundByOwn(s')
  {
  }

  lemma CollectorCarries(s: Dcl, c: nat, a: CollectorAct, s': Dcl)
    requires CollectorStep(s, c, a, s')
    ensures s'.h == s.h.(acks := s'.h.acks) && s'.deinit == s.deinit && s'.comms == s.comms
    ensures s'.consumer == s.consumer || (s.consumer.CAsleep? && s'.consumer.CStart?)
    ensures CommsAck in s.h.acks ==> CommsAck in s'.h.acks && s'.h.acks[CommsAck] == s.h.acks[CommsAck]
  {
  }

  lemma FoundStep(s: Dcl, a: Action, s': Dcl)
    requires Carrying(s) && FoundByOwn(s) && Step(s, a, s') && BeginsQuiet(s, a)
    ensures FoundByOwn(s')
  {
    match a
    case ByConsumer(x) => if EmitStep(s, x, s') { FoundEmit(s, x, s'); } else { LoopCarries(s, x, s'); }
    case ByComms(x) =>
      if SocketStep(s, x, s') {
        FoundSocket(s, x, s');
      } else {
        StartCarries(s, x, s');
        FoundElsewhere(s, s');
      }
    case ByCollector(c, x) =>
      CollectorCarries(s, c, x, s');
      FoundElsewhere(s, s');
    case ByPusher(_, _) => FoundElsewhere(s, s');
    case ByDeinit(x) => FoundDeinit(s, x, s');
  }
}
