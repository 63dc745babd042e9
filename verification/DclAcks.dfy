/** What the ack eventfds can hold, in all runs. */
module DclAcks {
  import opened Notify
  import opened DclState
  import opened DclSteps
  import opened DclLocks
  import opened DclDone

  predicate AckOk(ack: nat, pc: CollectorPc) {
    ack == 0 || (ack == NOTIFY_L1_THREAD_RETURN && Returning(pc))
  }

  /** The ack eventfds hold RETURN or nothing, the comms thread's is there. */
  ghost predicate AckInv(s: Dcl) {
    && CommsAck in s.h.acks
    && (forall c | CollectorAck(c) in s.h.acks ::
          c in s.l1.coll && AckOk(s.h.acks[CollectorAck(c)], s.l1.coll[c].pc))
  }

  lemma AckInit(s: Dcl)
    requires Init(s)
    ensures AckInv(s)
  {
  }

  lemma AckConsumer(s: Dcl, a: ConsumerAct, s': Dcl)
    requires AckInv(s) && ConsumerStep(s, a, s')
    ensures AckInv(s')
  {
    if DeviceStep(s, a, s') {
      AckDevice(s, a, s');
    } else {
      AckEmit(s, a, s');
    }
  }

  lemma AckDevice(s: Dcl, a: ConsumerAct, s': Dcl)
    requires AckInv(s) && DeviceStep(s, a, s')
    ensures AckInv(s')
  {
  }

  lemma AckEmit(s: Dcl, a: ConsumerAct, s': Dcl)
    requires AckInv(s) && (LoopStep(s, a, s') || EmitStep(s, a, s'))
    ensures AckInv(s')
  {
  }

  lemma AckComms(s: Dcl, a: CommsAct, s': Dcl)
    requires Own(s) && AckInv(s) && CommsStep(s, a, s')
    ensures AckInv(s')
  {
    if StartStep(s, a, s') {
      AckStart(s, a, s');
    } else {
      AckSocket(s, a, s');
    }
  }

  lemma AckStart(s: Dcl, a: CommsAct, s': Dcl)
    requires Own(s) && AckInv(s) && StartStep(s, a, s')
    ensures AckInv(s')
  {
  }

  lemma AckSocket(s: Dcl, a: CommsAct, s': Dcl)
    requires AckInv(s) && SocketStep(s, a, s')
    ensures AckInv(s')
  {
  }

  lemma AckCollector(s: Dcl, c: nat, a: CollectorAct, s': Dcl)
    requires AckInv(s) && CollectorStep(s, c, a, s')
    ensures AckInv(s')
  {
    forall d | CollectorAck(d) in s'.h.acks
      ensures d in s'.l1.coll && AckOk(s'.h.acks[CollectorAck(d)], s'.l1.coll[d].pc)
    {
      assert CollectorAck(d) in s.h.acks;
      AckKeptByCollector(s, c, a, s', d);
    }
  }

  lemma AckKeptByCollector(s: Dcl, c: nat, a: CollectorAct, s': Dcl, d: nat)
    requires CollectorStep(s, c, a, s') && CollectorAck(d) in s.h.acks && CollectorAck(d) in s'.h.acks
    requires d in s.l1.coll && AckOk(s.h.acks[CollectorAck(d)], s.l1.coll[d].pc)
    ensures d in s'.l1.coll && AckOk(s'.h.acks[CollectorAck(d)], s'.l1.coll[d].pc)
  {
  }

  lemma AckDeinit(s: Dcl, a: DeinitAct, s': Dcl)
    requires AckInv(s) && DeinitStep(s, a, s')
    ensures AckInv(s')
  {
  }

  lemma AckStep(s: Dcl, a: Action, s': Dcl)
    requires Own(s) && AckInv(s) && Step(s, a, s')
    ensures AckInv(s')
  {
    match a
    case ByConsumer(x) => AckConsumer(s, x, s');
    case ByComms(x) => AckComms(s, x, s');
    case ByCollector(c, x) => AckCollector(s, c, x, s');
    case ByPusher(_, _) =>
    case ByDeinit(x) => AckDeinit(s, x, s');
  }

  /** A wait for SENT succeeds only on the comms thread's own eventfd. */
  lemma SuccessReadsCommsAck(s: Dcl, b: Batch, tag: Tag)
    requires AckInv(s) && Reported(s.h.acks, b) && Read(s.h.acks, b, SentToken(tag)).1
    ensures b == One(CommsAck) && s.h.acks[CommsAck] == SentToken(tag)
  {
    forall fd | fd in s.h.acks && fd != CommsAck
      ensures s.h.acks[fd] != SentToken(tag)
    {
      assert fd == CollectorAck(fd.c);
    }
  }
}
