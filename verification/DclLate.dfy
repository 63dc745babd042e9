/**
 Answers that come late: when an emit can report success for a TLV that was not sent,
 in runs with timeouts and deinit.
 */
module DclLate {
  import opened Wrappers
  import opened Notify
  import opened TlvFraming
  import opened Subsequences
  import opened DclState
  import opened DclSteps
  import opened DclPaths
  import opened DclGating
  import opened DclAcks
  import opened DclSends

  /** The counter of comms_notification_ack. */
  function Answer(s: Dcl): nat {
    if CommsAck in s.h.acks then s.h.acks[CommsAck] else 0
  }

  /**
   The SENT of the tag is there already, or the comms thread is about to complete it. If waits of
   deinit may empty the counter meanwhile, it is enough that the comms thread is about to write it.
   */
  predicate Threat(s: Dcl, tag: Tag, emptied: bool) {
    var ack, sent := Answer(s), SentToken(tag);
    || ack == sent
    || (s.comms.AckWrite? && (ack + s.comms.sent == sent || (emptied && s.comms.sent == sent)))
  }

  /** What an emit of the tag takes for its own answer, if nothing else happens. */
  predicate Stale(s: Dcl, tag: Tag) {
    Threat(s, tag, false)
  }

  // ----- one step

  /** No step but a send brings a threat about; deinit only if its waits may count. */
  lemma NoThreatArises(s: Dcl, a: Action, s': Dcl, tag: Tag, emptied: bool)
    requires AckInv(s) && Step(s, a, s') && CommsAck in s'.h.acks
    requires a.ByConsumer? ==> s'.h.acks == s.h.acks && s'.comms == s.comms
    requires s.h.tlv.Some? && !Sends(s, a) && (a.ByDeinit? ==> emptied) && !Threat(s, tag, emptied)
    ensures !Threat(s', tag, emptied)
  {
    match a
    case ByConsumer(_) =>
    case ByComms(x) =>
      if SocketStep(s, x, s') {
        SocketBringsNone(s, x, s', tag, emptied);
      } else {
        StartCarries(s, x, s');
      }
    case ByCollector(c, x) => CollectorCarries(s, c, x, s');
    case ByPusher(_, _) =>
    case ByDeinit(x) => DeinitBringsNone(s, x, s', tag);
  }

  lemma SocketBringsNone(s: Dcl, a: CommsAct, s': Dcl, tag: Tag, emptied: bool)
    requires CommsAck in s.h.acks && SocketStep(s, a, s') && CommsAck in s'.h.acks
    requires s.h.tlv.Some? && !Sends(s, ByComms(a)) && !Threat(s, tag, emptied)
    ensures !Threat(s', tag, emptied)
  {
  }

  lemma DeinitBringsNone(s: Dcl, a: DeinitAct, s': Dcl, tag: Tag)
    requires CommsAck in s.h.acks && DeinitStep(s, a, s') && CommsAck in s'.h.acks && !Threat(s, tag, true)
    ensures !Threat(s', tag, true)
  {
  }

  // ----- one emit

  /** The emit that begins with step j is answered in step k. */
  predicate EmitFrom(acts: seq<Action>, j: nat, k: nat) {
    && j < k < |acts| && IsAlloc(acts[j]) && acts[k].ByConsumer? && acts[k].ca.WaitRead?
    && forall i | j < i < k && acts[i].ByConsumer? :: acts[i].ca.WriteReady?
  }

  /** That emit reports success although nothing was sent since it began. */
  predicate SucceedsUnsent(states: seq<Dcl>, acts: seq<Action>, j: nat, k: nat)
    requires |states| == |acts| + 1
  {
    && EmitFrom(acts, j, k)
    && |states[k + 1].h.emits| > |states[k].h.emits|
    && forall i | j < i < k :: !Sends(states[i], acts[i])
  }

  /** Inside an emit for the tag, under no threat; or outside all emits. */
  predicate Unthreatened(s: Dcl, tag: Tag, emptied: bool) {
    if s.consumer.CWrite? || s.consumer.CWait? then SiteTag(s.consumer.site) == tag && !Threat(s, tag, emptied) else true
  }

  lemma BeginsUnthreatened(s: Dcl, a: ConsumerAct, s': Dcl, emptied: bool)
    requires AckInv(s) && EmitStep(s, a, s') && a.Alloc? && !Threat(s, SiteTag(s.consumer.site), emptied)
    ensures s'.h.acks == s.h.acks && Unthreatened(s', SiteTag(s.consumer.site), emptied)
  {
  }

  lemma AllocIsEmit(s: Dcl, a: ConsumerAct, s': Dcl)
    requires ConsumerStep(s, a, s') && (a.Alloc? || a.WriteReady? || a.WaitRead?)
    ensures EmitStep(s, a, s')
  {
  }

  lemma StaysUnthreatened(s: Dcl, a: Action, s': Dcl, tag: Tag, emptied: bool)
    requires Carrying(s) && AckInv(s) && AckInv(s') && Step(s, a, s') && Unthreatened(s, tag, emptied)
    requires !Sends(s, a) && (a.ByDeinit? ==> emptied) && (a.ByConsumer? ==> a.ca.WriteReady?)
    ensures Unthreatened(s', tag, emptied)
  {
    if a.ByConsumer? {
      AllocIsEmit(s, a.ca, s');
      WriteReadyOnly(s, a.ca, s');
    } else {
      OthersLeaveEmit(s, a, s');
    }
    if s'.consumer.CWrite? || s'.consumer.CWait? {
      NoThreatArises(s, a, s', tag, emptied);
    }
  }

  lemma WriteReadyOnly(s: Dcl, a: ConsumerAct, s': Dcl)
    requires EmitStep(s, a, s') && a.WriteReady?
    ensures s.consumer.CWrite? && s'.h.acks == s.h.acks && s'.comms == s.comms
    ensures s'.consumer.CWait? ==> s'.consumer.site == s.consumer.site
    ensures !s'.consumer.CWrite?
  {
  }

  lemma OthersLeaveEmit(s: Dcl, a: Action, s': Dcl)
    requires Step(s, a, s') && !a.ByConsumer?
    ensures s'.consumer == s.consumer || (s.consumer.CAsleep? && s'.consumer.CStart?)
  {
    if a.ByComms? {
      CommsCarries(s, a.ma, s');
    } else {
      OtherThreadsFrame(s, a, s');
    }
  }

  /** A wait under no threat does not succeed. */
  lemma UnthreatenedFails(s: Dcl, a: ConsumerAct, s': Dcl, tag: Tag, emptied: bool)
    requires AckInv(s) && EmitStep(s, a, s') && a.WaitRead? && Unthreatened(s, tag, emptied)
    ensures s'.h.emits == s.h.emits
  {
    if Read(s.h.acks, a.batch, SentToken(SiteTag(s.consumer.site))).1 {
      SuccessReadsCommsAck(s, a.batch, SiteTag(s.consumer.site));
    }
  }

  // ----- over runs

  /** What every state of a run satisfies. */
  ghost predicate AllInOrder(states: seq<Dcl>) {
    forall i | 0 <= i < |states| :: Carrying(states[i]) && AckInv(states[i])
  }

  predicate StaysFact(states: seq<Dcl>, acts: seq<Action>, i: nat, tag: Tag, emptied: bool)
    requires i < |acts| < |states|
  {
    Unthreatened(states[i], tag, emptied) ==> Unthreatened(states[i + 1], tag, emptied)
  }

  lemma StaysAt(states: seq<Dcl>, acts: seq<Action>, i: nat, tag: Tag, emptied: bool)
    requires IsRun(states, acts) && AllInOrder(states) && i < |acts|
    requires !Sends(states[i], acts[i]) && (acts[i].ByDeinit? ==> emptied) && (acts[i].ByConsumer? ==> acts[i].ca.WriteReady?)
    ensures StaysFact(states, acts, i, tag, emptied)
  {
    assert Step(states[i], acts[i], states[i + 1]);
    if Unthreatened(states[i], tag, emptied) {
      StaysUnthreatened(states[i], acts[i], states[i + 1], tag, emptied);
    }
  }

  lemma {:induction false} StaysUntil(states: seq<Dcl>, acts: seq<Action>, j: nat, k: nat, tag: Tag, emptied: bool)
    requires j < k < |states| == |acts| + 1 && AllInOrder(states) && Unthreatened(states[j + 1], tag, emptied)
    requires forall i | j < i < k :: StaysFact(states, acts, i, tag, emptied)
    ensures Unthreatened(states[k], tag, emptied)
  {
    if j + 1 < k {
      StaysUntil(states, acts, j, k - 1, tag, emptied);
      assert StaysFact(states, acts, k - 1, tag, emptied);
    }
  }

  lemma FirstAt(states: seq<Dcl>, acts: seq<Action>, j: nat, emptied: bool)
    requires IsRun(states, acts) && AllInOrder(states) && j < |acts| && IsAlloc(acts[j])
    ensures states[j].consumer.CEmit?
    ensures !Threat(states[j], SiteTag(states[j].consumer.site), emptied) ==>
              Unthreatened(states[j + 1], SiteTag(states[j].consumer.site), emptied)
  {
    assert Step(states[j], acts[j], states[j + 1]);
    AllocIsEmit(states[j], acts[j].ca, states[j + 1]);
    if !Threat(states[j], SiteTag(states[j].consumer.site), emptied) {
      BeginsUnthreatened(states[j], acts[j].ca, states[j + 1], emptied);
    }
  }

  lemma LastAt(states: seq<Dcl>, acts: seq<Action>, k: nat, tag: Tag, emptied: bool)
    requires IsRun(states, acts) && AllInOrder(states) && k < |acts| && acts[k].ByConsumer? && acts[k].ca.WaitRead?
    requires Unthreatened(states[k], tag, emptied)
    ensures states[k + 1].h.emits == states[k].h.emits
  {
    assert Step(states[k], acts[k], states[k + 1]);
    AllocIsEmit(states[k], acts[k].ca, states[k + 1]);
    UnthreatenedFails(states[k], acts[k].ca, states[k + 1], tag, emptied);
  }

  /** An emit that reports success with nothing sent began under a threat. */
  lemma UnsentMeansThreat(states: seq<Dcl>, acts: seq<Action>, j: nat, k: nat, emptied: bool)
    requires IsRun(states, acts) && AllInOrder(states) && SucceedsUnsent(states, acts, j, k)
    requires forall i | j < i < k && acts[i].ByDeinit? :: emptied
    ensures states[j].consumer.CEmit? && Threat(states[j], SiteTag(states[j].consumer.site), emptied)
  {
    FirstAt(states, acts, j, emptied);
    var tag := SiteTag(states[j].consumer.site);
    if !Threat(states[j], tag, emptied) {
      forall i | j < i < k
        ensures StaysFact(states, acts, i, tag, emptied)
      {
        StaysAt(states, acts, i, tag, emptied);
      }
      StaysUntil(states, acts, j, k, tag, emptied);
      LastAt(states, acts, k, tag, emptied);
      assert false;
    }
  }

  // ----- and every stale beginning can end that way

  /** q goes on from p, first with an emit that reports success in step k with nothing sent, deinit doing nothing meanwhile. */
  ghost predicate GoesOnUnsent(p: Path, q: Path, k: nat) {
    && IsRun(q.states, q.acts) && p.states <= q.states && p.acts <= q.acts
    && SucceedsUnsent(q.states, q.acts, |p.acts|, k)
    && forall i | |p.acts| < i < k :: !q.acts[i].ByDeinit?
  }

  /** Alloc and READY, from any state in which an emit begins. */
  lemma BeginEmit(p: Path, s: Dcl) returns (q: Path, s': Dcl)
    requires RunTo(p, s) && s.consumer.CEmit?
    ensures RunTo(q, s') && s'.consumer.CWait? && s'.consumer.site == s.consumer.site
    ensures q.acts == p.acts + [ByConsumer(Alloc([])), ByConsumer(WriteReady(true))]
    ensures p.states <= q.states && |q.states| == |p.states| + 2
    ensures s'.h.acks == s.h.acks && s'.comms == s.comms && s'.h.emits == s.h.emits
  {
    var site := s.consumer.site;
    var out := BuildTlv(SiteTag(site), []);
    var s1 := s.(h := s.h.(tlv := Some(out)), consumer := CWrite(site, out), log := s.log + [Attempt]);
    q := Then(p, s, ByConsumer(Alloc([])), s1);
    s' := s1.(h := s1.h.(note := s.h.note + ReadyToken(SiteTag(site))), consumer := CWait(site, out));
    q := Then(q, s1, ByConsumer(WriteReady(true)), s');
  }

  lemma TakeAnswer(p: Path, s: Dcl) returns (q: Path, s': Dcl)
    requires RunTo(p, s) && s.consumer.CWait? && CommsAck in s.h.acks && s.h.acks[CommsAck] == SentToken(SiteTag(s.consumer.site))
    ensures RunTo(q, s') && q == Path(p.states + [s'], p.acts + [ByConsumer(WaitRead(One(CommsAck)))])
    ensures |s'.h.emits| == |s.h.emits| + 1
  {
    s' := s.(h := s.h.(acks := s.h.acks[CommsAck := 0], tlv := None, emits := s.h.emits + [s.consumer.out]),
             consumer := AfterOk(s.consumer.site));
    q := Then(p, s, ByConsumer(WaitRead(One(CommsAck))), s');
  }

  lemma CompleteAnswer(p: Path, s: Dcl) returns (q: Path, s': Dcl)
    requires RunTo(p, s) && s.comms.AckWrite? && CommsAck in s.h.acks
    ensures RunTo(q, s') && q == Path(p.states + [s'], p.acts + [ByComms(WriteAck(true))])
    ensures s'.consumer == s.consumer && s'.h.acks == s.h.acks[CommsAck := s.h.acks[CommsAck] + s.comms.sent]
    ensures s'.h.emits == s.h.emits
  {
    s' := s.(h := s.h.(acks := s.h.acks[CommsAck := s.h.acks[CommsAck] + s.comms.sent]), comms := Idle);
    q := Then(p, s, ByComms(WriteAck(true)), s');
  }

  lemma StaleGoesOnUnsent(p: Path, s: Dcl) returns (q: Path, k: nat)
    requires RunTo(p, s) && s.consumer.CEmit? && CommsAck in s.h.acks && Stale(s, SiteTag(s.consumer.site))
    ensures GoesOnUnsent(p, q, k)
  {
    var s1, s2;
    q, s1 := BeginEmit(p, s);
    if s1.h.acks[CommsAck] != SentToken(SiteTag(s.consumer.site)) {
      q, s1 := CompleteAnswer(q, s1);
    }
    k := |q.acts|;
    q, s2 := TakeAnswer(q, s1);
    assert q.states[k] == s1 && q.states[k + 1] == s2;
  }

  /** Exactly: an emit can report success for what was not sent if and only if it begins with a stale answer. */
  lemma UnsentIff(p: Path, s: Dcl)
    requires RunTo(p, s) && s.consumer.CEmit? && CommsAck in s.h.acks
    requires forall q: Path | IsRun(q.states, q.acts) :: AllInOrder(q.states)
    ensures Stale(s, SiteTag(s.consumer.site)) <==> exists q, k :: GoesOnUnsent(p, q, k)
  {
    if Stale(s, SiteTag(s.consumer.site)) {
      var q, k := StaleGoesOnUnsent(p, s);
    }
    if q, k :| GoesOnUnsent(p, q, k) {
      var n := |p.acts|;
      assert q.states[n] == p.states[n] == s;
      UnsentMeansThreat(q.states, q.acts, n, k, false);
    }
  }

  // ----- successful emits among the sends

  /** The emit in progress has been sent, or is under no threat. */
  ghost predicate SentOrSafe(s: Dcl, out: TlvContext, emptied: bool) {
    Subsequence(s.h.emits + [out], s.h.sends) || !Threat(s, out.tag, emptied)
  }

  ghost predicate LateInv(s: Dcl, emptied: bool) {
    && Subsequence(s.h.emits, s.h.sends)
    && match s.consumer
       case CWrite(_, out) => SentOrSafe(s, out, emptied)
       case CWait(_, out) => SentOrSafe(s, out, emptied)
       case _ => true
  }

  /** No emit begins under a threat. */
  predicate BeginsSafe(s: Dcl, a: Action, emptied: bool) {
    && (IsAlloc(a) && s.consumer.CEmit? ==> !Threat(s, SiteTag(s.consumer.site), emptied))
    && (a.ByDeinit? ==> emptied)
  }

  lemma LateInit(s: Dcl, emptied: bool)
    requires Init(s)
    ensures LateInv(s, emptied)
  {
    Nothing(s.h.sends);
  }

  lemma LateEmit(s: Dcl, a: ConsumerAct, s': Dcl, emptied: bool)
    requires Carrying(s) && AckInv(s) && AckInv(s') && EmitStep(s, a, s')
    requires LateInv(s, emptied) && BeginsSafe(s, ByConsumer(a), emptied)
    ensures LateInv(s', emptied)
  {
    if a.WaitRead? && Read(s.h.acks, a.batch, SentToken(SiteTag(s.consumer.site))).1 {
      SuccessReadsCommsAck(s, a.batch, SiteTag(s.consumer.site));
    }
  }

  lemma LateSend(s: Dcl, s': Dcl, emptied: bool)
    requires Carrying(s) && AckInv(s) && AckInv(s') && LateInv(s, emptied)
    requires s'.h.emits == s.h.emits && s'.consumer == s.consumer && s.h.tlv.Some? && s'.h.sends == s.h.sends + [s.h.tlv.value]
    ensures LateInv(s', emptied)
  {
    BothGrow(s.h.emits, s.h.sends, s.h.tlv.value);
    OuterGrows(s.h.emits, s.h.sends, s.h.tlv.value);
  }

  lemma LateOthers(s: Dcl, a: Action, s': Dcl, emptied: bool)
    requires Carrying(s) && AckInv(s) && AckInv(s') && Step(s, a, s') && !a.ByConsumer? && !Sends(s, a)
    requires LateInv(s, emptied) && (a.ByDeinit? ==> emptied)
    ensures LateInv(s', emptied)
  {
    OthersLeaveEmit(s, a, s');
    OthersLeaveHistory(s, a, s');
    if s.consumer.CWrite? || s.consumer.CWait? {
      if !Threat(s, s.consumer.out.tag, emptied) {
        NoThreatArises(s, a, s', s.consumer.out.tag, emptied);
      }
    }
  }

  lemma OthersLeaveHistory(s: Dcl, a: Action, s': Dcl)
    requires Step(s, a, s') && !a.ByConsumer? && !Sends(s, a)
    ensures s'.h.emits == s.h.emits && s'.h.sends == s.h.sends
  {
    if a.ByComms? {
      CommsCarries(s, a.ma, s');
    } else {
      OtherThreadsFrame(s, a, s');
    }
  }

  lemma LateStep(s: Dcl, a: Action, s': Dcl, emptied: bool)
    requires Carrying(s) && AckInv(s) && AckInv(s') && Step(s, a, s')
    requires LateInv(s, emptied) && BeginsSafe(s, a, emptied)
    ensures LateInv(s', emptied)
  {
    if a.ByConsumer? {
      if EmitStep(s, a.ca, s') {
        LateEmit(s, a.ca, s', emptied);
      } else {
        LoopCarries(s, a.ca, s');
      }
    } else if Sends(s, a) {
      CommsCarries(s, a.ma, s');
      LateSend(s, s', emptied);
    } else {
      LateOthers(s, a, s', emptied);
    }
  }
}
