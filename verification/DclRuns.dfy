/**
 The properties of the consumer over whole runs, for any number of L1 slots, any
 interleaving and any outcome of the foreign calls.
 */
module DclRuns {
  import opened Wrappers
  import opened Notify
  import opened TlvFraming
  import opened DclState
  import opened DclSteps
  import opened DclLocks
  import opened DclTable
  import opened DclGating
  import opened DclHello
  import opened DclQueue
  import opened DclDone
  import opened DclRequests
  import opened DclStop
  import opened DclHandoff
  import opened DclProgress

  /** What every reachable state satisfies. */
  ghost predicate Sound(s: Dcl) {
    Own(s) && TableInv(s) && GateInv(s) && HelloInv(s) && QueueInv(s) && DoneInv(s)
  }

  lemma SoundInit(s: Dcl)
    requires Init(s)
    ensures Sound(s)
  {
  }

  lemma SoundStep(s: Dcl, a: Action, s': Dcl)
    requires Sound(s) && Step(s, a, s')
    ensures Sound(s')
  {
    OwnStep(s, a, s');
    TableStep(s, a, s');
    GateStep(s, a, s');
    HelloStep(s, a, s');
    QueueStep(s, a, s');
    DoneStep(s, a, s');
  }

  lemma {:induction false} RunsAreSound(states: seq<Dcl>, acts: seq<Action>, i: nat)
    requires IsRun(states, acts) && i < |states|
    ensures Sound(states[i])
  {
    if i == 0 {
      SoundInit(states[0]);
    } else {
      RunsAreSound(states, acts, i - 1);
      assert Step(states[i - 1], acts[i - 1], states[i]);
      SoundStep(states[i - 1], acts[i - 1], states[i]);
    }
  }

  /** No step resizes the table of collections or takes exit_consumer back. */
  ghost predicate SameSizeAndExit(s: Dcl, s': Dcl) {
    |s'.l1.slots| == |s.l1.slots| && (s.q.exit ==> s'.q.exit)
  }

  lemma ConsumerSizeAndExit(s: Dcl, a: ConsumerAct, s': Dcl)
    requires ConsumerStep(s, a, s')
    ensures SameSizeAndExit(s, s')
  {
  }

  lemma CommsSizeAndExit(s: Dcl, a: CommsAct, s': Dcl)
    requires CommsStep(s, a, s')
    ensures SameSizeAndExit(s, s')
  {
  }

  lemma CollectorSizeAndExit(s: Dcl, c: nat, a: CollectorAct, s': Dcl)
    requires CollectorStep(s, c, a, s')
    ensures SameSizeAndExit(s, s')
  {
  }

  lemma DeinitSizeAndExit(s: Dcl, a: DeinitAct, s': Dcl)
    requires DeinitStep(s, a, s')
    ensures SameSizeAndExit(s, s')
  {
  }

  lemma TableSizeAndExitStay(s: Dcl, a: Action, s': Dcl)
    requires Step(s, a, s')
    ensures SameSizeAndExit(s, s')
  {
    match a
    case ByConsumer(x) => ConsumerSizeAndExit(s, x, s');
    case ByComms(x) => CommsSizeAndExit(s, x, s');
    case ByCollector(c, x) => CollectorSizeAndExit(s, c, x, s');
    case ByPusher(p, x) =>
    case ByDeinit(x) => DeinitSizeAndExit(s, x, s');
  }

  // ----- mutexes

  lemma RunsHaveNoMutexCycle(states: seq<Dcl>, acts: seq<Action>, i: nat, cycle: seq<Tid>)
    requires IsRun(states, acts) && i < |states| && |cycle| > 0
    ensures !(&& (forall k | 0 <= k < |cycle| - 1 :: BlockedBy(states[i], cycle[k], cycle[k + 1]))
              && BlockedBy(states[i], cycle[|cycle| - 1], cycle[0]))
    ensures forall t :: states[i].mx.l1 == Some(t) ==> !WantsLock(states[i], t)
  {
    RunsAreSound(states, acts, i);
    NoMutexCycle(states[i], cycle);
    forall t | states[i].mx.l1 == Some(t)
      ensures !WantsLock(states[i], t)
    {
      L1HolderAsksForNothing(states[i], t);
    }
  }

  /** In every reachable state in which a mutex is held, a thread holding one can take a step. */
  lemma RunsNeverStick(states: seq<Dcl>, acts: seq<Action>, i: nat)
    requires IsRun(states, acts) && i < |states|
    requires states[i].mx.consumer.Some? || states[i].mx.l1.Some?
    ensures exists a, s' :: Step(states[i], a, s') &&
              (states[i].mx.consumer == Some(Actor(a)) || states[i].mx.l1 == Some(Actor(a)))
  {
    RunsAreSound(states, acts, i);
    var t, a, s' := SomeHolderMoves(states[i]);
    assert Step(states[i], a, s');
  }

  // ----- gating

  /** No emit with comms_ready false; after a failure none before the gate was reopened. */
  lemma RunsAreGated(states: seq<Dcl>, acts: seq<Action>, n: nat, i: nat, j: nat)
    requires IsRun(states, acts) && n < |states|
    requires i < j < |states[n].log| && states[n].log[i].Failed? && states[n].log[j].Attempt?
    ensures exists k :: i < k < j && states[n].log[k].Ready?
    ensures !states[n].log[i].helloPending ==>
              exists v, k :: i < v < k < j && states[n].log[v].Version? && states[n].log[k].Ready?
  {
    RunsAreSound(states, acts, n);
    var log := states[n].log;
    var before := log[..j];
    assert Reopened(before);
    assert before[i] == log[i];
    var k :| i < k < |before| && before[k].Ready?;
    assert log[k].Ready?;
    if !log[i].helloPending {
      var m :| i < m < |before| && before[m].Ready? && VersionBetween(before, i, m);
      var v :| i < v < m && v < |before| && before[v].Version?;
      assert log[v].Version? && log[m].Ready?;
    }
  }

  /** What sets comms_ready again after a failure was answered after it, exactly if no HELLO was in hand at the failure. */
  lemma RunsReopenExactly(states: seq<Dcl>, acts: seq<Action>, n: nat, i: nat, k: nat)
    requires IsRun(states, acts) && n < |states|
    requires FirstReady(states[n].log, i, k) && states[n].log[i].Failed?
    ensures (exists v :: i < v < k && states[n].log[v].Version?) <==> !states[n].log[i].helloPending
  {
    RunsAreSound(states, acts, n);
    var log := states[n].log;
    assert VersionBetween(log, i, k) <==> !log[i].helloPending;
    assert VersionBetween(log, i, k) <==> exists v :: i < v < k && log[v].Version?;
  }

  lemma AttemptsNeedReady(states: seq<Dcl>, acts: seq<Action>, i: nat)
    requires IsRun(states, acts) && i < |acts|
    requires acts[i] == ByConsumer(AllocFail) || (acts[i].ByConsumer? && acts[i].ca.Alloc?)
    ensures states[i].h.ready
  {
    RunsAreSound(states, acts, i);
    assert Step(states[i], acts[i], states[i + 1]);
  }

  // ----- the queue

  lemma RunsKeepTheQueue(states: seq<Dcl>, acts: seq<Action>, i: nat)
    requires IsRun(states, acts) && i < |states|
    ensures var s := states[i];
            && s.q.popped + s.q.events == s.q.pushed
            && (s.mx.consumer.None? && s.q.events != [] ==>
                  s.q.wakeup && (s.consumer.CAsleep? ==> exists t :: AboutToSignal(s, t)))
  {
    RunsAreSound(states, acts, i);
  }

  /** In every reachable state with the lock free, events queued and no exit asked for, the next event can be taken. */
  lemma RunsLoseNoWakeup(states: seq<Dcl>, acts: seq<Action>, i: nat)
    returns (wake: Action, s0: Dcl, s1: Dcl, s2: Dcl, s': Dcl)
    requires IsRun(states, acts) && i < |states|
    requires states[i].mx.consumer.None? && states[i].q.events != [] && !states[i].q.exit
    ensures if states[i].consumer.CAsleep? then AboutToSignal(states[i], Actor(wake)) && Step(states[i], wake, s0)
            else s0 == states[i]
    ensures Step(s0, ByConsumer(Acquire), s1) && Step(s1, ByConsumer(ConsumerAct.Begin), s2) && Step(s2, ByConsumer(Pop), s')
    ensures s'.q.popped == states[i].q.popped + [states[i].q.events[0]]
  {
    RunsAreSound(states, acts, i);
    wake, s0, s1, s2, s' := NoLostWakeup(states[i]);
  }

  /** Once exit_consumer is set it stays set, and nothing more is taken. */
  predicate ExitFact(states: seq<Dcl>, k: nat)
    requires k + 1 < |states|
  {
    states[k].q.exit ==> states[k + 1].q.exit && states[k + 1].q.popped == states[k].q.popped
  }

  lemma ExitAt(states: seq<Dcl>, acts: seq<Action>, k: nat)
    requires IsRun(states, acts) && k < |acts|
    ensures ExitFact(states, k)
  {
    RunsAreSound(states, acts, k);
    var s, a, s' := states[k], acts[k], states[k + 1];
    assert Step(s, a, s');
    if s.q.exit {
      NothingProcessedAfterExit(s, a, s');
      TableSizeAndExitStay(s, a, s');
    }
  }

  lemma {:induction false} ExitStays(states: seq<Dcl>, i: nat, j: nat)
    requires i <= j < |states| && states[i].q.exit
    requires forall k | 0 <= k < |states| - 1 :: ExitFact(states, k)
    ensures states[j].q.exit && states[j].q.popped == states[i].q.popped
  {
    if i < j {
      ExitStays(states, i, j - 1);
      assert ExitFact(states, j - 1);
    }
  }

  lemma RunsStopAtExit(states: seq<Dcl>, acts: seq<Action>, i: nat, j: nat)
    requires IsRun(states, acts) && i <= j < |states| && states[i].q.exit
    ensures states[j].q.exit && states[j].q.popped == states[i].q.popped
  {
    forall k | 0 <= k < |states| - 1
      ensures ExitFact(states, k)
    {
      ExitAt(states, acts, k);
    }
    ExitStays(states, i, j);
  }

  // ----- L1 collections

  lemma RunsKeepTheTable(states: seq<Dcl>, acts: seq<Action>, i: nat)
    requires IsRun(states, acts) && i < |states|
    ensures var t := states[i].l1;
            && |t.slots| == |states[0].l1.slots|
            && (forall k | 0 <= k < |t.slots| && t.slots[k].Some? ::
                  t.slots[k].value in t.coll && !t.coll[t.slots[k].value].pc.Freed?)
            && (forall k, m | 0 <= k < m < |t.slots| && t.slots[k].Some? && t.slots[m].Some? ::
                  t.coll[t.slots[k].value].mac != t.coll[t.slots[m].value].mac)
    decreases i
  {
    RunsAreSound(states, acts, i);
    if i > 0 {
      RunsKeepTheTable(states, acts, i - 1);
      assert Step(states[i - 1], acts[i - 1], states[i]);
      TableSizeAndExitStay(states[i - 1], acts[i - 1], states[i]);
    }
  }

  /** Each collector's account: it pushed its DONE or left by the branch for STOP, and whoever did was found. */
  lemma RunsEndByEitherBranch(states: seq<Dcl>, acts: seq<Action>, i: nat, c: nat)
    requires IsRun(states, acts) && i < |states|
    requires c in states[i].l1.coll && states[i].l1.coll[c].pc.Freed?
    ensures var x := states[i].l1.coll[c];
            && x.queued == (if x.stopRead then 0 else 1)
            && (x.stopRead ==> x.direct > 0 || x.byDeinit)
  {
    RunsAreSound(states, acts, i);
    EndedByEitherBranch(states[i], c);
  }

  lemma RunsRequestDone(states: seq<Dcl>, acts: seq<Action>, i: nat, c: nat)
    requires IsRun(states, acts) && i < |states|
    requires c in states[i].l1.coll && states[i].l1.coll[c].pc.Freed? && !states[i].l1.coll[c].byDeinit
    ensures states[i].l1.coll[c].queued + states[i].l1.coll[c].direct >= 1
  {
    RunsEndByEitherBranch(states, acts, i, c);
  }

  /** In all runs: exactly one DONE, if and only if the collector was never found, or found once and left by the branch for STOP. */
  lemma RunsRequestDoneOnceIff(states: seq<Dcl>, acts: seq<Action>, i: nat, c: nat)
    requires IsRun(states, acts) && i < |states|
    requires c in states[i].l1.coll && states[i].l1.coll[c].pc.Freed? && !states[i].l1.coll[c].byDeinit
    ensures var x := states[i].l1.coll[c];
            x.queued + x.direct == 1 <==> x.direct == 0 || (x.direct == 1 && x.stopRead)
  {
    RunsEndByEitherBranch(states, acts, i, c);
  }

  lemma AcknowledgedGoesOn(states: seq<Dcl>, acts: seq<Action>, k: nat)
    requires IsRun(states, acts) && k < |acts|
    requires Sound(states[k]) && FdInv(states[k]) && CountInv(states[k]) && StopAcknowledged(states[k], acts[k])
    ensures FdInv(states[k + 1]) && CountInv(states[k + 1])
  {
    var s, a, s' := states[k], acts[k], states[k + 1];
    assert Step(s, a, s');
    FdStep(s, a, s');
    CountStep(s, a, s');
  }

  ghost predicate CountsOnce(s: Dcl) {
    FdInv(s) && CountInv(s)
  }

  ghost predicate CountFact(states: seq<Dcl>, k: nat)
    requires k + 1 < |states|
  {
    CountsOnce(states[k]) ==> CountsOnce(states[k + 1])
  }

  lemma CountAt(states: seq<Dcl>, acts: seq<Action>, k: nat)
    requires IsRun(states, acts) && k < |acts| && StopAcknowledged(states[k], acts[k])
    ensures CountFact(states, k)
  {
    if CountsOnce(states[k]) {
      RunsAreSound(states, acts, k);
      AcknowledgedGoesOn(states, acts, k);
    }
  }

  lemma {:induction false} CountsOnceUpTo(states: seq<Dcl>, i: nat)
    requires i < |states| && CountsOnce(states[0])
    requires forall k | 0 <= k < |states| - 1 :: CountFact(states, k)
    ensures CountsOnce(states[i])
  {
    if i > 0 {
      CountsOnceUpTo(states, i - 1);
      assert CountFact(states, i - 1);
    }
  }

  lemma AcknowledgedRunsCount(states: seq<Dcl>, acts: seq<Action>, i: nat)
    requires IsRun(states, acts) && i < |states|
    requires forall k | 0 <= k < |acts| :: StopAcknowledged(states[k], acts[k])
    ensures FdInv(states[i]) && CountInv(states[i])
  {
    FdInit(states[0]);
    CountInit(states[0]);
    forall k | 0 <= k < |states| - 1
      ensures CountFact(states, k)
    {
      CountAt(states, acts, k);
    }
    CountsOnceUpTo(states, i);
  }

  /** When the consumer gets all its stops acknowledged, a collector that ended outside deinit had exactly one DONE requested. */
  lemma RunsRequestDoneOnce(states: seq<Dcl>, acts: seq<Action>, i: nat, c: nat)
    requires IsRun(states, acts) && i < |states|
    requires forall k | 0 <= k < |acts| :: StopAcknowledged(states[k], acts[k])
    requires c in states[i].l1.coll && states[i].l1.coll[c].pc.Freed? && !states[i].l1.coll[c].byDeinit
    ensures states[i].l1.coll[c].queued + states[i].l1.coll[c].direct == 1
  {
    AcknowledgedRunsCount(states, acts, i);
    RunsAreSound(states, acts, i);
    AcknowledgedMeansOnce(states[i], c);
  }

  /**
   Every DONE request of every collector, pushed or direct, is still queued, or in the consumer's
   hand at its gate or emit, or was passed to emit, or was dropped by a gate with comms_ready false.
   */
  lemma RunsAccountForDone(states: seq<Dcl>, acts: seq<Action>, n: nat, c: nat)
    requires IsRun(states, acts) && n < |states|
    ensures var s, b := states[n], BooksOf(states, acts, n);
            && Queued(s, c) + Direct(s, c) == DoneEvents(s.q.events, c) + InHand(b, c) + b.attempted[c] + b.refused[c]
            && (b.hand.Some? <==> AtDone(s.consumer))
  {
    RunsBalance(states, acts, n, c);
    RunsKeepTheQueue(states, acts, n);
    DoneEventsConcat(states[n].q.popped, states[n].q.events, c);
  }

  // ----- the handoff

  lemma UntimedGoesOn(states: seq<Dcl>, acts: seq<Action>, k: nat)
    requires IsRun(states, acts) && k < |acts| && NoTimeout(acts[k])
    requires Sound(states[k]) && BeforeDeinit(states[k]) && FdInv(states[k]) && HandoffInv(states[k])
    ensures BeforeDeinit(states[k + 1]) && FdInv(states[k + 1]) && HandoffInv(states[k + 1])
  {
    var s, a, s' := states[k], acts[k], states[k + 1];
    assert Step(s, a, s');
    NoTimeoutMeansAnswered(s, a, s');
    StaysBeforeDeinit(s, a, s');
    FdStep(s, a, s');
    HandoffStep(s, a, s');
  }

  ghost predicate HandsOff(s: Dcl) {
    BeforeDeinit(s) && FdInv(s) && HandoffInv(s)
  }

  ghost predicate HandoffFact(states: seq<Dcl>, k: nat)
    requires k + 1 < |states|
  {
    HandsOff(states[k]) ==> HandsOff(states[k + 1])
  }

  lemma HandoffAt(states: seq<Dcl>, acts: seq<Action>, k: nat)
    requires IsRun(states, acts) && k < |acts| && NoTimeout(acts[k])
    ensures HandoffFact(states, k)
  {
    if HandsOff(states[k]) {
      RunsAreSound(states, acts, k);
      UntimedGoesOn(states, acts, k);
    }
  }

  lemma {:induction false} HandsOffUpTo(states: seq<Dcl>, i: nat)
    requires i < |states| && HandsOff(states[0])
    requires forall k | 0 <= k < |states| - 1 :: HandoffFact(states, k)
    ensures HandsOff(states[i])
  {
    if i > 0 {
      HandsOffUpTo(states, i - 1);
      assert HandoffFact(states, i - 1);
    }
  }

  lemma UntimedRunsHandOff(states: seq<Dcl>, acts: seq<Action>, i: nat)
    requires IsRun(states, acts) && i < |states|
    requires forall k | 0 <= k < |acts| :: NoTimeout(acts[k])
    ensures BeforeDeinit(states[i]) && FdInv(states[i]) && HandoffInv(states[i])
  {
    FdInit(states[0]);
    HandoffInit(states[0]);
    forall k | 0 <= k < |states| - 1
      ensures HandoffFact(states, k)
    {
      HandoffAt(states, acts, k);
    }
    HandsOffUpTo(states, i);
  }

  /** Before deinit and without timeouts: reads only while the emit waits, one send per success, in order. */
  lemma RunsHandOffFaithfully(states: seq<Dcl>, acts: seq<Action>, i: nat)
    requires IsRun(states, acts) && i < |states|
    requires forall k | 0 <= k < |acts| :: NoTimeout(acts[k])
    ensures var s := states[i];
            && (ReadsTlv(s.comms) ==>
                  s.consumer.CWait? && s.h.tlv == Some(s.consumer.out) && s.comms.sent == SentToken(s.consumer.out.tag))
            && (s.h.sends == s.h.emits || (s.consumer.CWait? && s.h.sends == s.h.emits + [s.consumer.out]))
            && forall t | t in s.h.sends :: t.size == |t.data| + HEADER_SIZE && t.len == |t.data| < LENGTH_MODULUS
  {
    UntimedRunsHandOff(states, acts, i);
    var s := states[i];
    forall t | t in s.h.sends
      ensures t.size == |t.data| + HEADER_SIZE && t.len == |t.data| < LENGTH_MODULUS
    {
      assert Framed(t);
      SizeCrossCheckIffPayloadFits(t.tag, t.data);
    }
  }

  /** In the same runs no token is ever taken for another: every wait and every read finds the one it is for. */
  lemma RunsNeverConfuseTokens(states: seq<Dcl>, acts: seq<Action>, i: nat, b: Batch)
    requires IsRun(states, acts) && i < |states|
    requires forall k | 0 <= k < |acts| :: NoTimeout(acts[k])
    ensures var s := states[i];
            && (s.consumer.CWait? && Reported(s.h.acks, b) ==>
                  b == One(CommsAck) && s.h.acks[CommsAck] == SentToken(SiteTag(s.consumer.site)))
            && (s.consumer.CStopWait? && Reported(s.h.acks, b) ==>
                  b == One(CollectorAck(s.consumer.target)) && s.h.acks[b.fd] == NOTIFY_L1_THREAD_RETURN)
            && (s.h.note > 0 ==> s.consumer.CWait? && s.h.note == ReadyToken(SiteTag(s.consumer.site)))
  {
    UntimedRunsHandOff(states, acts, i);
    var s := states[i];
    if Reported(s.h.acks, b) {
      if s.consumer.CWait? {
        OnlySentIsRead(s, b);
      } else if s.consumer.CStopWait? {
        OnlyReturnIsRead(s, b);
      }
    }
  }
}
