/**
 What becomes of every DONE request, collector by collector: it waits in the queue,
 is in the consumer's hand, was attempted, or met its gate with comms_ready false.
 */
module DclRequests {
  import opened Wrappers
  import opened Notify
  import opened DclState
  import opened DclSteps
  import opened DclQueue

  /** What a step means for the DONE requests. */
  datatype DoneMove =
    | Asks(c: nat)                    // a DONE event is taken, or disconnect processing asks for one
    | Attempts                        // the DONE in hand is passed to emit
    | Refuses                         // the DONE in hand finds comms_ready false
    | Elsewhere

  /** The consumer has a DONE in hand: at its gate, or at its emit. */
  predicate AtDone(pc: ConsumerPc) {
    (pc.CGate? || pc.CEmit?) && SiteTag(pc.site) == L1CollectionDone
  }

  function MoveOf(s: Dcl, a: Action): DoneMove {
    match a
    case ByConsumer(Pop) => if s.q.events != [] && s.q.events[0].L1Done? then Asks(s.q.events[0].collector) else Elsewhere
    case ByConsumer(ScanEnd) =>
      if s.consumer.CScan? && s.consumer.found.Some? && s.consumer.found.value in s.l1.coll then Asks(s.consumer.found.value)
      else Elsewhere
    case ByConsumer(Gate) => if AtDone(s.consumer) && !s.h.ready then Refuses else Elsewhere
    case ByConsumer(AllocFail) => if AtDone(s.consumer) then Attempts else Elsewhere
    case ByConsumer(Alloc(_)) => if AtDone(s.consumer) then Attempts else Elsewhere
    case _ => Elsewhere
  }

  /** Whose DONE is in hand, and per collector how many were asked for, attempted and refused. */
  datatype Books = Books(hand: Option<nat>, asked: multiset<nat>, attempted: multiset<nat>, refused: multiset<nat>)

  function Enter(b: Books, m: DoneMove): Books {
    match m
    case Asks(c) => b.(hand := Some(c), asked := b.asked + multiset{c})
    case Attempts => if b.hand.Some? then b.(hand := None, attempted := b.attempted + multiset{b.hand.value}) else b
    case Refuses => if b.hand.Some? then b.(hand := None, refused := b.refused + multiset{b.hand.value}) else b
    case Elsewhere => b
  }

  /** The books after the first n steps of a run. */
  function BooksOf(states: seq<Dcl>, acts: seq<Action>, n: nat): Books
    requires n <= |acts| <= |states|
  {
    if n == 0 then Books(None, multiset{}, multiset{}, multiset{})
    else Enter(BooksOf(states, acts, n - 1), MoveOf(states[n - 1], acts[n - 1]))
  }

  /** How many DONE events of the collector are in a queue. */
  function DoneEvents(events: seq<Event>, c: nat): nat {
    if |events| == 0 then 0
    else DoneEvents(events[..|events| - 1], c) + (if events[|events| - 1] == L1Done(c) then 1 else 0)
  }

  function Queued(s: Dcl, c: nat): nat {
    if c in s.l1.coll then s.l1.coll[c].queued else 0
  }

  function Direct(s: Dcl, c: nat): nat {
    if c in s.l1.coll then s.l1.coll[c].direct else 0
  }

  function InHand(b: Books, c: nat): nat {
    if b.hand == Some(c) then 1 else 0
  }

  /** Nothing asked for is lost, and nothing is attempted or refused that was not asked for. */
  predicate Balanced(s: Dcl, b: Books, c: nat) {
    && (b.hand.Some? <==> AtDone(s.consumer))
    && b.asked[c] == b.attempted[c] + b.refused[c] + InHand(b, c)
    && b.asked[c] == DoneEvents(s.q.popped, c) + Direct(s, c)
  }

  /** A collector's DONE events are the ones it pushed; nobody else pushes any. */
  ghost predicate OwnEvents(s: Dcl, c: nat) {
    && DoneEvents(s.q.pushed, c) == Queued(s, c)
    && (forall p | p in s.pushers && s.pushers[p].PWant? :: !s.pushers[p].ev.L1Done?)
    && (forall p | p in s.pushers && s.pushers[p].PHold? :: !s.pushers[p].ev.L1Done?)
  }

  lemma RequestsInit(s: Dcl, c: nat)
    requires Init(s)
    ensures Balanced(s, Books(None, multiset{}, multiset{}, multiset{}), c) && OwnEvents(s, c)
  {
  }

  lemma DoneEventsNext(events: seq<Event>, ev: Event, c: nat)
    ensures DoneEvents(events + [ev], c) == DoneEvents(events, c) + (if ev == L1Done(c) then 1 else 0)
  {
    assert (events + [ev])[..|events|] == events;
  }

  lemma {:induction false} DoneEventsConcat(a: seq<Event>, b: seq<Event>, c: nat)
    ensures DoneEvents(a + b, c) == DoneEvents(a, c) + DoneEvents(b, c)
  {
    if |b| == 0 {
      assert a + b == a;
    } else {
      DoneEventsConcat(a, b[..|b| - 1], c);
      assert (a + b)[..|a + b| - 1] == a + b[..|b| - 1];
    }
  }

  // ----- the books balance

  lemma BalancedPop(s: Dcl, s': Dcl, b: Books, c: nat)
    requires Balanced(s, b, c) && LoopStep(s, Pop, s')
    ensures Balanced(s', Enter(b, MoveOf(s, ByConsumer(Pop))), c)
  {
    DoneEventsNext(s.q.popped, s.q.events[0], c);
  }

  lemma BalancedLoop(s: Dcl, a: ConsumerAct, s': Dcl, b: Books, c: nat)
    requires Balanced(s, b, c) && LoopStep(s, a, s') && !a.Pop?
    ensures Balanced(s', Enter(b, MoveOf(s, ByConsumer(a))), c)
  {
  }

  lemma BalancedDevice(s: Dcl, a: ConsumerAct, s': Dcl, b: Books, c: nat)
    requires Balanced(s, b, c) && DeviceStep(s, a, s')
    ensures Balanced(s', Enter(b, MoveOf(s, ByConsumer(a))), c)
  {
  }

  lemma BalancedEmit(s: Dcl, a: ConsumerAct, s': Dcl, b: Books, c: nat)
    requires Balanced(s, b, c) && EmitStep(s, a, s')
    ensures Balanced(s', Enter(b, MoveOf(s, ByConsumer(a))), c)
  {
  }

  lemma BalancedElsewhere(s: Dcl, s': Dcl, b: Books, c: nat)
    requires Balanced(s, b, c) && s'.q.popped == s.q.popped && Direct(s', c) == Direct(s, c)
    requires s'.consumer == s.consumer || (s.consumer.CAsleep? && s'.consumer.CStart?)
    ensures Balanced(s', b, c)
  {
  }

  lemma CommsAsksNothing(s: Dcl, a: CommsAct, s': Dcl, c: nat)
    requires CommsStep(s, a, s')
    ensures s'.q == s.q && s'.consumer == s.consumer && s'.pushers == s.pushers
    ensures Direct(s', c) == Direct(s, c) && Queued(s', c) == Queued(s, c)
  {
  }

  lemma CollectorAsksNothing(s: Dcl, d: nat, a: CollectorAct, s': Dcl, c: nat)
    requires CollectorStep(s, d, a, s')
    ensures s'.q.popped == s.q.popped && Direct(s', c) == Direct(s, c)
    ensures s'.consumer == s.consumer || (s.consumer.CAsleep? && s'.consumer.CStart?)
  {
  }

  lemma DeinitAsksNothing(s: Dcl, a: DeinitAct, s': Dcl, c: nat)
    requires DeinitStep(s, a, s')
    ensures s'.q.popped == s.q.popped && s'.q.pushed == s.q.pushed && s'.pushers == s.pushers
    ensures Direct(s', c) == Direct(s, c) && Queued(s', c) == Queued(s, c)
    ensures s'.consumer == s.consumer || (s.consumer.CAsleep? && s'.consumer.CStart?)
  {
  }

  lemma BalancedStep(s: Dcl, a: Action, s': Dcl, b: Books, c: nat)
    requires Balanced(s, b, c) && Step(s, a, s')
    ensures Balanced(s', Enter(b, MoveOf(s, a)), c)
  {
    match a
    case ByConsumer(x) =>
      if x.Pop? { BalancedPop(s, s', b, c); }
      else if LoopStep(s, x, s') { BalancedLoop(s, x, s', b, c); }
      else if DeviceStep(s, x, s') { BalancedDevice(s, x, s', b, c); }
      else { BalancedEmit(s, x, s', b, c); }
    case ByComms(x) =>
      CommsAsksNothing(s, x, s', c);
      BalancedElsewhere(s, s', b, c);
    case ByCollector(d, x) =>
      CollectorAsksNothing(s, d, x, s', c);
      BalancedElsewhere(s, s', b, c);
    case ByPusher(_, _) => BalancedElsewhere(s, s', b, c);
    case ByDeinit(x) =>
      DeinitAsksNothing(s, x, s', c);
      BalancedElsewhere(s, s', b, c);
  }

  // ----- whose events are in the queue

  lemma OwnEventsConsumer(s: Dcl, a: ConsumerAct, s': Dcl, c: nat)
    requires OwnEvents(s, c) && ConsumerStep(s, a, s')
    ensures OwnEvents(s', c)
  {
    ConsumerLeavesSignallers(s, a, s');
    ConsumerPushesNothing(s, a, s', c);
  }

  lemma ConsumerPushesNothing(s: Dcl, a: ConsumerAct, s': Dcl, c: nat)
    requires ConsumerStep(s, a, s')
    ensures s'.q.pushed == s.q.pushed && Queued(s', c) == Queued(s, c)
  {
  }

  lemma OwnEventsCollector(s: Dcl, d: nat, a: CollectorAct, s': Dcl, c: nat)
    requires OwnEvents(s, c) && CollectorStep(s, d, a, s')
    ensures OwnEvents(s', c)
  {
    DoneEventsNext(s.q.pushed, L1Done(d), c);
  }

  lemma OwnEventsPusher(s: Dcl, p: nat, a: PusherAct, s': Dcl, c: nat)
    requires OwnEvents(s, c) && PusherStep(s, p, a, s')
    ensures OwnEvents(s', c)
  {
    if a.PushEnqueue? {
      DoneEventsNext(s.q.pushed, s.pushers[p].ev, c);
    }
  }

  lemma OwnEventsStep(s: Dcl, a: Action, s': Dcl, c: nat)
    requires OwnEvents(s, c) && Step(s, a, s')
    ensures OwnEvents(s', c)
  {
    match a
    case ByConsumer(x) => OwnEventsConsumer(s, x, s', c);
    case ByComms(x) => CommsAsksNothing(s, x, s', c);
    case ByCollector(d, x) => OwnEventsCollector(s, d, x, s', c);
    case ByPusher(p, x) => OwnEventsPusher(s, p, x, s', c);
    case ByDeinit(x) => DeinitAsksNothing(s, x, s', c);
  }

  // ----- over runs

  lemma BalanceGoesOn(states: seq<Dcl>, acts: seq<Action>, k: nat, b: Books, c: nat)
    requires IsRun(states, acts) && k < |acts| && Balanced(states[k], b, c) && OwnEvents(states[k], c)
    ensures Balanced(states[k + 1], Enter(b, MoveOf(states[k], acts[k])), c) && OwnEvents(states[k + 1], c)
  {
    var s, a, s' := states[k], acts[k], states[k + 1];
    assert Step(s, a, s');
    BalancedStep(s, a, s', b, c);
    OwnEventsStep(s, a, s', c);
  }

  lemma {:induction false} RunsBalance(states: seq<Dcl>, acts: seq<Action>, n: nat, c: nat)
    requires IsRun(states, acts) && n < |states|
    ensures Balanced(states[n], BooksOf(states, acts, n), c) && OwnEvents(states[n], c)
  {
    if n == 0 {
      RequestsInit(states[0], c);
    } else {
      RunsBalance(states, acts, n - 1, c);
      BalanceGoesOn(states, acts, n - 1, BooksOf(states, acts, n - 1), c);
    }
  }
}
