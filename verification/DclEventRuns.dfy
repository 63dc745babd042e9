/**
 Over all runs: which event an attempted TLV is about, how an emit ends, when comms_ready is set, what
 deinit leaves behind, and what reading STOP does to a collector.
 */
module DclEventRuns {
  import opened Wrappers
  import opened Notify
  import opened DclState
  import opened DclSteps
  import opened DclLocks
  import opened DclTable
  import opened DclDone
  import opened DclDispatch
  import opened DclDeinit
  import opened DclLate
  import opened DclRuns
  import opened DclSendRuns

  ghost predicate EventInv(s: Dcl) {
    DispatchInv(s) && RadioInv(s) && NoRadioAtGate(s) && ReadyInv(s) && DeinitInv(s)
  }

  lemma EventGoesOn(states: seq<Dcl>, acts: seq<Action>, k: nat)
    requires IsRun(states, acts) && k < |acts| && EventInv(states[k])
    ensures EventInv(states[k + 1])
  {
    var s, a, s' := states[k], acts[k], states[k + 1];
    RunsAreSound(states, acts, k);
    InOrderUpTo(states, acts, k);
    assert Step(s, a, s');
    DispatchStep(s, a, s');
    RadioStep(s, a, s');
    ReadyStep(s, a, s');
    DeinitInvStep(s, a, s');
  }

  lemma {:induction false} EventsUpTo(states: seq<Dcl>, acts: seq<Action>, n: nat)
    requires IsRun(states, acts) && n < |states|
    ensures EventInv(states[n])
  {
    if n == 0 {
      DispatchInit(states[0]);
      FlagsInit(states[0]);
      DeinitInit(states[0]);
    } else {
      EventsUpTo(states, acts, n - 1);
      EventGoesOn(states, acts, n - 1);
    }
  }

  predicate Attempts(a: Action) {
    a.ByConsumer? && (a.ca.Alloc? || a.ca.AllocFail?)
  }

  /** Every TLV attempted is about the event taken last, and has the tag that belongs to it. */
  lemma RunsAttemptWhatWasTaken(states: seq<Dcl>, acts: seq<Action>, k: nat)
    requires IsRun(states, acts) && k < |acts| && Attempts(acts[k])
    ensures states[k].consumer.CEmit? && states[k].q.popped != []
    ensures var s := states[k];
            var ev, site := s.q.popped[|s.q.popped| - 1], s.consumer.site;
            && (ev.Frame? <==> site == Single(DataBatch))
            && (ev.Csi? <==> site == Single(CsiAndCfo))
            && (ev.L1Done? <==> site == Single(L1CollectionDone))
            && (ev.Temperature? <==> site == Single(TemperatureData))
            && (ev.Diff? <==> !site.Single?)
            && (ev.Diff? ==> site.d in ev.devices && (site.DoneOf? ==> site.d.leaving))
            && (site.RadioOf? ==> s.h.emits != [] && s.h.emits[|s.h.emits| - 1].tag == StationUpdate)
            && !ev.Config?
  {
    EventsUpTo(states, acts, k);
    AttemptAt(states, acts, k);
    var ev, site := states[k].q.popped[|states[k].q.popped| - 1], states[k].consumer.site;
    if !site.Single? {
      InSuffix([site.d] + site.rest, ev.devices);
    }
  }

  /** What is built for an attempt and left for the comms thread: the site's tag, the payload, its length and the size with the header. */
  lemma RunsBuildTlv(states: seq<Dcl>, acts: seq<Action>, k: nat)
    requires IsRun(states, acts) && k < |acts| && acts[k].ByConsumer? && acts[k].ca.Alloc?
    ensures states[k].consumer.CEmit? && states[k + 1].consumer.CWrite? && states[k + 1].h.tlv == Some(states[k + 1].consumer.out)
    ensures var site, data, out := states[k].consumer.site, acts[k].ca.payload, states[k + 1].consumer.out;
            && (site.Single? ==> out.tag == site.tag)
            && (site.DoneOf? ==> out.tag == L1CollectionDone)
            && (site.StationOf? ==> out.tag == StationUpdate)
            && (site.RadioOf? ==> out.tag == RadioUpdate)
            && out.data == data && out.len == |data| % 0x1_0000 && out.size == |data| + 4
  {
    assert Step(states[k], acts[k], states[k + 1]);
  }

  /**
   How an emit ends. A success goes from DONE to the station update of the same device, from that to its radio
   update, and from that to the next device; a failure, or a gate with comms_ready false, goes to the next
   device at once, and a handoff that failed clears comms_ready. Either way tlv_ctx is empty again.
   */
  lemma RunsEndEmit(states: seq<Dcl>, acts: seq<Action>, k: nat)
    requires IsRun(states, acts) && k < |acts| && acts[k].ByConsumer?
    requires acts[k].ca.AllocFail? || acts[k].ca.WaitTimeout? || acts[k].ca.WaitRead? || acts[k].ca == WriteReady(false)
             || (acts[k].ca.Gate? && !states[k].h.ready)
    ensures var pc := states[k].consumer; pc.CGate? || pc.CEmit? || pc.CWrite? || pc.CWait?
    ensures var s, s', site := states[k], states[k + 1], states[k].consumer.site;
            if |s'.h.emits| > |s.h.emits| then
              && s.consumer.CWait? && s.h.tlv == Some(s.consumer.out) && s'.h.emits == s.h.emits + [s.consumer.out]
              && s'.h.ready == s.h.ready && s'.h.tlv == None
              && s'.consumer == match site
                                case Single(_) => CDrain
                                case DoneOf(d, rest) => CGate(StationOf(d, rest))
                                case StationOf(d, rest) => CEmit(RadioOf(d, rest))
                                case RadioOf(_, rest) => CDevices(rest)
            else
              && s'.h.emits == s.h.emits
              && s'.consumer == (if site.Single? then CDrain else CDevices(site.rest))
              && (acts[k].ca.Gate? || s'.h.tlv == None)
              && s'.h.ready == (s.h.ready && acts[k].ca.AllocFail?)
  {
    InOrderUpTo(states, acts, k);
    assert Step(states[k], acts[k], states[k + 1]);
  }

  /** In every run, no device of a diff is skipped: the consumer goes on with the one in hand or leaves exactly that one behind. */
  lemma RunsSkipNoDevice(states: seq<Dcl>, acts: seq<Action>, k: nat)
    requires IsRun(states, acts) && k < |acts| && Processing(states[k].consumer)
    ensures var todo, todo' := Todo(states[k].consumer), Todo(states[k + 1].consumer);
            todo' == todo || (todo != [] && todo' == todo[1..] && states[k + 1].consumer.CDevices?)
    ensures states[k + 1].consumer.CDrain? ==> Todo(states[k].consumer) == []
  {
    SkipAt(states, acts, k);
  }

  lemma SkipAt(states: seq<Dcl>, acts: seq<Action>, k: nat)
    requires IsRun(states, acts) && k < |acts| && Processing(states[k].consumer)
    ensures Todo(states[k + 1].consumer) == Todo(states[k].consumer)
            || (Todo(states[k].consumer) != [] && states[k + 1].consumer == CDevices(Todo(states[k].consumer)[1..]))
  {
    var s, a, s' := states[k], acts[k], states[k + 1];
    assert Step(s, a, s');
    if a.ByConsumer? {
      NoDeviceSkipped(s, a.ca, s');
    } else {
      OthersLeaveEmit(s, a, s');
    }
  }

  lemma AttemptAt(states: seq<Dcl>, acts: seq<Action>, k: nat)
    requires IsRun(states, acts) && k < |acts| && Attempts(acts[k])
    ensures states[k].consumer.CEmit?
  {
    assert Step(states[k], acts[k], states[k + 1]);
  }

  lemma InSuffix(todo: seq<Device>, all: seq<Device>)
    requires Suffix(todo, all) && todo != []
    ensures todo[0] in all
  {
    assert todo[0] == all[|all| - |todo|];
  }

  /** comms_ready is set exactly if it was set once and no handoff has failed since. */
  lemma RunsKnowWhenReady(states: seq<Dcl>, acts: seq<Action>, n: nat)
    requires IsRun(states, acts) && n < |states|
    ensures var log := states[n].log;
            states[n].h.ready <==> exists k :: 0 <= k < |log| && log[k].Ready? && forall j | k < j < |log| :: !log[j].Failed?
  {
    EventsUpTo(states, acts, n);
  }

  /** Past its scan deinit has disabled new collections and told every old one to stop; past its signal it has set exit_consumer; neither is ever set by anyone else. */
  lemma RunsDeinitTellsAll(states: seq<Dcl>, acts: seq<Action>, n: nat)
    requires IsRun(states, acts) && n < |states|
    ensures var s := states[n];
            && (s.l1.disabled <==> !s.deinit.DIdle? && !s.deinit.DWantL1? && !s.deinit.DScan? && !s.deinit.DStopWait?)
            && (s.q.exit <==> s.deinit.DSignal? || s.deinit.DCommsStop? || s.deinit.DCommsWait? || s.deinit.DDone?)
            && (s.l1.disabled ==> forall k | 0 <= k < |s.l1.slots| && s.l1.slots[k].Some? ::
                  s.l1.slots[k].value in s.l1.coll && s.l1.coll[s.l1.slots[k].value].byDeinit)
  {
    EventsUpTo(states, acts, n);
    RunsAreSound(states, acts, n);
    var s := states[n];
    if s.l1.disabled {
      forall k | 0 <= k < |s.l1.slots| && s.l1.slots[k].Some?
        ensures s.l1.slots[k].value in s.l1.coll && s.l1.coll[s.l1.slots[k].value].byDeinit
      {
        assert Registered(s.l1, s.l1.slots[k].value);
        assert Told(s.l1, k);
      }
    }
  }

  // ----- reading STOP

  predicate PastWait(pc: CollectorPc) {
    !pc.Created? && !pc.Setup? && !pc.Waiting?
  }

  /** Past its wait, a collector stays past it, and keeps the branch it took. */
  predicate KeepsBranch(s: Dcl, s': Dcl, c: nat) {
    c in s.l1.coll && PastWait(s.l1.coll[c].pc) ==>
      c in s'.l1.coll && PastWait(s'.l1.coll[c].pc) && s'.l1.coll[c].stopRead == s.l1.coll[c].stopRead
  }

  lemma ConsumerKeepsBranch(s: Dcl, a: ConsumerAct, s': Dcl, c: nat)
    requires ConsumerStep(s, a, s')
    ensures KeepsBranch(s, s', c)
  {
    if DeviceStep(s, a, s') {
      DeviceKeepsBranch(s, a, s', c);
    }
  }

  lemma DeviceKeepsBranch(s: Dcl, a: ConsumerAct, s': Dcl, c: nat)
    requires DeviceStep(s, a, s')
    ensures KeepsBranch(s, s', c)
  {
  }

  lemma CommsKeepsBranch(s: Dcl, a: CommsAct, s': Dcl, c: nat)
    requires Own(s) && CommsStep(s, a, s')
    ensures KeepsBranch(s, s', c)
  {
  }

  lemma CollectorKeepsBranch(s: Dcl, d: nat, a: CollectorAct, s': Dcl, c: nat)
    requires CollectorStep(s, d, a, s')
    ensures KeepsBranch(s, s', c)
  {
  }

  lemma DeinitKeepsBranch(s: Dcl, a: DeinitAct, s': Dcl, c: nat)
    requires DeinitStep(s, a, s')
    ensures KeepsBranch(s, s', c)
  {
  }

  lemma BranchAt(states: seq<Dcl>, acts: seq<Action>, k: nat, c: nat)
    requires IsRun(states, acts) && k < |acts|
    ensures KeepsBranch(states[k], states[k + 1], c)
  {
    var s, a, s' := states[k], acts[k], states[k + 1];
    RunsAreSound(states, acts, k);
    assert Step(s, a, s');
    match a
    case ByConsumer(x) => ConsumerKeepsBranch(s, x, s', c);
    case ByComms(x) => CommsKeepsBranch(s, x, s', c);
    case ByCollector(d, x) => CollectorKeepsBranch(s, d, x, s', c);
    case ByPusher(_, _) =>
    case ByDeinit(x) => DeinitKeepsBranch(s, x, s', c);
  }

  lemma {:induction false} BranchStays(states: seq<Dcl>, k: nat, n: nat, c: nat)
    requires k <= n < |states| && c in states[k].l1.coll && PastWait(states[k].l1.coll[c].pc)
    requires forall i | 0 <= i < |states| - 1 :: KeepsBranch(states[i], states[i + 1], c)
    ensures c in states[n].l1.coll && PastWait(states[n].l1.coll[c].pc)
    ensures states[n].l1.coll[c].stopRead == states[k].l1.coll[c].stopRead
  {
    if k < n {
      BranchStays(states, k, n - 1, c);
      assert KeepsBranch(states[n - 1], states[n - 1 + 1], c);
    }
  }

  lemma ReadStopAt(states: seq<Dcl>, acts: seq<Action>, k: nat, c: nat)
    requires IsRun(states, acts) && k < |acts| && acts[k] == ByCollector(c, ReadStop)
    ensures c in states[k].l1.coll && c in states[k + 1].l1.coll && PastWait(states[k + 1].l1.coll[c].pc)
    ensures DoneInv(states[k]) ==> states[k + 1].l1.coll[c].stopRead == (states[k].l1.coll[c].note == 16)
  {
    assert Step(states[k], acts[k], states[k + 1]);
    if DoneInv(states[k]) {
      assert OwnPath(states[k].l1.coll[c]);
    }
  }

  /** A collector that reads exactly STOP never pushes a DONE of its own; one that reads anything else has pushed one by the time it is gone. */
  lemma RunsStopReadMeansNoPush(states: seq<Dcl>, acts: seq<Action>, k: nat, n: nat, c: nat)
    requires IsRun(states, acts) && k < n < |states| && acts[k] == ByCollector(c, ReadStop)
    ensures c in states[k].l1.coll && c in states[n].l1.coll
    ensures if states[k].l1.coll[c].note == 16 then states[n].l1.coll[c].queued == 0
            else states[n].l1.coll[c].pc.Freed? ==> states[n].l1.coll[c].queued == 1
  {
    RunsAreSound(states, acts, k);
    RunsAreSound(states, acts, n);
    ReadStopAt(states, acts, k, c);
    forall i | 0 <= i < |states| - 1
      ensures KeepsBranch(states[i], states[i + 1], c)
    {
      BranchAt(states, acts, i, c);
    }
    BranchStays(states, k + 1, n, c);
    assert OwnPath(states[n].l1.coll[c]);
  }
}
