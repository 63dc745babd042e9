/**
 The WiFi data-collection consumer as a state machine: the state, and the program
 counter of every thread. Eventfds are counters that add on write and clear on
 read. Histories (queue contents ever pushed, TLVs ever sent, ...) only record.
 */
module DclState {
  import opened Wrappers
  import opened Notify
  import opened TlvFraming
  import opened MacAddress

  datatype Tid =
    | ConsumerT
    | CommsT
    | DeinitT
    | CollectorT(id: nat)
    | PusherT(id: nat)

  /** One entry of a diff document, disconnects before connects. */
  datatype Device = Device(mac: Mac, leaving: bool)

  /** What is queued for the consumer thread. */
  datatype Event =
    | Config                          // webconfig documents that emit nothing
    | Diff(devices: seq<Device>)      // associated-clients diff
    | Frame                           // management frame
    | Csi                             // CSI sample
    | L1Done(collector: nat)          // pushed by an L1 collector
    | Temperature                     // radio temperature reading

  /** The places in the consumer that emit a TLV, with what is left to do after it. */
  datatype Site =
    | Single(tag: Tag)
    | DoneOf(d: Device, rest: seq<Device>)
    | StationOf(d: Device, rest: seq<Device>)
    | RadioOf(d: Device, rest: seq<Device>)

  function SiteTag(site: Site): Tag {
    match site
    case Single(tag) => tag
    case DoneOf(_, _) => L1CollectionDone
    case StationOf(_, _) => StationUpdate
    case RadioOf(_, _) => RadioUpdate
  }

  datatype ConsumerPc =
    | CStart                          // at the lock: thread start, or waking inside pthread_cond_wait
    | CAsleep                         // in pthread_cond_wait, lock released
    | CHead                           // lock held, at while (!queue_wakeup)
    | CDrain                          // at while (queue_count)
    | CDevices(rest: seq<Device>)     // next device of a diff
    | CWantL1(d: Device, rest: seq<Device>)
    | CScan(d: Device, rest: seq<Device>, k: nat, found: Option<nat>)
    | CStopWait(d: Device, rest: seq<Device>, k: nat, target: nat)
    | CGate(site: Site)               // at if (!comms_ready)
    | CEmit(site: Site)               // at the emit call
    | CWrite(site: Site, out: TlvContext)
    | CWait(site: Site, out: TlvContext)
    | CExited

  datatype CommsPc =
    | Handshake                       // blocking receive before the loop
    | Idle                            // in epoll_wait
    | NullCheck(sent: nat)            // READY read; about to look at tlv_ctx
    | SizeCheck(sent: nat)
    | SendTo(sent: nat)
    | AckWrite(sent: nat)
    | HelloLock                       // VERSION sent; at the consumer lock
    | HelloHold
    | StartLock(mac: Mac)             // L1_COLLECTION_START received
    | StartHold(mac: Mac)
    | Spawn(c: nat)                   // collector registered, thread not yet created
    | StopAck
    | Exited

  datatype CollectorPc =
    | Created
    | Setup                           // epoll, timer and RBUS subscriptions
    | Waiting                         // the one epoll_wait
    | ReturnAck                       // STOP read; about to write RETURN
    | PushWant
    | PushHold
    | PushQueued
    | PushSignal
    | Leaving                         // unsubscribed; at l1_lock
    | L1Hold
    | Cleared                         // out of the table, not yet freed
    | Freed

  /** note is the stop eventfd; queued, direct, stopRead and byDeinit are the accounting. */
  datatype Collector = Collector(
    mac: Mac,
    slot: nat,                        // where the comms thread registered it
    pc: CollectorPc,
    note: nat,
    queued: nat,                      // DONE events this collector pushed
    direct: nat,                      // DONE requests made by disconnect processing
    stopRead: bool,                   // left its wait by the branch for STOP
    byDeinit: bool)                   // told to stop by deinit

  datatype PusherPc =
    | PWant(ev: Event)
    | PHold(ev: Event)
    | PQueued
    | PSignal

  datatype DeinitPc =
    | DIdle
    | DWantL1
    | DScan(k: nat)
    | DStopWait(k: nat)
    | DFifoWait
    | DWantLock
    | DHold
    | DSignal
    | DCommsStop
    | DCommsWait
    | DDone

  /** The eventfds the consumer thread (and deinit) can be woken by through queue_epoll. */
  datatype Fd = CommsAck | CollectorAck(c: nat)

  /** What the gating property is about. */
  datatype Mark =
    | Version                         // a HELLO was answered with VERSION
    | Ready                           // comms_ready set to true
    | Attempt                         // an event TLV emit was called
    | Failed(helloPending: bool)      // a handoff failed; was a HELLO waiting for the lock?

  /** The consumer mutex and l1_lock: the owner, if any. */
  datatype Mutexes = Mutexes(consumer: Option<Tid>, l1: Option<Tid>)

  /** The event queue with its two flags, and what ever went in and came out. */
  datatype Queue = Queue(events: seq<Event>, wakeup: bool, exit: bool, pushed: seq<Event>, popped: seq<Event>)

  /** The single-slot TLV handoff between consumer and comms thread. */
  datatype Handoff = Handoff(
    ready: bool,                      // comms_ready
    tlv: Option<TlvContext>,          // tlv_ctx
    note: nat,                        // comms_notification
    acks: map<Fd, nat>,               // queue_epoll: the registered eventfds and their counters
    emits: seq<TlvContext>,           // emits that returned success
    sends: seq<TlvContext>)           // datagrams put on the socket

  /** l1_collections with its collectors. A freed collector keeps its entry, marked Freed. */
  datatype Collections = Collections(slots: seq<Option<nat>>, disabled: bool, coll: map<nat, Collector>)

  datatype Dcl = Dcl(
    mx: Mutexes,
    q: Queue,
    h: Handoff,
    l1: Collections,
    consumer: ConsumerPc,
    comms: CommsPc,
    deinit: DeinitPc,
    pushers: map<nat, PusherPc>,
    log: seq<Mark>)

  predicate Init(s: Dcl) {
    && s.mx == Mutexes(None, None)
    && s.q == Queue([], false, false, [], [])
    && s.h == Handoff(false, None, 0, map[CommsAck := 0], [], [])
    && (forall i | 0 <= i < |s.l1.slots| :: s.l1.slots[i] == None)
    && !s.l1.disabled && s.l1.coll == map[]
    && s.consumer == CStart && s.comms == Handshake && s.deinit == DIdle
    && s.pushers == map[] && s.log == []
  }

  // ----- which mutex a program counter is inside of, or waits for

  predicate ConsumerInside(pc: ConsumerPc) { !pc.CStart? && !pc.CAsleep? && !pc.CExited? }

  predicate ConsumerInsideL1(pc: ConsumerPc) { pc.CScan? || pc.CStopWait? }

  predicate CollectorInside(pc: CollectorPc) { pc.PushHold? || pc.PushQueued? }

  predicate PusherInside(pc: PusherPc) { pc.PHold? || pc.PQueued? }

  predicate DeinitInsideL1(pc: DeinitPc) { pc.DScan? || pc.DStopWait? }

  predicate WantsLock(s: Dcl, t: Tid) {
    match t
    case ConsumerT => s.consumer.CStart?
    case CommsT => s.comms.HelloLock?
    case DeinitT => s.deinit.DWantLock?
    case CollectorT(c) => c in s.l1.coll && s.l1.coll[c].pc.PushWant?
    case PusherT(p) => p in s.pushers && s.pushers[p].PWant?
  }

  predicate WantsL1(s: Dcl, t: Tid) {
    match t
    case ConsumerT => s.consumer.CWantL1?
    case CommsT => s.comms.StartLock?
    case DeinitT => s.deinit.DWantL1?
    case CollectorT(c) => c in s.l1.coll && s.l1.coll[c].pc.Leaving?
    case PusherT(_) => false
  }

  /** A push that has enqueued its event but not yet set queue_wakeup. */
  predicate BetweenPushAndFlag(s: Dcl, t: Tid) {
    match t
    case CollectorT(c) => c in s.l1.coll && s.l1.coll[c].pc.PushQueued?
    case PusherT(p) => p in s.pushers && s.pushers[p].PQueued?
    case _ => false
  }

  /** A thread that is about to call pthread_cond_signal. */
  predicate AboutToSignal(s: Dcl, t: Tid) {
    match t
    case DeinitT => s.deinit.DSignal?
    case CollectorT(c) => c in s.l1.coll && s.l1.coll[c].pc.PushSignal?
    case PusherT(p) => p in s.pushers && s.pushers[p].PSignal?
    case _ => false
  }
}
