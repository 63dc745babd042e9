/**
 comms_notification adds up what is written to it: exactly when the comms thread can
 take the READY tokens of emits for its STOP.
 */
module DclNotes {
  import opened Notify
  import opened DclState
  import opened DclSteps

  predicate WritesReady(a: Action) {
    a == ByConsumer(WriteReady(true))
  }

  /** Step j writes a READY on top of an unread one, together they are STOP, and nothing is written or read before step k. */
  ghost predicate AddedUp(states: seq<Dcl>, acts: seq<Action>, j: nat, k: nat)
    requires k <= |acts| <= |states|
  {
    && j < k && WritesReady(acts[j]) && states[j].consumer.CWrite?
    && states[j].h.note > 0 && states[j].h.note + ReadyToken(SiteTag(states[j].consumer.site)) == NOTIFY_SOCKET_THREAD_STOP
    && forall i | j < i < k :: !WritesReady(acts[i]) && acts[i] != ByComms(ReadNote)
  }

  /** What a step that is not deinit's does to the counter. */
  lemma NoteStep(s: Dcl, a: Action, s': Dcl)
    requires Step(s, a, s') && !a.ByDeinit?
    ensures WritesReady(a) ==> s.consumer.CWrite? && s'.h.note == s.h.note + ReadyToken(SiteTag(s.consumer.site))
    ensures a == ByComms(ReadNote) ==> s'.h.note == 0
    ensures !WritesReady(a) && a != ByComms(ReadNote) ==> s'.h.note == s.h.note
  {
    match a
    case ByConsumer(x) => ConsumerNote(s, x, s');
    case ByComms(x) => CommsNote(s, x, s');
    case ByCollector(c, x) => CollectorNote(s, c, x, s');
    case ByPusher(_, _) =>
  }

  lemma ConsumerNote(s: Dcl, a: ConsumerAct, s': Dcl)
    requires ConsumerStep(s, a, s')
    ensures if a == WriteReady(true) then s.consumer.CWrite? && s'.h.note == s.h.note + ReadyToken(SiteTag(s.consumer.site))
            else s'.h.note == s.h.note
  {
  }

  lemma CommsNote(s: Dcl, a: CommsAct, s': Dcl)
    requires CommsStep(s, a, s')
    ensures s'.h.note == if a.ReadNote? then 0 else s.h.note
  {
  }

  lemma CollectorNote(s: Dcl, c: nat, a: CollectorAct, s': Dcl)
    requires CollectorStep(s, c, a, s')
    ensures s'.h.note == s.h.note
  {
  }

  predicate NoteFact(states: seq<Dcl>, acts: seq<Action>, k: nat)
    requires k < |acts| < |states|
  {
    var s, a, s' := states[k], acts[k], states[k + 1];
    && (WritesReady(a) ==> s.consumer.CWrite? && s'.h.note == s.h.note + ReadyToken(SiteTag(s.consumer.site)))
    && (a == ByComms(ReadNote) ==> s'.h.note == 0)
    && (!WritesReady(a) && a != ByComms(ReadNote) ==> s'.h.note == s.h.note)
  }

  lemma NoteAt(states: seq<Dcl>, acts: seq<Action>, k: nat)
    requires IsRun(states, acts) && k < |acts| && !acts[k].ByDeinit?
    ensures NoteFact(states, acts, k)
  {
    assert Step(states[k], acts[k], states[k + 1]);
    NoteStep(states[k], acts[k], states[k + 1]);
  }

  lemma {:induction false} StopAddedUp(states: seq<Dcl>, acts: seq<Action>, k: nat) returns (j: nat)
    requires k < |states| == |acts| + 1 && states[0].h.note == 0 && states[k].h.note == NOTIFY_SOCKET_THREAD_STOP
    requires forall i | 0 <= i < k :: NoteFact(states, acts, i)
    ensures AddedUp(states, acts, j, k)
  {
    assert NoteFact(states, acts, k - 1);
    if WritesReady(acts[k - 1]) {
      j := k - 1;
    } else {
      j := StopAddedUp(states, acts, k - 1);
    }
  }

  lemma {:induction false} AddedUpStops(states: seq<Dcl>, acts: seq<Action>, j: nat, k: nat)
    requires k < |states| == |acts| + 1 && AddedUp(states, acts, j, k)
    requires forall i | 0 <= i < k :: NoteFact(states, acts, i)
    ensures states[k].h.note == NOTIFY_SOCKET_THREAD_STOP
  {
    assert NoteFact(states, acts, k - 1);
    if j < k - 1 {
      AddedUpStops(states, acts, j, k - 1);
    }
  }

  /** Before deinit the counter reads STOP if and only if two or more READY tokens have added up to it. */
  lemma RunsReadStopIff(states: seq<Dcl>, acts: seq<Action>, k: nat)
    requires IsRun(states, acts) && k < |states|
    requires forall i | 0 <= i < k :: !acts[i].ByDeinit?
    ensures states[k].h.note == NOTIFY_SOCKET_THREAD_STOP <==> exists j :: AddedUp(states, acts, j, k)
  {
    forall i | 0 <= i < k
      ensures NoteFact(states, acts, i)
    {
      NoteAt(states, acts, i);
    }
    if states[k].h.note == NOTIFY_SOCKET_THREAD_STOP {
      var j := StopAddedUp(states, acts, k);
    }
    if j: nat :| AddedUp(states, acts, j, k) {
      AddedUpStops(states, acts, j, k);
    }
  }
}
