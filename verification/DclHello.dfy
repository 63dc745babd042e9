/**
 Which HELLO reopens the gate: exactly when the one that does was answered before
 the failure, no VERSION lies between the failure and the next READY.
 */
module DclHello {
  import opened DclState
  import opened DclSteps
  import opened DclGating

  /** k is the first time comms_ready is set again after i. */
  ghost predicate FirstReady(log: seq<Mark>, i: nat, k: nat) {
    i < k < |log| && log[k].Ready? && forall j | i < j < k :: !log[j].Ready?
  }

  /** A failure is reopened by a HELLO answered after it exactly if none was waiting for the lock when it happened. */
  ghost predicate ReopenedExactly(log: seq<Mark>) {
    forall i: nat, k: nat | FirstReady(log, i, k) && log[i].Failed? ::
      VersionBetween(log, i, k) <==> !log[i].helloPending
  }

  /** A handoff failed beside this HELLO, and it has not been acted upon. */
  ghost predicate Unreopened(log: seq<Mark>, i: nat) {
    i < |log| && log[i] == Failed(true) && !ReadyAfter(log, i)
  }

  ghost predicate HelloInv(s: Dcl) {
    && ReopenedExactly(s.log)
    && (forall i: nat | Unreopened(s.log, i) ::
          (s.comms.HelloLock? || s.comms.HelloHold?) && !VersionBetween(s.log, i, |s.log|))
  }

  lemma SameVersions(log: seq<Mark>, m: Mark, i: nat, k: nat)
    requires k <= |log|
    ensures VersionBetween(log + [m], i, k) <==> VersionBetween(log, i, k)
  {
    if v :| i < v < k && (log + [m])[v].Version? {
      assert log[v].Version?;
    }
    if v :| i < v < k && log[v].Version? {
      assert (log + [m])[v].Version?;
    }
  }

  lemma SameFirstReady(log: seq<Mark>, m: Mark, i: nat, k: nat)
    requires FirstReady(log + [m], i, k) && k < |log|
    ensures FirstReady(log, i, k)
  {
    forall j | i < j < k
      ensures !log[j].Ready?
    {
      assert (log + [m])[j] == log[j];
    }
  }

  lemma MarkKeepsExact(log: seq<Mark>, m: Mark)
    requires ReopenedExactly(log)
    requires m.Ready? ==> forall i: nat | i < |log| && log[i].Failed? && !ReadyAfter(log, i) ::
               VersionBetween(log, i, |log|) <==> !log[i].helloPending
    ensures ReopenedExactly(log + [m])
  {
    var log' := log + [m];
    forall i: nat, k: nat | FirstReady(log', i, k) && log'[i].Failed?
      ensures VersionBetween(log', i, k) <==> !log'[i].helloPending
    {
      SameVersions(log, m, i, k);
      if k < |log| {
        SameFirstReady(log, m, i, k);
      } else {
        assert !ReadyAfter(log, i) by {
          forall j | i < j < |log|
            ensures !log[j].Ready?
          {
            assert log'[j] == log[j];
          }
        }
      }
    }
  }

  lemma UnreopenedBefore(log: seq<Mark>, m: Mark, i: nat)
    requires Unreopened(log + [m], i) && i < |log|
    ensures Unreopened(log, i) && !m.Ready?
    ensures !m.Version? && !VersionBetween(log, i, |log|) ==> !VersionBetween(log + [m], i, |log| + 1)
  {
    assert (log + [m])[|log|] == m;
    forall k | i < k < |log|
      ensures !log[k].Ready?
    {
      assert (log + [m])[k] == log[k];
    }
    if !m.Version? {
      if v :| i < v < |log| + 1 && (log + [m])[v].Version? {
        assert log[v].Version?;
      }
    }
  }

  lemma HelloEmit(s: Dcl, a: ConsumerAct, s': Dcl)
    requires HelloInv(s) && EmitStep(s, a, s')
    ensures HelloInv(s')
  {
    if s'.log != s.log {
      var m := s'.log[|s.log|];
      assert s'.log == s.log + [m] && !m.Ready? && !m.Version?;
      assert m == Failed(true) ==> s.comms.HelloLock? || s.comms.HelloHold?;
      MarkKeepsExact(s.log, m);
      forall i: nat | Unreopened(s'.log, i)
        ensures (s.comms.HelloLock? || s.comms.HelloHold?) && !VersionBetween(s'.log, i, |s'.log|)
      {
        if i < |s.log| {
          UnreopenedBefore(s.log, m, i);
        }
      }
    }
  }

  lemma HelloSocket(s: Dcl, a: CommsAct, s': Dcl)
    requires GateInv(s) && HelloInv(s) && SocketStep(s, a, s')
    ensures HelloInv(s')
  {
    match a
    case Hello(true) =>
      MarkKeepsExact(s.log, Version);
      NothingUnreopened(s, Version);
    case SetReady =>
      forall i: nat | i < |s.log| && s.log[i].Failed? && !ReadyAfter(s.log, i)
        ensures VersionBetween(s.log, i, |s.log|) <==> !s.log[i].helloPending
      {
        assert s.log[i].helloPending ==> Unreopened(s.log, i);
      }
      MarkKeepsExact(s.log, Ready);
      assert s'.log[|s.log|].Ready?;
      assert forall i: nat | i < |s.log| :: ReadyAfter(s'.log, i);
    case _ =>
  }

  /** A HELLO is received only when the one before has been acted upon. */
  lemma NothingUnreopened(s: Dcl, m: Mark)
    requires HelloInv(s) && !s.comms.HelloLock? && !s.comms.HelloHold? && !m.Failed?
    ensures forall i: nat :: !Unreopened(s.log + [m], i)
  {
    forall i: nat
      ensures !Unreopened(s.log + [m], i)
    {
      if Unreopened(s.log + [m], i) {
        UnreopenedBefore(s.log, m, i);
      }
    }
  }

  lemma HelloStep(s: Dcl, a: Action, s': Dcl)
    requires GateInv(s) && HelloInv(s) && Step(s, a, s')
    ensures HelloInv(s')
  {
    match a
    case ByConsumer(x) => if EmitStep(s, x, s') { HelloEmit(s, x, s'); }
    case ByComms(x) => if SocketStep(s, x, s') { HelloSocket(s, x, s'); }
    case _ => OtherThreadsFrame(s, a, s');
  }
}
