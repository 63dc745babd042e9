/**
 comms_ready: no event TLV is attempted while it is false, and after a failed
 handoff it stays false until the comms thread sets it again for a HELLO.
 */
module DclGating {
  import opened DclState
  import opened DclSteps

  /** What collectors, pushers and deinit cannot do. */
  lemma OtherThreadsFrame(s: Dcl, a: Action, s': Dcl)
    requires Step(s, a, s') && !a.ByConsumer? && !a.ByComms?
    ensures s'.comms == s.comms && s'.log == s.log && s'.h == s.h.(acks := s'.h.acks, note := s'.h.note)
    ensures s'.consumer == s.consumer || (s.consumer.CAsleep? && s'.consumer.CStart?)
  {
  }

  // ----- the log

  ghost predicate ReadyAfter(log: seq<Mark>, i: nat) {
    exists k :: i < k < |log| && log[k].Ready?
  }

  ghost predicate VersionBetween(log: seq<Mark>, i: nat, m: int) {
    exists k :: i < k < m && k < |log| && log[k].Version?
  }

  /** A HELLO answered and then acted upon, both after position i. */
  ghost predicate HelloAfter(log: seq<Mark>, i: nat) {
    exists m :: i < m < |log| && log[m].Ready? && VersionBetween(log, i, m)
  }

  /** Every failed handoff has been followed by what reopens the gate. */
  ghost predicate Reopened(log: seq<Mark>) {
    forall i: nat | i < |log| && log[i].Failed? ::
      ReadyAfter(log, i) && (!log[i].helloPending ==> HelloAfter(log, i))
  }

  /** Every handoff that failed with no HELLO in hand has been followed by a VERSION. */
  ghost predicate Answered(log: seq<Mark>) {
    forall i: nat | i < |log| && log[i] == Failed(false) :: VersionBetween(log, i, |log|)
  }

  /** At every attempt, all the failures before it had been reopened. */
  ghost predicate Gated(log: seq<Mark>) {
    forall j: nat | j < |log| && log[j].Attempt? :: Reopened(log[..j])
  }

  ghost predicate GateInv(s: Dcl) {
    && ((s.consumer.CEmit? || s.consumer.CWrite? || s.consumer.CWait?) ==> s.h.ready)
    && (s.h.ready ==> Reopened(s.log))
    && ((s.comms.HelloLock? || s.comms.HelloHold?) ==> Answered(s.log))
    && Gated(s.log)
  }

  lemma MarkKeepsVersions(log: seq<Mark>, m: Mark, i: nat, j: int)
    requires VersionBetween(log, i, j)
    ensures VersionBetween(log + [m], i, j) && VersionBetween(log + [m], i, |log|)
  {
    var k :| i < k < j && k < |log| && log[k].Version?;
    assert (log + [m])[k].Version?;
  }

  lemma MarkKeepsReopened(log: seq<Mark>, m: Mark)
    requires Reopened(log) && !m.Failed?
    ensures Reopened(log + [m])
  {
    var log' := log + [m];
    forall i: nat | i < |log'| && log'[i].Failed?
      ensures ReadyAfter(log', i) && (!log'[i].helloPending ==> HelloAfter(log', i))
    {
      assert log'[i] == log[i];
      var k :| i < k < |log| && log[k].Ready?;
      assert log'[k].Ready?;
      if !log[i].helloPending {
        var n :| i < n < |log| && log[n].Ready? && VersionBetween(log, i, n);
        MarkKeepsVersions(log, m, i, n);
        assert log'[n].Ready?;
      }
    }
  }

  lemma MarkKeepsAnswered(log: seq<Mark>, m: Mark)
    requires Answered(log) && m != Failed(false)
    ensures Answered(log + [m])
  {
    var log' := log + [m];
    forall i: nat | i < |log'| && log'[i] == Failed(false)
      ensures VersionBetween(log', i, |log'|)
    {
      assert log'[i] == log[i];
      var k :| i < k < |log| && log[k].Version?;
      assert log'[k].Version?;
    }
  }

  lemma VersionAnswers(log: seq<Mark>)
    ensures Answered(log + [Version])
  {
    assert (log + [Version])[|log|].Version?;
  }

  lemma ReadyReopens(log: seq<Mark>)
    requires Answered(log)
    ensures Reopened(log + [Ready])
  {
    var log' := log + [Ready];
    forall i: nat | i < |log'| && log'[i].Failed?
      ensures ReadyAfter(log', i) && (!log'[i].helloPending ==> HelloAfter(log', i))
    {
      assert log'[|log|].Ready? && log'[i] == log[i];
      if !log[i].helloPending {
        MarkKeepsVersions(log, Ready, i, |log|);
      }
    }
  }

  lemma MarkKeepsGated(log: seq<Mark>, m: Mark)
    requires Gated(log) && (m.Attempt? ==> Reopened(log))
    ensures Gated(log + [m])
  {
    var log' := log + [m];
    forall j: nat | j < |log'| && log'[j].Attempt?
      ensures Reopened(log'[..j])
    {
      assert log'[..j] == log[..j];
      if j == |log| {
        assert log[..j] == log;
      } else {
        assert log'[j] == log[j];
      }
    }
  }

  // ----- preservation

  lemma GateConsumer(s: Dcl, a: ConsumerAct, s': Dcl)
    requires GateInv(s) && EmitStep(s, a, s')
    ensures GateInv(s')
  {
    if s'.log != s.log {
      var m := s'.log[|s.log|];
      assert s'.log == s.log + [m];
      MarkKeepsGated(s.log, m);
      if m.Attempt? {
        MarkKeepsReopened(s.log, m);
      }
      if s.comms.HelloLock? || s.comms.HelloHold? {
        MarkKeepsAnswered(s.log, m);
      }
    }
  }

  lemma GateComms(s: Dcl, a: CommsAct, s': Dcl)
    requires GateInv(s) && SocketStep(s, a, s')
    ensures GateInv(s')
  {
    match a
    case Hello(true) =>
      VersionAnswers(s.log);
      MarkKeepsGated(s.log, Version);
      if s.h.ready { MarkKeepsReopened(s.log, Version); }
    case SetReady =>
      ReadyReopens(s.log);
      MarkKeepsGated(s.log, Ready);
    case _ =>
  }

  lemma GateStep(s: Dcl, a: Action, s': Dcl)
    requires GateInv(s) && Step(s, a, s')
    ensures GateInv(s')
  {
    match a
    case ByConsumer(x) => if EmitStep(s, x, s') { GateConsumer(s, x, s'); }
    case ByComms(x) => if SocketStep(s, x, s') { GateComms(s, x, s'); }
    case _ => OtherThreadsFrame(s, a, s');
  }
}
