/** How far deinit has come, and what that means for new and old collections. */
module DclDeinit {
  import opened Wrappers
  import opened DclState
  import opened DclSteps
  import opened DclLocks

  predicate PastScan(pc: DeinitPc) {
    !pc.DIdle? && !pc.DWantL1? && !DeinitInsideL1(pc)
  }

  predicate PastExit(pc: DeinitPc) {
    pc.DSignal? || pc.DCommsStop? || pc.DCommsWait? || pc.DDone?
  }

  /** The slots deinit has been at. */
  function ScannedTo(s: Dcl): nat {
    match s.deinit
    case DScan(k) => k
    case DStopWait(k) => k + 1
    case pc => if PastScan(pc) then |s.l1.slots| else 0
  }

  predicate Told(t: Collections, k: nat)
    requires k < |t.slots|
  {
    t.slots[k].Some? && t.slots[k].value in t.coll ==> t.coll[t.slots[k].value].byDeinit
  }

  /** Deinit's flags are set exactly when it has got that far, and every collector it met has been told to stop. */
  ghost predicate DeinitInv(s: Dcl) {
    && (s.l1.disabled <==> PastScan(s.deinit))
    && (s.q.exit <==> PastExit(s.deinit))
    && forall k | 0 <= k < ScannedTo(s) && k < |s.l1.slots| :: Told(s.l1, k)
  }

  lemma DeinitInit(s: Dcl)
    requires Init(s)
    ensures DeinitInv(s)
  {
  }

  /** The collections that are in the table stay told. */
  predicate KeepsTold(t: Collections, t': Collections) {
    && |t'.slots| == |t.slots| && t'.disabled == t.disabled
    && (forall k | 0 <= k < |t.slots| :: t'.slots[k] == t.slots[k] || t'.slots[k] == None)
    && (forall c | c in t.coll :: c in t'.coll && (t.coll[c].byDeinit ==> t'.coll[c].byDeinit))
    && (forall c | c in t'.coll :: c in t.coll)
  }

  lemma ToldElsewhere(s: Dcl, s': Dcl)
    requires DeinitInv(s) && KeepsTold(s.l1, s'.l1) && s'.deinit == s.deinit && s'.q.exit == s.q.exit
    ensures DeinitInv(s')
  {
    forall k | 0 <= k < ScannedTo(s') && k < |s'.l1.slots|
      ensures Told(s'.l1, k)
    {
      assert Told(s.l1, k);
    }
  }

  lemma ConsumerKeepsTold(s: Dcl, a: ConsumerAct, s': Dcl)
    requires ConsumerStep(s, a, s')
    ensures KeepsTold(s.l1, s'.l1) && s'.deinit == s.deinit && s'.q.exit == s.q.exit
  {
    if DeviceStep(s, a, s') {
      DeviceKeepsTold(s, a, s');
    }
  }

  lemma DeviceKeepsTold(s: Dcl, a: ConsumerAct, s': Dcl)
    requires DeviceStep(s, a, s')
    ensures KeepsTold(s.l1, s'.l1) && s'.deinit == s.deinit && s'.q.exit == s.q.exit
  {
  }

  lemma CollectorKeepsTold(s: Dcl, c: nat, a: CollectorAct, s': Dcl)
    requires CollectorStep(s, c, a, s')
    ensures KeepsTold(s.l1, s'.l1) && s'.deinit == s.deinit && s'.q.exit == s.q.exit
  {
  }

  lemma SocketKeepsTold(s: Dcl, a: CommsAct, s': Dcl)
    requires SocketStep(s, a, s')
    ensures s'.l1 == s.l1 && s'.deinit == s.deinit && s'.q == s.q
  {
  }

  lemma StartTold(s: Dcl, a: CommsAct, s': Dcl)
    requires Own(s) && DeinitInv(s) && StartStep(s, a, s')
    ensures DeinitInv(s')
  {
    if !a.AcceptStart? {
      OtherStartKeepsTold(s, a, s');
      ToldElsewhere(s, s');
    } else {
      assert ScannedTo(s) == 0;
    }
  }

  lemma OtherStartKeepsTold(s: Dcl, a: CommsAct, s': Dcl)
    requires StartStep(s, a, s') && !a.AcceptStart?
    ensures KeepsTold(s.l1, s'.l1) && s'.deinit == s.deinit && s'.q.exit == s.q.exit
  {
  }

  lemma DeinitTells(s: Dcl, a: DeinitAct, s': Dcl)
    requires DeinitInv(s) && DeinitStep(s, a, s')
    ensures DeinitInv(s')
  {
    forall k | 0 <= k < ScannedTo(s') && k < |s'.l1.slots|
      ensures Told(s'.l1, k)
    {
      if k < ScannedTo(s) {
        assert Told(s.l1, k);
      }
    }
  }

  lemma DeinitInvStep(s: Dcl, a: Action, s': Dcl)
    requires Own(s) && DeinitInv(s) && Step(s, a, s')
    ensures DeinitInv(s')
  {
    match a
    case ByConsumer(x) =>
      ConsumerKeepsTold(s, x, s');
      ToldElsewhere(s, s');
    case ByComms(x) =>
      if SocketStep(s, x, s') {
        SocketKeepsTold(s, x, s');
        ToldElsewhere(s, s');
      } else {
        StartTold(s, x, s');
      }
    case ByCollector(c, x) =>
      CollectorKeepsTold(s, c, x, s');
      ToldElsewhere(s, s');
    case ByPusher(_, _) => ToldElsewhere(s, s');
    case ByDeinit(x) => DeinitTells(s, x, s');
  }
}
