/**
 TLV framing in all runs: a TLV is sent with a wrong length field exactly if it slipped
 in between the comms thread's size check and its sendto.
 */
module DclSlips {
  import opened TlvFraming
  import opened DclState
  import opened DclSteps
  import opened DclGating
  import opened DclHandoff
  import opened DclSends

  /** Step j fills tlv_ctx with too long a payload while the comms thread is at its sendto, and nothing refills it before step k. */
  ghost predicate Slipped(states: seq<Dcl>, acts: seq<Action>, j: nat, k: nat)
    requires k <= |acts| <= |states|
  {
    && j < k && IsAlloc(acts[j]) && |acts[j].ca.payload| >= LENGTH_MODULUS && states[j].comms.SendTo?
    && forall i | j < i < k :: !acts[i].ByComms? && !IsAlloc(acts[i])
  }

  /** What is in tlv_ctx was not what was checked. */
  predicate Oversize(s: Dcl) {
    s.comms.SendTo? && s.h.tlv.Some? && !SizeAgrees(s.h.tlv.value)
  }

  lemma BackStep(s: Dcl, a: Action, s': Dcl)
    requires Carrying(s) && Step(s, a, s') && Oversize(s')
    ensures !a.ByComms? && s.comms == s'.comms
    ensures if IsAlloc(a) then |a.ca.payload| >= LENGTH_MODULUS else Oversize(s)
  {
    match a
    case ByConsumer(x) =>
      ConsumerCarries(s, x, s');
      if x.Alloc? {
        SizeCrossCheckIffPayloadFits(SiteTag(s.consumer.site), x.payload);
      }
    case ByComms(x) => CommsCarries(s, x, s');
    case _ => OtherThreadsFrame(s, a, s');
  }

  lemma SlipStep(s: Dcl, a: Action, s': Dcl)
    requires Carrying(s) && Step(s, a, s') && s.comms.SendTo? && IsAlloc(a) && |a.ca.payload| >= LENGTH_MODULUS
    ensures Oversize(s')
  {
    ConsumerCarries(s, a.ca, s');
    SizeCrossCheckIffPayloadFits(SiteTag(s.consumer.site), a.ca.payload);
  }

  lemma ForwardStep(s: Dcl, a: Action, s': Dcl)
    requires Carrying(s) && Step(s, a, s') && s.comms.SendTo? && (s.h.tlv.Some? ==> Oversize(s))
    requires !a.ByComms? && !IsAlloc(a)
    ensures s'.comms.SendTo? && (s'.h.tlv.Some? ==> Oversize(s'))
  {
    if a.ByConsumer? {
      ConsumerCarries(s, a.ca, s');
    } else {
      OtherThreadsFrame(s, a, s');
    }
  }

  /** Every state of the run holds in tlv_ctx what its emit put there. */
  ghost predicate AllCarry(states: seq<Dcl>) {
    forall i | 0 <= i < |states| :: Carrying(states[i])
  }

  /** Looking one step back from an oversize TLV at the sendto. */
  predicate BackFact(states: seq<Dcl>, acts: seq<Action>, k: nat)
    requires k < |acts| < |states|
  {
    Oversize(states[k + 1]) ==>
      && !acts[k].ByComms? && states[k].comms.SendTo?
      && if IsAlloc(acts[k]) then |acts[k].ca.payload| >= LENGTH_MODULUS else Oversize(states[k])
  }

  lemma BackAt(states: seq<Dcl>, acts: seq<Action>, k: nat)
    requires IsRun(states, acts) && AllCarry(states) && k < |acts|
    ensures BackFact(states, acts, k)
  {
    assert Step(states[k], acts[k], states[k + 1]);
    if Oversize(states[k + 1]) {
      BackStep(states[k], acts[k], states[k + 1]);
    }
  }

  lemma {:induction false} TraceBack(states: seq<Dcl>, acts: seq<Action>, k: nat) returns (j: nat)
    requires |states| == |acts| + 1 && k < |states| && Oversize(states[k]) && !Oversize(states[0])
    requires forall i | 0 <= i < |acts| :: BackFact(states, acts, i)
    ensures Slipped(states, acts, j, k)
  {
    assert BackFact(states, acts, k - 1);
    if IsAlloc(acts[k - 1]) {
      j := k - 1;
    } else {
      j := TraceBack(states, acts, k - 1);
    }
  }

  lemma OversizeSlipped(states: seq<Dcl>, acts: seq<Action>, k: nat) returns (j: nat)
    requires IsRun(states, acts) && AllCarry(states) && k < |states| && Oversize(states[k])
    ensures Slipped(states, acts, j, k)
  {
    forall i | 0 <= i < |acts|
      ensures BackFact(states, acts, i)
    {
      BackAt(states, acts, i);
    }
    j := TraceBack(states, acts, k);
  }

  lemma {:induction false} SlippedOversize(states: seq<Dcl>, acts: seq<Action>, j: nat, k: nat)
    requires IsRun(states, acts) && AllCarry(states) && k <= |acts| && Slipped(states, acts, j, k)
    ensures states[k].comms.SendTo? && (states[k].h.tlv.Some? ==> Oversize(states[k]))
  {
    assert Step(states[k - 1], acts[k - 1], states[k]);
    if j == k - 1 {
      SlipStep(states[j], acts[j], states[k]);
    } else {
      SlippedOversize(states, acts, j, k - 1);
      ForwardStep(states[k - 1], acts[k - 1], states[k]);
    }
  }

  /** Step k sends a TLV that slipped in. */
  ghost predicate SendsSlipped(states: seq<Dcl>, acts: seq<Action>, k: nat)
    requires k < |acts| <= |states|
  {
    Sends(states[k], acts[k]) && exists j :: Slipped(states, acts, j, k)
  }

  lemma SentFramedIff(states: seq<Dcl>, acts: seq<Action>, k: nat)
    requires IsRun(states, acts) && AllCarry(states) && k < |acts| && Sends(states[k], acts[k])
    ensures states[k + 1].h.sends == states[k].h.sends + [states[k].h.tlv.value]
    ensures Framed(states[k].h.tlv.value) <==> !SendsSlipped(states, acts, k)
  {
    assert Step(states[k], acts[k], states[k + 1]);
    SendStep(states[k], states[k + 1]);
    if Oversize(states[k]) {
      var j := OversizeSlipped(states, acts, k);
    }
    if j: nat :| Slipped(states, acts, j, k) {
      SlippedOversize(states, acts, j, k);
    }
  }

  lemma SendStep(s: Dcl, s': Dcl)
    requires Carrying(s) && Step(s, ByComms(Send(true)), s') && s.h.tlv.Some?
    ensures s.comms.SendTo? && s'.h.sends == s.h.sends + [s.h.tlv.value]
    ensures Framed(s.h.tlv.value) <==> !Oversize(s)
  {
    assert s.consumer.CWrite? || s.consumer.CWait?;
  }

  lemma OtherStep(states: seq<Dcl>, acts: seq<Action>, k: nat)
    requires IsRun(states, acts) && AllCarry(states) && k < |acts| && !Sends(states[k], acts[k])
    ensures states[k + 1].h.sends == states[k].h.sends
  {
    assert Step(states[k], acts[k], states[k + 1]);
    CarryingStep(states[k], acts[k], states[k + 1]);
  }

  predicate AllFramed(sends: seq<TlvContext>) {
    forall t | t in sends :: Framed(t)
  }

  /** Everything sent is framed exactly if nothing sent had slipped in. */
  lemma AllFramedIff(states: seq<Dcl>, acts: seq<Action>, n: nat)
    requires IsRun(states, acts) && AllCarry(states) && n < |states|
    ensures AllFramed(states[n].h.sends) <==> forall k: nat | k < n :: !SendsSlipped(states, acts, k)
  {
    forall k: nat | k < |acts|
      ensures FramedFact(states, acts, k)
    {
      FramedAt(states, acts, k);
    }
    FramedUpTo(states, acts, n);
  }

  ghost predicate FramedFact(states: seq<Dcl>, acts: seq<Action>, k: nat)
    requires k < |acts| < |states|
  {
    AllFramed(states[k + 1].h.sends) <==> AllFramed(states[k].h.sends) && !SendsSlipped(states, acts, k)
  }

  lemma FramedAt(states: seq<Dcl>, acts: seq<Action>, k: nat)
    requires IsRun(states, acts) && AllCarry(states) && k < |acts|
    ensures FramedFact(states, acts, k)
  {
    if Sends(states[k], acts[k]) {
      SentFramedIff(states, acts, k);
      OneMoreFramed(states[k].h.sends, states[k].h.tlv.value);
    } else {
      OtherStep(states, acts, k);
    }
  }

  lemma {:induction false} FramedUpTo(states: seq<Dcl>, acts: seq<Action>, n: nat)
    requires n < |states| == |acts| + 1 && states[0].h.sends == []
    requires forall k: nat | k < |acts| :: FramedFact(states, acts, k)
    ensures AllFramed(states[n].h.sends) <==> forall k: nat | k < n :: !SendsSlipped(states, acts, k)
  {
    if n > 0 {
      FramedUpTo(states, acts, n - 1);
      assert FramedFact(states, acts, n - 1);
    }
  }

  lemma OneMoreFramed(sends: seq<TlvContext>, t: TlvContext)
    ensures AllFramed(sends + [t]) <==> AllFramed(sends) && Framed(t)
  {
    assert forall u :: u in sends + [t] <==> u in sends || u == t;
  }
}
