/**
 The handoff over all runs, timeouts and deinit included: exactly which sends are
 framed, exactly which emits can report success without a send.
 */
module DclSendRuns {
  import opened Wrappers
  import opened Notify
  import opened TlvFraming
  import opened Subsequences
  import opened DclState
  import opened DclSteps
  import opened DclPaths
  import opened DclHandoff
  import opened DclAcks
  import opened DclSends
  import opened DclSlips
  import opened DclLate
  import opened DclRuns

  lemma InOrderGoesOn(states: seq<Dcl>, acts: seq<Action>, k: nat)
    requires IsRun(states, acts) && k < |acts| && Carrying(states[k]) && AckInv(states[k])
    ensures Carrying(states[k + 1]) && AckInv(states[k + 1])
  {
    RunsAreSound(states, acts, k);
    assert Step(states[k], acts[k], states[k + 1]);
    CarryingStep(states[k], acts[k], states[k + 1]);
    AckStep(states[k], acts[k], states[k + 1]);
  }

  lemma {:induction false} InOrderUpTo(states: seq<Dcl>, acts: seq<Action>, n: nat)
    requires IsRun(states, acts) && n < |states|
    ensures Carrying(states[n]) && AckInv(states[n])
  {
    if n == 0 {
      CarryingInit(states[0]);
      AckInit(states[0]);
    } else {
      InOrderUpTo(states, acts, n - 1);
      InOrderGoesOn(states, acts, n - 1);
    }
  }

  lemma RunsAreInOrder(states: seq<Dcl>, acts: seq<Action>)
    requires IsRun(states, acts)
    ensures AllInOrder(states) && AllCarry(states)
  {
    forall n: nat | n < |states|
      ensures Carrying(states[n]) && AckInv(states[n])
    {
      InOrderUpTo(states, acts, n);
    }
  }

  // ----- framing

  /**
   Every TLV put on the socket is one that some emit was given, and its length field is wrong if and
   only if it slipped in between size check and sendto; otherwise it parses back to tag and payload.
   */
  lemma RunsSendFramed(states: seq<Dcl>, acts: seq<Action>, k: nat, code: nat)
    requires IsRun(states, acts) && k < |acts| && Sends(states[k], acts[k]) && code < LENGTH_MODULUS
    ensures var t := states[k].h.tlv.value;
            && states[k + 1].h.sends == states[k].h.sends + [t] && t == BuildTlv(t.tag, t.data)
            && (!SizeAgrees(t) <==> exists j :: Slipped(states, acts, j, k))
            && (SizeAgrees(t) ==> |Wire(code, t.len, t.data)| == t.size && Parse(Wire(code, t.len, t.data)) == Some((code, t.data)))
  {
    RunsAreInOrder(states, acts);
    SentFramedIff(states, acts, k);
    SentIsBuilt(states[k]);
    if Framed(states[k].h.tlv.value) {
      FramedParses(states[k].h.tlv.value, code);
    }
  }

  lemma SentIsBuilt(s: Dcl)
    requires Carrying(s) && s.h.tlv.Some?
    ensures s.h.tlv.value == BuildTlv(s.h.tlv.value.tag, s.h.tlv.value.data)
  {
    assert s.consumer.CWrite? || s.consumer.CWait?;
  }

  /** Everything a run has put on the socket is framed if and only if nothing it sent had slipped in. */
  lemma RunsSendAllFramedIff(states: seq<Dcl>, acts: seq<Action>, n: nat)
    requires IsRun(states, acts) && n < |states|
    ensures (forall t | t in states[n].h.sends :: Framed(t)) <==> forall k: nat | k < n :: !SendsSlipped(states, acts, k)
  {
    RunsAreInOrder(states, acts);
    AllFramedIff(states, acts, n);
  }

  // ----- success means sent

  /** An emit about to begin can report success for what was not sent, deinit keeping still, if and only if its answer is stale. */
  lemma RunsSucceedUnsentIff(p: Path, s: Dcl)
    requires RunTo(p, s) && s.consumer.CEmit?
    ensures Stale(s, SiteTag(s.consumer.site)) <==> exists q, k :: GoesOnUnsent(p, q, k)
  {
    RunsAreInOrder(p.states, p.acts);
    forall q: Path | IsRun(q.states, q.acts)
      ensures AllInOrder(q.states)
    {
      RunsAreInOrder(q.states, q.acts);
    }
    UnsentIff(p, s);
  }

  /** Whatever deinit does meanwhile, such an emit began under a threat. */
  lemma RunsSucceedUnsentUnderThreat(states: seq<Dcl>, acts: seq<Action>, j: nat, k: nat)
    requires IsRun(states, acts) && SucceedsUnsent(states, acts, j, k)
    ensures states[j].consumer.CEmit? && Threat(states[j], SiteTag(states[j].consumer.site), true)
  {
    RunsAreInOrder(states, acts);
    UnsentMeansThreat(states, acts, j, k, true);
  }

  lemma SafeGoesOn(states: seq<Dcl>, acts: seq<Action>, k: nat, emptied: bool)
    requires IsRun(states, acts) && AllInOrder(states) && k < |acts|
    requires BeginsSafe(states[k], acts[k], emptied) && LateInv(states[k], emptied)
    ensures LateInv(states[k + 1], emptied)
  {
    assert Step(states[k], acts[k], states[k + 1]);
    LateStep(states[k], acts[k], states[k + 1], emptied);
  }

  lemma {:induction false} SafeRuns(states: seq<Dcl>, acts: seq<Action>, n: nat, emptied: bool)
    requires IsRun(states, acts) && AllInOrder(states) && n < |states|
    requires forall k | 0 <= k < |acts| :: BeginsSafe(states[k], acts[k], emptied)
    ensures LateInv(states[n], emptied)
  {
    if n == 0 {
      LateInit(states[0], emptied);
    } else {
      SafeRuns(states, acts, n - 1, emptied);
      SafeGoesOn(states, acts, n - 1, emptied);
    }
  }

  /** If no emit begins under a threat (a stale answer, in runs without deinit), whatever is reported as sent was sent, once each and in emit order. */
  lemma RunsSendWhatSucceeds(states: seq<Dcl>, acts: seq<Action>, n: nat, emptied: bool)
    requires IsRun(states, acts) && n < |states|
    requires forall k | 0 <= k < |acts| :: BeginsSafe(states[k], acts[k], emptied)
    ensures Subsequence(states[n].h.emits, states[n].h.sends)
  {
    RunsAreInOrder(states, acts);
    SafeRuns(states, acts, n, emptied);
  }

  // ----- who finds tlv_ctx filled

  lemma QuietGoesOn(states: seq<Dcl>, acts: seq<Action>, k: nat)
    requires IsRun(states, acts) && k < |acts| && BeginsQuiet(states[k], acts[k])
    requires Carrying(states[k]) && FoundByOwn(states[k])
    ensures FoundByOwn(states[k + 1])
  {
    assert Step(states[k], acts[k], states[k + 1]);
    FoundStep(states[k], acts[k], states[k + 1]);
  }

  lemma {:induction false} QuietRuns(states: seq<Dcl>, acts: seq<Action>, n: nat)
    requires IsRun(states, acts) && n < |states|
    requires forall k | 0 <= k < |acts| :: BeginsQuiet(states[k], acts[k])
    ensures Carrying(states[n]) && FoundByOwn(states[n])
  {
    InOrderUpTo(states, acts, n);
    if n == 0 {
      FoundInit(states[0]);
    } else {
      QuietRuns(states, acts, n - 1);
      QuietGoesOn(states, acts, n - 1);
    }
  }

  /** If every emit begins with no earlier READY unread or being served, the comms thread finds tlv_ctx filled only on behalf of the emit that waits. */
  lemma RunsFindOwnTlv(states: seq<Dcl>, acts: seq<Action>, n: nat)
    requires IsRun(states, acts) && n < |states|
    requires forall k | 0 <= k < |acts| :: BeginsQuiet(states[k], acts[k])
    ensures var s := states[n];
            ReadsTlv(s.comms) && s.h.tlv.Some? ==>
              s.consumer.CWait? && s.h.tlv == Some(s.consumer.out) && s.comms.sent == SentToken(s.consumer.out.tag)
  {
    QuietRuns(states, acts, n);
  }
}
