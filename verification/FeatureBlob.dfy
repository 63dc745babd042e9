/**
 Applying a feature blob: four flags go through the persistent store one by one,
 then fingerprinting is switched. The store may fail at any write.
 */
module FeatureBlob {
  /** The features in the order in which a blob is applied. */
  const SAFE_BROWSING: nat := 0
  const SOFTFLOWD: nat := 1
  const PARENTAL_CONTROL: nat := 2
  const PRIVACY_PROTECTION: nat := 3
  const FINGER_PRINT: nat := 4

  type Flags = f: seq<bool> | |f| == 5 witness [false, false, false, false, false]

  /** A store write sets the value and then commits it. */
  datatype Outcome = Stored | SetFailed | CommitFailed

  datatype Script = Enable | Disable | ConfigureFeatures

  datatype Status = Success | SyscfgFailure | AdvsecFailure

  /** flags: what the agent acts on. store: what the store reads back. writes: how many were tried. */
  datatype State = State(flags: Flags, store: Flags, writes: nat, scripts: seq<Script>)

  /** The outcome of every store write, by number. */
  type Env = nat -> Outcome

  /** Writes flag k to the store, whatever comes of it. */
  function StoreWrite(s: State, blob: Flags, env: Env, k: nat): State
    requires k < 5
  {
    s.(store := if env(s.writes).SetFailed? then s.store else s.store[k := blob[k]], writes := s.writes + 1)
  }

  /** One of the first four features: written only if it changes, switched only if the write succeeds. */
  function Update(s: State, blob: Flags, env: Env, k: nat): (State, bool)
    requires k < 4
  {
    if blob[k] == s.flags[k] then (s, true)
    else if env(s.writes).Stored? then (StoreWrite(s, blob, env, k).(flags := s.flags[k := blob[k]]), true)
    else (StoreWrite(s, blob, env, k), false)
  }

  /** Features k to 3; the number is that of the feature that failed, or 4. */
  function UpdateFrom(s: State, blob: Flags, env: Env, k: nat): (State, nat)
    requires k <= 4
    decreases 4 - k, s
  {
    if k == 4 then (s, 4)
    else
      var (t, ok) := Update(s, blob, env, k);
      if ok then UpdateFrom(t, blob, env, k + 1) else (t, k)
  }

  /** Switching fingerprinting: the flag changes first, then the store. */
  function Switch(s: State, blob: Flags, env: Env): (State, Status) {
    var script := if blob[FINGER_PRINT] then Enable else Disable;
    var t := s.(scripts := s.scripts + [script], flags := s.flags[FINGER_PRINT := blob[FINGER_PRINT]]);
    (StoreWrite(t, blob, env, FINGER_PRINT), if env(s.writes).Stored? then Success else SyscfgFailure)
  }

  function Handle(s: State, blob: Flags, env: Env): (State, Status) {
    if !blob[FINGER_PRINT] && !s.flags[FINGER_PRINT] then (s, AdvsecFailure)
    else
      var (t, n) := UpdateFrom(s, blob, env, 0);
      if n < 4 then (t, SyscfgFailure)
      else if blob[FINGER_PRINT] != t.flags[FINGER_PRINT] then Switch(t, blob, env)
      else (t.(scripts := t.scripts + [ConfigureFeatures]), Success)
  }

  class Agent {
    var flags: Flags
    var store: Flags
    var writes: nat
    var scripts: seq<Script>

    ghost function Abs(): State
      reads this
    {
      State(flags, store, writes, scripts)
    }

    constructor (stored: Flags)
      ensures Abs() == State(stored, stored, 0, [])
    {
      flags, store, writes, scripts := stored, stored, 0, [];
    }

    /** CosaSetSysCfgUlong */
    method SetSysCfg(k: nat, value: bool, env: Env) returns (ok: bool)
      requires k < 5
      modifies this`store, this`writes
      ensures ok == env(old(writes)).Stored?
      ensures store == if env(old(writes)).SetFailed? then old(store) else old(store)[k := value]
      ensures writes == old(writes) + 1
    {
      var outcome := env(writes);
      writes := writes + 1;
      if outcome == SetFailed {
        return false;
      }
      store := store[k := value];
      ok := outcome != CommitFailed;
    }

    /** advsec_update_feature_status */
    method UpdateFeatureStatus(k: nat, blob: Flags, env: Env) returns (ok: bool)
      requires k < 4
      modifies this
      ensures (Abs(), ok) == Update(old(Abs()), blob, env, k)
      ensures ok <==> blob[k] == old(flags)[k] || env(old(writes)) == Stored
      ensures flags == (if ok then old(flags)[k := blob[k]] else old(flags)) && scripts == old(scripts)
      ensures store == if blob[k] == old(flags)[k] || env(old(writes)) == SetFailed then old(store) else old(store)[k := blob[k]]
      ensures writes == old(writes) + if blob[k] == old(flags)[k] then 0 else 1
    {
      ok := true;
      if blob[k] != flags[k] {
        ok := SetSysCfg(k, blob[k], env);
        if ok {
          flags := flags[k := blob[k]];
        }
      }
    }

    /** CosaAdvSecInit and CosaAdvSecDeInit */
    method SwitchFingerPrint(blob: Flags, env: Env) returns (status: Status)
      modifies this
      ensures (Abs(), status) == Switch(old(Abs()), blob, env)
      ensures scripts == old(scripts) + [if blob[4] then Enable else Disable] && flags == old(flags)[4 := blob[4]]
      ensures store == if env(old(writes)) == SetFailed then old(store) else old(store)[4 := blob[4]]
      ensures writes == old(writes) + 1 && status == if env(old(writes)) == Stored then Success else SyscfgFailure
    {
      scripts := scripts + [if blob[FINGER_PRINT] then Enable else Disable];
      flags := flags[FINGER_PRINT := blob[FINGER_PRINT]];
      var ok := SetSysCfg(FINGER_PRINT, blob[FINGER_PRINT], env);
      status := if ok then Success else SyscfgFailure;
    }

    /** advsec_webconfig_handle_blob */
    method HandleBlob(blob: Flags, env: Env) returns (status: Status)
      modifies this
      ensures (Abs(), status) == Handle(old(Abs()), blob, env)
    {
      if blob[FINGER_PRINT] == flags[FINGER_PRINT] && !flags[FINGER_PRINT] {
        return AdvsecFailure;
      }
      var k := 0;
      while k < 4
        invariant 0 <= k <= 4
        invariant UpdateFrom(Abs(), blob, env, k) == UpdateFrom(old(Abs()), blob, env, 0)
      {
        var ok := UpdateFeatureStatus(k, blob, env);
        if !ok {
          return SyscfgFailure;
        }
        k := k + 1;
      }
      if blob[FINGER_PRINT] != flags[FINGER_PRINT] {
        status := SwitchFingerPrint(blob, env);
      } else {
        scripts := scripts + [ConfigureFeatures];
        status := Success;
      }
    }
  }

  // ----- what a blob does

  /** The store's own copy of the features that are written: those the blob changes, up to n of them. */
  ghost predicate WrittenThrough(s: State, t: State, blob: Flags, n: nat)
    requires n <= 5
  {
    && (forall k | 0 <= k < n :: t.store[k] == if blob[k] != s.flags[k] then blob[k] else s.store[k])
    && (forall k | n <= k < 5 :: t.store[k] == s.store[k])
  }

  /** The first n features are as in the blob, the others as before. */
  ghost predicate PrefixApplied(s: State, t: State, blob: Flags, n: nat)
    requires n <= 5
  {
    && (forall k | 0 <= k < n :: t.flags[k] == blob[k])
    && (forall k | n <= k < 5 :: t.flags[k] == s.flags[k])
  }

  /** Writes tried for the first n features: one for each that the blob changes. */
  ghost predicate OneWriteEach(s: State, t: State, blob: Flags, n: nat)
    requires n <= 5
  {
    t.writes == s.writes + |set k: nat | k < n && blob[k] != s.flags[k]|
  }

  lemma WritesNext(s: State, blob: Flags, k: nat)
    requires k < 5
    ensures |set i: nat | i < k + 1 && blob[i] != s.flags[i]| ==
            |set i: nat | i < k && blob[i] != s.flags[i]| + if blob[k] != s.flags[k] then 1 else 0
  {
    var before := set i: nat | i < k && blob[i] != s.flags[i];
    assert (set i: nat | i < k + 1 && blob[i] != s.flags[i]) == if blob[k] != s.flags[k] then before + {k} else before;
  }

  /** One store write for each feature the blob changes, all of them successful but the last of a failed update. */
  lemma {:induction false} UpdatesWriteOnce(s0: State, s: State, blob: Flags, env: Env, k: nat)
    requires k <= 4 && (forall i | k <= i < 5 :: s.flags[i] == s0.flags[i]) && OneWriteEach(s0, s, blob, k)
    ensures var (t, n) := UpdateFrom(s, blob, env, k);
            && n <= 4 && OneWriteEach(s0, t, blob, if n < 4 then n + 1 else 4)
            && s.writes <= t.writes && forall i: nat | s.writes <= i < (if n < 4 then t.writes - 1 else t.writes) :: env(i) == Stored
    decreases 4 - k
  {
    if k < 4 {
      WritesNext(s0, blob, k);
      var (u, ok) := Update(s, blob, env, k);
      if ok {
        UpdatesWriteOnce(s0, u, blob, env, k + 1);
      }
    }
  }

  lemma UpdateExtends(s0: State, s: State, blob: Flags, env: Env, k: nat)
    requires k < 4 && PrefixApplied(s0, s, blob, k) && WrittenThrough(s0, s, blob, k)
    ensures var (u, ok) := Update(s, blob, env, k);
            && s.writes <= u.writes && u.scripts == s.scripts
            && (ok ==> PrefixApplied(s0, u, blob, k + 1) && WrittenThrough(s0, u, blob, k + 1))
            && (!ok ==>
                  && PrefixApplied(s0, u, blob, k)
                  && blob[k] != s0.flags[k] && u.writes == s.writes + 1 && !env(s.writes).Stored?
                  && WrittenThrough(s0, u, blob, if env(s.writes).SetFailed? then k else k + 1))
  {
    assert s.flags[k] == s0.flags[k];
  }

  lemma {:induction false} UpdatesAreAPrefix(s0: State, s: State, blob: Flags, env: Env, k: nat)
    requires k <= 4 && PrefixApplied(s0, s, blob, k) && WrittenThrough(s0, s, blob, k)
    ensures var (t, n) := UpdateFrom(s, blob, env, k);
            && k <= n <= 4 && PrefixApplied(s0, t, blob, n) && s.writes <= t.writes
            && (n == 4 ==> WrittenThrough(s0, t, blob, 4) && t.scripts == s.scripts)
            && (n < 4 ==>
                  && blob[n] != s0.flags[n] && s.writes < t.writes && t.scripts == s.scripts
                  && !env(t.writes - 1).Stored?
                  && WrittenThrough(s0, t, blob, if env(t.writes - 1).SetFailed? then n else n + 1))
    decreases 4 - k
  {
    if k < 4 {
      var (u, ok) := Update(s, blob, env, k);
      UpdateExtends(s0, s, blob, env, k);
      if ok {
        UpdatesAreAPrefix(s0, u, blob, env, k + 1);
      }
    }
  }

  lemma NothingYet(s: State, blob: Flags)
    ensures PrefixApplied(s, s, blob, 0) && WrittenThrough(s, s, blob, 0)
  {
  }

  lemma SwitchFinishes(s: State, t: State, blob: Flags, env: Env)
    requires PrefixApplied(s, t, blob, 4) && WrittenThrough(s, t, blob, 4) && blob[FINGER_PRINT] != s.flags[FINGER_PRINT]
    ensures var (u, status) := Switch(t, blob, env);
            && PrefixApplied(s, u, blob, 5) && u.writes == t.writes + 1
            && (status == Success <==> env(t.writes).Stored?)
            && WrittenThrough(s, u, blob, if env(t.writes).SetFailed? then 4 else 5)
  {
  }

  /**
   Success: every flag is as in the blob, every flag that changed went through the store, and one script ran:
   the one that enables or disables the agent if fingerprinting changed, otherwise the one that configures it.
   */
  lemma SuccessAppliesAll(s: State, blob: Flags, env: Env)
    requires Handle(s, blob, env).1 == Success
    ensures var t := Handle(s, blob, env).0;
            && t.flags == blob
            && (forall k | 0 <= k < 5 :: t.store[k] == if blob[k] != s.flags[k] then blob[k] else s.store[k])
            && t.scripts == s.scripts + [if blob[4] == s.flags[4] then ConfigureFeatures else if blob[4] then Enable else Disable]
  {
    NothingYet(s, blob);
    UpdatesAreAPrefix(s, s, blob, env, 0);
    var t := UpdateFrom(s, blob, env, 0).0;
    assert t.flags[FINGER_PRINT] == s.flags[FINGER_PRINT];
    assert Handle(s, blob, env).0.flags == blob;
  }

  /** A store failure leaves a prefix of the fixed order applied and the rest as it was. */
  lemma StoreFailureAppliesPrefix(s: State, blob: Flags, env: Env) returns (n: nat)
    requires Handle(s, blob, env).1 == SyscfgFailure
    ensures n <= 4 && blob[n] != s.flags[n]
    ensures var t := Handle(s, blob, env).0;
            && s.writes < t.writes && !env(t.writes - 1).Stored?
            && PrefixApplied(s, t, blob, if n == FINGER_PRINT then 5 else n)
            && WrittenThrough(s, t, blob, if env(t.writes - 1).SetFailed? then n else n + 1)
            && t.scripts == s.scripts + if n < 4 then [] else [if blob[4] then Enable else Disable]
  {
    NothingYet(s, blob);
    UpdatesAreAPrefix(s, s, blob, env, 0);
    var (t, k) := UpdateFrom(s, blob, env, 0);
    n := k;
    if n == FINGER_PRINT {
      assert t.flags[FINGER_PRINT] == s.flags[FINGER_PRINT];
      SwitchFinishes(s, t, blob, env);
    }
  }

  /** The update of the first four features, and the state that switching fingerprinting starts from. */
  lemma UpdatesWrite(s: State, blob: Flags, env: Env)
    ensures var (t, n) := UpdateFrom(s, blob, env, 0);
            && n <= 4 && OneWriteEach(s, t, blob, if n < 4 then n + 1 else 4) && t.flags[4] == s.flags[4]
            && s.writes <= t.writes && forall i: nat | s.writes <= i < (if n < 4 then t.writes - 1 else t.writes) :: env(i) == Stored
  {
    NothingYet(s, blob);
    UpdatesAreAPrefix(s, s, blob, env, 0);
    UpdatesWriteOnce(s, s, blob, env, 0);
  }

  /** A success tried one store write for each feature the blob changes, and all of them were successful. */
  lemma SuccessWrites(s: State, blob: Flags, env: Env)
    requires Handle(s, blob, env).1 == Success
    ensures var t := Handle(s, blob, env).0;
            && t.writes == s.writes + |set k: nat | k < 5 && blob[k] != s.flags[k]|
            && forall i: nat | s.writes <= i < t.writes :: env(i) == Stored
  {
    UpdatesWrite(s, blob, env);
    WritesNext(s, blob, 4);
  }

  /** A failure ends on the write that failed; every write before it was successful. */
  lemma FailureWrites(s: State, blob: Flags, env: Env)
    requires Handle(s, blob, env).1 == SyscfgFailure
    ensures var t := Handle(s, blob, env).0;
            && s.writes < t.writes <= s.writes + |set k: nat | k < 5 && blob[k] != s.flags[k]|
            && env(t.writes - 1) != Stored && forall i: nat | s.writes <= i < t.writes - 1 :: env(i) == Stored
  {
    var _ := StoreFailureAppliesPrefix(s, blob, env);
    UpdatesWrite(s, blob, env);
    WritesNext(s, blob, 4);
    var n := UpdateFrom(s, blob, env, 0).1;
    var m := if n < 4 then n + 1 else 5;
    Fewer((set k: nat | k < m && blob[k] != s.flags[k]), set k: nat | k < 5 && blob[k] != s.flags[k]);
  }

  lemma Fewer(a: set<nat>, b: set<nat>)
    requires a <= b
    ensures |a| <= |b|
  {
    assert b == a + (b - a);
  }

  /** The order by name: a later feature is changed only after the earlier ones are as in the blob. */
  lemma FeaturesInOrder(s: State, blob: Flags, env: Env)
    ensures var t := Handle(s, blob, env).0;
            && (t.flags[SOFTFLOWD] != s.flags[SOFTFLOWD] ==> t.flags[SAFE_BROWSING] == blob[SAFE_BROWSING])
            && (t.flags[PARENTAL_CONTROL] != s.flags[PARENTAL_CONTROL] ==>
                  t.flags[SOFTFLOWD] == blob[SOFTFLOWD] && t.flags[SAFE_BROWSING] == blob[SAFE_BROWSING])
            && (t.flags[PRIVACY_PROTECTION] != s.flags[PRIVACY_PROTECTION] ==>
                  t.flags[PARENTAL_CONTROL] == blob[PARENTAL_CONTROL] && t.flags[SOFTFLOWD] == blob[SOFTFLOWD]
                  && t.flags[SAFE_BROWSING] == blob[SAFE_BROWSING])
            && (t.flags[FINGER_PRINT] != s.flags[FINGER_PRINT] ==> t.flags == blob)
  {
    match Handle(s, blob, env).1
    case Success =>
      SuccessAppliesAll(s, blob, env);
    case AdvsecFailure =>
      RefusedChangesNothing(s, blob, env);
    case SyscfgFailure =>
      var n := StoreFailureAppliesPrefix(s, blob, env);
  }

  /** A refused blob changes nothing; only one that asks to disable an agent already disabled is refused. */
  lemma RefusedChangesNothing(s: State, blob: Flags, env: Env)
    ensures Handle(s, blob, env).1 == AdvsecFailure <==> !blob[FINGER_PRINT] && !s.flags[FINGER_PRINT]
    ensures Handle(s, blob, env).1 == AdvsecFailure ==> Handle(s, blob, env).0 == s
  {
  }

  lemma UpdatesOfEqualFlags(s: State, blob: Flags, env: Env, k: nat)
    requires k <= 4 && s.flags[..4] == blob[..4]
    ensures UpdateFrom(s, blob, env, k) == (s, 4)
    decreases 4 - k
  {
    if k < 4 {
      assert s.flags[..4][k] == blob[..4][k];
      UpdatesOfEqualFlags(s, blob, env, k + 1);
    }
  }

  /**
   Reapplying a blob to an agent whose flags are already as in the blob writes nothing and
   changes no flag; it is reported as a success exactly if the blob enables fingerprinting.
   */
  lemma ReapplyingWritesNothing(s: State, blob: Flags, env: Env)
    requires s.flags == blob
    ensures var (t, status) := Handle(s, blob, env);
            && t.flags == s.flags && t.store == s.store && t.writes == s.writes
            && status == if blob[FINGER_PRINT] then Success else AdvsecFailure
  {
    UpdatesOfEqualFlags(s, blob, env, 0);
  }

  /**
   When agent and store agree before a blob, they agree after it exactly if the call did not
   end on a failing write, or the write that failed left the store as the agent's flag: for the
   first four features that is a failing set, for fingerprinting a failing commit.
   */
  lemma AgreementKeptIff(s: State, blob: Flags, env: Env)
    requires s.flags == s.store
    ensures var (t, status) := Handle(s, blob, env);
            t.flags == t.store <==>
            (status == SyscfgFailure ==>
               t.writes > 0 && env(t.writes - 1) == if t.scripts == s.scripts then SetFailed else CommitFailed)
  {
    var (t, status) := Handle(s, blob, env);
    match status
    case Success =>
      SuccessAppliesAll(s, blob, env);
      assert t.flags == t.store;
    case AdvsecFailure =>
      RefusedChangesNothing(s, blob, env);
    case SyscfgFailure =>
      var n := StoreFailureAppliesPrefix(s, blob, env);
      assert forall k | 0 <= k < 5 && k != n :: t.flags[k] == t.store[k];
      assert t.flags[n] == t.store[n] <==> env(t.writes - 1) == if n == FINGER_PRINT then CommitFailed else SetFailed;
      assert t.flags == t.store <==> t.flags[n] == t.store[n];
  }

  /** A failed last write is never made up for: trying the blob again writes nothing, whatever the store does now. */
  lemma LostFingerPrintWriteStaysLost(s: State, blob: Flags, env: Env, again: Env)
    requires Handle(s, blob, env).1 == SyscfgFailure && Handle(s, blob, env).0.scripts != s.scripts
    ensures var (t, _) := Handle(s, blob, env);
            && Handle(t, blob, again).0.store == t.store
            && Handle(t, blob, again).1 == if blob[FINGER_PRINT] then Success else AdvsecFailure
  {
    var n := StoreFailureAppliesPrefix(s, blob, env);
    ReapplyingWritesNothing(Handle(s, blob, env).0, blob, again);
  }

  /** Any other failure is made up for by the first retry that meets a working store. */
  lemma RetrySucceeds(s: State, blob: Flags, env: Env, again: Env)
    requires Handle(s, blob, env).1 == SyscfgFailure && Handle(s, blob, env).0.scripts == s.scripts
    requires forall i :: again(i) == Stored
    ensures Handle(Handle(s, blob, env).0, blob, again).1 == Success
  {
    var n := StoreFailureAppliesPrefix(s, blob, env);
    var t := Handle(s, blob, env).0;
    assert t.flags[FINGER_PRINT] == s.flags[FINGER_PRINT];
    RefusedChangesNothing(s, blob, env);
    if Handle(t, blob, again).1 == SyscfgFailure {
      var m := StoreFailureAppliesPrefix(t, blob, again);
    }
    RefusedChangesNothing(t, blob, again);
  }
}
