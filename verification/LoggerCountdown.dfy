/**
 The logger thread: it waits in steps of an hour, runs the status scripts after each
 step, and starts over when the logging period has passed or has been changed.
 Periods are in minutes.
 */
module LoggerCountdown {
  const MIN_LOG_TIMEOUT: nat := 60 * 1
  const MAX_LOG_TIMEOUT: nat := 60 * 48

  /** unsigned long, 32 or 64 bits wide depending on the platform. */
  const ULONG_MODULUS: nat := 0x1_0000_0000

  type ULong = x: nat | x < ULONG_MODULUS

  /** C's unsigned subtraction. */
  function Minus(a: ULong, b: ULong): ULong {
    (a + ULONG_MODULUS - b) % ULONG_MODULUS
  }

  /** A write of the LoggingPeriod parameter, and whether the store accepts it. */
  datatype Request = Request(value: ULong, stored: bool)

  /**
   One turn of the loop, with the writes that arrive during its first wait, during
   its second wait, and just before either place where the period is reloaded.
   */
  datatype Turn = Turn(first: seq<Request>, beforeReload: seq<Request>, second: seq<Request>, beforeSecondReload: seq<Request>,
                       beforeLast: seq<Request>)

  datatype State = State(period: ULong, ready: bool, remaining: ULong)

  /** What the loop has done: minutes of waiting that ran their course, and status runs. */
  datatype Work = Work(minutes: nat, runs: nat)

  function Add(a: Work, b: Work): Work {
    Work(a.minutes + b.minutes, a.runs + b.runs)
  }

  /** The range check, the shortcut for an unchanged value, and the store come before the signal. */
  predicate Effective(s: State, r: Request) {
    MIN_LOG_TIMEOUT <= r.value <= MAX_LOG_TIMEOUT && r.value != s.period && r.stored
  }

  function Write(s: State, r: Request): State {
    if Effective(s, r) then s.(period := r.value, ready := true) else s
  }

  function WriteAll(s: State, rs: seq<Request>): State {
    if |rs| == 0 then s else Write(WriteAll(s, rs[..|rs| - 1]), rs[|rs| - 1])
  }

  /** A wait during which rs arrive; false if it was cut short. */
  function Wait(s: State, rs: seq<Request>): (State, bool) {
    var after := WriteAll(s, rs);
    (after.(ready := false), !after.ready)
  }

  function Reload(s: State, rs: seq<Request>): State {
    var after := WriteAll(s, rs);
    after.(remaining := after.period)
  }

  /** One turn of the loop. */
  function Step(s: State, t: Turn): (State, Work) {
    var (a, undisturbed) := Wait(s, t.first);
    if !undisturbed then
      (Reload(a, t.beforeReload), Work(0, 0))
    else
      var (b, minutes) := Finish(a.(remaining := Minus(a.remaining, MIN_LOG_TIMEOUT)), t);
      (if b.remaining == 0 then Reload(b, t.beforeLast) else b, Work(MIN_LOG_TIMEOUT + minutes, 1))
  }

  /** The wait for what is left of the period, when that is less than an hour. */
  function Finish(s: State, t: Turn): (State, nat) {
    if 0 < s.remaining < MIN_LOG_TIMEOUT then
      var (b, undisturbed) := Wait(s, t.second);
      if undisturbed then (b.(remaining := 0), s.remaining) else (Reload(b, t.beforeSecondReload), 0)
    else
      (s, 0)
  }

  function Run(s: State, turns: seq<Turn>): State {
    if |turns| == 0 then s else Step(Run(s, turns[..|turns| - 1]), turns[|turns| - 1]).0
  }

  function Done(s: State, turns: seq<Turn>): Work {
    if |turns| == 0 then Work(0, 0)
    else Add(Done(s, turns[..|turns| - 1]), Step(Run(s, turns[..|turns| - 1]), turns[|turns| - 1]).1)
  }

  // ----- the thread

  class Logger {
    var period: ULong
    var logReady: bool
    var remaining: ULong
    var work: Work

    function Abs(): State
      reads this
    {
      State(period, logReady, remaining)
    }

    /** The thread starts by taking over the stored period. */
    constructor (stored: ULong)
      ensures Abs() == State(stored, false, stored) && work == Work(0, 0)
    {
      period, logReady, remaining, work := stored, false, stored, Work(0, 0);
    }

    /** The parameter setter. */
    method SetLoggingPeriod(r: Request) returns (ok: bool)
      modifies this`period, this`logReady
      ensures Abs() == Write(old(Abs()), r)
      ensures ok <==> 60 <= r.value <= 2880 && (r.value == old(period) || r.stored)
      ensures period == if ok then r.value else old(period)
      ensures logReady <==> old(logReady) || period != old(period)
    {
      if r.value < MIN_LOG_TIMEOUT || r.value > MAX_LOG_TIMEOUT {
        return false;
      }
      if r.value == period {
        return true;
      }
      if !r.stored {
        return false;
      }
      period, logReady := r.value, true;
      return true;
    }

    method Arrive(rs: seq<Request>)
      modifies this`period, this`logReady
      ensures Abs() == WriteAll(old(Abs()), rs)
    {
      var k := 0;
      while k < |rs|
        invariant 0 <= k <= |rs|
        invariant Abs() == WriteAll(old(Abs()), rs[..k])
      {
        assert rs[..k + 1][..k] == rs[..k];
        var _ := SetLoggingPeriod(rs[k]);
        k := k + 1;
      }
      assert rs[..|rs|] == rs;
    }

    method WaitForTimeout(rs: seq<Request>) returns (undisturbed: bool)
      modifies this`period, this`logReady
      ensures (Abs(), undisturbed) == Wait(old(Abs()), rs)
    {
      Arrive(rs);
      undisturbed := true;
      if logReady {
        logReady := false;
        undisturbed := false;
      }
    }

    method ReloadPeriod(rs: seq<Request>)
      modifies this`period, this`logReady, this`remaining
      ensures Abs() == Reload(old(Abs()), rs)
    {
      Arrive(rs);
      remaining := period;
    }

    /** The body of the thread's loop. */
    method TakeTurn(t: Turn)
      modifies this
      ensures (Abs(), work) == (Step(old(Abs()), t).0, Add(old(work), Step(old(Abs()), t).1))
    {
      var undisturbed := WaitForTimeout(t.first);
      if !undisturbed {
        ReloadPeriod(t.beforeReload);
        return;
      }
      var minutes := MIN_LOG_TIMEOUT;
      remaining := Minus(remaining, MIN_LOG_TIMEOUT);
      if remaining < MIN_LOG_TIMEOUT && remaining != 0 {
        var alsoUndisturbed := WaitForTimeout(t.second);
        if alsoUndisturbed {
          minutes := minutes + remaining;
          remaining := 0;
        } else {
          ReloadPeriod(t.beforeSecondReload);
        }
      }
      if remaining == 0 {
        ReloadPeriod(t.beforeLast);
      }
      work := Work(work.minutes + minutes, work.runs + 1);
    }

    /** The thread's life, as far as these turns. */
    method Loop(turns: seq<Turn>)
      requires work == Work(0, 0)
      modifies this
      ensures Abs() == Run(old(Abs()), turns) && work == Done(old(Abs()), turns)
    {
      var k := 0;
      while k < |turns|
        invariant 0 <= k <= |turns|
        invariant Abs() == Run(old(Abs()), turns[..k]) && work == Done(old(Abs()), turns[..k])
      {
        assert turns[..k + 1][..k] == turns[..k];
        TakeTurn(turns[k]);
        k := k + 1;
      }
      assert turns[..|turns|] == turns;
    }
  }

  // ----- what holds at every loop head

  /**
   The countdown never drops below an hour at a loop head; and unless a change is
   waiting to be seen, it counts whole hours down from the period now in force.
   */
  predicate Sound(s: State) {
    && 60 <= s.period
    && 60 <= s.remaining
    && (s.ready || (s.remaining <= s.period && (s.period - s.remaining) % 60 == 0))
  }

  lemma {:induction false} WritesKeep(s: State, rs: seq<Request>)
    ensures WriteAll(s, rs).remaining == s.remaining
    ensures WriteAll(s, rs).period == s.period || (WriteAll(s, rs).ready && WriteAll(s, rs).period >= 60)
    ensures s.ready ==> WriteAll(s, rs).ready
    ensures !WriteAll(s, rs).ready ==> WriteAll(s, rs) == s
  {
    if |rs| > 0 {
      WritesKeep(s, rs[..|rs| - 1]);
    }
  }

  lemma FinishSound(s: State, t: Turn)
    requires 60 <= s.period && !s.ready
    requires s.remaining <= s.period && (s.period - s.remaining) % 60 == 0
    ensures var b := Finish(s, t).0;
            && 60 <= b.period
            && (b.remaining == 0 || Sound(b))
  {
    WritesKeep(s, t.second);
    WritesKeep(Wait(s, t.second).0, t.beforeSecondReload);
  }

  lemma StepSound(s: State, t: Turn)
    requires Sound(s)
    ensures Sound(Step(s, t).0)
  {
    WritesKeep(s, t.first);
    var (a, undisturbed) := Wait(s, t.first);
    if !undisturbed {
      WritesKeep(a, t.beforeReload);
    } else {
      var c := a.(remaining := Minus(a.remaining, 60));
      assert c.remaining == s.remaining - 60;
      FinishSound(c, t);
      WritesKeep(Finish(c, t).0, t.beforeLast);
    }
  }

  /**
   With a stored period of at least an hour, at every loop head whatever is written meanwhile;
   so the unsigned subtraction that follows never wraps.
   */
  lemma {:induction false} LoopHeadSound(s: State, turns: seq<Turn>)
    requires Sound(s)
    ensures Sound(Run(s, turns))
    ensures Minus(Run(s, turns).remaining, 60) as int == Run(s, turns).remaining - 60
  {
    if |turns| > 0 {
      LoopHeadSound(s, turns[..|turns| - 1]);
      StepSound(Run(s, turns[..|turns| - 1]), turns[|turns| - 1]);
    }
  }

  /** A thread started with a shorter stored period does wrap in its first undisturbed turn. */
  lemma ShortPeriodWraps(stored: ULong, t: Turn)
    requires stored < 60
    requires Wait(State(stored, false, stored), t.first).1
    ensures Step(State(stored, false, stored), t).0.remaining > 2880
  {
    WritesKeep(State(stored, false, stored), t.first);
    var r := Minus(stored, 60);
    assert r == stored + ULONG_MODULUS - 60;
  }

  /** A wait is cut short iff a change is waiting to be seen, or one that is in range and stored arrives. */
  lemma {:induction false} WaitCutShortIff(s: State, rs: seq<Request>)
    ensures Wait(s, rs).1 <==> !s.ready && forall r | r in rs :: !(60 <= r.value <= 2880 && r.value != s.period && r.stored)
    ensures Wait(s, rs).0.remaining == s.remaining && !Wait(s, rs).0.ready
  {
    if |rs| > 0 {
      var n := |rs| - 1;
      WaitCutShortIff(s, rs[..n]);
      WritesKeep(s, rs[..n]);
      assert rs == rs[..n] + [rs[n]];
    }
  }

  /** Request k is the last of rs that is in range and stored. */
  predicate LastStored(rs: seq<Request>, k: nat) {
    && k < |rs| && 60 <= rs[k].value <= 2880 && rs[k].stored
    && forall j | k < j < |rs| :: !(60 <= rs[j].value <= 2880 && rs[j].stored)
  }

  /** The period after writes: that of the last one in range that was stored, if there is one. */
  lemma {:induction false} PeriodIsLastStored(s: State, rs: seq<Request>)
    ensures || (WriteAll(s, rs).period == s.period && forall r | r in rs :: !(60 <= r.value <= 2880 && r.stored))
            || (exists k: nat :: LastStored(rs, k) && WriteAll(s, rs).period == rs[k].value)
  {
    if |rs| > 0 {
      var n := |rs| - 1;
      PeriodIsLastStored(s, rs[..n]);
      if 60 <= rs[n].value <= 2880 && rs[n].stored {
        assert LastStored(rs, n);
      } else if k: nat :| LastStored(rs[..n], k) && WriteAll(s, rs[..n]).period == rs[..n][k].value {
        assert LastStored(rs, k);
      } else {
        assert rs == rs[..n] + [rs[n]];
      }
    }
  }

  /** A changed period ends the wait in progress, and the countdown starts over from it without a status run. */
  lemma ChangeRestartsCountdown(s: State, t: Turn)
    requires s.ready || exists r :: r in t.first && 60 <= r.value <= 2880 && r.value != s.period && r.stored
    ensures Step(s, t).0.remaining == Step(s, t).0.period && Step(s, t).1 == Work(0, 0)
    ensures t.beforeReload == [] ==> Step(s, t).0.period == WriteAll(s, t.first).period
  {
    WaitCutShortIff(s, t.first);
  }

  /**
   Behind an undisturbed hour with less than an hour left, a change ends the second wait: that hour and its
   status run count, the rest is dropped, and the countdown starts over from the new period.
   */
  lemma ChangeEndsSecondWait(s: State, t: Turn)
    requires !s.ready && 60 < s.remaining < 120
    requires forall r | r in t.first :: !(60 <= r.value <= 2880 && r.value != s.period && r.stored)
    requires exists r :: r in t.second && 60 <= r.value <= 2880 && r.value != s.period && r.stored
    ensures Step(s, t).1 == Work(60, 1)
    ensures 60 <= Step(s, t).0.period == Step(s, t).0.remaining
  {
    WaitCutShortIff(s, t.first);
    WritesKeep(s, t.first);
    var c := s.(remaining := s.remaining - 60);
    assert Minus(s.remaining, 60) == s.remaining - 60;
    WaitCutShortIff(c, t.second);
    PeriodIsLastStored(c, t.second);
    WritesKeep(Wait(c, t.second).0, t.beforeSecondReload);
  }

  // ----- a period nobody interrupts

  predicate Ignored(p: ULong, rs: seq<Request>) {
    forall r | r in rs :: !(60 <= r.value <= 2880 && r.value != p && r.stored)
  }

  /** No write during the turn takes effect. */
  predicate Quiet(p: ULong, t: Turn) {
    Ignored(p, t.first) && Ignored(p, t.beforeReload) && Ignored(p, t.second) && Ignored(p, t.beforeSecondReload)
    && Ignored(p, t.beforeLast)
  }

  lemma {:induction false} IgnoredChangesNothing(s: State, rs: seq<Request>)
    requires Ignored(s.period, rs)
    ensures WriteAll(s, rs) == s
  {
    if |rs| > 0 {
      IgnoredChangesNothing(s, rs[..|rs| - 1]);
      assert rs[|rs| - 1] in rs;
    }
  }

  lemma QuietTurn(s: State, t: Turn)
    requires !s.ready && 60 <= s.period && Quiet(s.period, t) && 60 <= s.remaining
    ensures var left := s.remaining - 60;
            Step(s, t) ==
            if left < 60 then (s.(remaining := s.period), Work(s.remaining, 1))
            else (s.(remaining := left), Work(60, 1))
  {
    IgnoredChangesNothing(s, t.first);
    var c := s.(remaining := Minus(s.remaining, 60));
    assert c.remaining == s.remaining - 60;
    IgnoredChangesNothing(c, t.second);
    IgnoredChangesNothing(c.(remaining := 0), t.beforeLast);
  }

  /** The period of reload is not reached before its last whole hour. */
  lemma {:induction false} QuietHours(p: ULong, turns: seq<Turn>)
    requires 60 <= p && |turns| < p / 60
    requires forall t | t in turns :: Quiet(p, t)
    ensures Run(State(p, false, p), turns) == State(p, false, p - 60 * |turns|)
    ensures Done(State(p, false, p), turns) == Work(60 * |turns|, |turns|)
  {
    if |turns| > 0 {
      var n := |turns| - 1;
      QuietHours(p, turns[..n]);
      QuietTurn(State(p, false, p - 60 * n), turns[n]);
    }
  }

  /** From one reload to the next the waits add up to exactly the period, with a status run for every whole hour. */
  lemma QuietPeriod(p: ULong, turns: seq<Turn>)
    requires 60 <= p && |turns| == p / 60
    requires forall t | t in turns :: Quiet(p, t)
    ensures Run(State(p, false, p), turns) == State(p, false, p)
    ensures Done(State(p, false, p), turns) == Work(p, p / 60)
  {
    var n := |turns| - 1;
    QuietHours(p, turns[..n]);
    QuietTurn(State(p, false, p - 60 * n), turns[n]);
  }
}
