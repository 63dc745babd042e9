/**
 Following the bridge mode of the device: switching it off enables the agent's
 scripts, switching it on disables them, and a failed switch is tried again.
 */
module BridgeMode {
  const OFF: char := '0'

  /** The value for "on" depends on the product. */
  datatype Product = Xf3 | Other

  function On(p: Product): (c: char)
    ensures c != OFF
  {
    if p.Xf3? then '3' else '2'
  }

  datatype Command = Enable | Disable

  /** A bridge_mode notification: its string, and whether a script started for it exits with zero. */
  datatype Event = Event(val: string, scriptOk: bool)

  datatype Attempt = Attempt(command: Command, ok: bool)

  /** prevBridgeMode holds at most one character; it starts out empty. */
  datatype State = State(prev: string, attempts: seq<Attempt>)

  const START: State := State("", [])

  predicate Valid(val: string) {
    |val| == 1
  }

  /** The command a value calls for, if any. */
  function Wanted(p: Product, val: string): seq<Command> {
    if val == [OFF] then [Enable] else if val == [On(p)] then [Disable] else []
  }

  /** What an event makes the handler try. */
  function Tries(p: Product, s: State, e: Event): seq<Command> {
    if Valid(e.val) && e.val != s.prev then Wanted(p, e.val) else []
  }

  function Step(p: Product, s: State, e: Event): State {
    if !Valid(e.val) || e.val == s.prev then s
    else if Wanted(p, e.val) == [] then s.(prev := e.val)
    else State(if e.scriptOk then e.val else s.prev, s.attempts + [Attempt(Wanted(p, e.val)[0], e.scriptOk)])
  }

  function Run(p: Product, events: seq<Event>): State {
    if |events| == 0 then START else Step(p, Run(p, events[..|events| - 1]), events[|events| - 1])
  }

  class Handler {
    const product: Product
    var prevBridgeMode: string
    var attempts: seq<Attempt>

    constructor (p: Product)
      ensures product == p && State(prevBridgeMode, attempts) == START
    {
      product, prevBridgeMode, attempts := p, "", [];
    }

    method HandleNotification(e: Event)
      modifies this
      ensures State(prevBridgeMode, attempts) == Step(product, State(old(prevBridgeMode), old(attempts)), e)
      ensures e.val == "0" && old(prevBridgeMode) != "0" ==> attempts == old(attempts) + [Attempt(Enable, e.scriptOk)]
      ensures e.val == (if product.Xf3? then "3" else "2") && old(prevBridgeMode) != e.val ==>
                attempts == old(attempts) + [Attempt(Disable, e.scriptOk)]
      ensures (e.val != "0" && e.val != if product.Xf3? then "3" else "2") || old(prevBridgeMode) == e.val ==>
                attempts == old(attempts)
      ensures prevBridgeMode == if |e.val| == 1 && (e.scriptOk || attempts == old(attempts)) then e.val else old(prevBridgeMode)
    {
      var updatePrevMode := false;
      if |e.val| == 0 || |e.val| > 1 {
        return;
      }
      if prevBridgeMode == e.val {
        return;
      }
      if e.val[0] == OFF {
        attempts := attempts + [Attempt(Enable, e.scriptOk)];
        if e.scriptOk {
          updatePrevMode := true;
        }
      } else if e.val[0] == On(product) {
        attempts := attempts + [Attempt(Disable, e.scriptOk)];
        if e.scriptOk {
          updatePrevMode := true;
        }
      } else {
        updatePrevMode := true;
      }
      if updatePrevMode {
        prevBridgeMode := e.val;
      }
      assert e.val == [e.val[0]];
    }

    method HandleAll(events: seq<Event>)
      requires State(prevBridgeMode, attempts) == START
      modifies this
      ensures State(prevBridgeMode, attempts) == Run(product, events)
    {
      var k := 0;
      while k < |events|
        invariant 0 <= k <= |events|
        invariant State(prevBridgeMode, attempts) == Run(product, events[..k])
      {
        assert events[..k + 1][..k] == events[..k];
        HandleNotification(events[k]);
        k := k + 1;
      }
      assert events[..|events|] == events;
    }
  }

  // ----- the recorded mode is the one in force

  /** The commands that succeeded, in order. */
  function Succeeded(attempts: seq<Attempt>): seq<Command> {
    if |attempts| == 0 then []
    else
      var a := attempts[|attempts| - 1];
      Succeeded(attempts[..|attempts| - 1]) + (if a.ok then [a.command] else [])
  }

  lemma SucceededNext(attempts: seq<Attempt>, a: Attempt)
    ensures Succeeded(attempts + [a]) == Succeeded(attempts) + (if a.ok then [a.command] else [])
  {
  }

  lemma {:induction false} RecordedWantedInForce(p: Product, events: seq<Event>)
    ensures var s := Run(p, events);
            Wanted(p, s.prev) != [] ==>
              Succeeded(s.attempts) != [] && [Succeeded(s.attempts)[|Succeeded(s.attempts)| - 1]] == Wanted(p, s.prev)
  {
    if |events| > 0 {
      var before, e := events[..|events| - 1], events[|events| - 1];
      RecordedWantedInForce(p, before);
      if Tries(p, Run(p, before), e) != [] {
        SucceededNext(Run(p, before).attempts, Attempt(Wanted(p, e.val)[0], e.scriptOk));
      }
    }
  }

  /** While "0" is recorded, the last command that succeeded was to enable; while the on value is, to disable. */
  lemma RecordedModeInForce(p: Product, events: seq<Event>)
    ensures var s := Run(p, events);
            var done := Succeeded(s.attempts);
            && (s.prev == "0" ==> done != [] && done[|done| - 1] == Enable)
            && (s.prev == (if p.Xf3? then "3" else "2") ==> done != [] && done[|done| - 1] == Disable)
  {
    RecordedWantedInForce(p, events);
  }

  // ----- when every script succeeds

  /** The values of the well-formed events. */
  function ValidValues(events: seq<Event>): seq<string> {
    if |events| == 0 then []
    else
      var e := events[|events| - 1];
      ValidValues(events[..|events| - 1]) + (if Valid(e.val) then [e.val] else [])
  }

  /** Drops every value equal to the one right before it. */
  function Dedup(vals: seq<string>): seq<string> {
    if |vals| == 0 then []
    else
      var n := |vals| - 1;
      if n > 0 && vals[n - 1] == vals[n] then Dedup(vals[..n]) else Dedup(vals[..n]) + [vals[n]]
  }

  /** The value differs from the one right before it. */
  predicate ChangesAt(vals: seq<string>, i: nat)
    requires i < |vals|
  {
    i == 0 || vals[i - 1] != vals[i]
  }

  /** As many values are left as differ from the one right before them. */
  lemma {:induction false} DedupCountsChanges(vals: seq<string>)
    ensures |Dedup(vals)| == |set i: nat | i < |vals| && ChangesAt(vals, i)|
  {
    if |vals| > 0 {
      var n := |vals| - 1;
      var older := vals[..n];
      DedupCountsChanges(older);
      var before := set i: nat | i < n && ChangesAt(older, i);
      assert forall i: nat | i < n :: ChangesAt(vals, i) == ChangesAt(older, i);
      assert (set i: nat | i < n + 1 && ChangesAt(vals, i)) == if ChangesAt(vals, n) then before + {n} else before;
    }
  }

  /** What is left changes all the way, up to the value that came last. */
  lemma {:induction false} DedupKeepsChanges(vals: seq<string>)
    ensures vals != [] ==> Dedup(vals) != [] && Dedup(vals)[|Dedup(vals)| - 1] == vals[|vals| - 1]
    ensures forall i: nat | i < |Dedup(vals)| :: ChangesAt(Dedup(vals), i)
  {
    if |vals| > 0 {
      var older := vals[..|vals| - 1];
      DedupKeepsChanges(older);
      forall i: nat | i < |Dedup(vals)|
        ensures ChangesAt(Dedup(vals), i)
      {
        assert i < |Dedup(older)| ==> ChangesAt(Dedup(older), i);
      }
    }
  }

  lemma {:induction false} DedupPrefix(vals: seq<string>, m: nat, n: nat)
    requires m <= n <= |vals|
    ensures Dedup(vals[..m]) <= Dedup(vals[..n])
  {
    if m < n {
      DedupPrefix(vals, m, n - 1);
      assert vals[..n][..n - 1] == vals[..n - 1];
    }
  }

  /** A value that differs from the one before it is kept, behind as many as differed before it. */
  lemma DedupAt(vals: seq<string>, i: nat)
    requires i < |vals| && (i == 0 || vals[i - 1] != vals[i])
    ensures var at := |set j: nat | j < i && ChangesAt(vals, j)|;
            at < |Dedup(vals)| && Dedup(vals)[at] == vals[i]
  {
    var older := vals[..i];
    DedupCountsChanges(older);
    assert (set j: nat | j < |older| && ChangesAt(older, j)) == set j: nat | j < i && ChangesAt(vals, j);
    assert vals[..i + 1][..i] == older;
    DedupPrefix(vals, i + 1, |vals|);
    assert vals[..|vals|] == vals;
  }

  function Image(p: Product, vals: seq<string>): seq<Command> {
    if |vals| == 0 then [] else Image(p, vals[..|vals| - 1]) + Wanted(p, vals[|vals| - 1])
  }

  function Commands(attempts: seq<Attempt>): seq<Command> {
    seq(|attempts|, i requires 0 <= i < |attempts| => attempts[i].command)
  }

  lemma DedupNext(p: Product, vals: seq<string>, v: string)
    ensures Image(p, Dedup(vals + [v])) ==
            Image(p, Dedup(vals)) + (if vals != [] && vals[|vals| - 1] == v then [] else Wanted(p, v))
  {
  }

  lemma StepTries(p: Product, s: State, e: Event)
    ensures Commands(Step(p, s, e).attempts) == Commands(s.attempts) + Tries(p, s, e)
    ensures e.scriptOk && Valid(e.val) ==> Step(p, s, e).prev == e.val
  {
  }

  lemma {:induction false} CommandsAreTheImage(p: Product, events: seq<Event>)
    requires forall e | e in events :: e.scriptOk
    ensures var s, vals := Run(p, events), ValidValues(events);
            && Commands(s.attempts) == Image(p, Dedup(vals))
            && s.prev == if vals == [] then "" else vals[|vals| - 1]
  {
    if |events| > 0 {
      var before, e := events[..|events| - 1], events[|events| - 1];
      CommandsAreTheImage(p, before);
      var s, vals := Run(p, before), ValidValues(before);
      ValidValuesAreValid(before);
      StepTries(p, s, e);
      if Valid(e.val) {
        DedupNext(p, vals, e.val);
      } else {
        assert vals + [] == vals;
      }
    }
  }

  /** The values that call for a command, in order. */
  function Modes(p: Product, vals: seq<string>): seq<string> {
    if |vals| == 0 then []
    else
      var v := vals[|vals| - 1];
      Modes(p, vals[..|vals| - 1]) + (if v == "0" || v == (if p.Xf3? then "3" else "2") then [v] else [])
  }

  lemma {:induction false} ImageOfModes(p: Product, vals: seq<string>)
    ensures |Image(p, vals)| == |Modes(p, vals)|
    ensures forall i | 0 <= i < |Modes(p, vals)| ::
              && Modes(p, vals)[i] == (if Image(p, vals)[i] == Enable then "0" else if p.Xf3? then "3" else "2")
  {
    if |vals| > 0 {
      ImageOfModes(p, vals[..|vals| - 1]);
    }
  }

  /**
   Then there is one command for every "0" and every on value among the valid values with
   consecutive duplicates removed, in order: to enable for "0", to disable for the on value.
   */
  lemma CommandsFollowTheMode(p: Product, events: seq<Event>)
    requires forall e | e in events :: e.scriptOk
    ensures var s, modes := Run(p, events), Modes(p, Dedup(ValidValues(events)));
            && |s.attempts| == |modes|
            && forall i | 0 <= i < |modes| ::
                 && (s.attempts[i].command == Enable <==> modes[i] == "0")
                 && (s.attempts[i].command == Disable <==> modes[i] == if p.Xf3? then "3" else "2")
  {
    CommandsAreTheImage(p, events);
    ImageOfModes(p, Dedup(ValidValues(events)));
    var s := Run(p, events);
    forall i | 0 <= i < |s.attempts|
      ensures s.attempts[i].command == Commands(s.attempts)[i]
    {
    }
  }

  lemma {:induction false} ValidValuesAreValid(events: seq<Event>)
    ensures forall v | v in ValidValues(events) :: Valid(v)
  {
    if |events| > 0 {
      ValidValuesAreValid(events[..|events| - 1]);
    }
  }

  // ----- retry

  /** Event k makes the handler run a script, and the script fails. */
  predicate FailsAt(p: Product, events: seq<Event>, k: nat) {
    k < |events| && Tries(p, Run(p, events[..k]), events[k]) != [] && !events[k].scriptOk
  }

  lemma {:induction false} NotRecordedMeanwhile(p: Product, events: seq<Event>, k: nat, j: nat)
    requires FailsAt(p, events, k) && k < j <= |events|
    requires forall i | k < i < j :: events[i].val != events[k].val
    ensures Run(p, events[..j]).prev != events[k].val
    decreases j
  {
    assert events[..j][..j - 1] == events[..j - 1];
    if j > k + 1 {
      NotRecordedMeanwhile(p, events, k, j - 1);
    }
  }

  /** A failed command is always tried again by the next event with the same value. */
  lemma FailureIsRetried(p: Product, events: seq<Event>, k: nat, j: nat)
    requires FailsAt(p, events, k) && k < j < |events|
    requires events[j].val == events[k].val && forall i | k < i < j :: events[i].val != events[k].val
    ensures Tries(p, Run(p, events[..j]), events[j]) == Tries(p, Run(p, events[..k]), events[k])
  {
    NotRecordedMeanwhile(p, events, k, j);
  }
}
