/**
 Collecting radio temperatures: readings come one at a time, and one data event
 is emitted for a whole round of them.
 */
module Temperature {
  /** The counter of collected readings is an unsigned int. */
  const COUNT_MODULUS: nat := 0x1_0000_0000

  /**
   What the consumer thread processes: a reading, with the state of the comms and
   the outcome of the allocation should this reading complete a round, or an L1 DONE.
   */
  datatype Event = Reading(radio: nat, degrees: nat, ready: bool, memory: bool) | L1Done

  predicate Counts(n: nat, e: Event) {
    e.Reading? && e.radio < n
  }

  /** Number of readings that are in range. */
  function Accepted(n: nat, events: seq<Event>): nat {
    if |events| == 0 then 0
    else Accepted(n, events[..|events| - 1]) + (if Counts(n, events[|events| - 1]) then 1 else 0)
  }

  /** The latest in-range reading of a radio, 0 if it has none. */
  function Latest(n: nat, events: seq<Event>, radio: nat): nat {
    if |events| == 0 then 0
    else
      var e := events[|events| - 1];
      if Counts(n, e) && e.radio == radio then e.degrees else Latest(n, events[..|events| - 1], radio)
  }

  function LatestOfAll(n: nat, events: seq<Event>): (t: seq<nat>) {
    seq(n, i requires 0 <= i < n => Latest(n, events, i))
  }

  /** One event more: an in-range reading replaces the temperature of its radio. */
  lemma LatestNext(n: nat, events: seq<Event>, e: Event)
    ensures LatestOfAll(n, events + [e])
            == if e.Reading? && e.radio < n then LatestOfAll(n, events)[e.radio := e.degrees] else LatestOfAll(n, events)
  {
    assert (events + [e])[..|events|] == events;
  }

  lemma AcceptedNext(n: nat, round: seq<Event>, e: Event)
    ensures Accepted(n, round + [e]) == Accepted(n, round) + (if Counts(n, e) then 1 else 0)
  {
    assert (round + [e])[..|round|] == round;
  }

  /** The events since the last reset, extended by e, complete a round. */
  predicate Full(n: nat, round: seq<Event>, e: Event) {
    Counts(n, e) && Accepted(n, round + [e]) % COUNT_MODULUS == n
  }

  predicate Emits(n: nat, round: seq<Event>, e: Event) {
    Full(n, round, e) && e.ready && e.memory
  }

  /** The completed round is lost for want of memory, and its data and count stay. */
  predicate Starves(n: nat, round: seq<Event>, e: Event) {
    Full(n, round, e) && e.ready && !e.memory
  }

  predicate Resets(n: nat, round: seq<Event>, e: Event) {
    e.L1Done? || (Full(n, round, e) && !Starves(n, round, e))
  }

  /** The events since the last reset, after a whole history. */
  function Round(n: nat, events: seq<Event>): seq<Event> {
    if |events| == 0 then []
    else
      var round, e := Round(n, events[..|events| - 1]), events[|events| - 1];
      if Resets(n, round, e) then [] else round + [e]
  }

  /** What a reading does to the count and the temperatures of a round, and when it ends the round. */
  lemma ReadingNext(n: nat, round: seq<Event>, e: Event)
    requires 0 < n < COUNT_MODULUS && e.Reading?
    ensures var more, count := round + [e], (Accepted(n, round) % COUNT_MODULUS + 1) % COUNT_MODULUS;
            if e.radio < n then
              && LatestOfAll(n, more) == LatestOfAll(n, round)[e.radio := e.degrees]
              && Accepted(n, more) % COUNT_MODULUS == count
              && (Emits(n, round, e) <==> count == n && e.ready && e.memory)
              && (Resets(n, round, e) <==> count == n && (e.memory || !e.ready))
            else
              && LatestOfAll(n, more) == LatestOfAll(n, round)
              && Accepted(n, more) == Accepted(n, round)
              && !Emits(n, round, e) && !Resets(n, round, e)
  {
    LatestNext(n, round, e);
    AcceptedNext(n, round, e);
    OneMore(Accepted(n, round));
  }

  lemma OneMore(count: nat)
    ensures (count % COUNT_MODULUS + 1) % COUNT_MODULUS == (count + 1) % COUNT_MODULUS
  {
  }

  /** The temperatures of all data events of a history. */
  function Emitted(n: nat, events: seq<Event>): seq<seq<nat>> {
    if |events| == 0 then []
    else
      var before, e := events[..|events| - 1], events[|events| - 1];
      Emitted(n, before)
      + (if Emits(n, Round(n, before), e) then [LatestOfAll(n, Round(n, before) + [e])] else [])
  }

  predicate ResetAt(n: nat, events: seq<Event>, k: nat) {
    k < |events| && Resets(n, Round(n, events[..k]), events[k])
  }

  predicate StarvedAt(n: nat, round: seq<Event>, k: nat) {
    k < |round| && Starves(n, round[..k], round[k])
  }

  // ----- the consumer's tcollect_ctx

  class Collection {
    const data: array<nat>
    var collected: nat
    /** The temperatures of every data event passed to the emit function. */
    var emitted: seq<seq<nat>>
    ghost var round: seq<Event>

    ghost predicate Valid()
      reads this, data
    {
      && 0 < data.Length < COUNT_MODULUS
      && collected == Accepted(data.Length, round) % COUNT_MODULUS
      && data[..] == LatestOfAll(data.Length, round)
    }

    /** Set up on subscribing; a platform without radios is refused before this. */
    constructor (radios: nat)
      requires 0 < radios < COUNT_MODULUS
      ensures Valid() && data.Length == radios && fresh(data)
      ensures round == [] && emitted == []
    {
      data := new nat[radios](i => 0);
      collected, emitted, round := 0, [], [];
    }

    method Reset()
      requires 0 < data.Length < COUNT_MODULUS
      modifies this`collected, data
      ensures collected == 0 && forall i | 0 <= i < data.Length :: data[i] == 0
    {
      forall i | 0 <= i < data.Length {
        data[i] := 0;
      }
      collected := 0;
    }

    /** A reading of one of the radios. */
    method Take(radio: nat, degrees: nat, ready: bool, memory: bool)
      requires radio < data.Length < COUNT_MODULUS
      modifies this`collected, this`emitted, data
      ensures var count, temps := (old(collected) + 1) % 0x1_0000_0000, old(data[..])[radio := degrees];
              && emitted == (if count == data.Length && ready && memory then old(emitted) + [temps] else old(emitted))
              && if count == data.Length && (memory || !ready) then
                   collected == 0 && forall i | 0 <= i < data.Length :: data[i] == 0
                 else
                   collected == count && data[..] == temps
    {
      data[radio] := degrees;
      collected := (collected + 1) % COUNT_MODULUS;
      if collected == data.Length {
        if !ready {
          Reset();
          return;
        }
        if !memory {
          return;
        }
        emitted := emitted + [data[..]];
        Reset();
      }
    }

    method Process(e: Event)
      requires Valid()
      modifies this, data
      ensures Valid()
      ensures round == if Resets(data.Length, old(round), e) then [] else old(round) + [e]
      ensures emitted == if Emits(data.Length, old(round), e)
                         then old(emitted) + [LatestOfAll(data.Length, old(round) + [e])]
                         else old(emitted)
      ensures match e
              case L1Done => collected == 0 && (forall i | 0 <= i < data.Length :: data[i] == 0) && emitted == old(emitted)
              case Reading(radio, degrees, ready, memory) =>
                if radio >= data.Length then
                  data[..] == old(data[..]) && collected == old(collected) && emitted == old(emitted)
                else
                  var count, temps := (old(collected) + 1) % 0x1_0000_0000, old(data[..])[radio := degrees];
                  && emitted == (if count == data.Length && ready && memory then old(emitted) + [temps] else old(emitted))
                  && if count == data.Length && (memory || !ready) then
                       collected == 0 && forall i | 0 <= i < data.Length :: data[i] == 0
                     else
                       collected == count && data[..] == temps
    {
      match e
      case L1Done =>
        Reset();
        round := [];
      case Reading(radio, degrees, ready, memory) =>
        ReadingNext(data.Length, round, e);
        if radio < data.Length {
          Take(radio, degrees, ready, memory);
        }
        round := if Resets(data.Length, round, e) then [] else round + [e];
    }

    /** A stretch of the consumer's life: the collection follows the events. */
    method ProcessAll(events: seq<Event>)
      requires Valid() && round == [] && emitted == []
      modifies this, data
      ensures Valid() && round == Round(data.Length, events) && emitted == Emitted(data.Length, events)
    {
      var k := 0;
      while k < |events|
        invariant 0 <= k <= |events|
        invariant Valid() && round == Round(data.Length, events[..k]) && emitted == Emitted(data.Length, events[..k])
      {
        assert events[..k + 1][..k] == events[..k];
        Process(events[k]);
        k := k + 1;
      }
      assert events[..|events|] == events;
    }
  }

  // ----- what a history amounts to

  lemma ResetsStay(n: nat, events: seq<Event>, m: nat)
    requires m <= |events|
    ensures forall k: nat | k < m :: ResetAt(n, events, k) == ResetAt(n, events[..m], k)
  {
    forall k: nat | k < m
      ensures ResetAt(n, events, k) == ResetAt(n, events[..m], k)
    {
      assert events[..m][..k] == events[..k] && events[..m][k] == events[k];
    }
  }

  lemma SuffixNext(events: seq<Event>, start: nat)
    requires start < |events|
    ensures events[..|events| - 1][start..] + [events[|events| - 1]] == events[start..]
  {
  }

  /** The round is the stretch of the history that starts right after the last reset. */
  lemma {:induction false} RoundSinceLastReset(n: nat, events: seq<Event>) returns (start: nat)
    ensures start <= |events| && Round(n, events) == events[start..]
    ensures start > 0 ==> ResetAt(n, events, start - 1)
    ensures forall k: nat | start <= k < |events| :: !ResetAt(n, events, k)
  {
    if |events| == 0 {
      start := 0;
    } else {
      var m := |events| - 1;
      var s := RoundSinceLastReset(n, events[..m]);
      ResetsStay(n, events, m);
      SuffixNext(events, s);
      start := if ResetAt(n, events, m) then m + 1 else s;
    }
  }

  /** Every prefix of an unfinished round is an unfinished round itself, so nothing in it completed one. */
  lemma {:induction false} InsideRound(n: nat, events: seq<Event>, k: nat)
    requires k < |Round(n, events)|
    ensures !Resets(n, Round(n, events)[..k], Round(n, events)[k])
  {
    var m := |events| - 1;
    var round := Round(n, events[..m]);
    assert Round(n, events) == round + [events[m]];
    if k < |round| {
      InsideRound(n, events[..m], k);
      assert Round(n, events)[..k] == round[..k];
    } else {
      assert Round(n, events)[..k] == round;
    }
  }

  lemma {:induction false} AcceptedBelow(n: nat, round: seq<Event>)
    requires 0 < n < COUNT_MODULUS
    requires forall k: nat | k < |round| :: !Full(n, round[..k], round[k])
    ensures Accepted(n, round) < n
  {
    if |round| > 0 {
      var m := |round| - 1;
      forall k: nat | k < m
        ensures !Full(n, round[..m][..k], round[..m][k])
      {
        assert round[..m][..k] == round[..k] && round[..m][k] == round[k];
      }
      AcceptedBelow(n, round[..m]);
      AcceptedNext(n, round[..m], round[m]);
      assert !Full(n, round[..m], round[m]);
      assert round[..m] + [round[m]] == round;
    }
  }

  lemma {:induction false} AcceptedMonotone(n: nat, events: seq<Event>, k: nat)
    requires k <= |events|
    ensures Accepted(n, events[..k]) <= Accepted(n, events)
  {
    if k < |events| {
      AcceptedMonotone(n, events[..|events| - 1], k);
      assert events[..|events| - 1][..k] == events[..k];
    } else {
      assert events[..k] == events;
    }
  }

  /** Between events fewer than n readings are held, unless and only unless an allocation failed in this round. */
  lemma BelowUnlessStarved(n: nat, events: seq<Event>)
    requires 0 < n < COUNT_MODULUS
    ensures Accepted(n, Round(n, events)) < n <==> !exists k: nat :: StarvedAt(n, Round(n, events), k)
  {
    var round := Round(n, events);
    if k: nat :| StarvedAt(n, round, k) {
      AcceptedMonotone(n, round, k + 1);
      assert round[..k + 1] == round[..k] + [round[k]];
    } else {
      forall k: nat | k < |round|
        ensures !Full(n, round[..k], round[k])
      {
        InsideRound(n, events, k);
        assert !StarvedAt(n, round, k);
      }
      AcceptedBelow(n, round);
    }
  }

  /** A data event follows exactly n readings since the last reset if and only if no allocation failed since then. */
  lemma EmitsAfterExactlyN(n: nat, events: seq<Event>, e: Event)
    requires 0 < n < COUNT_MODULUS
    requires Emits(n, Round(n, events), e)
    ensures Accepted(n, Round(n, events) + [e]) == n <==> !exists k: nat :: StarvedAt(n, Round(n, events), k)
  {
    BelowUnlessStarved(n, events);
    AcceptedNext(n, Round(n, events), e);
  }

  /** What is counted are the readings in range. */
  lemma {:induction false} AcceptedAreInRange(n: nat, events: seq<Event>)
    ensures Accepted(n, events) == |set i: nat | i < |events| && events[i].Reading? && events[i].radio < n|
  {
    if |events| > 0 {
      var m := |events| - 1;
      AcceptedAreInRange(n, events[..m]);
      var before := set i: nat | i < m && events[..m][i].Reading? && events[..m][i].radio < n;
      assert before == set i: nat | i < m && events[i].Reading? && events[i].radio < n;
      assert (set i: nat | i < |events| && events[i].Reading? && events[i].radio < n) ==
             if events[m].Reading? && events[m].radio < n then before + {m} else before;
    }
  }

  /**
   When a data event comes: exactly with an in-range reading that brings the count of the round to the
   radio count, with comms ready and memory for it. Such a reading, without comms or with memory, also
   ends the round, as an L1 DONE does; nothing else does.
   */
  lemma EmittedWhen(n: nat, events: seq<Event>, e: Event)
    ensures var round := Round(n, events);
            var full := e.Reading? && e.radio < n && (Accepted(n, round) + 1) % 0x1_0000_0000 == n;
            && |Emitted(n, events + [e])| == |Emitted(n, events)| + (if full && e.ready && e.memory then 1 else 0)
            && Emitted(n, events) <= Emitted(n, events + [e])
            && Round(n, events + [e]) == if e.L1Done? || (full && (e.memory || !e.ready)) then [] else round + [e]
  {
    assert (events + [e])[..|events|] == events;
    AcceptedNext(n, Round(n, events), e);
  }

  /** What it holds: slot i the last in-range reading of radio i since the last reset, this one included, or 0. */
  lemma EmittedWhat(n: nat, events: seq<Event>, e: Event, radio: nat)
    requires |Emitted(n, events + [e])| > |Emitted(n, events)| && radio < n
    ensures var round, all := Round(n, events) + [e], Emitted(n, events + [e]);
            && |all[|all| - 1]| == n
            && ((exists k: nat :: IsLatest(n, round, radio, k) && all[|all| - 1][radio] == round[k].degrees)
                || ((forall k: nat | k < |round| :: !(round[k].Reading? && round[k].radio == radio)) && all[|all| - 1][radio] == 0))
  {
    assert (events + [e])[..|events|] == events;
    LatestIs(n, Round(n, events) + [e], radio);
  }

  lemma {:induction false} AcceptedConcat(n: nat, a: seq<Event>, b: seq<Event>)
    ensures Accepted(n, a + b) == Accepted(n, a) + Accepted(n, b)
  {
    if |b| == 0 {
      assert a + b == a;
    } else {
      AcceptedConcat(n, a, b[..|b| - 1]);
      assert (a + b)[..|a + b| - 1] == a + b[..|b| - 1];
    }
  }

  lemma TurnOfCounter(n: nat, count: nat, more: nat)
    requires n < COUNT_MODULUS && count % COUNT_MODULUS == n && 0 < more < COUNT_MODULUS
    ensures (count + more) % COUNT_MODULUS != n
  {
  }

  /** A count that stood at n meets n again only after a whole turn of the counter. */
  lemma PastFull(n: nat, round: seq<Event>, rest: seq<Event>, e: Event)
    requires n < COUNT_MODULUS && Accepted(n, round) % COUNT_MODULUS == n
    requires Accepted(n, rest + [e]) < COUNT_MODULUS
    ensures !Full(n, round + rest, e)
  {
    if Counts(n, e) {
      AcceptedNext(n, rest, e);
      AcceptedConcat(n, round, rest);
      AcceptedNext(n, round + rest, e);
      TurnOfCounter(n, Accepted(n, round), Accepted(n, rest) + 1);
    }
  }

  lemma NotFullKeepsGoing(n: nat, events: seq<Event>, e: Event)
    requires e.Reading? && !Full(n, Round(n, events), e)
    ensures Round(n, events + [e]) == Round(n, events) + [e]
    ensures Emitted(n, events + [e]) == Emitted(n, events)
  {
  }

  /** After a failed allocation nothing is emitted until an L1 DONE, short of the counter wrapping around. */
  lemma {:induction false} StarvedUntilDone(n: nat, events: seq<Event>, lost: Event, more: seq<Event>)
    requires 0 < n < COUNT_MODULUS
    requires Starves(n, Round(n, events), lost)
    requires forall e | e in more :: e.Reading?
    requires Accepted(n, more) < COUNT_MODULUS
    decreases |more|
    ensures Round(n, events + [lost] + more) == Round(n, events) + [lost] + more
    ensures Emitted(n, events + [lost] + more) == Emitted(n, events)
  {
    if |more| == 0 {
      assert events + [lost] + more == events + [lost] && (events + [lost])[..|events|] == events;
      assert Round(n, events) + [lost] + more == Round(n, events) + [lost];
    } else {
      var rest, e := more[..|more| - 1], more[|more| - 1];
      var round, start := Round(n, events) + [lost], events + [lost];
      assert rest + [e] == more;
      AcceptedNext(n, rest, e);
      StarvedUntilDone(n, events, lost, rest);
      PastFull(n, round, rest, e);
      assert round + rest + [e] == round + more && start + rest + [e] == start + more;
      NotFullKeepsGoing(n, start + rest, e);
    }
  }

  /** One event more: it takes n of the readings held, or none. */
  lemma EventTakesN(n: nat, events: seq<Event>, e: Event)
    requires 0 < n < COUNT_MODULUS
    ensures var held, held' := Accepted(n, Round(n, events)), Accepted(n, Round(n, events + [e]));
            var more, counted := |Emitted(n, events + [e])| - |Emitted(n, events)|, if Counts(n, e) then 1 else 0;
            || (more == 0 && held' <= held + counted)
            || (more == 1 && held' + n <= held + counted)
  {
    assert (events + [e])[..|events|] == events;
    AcceptedNext(n, Round(n, events), e);
  }

  /** Every data event uses up n readings of its own, whatever fails. */
  lemma {:induction false} ReadingsPayForEvents(n: nat, events: seq<Event>)
    requires 0 < n < COUNT_MODULUS
    ensures |Emitted(n, events)| * n + Accepted(n, Round(n, events)) <= Accepted(n, events)
  {
    if |events| > 0 {
      var before, e := events[..|events| - 1], events[|events| - 1];
      assert events == before + [e];
      ReadingsPayForEvents(n, before);
      EventTakesN(n, before, e);
      AcceptedNext(n, before, e);
      OneMoreTime(|Emitted(n, before)|, n);
    }
  }

  lemma OneMoreTime(k: nat, n: nat)
    ensures (k + 1) * n == k * n + n
  {
  }

  lemma {:induction false} LatestIs(n: nat, events: seq<Event>, radio: nat)
    ensures (exists k: nat :: IsLatest(n, events, radio, k) && Latest(n, events, radio) == events[k].degrees)
            || ((forall k: nat | k < |events| :: !(Counts(n, events[k]) && events[k].radio == radio))
                && Latest(n, events, radio) == 0)
  {
    if |events| > 0 {
      var m := |events| - 1;
      if Counts(n, events[m]) && events[m].radio == radio {
        assert IsLatest(n, events, radio, m);
      } else {
        LatestIs(n, events[..m], radio);
        if k: nat :| IsLatest(n, events[..m], radio, k) && Latest(n, events[..m], radio) == events[..m][k].degrees {
          assert IsLatest(n, events, radio, k);
        } else {
          forall k: nat | k < |events|
            ensures !(Counts(n, events[k]) && events[k].radio == radio)
          {
            assert k < m ==> events[..m][k] == events[k];
          }
        }
      }
    }
  }

  /** Event k is the last in-range reading of the radio. */
  ghost predicate IsLatest(n: nat, events: seq<Event>, radio: nat, k: nat) {
    && radio < n && k < |events| && events[k].Reading? && events[k].radio == radio
    && forall j: nat | k < j < |events| :: !(events[j].Reading? && events[j].radio == radio)
  }
}
