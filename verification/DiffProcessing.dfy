/**
 The consumer processing a diff document: it updates its maps in place, stops L1
 collections of leaving stations, and emits TLVs as far as the comms allow.
 */
module DiffProcessing {
  import opened Notify
  import opened AssociatedDevices
  import opened InterfaceTable
  import opened StationEvent
  import opened DiffWork

  /** One call of cujoagent_emit_event_tlv. */
  datatype Attempt = Attempt(tag: Tag, dev: Client, stations: seq<Station>)

  datatype EmitResult = Sent | NoMemory | HandoffFailed

  /** Results of foreign calls: the k-th emit, and whether the k-th scan finds a collector. */
  datatype Env = Env(emit: nat -> EmitResult, collecting: nat -> bool)

  /** All the TLVs a device can cause, in order. */
  function Full(dev: Client, done: bool, stations: seq<Station>): seq<Attempt> {
    var updates := [Attempt(StationUpdate, dev, stations), Attempt(RadioUpdate, dev, [])];
    if done then [Attempt(L1CollectionDone, dev, [])] + updates else updates
  }

  /** comms_ready after the emits first, first + 1, ... of n attempts, if it was before: no handoff failed. */
  ghost predicate ReadyAfter(env: Env, before: bool, first: nat, n: nat) {
    before && forall k: nat | first <= k < first + n :: env.emit(k) != HandoffFailed
  }

  /**
   What emitting full from emit number first on comes to: nothing without comms_ready before,
   else everything up to and including the first TLV that was not sent.
   */
  ghost predicate Emission(env: Env, first: nat, full: seq<Attempt>, seg: seq<Attempt>, before: bool) {
    && seg <= full
    && (seg == [] <==> !before)
    && (forall k: nat | first <= k < first + |seg| - 1 :: env.emit(k) == Sent)
    && (seg != [] && seg != full ==> env.emit(first + |seg| - 1) != Sent)
  }

  /** The updates behind a DONE that was sent, or behind none. */
  lemma Joined(env: Env, first: nat, dev: Client, done: bool, stations: seq<Station>, seg: seq<Attempt>, rest: seq<Attempt>,
               before: bool)
    requires Emission(env, first + |seg|, Full(dev, false, stations), rest, before)
    requires if done then seg == [Attempt(L1CollectionDone, dev, [])] && env.emit(first) == Sent && before else seg == []
    ensures Emission(env, first, Full(dev, done, stations), seg + rest, before)
    ensures ReadyAfter(env, before, first, |seg + rest|) == ReadyAfter(env, before, first + |seg|, |rest|)
  {
    assert forall k: nat | first <= k < first + |seg + rest| - 1 :: env.emit(k) == Sent;
    assert !done ==> seg + rest == rest;
  }

  /** Nothing behind a DONE that was not sent, or that comms_ready held back. */
  lemma CutShort(env: Env, first: nat, dev: Client, stations: seq<Station>, seg: seq<Attempt>, before: bool)
    requires seg == if before then [Attempt(L1CollectionDone, dev, [])] else []
    requires before ==> env.emit(first) != Sent
    ensures Emission(env, first, Full(dev, true, stations), seg, before)
    ensures ReadyAfter(env, before, first, |seg|) == (before && env.emit(first) != HandoffFailed)
  {
  }

  /**
   TLV i is in order, by tag, emit number and device: a RadioUpdate comes directly behind a StationUpdate of
   its device that was sent, and whenever one was; behind an L1CollectionDone that was sent comes the
   StationUpdate of its device.
   */
  ghost predicate OrderedTlv(env: Env, first: nat, tlvs: seq<Attempt>, i: nat) {
    && i < |tlvs|
    && match tlvs[i].tag
       case RadioUpdate =>
         i > 0 && env.emit(first + i - 1) == Sent && tlvs[i - 1].tag == StationUpdate && tlvs[i - 1].dev == tlvs[i].dev
       case StationUpdate =>
         env.emit(first + i) == Sent ==> i + 1 < |tlvs| && tlvs[i + 1].tag == RadioUpdate && tlvs[i + 1].dev == tlvs[i].dev
       case L1CollectionDone =>
         env.emit(first + i) == Sent ==> i + 1 < |tlvs| && tlvs[i + 1].tag == StationUpdate && tlvs[i + 1].dev == tlvs[i].dev
       case _ => false
  }

  ghost predicate Ordered(env: Env, first: nat, tlvs: seq<Attempt>) {
    forall i: nat | i < |tlvs| :: OrderedTlv(env, first, tlvs, i)
  }

  lemma EmissionOrdered(env: Env, first: nat, dev: Client, done: bool, stations: seq<Station>, seg: seq<Attempt>, before: bool)
    requires Emission(env, first, Full(dev, done, stations), seg, before)
    ensures Ordered(env, first, seg)
  {
    var full := Full(dev, done, stations);
    assert seg == full[..|seg|];
  }

  lemma OrderedConcat(env: Env, first: nat, a: seq<Attempt>, b: seq<Attempt>)
    requires Ordered(env, first, a) && Ordered(env, first + |a|, b)
    ensures Ordered(env, first, a + b)
  {
    forall i: nat | i < |a + b|
      ensures OrderedTlv(env, first, a + b, i)
    {
      if i < |a| {
        assert OrderedTlv(env, first, a, i);
      } else {
        assert OrderedTlv(env, first + |a|, b, i - |a|);
      }
    }
  }

  /** The attempts after one device, by index and tag. */
  lemma DeviceTlvs(env: Env, before: seq<Attempt>, dev: Client, done: bool, stations: seq<Station>, seg: seq<Attempt>, ready: bool)
    requires Emission(env, |before|, Full(dev, done, stations), seg, ready)
    ensures var n, all := |before|, before + seg;
            && (|all| > n <==> ready)
            && (forall i | n <= i < |all| :: all[i].dev == dev)
            && (ready ==> all[n].tag == if done then L1CollectionDone else StationUpdate)
            && (forall i: nat | n <= i < |all| - 1 ::
                  && env.emit(i) == Sent && all[i].tag != RadioUpdate
                  && all[i + 1].tag == if all[i].tag == L1CollectionDone then StationUpdate else RadioUpdate)
            && (forall i: nat | n <= i < |all| && all[i].tag != RadioUpdate && env.emit(i) == Sent :: i + 1 < |all|)
            && (forall i | n <= i < |all| && all[i].tag == StationUpdate :: all[i].stations == stations)
  {
    var n, full := |before|, Full(dev, done, stations);
    forall i: nat | n <= i < n + |seg|
      ensures (before + seg)[i] == full[i - n]
    {
      assert seg == full[..|seg|];
    }
  }

  /** The consumer's own view of the platform: interface map, subscribed VAPs, radio count. */
  datatype Platform = Platform(table: Table, subs: seq<nat>, radios: nat)

  /** Where the consumer stands: its maps, the emits and table scans made so far, comms_ready. */
  datatype Point = Point(maps: DeviceMaps, emits: nat, scans: nat, ready: bool)

  /** What one device emits, its map updated: DONE only for a leaving device whose collector was found. */
  ghost predicate Segment(env: Env, p: Platform, at: Point, item: Item, seg: seq<Attempt>) {
    match item
    case Create(_) => seg == []
    case Device(_, dev) =>
      var stations := Stations(p.table, Apply(at.maps, item), p.subs, p.radios);
      Emission(env, at.emits, Full(dev, dev.state == Disconnected && env.collecting(at.scans), stations), seg, at.ready)
  }

  function Flatten(segs: seq<seq<Attempt>>): seq<Attempt> {
    if |segs| == 0 then [] else Flatten(segs[..|segs| - 1]) + segs[|segs| - 1]
  }

  /** Every leaving device is looked up in the table of collections once. */
  function Scans(items: seq<Item>): nat {
    if |items| == 0 then 0
    else Scans(items[..|items| - 1]) + (if items[|items| - 1].Device? && items[|items| - 1].dev.state == Disconnected then 1 else 0)
  }

  /** Where the consumer stands after items with their segments. */
  ghost function Later(env: Env, at: Point, items: seq<Item>, segs: seq<seq<Attempt>>): Point {
    Point(ApplyAll(at.maps, items), at.emits + |Flatten(segs)|, at.scans + Scans(items),
          ReadyAfter(env, at.ready, at.emits, |Flatten(segs)|))
  }

  /** Item k of a pass emitted exactly what it does from where the consumer stood. */
  ghost predicate SegmentAt(env: Env, p: Platform, at: Point, items: seq<Item>, segs: seq<seq<Attempt>>, k: nat) {
    k < |items| && k < |segs| && Segment(env, p, Later(env, at, items[..k], segs[..k]), items[k], segs[k])
  }

  /** A pass over items that started at a point: one segment of TLVs for each. */
  ghost predicate Trail(env: Env, p: Platform, at: Point, items: seq<Item>, segs: seq<seq<Attempt>>) {
    |segs| == |items| && forall k: nat | k < |items| :: SegmentAt(env, p, at, items, segs, k)
  }

  lemma SegmentKept(env: Env, p: Platform, at: Point, items: seq<Item>, segs: seq<seq<Attempt>>, k: nat, item: Item, seg: seq<Attempt>)
    requires |segs| == |items| && SegmentAt(env, p, at, items, segs, k)
    ensures SegmentAt(env, p, at, items + [item], segs + [seg], k)
  {
    assert (items + [item])[..k] == items[..k] && (segs + [seg])[..k] == segs[..k];
    assert (items + [item])[k] == items[k] && (segs + [seg])[k] == segs[k];
  }

  lemma SegmentAdded(env: Env, p: Platform, at: Point, items: seq<Item>, segs: seq<seq<Attempt>>, item: Item, seg: seq<Attempt>)
    requires |segs| == |items| && Segment(env, p, Later(env, at, items, segs), item, seg)
    ensures SegmentAt(env, p, at, items + [item], segs + [seg], |items|)
  {
    assert (items + [item])[..|items|] == items && (segs + [seg])[..|items|] == segs;
  }

  /** From where the consumer stands, one item with its segment. */
  ghost function Next(env: Env, at: Point, item: Item, seg: seq<Attempt>): Point {
    Point(Apply(at.maps, item), at.emits + |seg|,
          at.scans + (if item.Device? && item.dev.state == Disconnected then 1 else 0),
          ReadyAfter(env, at.ready, at.emits, |seg|))
  }

  lemma ReadyTwice(env: Env, before: bool, first: nat, n: nat, m: nat)
    ensures ReadyAfter(env, before, first, n + m) == ReadyAfter(env, ReadyAfter(env, before, first, n), first + n, m)
  {
  }

  lemma LaterNext(env: Env, at: Point, items: seq<Item>, segs: seq<seq<Attempt>>, item: Item, seg: seq<Attempt>)
    ensures Later(env, at, items + [item], segs + [seg]) == Next(env, Later(env, at, items, segs), item, seg)
    ensures Flatten(segs + [seg]) == Flatten(segs) + seg
  {
    ApplyLast(at.maps, items, item);
    assert (items + [item])[..|items|] == items && (segs + [seg])[..|segs|] == segs;
    ReadyTwice(env, at.ready, at.emits, |Flatten(segs)|, |seg|);
  }

  lemma TrailExtend(env: Env, p: Platform, at: Point, items: seq<Item>, segs: seq<seq<Attempt>>, item: Item, seg: seq<Attempt>)
    requires Trail(env, p, at, items, segs) && Segment(env, p, Later(env, at, items, segs), item, seg)
    ensures Trail(env, p, at, items + [item], segs + [seg])
  {
    SegmentAdded(env, p, at, items, segs, item, seg);
    forall k: nat | k < |items|
      ensures SegmentAt(env, p, at, items + [item], segs + [seg], k)
    {
      SegmentKept(env, p, at, items, segs, k, item, seg);
    }
  }

  lemma MatchingNext(done: seq<Item>, diff: DeviceMap, k: nat, slot: VapSlot, state: ClientState)
    requires k < |diff|
    ensures done + Matching(diff[..k + 1], slot, state) ==
            if diff[k].value.state == state
            then done + Matching(diff[..k], slot, state) + [Device(slot, diff[k].value)]
            else done + Matching(diff[..k], slot, state)
  {
    MatchingStep(diff, k, slot, state);
    Concat3(done, Matching(diff[..k], slot, state), [Device(slot, diff[k].value)]);
  }

  lemma {:induction false} TrailOrdered(env: Env, p: Platform, at: Point, items: seq<Item>, segs: seq<seq<Attempt>>)
    requires Trail(env, p, at, items, segs)
    ensures Ordered(env, at.emits, Flatten(segs))
  {
    if |segs| > 0 {
      var n := |segs| - 1;
      TrailPrefix(env, p, at, items, segs);
      TrailOrdered(env, p, at, items[..n], segs[..n]);
      assert SegmentAt(env, p, at, items, segs, n);
      OrderedAt(env, p, at, items, segs, n);
      OrderedConcat(env, at.emits, Flatten(segs[..n]), segs[n]);
    }
  }

  lemma OrderedAt(env: Env, p: Platform, at: Point, items: seq<Item>, segs: seq<seq<Attempt>>, n: nat)
    requires SegmentAt(env, p, at, items, segs, n)
    ensures Ordered(env, at.emits + |Flatten(segs[..n])|, segs[n])
  {
    SegmentOrdered(env, p, Later(env, at, items[..n], segs[..n]), items[n], segs[n]);
  }

  lemma SegmentOrdered(env: Env, p: Platform, at: Point, item: Item, seg: seq<Attempt>)
    requires Segment(env, p, at, item, seg)
    ensures Ordered(env, at.emits, seg)
  {
    match item
    case Create(_) =>
    case Device(_, dev) =>
      EmissionOrdered(env, at.emits, dev, dev.state == Disconnected && env.collecting(at.scans),
                      Stations(p.table, Apply(at.maps, item), p.subs, p.radios), seg, at.ready);
  }

  class Consumer {
    const p: Platform

    var maps: DeviceMaps
    var commsReady: bool
    var attempts: seq<Attempt>
    var scans: nat

    constructor (platform: Platform)
      ensures p == platform
      ensures maps == map[] && !commsReady && attempts == [] && scans == 0
    {
      p := platform;
      maps, commsReady, attempts, scans := map[], false, [], 0;
    }

    /** cujoagent_emit_event_tlv as far as its caller sees it. */
    method Emit(tag: Tag, dev: Client, stations: seq<Station>, env: Env) returns (ok: bool)
      modifies this`attempts, this`commsReady
      ensures attempts == old(attempts) + [Attempt(tag, dev, stations)]
      ensures ok == (env.emit(|old(attempts)|) == Sent)
      ensures commsReady == (old(commsReady) && env.emit(|old(attempts)|) != HandoffFailed)
    {
      var result := env.emit(|attempts|);
      attempts := attempts + [Attempt(tag, dev, stations)];
      if result == HandoffFailed {
        commsReady := false;
      }
      ok := result == Sent;
    }

    /** A leaving device: its L1 collection, if there is one, is stopped and reported before anything else. */
    method ReportCollection(dev: Client, env: Env) returns (ghost seg: seq<Attempt>, goOn: bool)
      modifies this`attempts, this`commsReady, this`scans
      ensures attempts == old(attempts) + seg
      ensures scans == old(scans) + (if dev.state == Disconnected then 1 else 0)
      ensures if dev.state == Disconnected && env.collecting(old(scans)) then
                && seg == (if old(commsReady) then [Attempt(L1CollectionDone, dev, [])] else [])
                && goOn == (old(commsReady) && env.emit(|old(attempts)|) == Sent)
                && commsReady == (old(commsReady) && env.emit(|old(attempts)|) != HandoffFailed)
              else
                seg == [] && goOn && commsReady == old(commsReady)
    {
      seg, goOn := [], true;
      if dev.state == Disconnected {
        var found := env.collecting(scans);
        scans := scans + 1;
        if found {
          if !commsReady {
            return [], false;
          }
          goOn := Emit(L1CollectionDone, dev, [], env);
          seg := [Attempt(L1CollectionDone, dev, [])];
        }
      }
    }

    /** The TLVs for one device, its map already updated. */
    method EmitForDevice(dev: Client, env: Env) returns (ghost seg: seq<Attempt>)
      modifies this`attempts, this`commsReady, this`scans
      ensures attempts == old(attempts) + seg
      ensures scans == old(scans) + (if dev.state == Disconnected then 1 else 0)
      ensures var done := dev.state == Disconnected && env.collecting(old(scans));
              Emission(env, |old(attempts)|, Full(dev, done, Stations(p.table, maps, p.subs, p.radios)), seg, old(commsReady))
      ensures commsReady == ReadyAfter(env, old(commsReady), |old(attempts)|, |seg|)
    {
      var goOn;
      seg, goOn := ReportCollection(dev, env);
      if !goOn {
        CutShort(env, |old(attempts)|, dev, Stations(p.table, maps, p.subs, p.radios), seg, old(commsReady));
        return;
      }
      ghost var rest := EmitUpdates(dev, env);
      Concat3(old(attempts), seg, rest);
      Joined(env, |old(attempts)|, dev, seg != [], Stations(p.table, maps, p.subs, p.radios), seg, rest, old(commsReady));
      seg := seg + rest;
    }

    /** Where this consumer stands. */
    ghost function Here(): Point
      reads this
    {
      Point(maps, |attempts|, scans, commsReady)
    }

    /** One device of the diff that is in the state the pass is for. */
    method ProcessDevice(slot: VapSlot, dev: Client, env: Env) returns (ghost seg: seq<Attempt>)
      modifies this
      ensures Segment(env, p, old(Here()), Device(slot, dev), seg)
      ensures Here() == Next(env, old(Here()), Device(slot, dev), seg)
      ensures attempts == old(attempts) + seg
      ensures |attempts| > |old(attempts)| <==> old(commsReady)
      ensures forall i | |old(attempts)| <= i < |attempts| :: attempts[i].dev == dev
      ensures old(commsReady) ==>
                attempts[|old(attempts)|].tag ==
                if dev.state == Disconnected && env.collecting(old(scans)) then L1CollectionDone else StationUpdate
      ensures forall i: nat | |old(attempts)| <= i < |attempts| - 1 ::
                && env.emit(i) == Sent && attempts[i].tag != RadioUpdate
                && attempts[i + 1].tag == if attempts[i].tag == L1CollectionDone then StationUpdate else RadioUpdate
      ensures forall i: nat | |old(attempts)| <= i < |attempts| && attempts[i].tag != RadioUpdate && env.emit(i) == Sent ::
                i + 1 < |attempts|
      ensures forall i | |old(attempts)| <= i < |attempts| && attempts[i].tag == StationUpdate ::
                attempts[i].stations == Stations(p.table, maps, p.subs, p.radios)
    {
      maps := maps[slot := Updated(if slot in maps then maps[slot] else [], dev)];
      seg := EmitForDevice(dev, env);
      DeviceTlvs(env, old(attempts), dev, dev.state == Disconnected && env.collecting(old(scans)),
                 Stations(p.table, maps, p.subs, p.radios), seg, old(commsReady));
    }

    /** The station update and, if that was sent, the radio update. */
    method EmitUpdates(dev: Client, env: Env) returns (ghost seg: seq<Attempt>)
      modifies this`attempts, this`commsReady
      ensures attempts == old(attempts) + seg
      ensures Emission(env, |old(attempts)|, Full(dev, false, Stations(p.table, maps, p.subs, p.radios)), seg, old(commsReady))
      ensures commsReady == ReadyAfter(env, old(commsReady), |old(attempts)|, |seg|)
    {
      seg := [];
      if !commsReady {
        return;
      }
      var event := NewStationEvent(p.table, maps, p.subs, p.radios);
      var ok := Emit(StationUpdate, dev, event[..], env);
      seg := [Attempt(StationUpdate, dev, event[..])];
      if !ok {
        return;
      }
      var sent := Emit(RadioUpdate, dev, [], env);
      seg := seg + [Attempt(RadioUpdate, dev, [])];
    }

    /** What a pass has done so far, if it started at a point with these TLVs attempted. */
    ghost predicate Follows(env: Env, at: Point, at0: seq<Attempt>, items: seq<Item>, segs: seq<seq<Attempt>>)
      reads this
    {
      && Trail(env, p, at, items, segs)
      && Here() == Later(env, at, items, segs) && attempts == at0 + Flatten(segs)
    }

    /** hash_map_create for a VAP that has a diff but no map yet. */
    method CreateMap(slot: VapSlot, env: Env, ghost at: Point, ghost at0: seq<Attempt>,
                     ghost items: seq<Item>, ghost segs: seq<seq<Attempt>>)
      requires Follows(env, at, at0, items, segs)
      modifies this`maps
      ensures slot in maps && Follows(env, at, at0, items + [Create(slot)], segs + [[]])
    {
      TrailExtend(env, p, at, items, segs, Create(slot), []);
      LaterNext(env, at, items, segs, Create(slot), []);
      if slot !in maps {
        maps := maps[slot := []];
      } else {
        assert maps[slot := maps[slot]] == maps;
      }
    }

    /** One device, as part of a pass. */
    method ProcessNext(slot: VapSlot, dev: Client, env: Env, ghost at: Point, ghost at0: seq<Attempt>,
                       ghost items: seq<Item>, ghost segs: seq<seq<Attempt>>)
      returns (ghost seg: seq<Attempt>)
      requires Follows(env, at, at0, items, segs)
      modifies this
      ensures Follows(env, at, at0, items + [Device(slot, dev)], segs + [seg])
    {
      seg := ProcessDevice(slot, dev, env);
      TrailExtend(env, p, at, items, segs, Device(slot, dev), seg);
      LaterNext(env, at, items, segs, Device(slot, dev), seg);
      Concat3(at0, Flatten(segs), seg);
    }

    /** The devices of one diff map. */
    method ProcessVap(diff: DeviceMap, slot: VapSlot, state: ClientState, env: Env, ghost at: Point, ghost at0: seq<Attempt>,
                      ghost items: seq<Item>, ghost segs: seq<seq<Attempt>>)
      returns (ghost segs': seq<seq<Attempt>>)
      requires Follows(env, at, at0, items, segs)
      modifies this
      ensures Follows(env, at, at0, items + ([Create(slot)] + Matching(diff, slot, state)), segs')
    {
      CreateMap(slot, env, at, at0, items, segs);
      segs' := segs + [[]];
      ghost var done := items + [Create(slot)];
      var k := 0;
      assert done + Matching(diff[..0], slot, state) == done;
      while k < |diff|
        invariant 0 <= k <= |diff|
        invariant Follows(env, at, at0, done + Matching(diff[..k], slot, state), segs')
      {
        MatchingNext(done, diff, k, slot, state);
        if diff[k].value.state == state {
          ghost var seg := ProcessNext(slot, diff[k].value, env, at, at0, done + Matching(diff[..k], slot, state), segs');
          segs' := segs' + [seg];
        }
        k := k + 1;
      }
      assert diff[..|diff|] == diff;
      Concat3(items, [Create(slot)], Matching(diff, slot, state));
    }

    /** The subscriptions, for one radio. */
    method ProcessRadio(doc: Document, radio: nat, state: ClientState, env: Env, ghost at: Point, ghost at0: seq<Attempt>,
                        ghost items: seq<Item>, ghost segs: seq<seq<Attempt>>)
      returns (ghost segs': seq<seq<Attempt>>)
      requires Follows(env, at, at0, items, segs)
      modifies this
      ensures Follows(env, at, at0, items + WorkOnRadio(doc, p.subs, radio, state), segs')
    {
      segs' := segs;
      var j := 0;
      assert items + [] == items;
      while j < |p.subs|
        invariant 0 <= j <= |p.subs|
        invariant Follows(env, at, at0, items + WorkOnRadio(doc, p.subs[..j], radio, state), segs')
      {
        ghost var done := items + WorkOnRadio(doc, p.subs[..j], radio, state);
        WorkOnRadioStep(doc, p.subs, j, radio, state);
        Concat3(items, WorkOnRadio(doc, p.subs[..j], radio, state), WorkOnVap(doc, p.subs[j], radio, state));
        var slot, _ := FindSlot(doc.table, p.subs[j], radio);
        if slot.Some? && slot.value in doc.diffs {
          segs' := ProcessVap(doc.diffs[slot.value], slot.value, state, env, at, at0, done, segs');
        } else {
          assert done + [] == done;
        }
        j := j + 1;
      }
      assert p.subs[..|p.subs|] == p.subs;
    }

    /** cujoagent_process_client_state: radios, then subscriptions, then the devices of the diff. */
    method ProcessClientState(doc: Document, state: ClientState, env: Env) returns (ghost segs: seq<seq<Attempt>>)
      modifies this
      ensures Follows(env, old(Here()), old(attempts), Work(doc, p.subs, p.radios, state), segs)
      ensures Ordered(env, |old(attempts)|, Flatten(segs))
    {
      segs := [];
      assert attempts + [] == attempts;
      var i := 0;
      while i < p.radios
        invariant 0 <= i <= p.radios
        invariant Follows(env, old(Here()), old(attempts), Work(doc, p.subs, i, state), segs)
      {
        ghost var done := Work(doc, p.subs, i, state);
        segs := ProcessRadio(doc, i, state, env, old(Here()), old(attempts), done, segs);
        i := i + 1;
      }
      TrailOrdered(env, p, old(Here()), Work(doc, p.subs, p.radios, state), segs);
    }

    /** A diff document: disconnects first, so that a station changing bands ends up connected. */
    method ProcessDiff(doc: Document, env: Env) returns (ghost gone: seq<seq<Attempt>>, ghost arrived: seq<seq<Attempt>>)
      modifies this
      ensures maps == AfterDocument(old(maps), doc, p.subs, p.radios)
      ensures attempts == old(attempts) + Flatten(gone) + Flatten(arrived)
      ensures commsReady == ReadyAfter(env, old(commsReady), |old(attempts)|, |Flatten(gone) + Flatten(arrived)|)
      ensures var leaving := Work(doc, p.subs, p.radios, Disconnected);
              && Trail(env, p, old(Here()), leaving, gone)
              && Trail(env, p, Later(env, old(Here()), leaving, gone), Work(doc, p.subs, p.radios, Connected), arrived)
      ensures Ordered(env, |old(attempts)|, Flatten(gone) + Flatten(arrived))
    {
      gone := ProcessClientState(doc, Disconnected, env);
      arrived := ProcessClientState(doc, Connected, env);
      OrderedConcat(env, |old(attempts)|, Flatten(gone), Flatten(arrived));
      ReadyTwice(env, old(commsReady), |old(attempts)|, |Flatten(gone)|, |Flatten(arrived)|);
    }
  }

  // ----- what a trail says about the order of TLVs

  /** All items of a pass are devices in the state of the pass (or map creations). */
  lemma {:induction false} WorkIsOfState(doc: Document, subs: seq<nat>, radios: nat, state: ClientState, item: Item)
    requires item in Work(doc, subs, radios, state)
    ensures item.Device? ==> item.dev.state == state
  {
    if item in Work(doc, subs, radios - 1, state) {
      WorkIsOfState(doc, subs, radios - 1, state, item);
    } else {
      RadioWorkIsOfState(doc, subs, radios - 1, state, item);
    }
  }

  lemma {:induction false} RadioWorkIsOfState(doc: Document, subs: seq<nat>, radio: nat, state: ClientState, item: Item)
    requires item in WorkOnRadio(doc, subs, radio, state)
    ensures item.Device? ==> item.dev.state == state
  {
    var n := |subs| - 1;
    if item in WorkOnRadio(doc, subs[..n], radio, state) {
      RadioWorkIsOfState(doc, subs[..n], radio, state, item);
    } else {
      var slot := SlotOn(doc.table, subs[n], radio).value;
      if item != Create(slot) {
        MatchingIsOfState(doc.diffs[slot], slot, state, item);
      }
    }
  }

  lemma {:induction false} MatchingIsOfState(diff: DeviceMap, slot: VapSlot, state: ClientState, item: Item)
    requires item in Matching(diff, slot, state)
    ensures item.Device? && item.dev.state == state
  {
    var n := |diff| - 1;
    if item in Matching(diff[..n], slot, state) {
      MatchingIsOfState(diff[..n], slot, state, item);
    }
  }

  lemma {:induction false} InFlatten(segs: seq<seq<Attempt>>, a: Attempt) returns (k: nat)
    requires a in Flatten(segs)
    ensures k < |segs| && a in segs[k]
  {
    var n := |segs| - 1;
    if a in segs[n] {
      k := n;
    } else {
      k := InFlatten(segs[..n], a);
      assert segs[..n][k] == segs[k];
    }
  }

  lemma {:induction false} ScansCount(items: seq<Item>)
    ensures Scans(items) == |set k: nat | k < |items| && items[k].Device? && items[k].dev.state == Disconnected|
  {
    if |items| > 0 {
      var n := |items| - 1;
      ScansCount(items[..n]);
      var before := set k: nat | k < n && items[..n][k].Device? && items[..n][k].dev.state == Disconnected;
      assert before == set k: nat | k < n && items[k].Device? && items[k].dev.state == Disconnected;
      assert (set k: nat | k < |items| && items[k].Device? && items[k].dev.state == Disconnected) ==
             if items[n].Device? && items[n].dev.state == Disconnected then before + {n} else before;
    }
  }

  /**
   What each item of a pass starts with: a device emits iff comms_ready was set and no earlier emit of the
   pass failed in the handoff, and its first TLV is DONE iff it is leaving and its collector was found. Its
   look-up is preceded by one for every earlier leaving device.
   */
  lemma TrailHeads(env: Env, p: Platform, at: Point, items: seq<Item>, segs: seq<seq<Attempt>>, k: nat)
    requires Trail(env, p, at, items, segs) && k < |items|
    ensures segs[k] != [] <==>
            items[k].Device? && at.ready && forall m: nat | at.emits <= m < at.emits + |Flatten(segs[..k])| :: env.emit(m) != HandoffFailed
    ensures segs[k] != [] ==>
              var scan := at.scans + |set j: nat | j < k && items[j].Device? && items[j].dev.state == Disconnected|;
              segs[k][0].tag == if items[k].dev.state == Disconnected && env.collecting(scan) then L1CollectionDone else StationUpdate
    ensures forall a | a in segs[k] :: items[k].Device? && a.dev == items[k].dev
  {
    assert SegmentAt(env, p, at, items, segs, k);
    ScansCount(items[..k]);
    assert (set j: nat | j < k && items[j].Device? && items[j].dev.state == Disconnected) ==
           set j: nat | j < |items[..k]| && items[..k][j].Device? && items[..k][j].dev.state == Disconnected;
    SegmentHead(env, p, Later(env, at, items[..k], segs[..k]), items[k], segs[k]);
  }

  lemma SegmentHead(env: Env, p: Platform, at: Point, item: Item, seg: seq<Attempt>)
    requires Segment(env, p, at, item, seg)
    ensures seg != [] <==> item.Device? && at.ready
    ensures seg != [] ==>
              seg[0].tag == if item.dev.state == Disconnected && env.collecting(at.scans) then L1CollectionDone else StationUpdate
    ensures forall a | a in seg :: item.Device? && a.dev == item.dev
  {
  }

  /** Every TLV of a pass is about a device in the state of the pass; DONE only about a leaving one whose collector was found. */
  lemma TrailIsOfState(env: Env, doc: Document, p: Platform, state: ClientState, at: Point, segs: seq<seq<Attempt>>, a: Attempt)
    requires Trail(env, p, at, Work(doc, p.subs, p.radios, state), segs)
    requires a in Flatten(segs)
    ensures a.dev.state == state
    ensures a.tag == L1CollectionDone ==>
              state == Disconnected && exists scan :: at.scans <= scan < at.scans + Scans(Work(doc, p.subs, p.radios, state)) && env.collecting(scan)
  {
    var items := Work(doc, p.subs, p.radios, state);
    var k := InFlatten(segs, a);
    assert SegmentAt(env, p, at, items, segs, k);
    WorkIsOfState(doc, p.subs, p.radios, state, items[k]);
    SegmentIsOfDevice(env, p, Later(env, at, items[..k], segs[..k]), items[k], segs[k], a);
    if a.tag == L1CollectionDone {
      ScansBefore(items, k);
    }
  }

  lemma SegmentIsOfDevice(env: Env, p: Platform, at: Point, item: Item, seg: seq<Attempt>, a: Attempt)
    requires Segment(env, p, at, item, seg) && a in seg
    ensures item.Device? && a.dev == item.dev
    ensures a.tag == L1CollectionDone ==> item.dev.state == Disconnected && env.collecting(at.scans)
  {
  }

  lemma {:induction false} ScansBefore(items: seq<Item>, k: nat)
    requires k < |items|
    ensures items[k].Device? && items[k].dev.state == Disconnected ==> Scans(items[..k]) < Scans(items)
    ensures Scans(items[..k]) <= Scans(items)
  {
    var n := |items| - 1;
    if k < n {
      ScansBefore(items[..n], k);
      assert items[..n][..k] == items[..k] && items[..n][k] == items[k];
    }
  }

  /** A pass attempts nothing without comms_ready, and nothing after a handoff that failed. */
  lemma {:induction false} NothingAfterFailure(env: Env, p: Platform, at: Point, items: seq<Item>, segs: seq<seq<Attempt>>, i: nat)
    requires Trail(env, p, at, items, segs) && i < |Flatten(segs)|
    ensures at.ready
    ensures env.emit(at.emits + i) == HandoffFailed ==> i == |Flatten(segs)| - 1
  {
    var n := |segs| - 1;
    var before := Flatten(segs[..n]);
    assert SegmentAt(env, p, at, items, segs, n);
    if segs[n] == [] {
      TrailPrefix(env, p, at, items, segs);
      NothingAfterFailure(env, p, at, items[..n], segs[..n], i);
    } else {
      assert ReadyAfter(env, at.ready, at.emits, |before|);
    }
  }

  lemma TrailPrefix(env: Env, p: Platform, at: Point, items: seq<Item>, segs: seq<seq<Attempt>>)
    requires Trail(env, p, at, items, segs) && |segs| > 0
    ensures var n := |segs| - 1; Trail(env, p, at, items[..n], segs[..n])
  {
    var n := |segs| - 1;
    forall k: nat | k < n
      ensures SegmentAt(env, p, at, items[..n], segs[..n], k)
    {
      assert SegmentAt(env, p, at, items, segs, k);
      assert items[..n][..k] == items[..k] && segs[..n][..k] == segs[..k];
    }
  }

  /** For a whole document: a failed handoff is its last attempt. */
  lemma DocumentStopsAtFailure(env: Env, doc: Document, p: Platform, at: Point, gone: seq<seq<Attempt>>, arrived: seq<seq<Attempt>>, i: nat)
    requires var leaving := Work(doc, p.subs, p.radios, Disconnected);
             && Trail(env, p, at, leaving, gone)
             && Trail(env, p, Later(env, at, leaving, gone), Work(doc, p.subs, p.radios, Connected), arrived)
    requires i < |Flatten(gone) + Flatten(arrived)|
    ensures at.ready
    ensures env.emit(at.emits + i) == HandoffFailed ==> i == |Flatten(gone) + Flatten(arrived)| - 1
  {
    var leaving := Work(doc, p.subs, p.radios, Disconnected);
    var m := |Flatten(gone)|;
    if Flatten(arrived) != [] {
      NothingAfterFailure(env, p, Later(env, at, leaving, gone), Work(doc, p.subs, p.radios, Connected), arrived, if i < m then 0 else i - m);
    } else {
      NothingAfterFailure(env, p, at, leaving, gone, i);
    }
  }

  /**
   The order of a whole document's TLVs: each RadioUpdate directly behind a StationUpdate of its device that
   was sent, each such StationUpdate with its RadioUpdate, each L1CollectionDone that was sent with its
   device's StationUpdate.
   */
  lemma DocumentOrder(env: Env, doc: Document, p: Platform, at: Point, gone: seq<seq<Attempt>>, arrived: seq<seq<Attempt>>, i: nat)
    requires var leaving := Work(doc, p.subs, p.radios, Disconnected);
             && Trail(env, p, at, leaving, gone)
             && Trail(env, p, Later(env, at, leaving, gone), Work(doc, p.subs, p.radios, Connected), arrived)
    requires i < |Flatten(gone) + Flatten(arrived)|
    ensures var tlvs := Flatten(gone) + Flatten(arrived);
            match tlvs[i].tag
            case RadioUpdate =>
              i > 0 && env.emit(at.emits + i - 1) == Sent && tlvs[i - 1].tag == StationUpdate && tlvs[i - 1].dev == tlvs[i].dev
            case StationUpdate =>
              env.emit(at.emits + i) == Sent ==>
                i + 1 < |tlvs| && tlvs[i + 1].tag == RadioUpdate && tlvs[i + 1].dev == tlvs[i].dev
            case L1CollectionDone =>
              env.emit(at.emits + i) == Sent ==>
                i + 1 < |tlvs| && tlvs[i + 1].tag == StationUpdate && tlvs[i + 1].dev == tlvs[i].dev
            case _ => false
  {
    var leaving := Work(doc, p.subs, p.radios, Disconnected);
    BothOrdered(env, p, at, leaving, gone, Work(doc, p.subs, p.radios, Connected), arrived);
    assert OrderedTlv(env, at.emits, Flatten(gone) + Flatten(arrived), i);
  }

  lemma BothOrdered(env: Env, p: Platform, at: Point, items: seq<Item>, segs: seq<seq<Attempt>>, items': seq<Item>, segs': seq<seq<Attempt>>)
    requires Trail(env, p, at, items, segs) && Trail(env, p, Later(env, at, items, segs), items', segs')
    ensures Ordered(env, at.emits, Flatten(segs) + Flatten(segs'))
  {
    TrailOrdered(env, p, at, items, segs);
    TrailOrdered(env, p, Later(env, at, items, segs), items', segs');
    OrderedConcat(env, at.emits, Flatten(segs), Flatten(segs'));
  }

  /** Every TLV about a leaving station comes before every TLV about an arriving one. */
  lemma DisconnectsFirst(env: Env, doc: Document, p: Platform, at: Point, at': Point, gone: seq<seq<Attempt>>, arrived: seq<seq<Attempt>>,
                         i: nat, j: nat)
    requires Trail(env, p, at, Work(doc, p.subs, p.radios, Disconnected), gone)
    requires Trail(env, p, at', Work(doc, p.subs, p.radios, Connected), arrived)
    requires i < j < |Flatten(gone) + Flatten(arrived)|
    ensures var tlvs := Flatten(gone) + Flatten(arrived);
            tlvs[j].dev.state == Disconnected ==> tlvs[i].dev.state == Disconnected
  {
    var tlvs := Flatten(gone) + Flatten(arrived);
    if i < |Flatten(gone)| {
      assert tlvs[i] == Flatten(gone)[i];
      TrailIsOfState(env, doc, p, Disconnected, at, gone, tlvs[i]);
    } else {
      assert tlvs[j] == Flatten(arrived)[j - |Flatten(gone)|];
      TrailIsOfState(env, doc, p, Connected, at', arrived, tlvs[j]);
    }
  }
}
