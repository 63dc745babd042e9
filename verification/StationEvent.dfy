/**
 The station update event: the clients of every subscribed VAP, counted in one
 pass over radios and subscriptions and written in a second one.
 */
module StationEvent {
  import opened Wrappers
  import opened MacAddress
  import opened AssociatedDevices
  import opened InterfaceTable

  const IF_NAMESIZE: nat := 16

  /** rdk_vap_array[vap] of radios[radio] */
  datatype VapSlot = VapSlot(radio: nat, vap: nat)

  /** The maintained maps; a VAP without a map is absent. */
  type DeviceMaps = map<VapSlot, DeviceMap>

  /** cujo_fpc_assoc_station_info, without the constant operating mode. */
  datatype Station = Station(mac: Mac, ifName: string)

  /** cujoagent_copy_to into a buffer of IF_NAMESIZE bytes. */
  function CopyName(name: string): string {
    if |name| > IF_NAMESIZE - 1 then name[..IF_NAMESIZE - 1] else name
  }

  /** The slot of a subscribed VAP index if it belongs to the radio. */
  function SlotOn(t: Table, sub: nat, radio: nat): Option<VapSlot> {
    match Lookup(t, sub)
    case None => None
    case Some(e) => if e.radio != radio then None else Some(VapSlot(radio, ArrayIndex(t, sub).value))
  }

  /**
   In plain terms: entry p is the first with the subscribed index, it belongs to the radio, and as many
   entries of that radio precede it as the slot's array index says.
   */
  predicate IsSlot(t: Table, sub: nat, radio: nat, slot: VapSlot, p: nat) {
    && p < |t| && t[p].index == sub && (forall q: nat | q < p :: t[q].index != sub)
    && t[p].radio == radio == slot.radio
    && slot.vap == |set q: nat | q < p && t[q].radio == radio|
  }

  lemma SlotOnIs(t: Table, sub: nat, radio: nat, slot: VapSlot, p: nat)
    requires IsSlot(t, sub, radio, slot, p)
    ensures SlotOn(t, sub, radio) == Some(slot) && p == First(t, sub)
  {
    assert p == First(t, sub);
    OnRadioCounts(t, p, radio);
  }

  lemma SlotOnHas(t: Table, sub: nat, radio: nat, slot: VapSlot)
    requires SlotOn(t, sub, radio) == Some(slot)
    ensures IsSlot(t, sub, radio, slot, First(t, sub))
  {
    OnRadioCounts(t, First(t, sub), radio);
  }

  // ----- the list the event is meant to hold

  function Listed(m: DeviceMap, name: string): (s: seq<Station>)
    ensures |s| == |m|
  {
    seq(|m|, k requires 0 <= k < |m| => Station(m[k].value.mac, CopyName(name)))
  }

  function OfVap(t: Table, maps: DeviceMaps, sub: nat, radio: nat): seq<Station> {
    match SlotOn(t, sub, radio)
    case None => []
    case Some(slot) => if slot in maps then Listed(maps[slot], Lookup(t, sub).value.name) else []
  }

  /** Clients of the radio's subscribed VAPs, in subscription order. */
  function OfRadio(t: Table, maps: DeviceMaps, subs: seq<nat>, radio: nat): seq<Station> {
    if |subs| == 0 then []
    else OfRadio(t, maps, subs[..|subs| - 1], radio) + OfVap(t, maps, subs[|subs| - 1], radio)
  }

  /** Clients of all subscribed VAPs, radio by radio. */
  function Stations(t: Table, maps: DeviceMaps, subs: seq<nat>, radios: nat): seq<Station> {
    if radios == 0 then [] else Stations(t, maps, subs, radios - 1) + OfRadio(t, maps, subs, radios - 1)
  }

  /** The two table searches both passes (and diff processing) begin with. */
  method FindSlot(t: Table, sub: nat, radio: nat) returns (slot: Option<VapSlot>, name: string)
    ensures slot == SlotOn(t, sub, radio)
    ensures slot.Some? ==> name == Lookup(t, sub).value.name
  {
    var entry := IfaceProperty(t, sub);
    if entry.None? || entry.value.radio != radio {
      return None, "";
    }
    var r := VapArrayIndex(t, entry.value);
    OnRadioStep(t, First(t, sub), entry.value.radio);
    if r < 0 {
      return None, "";
    }
    return Some(VapSlot(radio, r)), entry.value.name;
  }

  lemma OfRadioStep(t: Table, maps: DeviceMaps, subs: seq<nat>, j: nat, radio: nat)
    requires j < |subs|
    ensures OfRadio(t, maps, subs[..j + 1], radio) == OfRadio(t, maps, subs[..j], radio) + OfVap(t, maps, subs[j], radio)
  {
    assert subs[..j + 1][..j] == subs[..j];
  }

  /** First pass. */
  method CountStations(t: Table, maps: DeviceMaps, subs: seq<nat>, radios: nat) returns (count: nat)
    ensures count == |Stations(t, maps, subs, radios)|
  {
    count := 0;
    var i := 0;
    while i < radios
      invariant 0 <= i <= radios
      invariant count == |Stations(t, maps, subs, i)|
    {
      var j := 0;
      while j < |subs|
        invariant 0 <= j <= |subs|
        invariant count == |Stations(t, maps, subs, i)| + |OfRadio(t, maps, subs[..j], i)|
      {
        OfRadioStep(t, maps, subs, j, i);
        var slot, _ := FindSlot(t, subs[j], i);
        if slot.Some? && slot.value in maps {
          count := count + |maps[slot.value]|;
        }
        j := j + 1;
      }
      assert subs[..|subs|] == subs;
      i := i + 1;
    }
  }

  /** Writes the clients of one map at offset. */
  method FillVap(event: array<Station>, offset: nat, m: DeviceMap, name: string)
    requires offset + |m| <= event.Length
    modifies event
    ensures event[..offset + |m|] == old(event[..offset]) + Listed(m, name)
  {
    var k := 0;
    while k < |m|
      invariant 0 <= k <= |m|
      invariant event[..offset + k] == old(event[..offset]) + Listed(m, name)[..k]
    {
      event[offset + k] := Station(m[k].value.mac, CopyName(name));
      assert event[..offset + k + 1] == event[..offset + k] + [event[offset + k]];
      k := k + 1;
    }
  }

  lemma StationsGrow(t: Table, maps: DeviceMaps, subs: seq<nat>, i: nat, radios: nat)
    requires i <= radios
    ensures |Stations(t, maps, subs, i)| <= |Stations(t, maps, subs, radios)|
  {
  }

  lemma OfRadioGrows(t: Table, maps: DeviceMaps, subs: seq<nat>, j: nat, radio: nat)
    requires j <= |subs|
    ensures |OfRadio(t, maps, subs[..j], radio)| <= |OfRadio(t, maps, subs, radio)|
    decreases |subs| - j
  {
    if j == |subs| {
      assert subs[..j] == subs;
    } else {
      OfRadioStep(t, maps, subs, j, radio);
      OfRadioGrows(t, maps, subs, j + 1, radio);
    }
  }

  /** Second pass, for one subscription. */
  method FillSubscription(t: Table, maps: DeviceMaps, sub: nat, radio: nat, event: array<Station>, start: nat)
    returns (offset: nat)
    requires start + |OfVap(t, maps, sub, radio)| <= event.Length
    modifies event
    ensures offset == start + |OfVap(t, maps, sub, radio)|
    ensures event[..offset] == old(event[..start]) + OfVap(t, maps, sub, radio)
  {
    offset := start;
    var slot, name := FindSlot(t, sub, radio);
    if slot.Some? && slot.value in maps {
      FillVap(event, offset, maps[slot.value], name);
      offset := offset + |maps[slot.value]|;
    }
  }

  lemma Concat3<T>(a: seq<T>, b: seq<T>, c: seq<T>)
    ensures (a + b) + c == a + (b + c)
  {
  }

  /** What the next subscription adds behind what was there before this radio. */
  lemma FillNext(was: seq<Station>, t: Table, maps: DeviceMaps, subs: seq<nat>, j: nat, radio: nat)
    requires j < |subs|
    ensures was + OfRadio(t, maps, subs[..j + 1], radio) ==
            was + OfRadio(t, maps, subs[..j], radio) + OfVap(t, maps, subs[j], radio)
  {
    OfRadioStep(t, maps, subs, j, radio);
    Concat3(was, OfRadio(t, maps, subs[..j], radio), OfVap(t, maps, subs[j], radio));
  }

  /** Second pass, for one radio: everything goes behind what is written already. */
  method FillRadio(t: Table, maps: DeviceMaps, subs: seq<nat>, radio: nat, event: array<Station>, start: nat)
    returns (offset: nat)
    requires start + |OfRadio(t, maps, subs, radio)| <= event.Length
    modifies event
    ensures offset == start + |OfRadio(t, maps, subs, radio)|
    ensures event[..offset] == old(event[..start]) + OfRadio(t, maps, subs, radio)
  {
    offset := start;
    ghost var was := event[..start];
    var j := 0;
    assert was + OfRadio(t, maps, subs[..0], radio) == was;
    while j < |subs|
      invariant 0 <= j <= |subs|
      invariant offset == start + |OfRadio(t, maps, subs[..j], radio)| <= event.Length
      invariant event[..offset] == was + OfRadio(t, maps, subs[..j], radio)
    {
      FillNext(was, t, maps, subs, j, radio);
      OfRadioStep(t, maps, subs, j, radio);
      OfRadioGrows(t, maps, subs, j + 1, radio);
      offset := FillSubscription(t, maps, subs[j], radio, event, offset);
      j := j + 1;
    }
    assert subs[..|subs|] == subs;
  }

  // ----- what the list says

  lemma {:induction false} ListedIfOnVap(t: Table, maps: DeviceMaps, subs: seq<nat>, radio: nat, j: nat, x: Station)
    requires j < |subs| && x in OfVap(t, maps, subs[j], radio)
    ensures x in OfRadio(t, maps, subs, radio)
  {
    var n := |subs| - 1;
    if j < n {
      assert subs[..n][j] == subs[j];
      ListedIfOnVap(t, maps, subs[..n], radio, j, x);
    }
  }

  lemma {:induction false} OnVapIfListed(t: Table, maps: DeviceMaps, subs: seq<nat>, radio: nat, x: Station) returns (j: nat)
    requires x in OfRadio(t, maps, subs, radio)
    ensures j < |subs| && x in OfVap(t, maps, subs[j], radio)
  {
    var n := |subs| - 1;
    if x in OfVap(t, maps, subs[n], radio) {
      j := n;
    } else {
      j := OnVapIfListed(t, maps, subs[..n], radio, x);
      assert subs[..n][j] == subs[j];
    }
  }

  lemma InLastRadioOrBefore(t: Table, maps: DeviceMaps, subs: seq<nat>, radios: nat, x: Station)
    requires radios > 0
    ensures x in Stations(t, maps, subs, radios) <==>
            x in Stations(t, maps, subs, radios - 1) || x in OfRadio(t, maps, subs, radios - 1)
  {
  }

  lemma {:induction false} StaysInEvent(t: Table, maps: DeviceMaps, subs: seq<nat>, i: nat, radios: nat, x: Station)
    requires i <= radios && x in Stations(t, maps, subs, i)
    ensures x in Stations(t, maps, subs, radios)
    decreases radios - i
  {
    if i < radios {
      InLastRadioOrBefore(t, maps, subs, i + 1, x);
      StaysInEvent(t, maps, subs, i + 1, radios, x);
    }
  }

  lemma InEventIfOnVap(t: Table, maps: DeviceMaps, subs: seq<nat>, radios: nat, i: nat, j: nat, x: Station)
    requires i < radios && j < |subs| && x in OfVap(t, maps, subs[j], i)
    ensures x in Stations(t, maps, subs, radios)
  {
    ListedIfOnVap(t, maps, subs, i, j, x);
    InLastRadioOrBefore(t, maps, subs, i + 1, x);
    StaysInEvent(t, maps, subs, i + 1, radios, x);
  }

  lemma {:induction false} OnVapIfInEvent(t: Table, maps: DeviceMaps, subs: seq<nat>, radios: nat, x: Station)
    returns (i: nat, j: nat)
    requires x in Stations(t, maps, subs, radios)
    ensures i < radios && j < |subs| && x in OfVap(t, maps, subs[j], i)
  {
    if x in OfRadio(t, maps, subs, radios - 1) {
      i := radios - 1;
      j := OnVapIfListed(t, maps, subs, i, x);
    } else {
      i, j := OnVapIfInEvent(t, maps, subs, radios - 1, x);
    }
  }

  /**
   Client k of the VAP that subscription j stands for on radio i, described by entry p, as x:
   its own address, under at most the first 15 characters of the interface's name.
   */
  predicate Reported(t: Table, maps: DeviceMaps, subs: seq<nat>, radios: nat, x: Station, i: nat, j: nat, p: nat, k: nat) {
    && i < radios && j < |subs| && p < |t|
    && t[p].index == subs[j] && (forall q: nat | q < p :: t[q].index != subs[j]) && t[p].radio == i
    && var slot := VapSlot(i, |set q: nat | q < p && t[q].radio == i|);
    && slot in maps && k < |maps[slot]|
    && x.mac == maps[slot][k].value.mac
    && x.ifName == if |t[p].name| > 15 then t[p].name[..15] else t[p].name
  }

  lemma OnVapIffReported(t: Table, maps: DeviceMaps, subs: seq<nat>, radios: nat, x: Station, i: nat, j: nat)
    requires i < radios && j < |subs|
    ensures x in OfVap(t, maps, subs[j], i) <==> exists p: nat, k: nat :: Reported(t, maps, subs, radios, x, i, j, p, k)
  {
    if x in OfVap(t, maps, subs[j], i) {
      var k: nat :| k < |OfVap(t, maps, subs[j], i)| && OfVap(t, maps, subs[j], i)[k] == x;
      SlotOnHas(t, subs[j], i, SlotOn(t, subs[j], i).value);
      assert Reported(t, maps, subs, radios, x, i, j, First(t, subs[j]), k);
    }
    if p: nat, k: nat :| Reported(t, maps, subs, radios, x, i, j, p, k) {
      ReportedIsListed(t, maps, subs, radios, x, i, j, p, k);
    }
  }

  /** Client k of the VAP is entry k of its share of the list. */
  lemma ReportedIsListed(t: Table, maps: DeviceMaps, subs: seq<nat>, radios: nat, x: Station, i: nat, j: nat, p: nat, k: nat)
    requires Reported(t, maps, subs, radios, x, i, j, p, k)
    ensures k < |OfVap(t, maps, subs[j], i)| && OfVap(t, maps, subs[j], i)[k] == x
  {
    var slot := VapSlot(i, |set q: nat | q < p && t[q].radio == i|);
    assert IsSlot(t, subs[j], i, slot, p);
    SlotOnIs(t, subs[j], i, slot, p);
  }

  /** A station is in the event iff it is a client in the map of some subscribed VAP on some radio. */
  lemma InEventIffOnSubscribedVap(t: Table, maps: DeviceMaps, subs: seq<nat>, radios: nat, x: Station)
    ensures x in Stations(t, maps, subs, radios) <==>
            exists i: nat, j: nat, p: nat, k: nat :: Reported(t, maps, subs, radios, x, i, j, p, k)
  {
    if x in Stations(t, maps, subs, radios) {
      var i, j := OnVapIfInEvent(t, maps, subs, radios, x);
      OnVapIffReported(t, maps, subs, radios, x, i, j);
    }
    if i: nat, j: nat, p: nat, k: nat :| Reported(t, maps, subs, radios, x, i, j, p, k) {
      OnVapIffReported(t, maps, subs, radios, x, i, j);
      InEventIfOnVap(t, maps, subs, radios, i, j, x);
    }
  }

  /** Client k of a subscribed VAP, whose slot is in the maps, is in the event under its own address. */
  lemma EveryClientReported(t: Table, maps: DeviceMaps, subs: seq<nat>, radios: nat, j: nat, p: nat, slot: VapSlot, k: nat)
    requires j < |subs| && p < |t| && t[p].index == subs[j] && forall q | 0 <= q < p :: t[q].index != subs[j]
    requires slot.radio == t[p].radio < radios && slot.vap == |set q: nat | q < p && t[q].radio == t[p].radio|
    requires slot in maps && k < |maps[slot]|
    ensures var name := t[p].name;
            Station(maps[slot][k].value.mac, if |name| > 15 then name[..15] else name) in Stations(t, maps, subs, radios)
  {
    var name := t[p].name;
    var x := Station(maps[slot][k].value.mac, if |name| > 15 then name[..15] else name);
    assert Reported(t, maps, subs, radios, x, t[p].radio, j, p, k);
    InEventIffOnSubscribedVap(t, maps, subs, radios, x);
  }

  /** Where the clients of subscription j on radio i start. */
  function Offset(t: Table, maps: DeviceMaps, subs: seq<nat>, i: nat, j: nat): nat
    requires j <= |subs|
  {
    |Stations(t, maps, subs, i)| + |OfRadio(t, maps, subs[..j], i)|
  }

  lemma {:induction false} RadioAt(t: Table, maps: DeviceMaps, subs: seq<nat>, radio: nat, j: nat, n: nat)
    requires j < n <= |subs|
    ensures OfRadio(t, maps, subs[..j], radio) + OfVap(t, maps, subs[j], radio) <= OfRadio(t, maps, subs[..n], radio)
    decreases n
  {
    OfRadioStep(t, maps, subs, n - 1, radio);
    if j < n - 1 {
      RadioAt(t, maps, subs, radio, j, n - 1);
    }
  }

  lemma {:induction false} StationsAt(t: Table, maps: DeviceMaps, subs: seq<nat>, radios: nat, i: nat)
    requires i < radios
    ensures Stations(t, maps, subs, i) + OfRadio(t, maps, subs, i) <= Stations(t, maps, subs, radios)
  {
    if i < radios - 1 {
      StationsAt(t, maps, subs, radios - 1, i);
    }
  }

  lemma PrefixOfPrefix<T>(before: seq<T>, radio: seq<T>, all: seq<T>, prior: seq<T>, own: seq<T>)
    requires before + radio <= all && prior + own <= radio
    ensures before + prior + own <= all
  {
    assert radio == prior + own + radio[|prior + own|..];
    assert all == before + radio + all[|before + radio|..];
    assert all == before + prior + own + (radio[|prior + own|..] + all[|before + radio|..]);
  }

  /**
   Where the clients of subscription j on radio i are: behind those of all radios before it and of all its
   subscriptions before, one for one in the order of their map. None is passed over or written over.
   */
  lemma VapInEvent(t: Table, maps: DeviceMaps, subs: seq<nat>, radios: nat, i: nat, j: nat)
    requires i < radios && j < |subs|
    ensures Stations(t, maps, subs, i) + OfRadio(t, maps, subs[..j], i) + OfVap(t, maps, subs[j], i) <= Stations(t, maps, subs, radios)
  {
    RadioAt(t, maps, subs, i, j, |subs|);
    assert subs[..|subs|] == subs;
    StationsAt(t, maps, subs, radios, i);
    PrefixOfPrefix(Stations(t, maps, subs, i), OfRadio(t, maps, subs, i), Stations(t, maps, subs, radios),
                   OfRadio(t, maps, subs[..j], i), OfVap(t, maps, subs[j], i));
  }

  lemma {:induction false} AtRadio(t: Table, maps: DeviceMaps, subs: seq<nat>, radio: nat, at: nat) returns (j: nat, k: nat)
    requires at < |OfRadio(t, maps, subs, radio)|
    ensures j < |subs| && k < |OfVap(t, maps, subs[j], radio)| && at == |OfRadio(t, maps, subs[..j], radio)| + k
    ensures OfVap(t, maps, subs[j], radio)[k] == OfRadio(t, maps, subs, radio)[at]
  {
    var n := |subs| - 1;
    var before := |OfRadio(t, maps, subs[..n], radio)|;
    if at < before {
      j, k := AtRadio(t, maps, subs[..n], radio, at);
      assert subs[..n][..j] == subs[..j] && subs[..n][j] == subs[j];
    } else {
      j, k := n, at - before;
    }
  }

  lemma {:induction false} AtStations(t: Table, maps: DeviceMaps, subs: seq<nat>, radios: nat, at: nat) returns (i: nat, m: nat)
    requires at < |Stations(t, maps, subs, radios)|
    ensures i < radios && m < |OfRadio(t, maps, subs, i)| && at == |Stations(t, maps, subs, i)| + m
    ensures OfRadio(t, maps, subs, i)[m] == Stations(t, maps, subs, radios)[at]
  {
    var before := |Stations(t, maps, subs, radios - 1)|;
    if at < before {
      i, m := AtStations(t, maps, subs, radios - 1, at);
    } else {
      i, m := radios - 1, at - before;
    }
  }

  /** Every position of the event is the position of such a client: nothing else is in it, and nothing twice. */
  lemma PositionIsOfClient(t: Table, maps: DeviceMaps, subs: seq<nat>, radios: nat, at: nat) returns (i: nat, j: nat, p: nat, k: nat)
    requires at < |Stations(t, maps, subs, radios)|
    ensures Reported(t, maps, subs, radios, Stations(t, maps, subs, radios)[at], i, j, p, k)
    ensures at == Offset(t, maps, subs, i, j) + k
  {
    var m: nat;
    i, m := AtStations(t, maps, subs, radios, at);
    j, k := AtRadio(t, maps, subs, i, m);
    p := First(t, subs[j]);
    SlotOnHas(t, subs[j], i, SlotOn(t, subs[j], i).value);
  }

  /** Both passes: the event holds exactly the clients of all subscribed VAPs, in order. */
  method NewStationEvent(t: Table, maps: DeviceMaps, subs: seq<nat>, radios: nat) returns (event: array<Station>)
    ensures fresh(event)
    ensures event[..] == Stations(t, maps, subs, radios)
    ensures forall x :: x in event[..] <==> exists i: nat, j: nat, p: nat, k: nat :: Reported(t, maps, subs, radios, x, i, j, p, k)
  {
    var count := CountStations(t, maps, subs, radios);
    event := new Station[count](_ => Station([0, 0, 0, 0, 0, 0], ""));
    var i, offset := 0, 0;
    while i < radios
      invariant 0 <= i <= radios && offset == |Stations(t, maps, subs, i)| <= event.Length
      invariant event[..offset] == Stations(t, maps, subs, i)
    {
      StationsGrow(t, maps, subs, i + 1, radios);
      offset := FillRadio(t, maps, subs, i, event, offset);
      i := i + 1;
    }
    assert event[..] == event[..offset];
    forall x
      ensures x in event[..] <==> exists i: nat, j: nat, p: nat, k: nat :: Reported(t, maps, subs, radios, x, i, j, p, k)
    {
      InEventIffOnSubscribedVap(t, maps, subs, radios, x);
    }
  }
}
