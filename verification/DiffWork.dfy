/**
 What a diff document amounts to: the updates it makes to the maintained maps, in
 order, and their net effect on every VAP.
 */
module DiffWork {
  import opened Wrappers
  import opened HashMaps
  import opened AssociatedDevices
  import opened InterfaceTable
  import opened StationEvent

  /** The decoded document: its interface map and its diff maps. */
  datatype Document = Document(table: Table, diffs: DeviceMaps)

  /** A VAP that has a diff gets a map if it has none; then its devices are processed one by one. */
  datatype Item = Create(slot: VapSlot) | Device(slot: VapSlot, dev: Client)

  function MapAt(maps: DeviceMaps, slot: VapSlot): DeviceMap {
    if slot in maps then maps[slot] else []
  }

  function Apply(maps: DeviceMaps, item: Item): DeviceMaps {
    match item
    case Create(slot) => maps[slot := MapAt(maps, slot)]
    case Device(slot, dev) => maps[slot := Updated(MapAt(maps, slot), dev)]
  }

  function ApplyAll(maps: DeviceMaps, items: seq<Item>): DeviceMaps {
    if |items| == 0 then maps else Apply(ApplyAll(maps, items[..|items| - 1]), items[|items| - 1])
  }

  /** The devices of a diff that are in the client state a pass is for. */
  function Matching(diff: DeviceMap, slot: VapSlot, state: ClientState): seq<Item> {
    if |diff| == 0 then []
    else
      var n := |diff| - 1;
      Matching(diff[..n], slot, state) + (if diff[n].value.state == state then [Device(slot, diff[n].value)] else [])
  }

  function WorkOnVap(doc: Document, sub: nat, radio: nat, state: ClientState): seq<Item> {
    match SlotOn(doc.table, sub, radio)
    case None => []
    case Some(slot) => if slot in doc.diffs then [Create(slot)] + Matching(doc.diffs[slot], slot, state) else []
  }

  function WorkOnRadio(doc: Document, subs: seq<nat>, radio: nat, state: ClientState): seq<Item> {
    if |subs| == 0 then []
    else WorkOnRadio(doc, subs[..|subs| - 1], radio, state) + WorkOnVap(doc, subs[|subs| - 1], radio, state)
  }

  /** Everything one pass of cujoagent_process_client_state does to the maps. */
  function Work(doc: Document, subs: seq<nat>, radios: nat, state: ClientState): seq<Item> {
    if radios == 0 then [] else Work(doc, subs, radios - 1, state) + WorkOnRadio(doc, subs, radios - 1, state)
  }

  // ----- step lemmas for the loops

  lemma MatchingStep(diff: DeviceMap, k: nat, slot: VapSlot, state: ClientState)
    requires k < |diff|
    ensures Matching(diff[..k + 1], slot, state) ==
            Matching(diff[..k], slot, state) + (if diff[k].value.state == state then [Device(slot, diff[k].value)] else [])
  {
    assert diff[..k + 1][..k] == diff[..k];
  }

  lemma WorkOnRadioStep(doc: Document, subs: seq<nat>, j: nat, radio: nat, state: ClientState)
    requires j < |subs|
    ensures WorkOnRadio(doc, subs[..j + 1], radio, state) ==
            WorkOnRadio(doc, subs[..j], radio, state) + WorkOnVap(doc, subs[j], radio, state)
  {
    assert subs[..j + 1][..j] == subs[..j];
  }

  lemma {:induction false} ApplyAllConcat(maps: DeviceMaps, a: seq<Item>, b: seq<Item>)
    ensures ApplyAll(maps, a + b) == ApplyAll(ApplyAll(maps, a), b)
  {
    if |b| == 0 {
      assert a + b == a;
    } else {
      var n := |b| - 1;
      ApplyAllConcat(maps, a, b[..n]);
      assert (a + b)[..|a + b| - 1] == a + b[..n];
    }
  }

  // ----- how much work there is, and in which order

  lemma CountNext(diff: DeviceMap, k: nat, state: ClientState)
    requires k < |diff|
    ensures |set i: nat | i < k + 1 && diff[i].value.state == state| ==
            |set i: nat | i < k && diff[i].value.state == state| + (if diff[k].value.state == state then 1 else 0)
  {
    var before := set i: nat | i < k && diff[i].value.state == state;
    assert (set i: nat | i < k + 1 && diff[i].value.state == state) == if diff[k].value.state == state then before + {k} else before;
  }

  lemma {:induction false} MatchingLength(diff: DeviceMap, n: nat, slot: VapSlot, state: ClientState)
    requires n <= |diff|
    ensures |Matching(diff[..n], slot, state)| == |set i: nat | i < n && diff[i].value.state == state|
  {
    if n > 0 {
      MatchingLength(diff, n - 1, slot, state);
      MatchingStep(diff, n - 1, slot, state);
      CountNext(diff, n - 1, state);
    }
  }

  lemma {:induction false} MatchingPrefix(diff: DeviceMap, m: nat, n: nat, slot: VapSlot, state: ClientState)
    requires m <= n <= |diff|
    ensures Matching(diff[..m], slot, state) <= Matching(diff[..n], slot, state)
  {
    if m < n {
      MatchingPrefix(diff, m, n - 1, slot, state);
      MatchingStep(diff, n - 1, slot, state);
    }
  }

  /**
   The devices of a diff that a pass processes: as many as there are entries in the state, each at the place
   given by the number of such entries before it, so in the order of the map and each once.
   */
  lemma MatchingAt(diff: DeviceMap, slot: VapSlot, state: ClientState, k: nat)
    requires k < |diff| && diff[k].value.state == state
    ensures |Matching(diff, slot, state)| == |set i: nat | i < |diff| && diff[i].value.state == state|
    ensures var at := |set i: nat | i < k && diff[i].value.state == state|;
            at < |Matching(diff, slot, state)| && Matching(diff, slot, state)[at] == Device(slot, diff[k].value)
  {
    assert diff[..|diff|] == diff;
    MatchingLength(diff, |diff|, slot, state);
    MatchingLength(diff, k, slot, state);
    MatchingStep(diff, k, slot, state);
    MatchingPrefix(diff, k + 1, |diff|, slot, state);
  }

  /**
   One VAP's share of a pass: its map first, then one item for each entry of its diff that is in the state,
   in the order of the map.
   */
  lemma VapWorkAt(doc: Document, sub: nat, radio: nat, state: ClientState, slot: VapSlot, p: nat, k: nat)
    requires IsSlot(doc.table, sub, radio, slot, p) && slot in doc.diffs
    requires k < |doc.diffs[slot]| && doc.diffs[slot][k].value.state == state
    ensures var diff, work := doc.diffs[slot], WorkOnVap(doc, sub, radio, state);
            var at := |set i: nat | i < k && diff[i].value.state == state|;
            && |work| == 1 + |set i: nat | i < |diff| && diff[i].value.state == state|
            && work[0] == Create(slot)
            && 1 + at < |work| && work[1 + at] == Device(slot, diff[k].value)
  {
    SlotOnIs(doc.table, sub, radio, slot, p);
    MatchingAt(doc.diffs[slot], slot, state, k);
  }

  /** How often an item occurs. */
  function Count(items: seq<Item>, item: Item): nat {
    multiset(items)[item]
  }

  lemma {:induction false} MatchingHasNoCreate(diff: DeviceMap, own: VapSlot, state: ClientState, slot: VapSlot)
    ensures Count(Matching(diff, own, state), Create(slot)) == 0
  {
    if |diff| > 0 {
      MatchingHasNoCreate(diff[..|diff| - 1], own, state, slot);
    }
  }

  lemma WorkOnVapCreates(doc: Document, sub: nat, radio: nat, state: ClientState, slot: VapSlot)
    ensures Count(WorkOnVap(doc, sub, radio, state), Create(slot)) ==
            if SlotOn(doc.table, sub, radio) == Some(slot) && slot in doc.diffs then 1 else 0
  {
    match SlotOn(doc.table, sub, radio)
    case None =>
    case Some(own) =>
      if own in doc.diffs {
        MatchingHasNoCreate(doc.diffs[own], own, state, slot);
      }
  }

  /** How many of the first n subscriptions are for the slot. */
  function HitCount(doc: Document, subs: seq<nat>, n: nat, radio: nat, slot: VapSlot): nat {
    |set j: nat | j < n && Hits(doc, subs, j, radio, slot)|
  }

  lemma {:induction false} RadioCreates(doc: Document, subs: seq<nat>, n: nat, radio: nat, state: ClientState, slot: VapSlot)
    requires n <= |subs|
    ensures Count(WorkOnRadio(doc, subs[..n], radio, state), Create(slot)) == HitCount(doc, subs, n, radio, slot)
  {
    if n > 0 {
      RadioCreates(doc, subs, n - 1, radio, state, slot);
      WorkOnRadioStep(doc, subs, n - 1, radio, state);
      CountConcat(WorkOnRadio(doc, subs[..n - 1], radio, state), WorkOnVap(doc, subs[n - 1], radio, state), Create(slot));
      WorkOnVapCreates(doc, subs[n - 1], radio, state, slot);
      HitsNext(doc, subs, n - 1, radio, slot);
    }
  }

  lemma HitsNext(doc: Document, subs: seq<nat>, n: nat, radio: nat, slot: VapSlot)
    requires n < |subs|
    ensures HitCount(doc, subs, n + 1, radio, slot) ==
            HitCount(doc, subs, n, radio, slot) + (if Hits(doc, subs, n, radio, slot) then 1 else 0)
  {
    var before := set j: nat | j < n && Hits(doc, subs, j, radio, slot);
    assert (set j: nat | j < n + 1 && Hits(doc, subs, j, radio, slot)) == if Hits(doc, subs, n, radio, slot) then before + {n} else before;
  }

  lemma {:induction false} RadioOfItem(doc: Document, subs: seq<nat>, radio: nat, state: ClientState, item: Item)
    requires item in WorkOnRadio(doc, subs, radio, state)
    ensures item.slot.radio == radio
  {
    var n := |subs| - 1;
    if item in WorkOnRadio(doc, subs[..n], radio, state) {
      RadioOfItem(doc, subs[..n], radio, state, item);
    } else {
      var slot := SlotOn(doc.table, subs[n], radio).value;
      SlotOfMatching(doc.diffs[slot], slot, state, item);
    }
  }

  lemma {:induction false} SlotOfMatching(diff: DeviceMap, slot: VapSlot, state: ClientState, item: Item)
    ensures item in Matching(diff, slot, state) ==> item.slot == slot
  {
    if |diff| > 0 {
      SlotOfMatching(diff[..|diff| - 1], slot, state, item);
    }
  }

  /** The subscriptions that stand for a slot the document has a diff for. */
  function Standing(doc: Document, subs: seq<nat>, slot: VapSlot): set<nat> {
    set j: nat | j < |subs| && Hits(doc, subs, j, slot.radio, slot)
  }

  lemma WholeRadioCreates(doc: Document, subs: seq<nat>, radio: nat, state: ClientState, slot: VapSlot)
    ensures Count(WorkOnRadio(doc, subs, radio, state), Create(slot)) == if slot.radio == radio then |Standing(doc, subs, slot)| else 0
  {
    if slot.radio == radio {
      RadioCreates(doc, subs, |subs|, radio, state, slot);
      assert subs[..|subs|] == subs;
    } else if Create(slot) in WorkOnRadio(doc, subs, radio, state) {
      RadioOfItem(doc, subs, radio, state, Create(slot));
    }
  }

  lemma CountConcat(a: seq<Item>, b: seq<Item>, item: Item)
    ensures Count(a + b, item) == Count(a, item) + Count(b, item)
  {
  }

  lemma {:induction false} CountOverRadios(doc: Document, subs: seq<nat>, radios: nat, state: ClientState, item: Item, c: nat)
    requires forall r: nat :: Count(WorkOnRadio(doc, subs, r, state), item) == if item.slot.radio == r then c else 0
    ensures Count(Work(doc, subs, radios, state), item) == if item.slot.radio < radios then c else 0
  {
    if radios > 0 {
      CountOverRadios(doc, subs, radios - 1, state, item, c);
      CountConcat(Work(doc, subs, radios - 1, state), WorkOnRadio(doc, subs, radios - 1, state), item);
    }
  }

  /** A pass goes over a VAP once for every subscription that stands for it, and over no other VAP. */
  lemma PassesOverEachOnce(doc: Document, subs: seq<nat>, radios: nat, state: ClientState, slot: VapSlot)
    ensures Count(Work(doc, subs, radios, state), Create(slot)) == if slot.radio < radios then |Standing(doc, subs, slot)| else 0
  {
    forall r: nat
      ensures Count(WorkOnRadio(doc, subs, r, state), Create(slot)) == if slot.radio == r then |Standing(doc, subs, slot)| else 0
    {
      WholeRadioCreates(doc, subs, r, state, slot);
    }
    CountOverRadios(doc, subs, radios, state, Create(slot), |Standing(doc, subs, slot)|);
  }

  /** Radio by radio. */
  lemma {:induction false} RadiosInOrder(doc: Document, subs: seq<nat>, radios: nat, state: ClientState, i: nat, j: nat)
    requires i <= j < |Work(doc, subs, radios, state)|
    ensures var work := Work(doc, subs, radios, state); work[i].slot.radio <= work[j].slot.radio < radios
  {
    var before, last := Work(doc, subs, radios - 1, state), WorkOnRadio(doc, subs, radios - 1, state);
    if j < |before| {
      RadiosInOrder(doc, subs, radios - 1, state, i, j);
    } else {
      RadioOfItem(doc, subs, radios - 1, state, last[j - |before|]);
      if i < |before| {
        RadiosInOrder(doc, subs, radios - 1, state, i, i);
      } else {
        RadioOfItem(doc, subs, radios - 1, state, last[i - |before|]);
      }
    }
  }

  // ----- net effect

  ghost function ViewAt(maps: DeviceMaps, slot: VapSlot): map<string, Client> {
    View(MapAt(maps, slot))
  }

  /** The slot is changed by a pass at most where touched holds, and then by the diff of that slot. */
  ghost predicate PassedOver(maps: DeviceMaps, maps': DeviceMaps, doc: Document, state: ClientState, slot: VapSlot, touched: bool) {
    && Proper(MapAt(maps', slot))
    && (touched ==> slot in doc.diffs && ViewAt(maps', slot) == PassEffect(ViewAt(maps, slot), doc.diffs[slot], state))
    && (!touched ==> ViewAt(maps', slot) == ViewAt(maps, slot))
    && (slot in maps' <==> slot in maps || touched)
  }

  lemma ApplyLast(maps: DeviceMaps, items: seq<Item>, item: Item)
    ensures ApplyAll(maps, items + [item]) == Apply(ApplyAll(maps, items), item)
  {
  }

  /** The devices of one VAP leave the map of every other alone. */
  lemma {:induction false} MatchingElsewhere(maps: DeviceMaps, diff: DeviceMap, own: VapSlot, state: ClientState, slot: VapSlot)
    requires slot != own
    ensures var maps' := ApplyAll(maps, Matching(diff, own, state));
            (slot in maps' <==> slot in maps) && MapAt(maps', slot) == MapAt(maps, slot)
  {
    if |diff| > 0 {
      var n := |diff| - 1;
      var before := Matching(diff[..n], own, state);
      MatchingElsewhere(maps, diff[..n], own, state, slot);
      if diff[n].value.state == state {
        ApplyLast(maps, before, Device(own, diff[n].value));
      } else {
        assert before + [] == before;
      }
    }
  }

  lemma {:induction false} MatchingEffect(maps: DeviceMaps, diff: DeviceMap, slot: VapSlot, state: ClientState)
    requires Proper(MapAt(maps, slot)) && slot in maps
    ensures var maps' := ApplyAll(maps, Matching(diff, slot, state));
            && slot in maps' && Proper(MapAt(maps', slot))
            && ViewAt(maps', slot) == PassEffect(ViewAt(maps, slot), diff, state)
  {
    if |diff| > 0 {
      var n := |diff| - 1;
      var before := Matching(diff[..n], slot, state);
      MatchingEffect(maps, diff[..n], slot, state);
      PassEffectStep(ViewAt(maps, slot), diff, n, state);
      assert diff[..n + 1] == diff;
      if diff[n].value.state == state {
        ApplyLast(maps, before, Device(slot, diff[n].value));
        UpdateFollowsView(MapAt(ApplyAll(maps, before), slot), diff[n].value);
      } else {
        assert before + [] == before;
      }
    }
  }

  lemma OwnVapEffect(maps: DeviceMaps, doc: Document, slot: VapSlot, state: ClientState)
    requires Proper(MapAt(maps, slot)) && slot in doc.diffs
    ensures PassedOver(maps, ApplyAll(maps, [Create(slot)] + Matching(doc.diffs[slot], slot, state)), doc, state, slot, true)
  {
    ApplyAllConcat(maps, [Create(slot)], Matching(doc.diffs[slot], slot, state));
    ApplyOne(maps, Create(slot));
    MatchingEffect(Apply(maps, Create(slot)), doc.diffs[slot], slot, state);
  }

  lemma OtherVapEffect(maps: DeviceMaps, doc: Document, own: VapSlot, state: ClientState, slot: VapSlot)
    requires Proper(MapAt(maps, slot)) && own in doc.diffs && own != slot
    ensures PassedOver(maps, ApplyAll(maps, [Create(own)] + Matching(doc.diffs[own], own, state)), doc, state, slot, false)
  {
    ApplyAllConcat(maps, [Create(own)], Matching(doc.diffs[own], own, state));
    ApplyOne(maps, Create(own));
    MatchingElsewhere(Apply(maps, Create(own)), doc.diffs[own], own, state, slot);
  }

  lemma ApplyOne(maps: DeviceMaps, item: Item)
    ensures ApplyAll(maps, [item]) == Apply(maps, item)
  {
  }

  lemma VapEffect(maps: DeviceMaps, doc: Document, sub: nat, radio: nat, state: ClientState, slot: VapSlot)
    requires Proper(MapAt(maps, slot))
    ensures PassedOver(maps, ApplyAll(maps, WorkOnVap(doc, sub, radio, state)), doc, state, slot,
                       SlotOn(doc.table, sub, radio) == Some(slot) && slot in doc.diffs)
  {
    match SlotOn(doc.table, sub, radio)
    case None =>
    case Some(own) =>
      if own in doc.diffs {
        if own == slot {
          OwnVapEffect(maps, doc, slot, state);
        } else {
          OtherVapEffect(maps, doc, own, state, slot);
        }
      }
  }

  /** Subscription j is for this slot, and the document has a diff for it. */
  predicate Hits(doc: Document, subs: seq<nat>, j: nat, radio: nat, slot: VapSlot) {
    j < |subs| && SlotOn(doc.table, subs[j], radio) == Some(slot) && slot in doc.diffs
  }

  ghost predicate Touched(doc: Document, subs: seq<nat>, radio: nat, slot: VapSlot) {
    exists j: nat :: Hits(doc, subs, j, radio, slot)
  }

  lemma TouchedStep(doc: Document, subs: seq<nat>, radio: nat, slot: VapSlot)
    requires |subs| > 0
    ensures var n := |subs| - 1;
            Touched(doc, subs, radio, slot) <==>
            Touched(doc, subs[..n], radio, slot) || (SlotOn(doc.table, subs[n], radio) == Some(slot) && slot in doc.diffs)
  {
    var n := |subs| - 1;
    if Touched(doc, subs[..n], radio, slot) {
      var j: nat :| Hits(doc, subs[..n], j, radio, slot);
      assert Hits(doc, subs, j, radio, slot);
    }
    if Touched(doc, subs, radio, slot) {
      var j: nat :| Hits(doc, subs, j, radio, slot);
      assert j < n ==> Hits(doc, subs[..n], j, radio, slot);
    }
    assert SlotOn(doc.table, subs[n], radio) == Some(slot) && slot in doc.diffs ==> Hits(doc, subs, n, radio, slot);
  }

  /** Two stretches of a pass; a slot worked on in both is not changed by the second. */
  lemma OneAfterTheOther(maps: DeviceMaps, done: seq<Item>, more: seq<Item>, doc: Document, state: ClientState, slot: VapSlot,
                         first: bool, second: bool)
    requires PassedOver(maps, ApplyAll(maps, done), doc, state, slot, first)
    requires PassedOver(ApplyAll(maps, done), ApplyAll(ApplyAll(maps, done), more), doc, state, slot, second)
    ensures PassedOver(maps, ApplyAll(maps, done + more), doc, state, slot, first || second)
  {
    ApplyAllConcat(maps, done, more);
    if slot in doc.diffs {
      PassEffectIdempotent(ViewAt(maps, slot), doc.diffs[slot], state);
    }
  }

  lemma {:induction false} RadioEffect(maps: DeviceMaps, doc: Document, subs: seq<nat>, radio: nat, state: ClientState, slot: VapSlot)
    requires Proper(MapAt(maps, slot))
    ensures PassedOver(maps, ApplyAll(maps, WorkOnRadio(doc, subs, radio, state)), doc, state, slot, Touched(doc, subs, radio, slot))
  {
    if |subs| > 0 {
      var n := |subs| - 1;
      var done, more := WorkOnRadio(doc, subs[..n], radio, state), WorkOnVap(doc, subs[n], radio, state);
      RadioEffect(maps, doc, subs[..n], radio, state, slot);
      VapEffect(ApplyAll(maps, done), doc, subs[n], radio, state, slot);
      TouchedStep(doc, subs, radio, slot);
      OneAfterTheOther(maps, done, more, doc, state, slot, Touched(doc, subs[..n], radio, slot),
                       SlotOn(doc.table, subs[n], radio) == Some(slot) && slot in doc.diffs);
    }
  }

  /** A slot is worked on only when its own radio is. */
  lemma TouchedOnOwnRadio(doc: Document, subs: seq<nat>, radio: nat, slot: VapSlot)
    requires Touched(doc, subs, radio, slot)
    ensures slot.radio == radio
  {
  }

  /** A pass changes exactly the subscribed VAPs the document has a diff for, each by its own diff. */
  lemma {:induction false} WorkEffect(maps: DeviceMaps, doc: Document, subs: seq<nat>, radios: nat, state: ClientState, slot: VapSlot)
    requires Proper(MapAt(maps, slot))
    ensures PassedOver(maps, ApplyAll(maps, Work(doc, subs, radios, state)), doc, state, slot,
                       slot.radio < radios && Touched(doc, subs, slot.radio, slot))
  {
    if radios > 0 {
      var r := radios - 1;
      var done, more := Work(doc, subs, r, state), WorkOnRadio(doc, subs, r, state);
      WorkEffect(maps, doc, subs, r, state, slot);
      RadioEffect(ApplyAll(maps, done), doc, subs, r, state, slot);
      if Touched(doc, subs, r, slot) {
        TouchedOnOwnRadio(doc, subs, r, slot);
      }
      OneAfterTheOther(maps, done, more, doc, state, slot, slot.radio < r && Touched(doc, subs, slot.radio, slot),
                       Touched(doc, subs, r, slot));
    }
  }

  /** The maps after both passes of a document. */
  function AfterDocument(maps: DeviceMaps, doc: Document, subs: seq<nat>, radios: nat): DeviceMaps {
    ApplyAll(ApplyAll(maps, Work(doc, subs, radios, Disconnected)), Work(doc, subs, radios, Connected))
  }

  /** Set algebra: out go the stations gone, in come the stations connected; other VAPs keep their map. */
  lemma DocumentEffect(maps: DeviceMaps, doc: Document, subs: seq<nat>, radios: nat, slot: VapSlot)
    requires Proper(MapAt(maps, slot))
    ensures var maps' := AfterDocument(maps, doc, subs, radios);
            && Proper(MapAt(maps', slot))
            && ViewAt(maps', slot) ==
               if slot.radio < radios && Touched(doc, subs, slot.radio, slot)
               then (ViewAt(maps, slot) - Gone(MapAt(doc.diffs, slot))) + Arrived(MapAt(doc.diffs, slot))
               else ViewAt(maps, slot)
  {
    WorkEffect(maps, doc, subs, radios, Disconnected, slot);
    WorkEffect(ApplyAll(maps, Work(doc, subs, radios, Disconnected)), doc, subs, radios, Connected, slot);
  }
}
