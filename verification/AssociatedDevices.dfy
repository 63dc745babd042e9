/**
 The associated-device maps: client records under the string of their MAC, the
 two updates the consumer makes to the maps it maintains, and what a pass over a
 diff map does to one of them.
 */
module AssociatedDevices {
  import opened MacAddress
  import opened HashMaps

  datatype ClientState = Connected | Disconnected | OtherState

  /** assoc_dev_data_t: the address, the state, and the rest of the statistics. */
  datatype Client = Client(mac: Mac, state: ClientState, stats: nat)

  type DeviceMap = seq<Entry<string, Client>>

  /** Every entry is stored under the string of its own MAC. */
  ghost predicate Keyed(m: DeviceMap) {
    forall e | e in m :: e.key == MacString(e.value.mac)
  }

  ghost predicate Proper(m: DeviceMap) {
    Unique(m) && Keyed(m)
  }

  /** cujoagent_update_associated_devices_map */
  function Updated(m: DeviceMap, dev: Client): DeviceMap {
    match dev.state
    case Disconnected => Remove(m, MacString(dev.mac))
    case Connected => Put(m, MacString(dev.mac), dev)
    case OtherState => m
  }

  /** One entry of the diff applied to the maintained map. */
  lemma UpdateFollowsView(m: DeviceMap, dev: Client)
    requires Proper(m)
    ensures Proper(Updated(m, dev))
    ensures View(Updated(m, dev)) ==
            match dev.state
            case Disconnected => View(m) - {MacString(dev.mac)}
            case Connected => View(m)[MacString(dev.mac) := dev]
            case OtherState => View(m)
  {
    var key := MacString(dev.mac);
    match dev.state
    case Disconnected =>
      RemoveView(m, key);
      RemoveUnique(m, key);
      forall e | e in Remove(m, key) ensures e in m {}
    case Connected =>
      PutView(m, key, dev);
      PutUnique(m, key, dev);
      forall e | e in Put(m, key, dev) ensures e in m || e == Entry(key, dev) {}
    case OtherState =>
  }

  // ----- a pass over a diff map

  /** The keys of the stations the diff reports as gone. */
  ghost function Gone(diff: DeviceMap): set<string> {
    set e | e in diff && e.value.state == Disconnected :: MacString(e.value.mac)
  }

  /** The records the diff reports as connected, the last one winning. */
  ghost function Arrived(diff: DeviceMap): map<string, Client> {
    if |diff| == 0 then map[]
    else
      var before := Arrived(diff[..|diff| - 1]);
      var dev := diff[|diff| - 1].value;
      if dev.state == Connected then before[MacString(dev.mac) := dev] else before
  }

  /** What a pass for one client state does to a map. */
  ghost function PassEffect(v: map<string, Client>, diff: DeviceMap, state: ClientState): map<string, Client> {
    match state
    case Disconnected => v - Gone(diff)
    case Connected => v + Arrived(diff)
    case OtherState => v
  }

  lemma GoneStep(diff: DeviceMap, k: nat)
    requires k < |diff|
    ensures Gone(diff[..k + 1]) ==
            Gone(diff[..k]) + (if diff[k].value.state == Disconnected then {MacString(diff[k].value.mac)} else {})
  {
  }

  /** Extending the processed part of the diff by one entry. */
  lemma PassEffectStep(v: map<string, Client>, diff: DeviceMap, k: nat, state: ClientState)
    requires k < |diff|
    ensures var dev := diff[k].value;
            PassEffect(v, diff[..k + 1], state) ==
            if dev.state != state then PassEffect(v, diff[..k], state)
            else match state
                 case Disconnected => PassEffect(v, diff[..k], state) - {MacString(dev.mac)}
                 case Connected => PassEffect(v, diff[..k], state)[MacString(dev.mac) := dev]
                 case OtherState => PassEffect(v, diff[..k], state)
  {
    assert diff[..k + 1][..k] == diff[..k] && diff[..k + 1][k] == diff[k];
    GoneStep(diff, k);
  }

  /** A VAP that is visited twice (its index subscribed twice) is not changed the second time. */
  lemma PassEffectIdempotent(v: map<string, Client>, diff: DeviceMap, state: ClientState)
    ensures PassEffect(PassEffect(v, diff, state), diff, state) == PassEffect(v, diff, state)
  {
  }

  /** Of several connected records of one station, the last one is kept. */
  lemma {:induction false} ArrivedIsLast(diff: DeviceMap, k: nat)
    requires k < |diff| && diff[k].value.state == Connected
    requires forall j | k < j < |diff| && diff[j].value.state == Connected :: MacString(diff[j].value.mac) != MacString(diff[k].value.mac)
    ensures var key := MacString(diff[k].value.mac); key in Arrived(diff) && Arrived(diff)[key] == diff[k].value
  {
    var n := |diff| - 1;
    if k < n {
      assert diff[..n][k] == diff[k];
      ArrivedIsLast(diff[..n], k);
    }
  }

  /** A connected record is found under its own station's key, and only there. */
  lemma {:induction false} ArrivedIsKeyed(diff: DeviceMap, key: string)
    requires key in Arrived(diff)
    ensures exists e :: e in diff && e.value == Arrived(diff)[key] && e.value.state == Connected && key == MacString(e.value.mac)
  {
    var n := |diff| - 1;
    var dev := diff[n].value;
    if dev.state == Connected && key == MacString(dev.mac) {
      assert diff[n] in diff;
    } else {
      ArrivedIsKeyed(diff[..n], key);
      var e :| e in diff[..n] && e.value == Arrived(diff[..n])[key] && e.value.state == Connected && key == MacString(e.value.mac);
      assert e in diff;
    }
  }
}
