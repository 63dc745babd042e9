/**
 The interface map: which entry describes a VAP, and which place that VAP has
 among the VAPs of its radio.
 */
module InterfaceTable {
  import opened Wrappers

  /** wifi_interface_name_idex_map_t: index is the VAP index, radio the radio it belongs to. */
  datatype Iface = Iface(index: nat, radio: nat, name: string)

  /** wifi_platform_property_t: the numRadios * MAX_NUM_VAP_PER_RADIO entries of the interface map. */
  type Table = seq<Iface>

  /** Position of the first entry with this VAP index, or |t|. */
  function First(t: Table, index: nat): (p: nat)
    ensures p <= |t|
    ensures forall k | 0 <= k < p :: t[k].index != index
    ensures p < |t| ==> t[p].index == index
  {
    if |t| == 0 || t[0].index == index then 0 else 1 + First(t[1..], index)
  }

  /** How many entries belong to the radio. */
  function OnRadio(t: Table, radio: nat): nat {
    if |t| == 0 then 0 else OnRadio(t[..|t| - 1], radio) + (if t[|t| - 1].radio == radio then 1 else 0)
  }

  lemma CountStep(t: Table, n: nat, radio: nat)
    requires n < |t|
    ensures |set q: nat | q < n + 1 && t[q].radio == radio| ==
            |set q: nat | q < n && t[q].radio == radio| + (if t[n].radio == radio then 1 else 0)
  {
    var before := set q: nat | q < n && t[q].radio == radio;
    assert (set q: nat | q < n + 1 && t[q].radio == radio) == if t[n].radio == radio then before + {n} else before;
  }

  lemma {:induction false} OnRadioCounts(t: Table, n: nat, radio: nat)
    requires n <= |t|
    ensures OnRadio(t[..n], radio) == |set q: nat | q < n && t[q].radio == radio|
  {
    if n > 0 {
      OnRadioCounts(t, n - 1, radio);
      OnRadioStep(t, n - 1, radio);
      CountStep(t, n - 1, radio);
    }
  }

  lemma OnRadioStep(t: Table, p: nat, radio: nat)
    requires p < |t|
    ensures OnRadio(t[..p + 1], radio) == OnRadio(t[..p], radio) + (if t[p].radio == radio then 1 else 0)
  {
    assert t[..p + 1][..p] == t[..p];
  }

  /** The entry a VAP index stands for. */
  function Lookup(t: Table, index: nat): Option<Iface> {
    var p := First(t, index);
    if p < |t| then Some(t[p]) else None
  }

  /** Zero-based rank of position p among the entries of its own radio. */
  function Rank(t: Table, p: nat): nat
    requires p < |t|
  {
    OnRadio(t[..p], t[p].radio)
  }

  /** cujoagent_iface_property */
  method IfaceProperty(t: Table, index: nat) returns (entry: Option<Iface>)
    ensures entry == Lookup(t, index)
  {
    entry := None;
    var i := 0;
    while i < |t|
      invariant 0 <= i <= First(t, index)
    {
      if t[i].index == index {
        entry := Some(t[i]);
        break;
      }
      i := i + 1;
    }
  }

  /** cujoagent_vap_array_index, for any entry, whether it comes from this table or not. */
  method VapArrayIndex(t: Table, entry: Iface) returns (r: int)
    ensures var p := First(t, entry.index);
            r == OnRadio(t[..if p < |t| then p + 1 else p], entry.radio) - 1
  {
    r := -1;
    var i := 0;
    while i < |t|
      invariant 0 <= i <= |t| && i <= First(t, entry.index)
      invariant r == OnRadio(t[..i], entry.radio) - 1
    {
      assert t[..i + 1][..i] == t[..i];
      if t[i].radio == entry.radio {
        r := r + 1;
      }
      if t[i].index == entry.index {
        break;
      }
      i := i + 1;
    }
    assert t[..|t|] == t;
  }

  // ----- what the two calls mean together

  /** cujoagent_iface_property followed by cujoagent_vap_array_index. */
  function ArrayIndex(t: Table, index: nat): Option<nat> {
    var p := First(t, index);
    if p < |t| then Some(Rank(t, p)) else None
  }

  lemma {:induction false} OnRadioMonotone(t: Table, p: nat, q: nat, radio: nat)
    requires p <= q <= |t|
    ensures OnRadio(t[..p], radio) <= OnRadio(t[..q], radio)
  {
    if p < q {
      OnRadioMonotone(t, p, q - 1, radio);
      OnRadioStep(t, q - 1, radio);
    }
  }

  /** For an entry found in the table the computed index is its rank among the entries of its radio. */
  method VapOf(t: Table, index: nat) returns (r: int)
    ensures match ArrayIndex(t, index) case Some(rank) => r == rank case None => r == -1
    ensures r >= 0 <==> exists p | 0 <= p < |t| :: t[p].index == index
    ensures forall p: nat | p < |t| && t[p].index == index && (forall q | 0 <= q < p :: t[q].index != index) ::
              r == |set q: nat | q < p && t[q].radio == t[p].radio|
  {
    var entry := IfaceProperty(t, index);
    match entry
    case None =>
      r := -1;
    case Some(e) =>
      r := VapArrayIndex(t, e);
      OnRadioStep(t, First(t, index), e.radio);
      OnRadioCounts(t, First(t, index), e.radio);
  }

  /** The rank is a valid index into the radio's VAP array. */
  lemma RankInRange(t: Table, index: nat)
    requires ArrayIndex(t, index).Some?
    ensures ArrayIndex(t, index).value < OnRadio(t, Lookup(t, index).value.radio)
  {
    var p := First(t, index);
    OnRadioStep(t, p, t[p].radio);
    OnRadioMonotone(t, p + 1, |t|, t[p].radio);
    assert t[..|t|] == t;
  }

  /** Two VAPs of one radio never share an array index. */
  lemma RankInjective(t: Table, i: nat, j: nat)
    requires i != j && ArrayIndex(t, i).Some? && ArrayIndex(t, j).Some?
    requires Lookup(t, i).value.radio == Lookup(t, j).value.radio
    ensures ArrayIndex(t, i) != ArrayIndex(t, j)
  {
    var p, q := First(t, i), First(t, j);
    if p < q {
      OnRadioStep(t, p, t[p].radio);
      OnRadioMonotone(t, p + 1, q, t[p].radio);
    } else {
      OnRadioStep(t, q, t[p].radio);
      OnRadioMonotone(t, q + 1, p, t[p].radio);
    }
  }

  /** Every rank below the radio's entry count is taken by an entry of that radio. */
  lemma {:induction false} RankSurjective(t: Table, n: nat, radio: nat, rank: nat) returns (p: nat)
    requires n <= |t| && rank < OnRadio(t[..n], radio)
    ensures p < n && t[p].radio == radio && Rank(t, p) == rank
    decreases n
  {
    OnRadioStep(t, n - 1, radio);
    if t[n - 1].radio == radio && rank == OnRadio(t[..n - 1], radio) {
      p := n - 1;
    } else {
      p := RankSurjective(t, n - 1, radio, rank);
    }
  }
}
