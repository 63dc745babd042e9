/** The feature parameters of a document: a map of names to booleans, read until the required ones are found. */
module DocumentParams {
  import opened MsgpackObjects

  datatype Field = FingerPrint | Softflowd | SafeBrowsing | ParentalControl | PrivacyProtection

  /** The names already differ in their first two letters. */
  function Initials(f: Field): string {
    match f
    case FingerPrint => "Fi"
    case Softflowd => "So"
    case SafeBrowsing => "Sa"
    case ParentalControl => "Pa"
    case PrivacyProtection => "Pr"
  }

  function Name(f: Field): (s: string)
    ensures NoNul(s) && |s| > 2 && s[..2] == Initials(f)
  {
    match f
    case FingerPrint => "FingerPrintEnable"
    case Softflowd => "SoftflowdEnable"
    case SafeBrowsing => "SafeBrowsingEnable"
    case ParentalControl => "ParentalControlActivate"
    case PrivacyProtection => "PrivacyProtectionActivate"
  }

  /** The bit of objects_left that an entry for the field clears. */
  function Bit(f: Field): nat {
    match f
    case FingerPrint => 0
    case ParentalControl => 1
    case PrivacyProtection => 2
    case Softflowd => 3
    case SafeBrowsing => 4
  }

  /** A mask, as the set of the positions of its one bits. */
  type Mask = set<nat>

  /** What objects_left starts with, 0x05: the bits of the required fields. */
  const REQUIRED: Mask := {0, 2}

  datatype Params = Params(fingerPrint: bool, softflowd: bool, safeBrowsing: bool, parentalControl: bool, privacyProtection: bool) {
    function Get(f: Field): bool {
      match f
      case FingerPrint => fingerPrint
      case Softflowd => softflowd
      case SafeBrowsing => safeBrowsing
      case ParentalControl => parentalControl
      case PrivacyProtection => privacyProtection
    }

    function Set(f: Field, b: bool): Params {
      match f
      case FingerPrint => this.(fingerPrint := b)
      case Softflowd => this.(softflowd := b)
      case SafeBrowsing => this.(safeBrowsing := b)
      case ParentalControl => this.(parentalControl := b)
      case PrivacyProtection => this.(privacyProtection := b)
    }
  }

  /** memset */
  const ZERO: Params := Params(false, false, false, false, false)

  /** The entry sets the field. */
  predicate Hit(kv: Kv, f: Field) {
    kv.key.Str? && kv.val.Bool? && Match(kv, Name(f))
  }

  predicate Has(kvs: seq<Kv>, f: Field) {
    exists i | 0 <= i < |kvs| :: Hit(kvs[i], f)
  }

  /** The last value given for the field, or the one it had. */
  function Value(f: Field, initial: bool, kvs: seq<Kv>): bool {
    if |kvs| == 0 then initial
    else
      var kv := kvs[|kvs| - 1];
      if Hit(kv, f) then kv.val.b else Value(f, initial, kvs[..|kvs| - 1])
  }

  /** Both required fields occur. */
  predicate Complete(kvs: seq<Kv>) {
    Has(kvs, FingerPrint) && Has(kvs, PrivacyProtection)
  }

  /** In plain terms: a boolean under a key that is a prefix of the name, or the name followed by a NUL. */
  predicate Named(kv: Kv, name: string) {
    kv.key.Str? && kv.val.Bool? && (kv.key.s <= name || name + ['\0'] <= kv.key.s)
  }

  lemma HitByName(kv: Kv, f: Field)
    ensures Hit(kv, f) <==> Named(kv, Name(f))
  {
    if kv.key.Str? {
      MatchIff(kv, Name(f));
    }
  }

  lemma HasByName(kvs: seq<Kv>, f: Field)
    ensures Has(kvs, f) <==> exists kv | kv in kvs :: Named(kv, Name(f))
  {
    forall kv | kv in kvs
      ensures Hit(kv, f) <==> Named(kv, Name(f))
    {
      HitByName(kv, f);
    }
  }

  /** Which two parameters are required. */
  lemma CompleteByName(kvs: seq<Kv>)
    ensures Complete(kvs) <==>
            (exists kv | kv in kvs :: Named(kv, "FingerPrintEnable")) && exists kv | kv in kvs :: Named(kv, "PrivacyProtectionActivate")
  {
    HasByName(kvs, FingerPrint);
    HasByName(kvs, PrivacyProtection);
  }

  /** b is what the last entry of that name says, or initial if there is none. */
  ghost predicate LastNamed(kvs: seq<Kv>, name: string, initial: bool, b: bool) {
    || (b == initial && forall i | 0 <= i < |kvs| :: !Named(kvs[i], name))
    || exists k | 0 <= k < |kvs| :: Named(kvs[k], name) && b == kvs[k].val.b && forall j | k < j < |kvs| :: !Named(kvs[j], name)
  }

  lemma {:induction false} ValueByName(f: Field, initial: bool, kvs: seq<Kv>)
    ensures LastNamed(kvs, Name(f), initial, Value(f, initial, kvs))
  {
    if |kvs| > 0 {
      var n := |kvs| - 1;
      HitByName(kvs[n], f);
      if !Hit(kvs[n], f) {
        ValueByName(f, initial, kvs[..n]);
        LastNamedNext(kvs, Name(f), initial, Value(f, initial, kvs));
      }
    }
  }

  lemma LastNamedNext(kvs: seq<Kv>, name: string, initial: bool, b: bool)
    requires |kvs| > 0 && LastNamed(kvs[..|kvs| - 1], name, initial, b) && !Named(kvs[|kvs| - 1], name)
    ensures LastNamed(kvs, name, initial, b)
  {
    var n := |kvs| - 1;
    assert forall i | 0 <= i < n :: kvs[..n][i] == kvs[i];
  }

  /** How many entries are read: the shortest prefix with both required fields, or all of them. */
  function Cut(kvs: seq<Kv>): (n: nat)
    ensures n <= |kvs|
    ensures Complete(kvs) ==> Complete(kvs[..n])
    ensures !Complete(kvs) ==> n == |kvs|
    ensures forall m: nat | m < n :: !Complete(kvs[..m])
  {
    if |kvs| == 0 || !Complete(kvs[..|kvs| - 1]) then
      assert kvs[..|kvs|] == kvs;
      NotBefore(kvs);
      |kvs|
    else
      var before := kvs[..|kvs| - 1];
      var n := Cut(before);
      assert kvs[..n] == before[..n];
      assert forall m: nat | m < n :: kvs[..m] == before[..m];
      HasGrows(before, kvs, FingerPrint);
      HasGrows(before, kvs, PrivacyProtection);
      n
  }

  lemma HasGrows(a: seq<Kv>, b: seq<Kv>, f: Field)
    requires a <= b && Has(a, f)
    ensures Has(b, f)
  {
  }

  lemma CompleteGrows(a: seq<Kv>, b: seq<Kv>)
    requires a <= b && Complete(a)
    ensures Complete(b)
  {
  }

  lemma NotBefore(kvs: seq<Kv>)
    requires |kvs| == 0 || !Complete(kvs[..|kvs| - 1])
    ensures forall m: nat | m < |kvs| :: !Complete(kvs[..m])
  {
  }

  lemma HasNext(kvs: seq<Kv>, k: nat, f: Field)
    requires k < |kvs|
    ensures Has(kvs[..k + 1], f) <==> Has(kvs[..k], f) || Hit(kvs[k], f)
  {
    if Has(kvs[..k], f) {
      HasGrows(kvs[..k], kvs[..k + 1], f);
    }
    if Has(kvs[..k + 1], f) {
      var i :| 0 <= i < |kvs[..k + 1]| && Hit(kvs[..k + 1][i], f);
      assert i < k ==> kvs[..k][i] == kvs[i];
    }
    assert kvs[..k + 1][k] == kvs[k];
  }

  lemma ValueNext(f: Field, initial: bool, kvs: seq<Kv>, k: nat)
    requires k < |kvs|
    ensures Value(f, initial, kvs[..k + 1]) == if Hit(kvs[k], f) then kvs[k].val.b else Value(f, initial, kvs[..k])
  {
    assert kvs[..k + 1][..k] == kvs[..k];
  }

  /** objects_left holds exactly the required fields that are not in kvs. */
  ghost predicate Tracks(left: Mask, kvs: seq<Kv>) {
    && left <= REQUIRED
    && (Bit(FingerPrint) in left <==> !Has(kvs, FingerPrint))
    && (Bit(PrivacyProtection) in left <==> !Has(kvs, PrivacyProtection))
  }

  lemma EmptyIffComplete(left: Mask, kvs: seq<Kv>)
    requires Tracks(left, kvs)
    ensures left == {} <==> Complete(kvs)
  {
  }

  /** Every field holds the last value kvs gives it. */
  ghost predicate Folded(initial: Params, fields: Params, kvs: seq<Kv>) {
    forall f :: fields.Get(f) == Value(f, initial.Get(f), kvs)
  }

  /** One entry takes the fields from before to after, and objects_left from left to left'. */
  ghost predicate EntryRead(kv: Kv, before: Params, after: Params, left: Mask, left': Mask) {
    && (forall f :: after.Get(f) == if Hit(kv, f) then kv.val.b else before.Get(f))
    && (forall f :: Bit(f) in left' <==> Bit(f) in left && !Hit(kv, f))
    && left' <= left
  }

  lemma NextEntry(kvs: seq<Kv>, k: nat, initial: Params, before: Params, after: Params, left: Mask, left': Mask)
    requires k < |kvs| && Tracks(left, kvs[..k]) && Folded(initial, before, kvs[..k])
    requires EntryRead(kvs[k], before, after, left, left')
    ensures Tracks(left', kvs[..k + 1]) && Folded(initial, after, kvs[..k + 1])
  {
    HasNext(kvs, k, FingerPrint);
    HasNext(kvs, k, PrivacyProtection);
    forall f {
      ValueNext(f, initial.Get(f), kvs, k);
    }
  }

  /** advsecurityparam_t */
  class Param {
    var fields: Params

    constructor ()
      ensures fields == ZERO
    {
      fields := ZERO;
    }

    /** One of the comparisons of an entry's key. */
    method ReadField(kv: Kv, f: Field, left: Mask) returns (left': Mask)
      requires kv.key.Str? && kv.val.Bool?
      modifies this
      ensures forall g :: fields.Get(g) == if g == f && Hit(kv, f) then kv.val.b else old(fields).Get(g)
      ensures left' <= left && forall g :: Bit(g) in left' <==> Bit(g) in left && !(g == f && Hit(kv, f))
    {
      left' := left;
      if Match(kv, Name(f)) {
        fields := fields.Set(f, kv.val.b);
        left' := left - {Bit(f)};
      }
    }

    /** One entry of the map: all five comparisons, in order. */
    method ReadEntry(kv: Kv, left: Mask) returns (left': Mask)
      modifies this
      ensures EntryRead(kv, old(fields), fields, left, left')
    {
      left' := left;
      if kv.key.Str? && kv.val.Bool? {
        left' := ReadField(kv, FingerPrint, left');
        left' := ReadField(kv, Softflowd, left');
        left' := ReadField(kv, SafeBrowsing, left');
        left' := ReadField(kv, ParentalControl, left');
        left' := ReadField(kv, PrivacyProtection, left');
      }
    }

    /** process_advsecurityparams: read entries until no required field is left. */
    method Process(kvs: seq<Kv>) returns (ret: int)
      modifies this
      ensures Folded(old(fields), fields, kvs[..Cut(kvs)])
      ensures ret == if Complete(kvs) then 0 else -1
    {
      var left := REQUIRED;
      var k := 0;
      while left != {} && k < |kvs|
        invariant 0 <= k <= |kvs|
        invariant Tracks(left, kvs[..k]) && Folded(old(fields), fields, kvs[..k])
        invariant forall m: nat | m < k :: !Complete(kvs[..m])
      {
        EmptyIffComplete(left, kvs[..k]);
        ghost var before := fields;
        var left' := ReadEntry(kvs[k], left);
        NextEntry(kvs, k, old(fields), before, fields, left, left');
        left, k := left', k + 1;
      }
      EmptyIffComplete(left, kvs[..k]);
      CutIs(kvs, k);
      ret := if left == {} then 0 else -1;
    }
  }

  lemma CutIs(kvs: seq<Kv>, k: nat)
    requires k <= |kvs| && (Complete(kvs[..k]) || k == |kvs|)
    requires forall m: nat | m < k :: !Complete(kvs[..m])
    ensures k == Cut(kvs)
    ensures Complete(kvs[..k]) == Complete(kvs)
  {
  }

  // ----- independence of the order

  /** Entries are for a field only under its exact name, and no two entries have the same key. */
  ghost predicate ExactAndDistinct(kvs: seq<Kv>) {
    && (forall i, f | 0 <= i < |kvs| && Hit(kvs[i], f) :: kvs[i].key.s == Name(f))
    && (forall i, j | 0 <= i < j < |kvs| :: kvs[i].key != kvs[j].key)
  }

  lemma {:induction false} ValueIsTheEntry(f: Field, initial: bool, kvs: seq<Kv>, i: nat)
    requires ExactAndDistinct(kvs) && i < |kvs| && Hit(kvs[i], f)
    ensures Value(f, initial, kvs) == kvs[i].val.b
  {
    var n := |kvs| - 1;
    if i < n {
      assert kvs[i].key != kvs[n].key;
      assert !Hit(kvs[n], f);
      assert kvs[..n][i] == kvs[i];
      ValueIsTheEntry(f, initial, kvs[..n], i);
    }
  }

  lemma {:induction false} ValueWithoutEntry(f: Field, initial: bool, kvs: seq<Kv>)
    requires !Has(kvs, f)
    ensures Value(f, initial, kvs) == initial
  {
    if |kvs| > 0 {
      var n := |kvs| - 1;
      assert !Hit(kvs[n], f);
      if Has(kvs[..n], f) {
        HasGrows(kvs[..n], kvs, f);
      }
      ValueWithoutEntry(f, initial, kvs[..n]);
    }
  }

  lemma SameEntries(a: seq<Kv>, b: seq<Kv>, i: nat) returns (j: nat)
    requires multiset(a) == multiset(b) && i < |a|
    ensures j < |b| && b[j] == a[i]
  {
    assert a[i] in multiset(b);
    j :| 0 <= j < |b| && b[j] == a[i];
  }

  lemma SameValue(f: Field, initial: bool, a: seq<Kv>, b: seq<Kv>)
    requires multiset(a) == multiset(b) && ExactAndDistinct(a) && ExactAndDistinct(b)
    ensures Has(a, f) <==> Has(b, f)
    ensures Value(f, initial, a) == Value(f, initial, b)
  {
    if i: nat :| i < |a| && Hit(a[i], f) {
      var j := SameEntries(a, b, i);
      ValueIsTheEntry(f, initial, a, i);
      ValueIsTheEntry(f, initial, b, j);
    } else {
      forall j: nat | j < |b|
        ensures !Hit(b[j], f)
      {
        var i := SameEntries(b, a, j);
      }
      ValueWithoutEntry(f, initial, a);
      ValueWithoutEntry(f, initial, b);
    }
  }

  /** With a required field last, nothing before it completes the map, so everything is read. */
  lemma RequiredLastReadsAll(kvs: seq<Kv>, f: Field)
    requires f == FingerPrint || f == PrivacyProtection
    requires |kvs| > 0 && ExactAndDistinct(kvs) && Hit(kvs[|kvs| - 1], f)
    ensures Cut(kvs) == |kvs|
  {
    var n := |kvs| - 1;
    forall i | 0 <= i < n
      ensures !Hit(kvs[..n][i], f)
    {
      assert kvs[i].key != kvs[n].key;
    }
    assert !Complete(kvs[..n]);
  }

  /** Then the order of the other entries makes no difference, neither to the result nor to any field. */
  lemma OrderDoesNotMatter(a: seq<Kv>, b: seq<Kv>, f: Field, g: Field, initial: bool)
    requires f == FingerPrint || f == PrivacyProtection
    requires multiset(a) == multiset(b) && ExactAndDistinct(a) && ExactAndDistinct(b)
    requires |a| > 0 && |b| > 0 && a[|a| - 1] == b[|b| - 1] && Hit(a[|a| - 1], f)
    ensures Complete(a) == Complete(b)
    ensures Value(g, initial, a[..Cut(a)]) == Value(g, initial, b[..Cut(b)])
  {
    RequiredLastReadsAll(a, f);
    RequiredLastReadsAll(b, f);
    assert a[..|a|] == a && b[..|b|] == b;
    SameValue(FingerPrint, initial, a, b);
    SameValue(PrivacyProtection, initial, a, b);
    SameValue(g, initial, a, b);
  }

  /** A full name is a name of its own field only. */
  lemma ExactNameHits(kv: Kv, f: Field, g: Field)
    requires kv.key == Str(Name(f)) && kv.val.Bool?
    ensures Hit(kv, g) <==> g == f
  {
    MatchIff(kv, Name(g));
    assert g != f ==> Initials(f) != Initials(g);
    if g != f {
      Apart(Name(f), Name(g));
    }
  }

  lemma Apart(a: string, b: string)
    requires |a| > 2 && |b| > 2 && a[..2] != b[..2]
    ensures !(a <= b) && !(b + [NUL] <= a)
  {
  }

  lemma Exact3(fp: Kv, pp: Kv, other: Kv)
    requires fp.key == Str(Name(FingerPrint)) && pp.key == Str(Name(PrivacyProtection)) && other.key == Str(Name(Softflowd))
    requires fp.val.Bool? && pp.val.Bool? && other.val.Bool?
    ensures Hit(fp, FingerPrint) && Hit(pp, PrivacyProtection) && Hit(other, Softflowd)
    ensures !Hit(fp, Softflowd) && !Hit(pp, Softflowd) && !Hit(fp, PrivacyProtection) && !Hit(other, PrivacyProtection)
  {
    ExactNameHits(fp, FingerPrint, FingerPrint);
    ExactNameHits(pp, PrivacyProtection, PrivacyProtection);
    ExactNameHits(other, Softflowd, Softflowd);
    ExactNameHits(fp, FingerPrint, Softflowd);
    ExactNameHits(pp, PrivacyProtection, Softflowd);
    ExactNameHits(fp, FingerPrint, PrivacyProtection);
    ExactNameHits(other, Softflowd, PrivacyProtection);
  }

  /** With a field after both required ones, order does matter: what comes later is not read. */
  lemma EarlyExitDropsFields(fp: Kv, pp: Kv, other: Kv)
    requires fp.key == Str("FingerPrintEnable") && pp.key == Str("PrivacyProtectionActivate") && other.key == Str("SoftflowdEnable")
    requires fp.val.Bool? && pp.val.Bool? && other.val == Bool(true)
    ensures !Value(Softflowd, false, [fp, pp, other][..Cut([fp, pp, other])])
    ensures Value(Softflowd, false, [other, fp, pp][..Cut([other, fp, pp])])
  {
    Exact3(fp, pp, other);
    LateFieldDropped(fp, pp, other, Softflowd);
    EarlyFieldKept(other, fp, pp, Softflowd);
  }

  lemma LateFieldDropped(a: Kv, b: Kv, c: Kv, f: Field)
    requires Hit(a, FingerPrint) && Hit(b, PrivacyProtection) && !Hit(a, f) && !Hit(b, f)
    ensures !Value(f, false, [a, b, c][..Cut([a, b, c])])
  {
    var kvs := [a, b, c];
    assert Hit(kvs[..2][0], FingerPrint) && Hit(kvs[..2][1], PrivacyProtection);
    assert Complete(kvs[..2]);
    var read := kvs[..Cut(kvs)];
    assert |read| <= 2;
    forall i | 0 <= i < |read|
      ensures !Hit(read[i], f)
    {
      assert read[i] == kvs[i];
    }
    ValueWithoutEntry(f, false, read);
  }

  lemma EarlyFieldKept(a: Kv, b: Kv, c: Kv, f: Field)
    requires Hit(a, f) && a.val.b && !Hit(b, f) && !Hit(c, f)
    requires !Hit(a, PrivacyProtection) && !Hit(b, PrivacyProtection)
    ensures Value(f, false, [a, b, c][..Cut([a, b, c])])
  {
    var kvs := [a, b, c];
    assert kvs[..2] == [a, b] && !Has([a, b], PrivacyProtection);
    assert Cut(kvs) == 3 && kvs[..3] == kvs;
    ValueNext(f, false, kvs, 2);
    ValueNext(f, false, kvs, 1);
    ValueNext(f, false, kvs, 0);
  }

  /** An empty key is a name of every field: one such entry sets them all and completes the map. */
  lemma EmptyKeyHitsAll(kv: Kv, rest: seq<Kv>)
    requires kv.key == Str("") && kv.val.Bool?
    ensures forall f :: Hit(kv, f)
    ensures Cut([kv] + rest) == 1
    ensures forall f, initial :: Value(f, initial, ([kv] + rest)[..1]) == kv.val.b
  {
    forall f
      ensures Hit(kv, f)
    {
      MatchIff(kv, Name(f));
    }
    assert ([kv] + rest)[..1] == [kv] && Hit([kv][0], FingerPrint);
    assert Complete([kv]);
    CompleteGrows([kv], [kv] + rest);
    assert !Complete(([kv] + rest)[..0]);
  }
}
