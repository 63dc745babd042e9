/** From a decoded msgpack object to a document: find the four entries, then read them. */
module DocumentDecoder {
  import opened Wrappers
  import opened MsgpackObjects
  import opened DocumentParams

  const WRAPPER: string := "advsecurity"
  const SUBDOC_NAME: string := "subdoc_name"
  const VERSION: string := "version"
  const TRANSACTION_ID: string := "transaction_id"

  const UINT32_MODULUS: nat := 0x1_0000_0000
  const UINT16_MODULUS: nat := 0x1_0000

  datatype Errno = HelpersOk | OutOfMemory | InvalidFirstElement | MissingWrapper | Earlier

  datatype Document = Document(param: Option<Params>, subdocName: Option<string>, version: nat, transactionId: nat)

  /** The allocated, zeroed structure. */
  const EMPTY: Document := Document(None, None, 0, 0)

  /** Undefined: the code dereferences a null pointer, or reads an object as a type it does not have. */
  datatype Result = Doc(doc: Document) | Null | Undefined

  /** What the buffer is: missing or empty, not one whole msgpack object, or an object. */
  datatype Buffer = Missing | Malformed | Unpacked(obj: Object)

  /** Outcomes of the two allocations. */
  datatype Memory = Memory(doc: bool, param: bool)

  /** The finder, told to expect a map, takes the entry for the name: prefixes of the name only if the value is a map. */
  predicate Takes(kv: Kv, name: string) {
    kv.key.Str? && if kv.val.Map? then Match(kv, name) else StartsLike(kv, name)
  }

  /** In plain terms: a prefix of the name, or the name and a NUL, for a map; a key that starts like the name for another value. */
  predicate Fits(kv: Kv, name: string) {
    && kv.key.Str?
    && if kv.val.Map? then kv.key.s <= name || name + ['\0'] <= kv.key.s else name <= kv.key.s + kv.tail
  }

  lemma TakesIffFits(kv: Kv, name: string)
    requires NoNul(name)
    ensures Takes(kv, name) <==> Fits(kv, name)
  {
    if kv.key.Str? {
      MatchIff(kv, name);
      StartsLikeIff(kv, name);
    }
  }

  /** r is the value of the first entry that fits, if any does. */
  ghost predicate FirstFit(kvs: seq<Kv>, name: string, r: Option<Object>) {
    match r
    case None => forall i | 0 <= i < |kvs| :: !Fits(kvs[i], name)
    case Some(val) => exists i | 0 <= i < |kvs| :: Fits(kvs[i], name) && val == kvs[i].val && forall k | 0 <= k < i :: !Fits(kvs[k], name)
  }

  lemma {:induction false} FoundIsFirstFit(kvs: seq<Kv>, name: string)
    requires NoNul(name)
    ensures FirstFit(kvs, name, Found(kvs, name))
  {
    if |kvs| > 0 {
      var n := |kvs| - 1;
      FoundIsFirstFit(kvs[..n], name);
      TakesIffFits(kvs[n], name);
      assert forall i | 0 <= i < n :: kvs[..n][i] == kvs[i];
    }
  }

  /** The first entry taken for the name. */
  function Found(kvs: seq<Kv>, name: string): (r: Option<Object>)
    ensures r.None? <==> forall i | 0 <= i < |kvs| :: !Takes(kvs[i], name)
  {
    if |kvs| == 0 then None
    else
      var earlier := Found(kvs[..|kvs| - 1], name);
      if earlier.Some? then earlier
      else if Takes(kvs[|kvs| - 1], name) then Some(kvs[|kvs| - 1].val)
      else None
  }

  /** process_advsecuritydoc can be carried out on what the finder found. */
  predicate Readable(inner: Object, name: Option<Object>, version: Option<Object>, tid: Option<Object>) {
    && inner.Map?
    && name.Some? && name.value.Str?
    && version.Some? && version.value.U64?
    && tid.Some? && tid.value.U64?
  }

  /** All that a document's parameters come to. */
  function ParamsOf(kvs: seq<Kv>): Params {
    var read := kvs[..Cut(kvs)];
    Params(Value(FingerPrint, false, read), Value(Softflowd, false, read), Value(SafeBrowsing, false, read),
           Value(ParentalControl, false, read), Value(PrivacyProtection, false, read))
  }

  lemma FoldedIsParamsOf(fields: Params, kvs: seq<Kv>)
    requires Folded(ZERO, fields, kvs[..Cut(kvs)])
    ensures fields == ParamsOf(kvs)
  {
    var read := kvs[..Cut(kvs)];
    assert fields.Get(FingerPrint) == Value(FingerPrint, false, read);
    assert fields.Get(Softflowd) == Value(Softflowd, false, read);
    assert fields.Get(SafeBrowsing) == Value(SafeBrowsing, false, read);
    assert fields.Get(ParentalControl) == Value(ParentalControl, false, read);
    assert fields.Get(PrivacyProtection) == Value(PrivacyProtection, false, read);
  }

  /** advsecuritydoc_t */
  class AdvsecurityDoc {
    var doc: Document

    constructor ()
      ensures doc == EMPTY
    {
      doc := EMPTY;
    }

    /** process_advsecuritydoc */
    method Process(inner: Object, name: Option<Object>, version: Option<Object>, tid: Option<Object>, memory: bool) returns (ret: int)
      requires Readable(inner, name, version, tid)
      modifies this
      ensures ret == if memory && Complete(inner.kvs) then 0 else -1
      ensures doc == Document(if memory then Some(ParamsOf(inner.kvs)) else old(doc.param), Some(CString(name.value.s)),
                              version.value.n % 0x1_0000_0000, tid.value.n % 0x1_0000)
    {
      doc := doc.(subdocName := Some(CString(name.value.s)));
      doc := doc.(version := version.value.n % UINT32_MODULUS);
      doc := doc.(transactionId := tid.value.n % UINT16_MODULUS);
      if !memory {
        return -1;
      }
      var param := new Param();
      ret := param.Process(inner.kvs);
      FoldedIsParamsOf(param.fields, inner.kvs);
      doc := doc.(param := Some(param.fields));
    }
  }

  /** What decoding gives, and what errno is afterwards if it was e before. */
  ghost predicate Decodes(buffer: Buffer, memory: Memory, e: Errno, r: Result, e': Errno) {
    if !memory.doc then r == Null && e' == OutOfMemory
    else if buffer.Missing? then r == Doc(EMPTY) && e' == e
    else if buffer.Malformed? || !buffer.obj.Map? then r == Null && e' == e
    else
      var kvs := buffer.obj.kvs;
      var inner := Found(kvs, WRAPPER);
      if inner.None? then r == Doc(EMPTY) && e' == HelpersOk
      else
        var name, version, tid := Found(kvs, SUBDOC_NAME), Found(kvs, VERSION), Found(kvs, TRANSACTION_ID);
        if !Readable(inner.value, name, version, tid) then r == Undefined
        else if !memory.param || !Complete(inner.value.kvs) then r == Null && e' == InvalidFirstElement
        else
          && e' == HelpersOk
          && r == Doc(Document(Some(ParamsOf(inner.value.kvs)), Some(CString(name.value.s)),
                               version.value.n % UINT32_MODULUS, tid.value.n % UINT16_MODULUS))
  }

  class Decoder {
    var errno: Errno

    constructor ()
      ensures errno == Earlier
    {
      errno := Earlier;
    }

    /** __finder_comp, with a map expected. */
    method Find(kvs: seq<Kv>, name: string) returns (r: Option<Object>)
      modifies this
      ensures r == Found(kvs, name)
      ensures NoNul(name) ==> FirstFit(kvs, name, r)
      ensures errno == if r.None? then MissingWrapper else old(errno)
    {
      if NoNul(name) {
        FoundIsFirstFit(kvs, name);
      }
      var i := 0;
      while i < |kvs|
        invariant 0 <= i <= |kvs|
        invariant Found(kvs[..i], name) == None
        invariant errno == old(errno)
      {
        assert kvs[..i + 1][..i] == kvs[..i];
        if kvs[i].key.Str? {
          if kvs[i].val.Map? {
            if Match(kvs[i], name) {
              FoundStays(kvs, i + 1, name);
              return Some(kvs[i].val);
            }
          } else {
            if StartsLike(kvs[i], name) {
              FoundStays(kvs, i + 1, name);
              return Some(kvs[i].val);
            }
          }
        }
        i := i + 1;
      }
      assert kvs[..|kvs|] == kvs;
      errno := MissingWrapper;
      r := None;
    }

    /** advsecuritydoc_convert */
    method Convert(buffer: Buffer, memory: Memory) returns (r: Result)
      modifies this
      ensures Decodes(buffer, memory, old(errno), r, errno)
      ensures !memory.doc ==> r == Null && errno == OutOfMemory
      ensures memory.doc && buffer.Missing? ==> r == Doc(Document(None, None, 0, 0)) && errno == old(errno)
      ensures memory.doc && (buffer.Malformed? || (buffer.Unpacked? && !buffer.obj.Map?)) ==> r == Null && errno == old(errno)
    {
      if !memory.doc {
        errno := OutOfMemory;
        return Null;
      }
      if buffer.Missing? {
        return Doc(EMPTY);
      }
      if buffer.Malformed? || !buffer.obj.Map? {
        return Null;
      }
      var kvs := buffer.obj.kvs;
      var inner := Find(kvs, WRAPPER);
      var name := Find(kvs, SUBDOC_NAME);
      var version := Find(kvs, VERSION);
      var tid := Find(kvs, TRANSACTION_ID);
      if inner.None? {
        errno := HelpersOk;
        return Doc(EMPTY);
      }
      if !Readable(inner.value, name, version, tid) {
        return Undefined;
      }
      var p := new AdvsecurityDoc();
      var ret := p.Process(inner.value, name, version, tid, memory.param);
      if ret != 0 {
        errno := InvalidFirstElement;
        return Null;
      }
      errno := HelpersOk;
      r := Doc(p.doc);
    }
  }

  /** Entries after the first that is taken make no difference. */
  lemma {:induction false} FoundStays(kvs: seq<Kv>, i: nat, name: string)
    requires i <= |kvs| && Found(kvs[..i], name).Some?
    ensures Found(kvs, name) == Found(kvs[..i], name)
  {
    if i < |kvs| {
      assert kvs[..|kvs| - 1][..i] == kvs[..i];
      FoundStays(kvs[..|kvs| - 1], i, name);
    } else {
      assert kvs[..i] == kvs;
    }
  }

  // ----- a well-formed document

  /** An entry under exactly this name. */
  predicate IsFor(kv: Kv, name: string) {
    kv.key == Str(name)
  }

  lemma TakesOwnName(kv: Kv, name: string)
    requires IsFor(kv, name) && NoNul(name)
    ensures Takes(kv, name)
  {
    MatchIff(kv, name);
    StartsLikeIff(kv, name);
  }

  /** Names that differ in their first letter are never taken for one another, whatever follows the key in memory. */
  lemma TakesNoOther(kv: Kv, name: string, other: string)
    requires IsFor(kv, other) && |name| > 0 && |other| > 0 && name[0] != other[0]
    ensures !Takes(kv, name)
  {
  }

  /** The first entry is the right one if every entry is for the name with this value, or is not taken. */
  lemma {:induction false} FoundIs(kvs: seq<Kv>, name: string, val: Object, i: nat)
    requires i < |kvs| && Takes(kvs[i], name)
    requires forall k | 0 <= k < |kvs| && Takes(kvs[k], name) :: kvs[k].val == val
    ensures Found(kvs, name) == Some(val)
  {
    var n := |kvs| - 1;
    if Found(kvs[..n], name).Some? {
      var k :| 0 <= k < n && Takes(kvs[..n][k], name);
      FoundIs(kvs[..n], name, val, k);
    } else {
      forall k | 0 <= k < n
        ensures !Takes(kvs[k], name)
      {
        assert kvs[..n][k] == kvs[k];
      }
    }
  }

  /** The four entries of a document, and no others, in any order. */
  ghost predicate WellFormed(kvs: seq<Kv>, params: seq<Kv>, name: string, version: nat, tid: nat) {
    && (forall i | 0 <= i < |kvs| ::
          || (kvs[i].key == Str("advsecurity") && kvs[i].val == Map(params))
          || (kvs[i].key == Str("subdoc_name") && kvs[i].val == Str(name))
          || (kvs[i].key == Str("version") && kvs[i].val == U64(version))
          || (kvs[i].key == Str("transaction_id") && kvs[i].val == U64(tid)))
    && Present(kvs, "advsecurity") && Present(kvs, "subdoc_name") && Present(kvs, "version") && Present(kvs, "transaction_id")
  }

  ghost predicate Present(kvs: seq<Kv>, name: string) {
    exists i | 0 <= i < |kvs| :: IsFor(kvs[i], name)
  }

  lemma FinderFinds(kvs: seq<Kv>, name: string, val: Object)
    requires NoNul(name) && Present(kvs, name)
    requires forall i | 0 <= i < |kvs| ::
               if IsFor(kvs[i], name) then kvs[i].val == val
               else kvs[i].key.Str? && |kvs[i].key.s| > 0 && |name| > 0 && kvs[i].key.s[0] != name[0]
    ensures Found(kvs, name) == Some(val)
  {
    var i :| 0 <= i < |kvs| && IsFor(kvs[i], name);
    TakesOwnName(kvs[i], name);
    forall k | 0 <= k < |kvs| && Takes(kvs[k], name)
      ensures kvs[k].val == val
    {
      if !IsFor(kvs[k], name) {
        TakesNoOther(kvs[k], name, kvs[k].key.s);
      }
    }
    FoundIs(kvs, name, val, i);
  }

  /** The four names begin with four different letters. */
  lemma Letters()
    ensures WRAPPER[0] == 'a' && SUBDOC_NAME[0] == 's' && VERSION[0] == 'v' && TRANSACTION_ID[0] == 't'
    ensures NoNul(WRAPPER) && NoNul(SUBDOC_NAME) && NoNul(VERSION) && NoNul(TRANSACTION_ID)
  {
  }

  /** In any order, the four entries are found under their own names. */
  lemma FindsAllFour(kvs: seq<Kv>, params: seq<Kv>, name: string, version: nat, tid: nat)
    requires WellFormed(kvs, params, name, version, tid)
    ensures Found(kvs, "advsecurity") == Some(Map(params))
    ensures Found(kvs, "subdoc_name") == Some(Str(name))
    ensures Found(kvs, "version") == Some(U64(version))
    ensures Found(kvs, "transaction_id") == Some(U64(tid))
  {
    Letters();
    FinderFinds(kvs, WRAPPER, Map(params));
    FinderFinds(kvs, SUBDOC_NAME, Str(name));
    FinderFinds(kvs, VERSION, U64(version));
    FinderFinds(kvs, TRANSACTION_ID, U64(tid));
  }

  /**
   A well-formed document decodes, in whatever order its entries come: to its name, its version and
   transaction id cut to 32 and 16 bits, and its parameters; or to an error if a required one is missing
   or there is no memory for them.
   */
  lemma WellFormedDecodes(kvs: seq<Kv>, params: seq<Kv>, name: string, version: nat, tid: nat, memory: bool, e: Errno, r: Result, e': Errno)
    requires WellFormed(kvs, params, name, version, tid)
    requires Decodes(Unpacked(Map(kvs)), Memory(true, memory), e, r, e')
    ensures if && memory
               && (exists kv | kv in params :: Named(kv, "FingerPrintEnable"))
               && (exists kv | kv in params :: Named(kv, "PrivacyProtectionActivate"))
            then
              e' == HelpersOk
              && r == Doc(Document(Some(ParamsOf(params)), Some(CString(name)), version % 0x1_0000_0000, tid % 0x1_0000))
            else
              e' == InvalidFirstElement && r == Null
  {
    FindsAllFour(kvs, params, name, version, tid);
    CompleteByName(params);
  }

  /** Without an entry that fits the wrapper's name the document is the empty one, and no error. */
  lemma NoWrapperDecodesToEmpty(kvs: seq<Kv>, memory: bool, e: Errno, r: Result, e': Errno)
    requires forall i | 0 <= i < |kvs| :: !Fits(kvs[i], "advsecurity")
    requires Decodes(Unpacked(Map(kvs)), Memory(true, memory), e, r, e')
    ensures r == Doc(Document(None, None, 0, 0)) && e' == HelpersOk
  {
    Letters();
    forall i | 0 <= i < |kvs|
      ensures !Takes(kvs[i], WRAPPER)
    {
      TakesIffFits(kvs[i], WRAPPER);
    }
  }

  /** Each decoded parameter is what the last entry of its name says, of the entries that are read. */
  lemma ParamsOfByName(kvs: seq<Kv>)
    ensures var params, read := ParamsOf(kvs), kvs[..Cut(kvs)];
            && LastNamed(read, "FingerPrintEnable", false, params.fingerPrint)
            && LastNamed(read, "SoftflowdEnable", false, params.softflowd)
            && LastNamed(read, "SafeBrowsingEnable", false, params.safeBrowsing)
            && LastNamed(read, "ParentalControlActivate", false, params.parentalControl)
            && LastNamed(read, "PrivacyProtectionActivate", false, params.privacyProtection)
  {
    var read := kvs[..Cut(kvs)];
    ValueByName(FingerPrint, false, read);
    ValueByName(Softflowd, false, read);
    ValueByName(SafeBrowsing, false, read);
    ValueByName(ParentalControl, false, read);
    ValueByName(PrivacyProtection, false, read);
  }
}
