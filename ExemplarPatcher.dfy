/**
 * ExemplarPatcher (src/resource-factory-proxies/Exemplar/ExemplarPatcher.cpp):
 * scans the cohort records of the exemplar-patch group into an index from a
 * target exemplar's key to the patches that target it, and copies those
 * patches' properties onto an exemplar when it loads.
 *
 * The host's resource manager is an input: the enumerated cohort records,
 * each with the property holder GetResource returns (None when the load
 * fails). A patch in the index is named by the position of its cohort record
 * in the scanned corpus, so one holder is shared by every key it targets.
 */
module ExemplarPatcher {
  import opened GZTypes

  /** kCohortTypeId and kExemplarPatchGroupId: the enumerated records' type and group. */
  const CohortTypeId: U32 := 0x05342861
  const ExemplarPatchGroupId: U32 := 0xb03697d1
  /** kExemplarTypeId: the type of every target key. */
  const ExemplarTypeId: U32 := 0x6534284a
  /** kExemplarNamePropertyId: never copied onto a target. */
  const ExemplarNamePropertyId: U32 := 0x20
  /** kExemplarPatchTargetPropertyId: the target list; never copied onto a target. */
  const ExemplarPatchTargetPropertyId: U32 := 0x0062e78a

  /** A property's cIGZVariant value: the target-list check distinguishes only uint32 arrays. */
  datatype Variant =
    | Uint32Array(values: seq<U32>)
    | OtherVariant(typeTag: nat, count: nat)

  /** A property holder: the properties by id. */
  type Properties = map<U32, Variant>

  /** One enumerated cohort record: its key and its property holder, None when GetResource fails. */
  datatype CohortRecord = CohortRecord(key: ResourceKey, holder: Option<Properties>)

  /** The two errors the scan logs, each naming the offending record. */
  datatype ScanDefect = NotUint32Array(key: ResourceKey) | OddLength(key: ResourceKey)

  /** The patch index: a target key's patches, as cohort positions, in discovery order. */
  type PatchIndex = map<ResourceKey, seq<nat>>

  // ---------------------------------------------------------------------
  // Scan
  // ---------------------------------------------------------------------

  /**
   * The target list a record contributes: present only when the record
   * loaded, has the target property, that property is a uint32 array and
   * its length is positive and even.
   */
  function TargetValues(record: CohortRecord): (values: Option<seq<U32>>)
    ensures values.Some? ==> |values.value| > 0 && |values.value| % 2 == 0
  {
    if record.holder.None? || ExemplarPatchTargetPropertyId !in record.holder.value then None
    else match record.holder.value[ExemplarPatchTargetPropertyId]
      case Uint32Array(values) => if |values| > 0 && |values| % 2 == 0 then Some(values) else None
      case OtherVariant(_, _) => None
  }

  /** The error a record makes the scan log, if any. */
  function RecordDefect(record: CohortRecord): (defect: Option<ScanDefect>)
    ensures defect.Some? ==> defect.value.key == record.key && TargetValues(record).None?
  {
    if record.holder.None? || ExemplarPatchTargetPropertyId !in record.holder.value then None
    else match record.holder.value[ExemplarPatchTargetPropertyId]
      case Uint32Array(values) => if |values| % 2 != 0 then Some(OddLength(record.key)) else None
      case OtherVariant(_, _) => Some(NotUint32Array(record.key))
  }

  /** The key pair `k` of a target list names. */
  function PairKey(values: seq<U32>, k: nat): ResourceKey
    requires 2 * k + 1 < |values|
  {
    ResourceKey(ExemplarTypeId, values[2 * k], values[2 * k + 1])
  }

  /** Append patch `id` to `key`'s list, creating the list when the key is new. */
  function AddTarget(index: PatchIndex, key: ResourceKey, id: nat): (r: PatchIndex)
    ensures r.Keys == index.Keys + {key}
  {
    if key in index then index[key := index[key] + [id]] else index[key := [id]]
  }

  /** The scan's inner loop: every (group, instance) pair of `values`, in order. */
  function AddTargets(index: PatchIndex, values: seq<U32>, id: nat): PatchIndex
    requires |values| % 2 == 0
  {
    if values == [] then index
    else
      var n := |values|;
      AddTarget(AddTargets(index, values[..n - 2], id), ResourceKey(ExemplarTypeId, values[n - 2], values[n - 1]), id)
  }

  /** The index ExemplarPatchScanCallback builds over the corpus, in enumeration order. */
  function ScanPatches(corpus: seq<CohortRecord>): PatchIndex
  {
    if corpus == [] then map[]
    else
      var n := |corpus| - 1;
      var index := ScanPatches(corpus[..n]);
      var values := TargetValues(corpus[n]);
      if values.Some? then AddTargets(index, values.value, n) else index
  }

  /** The errors the scan logs, in enumeration order. */
  function ScanDefects(corpus: seq<CohortRecord>): seq<ScanDefect>
  {
    if corpus == [] then []
    else
      var n := |corpus| - 1;
      var defect := RecordDefect(corpus[n]);
      ScanDefects(corpus[..n]) + (if defect.Some? then [defect.value] else [])
  }

  /** A record contributes targets, logs one error, or does neither (missing, unloaded or empty target list). */
  lemma RecordOutcome(record: CohortRecord)
    ensures !(TargetValues(record).Some? && RecordDefect(record).Some?)
    ensures record.holder.None? ==> TargetValues(record).None? && RecordDefect(record).None?
    ensures record.holder.Some? && ExemplarPatchTargetPropertyId !in record.holder.value ==>
              TargetValues(record).None? && RecordDefect(record).None?
    ensures record.holder.Some? && ExemplarPatchTargetPropertyId in record.holder.value ==>
              var v := record.holder.value[ExemplarPatchTargetPropertyId];
              && (!v.Uint32Array? ==> RecordDefect(record) == Some(NotUint32Array(record.key)))
              && (v.Uint32Array? && |v.values| % 2 != 0 ==> RecordDefect(record) == Some(OddLength(record.key)))
              && (v.Uint32Array? && |v.values| == 0 ==> TargetValues(record).None? && RecordDefect(record).None?)
              && (v.Uint32Array? && |v.values| > 0 && |v.values| % 2 == 0 ==> TargetValues(record) == Some(v.values))
  {
  }

  /** A record that contributes no targets leaves the index as it was. */
  lemma RejectedRecordAddsNothing(corpus: seq<CohortRecord>, record: CohortRecord)
    requires TargetValues(record).None?
    ensures ScanPatches(corpus + [record]) == ScanPatches(corpus)
  {
    assert (corpus + [record])[..|corpus|] == corpus;
  }

  function Get(index: PatchIndex, key: ResourceKey): seq<nat>
  {
    if key in index then index[key] else []
  }

  function Repeat(id: nat, count: nat): (s: seq<nat>)
    ensures |s| == count && forall j :: 0 <= j < count ==> s[j] == id
  {
    if count == 0 then [] else Repeat(id, count - 1) + [id]
  }

  /** How many pairs of `values` name `key`. */
  function PairCount(values: seq<U32>, key: ResourceKey): nat
    requires |values| % 2 == 0
  {
    if values == [] then 0
    else
      var n := |values|;
      PairCount(values[..n - 2], key) + (if key == ResourceKey(ExemplarTypeId, values[n - 2], values[n - 1]) then 1 else 0)
  }

  /**
   * The inner loop's effect on each key: its list gains `id` once per pair
   * naming it, at the end, with no deduplication; keys no pair names are
   * untouched, and only keys some pair names are added.
   */
  lemma {:induction false} AddTargetsSpec(index: PatchIndex, values: seq<U32>, id: nat, key: ResourceKey)
    requires |values| % 2 == 0
    ensures key in AddTargets(index, values, id) <==> key in index || PairCount(values, key) > 0
    ensures Get(AddTargets(index, values, id), key) == Get(index, key) + Repeat(id, PairCount(values, key))
  {
    if values != [] {
      var n := |values|;
      AddTargetsSpec(index, values[..n - 2], id, key);
    }
  }

  /** Pair k of a well-formed target list is in the index after the record is scanned. */
  lemma {:induction false} PairKeyIsIndexed(index: PatchIndex, values: seq<U32>, id: nat, k: nat)
    requires |values| % 2 == 0 && 2 * k + 1 < |values|
    ensures PairKey(values, k) in AddTargets(index, values, id)
    ensures PairCount(values, PairKey(values, k)) > 0
  {
    var n := |values|;
    if 2 * k + 1 < n - 2 {
      PairKeyIsIndexed(index, values[..n - 2], id, k);
      AddTargetsSpec(index, values[..n - 2], id, PairKey(values, k));
    }
  }

  /** Two distinct pairs in one record give two keys with a one-patch list each. */
  lemma TwoPairs(g1: U32, i1: U32, g2: U32, i2: U32, id: nat)
    requires (g1, i1) != (g2, i2)
    ensures AddTargets(map[], [g1, i1, g2, i2], id) ==
              map[ResourceKey(ExemplarTypeId, g1, i1) := [id], ResourceKey(ExemplarTypeId, g2, i2) := [id]]
  {
    var k1 := ResourceKey(ExemplarTypeId, g1, i1);
    var k2 := ResourceKey(ExemplarTypeId, g2, i2);
    assert [g1, i1, g2, i2][..2] == [g1, i1];
    assert [g1, i1][..0] == [];
    assert AddTargets(map[], [g1, i1], id) == map[k1 := [id]];
    assert k1 != k2;
  }

  /**
   * The index is well formed with respect to the corpus it was built from:
   * every list is non-empty and names records that contributed targets.
   */
  predicate IndexWellFormed(index: PatchIndex, cohorts: seq<CohortRecord>)
  {
    forall key | key in index ::
      |index[key]| > 0
      && forall j | 0 <= j < |index[key]| :: index[key][j] < |cohorts| && TargetValues(cohorts[index[key][j]]).Some?
  }

  lemma {:induction false} AddTargetsWellFormed(index: PatchIndex, values: seq<U32>, id: nat, cohorts: seq<CohortRecord>)
    requires |values| % 2 == 0
    requires IndexWellFormed(index, cohorts) && id < |cohorts| && TargetValues(cohorts[id]).Some?
    ensures IndexWellFormed(AddTargets(index, values, id), cohorts)
  {
    if values != [] {
      var n := |values|;
      AddTargetsWellFormed(index, values[..n - 2], id, cohorts);
      AddTargetWellFormed(AddTargets(index, values[..n - 2], id), ResourceKey(ExemplarTypeId, values[n - 2], values[n - 1]), id, cohorts);
    }
  }

  lemma AddTargetWellFormed(index: PatchIndex, key: ResourceKey, id: nat, cohorts: seq<CohortRecord>)
    requires IndexWellFormed(index, cohorts) && id < |cohorts| && TargetValues(cohorts[id]).Some?
    ensures IndexWellFormed(AddTarget(index, key, id), cohorts)
  {
    var r := AddTarget(index, key, id);
    forall k | k in r
      ensures |r[k]| > 0 && forall j | 0 <= j < |r[k]| :: r[k][j] < |cohorts| && TargetValues(cohorts[r[k][j]]).Some?
    {
      if k != key {
        assert r[k] == index[k];
      } else if key in index {
        assert r[k] == index[key] + [id];
      } else {
        assert r[k] == [id];
      }
    }
  }

  lemma {:induction false} IndexWellFormedExtends(index: PatchIndex, cohorts: seq<CohortRecord>, more: seq<CohortRecord>)
    requires IndexWellFormed(index, cohorts)
    ensures IndexWellFormed(index, cohorts + more)
  {
    forall key, j | key in index && 0 <= j < |index[key]|
      ensures (cohorts + more)[index[key][j]] == cohorts[index[key][j]]
    {
    }
  }

  /** Every key the scan indexes has a non-empty list of records that contributed targets. */
  lemma {:induction false} ScanPatchesWellFormed(corpus: seq<CohortRecord>)
    ensures IndexWellFormed(ScanPatches(corpus), corpus)
  {
    if corpus != [] {
      var n := |corpus| - 1;
      ScanPatchesWellFormed(corpus[..n]);
      IndexWellFormedExtends(ScanPatches(corpus[..n]), corpus[..n], [corpus[n]]);
      assert corpus[..n] + [corpus[n]] == corpus;
      if TargetValues(corpus[n]).Some? {
        AddTargetsWellFormed(ScanPatches(corpus[..n]), TargetValues(corpus[n]).value, n, corpus);
      }
    }
  }

  /**
   * Scanning one more record only appends to lists, at their end: every
   * earlier key keeps its list as a prefix, and keys the record does not
   * name are unchanged.
   */
  lemma ScanPatchesAppends(corpus: seq<CohortRecord>, record: CohortRecord, key: ResourceKey)
    ensures var before := ScanPatches(corpus);
            var after := ScanPatches(corpus + [record]);
            && (key in before ==> key in after && before[key] <= after[key])
            && (TargetValues(record).None? || PairCount(TargetValues(record).value, key) == 0 ==>
                  (key in after <==> key in before) && Get(after, key) == Get(before, key))
  {
    assert (corpus + [record])[..|corpus|] == corpus;
    if TargetValues(record).Some? {
      AddTargetsSpec(ScanPatches(corpus), TargetValues(record).value, |corpus|, key);
    }
  }

  /** Only exemplar keys are counted by a target list. */
  lemma {:induction false} PairCountOnlyExemplars(values: seq<U32>, key: ResourceKey)
    requires |values| % 2 == 0 && PairCount(values, key) > 0
    ensures key.typeId == ExemplarTypeId
  {
    var n := |values|;
    if key != ResourceKey(ExemplarTypeId, values[n - 2], values[n - 1]) {
      PairCountOnlyExemplars(values[..n - 2], key);
    }
  }

  /**
   * Each key's list holds the positions of the records that target it, in
   * enumeration order (a record naming the key twice appears twice, side by
   * side), and every indexed key is an exemplar key.
   */
  lemma {:induction false} ScanPatchesOrdered(corpus: seq<CohortRecord>, key: ResourceKey)
    ensures key in ScanPatches(corpus) ==> key.typeId == ExemplarTypeId
    ensures forall j | 0 <= j < |Get(ScanPatches(corpus), key)| :: Get(ScanPatches(corpus), key)[j] < |corpus|
    ensures forall j, k | 0 <= j < k < |Get(ScanPatches(corpus), key)| ::
              Get(ScanPatches(corpus), key)[j] <= Get(ScanPatches(corpus), key)[k]
  {
    if corpus != [] {
      var n := |corpus| - 1;
      ScanPatchesOrdered(corpus[..n], key);
      var values := TargetValues(corpus[n]);
      if values.Some? {
        AddTargetsSpec(ScanPatches(corpus[..n]), values.value, n, key);
        if PairCount(values.value, key) > 0 {
          PairCountOnlyExemplars(values.value, key);
        }
      }
    }
  }

  /**
   * The scan's loop over a well-formed target list: `i` runs over the odd
   * positions and pair (values[i-1], values[i]) names an exemplar key.
   */
  method AddPairTargets(index: PatchIndex, values: seq<U32>, id: nat) returns (scanned: PatchIndex)
    requires |values| % 2 == 0
    ensures scanned == AddTargets(index, values, id)
  {
    scanned := index;
    var i := 1;
    while i < |values|
      invariant 1 <= i <= |values| + 1 && i % 2 == 1
      invariant scanned == AddTargets(index, values[..i - 1], id)
    {
      var targetTgi := ResourceKey(ExemplarTypeId, values[i - 1], values[i]);
      assert values[..i + 1][..i - 1] == values[..i - 1];
      if targetTgi in scanned {
        scanned := scanned[targetTgi := scanned[targetTgi] + [id]];
      } else {
        scanned := scanned[targetTgi := [id]];
      }
      i := i + 2;
    }
    assert values[..i - 1] == values;
  }

  // ---------------------------------------------------------------------
  // Apply
  // ---------------------------------------------------------------------

  /** The two property ids ApplyPatchCallback never copies. */
  predicate IsReserved(id: U32)
  {
    id == ExemplarPatchTargetPropertyId || id == ExemplarNamePropertyId
  }

  /** The ids of `patch` that are copied. */
  function CopiedIds(patch: Properties): (ids: set<U32>)
    ensures forall id :: id in ids <==> id in patch && !IsReserved(id)
  {
    set id | id in patch && !IsReserved(id)
  }

  /**
   * One patch's EnumProperties pass over the target: every copied id is
   * added, replacing any property of that id the target had.
   */
  function ApplyPatch(props: Properties, patch: Properties): (r: Properties)
  {
    map id | id in props.Keys + CopiedIds(patch) :: if id in CopiedIds(patch) then patch[id] else props[id]
  }

  /** The patches of one key, applied in list order. */
  function ApplyPatchList(props: Properties, patches: seq<Properties>): Properties
  {
    if patches == [] then props
    else ApplyPatch(ApplyPatchList(props, patches[..|patches| - 1]), patches[|patches| - 1])
  }

  /** The value of the last patch in the list that has `id`, if any. */
  function LastWriter(patches: seq<Properties>, id: U32): Option<Variant>
  {
    if patches == [] then None
    else if id in patches[|patches| - 1] then Some(patches[|patches| - 1][id])
    else LastWriter(patches[..|patches| - 1], id)
  }

  /**
   * What a property of the patched target is: a reserved id is what the
   * target had; any other id takes the value of the last patch that has it,
   * and is left as it was when no patch has it.
   */
  lemma {:induction false} ApplyPatchListSpec(props: Properties, patches: seq<Properties>, id: U32)
    ensures var r := ApplyPatchList(props, patches);
            && (IsReserved(id) || LastWriter(patches, id).None? ==>
                  (id in r <==> id in props) && (id in props ==> r[id] == props[id]))
            && (!IsReserved(id) && LastWriter(patches, id).Some? ==> id in r && r[id] == LastWriter(patches, id).value)
  {
    if patches != [] {
      ApplyPatchListSpec(props, patches[..|patches| - 1], id);
    }
  }

  /** Applying the same patches a second time changes nothing. */
  lemma ApplyPatchListIdempotent(props: Properties, patches: seq<Properties>)
    ensures ApplyPatchList(ApplyPatchList(props, patches), patches) == ApplyPatchList(props, patches)
  {
    var once := ApplyPatchList(props, patches);
    var twice := ApplyPatchList(once, patches);
    forall id: U32
      ensures (id in twice <==> id in once) && (id in once ==> twice[id] == once[id])
    {
      ApplyPatchListSpec(props, patches, id);
      ApplyPatchListSpec(once, patches, id);
    }
    assert twice.Keys == once.Keys;
  }

  /** EnumProperties visiting one more property id. */
  lemma ApplyPatchStep(props: Properties, patch: Properties, done: set<U32>, id: U32)
    requires done <= patch.Keys && id in patch && id !in done
    ensures var next := ApplyPatch(props, Restrict(patch, done + {id}));
            var now := ApplyPatch(props, Restrict(patch, done));
            next == if IsReserved(id) then now else now[id := patch[id]]
  {
    var grown := Restrict(patch, done + {id});
    var part := Restrict(patch, done);
    var next := ApplyPatch(props, grown);
    var now := ApplyPatch(props, part);
    var expected := if IsReserved(id) then now else now[id := patch[id]];
    if IsReserved(id) {
      assert CopiedIds(grown) == CopiedIds(part);
    } else {
      assert CopiedIds(grown) == CopiedIds(part) + {id};
    }
    assert next.Keys == expected.Keys;
    forall k | k in next
      ensures next[k] == expected[k]
    {
    }
  }

  /** The properties of `patch` whose ids are in `ids`. */
  function Restrict(patch: Properties, ids: set<U32>): (r: Properties)
    requires ids <= patch.Keys
    ensures r.Keys == ids && forall id | id in ids :: r[id] == patch[id]
  {
    map id | id in ids :: patch[id]
  }

  /** The holders the index names, in order. */
  function Holders(cohorts: seq<CohortRecord>, ids: seq<nat>): (hs: seq<Properties>)
    requires forall j | 0 <= j < |ids| :: ids[j] < |cohorts| && cohorts[ids[j]].holder.Some?
    ensures |hs| == |ids| && forall j | 0 <= j < |ids| :: hs[j] == cohorts[ids[j]].holder.value
  {
    seq(|ids|, j requires 0 <= j < |ids| => cohorts[ids[j]].holder.value)
  }

  /** The exemplar's property holder; AddProperty replaces a property of the same id. */
  class PropertyHolder {
    var properties: Properties

    constructor (properties: Properties)
      ensures this.properties == properties
    {
      this.properties := properties;
    }

    method AddProperty(id: U32, value: Variant)
      modifies this
      ensures properties == old(properties)[id := value]
    {
      properties := properties[id := value];
    }
  }

  /**
   * EnumProperties with ApplyPatchCallback over one patch, in whatever order
   * the holder enumerates its properties.
   */
  method ApplyPatchProperties(patch: Properties, target: PropertyHolder)
    modifies target
    ensures target.properties == ApplyPatch(old(target.properties), patch)
  {
    ghost var before := target.properties;
    var remaining := patch.Keys;
    while remaining != {}
      invariant remaining <= patch.Keys
      invariant target.properties == ApplyPatch(before, Restrict(patch, patch.Keys - remaining))
      decreases remaining
    {
      var id :| id in remaining;
      ApplyPatchStep(before, patch, patch.Keys - remaining, id);
      assert patch.Keys - (remaining - {id}) == (patch.Keys - remaining) + {id};
      if !IsReserved(id) {
        target.AddProperty(id, patch[id]);
      }
      remaining := remaining - {id};
    }
    assert Restrict(patch, patch.Keys) == patch;
  }

  class ExemplarPatcher {
    /** The patch index. */
    var patches: PatchIndex
    /** The corpus the index was built from; the index names its records by position. */
    var cohorts: seq<CohortRecord>
    var debugLoggingEnabled: bool
    /** The errors the scans logged, oldest first. */
    var loggedDefects: seq<ScanDefect>

    predicate Valid()
      reads this
    {
      IndexWellFormed(patches, cohorts)
    }

    constructor ()
      ensures patches == map[] && cohorts == [] && !debugLoggingEnabled && loggedDefects == []
      ensures Valid()
    {
      patches := map[];
      cohorts := [];
      debugLoggingEnabled := false;
      loggedDefects := [];
    }

    method SetDebugLoggingEnabled(enabled: bool)
      modifies this`debugLoggingEnabled
      ensures debugLoggingEnabled == enabled
    {
      debugLoggingEnabled := enabled;
    }

    /**
     * LoadExemplarPatches: with a resource manager and a non-empty list of
     * cohort records, scan them into a new index that replaces the old one;
     * otherwise keep the old index.
     */
    method LoadExemplarPatches(resManPresent: bool, corpus: seq<CohortRecord>)
      requires Valid()
      modifies this`patches, this`cohorts, this`loggedDefects
      ensures Valid()
      ensures resManPresent && |corpus| > 0 ==>
                patches == ScanPatches(corpus) && cohorts == corpus
                && loggedDefects == old(loggedDefects) + ScanDefects(corpus)
      ensures !(resManPresent && |corpus| > 0) ==>
                patches == old(patches) && cohorts == old(cohorts) && loggedDefects == old(loggedDefects)
    {
      if resManPresent && |corpus| > 0 {
        var scanned: PatchIndex := map[];
        var i := 0;
        while i < |corpus|
          invariant 0 <= i <= |corpus|
          invariant scanned == ScanPatches(corpus[..i])
          invariant loggedDefects == old(loggedDefects) + ScanDefects(corpus[..i])
        {
          assert corpus[..i + 1][..i] == corpus[..i];
          scanned := ScanRecord(scanned, corpus[i], i);
          i := i + 1;
        }
        assert corpus[..i] == corpus;
        ScanPatchesWellFormed(corpus);
        patches := scanned;
        cohorts := corpus;
      }
    }

    /** ExemplarPatchScanCallback for one record: logs its defect, if any, and returns the extended index. */
    method ScanRecord(index: PatchIndex, record: CohortRecord, id: nat) returns (scanned: PatchIndex)
      modifies this`loggedDefects
      ensures scanned == (if TargetValues(record).Some? then AddTargets(index, TargetValues(record).value, id) else index)
      ensures loggedDefects == old(loggedDefects) + (if RecordDefect(record).Some? then [RecordDefect(record).value] else [])
    {
      scanned := index;
      if record.holder.Some? && ExemplarPatchTargetPropertyId in record.holder.value {
        var variant := record.holder.value[ExemplarPatchTargetPropertyId];
        if !variant.Uint32Array? {
          loggedDefects := loggedDefects + [NotUint32Array(record.key)];
        } else if |variant.values| > 0 {
          if |variant.values| % 2 != 0 {
            loggedDefects := loggedDefects + [OddLength(record.key)];
          } else {
            scanned := AddPairTargets(index, variant.values, id);
          }
        }
      }
    }

    /**
     * ApplyPatches: for a key in the index, each of its patches in list
     * order has every property except the two reserved ids added to the
     * target; any other key leaves the target as it was. The debug flag
     * only decides what is logged.
     */
    method ApplyPatches(key: ResourceKey, target: PropertyHolder)
      requires Valid()
      modifies target
      ensures key !in patches ==> target.properties == old(target.properties)
      ensures key in patches ==>
                target.properties == ApplyPatchList(old(target.properties), Holders(cohorts, patches[key]))
    {
      if key in patches {
        var list := patches[key];
        var hs := Holders(cohorts, list);
        var k := 0;
        while k < |list|
          invariant 0 <= k <= |list|
          invariant target.properties == ApplyPatchList(old(target.properties), hs[..k])
        {
          ApplyPatchProperties(cohorts[list[k]].holder.value, target);
          assert hs[..k + 1][..k] == hs[..k];
          k := k + 1;
        }
        assert hs[..k] == hs;
      }
    }
  }
}
