/** The time-indexed instant store: an `Instant` is one time value with the multi-block data of
    all regions at that time, and an `InstantCollection` is the append-only list of instants a
    result file yields. */
module Instants {
  import opened Data
  import opened FileInfo

  /** `SMALL`: the tolerance of instant equality, the smallest positive normalised double
      (2 to the power -1022). */
  const Small: real := 1.0 / 44942328371557897693232629769725618340449424473557664318357520289433168951375240783177119330601884005280028469967848339414697442203604155623211857659868531094441973356216371319075554900311523529863270738021251442209537670585615720368478277635206809290837627671146574559986811484619929076208839082406056034304.0

  /** `label`: a 32-bit unsigned integer. */
  newtype Label = x: int | 0 <= x < 0x1_0000_0000

  /** The conversion of a `long` to `label`: the value modulo 2^32. */
  function LabelOf(n: int): (r: Label)
    ensures 0 <= n < 0x1_0000_0000 ==> r as int == n
    ensures (r as int - n) % 0x1_0000_0000 == 0
  {
    (n % 0x1_0000_0000) as Label
  }

  /** The conversion of a `label` to a 32-bit `int`: values from 2^31 up wrap to negatives. */
  function Int32Of(l: Label): (r: int)
    ensures -0x8000_0000 <= r < 0x8000_0000
    ensures (r - l as int) % 0x1_0000_0000 == 0
    ensures l < 0x8000_0000 ==> r == l as int
  {
    if l < 0x8000_0000 then l as int else l as int - 0x1_0000_0000
  }

  /** The time-band test of `Instant::Equal`: `t` lies strictly within `Small` of `b`. */
  predicate WithinTolerance(t: real, b: real) {
    t < b + Small && t > b - Small
  }

  /** The band is symmetric and reflexive, and it is not transitive: three times can be pairwise
      neighbours while the outer two lie outside each other's band. */
  lemma ToleranceIsNotTransitive()
    ensures forall t: real, b: real :: WithinTolerance(t, b) == WithinTolerance(b, t)
    ensures forall t: real :: WithinTolerance(t, t)
    ensures WithinTolerance(0.0, Small * 0.75) && WithinTolerance(Small * 0.75, Small * 1.5)
    ensures !WithinTolerance(0.0, Small * 1.5)
  {
  }

  /** Two distinct times can be equal under the tolerance and still be strictly ordered:
      equality and the ordering operators do not agree. */
  lemma EqualYetOrdered()
    ensures WithinTolerance(1.0, 1.0 + Small / 2.0) && 1.0 < 1.0 + Small / 2.0
  {
  }

  /** A multi-block data set of regions, held by handle: two handles may carry equal blocks
      and still be different data sets. */
  class RegionSet {
    const blocks: seq<Block>

    constructor(blocks: seq<Block>)
      ensures this.blocks == blocks
    {
      this.blocks := blocks;
    }
  }

  /** The blocks behind a region handle, absent for a null handle. */
  function BlocksOf(h: RegionSet?): (r: Option<seq<Block>>)
    ensures r.None? <==> h == null
    ensures h != null ==> r.value == h.blocks
  {
    if h == null then None else Some(h.blocks)
  }

  class Instant {
    var TimeValue: real
    /** The handle of the regions' multi-block data; null until set. */
    var Regions: RegionSet?
    /** Number of modification events the object has recorded. */
    var modified: nat

    /** A new instant: time 0.0 and no regions. */
    constructor()
      ensures TimeValue == 0.0 && Regions == null && modified == 0
    {
      TimeValue := 0.0;
      Regions := null;
      modified := 0;
    }

    /** The generated time setter: assigns and records a modification only when the value
        changes. */
    method SetTimeValue(t: real)
      modifies this
      ensures TimeValue == t && Regions == old(Regions)
      ensures modified == if old(TimeValue) != t then old(modified) + 1 else old(modified)
    {
      if TimeValue != t {
        TimeValue := t;
        modified := modified + 1;
      }
    }

    /** `SetRegions`: ignored for a null handle or the handle already held; otherwise the
        regions become `data` and the instant records a modification. Handles are compared by
        identity, so a different handle with equal blocks is stored. */
    method SetRegions(data: RegionSet?)
      modifies this
      ensures TimeValue == old(TimeValue)
      ensures data == null || data == old(Regions) ==> Regions == old(Regions) && modified == old(modified)
      ensures data != null && data != old(Regions) ==> Regions == data && modified == old(modified) + 1
    {
      if data == null || Regions == data {
        return;
      }
      Regions := data;
      modified := modified + 1;
    }

    /** `Equal(b)`: the time value lies within `Small` of `b`, strictly. */
    predicate Equal(b: real)
      reads this
    {
      WithinTolerance(TimeValue, b)
    }

    /** `GetAllRegions`: the append of the data of every block, in block order. */
    method GetAllRegions(append: Appender) returns (r: DataObject)
      requires Regions != null
      ensures r == append(BlockData(Regions.blocks))
    {
      var blocks := Regions.blocks;
      var inputs: seq<Option<DataObject>> := [];
      var i := 0;
      while i < |blocks|
        invariant 0 <= i <= |blocks|
        invariant inputs == BlockData(blocks[..i])
      {
        inputs := inputs + [blocks[i].data];
        i := i + 1;
      }
      assert blocks[..|blocks|] == blocks;
      r := append(inputs);
    }

    /** `ListAllRegionNames`: the NAME of every block, in block order. Every block must carry a
        name, since a missing one would be turned into a string from a null pointer. */
    method ListAllRegionNames() returns (names: seq<string>)
      requires Regions != null
      requires forall i :: 0 <= i < |Regions.blocks| ==> Regions.blocks[i].name.Some?
      ensures |names| == |Regions.blocks|
      ensures forall i :: 0 <= i < |names| ==> names[i] == Regions.blocks[i].name.value
    {
      var blocks := Regions.blocks;
      names := [];
      var i := 0;
      while i < |blocks|
        invariant 0 <= i <= |blocks|
        invariant |names| == i
        invariant forall j :: 0 <= j < i ==> names[j] == blocks[j].name.value
      {
        names := names + [blocks[i].name.value];
        i := i + 1;
      }
    }
  }

  /** `operator==`: the first instant's time is within tolerance of the second's. */
  predicate Eq(a: Instant, b: Instant)
    reads a, b
  {
    a.Equal(b.TimeValue)
  }

  /** `operator!=`: the negation of `==`. */
  predicate Ne(a: Instant, b: Instant)
    reads a, b
  {
    !Eq(a, b)
  }

  /** `operator<`: exact comparison of the time values. */
  predicate Lt(a: Instant, b: Instant)
    reads a, b
  {
    a.TimeValue < b.TimeValue
  }

  /** `operator>`: exact comparison of the time values. */
  predicate Gt(a: Instant, b: Instant)
    reads a, b
  {
    a.TimeValue > b.TimeValue
  }

  /** `Instant::less`: the sorting comparator, exact on the time values. */
  predicate Less(a: Instant, b: Instant)
    reads a, b
  {
    a.TimeValue < b.TimeValue
  }

  /** The operators' relations: `==` is symmetric and reflexive, `!=` is its complement, `<` and
      `>` are converse strict orders that coincide with the comparator, and an instant that is
      strictly less than another by at least `Small` is not equal to it. */
  lemma OperatorLaws(a: Instant, b: Instant, c: Instant)
    ensures Eq(a, b) == Eq(b, a)
    ensures Eq(a, a)
    ensures Ne(a, b) <==> !Eq(a, b)
    ensures Lt(a, b) <==> Gt(b, a)
    ensures Less(a, b) == Lt(a, b)
    ensures !Lt(a, a) && (Lt(a, b) ==> !Lt(b, a))
    ensures Lt(a, b) && Lt(b, c) ==> Lt(a, c)
    ensures a.TimeValue + Small <= b.TimeValue ==> Lt(a, b) && Ne(a, b)
  {
  }

  /** The settings of one instant, as a value: its time and its regions. */
  datatype Snapshot = Snapshot(time: real, regions: Option<seq<Block>>)

  ghost function Snapshots(s: seq<Instant>): (r: seq<Snapshot>)
    reads s
    ensures |r| == |s|
    ensures forall i :: 0 <= i < |s| ==> r[i] == Snapshot(s[i].TimeValue, BlocksOf(s[i].Regions))
  {
    seq(|s|, i reads s requires 0 <= i < |s| => Snapshot(s[i].TimeValue, BlocksOf(s[i].Regions)))
  }

  /** What the foreign readers produce for one file: the data-set reader's output, the XML and
      the legacy unstructured-grid readers' outputs, the blocks of the time series built from a
      NetCDF file, and the OpenFOAM reader's time values and time-series blocks. */
  datatype ReaderOutput = ReaderOutput(
    dataSet: Option<DataObject>,
    xmlGrid: Option<DataObject>,
    legacyGrid: Option<DataObject>,
    netcdfBlocks: seq<Option<DataObject>>,
    foamTimes: seq<real>,
    foamBlocks: seq<Option<DataObject>>)

  /** The regions one data set becomes: a multi-block with the data in block 0. */
  function SingleRegion(d: DataObject): seq<Block> {
    [Block(None, Some(d))]
  }

  /** The instants a single-data-set loader appends: one at time 0 holding the data, or none
      (and failure) when there is no data. */
  function SingleSnapshot(d: Option<DataObject>): (r: Option<seq<Snapshot>>)
    ensures r.Some? <==> d.Some?
    ensures d.Some? ==> r.value == [Snapshot(0.0, Some(SingleRegion(d.value)))]
  {
    match d
    case None => None
    case Some(v) => Some([Snapshot(0.0, Some(SingleRegion(v)))])
  }

  /** The unstructured-grid reader's result: the XML reader's output if any, else the legacy
      reader's. */
  function GridData(src: ReaderOutput): (r: Option<DataObject>)
    ensures src.xmlGrid.Some? ==> r == src.xmlGrid
    ensures src.xmlGrid.None? ==> r == src.legacyGrid
  {
    if src.xmlGrid.Some? then src.xmlGrid else src.legacyGrid
  }

  /** The snapshot a time-series block yields: one when the block is a multi-block, none
      otherwise. */
  function BlockSnapshot(t: real, b: Option<DataObject>): seq<Snapshot> {
    match b
    case Some(MultiBlock(bs)) => [Snapshot(t, Some(bs))]
    case _ => []
  }

  /** The instants of a NetCDF time series: one per multi-block block, timed by its index. */
  function NetCDFSnapshots(blocks: seq<Option<DataObject>>): seq<Snapshot>
  {
    if blocks == [] then []
    else NetCDFSnapshots(blocks[..|blocks| - 1]) + BlockSnapshot((|blocks| - 1) as real, blocks[|blocks| - 1])
  }

  /** Block `i` of a multi-block, or nothing past its end. */
  function BlockAt(blocks: seq<Option<DataObject>>, i: nat): Option<DataObject> {
    if i < |blocks| then blocks[i] else None
  }

  /** The instants of an OpenFOAM case: for each of the reader's time values, one instant at
      that time when the corresponding block is a multi-block. */
  function FoamSnapshots(times: seq<real>, blocks: seq<Option<DataObject>>): seq<Snapshot>
  {
    if times == [] then []
    else FoamSnapshots(times[..|times| - 1], blocks) + BlockSnapshot(times[|times| - 1], BlockAt(blocks, |times| - 1))
  }

  /** Whether the time-series block `b` is a multi-block. */
  predicate IsMultiBlock(b: Option<DataObject>) {
    b.Some? && b.value.MultiBlock?
  }

  /** The NetCDF loader's instants come from the multi-block blocks in block order: there is a
      strictly increasing list of block indices, covering every multi-block block, such that
      each instant is timed by its block's index and holds that block's regions. Hence the
      times strictly increase, and they leave gaps where a block is not a multi-block. */
  lemma {:induction false} NetCDFTimesAreBlockIndices(blocks: seq<Option<DataObject>>)
    returns (idx: seq<nat>)
    ensures |idx| == |NetCDFSnapshots(blocks)| <= |blocks|
    ensures forall j :: 0 <= j < |idx| ==>
              idx[j] < |blocks| && IsMultiBlock(blocks[idx[j]]) &&
              NetCDFSnapshots(blocks)[j] == Snapshot(idx[j] as real, Some(blocks[idx[j]].value.blocks))
    ensures forall j, l :: 0 <= j < l < |idx| ==> idx[j] < idx[l]
    ensures forall i :: 0 <= i < |blocks| && IsMultiBlock(blocks[i]) ==> i in idx
  {
    if blocks == [] {
      idx := [];
    } else {
      var n := |blocks| - 1;
      var init := blocks[..n];
      var prev := NetCDFTimesAreBlockIndices(init);
      assert NetCDFSnapshots(blocks) == NetCDFSnapshots(init) + BlockSnapshot(n as real, blocks[n]);
      if IsMultiBlock(blocks[n]) {
        idx := prev + [n];
      } else {
        idx := prev;
      }
    }
  }

  /** The NetCDF instants' times strictly increase. */
  lemma NetCDFTimesIncrease(blocks: seq<Option<DataObject>>)
    ensures forall j, l :: 0 <= j < l < |NetCDFSnapshots(blocks)| ==>
              NetCDFSnapshots(blocks)[j].time < NetCDFSnapshots(blocks)[l].time
  {
    var idx := NetCDFTimesAreBlockIndices(blocks);
  }

  /** When every OpenFOAM block up to the time count is a multi-block, the loader appends one
      instant per time value, with exactly the reader's times in the reader's order. */
  lemma {:induction false} FoamKeepsReaderTimes(times: seq<real>, blocks: seq<Option<DataObject>>)
    requires |times| <= |blocks|
    requires forall i :: 0 <= i < |times| ==> blocks[i].Some? && blocks[i].value.MultiBlock?
    ensures |FoamSnapshots(times, blocks)| == |times|
    ensures forall i :: 0 <= i < |times| ==>
              FoamSnapshots(times, blocks)[i] == Snapshot(times[i], Some(blocks[i].value.blocks))
  {
    if times != [] {
      FoamKeepsReaderTimes(times[..|times| - 1], blocks);
    }
  }

  /** The OpenFOAM loader never appends more instants than the reader has time values, and each
      appended time is one of them. */
  lemma {:induction false} FoamTimesComeFromReader(times: seq<real>, blocks: seq<Option<DataObject>>)
    ensures |FoamSnapshots(times, blocks)| <= |times|
    ensures forall j :: 0 <= j < |FoamSnapshots(times, blocks)| ==> FoamSnapshots(times, blocks)[j].time in times
  {
    if times != [] {
      var init := times[..|times| - 1];
      FoamTimesComeFromReader(init, blocks);
      forall j | 0 <= j < |FoamSnapshots(init, blocks)|
        ensures FoamSnapshots(init, blocks)[j].time in times
      {
        assert FoamSnapshots(init, blocks)[j].time in init;
      }
    }
  }

  /** The loader `Read` picks for a file. */
  datatype Loader = OpenFOAMLoader | DataSetLoader | GridLoader | NetCDFLoader | NoLoader

  /** The dispatch of `Read`: the exact file name "controlDict" first, then the extensions vtk,
      vtu and nc, ignoring case; anything else has no loader. */
  function LoaderFor(fileName: string): Loader {
    if FileName(fileName) == "controlDict" then OpenFOAMLoader
    else if HasExtension(fileName, "vtk") then DataSetLoader
    else if HasExtension(fileName, "vtu") then GridLoader
    else if HasExtension(fileName, "nc") then NetCDFLoader
    else NoLoader
  }

  /** The file name "controlDict" wins over any extension, and a name with none of the three
      extensions has no loader; the extension test ignores case. */
  lemma LoaderDispatch(fileName: string)
    ensures FileName(fileName) == "controlDict" ==> LoaderFor(fileName) == OpenFOAMLoader
    ensures LoaderFor(fileName) == NoLoader <==>
              FileName(fileName) != "controlDict" && !HasExtension(fileName, "vtk") &&
              !HasExtension(fileName, "vtu") && !HasExtension(fileName, "nc")
    ensures FileName(fileName) != "controlDict" && HasExtension(fileName, "VTU") ==>
              LoaderFor(fileName) == GridLoader
  {
    assert LowerString("VTU") == "vtu";
    assert LowerString("vtu") == "vtu";
    assert LowerString("vtk") == "vtk";
    if FileName(fileName) != "controlDict" && HasExtension(fileName, "VTU") {
      assert LowerString(Extension(fileName)) == "vtu";
      assert !HasExtension(fileName, "vtk");
    }
  }

  /** The instants a loader appends, or nothing when it fails. */
  function Loaded(kind: Loader, src: ReaderOutput): Option<seq<Snapshot>> {
    match kind
    case OpenFOAMLoader => Some(FoamSnapshots(src.foamTimes, src.foamBlocks))
    case DataSetLoader => SingleSnapshot(src.dataSet)
    case GridLoader => SingleSnapshot(GridData(src))
    case NetCDFLoader => Some(NetCDFSnapshots(src.netcdfBlocks))
    case NoLoader => None
  }

  /** An unknown file name makes `Read` fail, and so does a single-data-set file whose reader
      produced nothing; the multi-time loaders always succeed. */
  lemma ReadOutcomes(src: ReaderOutput)
    ensures Loaded(NoLoader, src).None?
    ensures Loaded(OpenFOAMLoader, src).Some? && Loaded(NetCDFLoader, src).Some?
    ensures Loaded(DataSetLoader, src).Some? <==> src.dataSet.Some?
    ensures Loaded(GridLoader, src).Some? <==> src.xmlGrid.Some? || src.legacyGrid.Some?
  {
  }

  /** A new instant holding the given time and regions, as the loaders build it. */
  method NewInstant(t: real, regions: seq<Block>) returns (inst: Instant)
    ensures fresh(inst)
    ensures inst.TimeValue == t && inst.Regions != null && inst.Regions.blocks == regions
  {
    inst := new Instant();
    inst.SetTimeValue(t);
    var handle := new RegionSet(regions);
    inst.SetRegions(handle);
  }

  /** The settings of two lists of instants, one after the other. */
  lemma SnapshotsAppend(s: seq<Instant>, t: seq<Instant>)
    ensures Snapshots(s + t) == Snapshots(s) + Snapshots(t)
    ensures AllHoldRegions(s) && AllHoldRegions(t) ==> AllHoldRegions(s + t)
  {
  }

  /** Every instant of the list holds regions. */
  predicate AllHoldRegions(s: seq<Instant>)
    reads s
  {
    forall i :: 0 <= i < |s| ==> s[i].Regions != null
  }

  class InstantCollection {
    var items: seq<Instant>

    constructor()
      ensures items == []
    {
      items := [];
    }

    /** Every instant holds regions. */
    predicate Valid()
      reads this, items
    {
      AllHoldRegions(items)
    }

    /** `AddItem`: appends to the bottom of the list. */
    method AddItem(inst: Instant)
      modifies this
      ensures items == old(items) + [inst]
    {
      items := items + [inst];
    }

    /** `GetItem(i)`: the instant at position `i`, or null outside the list. */
    function GetItem(i: int): (r: Instant?)
      reads this
      ensures 0 <= i < |items| ==> r == items[i]
      ensures r == null <==> !(0 <= i < |items|)
    {
      if 0 <= i < |items| then items[i] else null
    }

    /** `FindInstant(index)`: positional lookup, after the label is passed on as an `int`. */
    function FindInstant(timeIndex: Label): (r: Instant?)
      reads this
      ensures timeIndex < 0x8000_0000 ==> r == GetItem(timeIndex as int)
      ensures timeIndex >= 0x8000_0000 ==> r == null
    {
      GetItem(Int32Of(timeIndex))
    }

    /** `FindClosestInstant`: not implemented, always null. */
    function FindClosestInstant(timeValue: real): (r: Instant?)
      ensures r == null
    {
      null
    }

    /** `GetTimeValues`: one time per instant, in collection order. */
    method GetTimeValues() returns (times: seq<real>)
      ensures |times| == |items|
      ensures forall i :: 0 <= i < |items| ==> times[i] == items[i].TimeValue
    {
      times := [];
      var i := 0;
      while i < |items|
        invariant 0 <= i <= |items|
        invariant |times| == i
        invariant forall j :: 0 <= j < i ==> times[j] == items[j].TimeValue
      {
        var inst := GetItem(i);
        times := times + [inst.TimeValue];
        i := i + 1;
      }
    }

    /** `ReadDataSet`: when the reader produced a data set, one instant at time 0 whose
        block 0 holds it; otherwise failure and nothing appended. */
    method ReadDataSet(data: Option<DataObject>) returns (ok: bool, ghost added: seq<Instant>)
      modifies this
      ensures ok <==> data.Some?
      ensures items == old(items) + added && AllHoldRegions(added)
      ensures Snapshots(added) == if ok then SingleSnapshot(data).value else []
    {
      if data.None? {
        return false, [];
      }
      var inst := NewInstant(0.0, SingleRegion(data.value));
      AddItem(inst);
      ok, added := true, [inst];
    }

    /** `ReadUnstructuredGrid`: the XML reader's output, or failing that the legacy reader's,
        becomes one instant at time 0; failure when neither produced a grid. */
    method ReadUnstructuredGrid(xml: Option<DataObject>, legacy: Option<DataObject>)
      returns (ok: bool, ghost added: seq<Instant>)
      modifies this
      ensures ok <==> xml.Some? || legacy.Some?
      ensures items == old(items) + added && AllHoldRegions(added)
      ensures Snapshots(added) == if ok then SingleSnapshot(if xml.Some? then xml else legacy).value else []
    {
      var data: Option<DataObject> := None;
      if xml.Some? {
        data := xml;
      } else if legacy.Some? {
        data := legacy;
      }
      ok, added := ReadDataSet(data);
    }

    /** One step of the time-series loaders: an instant at time `t` holding the regions of `b`
        when `b` is a multi-block, nothing otherwise. */
    method AddBlock(t: real, b: Option<DataObject>) returns (ghost more: seq<Instant>)
      modifies this
      ensures items == old(items) + more && AllHoldRegions(more) &&
              forall i :: 0 <= i < |more| ==> fresh(more[i])
      ensures Snapshots(more) == BlockSnapshot(t, b)
    {
      more := [];
      if IsMultiBlock(b) {
        var inst := NewInstant(t, b.value.blocks);
        AddItem(inst);
        more := [inst];
      }
    }

    /** `ReadNetCDF`: one instant per block of the time series that is a multi-block, timed by
        the block index; always succeeds. */
    method ReadNetCDF(blocks: seq<Option<DataObject>>) returns (ok: bool, ghost added: seq<Instant>)
      modifies this
      ensures ok
      ensures items == old(items) + added && AllHoldRegions(added)
      ensures Snapshots(added) == NetCDFSnapshots(blocks)
    {
      added := [];
      var i := 0;
      while i < |blocks|
        invariant 0 <= i <= |blocks|
        invariant items == old(items) + added && AllHoldRegions(added)
        invariant Snapshots(added) == NetCDFSnapshots(blocks[..i])
      {
        assert blocks[..i + 1][..i] == blocks[..i];
        var more := AddBlock(i as real, blocks[i]);
        SnapshotsAppend(added, more);
        added := added + more;
        i := i + 1;
      }
      assert blocks[..|blocks|] == blocks;
      ok := true;
    }

    /** `ReadOpenFOAM`: for each of the reader's time values, one instant at that time when the
        time-series block of the same index is a multi-block; always succeeds. */
    method ReadOpenFOAM(times: seq<real>, blocks: seq<Option<DataObject>>)
      returns (ok: bool, ghost added: seq<Instant>)
      modifies this
      ensures ok
      ensures items == old(items) + added && AllHoldRegions(added)
      ensures Snapshots(added) == FoamSnapshots(times, blocks)
    {
      added := [];
      var i := 0;
      while i < |times|
        invariant 0 <= i <= |times|
        invariant items == old(items) + added && AllHoldRegions(added)
        invariant Snapshots(added) == FoamSnapshots(times[..i], blocks)
      {
        assert times[..i + 1][..i] == times[..i];
        var more := AddBlock(times[i], BlockAt(blocks, i));
        SnapshotsAppend(added, more);
        added := added + more;
        i := i + 1;
      }
      assert times[..|times|] == times;
      ok := true;
    }

    /** `Read`: dispatches on the file name to a loader and reports whether it succeeded; an
        unknown name fails with nothing appended. The instants already held are untouched. */
    method Read(fileName: string, src: ReaderOutput) returns (ok: bool, ghost added: seq<Instant>)
      requires Valid()
      modifies this
      ensures ok <==> Loaded(LoaderFor(fileName), src).Some?
      ensures items == old(items) + added && AllHoldRegions(added)
      ensures Snapshots(added) == if ok then Loaded(LoaderFor(fileName), src).value else []
      ensures Valid()
    {
      var kind := LoaderFor(fileName);
      match kind {
        case OpenFOAMLoader =>
          ok, added := ReadOpenFOAM(src.foamTimes, src.foamBlocks);
        case DataSetLoader =>
          ok, added := ReadDataSet(src.dataSet);
        case GridLoader =>
          ok, added := ReadUnstructuredGrid(src.xmlGrid, src.legacyGrid);
        case NetCDFLoader =>
          ok, added := ReadNetCDF(src.netcdfBlocks);
        case NoLoader =>
          ok, added := false, [];
      }
    }
  }
}
