/** The filter base and the pipeline. A filter owns named stage chains with one active chain and
    takes its input either from an explicit `Input` link or from the pipeline that holds it; a
    pipeline is itself a filter whose children it wires, whose output it combines, and whose data
    it fetches from its instant store. The concrete filters build on the base by composition:
    each holds a `PostFilter` for its inherited state, and a pipeline's `Filter` list holds those
    base objects. */
module PostObjects {
  import opened Data
  import opened FileInfo
  import opened Instants
  import opened VtkStages

  // ---------------------------------------------------------------------------------------------
  // Filter base

  /** A chain name the probe branch of `execute` accepts: it starts with "DataAlongLine" or with
      "DataAtPoint". */
  predicate ProbeName(name: string) {
    (|name| >= 13 && name[..13] == "DataAlongLine") || (|name| >= 11 && name[..11] == "DataAtPoint")
  }

  /** Whether `execute` runs a chain of this name: every name shorter than 11 characters, and a
      longer one only when it is a probe name. */
  predicate RunsChain(name: string) {
    |name| < 11 || ProbeName(name)
  }

  /** Short chain names run; so do the two probe names and anything they prefix; an 11-letter
      name that is not a probe name is skipped. */
  lemma ChainNames()
    ensures RunsChain("warp") && RunsChain("clip") && RunsChain("extract") && RunsChain("Contour")
    ensures RunsChain("StreamLine") && RunsChain("cut") && RunsChain("Glyph3D")
    ensures RunsChain("DataAlongLine") && RunsChain("DataAtPoint") && RunsChain("DataAtPoint2")
    ensures !RunsChain("ScalarClips")
  {
    assert "DataAlongLine"[..13] == "DataAlongLine";
    assert "DataAtPoint"[..11] == "DataAtPoint";
    assert "DataAtPoint2"[..11] == "DataAtPoint";
    assert "ScalarClips"[..11] != "DataAtPoint" by {
      assert "ScalarClips"[0] != "DataAtPoint"[0];
    }
  }

  /** The pipelines of a document together with their base objects. */
  function PipelineFrame(pipelines: seq<PostPipeline>): set<object> {
    (set i | 0 <= i < |pipelines| :: pipelines[i] as object) +
    (set i | 0 <= i < |pipelines| :: pipelines[i].base as object)
  }

  /** The data of the first pipeline at or after position `from` that holds `me`, or nothing. */
  function HolderData(pipelines: seq<PostPipeline>, me: PostFilter, from: nat): Option<DataObject>
    requires from <= |pipelines|
    reads PipelineFrame(pipelines)
    decreases |pipelines| - from
  {
    if from == |pipelines| then None
    else if me in pipelines[from].Filter then pipelines[from].base.Data
    else HolderData(pipelines, me, from + 1)
  }

  /** Pipeline `i` is the first at or after `from` that holds `me`. */
  predicate FirstHolder(pipelines: seq<PostPipeline>, me: PostFilter, from: nat, i: int)
    reads set k | 0 <= k < |pipelines| :: pipelines[k]
  {
    from <= i < |pipelines| && me in pipelines[i].Filter &&
    forall j :: from <= j < i ==> me !in pipelines[j].Filter
  }

  /** The pipeline search yields the data of the first pipeline holding the filter, and nothing
      when no pipeline holds it. */
  lemma {:induction false} HolderDataIsFirstHolder(pipelines: seq<PostPipeline>, me: PostFilter, from: nat)
    requires from <= |pipelines|
    decreases |pipelines| - from
    ensures (forall i :: from <= i < |pipelines| ==> me !in pipelines[i].Filter) ==>
              HolderData(pipelines, me, from) == None
    ensures forall i :: FirstHolder(pipelines, me, from, i) ==> HolderData(pipelines, me, from) == pipelines[i].base.Data
  {
    if from < |pipelines| {
      HolderDataIsFirstHolder(pipelines, me, from + 1);
      forall i | FirstHolder(pipelines, me, from, i)
        ensures HolderData(pipelines, me, from) == pipelines[i].base.Data
      {
        if i > from {
          assert FirstHolder(pipelines, me, from + 1, i);
        }
      }
    }
  }

  class PostFilter {
    /** The object this filter takes its input from; null when it takes the pipeline's data. */
    var Input: PostFilter?
    /** The `Data` property: the filter's output. */
    var Data: Option<DataObject>
    /** The names of the properties touched since the last recompute. */
    var touched: set<string>
    /** The names of the registered stage chains. */
    var chains: set<string>
    /** The name of the active chain; empty when none is active. */
    var active: string
    /** Whether the document object is valid. */
    var valid: bool

    constructor()
      ensures Input == null && Data == None && touched == {}
      ensures chains == {} && active == "" && valid
    {
      Input := null;
      Data := None;
      touched := {};
      chains := {};
      active := "";
      valid := true;
    }

    /** `addFilterPipeline`: registers a chain under `name`, replacing one of the same name. */
    method AddFilterPipeline(name: string)
      modifies this
      ensures chains == old(chains) + {name}
      ensures Input == old(Input) && Data == old(Data) && touched == old(touched)
      ensures active == old(active) && valid == old(valid)
    {
      chains := chains + {name};
    }

    /** `setActiveFilterPipeline`: switches to `name` when it differs from the active chain and
        the object is valid; otherwise nothing changes. */
    method SetActiveFilterPipeline(name: string)
      modifies this
      ensures active == if old(active) != name && valid then name else old(active)
      ensures Input == old(Input) && Data == old(Data) && touched == old(touched)
      ensures chains == old(chains) && valid == old(valid)
    {
      if active != name && valid {
        active := name;
      }
    }

    /** Setting the `Input` link. */
    method SetInput(i: PostFilter?)
      modifies this
      ensures Input == i && touched == old(touched) + {"Input"}
      ensures Data == old(Data) && chains == old(chains) && active == old(active) && valid == old(valid)
    {
      Input := i;
      touched := touched + {"Input"};
    }

    /** Setting the `Data` property. */
    method SetData(d: Option<DataObject>)
      modifies this
      ensures Data == d && touched == old(touched) + {"Data"}
      ensures Input == old(Input) && chains == old(chains) && active == old(active) && valid == old(valid)
    {
      Data := d;
      touched := touched + {"Data"};
    }

    /** Whether `execute` runs the active chain. */
    predicate Runs()
      reads this
    {
      chains != {} && active != "" && RunsChain(active)
    }

    /** `getInputData`: the data of the explicit input when there is one; otherwise the data of
        the first pipeline of the document that holds this filter; otherwise nothing. */
    function InputData(pipelines: seq<PostPipeline>): Option<DataObject>
      reads this, Input, PipelineFrame(pipelines)
    {
      if Input != null then Input.Data else HolderData(pipelines, this, 0)
    }

    /** Resolves the input: the `Input` link first, then the pipelines of the document in order. */
    method GetInputData(pipelines: seq<PostPipeline>) returns (d: Option<DataObject>)
      ensures d == InputData(pipelines)
    {
      if Input != null {
        return Input.Data;
      }
      var i := 0;
      while i < |pipelines|
        invariant 0 <= i <= |pipelines|
        invariant forall j :: 0 <= j < i ==> this !in pipelines[j].Filter
      {
        var holds := pipelines[i].HoldsPostObject(this);
        if holds {
          assert FirstHolder(pipelines, this, 0, i);
          HolderDataIsFirstHolder(pipelines, this, 0);
          return pipelines[i].base.Data;
        }
        i := i + 1;
      }
      HolderDataIsFirstHolder(pipelines, this, 0);
      return None;
    }

    /** `execute`: when a chain is active and its name runs, the chain's stage is run on the
        input data and its output becomes `Data`. Looking the active chain up registers it when
        missing; a missing chain that would run has no stage, so callers must not reach it. */
    method Execute(stage: Stage, run: Runner, pipelines: seq<PostPipeline>) returns (r: ExecReturn)
      requires Runs() ==> active in chains
      modifies this
      ensures r == StdReturn
      ensures Input == old(Input) && active == old(active) && valid == old(valid)
      ensures chains == if old(chains) != {} && active != "" then old(chains) + {active} else old(chains)
      ensures old(Runs()) ==> Data == Some(run(stage, old(InputData(pipelines)))) &&
                              touched == old(touched) + {"Data"}
      ensures !old(Runs()) ==> Data == old(Data) && touched == old(touched)
    {
      if chains != {} && active != "" {
        if RunsChain(active) {
          // the active chain is registered already, by the precondition
          // naming the pipelines' frame lets the lookup's result carry over to the old state
          ghost var frame := PipelineFrame(pipelines);
          var input := GetInputData(pipelines);
          SetData(Some(run(stage, input)));
        } else {
          // looking the name up registers an empty chain under it
          chains := chains + {active};
        }
      }
      r := StdReturn;
    }
  }

  /** The input of a filter with an explicit link is that link's data; without one it is the
      data of the first pipeline of the document holding the filter, and nothing when no
      pipeline holds it. */
  lemma InputResolution(f: PostFilter, pipelines: seq<PostPipeline>)
    ensures f.Input != null ==> f.InputData(pipelines) == f.Input.Data
    ensures f.Input == null && (forall i :: 0 <= i < |pipelines| ==> f !in pipelines[i].Filter) ==>
              f.InputData(pipelines) == None
    ensures f.Input == null ==>
              forall i :: FirstHolder(pipelines, f, 0, i) ==> f.InputData(pipelines) == pipelines[i].base.Data
  {
    HolderDataIsFirstHolder(pipelines, f, 0);
  }

  // ---------------------------------------------------------------------------------------------
  // Pipeline

  /** The constraint of an integer property. */
  datatype IntConstraint = IntConstraint(lowerBound: int, upperBound: int, stepSize: int)

  /** How `read` ends: normally, or with a file exception naming the path. */
  datatype Outcome = Done | FileException(message: string, path: string)

  /** The extensions a pipeline accepts for reading. */
  const ReadableExtensions: set<string> := {"vtk", "vtp", "vts", "vtr", "vti", "vtu"}

  /** `canRead`: the file has one of the readable extensions, ignoring case. */
  predicate CanRead(path: string) {
    HasExtension(path, "vtk") || HasExtension(path, "vtp") || HasExtension(path, "vts") ||
    HasExtension(path, "vtr") || HasExtension(path, "vti") || HasExtension(path, "vtu")
  }

  /** `canRead` holds exactly when the lower-cased extension is one of the six. */
  lemma CanReadExtensions(path: string)
    ensures CanRead(path) <==> LowerString(Extension(path)) in ReadableExtensions
  {
    var e := Extension(path);
    assert CanRead(path) <==> ReadableIgnoringCaseOf(e);
    ReadableIgnoringCase(e);
  }

  /** The extension matches one of the six ignoring case. */
  predicate ReadableIgnoringCaseOf(e: string) {
    EqualIgnoringCase(e, "vtk") || EqualIgnoringCase(e, "vtp") || EqualIgnoringCase(e, "vts") ||
    EqualIgnoringCase(e, "vtr") || EqualIgnoringCase(e, "vti") || EqualIgnoringCase(e, "vtu")
  }

  /** An extension matches one of the six ignoring case exactly when its lower case is one of
      them. */
  lemma ReadableIgnoringCase(e: string)
    ensures ReadableIgnoringCaseOf(e) <==> LowerString(e) in ReadableExtensions
  {
    var l := LowerString(e);
    assert EqualIgnoringCase(e, "vtk") <==> l == "vtk" by { LowerCaseUnchanged("vtk"); }
    assert EqualIgnoringCase(e, "vtp") <==> l == "vtp" by { LowerCaseUnchanged("vtp"); }
    assert EqualIgnoringCase(e, "vts") <==> l == "vts" by { LowerCaseUnchanged("vts"); }
    assert EqualIgnoringCase(e, "vtr") <==> l == "vtr" by { LowerCaseUnchanged("vtr"); }
    assert EqualIgnoringCase(e, "vti") <==> l == "vti" by { LowerCaseUnchanged("vti"); }
    assert EqualIgnoringCase(e, "vtu") <==> l == "vtu" by { LowerCaseUnchanged("vtu"); }
    MemberOfReadable(l);
  }

  lemma MemberOfReadable(l: string)
    ensures l in ReadableExtensions <==> l == "vtk" || l == "vtp" || l == "vts" || l == "vtr" || l == "vti" || l == "vtu"
  {
  }

  /** A string without upper-case letters is its own lower case. */
  lemma LowerCaseUnchanged(s: string)
    requires forall c :: c in s ==> !('A' <= c <= 'Z')
    ensures LowerString(s) == s
  {
    forall i | 0 <= i < |s|
      ensures LowerString(s)[i] == s[i]
    {
      assert s[i] in s;
    }
  }

  /** The instant store loads only vtk and vtu among the readable extensions: a vtp, vts, vtr or
      vti file passes `canRead` but has no loader, so reading it appends nothing. */
  lemma ReadableWithoutLoader(path: string)
    requires LowerString(Extension(path)) in {"vtp", "vts", "vtr", "vti"}
    requires FileName(path) != "controlDict"
    ensures CanRead(path)
    ensures LoaderFor(path) == NoLoader
  {
    CanReadExtensions(path);
    NotLoadable(Extension(path));
  }

  /** An extension whose lower case is vtp, vts, vtr or vti matches none of the loaders'
      extensions. */
  lemma NotLoadable(e: string)
    requires LowerString(e) in {"vtp", "vts", "vtr", "vti"}
    ensures !EqualIgnoringCase(e, "vtk") && !EqualIgnoringCase(e, "vtu") && !EqualIgnoringCase(e, "nc")
  {
    LowerCaseUnchanged("vtk");
    LowerCaseUnchanged("vtu");
    LowerCaseUnchanged("nc");
  }

  class PostPipeline {
    /** The pipeline's inherited filter state: its `Input` link and its `Data`. */
    const base: PostFilter
    /** The result data at the times read so far. */
    const instants: InstantCollection
    var TimeIndex: int
    /** The children, as their filter base objects. */
    var Filter: seq<PostFilter>
    /** The data transition mode: 0 is Serial and 1 is Parallel. */
    var Mode: int
    var touched: set<string>
    /** The constraint `read` gives `TimeIndex`; absent until the first read. */
    var timeIndexRange: Option<IntConstraint>

    /** A pipeline registers no chains of its own, is not its own child, and every instant it
        has read holds regions. */
    ghost predicate Valid()
      reads this, base, instants, instants.items
    {
      base.chains == {} && base !in Filter && instants.Valid()
    }

    constructor()
      ensures fresh(base) && fresh(instants)
      ensures base.Input == null && base.Data == None && base.touched == {} && base.valid
      ensures TimeIndex == 0 && Filter == [] && Mode == 0 && touched == {} && timeIndexRange == None
      ensures instants.items == []
      ensures Valid()
    {
      base := new PostFilter();
      instants := new InstantCollection();
      TimeIndex := 0;
      Filter := [];
      Mode := 0;
      touched := {};
      timeIndexRange := None;
    }

    /** `mustExecute`: a touched `Mode` forces a recompute; otherwise the base decides. */
    function MustExecute(baseMustExecute: int): (r: int)
      reads this
      ensures "Mode" in touched ==> r == 1
      ensures "Mode" !in touched ==> r == baseMustExecute
    {
      if "Mode" in touched then 1 else baseMustExecute
    }

    /** `getLastPostObject`: the last child, or the pipeline itself when it has none. */
    function GetLastPostObject(): (r: PostFilter)
      reads this
      ensures Filter == [] ==> r == base
      ensures Filter != [] ==> r == Filter[|Filter| - 1] && r in Filter
    {
      if Filter == [] then base else Filter[|Filter| - 1]
    }

    /** `holdsPostObject`: whether `obj` is one of the children. */
    method HoldsPostObject(obj: PostFilter) returns (r: bool)
      ensures r <==> obj in Filter
    {
      var i := 0;
      while i < |Filter|
        invariant 0 <= i <= |Filter|
        invariant obj !in Filter[..i]
      {
        if Filter[i] == obj {
          return true;
        }
        i := i + 1;
      }
      return false;
    }

    /** The input the wiring gives child `k`: the pipeline's own input for the first child and,
        in Parallel mode, for every child; the preceding child in Serial mode. */
    function Expected(k: int): PostFilter?
      requires 0 <= k < |Filter|
      reads this, base
    {
      if k == 0 || Mode != 0 then base.Input else Filter[k - 1]
    }

    /** Child `k` does not occur again later in the list. */
    predicate LastOccurrence(k: int)
      requires 0 <= k < |Filter|
      reads this
    {
      forall l :: k < l < |Filter| ==> Filter[l] != Filter[k]
    }

    /** Every child is linked to its expected input (a child listed twice keeps the link of its
        last position). */
    ghost predicate Wired()
      reads this, base, Filter
    {
      forall k :: 0 <= k < |Filter| && LastOccurrence(k) ==> Filter[k].Input == Expected(k)
    }

    /** Every position of the list is linked to its expected input. */
    ghost predicate AllWired()
      reads this, base, Filter
    {
      forall k :: 0 <= k < |Filter| ==> Filter[k].Input == Expected(k)
    }

    /** Child `j` does not occur again at positions `j + 1` up to `i - 1`. */
    predicate LastBefore(j: int, i: int)
      requires 0 <= j < i <= |Filter|
      reads this
    {
      forall l :: j < l < i ==> Filter[l] != Filter[j]
    }

    /** One step of the wiring: links child `k` to its expected input when it is not already. */
    method LinkChild(k: int)
      requires 0 <= k < |Filter| && base !in Filter
      modifies Filter[k]
      ensures Filter[k].Input == Expected(k)
      ensures old(Filter[k].Input) == Expected(k) ==> Filter[k].touched == old(Filter[k].touched)
      ensures Filter[k].touched == old(Filter[k].touched) || Filter[k].touched == old(Filter[k].touched) + {"Input"}
      ensures Filter[k].Data == old(Filter[k].Data) && Filter[k].chains == old(Filter[k].chains)
      ensures Filter[k].active == old(Filter[k].active) && Filter[k].valid == old(Filter[k].valid)
    {
      var target := if k == 0 || Mode != 0 then base.Input else Filter[k - 1];
      if Filter[k].Input != target {
        Filter[k].SetInput(target);
      }
    }

    /** The wiring part of `onChanged`: links every child to its expected input, writing a link
        only where it differs. The children's other state is left alone, and a list that is
        already wired is not touched at all. */
    method Wire()
      requires base !in Filter
      modifies set k | 0 <= k < |Filter| :: Filter[k]
      ensures Wired()
      ensures forall k :: 0 <= k < |Filter| ==>
                Filter[k].Data == old(Filter[k].Data) && Filter[k].chains == old(Filter[k].chains) &&
                Filter[k].active == old(Filter[k].active) && Filter[k].valid == old(Filter[k].valid)
      ensures forall k :: 0 <= k < |Filter| ==>
                Filter[k].touched == old(Filter[k].touched) || Filter[k].touched == old(Filter[k].touched) + {"Input"}
      ensures old(AllWired()) ==>
                forall k :: 0 <= k < |Filter| ==>
                  Filter[k].Input == old(Filter[k].Input) && Filter[k].touched == old(Filter[k].touched)
    {
      var i := 0;
      while i < |Filter|
        invariant 0 <= i <= |Filter|
        invariant forall j :: 0 <= j < i && LastBefore(j, i) ==> Filter[j].Input == Expected(j)
        invariant forall k :: 0 <= k < |Filter| ==>
                    Filter[k].Data == old(Filter[k].Data) && Filter[k].chains == old(Filter[k].chains) &&
                    Filter[k].active == old(Filter[k].active) && Filter[k].valid == old(Filter[k].valid)
        invariant forall k :: 0 <= k < |Filter| ==>
                    Filter[k].touched == old(Filter[k].touched) || Filter[k].touched == old(Filter[k].touched) + {"Input"}
        invariant old(AllWired()) ==>
                    forall k :: 0 <= k < |Filter| ==>
                      Filter[k].Input == old(Filter[k].Input) && Filter[k].touched == old(Filter[k].touched)
      {
        LinkChild(i);
        forall j | 0 <= j < i + 1 && LastBefore(j, i + 1)
          ensures Filter[j].Input == Expected(j)
        {
          if j < i {
            assert LastBefore(j, i);
          }
        }
        i := i + 1;
      }
      forall k | 0 <= k < |Filter| && LastOccurrence(k)
        ensures Filter[k].Input == Expected(k)
      {
        assert LastBefore(k, |Filter|);
      }
    }

    /** The data of the children, in list order. */
    function ChildData(): (r: seq<Option<DataObject>>)
      reads this, Filter
      ensures |r| == |Filter|
      ensures forall k :: 0 <= k < |Filter| ==> r[k] == Filter[k].Data
    {
      seq(|Filter|, k reads this, Filter requires 0 <= k < |Filter| => Filter[k].Data)
    }

    /** The data at the current time index: the regions of the instant found at the index after
        its conversion to a 32-bit label, or nothing when no instant is there. */
    ghost function FetchedData(append: Appender): Option<DataObject>
      requires instants.Valid()
      reads this, instants, instants.items
    {
      var inst := instants.FindInstant(LabelOf(TimeIndex));
      if inst == null then None else Some(append(BlockData(inst.Regions.blocks)))
    }

    /** `fetch`. */
    method Fetch(append: Appender) returns (d: Option<DataObject>)
      requires instants.Valid()
      ensures d == FetchedData(append)
    {
      var inst := instants.FindInstant(LabelOf(TimeIndex));
      if inst == null {
        return None;
      }
      var regions := inst.GetAllRegions(append);
      d := Some(regions);
    }

    /** `onChanged`: a change of the child list or of the mode rewires the children (an empty
        list is left alone), a change of the time index fetches the data at the new index, and
        any other property changes nothing here. */
    method OnChanged(prop: string, append: Appender)
      requires Valid()
      modifies base, set k | 0 <= k < |Filter| :: Filter[k]
      ensures Valid()
      ensures prop == "Filter" || prop == "Mode" ==>
                Wired() && unchanged(base) &&
                (forall c :: c in Filter ==>
                   c.Data == old(c.Data) && c.chains == old(c.chains) && c.active == old(c.active) &&
                   c.valid == old(c.valid)) &&
                (old(AllWired()) ==> forall c :: c in Filter ==> c.Input == old(c.Input) && c.touched == old(c.touched))
      ensures prop == "TimeIndex" ==>
                base.Data == FetchedData(append) && base.touched == old(base.touched) + {"Data"} &&
                base.Input == old(base.Input) && base.chains == old(base.chains) &&
                base.active == old(base.active) && base.valid == old(base.valid)
      ensures prop != "Filter" && prop != "Mode" ==> forall c :: c in Filter ==> unchanged(c)
      ensures prop != "Filter" && prop != "Mode" && prop != "TimeIndex" ==> unchanged(base)
    {
      if prop == "Filter" || prop == "Mode" {
        Wire();
      } else if prop == "TimeIndex" {
        var d := Fetch(append);
        base.SetData(d);
      }
    }

    /** Setting the child list, then rewiring it. */
    method SetFilter(fs: seq<PostFilter>, append: Appender)
      requires Valid() && base !in fs
      modifies this, base, set k | 0 <= k < |fs| :: fs[k]
      ensures Filter == fs && touched == old(touched) + {"Filter"} && Mode == old(Mode) && TimeIndex == old(TimeIndex)
      ensures Valid() && Wired() && unchanged(base)
      ensures forall c :: c in fs ==>
                c.Data == old(c.Data) && c.chains == old(c.chains) && c.active == old(c.active) && c.valid == old(c.valid)
    {
      Filter := fs;
      touched := touched + {"Filter"};
      OnChanged("Filter", append);
    }

    /** Setting the mode, then rewiring the children. */
    method SetMode(m: int, append: Appender)
      requires Valid()
      modifies this, base, set k | 0 <= k < |Filter| :: Filter[k]
      ensures Mode == m && touched == old(touched) + {"Mode"} && Filter == old(Filter) && TimeIndex == old(TimeIndex)
      ensures Valid() && Wired() && unchanged(base)
      ensures forall c :: c in Filter ==>
                c.Data == old(c.Data) && c.chains == old(c.chains) && c.active == old(c.active) && c.valid == old(c.valid)
    {
      Mode := m;
      touched := touched + {"Mode"};
      OnChanged("Mode", append);
    }

    /** Setting the time index, which fetches the data at the new index. Values are stored as
        given, without clamping. */
    method SetTimeIndex(t: int, append: Appender)
      requires Valid()
      modifies this, base, set k | 0 <= k < |Filter| :: Filter[k]
      ensures TimeIndex == t && touched == old(touched) + {"TimeIndex"}
      ensures Filter == old(Filter) && Mode == old(Mode) && timeIndexRange == old(timeIndexRange)
      ensures base.Data == FetchedData(append) && base.touched == old(base.touched) + {"Data"}
      ensures base.Input == old(base.Input) && base.chains == old(base.chains)
      ensures forall c :: c in Filter ==> unchanged(c)
      ensures Valid()
    {
      TimeIndex := t;
      touched := touched + {"TimeIndex"};
      OnChanged("TimeIndex", append);
    }

    /** `execute`: a pipeline without an input is the source of its own data and changes nothing.
        Otherwise, in Serial mode its data becomes the data of the last child (its own when it
        has none), and in Parallel mode the append of all children's data in list order. */
    method Execute(run: Runner, append: Appender, pipelines: seq<PostPipeline>) returns (r: ExecReturn)
      requires Valid()
      modifies base
      ensures r == StdReturn
      ensures old(base.Input) == null ==> unchanged(base)
      ensures old(base.Input) != null && Mode == 0 ==> base.Data == old(GetLastPostObject().Data)
      ensures old(base.Input) != null && Mode != 0 ==> base.Data == Some(append(old(ChildData())))
      ensures old(base.Input) != null ==> base.touched == old(base.touched) + {"Data"}
      ensures base.Input == old(base.Input) && base.chains == old(base.chains) && base.active == old(base.active)
      ensures Valid()
    {
      if base.Input == null {
        return StdReturn;
      }
      if Mode == 0 {
        var last := GetLastPostObject();
        base.SetData(last.Data);
      } else {
        var inputs: seq<Option<DataObject>> := [];
        var i := 0;
        while i < |Filter|
          invariant 0 <= i <= |Filter|
          invariant |inputs| == i
          invariant forall k :: 0 <= k < i ==> inputs[k] == Filter[k].Data
        {
          inputs := inputs + [Filter[i].Data];
          i := i + 1;
        }
        assert inputs == ChildData();
        base.SetData(Some(append(inputs)));
      }
      r := base.Execute(NoStage, run, pipelines);
    }

    /** `read`: an unreadable file raises a file exception and changes nothing. Otherwise the
        instant store reads the file (whether it succeeded is not looked at), the time index is
        constrained to run from 0 to the last instant (0 when there is none) in steps of 1, and
        set to that last index, so the data becomes that of the last instant read. */
    method Read(path: string, readable: bool, src: ReaderOutput, append: Appender)
      returns (outcome: Outcome, ghost added: seq<Instant>)
      requires Valid()
      modifies this, base, instants, set k | 0 <= k < |Filter| :: Filter[k]
      ensures Valid()
      ensures !readable ==>
                outcome == FileException("File to load not existing or not readable", path) &&
                unchanged(this) && unchanged(base) && unchanged(instants)
      ensures readable ==> outcome == Done
      ensures readable ==>
                instants.items == old(instants.items) + added &&
                (Loaded(LoaderFor(path), src).None? ==> added == []) &&
                Snapshots(added) == (if Loaded(LoaderFor(path), src).Some? then Loaded(LoaderFor(path), src).value else [])
      ensures readable ==>
                var upper := if |instants.items| > 0 then |instants.items| - 1 else 0;
                timeIndexRange == Some(IntConstraint(0, upper, 1)) && TimeIndex == upper &&
                touched == old(touched) + {"TimeIndex"} && base.Data == FetchedData(append)
      ensures Filter == old(Filter) && Mode == old(Mode) && base.Input == old(base.Input)
      ensures forall c :: c in Filter ==> unchanged(c)
    {
      if !readable {
        return FileException("File to load not existing or not readable", path), [];
      }
      added := ReadReadable(path, src, append);
      outcome := Done;
    }

    /** The readable branch of `read`: the instant store reads the file, then the time index is
        set to the last instant. */
    method ReadReadable(path: string, src: ReaderOutput, append: Appender) returns (ghost added: seq<Instant>)
      requires Valid()
      modifies this, base, instants, set k | 0 <= k < |Filter| :: Filter[k]
      ensures Valid()
      ensures instants.items == old(instants.items) + added
      ensures Loaded(LoaderFor(path), src).None? ==> added == []
      ensures Snapshots(added) == if Loaded(LoaderFor(path), src).Some? then Loaded(LoaderFor(path), src).value else []
      ensures var upper := if |instants.items| > 0 then |instants.items| - 1 else 0;
              timeIndexRange == Some(IntConstraint(0, upper, 1)) && TimeIndex == upper
      ensures touched == old(touched) + {"TimeIndex"} && base.Data == FetchedData(append)
      ensures Filter == old(Filter) && Mode == old(Mode) && base.Input == old(base.Input)
      ensures forall c :: c in Filter ==> unchanged(c)
    {
      added := ReadInstants(path, src);
      ShowLastIndex(append, added);
    }

    /** The instant store reads the file; a file no loader accepts adds nothing. */
    method ReadInstants(path: string, src: ReaderOutput) returns (ghost added: seq<Instant>)
      requires instants.Valid()
      modifies instants
      ensures instants.items == old(instants.items) + added && instants.Valid()
      ensures Loaded(LoaderFor(path), src).None? ==> added == []
      ensures Snapshots(added) == if Loaded(LoaderFor(path), src).Some? then Loaded(LoaderFor(path), src).value else []
    {
      var ok, more := instants.Read(path, src);
      added := more;
      assert !ok ==> |added| == |Snapshots(added)| == 0;
    }

    /** The end of `read`: constrains the time index to run from 0 to the last instant (0 when
        there is none) in steps of 1 and sets it to that last index, which fetches the data of
        the last instant. */
    method ShowLastIndex(append: Appender, ghost kept: seq<Instant>)
      requires Valid()
      modifies this, base, set k | 0 <= k < |Filter| :: Filter[k]
      ensures Valid()
      ensures var upper := if |instants.items| > 0 then |instants.items| - 1 else 0;
              timeIndexRange == Some(IntConstraint(0, upper, 1)) && TimeIndex == upper
      ensures touched == old(touched) + {"TimeIndex"} && base.Data == FetchedData(append)
      ensures 0 < |instants.items| <= 0x8000_0000 ==>
                base.Data == Some(append(BlockData(instants.items[|instants.items| - 1].Regions.blocks)))
      ensures instants.items == [] ==> base.Data == None
      ensures Filter == old(Filter) && Mode == old(Mode) && base.Input == old(base.Input)
      ensures forall c :: c in Filter ==> unchanged(c)
      ensures unchanged(instants) && Snapshots(kept) == old(Snapshots(kept))
    {
      var upperIndex := |instants.items|;
      if upperIndex > 0 {
        upperIndex := upperIndex - 1;
      } else {
        upperIndex := 0;
      }
      timeIndexRange := Some(IntConstraint(0, upperIndex, 1));
      SetTimeIndex(upperIndex, append);
      if 0 < |instants.items| <= 0x8000_0000 {
        FetchAtIndex(this, append);
      } else if instants.items == [] {
        FetchOutsideList(this, append);
      }
    }

    /** `advance`: adds `delta` to the time index, which fetches the data there; returns 0. */
    method Advance(delta: int, append: Appender) returns (r: int)
      requires Valid()
      modifies this, base, set k | 0 <= k < |Filter| :: Filter[k]
      ensures r == 0
      ensures TimeIndex == old(TimeIndex) + delta && touched == old(touched) + {"TimeIndex"}
      ensures Filter == old(Filter) && Mode == old(Mode) && timeIndexRange == old(timeIndexRange)
      ensures base.Data == FetchedData(append) && base.Input == old(base.Input)
      ensures forall c :: c in Filter ==> unchanged(c)
      ensures Valid()
    {
      SetTimeIndex(TimeIndex + delta, append);
      r := 0;
    }

    /** `load`: a null result object only draws a warning; otherwise this pipeline is appended to
        the result's pipes. */
    method Load(res: ResultObject?) returns (warning: Option<string>)
      modifies res
      ensures res == null ==> warning == Some("Data of result object is empty\n")
      ensures res != null ==> warning == None && res.Pipes == old(res.Pipes) + [this]
    {
      if res == null {
        return Some("Data of result object is empty\n");
      }
      res.Pipes := res.Pipes + [this];
      warning := None;
    }

    /** `listTimeValues`: not implemented, always empty. */
    function ListTimeValues(): (r: seq<real>)
      ensures r == []
    {
      []
    }

    /** `listRegions`: not implemented, always empty. */
    function ListRegions(): (r: seq<string>)
      ensures r == []
    {
      []
    }
  }

  /** The result object's list of pipes. */
  class ResultObject {
    var Pipes: seq<PostPipeline>

    constructor()
      ensures Pipes == []
    {
      Pipes := [];
    }
  }

  // ---------------------------------------------------------------------------------------------
  // Fetching

  /** A time index inside the list (and inside the positive 32-bit range) fetches the regions of
      the instant at that position. */
  lemma FetchAtIndex(p: PostPipeline, append: Appender)
    requires p.instants.Valid()
    requires 0 <= p.TimeIndex < |p.instants.items| && p.TimeIndex < 0x8000_0000
    ensures p.FetchedData(append) == Some(append(BlockData(p.instants.items[p.TimeIndex].Regions.blocks)))
  {
    var l := LabelOf(p.TimeIndex);
    assert l as int == p.TimeIndex;
  }

  /** A time index outside the list fetches nothing, for every index a 32-bit label can carry,
      negative ones included. */
  lemma FetchOutsideList(p: PostPipeline, append: Appender)
    requires p.instants.Valid()
    requires -0x8000_0000 <= p.TimeIndex < 0x1_0000_0000
    requires !(0 <= p.TimeIndex < |p.instants.items|)
    ensures p.FetchedData(append) == None
  {
    var l := LabelOf(p.TimeIndex);
    if p.TimeIndex < 0 {
      assert l as int == p.TimeIndex + 0x1_0000_0000;
    } else {
      assert l as int == p.TimeIndex;
    }
  }

  /** The conversion to a 32-bit label makes time indices that differ by 2^32 fetch the same
      data. */
  lemma FetchWrapsAround(p: PostPipeline, append: Appender, t: int)
    requires p.instants.Valid()
    requires p.TimeIndex == t + 0x1_0000_0000
    ensures p.FetchedData(append) == (
              var inst := p.instants.FindInstant(LabelOf(t));
              if inst == null then None else Some(append(BlockData(inst.Regions.blocks))))
  {
    var a := LabelOf(t);
    var b := LabelOf(p.TimeIndex);
    assert (a as int - b as int) % 0x1_0000_0000 == 0;
  }
}
