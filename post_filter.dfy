/** The concrete filters. Each holds a `PostFilter` for the state it inherits (its input link,
    its output, its chains), its own document properties with their touched flags, and the
    settings it pushes into the algorithms of its chains. Setting a property stores the value,
    marks it touched and runs the filter's `onChanged`. */
module PostFilters {
  import opened Data
  import opened PostFunctions
  import opened VtkStages
  import opened PostObjects

  /** The enumeration a field property holds before its first catalog refresh: no names and
      index 0. */
  const UnfilledEnumeration := Enumeration([], 0)

  /** The enumeration `setEnums` followed by `setValue` gives: the new list, its first name
      selected, or nothing selected when the list is empty. */
  function Rebuilt(items: seq<string>): (r: Enumeration)
    ensures r.items == items
    ensures 0 <= r.index <==> items != []
    ensures items != [] ==> r.ValueAsString() == items[0]
  {
    Enumeration(items, if |items| > 0 then 0 else -1)
  }

  /** The array a stage processes once the field property `e` went through its catalog
      refresh: the selection when there is one, and otherwise the array it processed before. */
  function ArrayAfterRefresh(previous: Option<string>, e: Enumeration): Option<string> {
    if e.index >= 0 then Some(e.ValueAsString()) else previous
  }

  /** After a refresh the stage processes a listed array when the list has any, keeps its
      previous array when the list is empty, and keeps the previously processed name when that
      name is still listed. */
  lemma ArrayAfterRefreshListed(previous: Option<string>, e: Enumeration, items: seq<string>)
    ensures items != [] ==> ArrayAfterRefresh(previous, Refresh(e, items)).Some? &&
                            ArrayAfterRefresh(previous, Refresh(e, items)).value in items
    ensures items == [] ==> ArrayAfterRefresh(previous, Refresh(e, items)) == previous
    ensures e.ValueAsString() != "" && e.ValueAsString() in items ==>
              ArrayAfterRefresh(previous, Refresh(e, items)) == Some(e.ValueAsString())
  {
    RefreshSelection(e, items);
  }

  // ---------------------------------------------------------------------------------------------
  // Warp

  class PostWarpVectorFilter {
    const base: PostFilter
    var Factor: real
    var Vector: Enumeration
    var touched: set<string>
    var warp: WarpSettings

    /** The single chain "warp" is registered and active. */
    ghost predicate Valid()
      reads this, base
    {
      base.chains == {"warp"} && base.active == "warp"
    }

    /** Factor 0 and an unfilled `Vector`; the warp itself keeps the library's scale factor 1
        because setting up the properties does not run `onChanged`. */
    constructor()
      ensures Valid() && fresh(base)
      ensures base.Input == null && base.Data == None && base.touched == {} && base.valid
      ensures Factor == 0.0 && Vector == UnfilledEnumeration && touched == {}
      ensures warp == WarpSettings(1.0, None)
    {
      base := new PostFilter();
      Factor := 0.0;
      Vector := UnfilledEnumeration;
      touched := {};
      warp := WarpSettings(1.0, None);
      new;
      base.AddFilterPipeline("warp");
      base.SetActiveFilterPipeline("warp");
    }

    /** `onChanged`: the factor becomes the scale factor; a selected `Vector` becomes the array
        to add; an unselected one leaves the array as it was. */
    method OnChanged(prop: string)
      modifies this
      ensures Factor == old(Factor) && Vector == old(Vector) && touched == old(touched)
      ensures prop == "Factor" ==> warp == old(warp).(scaleFactor := Factor)
      ensures prop == "Vector" ==> warp == old(warp).(inputArray := ArrayAfterRefresh(old(warp).inputArray, Vector))
      ensures prop != "Factor" && prop != "Vector" ==> warp == old(warp)
    {
      if prop == "Factor" {
        warp := warp.(scaleFactor := Factor);
      } else if prop == "Vector" && Vector.index >= 0 {
        warp := warp.(inputArray := Some(Vector.ValueAsString()));
      }
    }

    method SetFactor(f: real)
      modifies this
      ensures Factor == f && Vector == old(Vector) && touched == old(touched) + {"Factor"}
      ensures warp == old(warp).(scaleFactor := f)
    {
      Factor := f;
      touched := touched + {"Factor"};
      OnChanged("Factor");
    }

    method SetVector(e: Enumeration)
      modifies this
      ensures Vector == e && Factor == old(Factor) && touched == old(touched) + {"Vector"}
      ensures warp == old(warp).(inputArray := ArrayAfterRefresh(old(warp).inputArray, e))
    {
      Vector := e;
      touched := touched + {"Vector"};
      OnChanged("Vector");
    }

    /** The catalog refresh of `execute`: `Vector` is emptied, refilled with `names`, and the
        previous selection is selected again when it is still listed. */
    method RefreshVector(names: seq<string>)
      modifies this
      ensures Vector == Refresh(old(Vector), names)
      ensures warp == old(warp).(inputArray := ArrayAfterRefresh(old(warp).inputArray, Vector))
      ensures Factor == old(Factor) && touched == old(touched) + {"Vector"}
    {
      var val := Vector.ValueAsString();
      SetVector(EmptyEnumeration);
      SetVector(Rebuilt(names));
      var at := IndexOf(names, val);
      if val != "" && at.Some? {
        SetVector(Enumeration(names, at.value));
      }
    }

    /** `mustExecute`: a touched factor or field forces a recompute; otherwise the document
        object's own answer stands. */
    function MustExecute(baseMustExecute: int): (r: int)
      reads this
      ensures "Factor" in touched || "Vector" in touched ==> r == 1
      ensures "Factor" !in touched && "Vector" !in touched ==> r == baseMustExecute
    {
      if "Factor" in touched || "Vector" in touched then 1 else baseMustExecute
    }

    /** `execute`: without a data set as input nothing happens. Otherwise `Vector` is refreshed
        from the three-component point arrays of the input and the warp runs on the input. */
    method Execute(run: Runner, pipelines: seq<PostPipeline>) returns (r: ExecReturn)
      requires Valid()
      modifies this, base
      ensures r == StdReturn && Valid() && base.Input == old(base.Input)
      ensures !IsDataSet(old(base.InputData(pipelines))) ==> unchanged(this) && unchanged(base)
      ensures IsDataSet(old(base.InputData(pipelines))) ==>
                var names := NamesWithComponents(old(base.InputData(pipelines)).value.pointData, 3);
                Vector == Refresh(old(Vector), names) &&
                warp == old(warp).(inputArray := ArrayAfterRefresh(old(warp).inputArray, Vector)) &&
                Factor == old(Factor) && touched == old(touched) + {"Vector"} &&
                base.Data == Some(run(Warp(warp), old(base.InputData(pipelines)))) &&
                base.touched == old(base.touched) + {"Data"}
    {
      ghost var frame := PipelineFrame(pipelines);
      var data := base.GetInputData(pipelines);
      if !IsDataSet(data) {
        return StdReturn;
      }
      var names := ScanPointArrays(data.value.pointData, 3);
      RefreshVector(names);
      r := base.Execute(Warp(warp), run, pipelines);
    }
  }

  // ---------------------------------------------------------------------------------------------
  // Clip

  class PostClipFilter {
    const base: PostFilter
    var Function: FunctionLink
    var InsideOut: bool
    var CutCells: bool
    var touched: set<string>
    var clipper: ClipperSettings
    var extractor: ExtractorSettings

    /** The chains "clip" and "extract" are registered, one of them is active, and the two
        algorithms share one implicit function. */
    ghost predicate Valid()
      reads this, base
    {
      base.chains == {"clip", "extract"} && base.active in base.chains &&
      clipper.clipFunction == extractor.implicitFunction
    }

    /** No function, not inside out, cells kept whole: the extraction chain is active and keeps
        the outside. */
    constructor()
      ensures Valid() && fresh(base)
      ensures base.Input == null && base.Data == None && base.touched == {} && base.valid
      ensures Function == NoObject && !InsideOut && !CutCells && touched == {}
      ensures clipper == ClipperSettings(None, false, 0.0, None)
      ensures extractor == ExtractorSettings(None, 0)
      ensures base.active == "extract"
    {
      base := new PostFilter();
      Function := NoObject;
      InsideOut := false;
      CutCells := false;
      touched := {};
      clipper := ClipperSettings(None, false, 0.0, None);
      extractor := ExtractorSettings(None, 0);
      new;
      base.AddFilterPipeline("clip");
      base.AddFilterPipeline("extract");
      base.SetActiveFilterPipeline("extract");
    }

    /** `onChanged`: a link to a function object hands its implicit function to both
        algorithms (a link to anything else keeps the previous function); `InsideOut` sets the
        clip direction and which side the extraction keeps; `CutCells` picks the chain. */
    method OnChanged(prop: string)
      requires Valid()
      modifies this, base
      ensures Valid()
      ensures Function == old(Function) && InsideOut == old(InsideOut) && CutCells == old(CutCells)
      ensures touched == old(touched)
      ensures base.Input == old(base.Input) && base.Data == old(base.Data) && base.touched == old(base.touched)
      ensures base.valid == old(base.valid)
      ensures prop == "Function" && HandleOf(Function).Some? ==>
                clipper == old(clipper).(clipFunction := HandleOf(Function)) &&
                extractor == old(extractor).(implicitFunction := HandleOf(Function))
      ensures prop == "InsideOut" ==>
                clipper == old(clipper).(insideOut := InsideOut) &&
                extractor == old(extractor).(extractInside := if InsideOut then 1 else 0)
      ensures prop == "CutCells" ==>
                base.active == if base.valid then (if CutCells then "clip" else "extract") else old(base.active)
      ensures prop != "CutCells" ==> unchanged(base)
      ensures !(prop == "Function" && HandleOf(Function).Some?) && prop != "InsideOut" ==>
                clipper == old(clipper) && extractor == old(extractor)
    {
      if prop == "Function" {
        var h := HandleOf(Function);
        if h.Some? {
          clipper := clipper.(clipFunction := h);
          extractor := extractor.(implicitFunction := h);
        }
      } else if prop == "InsideOut" {
        clipper := clipper.(insideOut := InsideOut);
        extractor := extractor.(extractInside := if InsideOut then 1 else 0);
      } else if prop == "CutCells" {
        if !CutCells {
          base.SetActiveFilterPipeline("extract");
        } else {
          base.SetActiveFilterPipeline("clip");
        }
      }
    }

    method SetFunction(link: FunctionLink)
      requires Valid()
      modifies this, base
      ensures Valid() && Function == link && touched == old(touched) + {"Function"}
      ensures InsideOut == old(InsideOut) && CutCells == old(CutCells)
      ensures unchanged(base)
      ensures HandleOf(link).Some? ==>
                clipper == old(clipper).(clipFunction := HandleOf(link)) &&
                extractor == old(extractor).(implicitFunction := HandleOf(link))
      ensures HandleOf(link).None? ==> clipper == old(clipper) && extractor == old(extractor)
    {
      Function := link;
      touched := touched + {"Function"};
      OnChanged("Function");
    }

    method SetInsideOut(b: bool)
      requires Valid()
      modifies this, base
      ensures Valid() && InsideOut == b && touched == old(touched) + {"InsideOut"}
      ensures Function == old(Function) && CutCells == old(CutCells)
      ensures unchanged(base)
      ensures clipper == old(clipper).(insideOut := b)
      ensures extractor == old(extractor).(extractInside := if b then 1 else 0)
    {
      InsideOut := b;
      touched := touched + {"InsideOut"};
      OnChanged("InsideOut");
    }

    method SetCutCells(b: bool)
      requires Valid()
      modifies this, base
      ensures Valid() && CutCells == b && touched == old(touched) + {"CutCells"}
      ensures Function == old(Function) && InsideOut == old(InsideOut)
      ensures clipper == old(clipper) && extractor == old(extractor)
      ensures base.Input == old(base.Input) && base.Data == old(base.Data) && base.touched == old(base.touched)
      ensures base.valid == old(base.valid) && base.chains == old(base.chains)
      ensures base.valid ==> base.active == if b then "clip" else "extract"
      ensures !base.valid ==> base.active == old(base.active)
    {
      CutCells := b;
      touched := touched + {"CutCells"};
      OnChanged("CutCells");
    }

    function MustExecute(baseMustExecute: int): (r: int)
      reads this
      ensures "Function" in touched || "InsideOut" in touched || "CutCells" in touched ==> r == 1
      ensures "Function" !in touched && "InsideOut" !in touched && "CutCells" !in touched ==>
                r == baseMustExecute
    {
      if "Function" in touched || "InsideOut" in touched || "CutCells" in touched then 1
      else baseMustExecute
    }

    /** The stage the active chain runs: the table clipper when cells are cut, the geometry
        extractor otherwise, each with the current value of its implicit function. */
    function ActiveStage(): (s: Stage)
      reads this, base, HandleFrame(clipper.clipFunction), HandleFrame(extractor.implicitFunction)
      ensures base.active == "clip" ==> s.TableClip? && s.clipFunction == EvaluateOpt(clipper.clipFunction)
      ensures base.active != "clip" ==> s.ExtractGeometry? && s.implicitFunction == EvaluateOpt(extractor.implicitFunction)
    {
      if base.active == "clip" then
        TableClip(EvaluateOpt(clipper.clipFunction), clipper.insideOut, clipper.value, clipper.inputArray)
      else
        ExtractGeometry(EvaluateOpt(extractor.implicitFunction), extractor.extractInside)
    }

    /** `execute`: nothing happens until a function object is linked; then the active chain
        runs on the input. */
    method Execute(run: Runner, pipelines: seq<PostPipeline>) returns (r: ExecReturn)
      requires Valid()
      modifies base
      ensures r == StdReturn && Valid() && base.Input == old(base.Input)
      ensures base.active == old(base.active) && base.valid == old(base.valid)
      ensures extractor.implicitFunction.None? ==> unchanged(base)
      ensures extractor.implicitFunction.Some? ==>
                base.Data == Some(run(old(ActiveStage()), old(base.InputData(pipelines)))) &&
                base.touched == old(base.touched) + {"Data"}
    {
      if extractor.implicitFunction.None? {
        return StdReturn;
      }
      r := base.Execute(ActiveStage(), run, pipelines);
    }
  }

  // ---------------------------------------------------------------------------------------------
  // Scalar clip

  /** The bounds and step of a floating-point property's slider. */
  datatype FloatConstraint = FloatConstraint(lowerBound: real, upperBound: real, stepSize: real)

  /** The constraint `setConstraintForField` derives from the range of a field: the range's
      bounds, crossed in a hundred equal steps. */
  function ConstraintFor(range: Range): (c: FloatConstraint)
    ensures c.lowerBound == range.lo && c.upperBound == range.hi
    ensures c.lowerBound + 100.0 * c.stepSize == c.upperBound
    ensures range.lo <= range.hi ==> c.stepSize >= 0.0
  {
    FloatConstraint(range.lo, range.hi, (range.hi - range.lo) / 100.0)
  }

  /** `name` names a point array of the input whenever the input is a data set; reading the
      range of a missing array would dereference nothing. */
  predicate NameResolves(name: string, input: Option<DataObject>) {
    IsDataSet(input) ==> ArrayByName(input.value.pointData, name).Some?
  }

  /** A selected field resolves. */
  predicate SelectionResolves(e: Enumeration, input: Option<DataObject>) {
    e.index >= 0 ==> NameResolves(e.ValueAsString(), input)
  }

  /** The constraint after the field property `e` changed: the range of the selected array of
      a data-set input, and otherwise what it was. */
  function ConstraintAfter(previous: Option<FloatConstraint>, e: Enumeration, input: Option<DataObject>): Option<FloatConstraint>
    requires SelectionResolves(e, input)
  {
    if e.index >= 0 && IsDataSet(input) then
      Some(ConstraintFor(ArrayByName(input.value.pointData, e.ValueAsString()).value.range))
    else previous
  }

  class PostScalarClipFilter {
    const base: PostFilter
    var Value: real
    var Scalars: Enumeration
    var InsideOut: bool
    var touched: set<string>
    var clipper: ClipperSettings
    /** The constraint of `Value`; nothing until it is first derived from a field. */
    var constraint: Option<FloatConstraint>

    /** The single chain "clip" is registered and active. */
    ghost predicate Valid()
      reads this, base
    {
      base.chains == {"clip"} && base.active == "clip"
    }

    /** Value 0, an unfilled `Scalars`, not inside out, and no constraint derived yet. */
    constructor()
      ensures Valid() && fresh(base)
      ensures base.Input == null && base.Data == None && base.touched == {} && base.valid
      ensures Value == 0.0 && Scalars == UnfilledEnumeration && !InsideOut && touched == {}
      ensures clipper == ClipperSettings(None, false, 0.0, None) && constraint == None
    {
      base := new PostFilter();
      Value := 0.0;
      Scalars := UnfilledEnumeration;
      InsideOut := false;
      touched := {};
      clipper := ClipperSettings(None, false, 0.0, None);
      constraint := None;
      new;
      base.AddFilterPipeline("clip");
      base.SetActiveFilterPipeline("clip");
    }

    /** `setConstraintForField`: with a data set as input, the constraint becomes the range of
        the selected array in a hundred steps; otherwise nothing changes. */
    method SetConstraintForField(pipelines: seq<PostPipeline>)
      requires NameResolves(Scalars.ValueAsString(), base.InputData(pipelines))
      modifies this
      ensures base.InputData(pipelines) == old(base.InputData(pipelines))
      ensures Value == old(Value) && Scalars == old(Scalars) && InsideOut == old(InsideOut)
      ensures touched == old(touched) && clipper == old(clipper)
      ensures IsDataSet(base.InputData(pipelines)) ==>
                constraint == Some(ConstraintFor(ArrayByName(base.InputData(pipelines).value.pointData,
                                                             Scalars.ValueAsString()).value.range))
      ensures !IsDataSet(base.InputData(pipelines)) ==> constraint == old(constraint)
    {
      // the pipelines and the base are other objects, so writing this filter keeps its input
      assert this as object !in PipelineFrame(pipelines);
      var data := base.GetInputData(pipelines);
      if !IsDataSet(data) {
        return;
      }
      var pdata := ArrayByName(data.value.pointData, Scalars.ValueAsString());
      var p := pdata.value.range;
      constraint := Some(FloatConstraint(p.lo, p.hi, (p.hi - p.lo) / 100.0));
    }

    /** `onChanged`: `Value` and `InsideOut` go to the clipper; a selected field becomes the
        clipped array and sets the constraint of `Value`. */
    method OnChanged(prop: string, pipelines: seq<PostPipeline>)
      requires prop == "Scalars" ==> SelectionResolves(Scalars, base.InputData(pipelines))
      modifies this
      ensures base.InputData(pipelines) == old(base.InputData(pipelines))
      ensures Value == old(Value) && Scalars == old(Scalars) && InsideOut == old(InsideOut)
      ensures touched == old(touched)
      ensures prop == "Value" ==> clipper == old(clipper).(value := Value)
      ensures prop == "InsideOut" ==> clipper == old(clipper).(insideOut := InsideOut)
      ensures prop == "Scalars" ==>
                clipper == old(clipper).(inputArray := ArrayAfterRefresh(old(clipper).inputArray, Scalars)) &&
                constraint == ConstraintAfter(old(constraint), Scalars, base.InputData(pipelines))
      ensures prop != "Value" && prop != "InsideOut" && prop != "Scalars" ==> clipper == old(clipper)
      ensures prop != "Scalars" ==> constraint == old(constraint)
    {
      assert this as object !in PipelineFrame(pipelines);
      if prop == "Value" {
        clipper := clipper.(value := Value);
      } else if prop == "InsideOut" {
        clipper := clipper.(insideOut := InsideOut);
      } else if prop == "Scalars" && Scalars.index >= 0 {
        clipper := clipper.(inputArray := Some(Scalars.ValueAsString()));
        SetConstraintForField(pipelines);
      }
    }

    method SetValue(v: real, pipelines: seq<PostPipeline>)
      modifies this
      ensures Value == v && Scalars == old(Scalars) && InsideOut == old(InsideOut)
      ensures touched == old(touched) + {"Value"}
      ensures clipper == old(clipper).(value := v) && constraint == old(constraint)
    {
      Value := v;
      touched := touched + {"Value"};
      OnChanged("Value", pipelines);
    }

    method SetInsideOut(b: bool, pipelines: seq<PostPipeline>)
      modifies this
      ensures InsideOut == b && Value == old(Value) && Scalars == old(Scalars)
      ensures touched == old(touched) + {"InsideOut"}
      ensures clipper == old(clipper).(insideOut := b) && constraint == old(constraint)
    {
      InsideOut := b;
      touched := touched + {"InsideOut"};
      OnChanged("InsideOut", pipelines);
    }

    method SetScalars(e: Enumeration, pipelines: seq<PostPipeline>)
      requires SelectionResolves(e, base.InputData(pipelines))
      modifies this
      ensures base.InputData(pipelines) == old(base.InputData(pipelines))
      ensures Scalars == e && Value == old(Value) && InsideOut == old(InsideOut)
      ensures touched == old(touched) + {"Scalars"}
      ensures clipper == old(clipper).(inputArray := ArrayAfterRefresh(old(clipper).inputArray, e))
      ensures constraint == ConstraintAfter(old(constraint), e, base.InputData(pipelines))
    {
      assert this as object !in PipelineFrame(pipelines);
      Scalars := e;
      touched := touched + {"Scalars"};
      OnChanged("Scalars", pipelines);
    }

    /** The catalog refresh of `execute` for the one-component arrays `names` of a data-set
        input; every name it selects resolves, so the constraint follows the final selection. */
    method RefreshScalars(names: seq<string>, pipelines: seq<PostPipeline>)
      requires IsDataSet(base.InputData(pipelines))
      requires names == NamesWithComponents(base.InputData(pipelines).value.pointData, 1)
      modifies this
      ensures base.InputData(pipelines) == old(base.InputData(pipelines))
      ensures Scalars == Refresh(old(Scalars), names)
      ensures clipper == old(clipper).(inputArray := ArrayAfterRefresh(old(clipper).inputArray, Scalars))
      ensures SelectionResolves(Scalars, base.InputData(pipelines))
      ensures constraint == ConstraintAfter(old(constraint), Scalars, base.InputData(pipelines))
      ensures Value == old(Value) && InsideOut == old(InsideOut) && touched == old(touched) + {"Scalars"}
    {
      assert this as object !in PipelineFrame(pipelines);
      ghost var input := base.InputData(pipelines);
      ghost var pd := input.value.pointData;
      var val := Scalars.ValueAsString();
      SetScalars(EmptyEnumeration, pipelines);
      if names != [] {
        CatalogNamesResolve(pd, 1, names[0]);
      }
      SetScalars(Rebuilt(names), pipelines);
      var at := IndexOf(names, val);
      if val != "" && at.Some? {
        CatalogNamesResolve(pd, 1, val);
        SetScalars(Enumeration(names, at.value), pipelines);
      }
    }

    function MustExecute(baseMustExecute: int): (r: int)
      reads this
      ensures "Value" in touched || "InsideOut" in touched || "Scalars" in touched ==> r == 1
      ensures "Value" !in touched && "InsideOut" !in touched && "Scalars" !in touched ==>
                r == baseMustExecute
    {
      if "Value" in touched || "InsideOut" in touched || "Scalars" in touched then 1
      else baseMustExecute
    }

    /** `execute`: without a data set as input nothing happens. Otherwise `Scalars` is
        refreshed from the one-component point arrays, the constraint follows the selection, and
        the clipper runs on the input. */
    method Execute(run: Runner, pipelines: seq<PostPipeline>) returns (r: ExecReturn)
      requires Valid()
      modifies this, base
      ensures r == StdReturn && Valid() && base.Input == old(base.Input)
      ensures !IsDataSet(old(base.InputData(pipelines))) ==> unchanged(this) && unchanged(base)
      ensures IsDataSet(old(base.InputData(pipelines))) ==>
                var input := old(base.InputData(pipelines));
                Scalars == Refresh(old(Scalars), NamesWithComponents(input.value.pointData, 1)) &&
                clipper == old(clipper).(inputArray := ArrayAfterRefresh(old(clipper).inputArray, Scalars)) &&
                SelectionResolves(Scalars, input) &&
                constraint == ConstraintAfter(old(constraint), Scalars, input) &&
                Value == old(Value) && InsideOut == old(InsideOut) && touched == old(touched) + {"Scalars"} &&
                base.Data == Some(run(TableClip(None, clipper.insideOut, clipper.value, clipper.inputArray), input)) &&
                base.touched == old(base.touched) + {"Data"}
    {
      ghost var frame := PipelineFrame(pipelines);
      var data := base.GetInputData(pipelines);
      if !IsDataSet(data) {
        return StdReturn;
      }
      var names := ScanPointArrays(data.value.pointData, 1);
      RefreshScalars(names, pipelines);
      r := base.Execute(TableClip(None, clipper.insideOut, clipper.value, clipper.inputArray), run, pipelines);
    }
  }

  // ---------------------------------------------------------------------------------------------
  // Cut

  class PostCutFilter {
    const base: PostFilter
    var Function: FunctionLink
    var touched: set<string>
    var cutter: CutterSettings

    /** The single chain "cut" is registered and active. */
    ghost predicate Valid()
      reads this, base
    {
      base.chains == {"cut"} && base.active == "cut"
    }

    /** No function yet; the cutter generates cut scalars and triangles. */
    constructor()
      ensures Valid() && fresh(base)
      ensures base.Input == null && base.Data == None && base.touched == {} && base.valid
      ensures Function == NoObject && touched == {}
      ensures cutter == CutterSettings(None, true, true)
    {
      base := new PostFilter();
      Function := NoObject;
      touched := {};
      cutter := CutterSettings(None, true, true);
      new;
      base.AddFilterPipeline("cut");
      base.SetActiveFilterPipeline("cut");
    }

    /** `onChanged`: a link to a function object hands its implicit function to the cutter; a
        link to anything else keeps the previous cut function. */
    method OnChanged(prop: string)
      modifies this
      ensures Function == old(Function) && touched == old(touched)
      ensures prop == "Function" && HandleOf(Function).Some? ==>
                cutter == old(cutter).(cutFunction := HandleOf(Function))
      ensures !(prop == "Function" && HandleOf(Function).Some?) ==> cutter == old(cutter)
    {
      if prop == "Function" {
        var h := HandleOf(Function);
        if h.Some? {
          cutter := cutter.(cutFunction := h);
        }
      }
    }

    method SetFunction(link: FunctionLink)
      modifies this
      ensures Function == link && touched == old(touched) + {"Function"}
      ensures HandleOf(link).Some? ==> cutter == old(cutter).(cutFunction := HandleOf(link))
      ensures HandleOf(link).None? ==> cutter == old(cutter)
    {
      Function := link;
      touched := touched + {"Function"};
      OnChanged("Function");
    }

    function MustExecute(baseMustExecute: int): (r: int)
      reads this
      ensures "Function" in touched ==> r == 1
      ensures "Function" !in touched ==> r == baseMustExecute
    {
      if "Function" in touched then 1 else baseMustExecute
    }

    /** `execute`: nothing happens until a function object is linked; then the cutter runs on
        the input with the current value of its function. */
    method Execute(run: Runner, pipelines: seq<PostPipeline>) returns (r: ExecReturn)
      requires Valid()
      modifies base
      ensures r == StdReturn && Valid() && base.Input == old(base.Input)
      ensures cutter.cutFunction.None? ==> unchanged(base)
      ensures cutter.cutFunction.Some? ==>
                base.Data == Some(run(Cut(old(EvaluateOpt(cutter.cutFunction)), cutter.generateCutScalars,
                                          cutter.generateTriangles), old(base.InputData(pipelines)))) &&
                base.touched == old(base.touched) + {"Data"}
    {
      if cutter.cutFunction.None? {
        return StdReturn;
      }
      r := base.Execute(Cut(EvaluateOpt(cutter.cutFunction), cutter.generateCutScalars, cutter.generateTriangles),
                        run, pipelines);
    }
  }

  // ---------------------------------------------------------------------------------------------
  // Contour

  /** The names the contour filter lists: "None" first, then the one-component point arrays. */
  function ContourFields(pd: seq<DataArray>): (r: seq<string>)
    ensures |r| > 0 && r[0] == "None"
  {
    ["None"] + NamesWithComponents(pd, 1)
  }

  /** Because "None" is always listed, a refreshed `Field` always selects a name: the previous
      one when it is still listed, "None" or the first array otherwise, and the contour always
      gets an array to process. */
  lemma ContourFieldAlwaysSelected(e: Enumeration, pd: seq<DataArray>, previous: Option<string>)
    ensures Refresh(e, ContourFields(pd)).index >= 0
    ensures ArrayAfterRefresh(previous, Refresh(e, ContourFields(pd))) ==
              Some(Refresh(e, ContourFields(pd)).ValueAsString())
    ensures Refresh(e, ContourFields(pd)).ValueAsString() in ContourFields(pd)
    ensures e.ValueAsString() != "" && e.ValueAsString() in ContourFields(pd) ==>
              Refresh(e, ContourFields(pd)).ValueAsString() == e.ValueAsString()
    ensures e.ValueAsString() == "" || e.ValueAsString() !in ContourFields(pd) ==>
              Refresh(e, ContourFields(pd)).ValueAsString() == "None"
  {
    RefreshSelection(e, ContourFields(pd));
  }

  class PostContourFilter {
    const base: PostFilter
    var Field: Enumeration
    var RangeStart: real
    var RangeEnd: real
    var NumberOfContours: int
    var touched: set<string>
    var contour: ContourSettings

    /** The single chain "Contour" is registered and active. */
    ghost predicate Valid()
      reads this, base
    {
      base.chains == {"Contour"} && base.active == "Contour"
    }

    /** The contour values are the ones the three range properties describe. */
    predicate ValuesSynced()
      reads this
    {
      contour.values == GenerateValues(NumberOfContours, RangeStart, RangeEnd)
    }

    /** An unfilled field, ten contours over [0, 1]; the contour computes scalars. */
    constructor()
      ensures Valid() && fresh(base) && ValuesSynced()
      ensures base.Input == null && base.Data == None && base.touched == {} && base.valid
      ensures Field == UnfilledEnumeration && RangeStart == 0.0 && RangeEnd == 1.0 && NumberOfContours == 10
      ensures touched == {}
      ensures contour == ContourSettings(true, GenerateValues(10, 0.0, 1.0), None)
    {
      base := new PostFilter();
      Field := UnfilledEnumeration;
      RangeStart := 0.0;
      RangeEnd := 1.0;
      NumberOfContours := 10;
      touched := {};
      contour := ContourSettings(true, GenerateValues(10, 0.0, 1.0), None);
      new;
      base.AddFilterPipeline("Contour");
      base.SetActiveFilterPipeline("Contour");
    }

    /** `onChanged`: any of the three range properties regenerates the contour values from all
        three; a selected field becomes the contoured array. */
    method OnChanged(prop: string)
      modifies this
      ensures Field == old(Field) && RangeStart == old(RangeStart) && RangeEnd == old(RangeEnd)
      ensures NumberOfContours == old(NumberOfContours) && touched == old(touched)
      ensures prop in {"RangeStart", "RangeEnd", "NumberOfContours"} ==>
                contour == old(contour).(values := GenerateValues(NumberOfContours, RangeStart, RangeEnd))
      ensures prop == "Field" ==>
                contour == old(contour).(inputArray := ArrayAfterRefresh(old(contour).inputArray, Field))
      ensures prop !in {"RangeStart", "RangeEnd", "NumberOfContours", "Field"} ==> contour == old(contour)
    {
      if prop == "RangeStart" || prop == "RangeEnd" || prop == "NumberOfContours" {
        contour := contour.(values := GenerateValues(NumberOfContours, RangeStart, RangeEnd));
      } else if prop == "Field" && Field.index >= 0 {
        contour := contour.(inputArray := Some(Field.ValueAsString()));
      }
    }

    method SetRangeStart(v: real)
      modifies this
      ensures RangeStart == v && RangeEnd == old(RangeEnd) && NumberOfContours == old(NumberOfContours)
      ensures Field == old(Field) && touched == old(touched) + {"RangeStart"}
      ensures ValuesSynced() && contour.inputArray == old(contour.inputArray)
      ensures contour.computeScalars == old(contour.computeScalars)
    {
      RangeStart := v;
      touched := touched + {"RangeStart"};
      OnChanged("RangeStart");
    }

    method SetRangeEnd(v: real)
      modifies this
      ensures RangeEnd == v && RangeStart == old(RangeStart) && NumberOfContours == old(NumberOfContours)
      ensures Field == old(Field) && touched == old(touched) + {"RangeEnd"}
      ensures ValuesSynced() && contour.inputArray == old(contour.inputArray)
      ensures contour.computeScalars == old(contour.computeScalars)
    {
      RangeEnd := v;
      touched := touched + {"RangeEnd"};
      OnChanged("RangeEnd");
    }

    method SetNumberOfContours(n: int)
      modifies this
      ensures NumberOfContours == n && RangeStart == old(RangeStart) && RangeEnd == old(RangeEnd)
      ensures Field == old(Field) && touched == old(touched) + {"NumberOfContours"}
      ensures ValuesSynced() && contour.inputArray == old(contour.inputArray)
      ensures contour.computeScalars == old(contour.computeScalars)
    {
      NumberOfContours := n;
      touched := touched + {"NumberOfContours"};
      OnChanged("NumberOfContours");
    }

    method SetField(e: Enumeration)
      modifies this
      ensures Field == e && RangeStart == old(RangeStart) && RangeEnd == old(RangeEnd)
      ensures NumberOfContours == old(NumberOfContours) && touched == old(touched) + {"Field"}
      ensures contour == old(contour).(inputArray := ArrayAfterRefresh(old(contour).inputArray, e))
    {
      Field := e;
      touched := touched + {"Field"};
      OnChanged("Field");
    }

    /** The catalog refresh of `execute`. */
    method RefreshField(names: seq<string>)
      modifies this
      ensures Field == Refresh(old(Field), names)
      ensures contour == old(contour).(inputArray := ArrayAfterRefresh(old(contour).inputArray, Field))
      ensures RangeStart == old(RangeStart) && RangeEnd == old(RangeEnd)
      ensures NumberOfContours == old(NumberOfContours) && touched == old(touched) + {"Field"}
    {
      var val := Field.ValueAsString();
      SetField(EmptyEnumeration);
      SetField(Rebuilt(names));
      var at := IndexOf(names, val);
      if val != "" && at.Some? {
        SetField(Enumeration(names, at.value));
      }
    }

    function MustExecute(baseMustExecute: int): (r: int)
      reads this
      ensures ("Field" in touched || "RangeStart" in touched || "RangeEnd" in touched ||
               "NumberOfContours" in touched) ==> r == 1
      ensures ("Field" !in touched && "RangeStart" !in touched && "RangeEnd" !in touched &&
               "NumberOfContours" !in touched) ==> r == baseMustExecute
    {
      if "Field" in touched || "RangeStart" in touched || "RangeEnd" in touched || "NumberOfContours" in touched
      then 1 else baseMustExecute
    }

    /** `execute`: without a data set as input nothing happens. Otherwise `Field` is refreshed
        from "None" and the one-component arrays, its touched flag is cleared so the refresh
        alone does not ask for another recompute, and the contour runs on the input. */
    method Execute(run: Runner, pipelines: seq<PostPipeline>) returns (r: ExecReturn)
      requires Valid()
      modifies this, base
      ensures r == StdReturn && Valid() && base.Input == old(base.Input)
      ensures !IsDataSet(old(base.InputData(pipelines))) ==> unchanged(this) && unchanged(base)
      ensures IsDataSet(old(base.InputData(pipelines))) ==>
                var input := old(base.InputData(pipelines));
                Field == Refresh(old(Field), ContourFields(input.value.pointData)) &&
                contour == old(contour).(inputArray := Some(Field.ValueAsString())) &&
                RangeStart == old(RangeStart) && RangeEnd == old(RangeEnd) &&
                NumberOfContours == old(NumberOfContours) && touched == old(touched) - {"Field"} &&
                base.Data == Some(run(Contour(contour), input)) &&
                base.touched == old(base.touched) + {"Data"}
    {
      ghost var frame := PipelineFrame(pipelines);
      var data := base.GetInputData(pipelines);
      if !IsDataSet(data) {
        return StdReturn;
      }
      var arrays := ScanPointArrays(data.value.pointData, 1);
      arrays := ["None"] + arrays;
      ghost var previous := contour.inputArray;
      RefreshField(arrays);
      ContourFieldAlwaysSelected(old(Field), data.value.pointData, previous);
      touched := touched - {"Field"};
      r := base.Execute(Contour(contour), run, pipelines);
    }
  }

  // ---------------------------------------------------------------------------------------------
  // Glyph3D

  class PostGlyph3DFilter {
    const base: PostFilter
    var MaximumNumberOfPoints: int
    var Vector: Enumeration
    var ScaleFactor: real
    var touched: set<string>
    var mask: MaskSettings
    var glyph: GlyphSettings

    /** The single chain "Glyph3D" is registered and active. */
    ghost predicate Valid()
      reads this, base
    {
      base.chains == {"Glyph3D"} && base.active == "Glyph3D"
    }

    /** At most 100 points, drawn in random mode 1, oriented by vector and scaled by scalar
        with factor 0.01. */
    constructor()
      ensures Valid() && fresh(base)
      ensures base.Input == null && base.Data == None && base.touched == {} && base.valid
      ensures MaximumNumberOfPoints == 100 && Vector == UnfilledEnumeration && ScaleFactor == 0.01
      ensures touched == {}
      ensures mask == MaskSettings(1, 100, true) && glyph == GlyphSettings(true, true, 0.01, None)
    {
      base := new PostFilter();
      MaximumNumberOfPoints := 100;
      Vector := UnfilledEnumeration;
      ScaleFactor := 0.01;
      touched := {};
      mask := MaskSettings(1, 100, true);
      glyph := GlyphSettings(true, true, 0.01, None);
      new;
      base.AddFilterPipeline("Glyph3D");
      base.SetActiveFilterPipeline("Glyph3D");
    }

    /** `onChanged`: the point limit goes to the mask; a selected `Vector` switches the glyphs
        to vector orientation along that array; the scale factor goes to the glyphs. */
    method OnChanged(prop: string)
      modifies this
      ensures MaximumNumberOfPoints == old(MaximumNumberOfPoints) && Vector == old(Vector)
      ensures ScaleFactor == old(ScaleFactor) && touched == old(touched)
      ensures prop == "MaximumNumberOfPoints" ==>
                mask == old(mask).(maximumNumberOfPoints := MaximumNumberOfPoints) && glyph == old(glyph)
      ensures prop == "Vector" && Vector.index >= 0 ==>
                mask == old(mask) && glyph == old(glyph).(useVector := true, inputArray := Some(Vector.ValueAsString()))
      ensures prop == "ScaleFactor" ==> mask == old(mask) && glyph == old(glyph).(scaleFactor := ScaleFactor)
      ensures prop != "MaximumNumberOfPoints" && prop != "ScaleFactor" && !(prop == "Vector" && Vector.index >= 0) ==>
                mask == old(mask) && glyph == old(glyph)
    {
      if prop == "MaximumNumberOfPoints" {
        mask := mask.(maximumNumberOfPoints := MaximumNumberOfPoints);
      } else if prop == "Vector" {
        if Vector.index >= 0 {
          glyph := glyph.(useVector := true, inputArray := Some(Vector.ValueAsString()));
        }
      } else if prop == "ScaleFactor" {
        glyph := glyph.(scaleFactor := ScaleFactor);
      }
    }

    method SetMaximumNumberOfPoints(n: int)
      modifies this
      ensures MaximumNumberOfPoints == n && Vector == old(Vector) && ScaleFactor == old(ScaleFactor)
      ensures touched == old(touched) + {"MaximumNumberOfPoints"}
      ensures mask == old(mask).(maximumNumberOfPoints := n) && glyph == old(glyph)
    {
      MaximumNumberOfPoints := n;
      touched := touched + {"MaximumNumberOfPoints"};
      OnChanged("MaximumNumberOfPoints");
    }

    method SetVector(e: Enumeration)
      modifies this
      ensures Vector == e && MaximumNumberOfPoints == old(MaximumNumberOfPoints)
      ensures ScaleFactor == old(ScaleFactor) && touched == old(touched) + {"Vector"}
      ensures mask == old(mask)
      ensures e.index >= 0 ==> glyph == old(glyph).(useVector := true, inputArray := Some(e.ValueAsString()))
      ensures e.index < 0 ==> glyph == old(glyph)
    {
      Vector := e;
      touched := touched + {"Vector"};
      OnChanged("Vector");
    }

    method SetScaleFactor(f: real)
      modifies this
      ensures ScaleFactor == f && MaximumNumberOfPoints == old(MaximumNumberOfPoints) && Vector == old(Vector)
      ensures touched == old(touched) + {"ScaleFactor"}
      ensures mask == old(mask) && glyph == old(glyph).(scaleFactor := f)
    {
      ScaleFactor := f;
      touched := touched + {"ScaleFactor"};
      OnChanged("ScaleFactor");
    }

    /** The catalog refresh of `execute`; a non-empty list also switches the glyphs to vector
        orientation. */
    method RefreshVector(names: seq<string>)
      modifies this
      ensures Vector == Refresh(old(Vector), names) && mask == old(mask)
      ensures names != [] ==> glyph == old(glyph).(useVector := true, inputArray := Some(Vector.ValueAsString()))
      ensures names == [] ==> glyph == old(glyph)
      ensures MaximumNumberOfPoints == old(MaximumNumberOfPoints) && ScaleFactor == old(ScaleFactor)
      ensures touched == old(touched) + {"Vector"}
    {
      var val := Vector.ValueAsString();
      SetVector(EmptyEnumeration);
      SetVector(Rebuilt(names));
      var at := IndexOf(names, val);
      if val != "" && at.Some? {
        SetVector(Enumeration(names, at.value));
      }
    }

    function MustExecute(baseMustExecute: int): (r: int)
      reads this
      ensures "MaximumNumberOfPoints" in touched || "Vector" in touched || "ScaleFactor" in touched ==> r == 1
      ensures "MaximumNumberOfPoints" !in touched && "Vector" !in touched && "ScaleFactor" !in touched ==>
                r == baseMustExecute
    {
      if "MaximumNumberOfPoints" in touched || "Vector" in touched || "ScaleFactor" in touched then 1
      else baseMustExecute
    }

    /** `execute`: without a data set as input nothing happens. Otherwise `Vector` is refreshed
        from the three-component point arrays and the masked glyphs run on the input. */
    method Execute(run: Runner, pipelines: seq<PostPipeline>) returns (r: ExecReturn)
      requires Valid()
      modifies this, base
      ensures r == StdReturn && Valid() && base.Input == old(base.Input)
      ensures !IsDataSet(old(base.InputData(pipelines))) ==> unchanged(this) && unchanged(base)
      ensures IsDataSet(old(base.InputData(pipelines))) ==>
                var input := old(base.InputData(pipelines));
                var names := NamesWithComponents(input.value.pointData, 3);
                Vector == Refresh(old(Vector), names) && mask == old(mask) &&
                glyph == (if names != [] then old(glyph).(useVector := true, inputArray := Some(Vector.ValueAsString()))
                          else old(glyph)) &&
                MaximumNumberOfPoints == old(MaximumNumberOfPoints) && ScaleFactor == old(ScaleFactor) &&
                touched == old(touched) + {"Vector"} &&
                base.Data == Some(run(MaskedGlyph(mask, glyph), input)) &&
                base.touched == old(base.touched) + {"Data"}
    {
      ghost var frame := PipelineFrame(pipelines);
      var data := base.GetInputData(pipelines);
      if !IsDataSet(data) {
        return StdReturn;
      }
      var names := ScanPointArrays(data.value.pointData, 3);
      RefreshVector(names);
      r := base.Execute(MaskedGlyph(mask, glyph), run, pipelines);
    }
  }

  // ---------------------------------------------------------------------------------------------
  // Streamline

  class PostStreamlineFilter {
    const base: PostFilter
    var Vector: Enumeration
    var Point1: Vec3
    var Point2: Vec3
    var Resolution: int
    var touched: set<string>
    /** The seed line. */
    var line: LineSource
    var tracer: TracerSettings

    /** The single chain "StreamLine" is registered and active. */
    ghost predicate Valid()
      reads this, base
    {
      base.chains == {"StreamLine"} && base.active == "StreamLine"
    }

    /** The seed line is the one the three seed properties describe. */
    predicate SeedsSynced()
      reads this
    {
      line == LineSource(Point1, Point2, Resolution)
    }

    /** An unfilled `Vector` and a seed line from (0,0,0) to (0,1,1) in 100 pieces. */
    constructor()
      ensures Valid() && fresh(base) && SeedsSynced()
      ensures base.Input == null && base.Data == None && base.touched == {} && base.valid
      ensures Vector == UnfilledEnumeration && touched == {}
      ensures Point1 == Vec3(0.0, 0.0, 0.0) && Point2 == Vec3(0.0, 1.0, 1.0) && Resolution == 100
      ensures tracer == TracerSettings(None)
    {
      base := new PostFilter();
      Vector := UnfilledEnumeration;
      Point1 := Vec3(0.0, 0.0, 0.0);
      Point2 := Vec3(0.0, 1.0, 1.0);
      Resolution := 100;
      touched := {};
      line := LineSource(Vec3(0.0, 0.0, 0.0), Vec3(0.0, 1.0, 1.0), 100);
      tracer := TracerSettings(None);
      new;
      base.AddFilterPipeline("StreamLine");
      base.SetActiveFilterPipeline("StreamLine");
    }

    /** `onChanged`: a selected `Vector` becomes the integrated array; each seed property moves
        its part of the seed line. */
    method OnChanged(prop: string)
      modifies this
      ensures Vector == old(Vector) && Point1 == old(Point1) && Point2 == old(Point2)
      ensures Resolution == old(Resolution) && touched == old(touched)
      ensures prop == "Vector" ==> tracer == TracerSettings(ArrayAfterRefresh(old(tracer).inputArray, Vector))
      ensures prop != "Vector" ==> tracer == old(tracer)
      ensures prop == "Point1" ==> line == old(line).(point1 := Point1)
      ensures prop == "Point2" ==> line == old(line).(point2 := Point2)
      ensures prop == "Resolution" ==> line == old(line).(resolution := Resolution)
      ensures prop !in {"Point1", "Point2", "Resolution"} ==> line == old(line)
    {
      if prop == "Vector" && Vector.index >= 0 {
        tracer := tracer.(inputArray := Some(Vector.ValueAsString()));
      }
      if prop == "Point1" {
        line := line.(point1 := Point1);
      } else if prop == "Point2" {
        line := line.(point2 := Point2);
      } else if prop == "Resolution" {
        line := line.(resolution := Resolution);
      }
    }

    method SetVector(e: Enumeration)
      modifies this
      ensures Vector == e && Point1 == old(Point1) && Point2 == old(Point2) && Resolution == old(Resolution)
      ensures touched == old(touched) + {"Vector"} && line == old(line)
      ensures tracer == TracerSettings(ArrayAfterRefresh(old(tracer).inputArray, e))
    {
      Vector := e;
      touched := touched + {"Vector"};
      OnChanged("Vector");
    }

    method SetPoint1(v: Vec3)
      modifies this
      ensures Point1 == v && Vector == old(Vector) && Point2 == old(Point2) && Resolution == old(Resolution)
      ensures touched == old(touched) + {"Point1"} && tracer == old(tracer)
      ensures line == old(line).(point1 := v)
      ensures old(SeedsSynced()) ==> SeedsSynced()
    {
      Point1 := v;
      touched := touched + {"Point1"};
      OnChanged("Point1");
    }

    method SetPoint2(v: Vec3)
      modifies this
      ensures Point2 == v && Vector == old(Vector) && Point1 == old(Point1) && Resolution == old(Resolution)
      ensures touched == old(touched) + {"Point2"} && tracer == old(tracer)
      ensures line == old(line).(point2 := v)
      ensures old(SeedsSynced()) ==> SeedsSynced()
    {
      Point2 := v;
      touched := touched + {"Point2"};
      OnChanged("Point2");
    }

    method SetResolution(n: int)
      modifies this
      ensures Resolution == n && Vector == old(Vector) && Point1 == old(Point1) && Point2 == old(Point2)
      ensures touched == old(touched) + {"Resolution"} && tracer == old(tracer)
      ensures line == old(line).(resolution := n)
      ensures old(SeedsSynced()) ==> SeedsSynced()
    {
      Resolution := n;
      touched := touched + {"Resolution"};
      OnChanged("Resolution");
    }

    /** The catalog refresh of `updateProperties`. */
    method RefreshVector(names: seq<string>)
      modifies this
      ensures Vector == Refresh(old(Vector), names)
      ensures tracer == TracerSettings(ArrayAfterRefresh(old(tracer).inputArray, Vector))
      ensures Point1 == old(Point1) && Point2 == old(Point2) && Resolution == old(Resolution)
      ensures line == old(line) && touched == old(touched) + {"Vector"}
    {
      var val := Vector.ValueAsString();
      SetVector(EmptyEnumeration);
      SetVector(Rebuilt(names));
      var at := IndexOf(names, val);
      if val != "" && at.Some? {
        SetVector(Enumeration(names, at.value));
      }
    }

    /** `updateProperties`: with a data set as input, `Vector` is refreshed from the
        three-component arrays and the seed line is laid along the diagonal of the input's
        bounding box, from its minimum to its maximum corner; otherwise nothing changes. */
    method UpdateProperties(pipelines: seq<PostPipeline>)
      modifies this
      ensures base.InputData(pipelines) == old(base.InputData(pipelines))
      ensures !IsDataSet(old(base.InputData(pipelines))) ==> unchanged(this)
      ensures IsDataSet(old(base.InputData(pipelines))) ==>
                var input := old(base.InputData(pipelines)).value;
                Vector == Refresh(old(Vector), NamesWithComponents(input.pointData, 3)) &&
                tracer == TracerSettings(ArrayAfterRefresh(old(tracer).inputArray, Vector)) &&
                Point1 == input.bounds.min && Point2 == input.bounds.max && Resolution == old(Resolution) &&
                line == old(line).(point1 := input.bounds.min, point2 := input.bounds.max) &&
                touched == old(touched) + {"Vector", "Point1", "Point2"}
    {
      assert this as object !in PipelineFrame(pipelines);
      var data := base.GetInputData(pipelines);
      if !IsDataSet(data) {
        return;
      }
      var names := ScanPointArrays(data.value.pointData, 3);
      RefreshVector(names);
      var box := data.value.bounds;
      SetPoint1(box.min);
      SetPoint2(box.max);
    }

    function MustExecute(baseMustExecute: int): (r: int)
      reads this
      ensures ("Vector" in touched || "Point1" in touched || "Point2" in touched ||
               "Resolution" in touched) ==> r == 1
      ensures ("Vector" !in touched && "Point1" !in touched && "Point2" !in touched &&
               "Resolution" !in touched) ==> r == baseMustExecute
    {
      if "Vector" in touched || "Point1" in touched || "Point2" in touched || "Resolution" in touched
      then 1 else baseMustExecute
    }

    /** `execute`: the properties are updated from the input, and the stream tracer then runs
        whatever the input is. */
    method Execute(run: Runner, pipelines: seq<PostPipeline>) returns (r: ExecReturn)
      requires Valid()
      modifies this, base
      ensures r == StdReturn && Valid() && base.Input == old(base.Input)
      ensures !IsDataSet(old(base.InputData(pipelines))) ==>
                Vector == old(Vector) && Point1 == old(Point1) && Point2 == old(Point2) &&
                Resolution == old(Resolution) && touched == old(touched) &&
                line == old(line) && tracer == old(tracer)
      ensures IsDataSet(old(base.InputData(pipelines))) ==>
                var input := old(base.InputData(pipelines)).value;
                Vector == Refresh(old(Vector), NamesWithComponents(input.pointData, 3)) &&
                tracer == TracerSettings(ArrayAfterRefresh(old(tracer).inputArray, Vector)) &&
                Point1 == input.bounds.min && Point2 == input.bounds.max && Resolution == old(Resolution) &&
                line == old(line).(point1 := input.bounds.min, point2 := input.bounds.max) &&
                touched == old(touched) + {"Vector", "Point1", "Point2"}
      ensures base.Data == Some(run(StreamTracer(line, tracer), old(base.InputData(pipelines))))
      ensures base.touched == old(base.touched) + {"Data"}
    {
      UpdateProperties(pipelines);
      r := base.Execute(StreamTracer(line, tracer), run, pipelines);
    }
  }

  // ---------------------------------------------------------------------------------------------
  // Probes

  /** The output of a probe that has not run yet: a data set without points or arrays. */
  const EmptyProbeOutput := DataSet([], 0, Bounds(Vec3(0.0, 0.0, 0.0), Vec3(0.0, 0.0, 0.0)))

  /** The probe's output object: the filter's data once the probe ran, the empty output
      before. */
  function ProbeOutput(data: Option<DataObject>): DataObject {
    if data.Some? then data.value else EmptyProbeOutput
  }

  /** The probe output can be read for the field `name`: it is a data set, and when it has
      points the field exists with one tuple per point. */
  predicate FieldReadable(out: DataObject, name: string) {
    out.DataSet? &&
    (out.numPoints > 0 ==>
       ArrayByName(out.pointData, name).Some? && WellFormed(ArrayByName(out.pointData, name).value, out.numPoints))
  }

  /** The values reported for a field: one per probed point, component 0 of a one-component
      field and the magnitude of the tuple otherwise. */
  function FieldValues(out: DataObject, name: string, sqrt: real -> real): seq<real>
    requires FieldReadable(out, name)
  {
    if out.numPoints == 0 then []
    else
      var a := ArrayByName(out.pointData, name).value;
      seq(out.numPoints, i requires 0 <= i < out.numPoints => PointValue(a.tuples[i], a.components, sqrt))
  }

  /** The name under which the probe output carries each point's position along the line. */
  const TextureCoordinates := "Texture Coordinates"

  /** The probe output carries a texture coordinate for each of its points. */
  predicate CoordinatesReadable(out: DataObject) {
    FieldReadable(out, TextureCoordinates) &&
    (out.numPoints > 0 ==> ArrayByName(out.pointData, TextureCoordinates).value.components >= 1)
  }

  /** The positions along the line: component 0 of each texture coordinate, scaled by the
      line's length. */
  function ScaledCoordinates(out: DataObject, len: real): seq<real>
    requires CoordinatesReadable(out)
  {
    if out.numPoints == 0 then []
    else
      var t := ArrayByName(out.pointData, TextureCoordinates).value;
      seq(out.numPoints, i requires 0 <= i < out.numPoints => t.tuples[i][0] * len)
  }

  /** Every reported value is component 0 of a one-component field, and otherwise a
      magnitude: non-negative, with the sum of the squared components as its square. */
  lemma FieldValuesAreReductions(out: DataObject, name: string, sqrt: real -> real)
    requires FieldReadable(out, name) && IsSqrt(sqrt)
    ensures |FieldValues(out, name, sqrt)| == out.numPoints
    ensures out.numPoints > 0 ==>
              var a := ArrayByName(out.pointData, name).value;
              forall i :: 0 <= i < out.numPoints ==>
                (a.components == 1 ==> FieldValues(out, name, sqrt)[i] == a.tuples[i][0]) &&
                (a.components != 1 ==>
                   (FieldValues(out, name, sqrt)[i] >= 0.0 &&
                    FieldValues(out, name, sqrt)[i] * FieldValues(out, name, sqrt)[i] == SumOfSquares(a.tuples[i])))
  {
    if out.numPoints > 0 {
      var a := ArrayByName(out.pointData, name).value;
      forall i | 0 <= i < out.numPoints && a.components != 1
        ensures FieldValues(out, name, sqrt)[i] >= 0.0
        ensures FieldValues(out, name, sqrt)[i] * FieldValues(out, name, sqrt)[i] == SumOfSquares(a.tuples[i])
      {
        PointValueIsMagnitude(a.tuples[i], a.components, sqrt);
      }
    }
  }

  /** Every texture coordinate of the probe output lies between 0 and 1. */
  predicate CoordinatesNormalized(out: DataObject)
    requires CoordinatesReadable(out)
  {
    forall i :: 0 <= i < out.numPoints ==>
      0.0 <= ArrayByName(out.pointData, TextureCoordinates).value.tuples[i][0] <= 1.0
  }

  /** With texture coordinates between 0 and 1, every position lies between 0 and the line's
      length. */
  lemma CoordinatesWithinLine(out: DataObject, len: real)
    requires CoordinatesReadable(out) && CoordinatesNormalized(out) && len >= 0.0
    ensures |ScaledCoordinates(out, len)| == out.numPoints
    ensures forall i :: 0 <= i < |ScaledCoordinates(out, len)| ==> 0.0 <= ScaledCoordinates(out, len)[i] <= len
  {
    if out.numPoints > 0 {
      var t := ArrayByName(out.pointData, TextureCoordinates).value;
      forall i | 0 <= i < out.numPoints
        ensures 0.0 <= ScaledCoordinates(out, len)[i] <= len
      {
        var c := t.tuples[i][0];
        assert ScaledCoordinates(out, len)[i] == c * len;
        assert 0.0 <= c <= 1.0;
        assert c * len <= 1.0 * len by {
          assert (1.0 - c) * len >= 0.0;
        }
      }
    }
  }

  /** The value of one probed tuple: component 0 of a one-component field, otherwise the
      square root of the accumulated squares of its components. */
  method ReduceTuple(tuple: seq<real>, components: nat, sqrt: real -> real) returns (value: real)
    requires |tuple| == components
    ensures value == PointValue(tuple, components, sqrt)
  {
    if components == 1 {
      return tuple[0];
    }
    var sum := 0.0;
    var j := 0;
    while j < components
      invariant 0 <= j <= components
      invariant sum == SumOfSquares(tuple[..j])
    {
      assert tuple[..j + 1][..j] == tuple[..j];
      sum := sum + tuple[j] * tuple[j];
      j := j + 1;
    }
    assert tuple[..components] == tuple;
    value := sqrt(sum);
  }

  class PostDataAlongLineFilter {
    const base: PostFilter
    var Point1: Vec3
    var Point2: Vec3
    var Resolution: int
    var XAxisData: seq<real>
    var YAxisData: seq<real>
    var PlotData: string
    var touched: set<string>
    /** The probed line. */
    var line: LineSource

    /** The single chain "DataAlongLine" is registered and active. */
    ghost predicate Valid()
      reads this, base
    {
      base.chains == {"DataAlongLine"} && base.active == "DataAlongLine"
    }

    /** The probed line is the one the three line properties describe. */
    predicate LineSynced()
      reads this
    {
      line == LineSource(Point1, Point2, Resolution)
    }

    /** A line from (0,0,0) to (0,0,1) in 100 intervals, with no plot data yet. */
    constructor()
      ensures Valid() && fresh(base) && LineSynced()
      ensures base.Input == null && base.Data == None && base.touched == {} && base.valid
      ensures Point1 == Vec3(0.0, 0.0, 0.0) && Point2 == Vec3(0.0, 0.0, 1.0) && Resolution == 100
      ensures XAxisData == [] && YAxisData == [] && PlotData == "" && touched == {}
    {
      base := new PostFilter();
      Point1 := Vec3(0.0, 0.0, 0.0);
      Point2 := Vec3(0.0, 0.0, 1.0);
      Resolution := 100;
      XAxisData := [];
      YAxisData := [];
      PlotData := "";
      touched := {};
      line := LineSource(Vec3(0.0, 0.0, 0.0), Vec3(0.0, 0.0, 1.0), 100);
      new;
      base.AddFilterPipeline("DataAlongLine");
      base.SetActiveFilterPipeline("DataAlongLine");
    }

    /** `GetAxisData`: for every point of the probe output, the field's value goes to the y
        axis and the point's position along the line to the x axis. */
    method GetAxisData(sqrt: real -> real)
      requires FieldReadable(ProbeOutput(base.Data), PlotData) && CoordinatesReadable(ProbeOutput(base.Data))
      modifies this
      ensures unchanged(base)
      ensures Point1 == old(Point1) && Point2 == old(Point2) && Resolution == old(Resolution)
      ensures PlotData == old(PlotData) && line == old(line)
      ensures YAxisData == FieldValues(ProbeOutput(base.Data), PlotData, sqrt)
      ensures XAxisData == ScaledCoordinates(ProbeOutput(base.Data), Distance(Point1, Point2, sqrt))
      ensures touched == old(touched) + {"YAxisData", "XAxisData"}
    {
      var dset := ProbeOutput(base.Data);
      var pdata := ArrayByName(dset.pointData, PlotData);
      var tcoords := ArrayByName(dset.pointData, TextureCoordinates);
      var len := Distance(Point1, Point2, sqrt);
      var coords: seq<real> := [];
      var values: seq<real> := [];
      var i := 0;
      while i < dset.numPoints
        invariant 0 <= i <= dset.numPoints && unchanged(this)
        invariant |values| == i && |coords| == i
        invariant forall j :: 0 <= j < i ==>
                    values[j] == PointValue(pdata.value.tuples[j], pdata.value.components, sqrt)
        invariant forall j :: 0 <= j < i ==> coords[j] == tcoords.value.tuples[j][0] * len
      {
        var value := ReduceTuple(pdata.value.tuples[i], pdata.value.components, sqrt);
        values := values + [value];
        var tcoord := tcoords.value.tuples[i][0];
        coords := coords + [tcoord * len];
        i := i + 1;
      }
      if dset.numPoints > 0 {
        assert forall j :: 0 <= j < i ==> coords[j] == ScaledCoordinates(dset, len)[j];
      }
      YAxisData := values;
      XAxisData := coords;
      touched := touched + {"YAxisData", "XAxisData"};
    }

    /** `onChanged`: each line property moves its part of the probed line; a new `PlotData`
        recomputes the axis data from the last probe output. */
    method OnChanged(prop: string, sqrt: real -> real)
      requires prop == "PlotData" ==>
                 FieldReadable(ProbeOutput(base.Data), PlotData) && CoordinatesReadable(ProbeOutput(base.Data))
      modifies this
      ensures Point1 == old(Point1) && Point2 == old(Point2) && Resolution == old(Resolution)
      ensures PlotData == old(PlotData)
      ensures prop == "Point1" ==> line == old(line).(point1 := Point1)
      ensures prop == "Point2" ==> line == old(line).(point2 := Point2)
      ensures prop == "Resolution" ==> line == old(line).(resolution := Resolution)
      ensures prop !in {"Point1", "Point2", "Resolution"} ==> line == old(line)
      ensures prop == "PlotData" ==>
                YAxisData == FieldValues(ProbeOutput(base.Data), PlotData, sqrt) &&
                XAxisData == ScaledCoordinates(ProbeOutput(base.Data), Distance(Point1, Point2, sqrt)) &&
                touched == old(touched) + {"YAxisData", "XAxisData"}
      ensures prop != "PlotData" ==>
                YAxisData == old(YAxisData) && XAxisData == old(XAxisData) && touched == old(touched)
    {
      if prop == "Point1" {
        line := line.(point1 := Point1);
      } else if prop == "Point2" {
        line := line.(point2 := Point2);
      } else if prop == "Resolution" {
        line := line.(resolution := Resolution);
      } else if prop == "PlotData" {
        GetAxisData(sqrt);
      }
    }

    method SetPoint1(v: Vec3, sqrt: real -> real)
      modifies this
      ensures Point1 == v && Point2 == old(Point2) && Resolution == old(Resolution) && PlotData == old(PlotData)
      ensures line == old(line).(point1 := v) && (old(LineSynced()) ==> LineSynced())
      ensures YAxisData == old(YAxisData) && XAxisData == old(XAxisData)
      ensures touched == old(touched) + {"Point1"}
    {
      Point1 := v;
      touched := touched + {"Point1"};
      OnChanged("Point1", sqrt);
    }

    method SetPoint2(v: Vec3, sqrt: real -> real)
      modifies this
      ensures Point2 == v && Point1 == old(Point1) && Resolution == old(Resolution) && PlotData == old(PlotData)
      ensures line == old(line).(point2 := v) && (old(LineSynced()) ==> LineSynced())
      ensures YAxisData == old(YAxisData) && XAxisData == old(XAxisData)
      ensures touched == old(touched) + {"Point2"}
    {
      Point2 := v;
      touched := touched + {"Point2"};
      OnChanged("Point2", sqrt);
    }

    method SetResolution(n: int, sqrt: real -> real)
      modifies this
      ensures Resolution == n && Point1 == old(Point1) && Point2 == old(Point2) && PlotData == old(PlotData)
      ensures line == old(line).(resolution := n) && (old(LineSynced()) ==> LineSynced())
      ensures YAxisData == old(YAxisData) && XAxisData == old(XAxisData)
      ensures touched == old(touched) + {"Resolution"}
    {
      Resolution := n;
      touched := touched + {"Resolution"};
      OnChanged("Resolution", sqrt);
    }

    /** Setting `PlotData` plots that field of the last probe output along the line. */
    method SetPlotData(name: string, sqrt: real -> real)
      requires FieldReadable(ProbeOutput(base.Data), name) && CoordinatesReadable(ProbeOutput(base.Data))
      modifies this
      ensures PlotData == name && Point1 == old(Point1) && Point2 == old(Point2) && Resolution == old(Resolution)
      ensures line == old(line)
      ensures YAxisData == FieldValues(ProbeOutput(base.Data), name, sqrt)
      ensures XAxisData == ScaledCoordinates(ProbeOutput(base.Data), Distance(Point1, Point2, sqrt))
      ensures touched == old(touched) + {"PlotData", "YAxisData", "XAxisData"}
    {
      PlotData := name;
      touched := touched + {"PlotData"};
      OnChanged("PlotData", sqrt);
    }

    function MustExecute(baseMustExecute: int): (r: int)
      reads this
      ensures ("Point1" in touched || "Point2" in touched || "Resolution" in touched) ==> r == 1
      ensures ("Point1" !in touched && "Point2" !in touched && "Resolution" !in touched) ==> r == baseMustExecute
    {
      if "Point1" in touched || "Point2" in touched || "Resolution" in touched then 1 else baseMustExecute
    }

    /** `execute`: the probe samples the input along the line; its output becomes the data. */
    method Execute(run: Runner, pipelines: seq<PostPipeline>) returns (r: ExecReturn)
      requires Valid()
      modifies base
      ensures r == StdReturn && Valid() && base.Input == old(base.Input)
      ensures base.Data == Some(run(ProbeAlongLine(line, ProbeDefaults), old(base.InputData(pipelines))))
      ensures ProbeOutput(base.Data) == run(ProbeAlongLine(line, ProbeDefaults), old(base.InputData(pipelines)))
      ensures base.touched == old(base.touched) + {"Data"}
    {
      r := base.Execute(ProbeAlongLine(line, ProbeDefaults), run, pipelines);
    }
  }

  class PostDataAtPointFilter {
    const base: PostFilter
    var Center: Vec3
    var Radius: real
    var PointData: seq<real>
    var FieldName: string
    var Unit: string
    var touched: set<string>
    /** The probed point cloud. */
    var point: PointSource

    /** The single chain "DataAtPoint" is registered and active. */
    ghost predicate Valid()
      reads this, base
    {
      base.chains == {"DataAtPoint"} && base.active == "DataAtPoint"
    }

    /** Center (0,0,1) and radius 0, no values, field or unit; the point source is a single
        point at the center. */
    constructor()
      ensures Valid() && fresh(base)
      ensures base.Input == null && base.Data == None && base.touched == {} && base.valid
      ensures Center == Vec3(0.0, 0.0, 1.0) && Radius == 0.0 && PointData == []
      ensures FieldName == "" && Unit == "" && touched == {}
      ensures point == PointSource(Vec3(0.0, 0.0, 1.0), 0.0)
    {
      base := new PostFilter();
      Center := Vec3(0.0, 0.0, 1.0);
      Radius := 0.0;
      PointData := [];
      FieldName := "";
      Unit := "";
      touched := {};
      point := PointSource(Vec3(0.0, 0.0, 1.0), 0.0);
      new;
      base.AddFilterPipeline("DataAtPoint");
      base.SetActiveFilterPipeline("DataAtPoint");
    }

    /** `GetPointData`: the field's value at every point of the probe output. */
    method GetPointData(sqrt: real -> real)
      requires FieldReadable(ProbeOutput(base.Data), FieldName)
      modifies this
      ensures unchanged(base)
      ensures Center == old(Center) && Radius == old(Radius) && FieldName == old(FieldName)
      ensures Unit == old(Unit) && point == old(point)
      ensures PointData == FieldValues(ProbeOutput(base.Data), FieldName, sqrt)
      ensures touched == old(touched) + {"PointData"}
    {
      var dset := ProbeOutput(base.Data);
      var pdata := ArrayByName(dset.pointData, FieldName);
      var values: seq<real> := [];
      var i := 0;
      while i < dset.numPoints
        invariant 0 <= i <= dset.numPoints && unchanged(this) && |values| == i
        invariant forall j :: 0 <= j < i ==>
                    values[j] == PointValue(pdata.value.tuples[j], pdata.value.components, sqrt)
      {
        var value := ReduceTuple(pdata.value.tuples[i], pdata.value.components, sqrt);
        values := values + [value];
        i := i + 1;
      }
      PointData := values;
      touched := touched + {"PointData"};
    }

    /** `onChanged`: a new center moves the point source; a new field name recomputes the
        values from the last probe output. The radius does not reach the point source. */
    method OnChanged(prop: string, sqrt: real -> real)
      requires prop == "FieldName" ==> FieldReadable(ProbeOutput(base.Data), FieldName)
      modifies this
      ensures Center == old(Center) && Radius == old(Radius) && FieldName == old(FieldName) && Unit == old(Unit)
      ensures prop == "Center" ==> point == old(point).(center := Center)
      ensures prop != "Center" ==> point == old(point)
      ensures prop == "FieldName" ==>
                PointData == FieldValues(ProbeOutput(base.Data), FieldName, sqrt) &&
                touched == old(touched) + {"PointData"}
      ensures prop != "FieldName" ==> PointData == old(PointData) && touched == old(touched)
    {
      if prop == "Center" {
        point := point.(center := Center);
      } else if prop == "FieldName" {
        GetPointData(sqrt);
      }
    }

    method SetCenter(v: Vec3, sqrt: real -> real)
      modifies this
      ensures Center == v && Radius == old(Radius) && FieldName == old(FieldName) && Unit == old(Unit)
      ensures point == old(point).(center := v) && PointData == old(PointData)
      ensures touched == old(touched) + {"Center"}
    {
      Center := v;
      touched := touched + {"Center"};
      OnChanged("Center", sqrt);
    }

    /** Setting `Radius` changes the property only: the point source keeps its radius. */
    method SetRadius(v: real, sqrt: real -> real)
      modifies this
      ensures Radius == v && Center == old(Center) && FieldName == old(FieldName) && Unit == old(Unit)
      ensures point == old(point) && PointData == old(PointData)
      ensures touched == old(touched) + {"Radius"}
    {
      Radius := v;
      touched := touched + {"Radius"};
      OnChanged("Radius", sqrt);
    }

    /** Setting `FieldName` reports that field of the last probe output. */
    method SetFieldName(name: string, sqrt: real -> real)
      requires FieldReadable(ProbeOutput(base.Data), name)
      modifies this
      ensures FieldName == name && Center == old(Center) && Radius == old(Radius) && Unit == old(Unit)
      ensures point == old(point)
      ensures PointData == FieldValues(ProbeOutput(base.Data), name, sqrt)
      ensures touched == old(touched) + {"FieldName", "PointData"}
    {
      FieldName := name;
      touched := touched + {"FieldName"};
      OnChanged("FieldName", sqrt);
    }

    method SetUnit(u: string, sqrt: real -> real)
      modifies this
      ensures Unit == u && Center == old(Center) && Radius == old(Radius) && FieldName == old(FieldName)
      ensures point == old(point) && PointData == old(PointData)
      ensures touched == old(touched) + {"Unit"}
    {
      Unit := u;
      touched := touched + {"Unit"};
      OnChanged("Unit", sqrt);
    }

    function MustExecute(baseMustExecute: int): (r: int)
      reads this
      ensures "Center" in touched ==> r == 1
      ensures "Center" !in touched ==> r == baseMustExecute
    {
      if "Center" in touched then 1 else baseMustExecute
    }

    /** `execute`: the probe samples the input at the point cloud; its output becomes the
        data. */
    method Execute(run: Runner, pipelines: seq<PostPipeline>) returns (r: ExecReturn)
      requires Valid()
      modifies base
      ensures r == StdReturn && Valid() && base.Input == old(base.Input)
      ensures base.Data == Some(run(ProbeAtPoint(point, ProbeDefaults), old(base.InputData(pipelines))))
      ensures ProbeOutput(base.Data) == run(ProbeAtPoint(point, ProbeDefaults), old(base.InputData(pipelines)))
      ensures base.touched == old(base.touched) + {"Data"}
    {
      r := base.Execute(ProbeAtPoint(point, ProbeDefaults), run, pipelines);
    }
  }
}
