/** The settings the filters push into the visualisation library's algorithms, and the stage
    value an active chain runs. The algorithms themselves are not modelled: running a stage is
    a parameter of type `Runner`. */
module VtkStages {
  import opened Data
  import opened PostFunctions

  /** `GenerateValues(n, start, end)` of a contour filter. */
  datatype ContourValues = GenerateValues(count: int, rangeStart: real, rangeEnd: real)

  /** A line source: two end points and the number of intervals between them. */
  datatype LineSource = LineSource(point1: Vec3, point2: Vec3, resolution: int)

  /** A point source: center and radius of the cloud. */
  datatype PointSource = PointSource(center: Vec3, radius: real)

  /** The probe filter's settings. */
  datatype ProbeSettings = ProbeSettings(
    validPointMaskArray: string, passPointArrays: bool, passCellArrays: bool,
    computeTolerance: bool, tolerance: real)

  /** How both probing filters configure their probe. */
  const ProbeDefaults := ProbeSettings("ValidPointArray", true, true, false, 0.01)

  /** A warp: the scale factor and the point array to add. */
  datatype WarpSettings = WarpSettings(scaleFactor: real, inputArray: Option<string>)

  /** A table-based clipper: its implicit function, direction, scalar value and array. */
  datatype ClipperSettings = ClipperSettings(
    clipFunction: Option<ImplicitHandle>, insideOut: bool, value: real, inputArray: Option<string>)

  /** A geometry extractor: its implicit function and whether it keeps the inside. */
  datatype ExtractorSettings = ExtractorSettings(implicitFunction: Option<ImplicitHandle>, extractInside: int)

  /** A cutter: the cut function and its output switches. */
  datatype CutterSettings = CutterSettings(
    cutFunction: Option<ImplicitHandle>, generateCutScalars: bool, generateTriangles: bool)

  /** A contour filter: scalar output, the contour values, and the array to contour. */
  datatype ContourSettings = ContourSettings(computeScalars: bool, values: ContourValues, inputArray: Option<string>)

  /** The point mask in front of a glyph filter. */
  datatype MaskSettings = MaskSettings(randomModeType: int, maximumNumberOfPoints: int, randomMode: bool)

  /** The glyph filter: vector and scale modes, scale factor and the oriented array. */
  datatype GlyphSettings = GlyphSettings(useVector: bool, scaleByScalar: bool, scaleFactor: real, inputArray: Option<string>)

  /** The stream tracer's integrated vector array. */
  datatype TracerSettings = TracerSettings(inputArray: Option<string>)

  /** The stage an active chain runs, with implicit functions at their current value. */
  datatype Stage =
    | NoStage
    | Warp(warp: WarpSettings)
    | TableClip(clipFunction: Option<Implicit>, insideOut: bool, value: real, inputArray: Option<string>)
    | ExtractGeometry(implicitFunction: Option<Implicit>, extractInside: int)
    | Cut(cutFunction: Option<Implicit>, generateCutScalars: bool, generateTriangles: bool)
    | Contour(contour: ContourSettings)
    | MaskedGlyph(mask: MaskSettings, glyph: GlyphSettings)
    | StreamTracer(seeds: LineSource, tracer: TracerSettings)
    | ProbeAlongLine(line: LineSource, probe: ProbeSettings)
    | ProbeAtPoint(point: PointSource, probe: ProbeSettings)

  /** The library running a stage on an input data object. */
  type Runner = (Stage, Option<DataObject>) -> DataObject

  /** The objects an optional handle reads. */
  function HandleFrame(h: Option<ImplicitHandle>): set<object> {
    if h.Some? then {HandleObject(h.value)} else {}
  }

  /** The current value of an optional implicit function handle. */
  function EvaluateOpt(h: Option<ImplicitHandle>): (r: Option<Implicit>)
    reads HandleFrame(h)
    ensures r.Some? <==> h.Some?
  {
    if h.Some? then Some(Evaluate(h.value)) else None
  }
}
