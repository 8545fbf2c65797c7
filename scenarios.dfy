/** Walk-throughs of client code: how a handed-out implicit function follows its object, how a
    serial pipeline wires and feeds its filters, how the field catalog of a warp keeps the
    user's choice, how an instant holds its regions by handle, and what the contour and
    scalar-clip filters derive from a small data set. */
module Scenarios {
  import opened Data
  import opened Instants
  import opened PostFunctions
  import opened VtkStages
  import opened PostObjects
  import opened PostFilters

  /** A data set with two vector arrays "U" and "V" around a scalar array "p". */
  function Sample(): DataObject {
    DataSet([DataArray("U", 3, Range(0.0, 1.0), []), DataArray("p", 1, Range(0.0, 10.0), []),
             DataArray("V", 3, Range(-1.0, 1.0), [])],
            0, Bounds(Vec3(0.0, 0.0, 0.0), Vec3(1.0, 2.0, 3.0)))
  }

  /** The catalogs of the sample. */
  lemma SampleCatalogs()
    ensures NamesWithComponents(Sample().pointData, 3) == ["U", "V"]
    ensures NamesWithComponents(Sample().pointData, 1) == ["p"]
  {
    var pd := Sample().pointData;
    assert pd[..2] == [pd[0], pd[1]] && pd[..2][..1] == [pd[0]] && pd[..2][..1][..0] == [];
    assert NamesWithComponents(pd[..2][..1], 3) == ["U"];
    assert NamesWithComponents(pd[..2], 3) == ["U"];
    assert NamesWithComponents(pd[..2][..1], 1) == [];
    assert NamesWithComponents(pd[..2], 1) == ["p"];
  }

  /** Regions are held by handle: a second handle with the same blocks replaces the first and
      records a modification, while handing in the held handle again records nothing. */
  method RegionsByHandle()
  {
    var inst := new Instant();
    var a := new RegionSet([Block(Some("fluid"), Some(Sample()))]);
    var b := new RegionSet([Block(Some("fluid"), Some(Sample()))]);
    inst.SetRegions(a);
    assert inst.Regions == a && inst.modified == 1;
    inst.SetRegions(a);
    assert inst.Regions == a && inst.modified == 1;
    inst.SetRegions(b);
    assert a.blocks == b.blocks && inst.Regions == b && inst.modified == 2;
  }

  /** A handle shares its function object: moving the plane after it was handed out changes
      what the holder of the handle evaluates. */
  method HandleSeesLaterChanges()
  {
    var f := new PostPlaneFunction();
    var h := HandleOf(PlaneObject(f)).value;
    assert Evaluate(h) == PlaneFunction(Plane(Vec3(0.0, 0.0, 0.0), Vec3(0.0, 0.0, 1.0)));
    f.SetOrigin(Vec3(2.0, 0.0, 0.0));
    assert Evaluate(h) == PlaneFunction(Plane(Vec3(2.0, 0.0, 0.0), Vec3(0.0, 0.0, 1.0)));
  }

  /** A clip that cuts cells clips with the plane as it is when the clip executes, not as it
      was when it was linked. */
  method ClipUsesCurrentPlane(run: Runner)
  {
    var clip := new PostClipFilter();
    var plane := new PostPlaneFunction();
    var r := clip.Execute(run, []);
    assert clip.base.Data == None;
    clip.SetFunction(PlaneObject(plane));
    clip.SetCutCells(true);
    assert clip.base.active == "clip";
    plane.SetOrigin(Vec3(1.0, 0.0, 0.0));
    r := clip.Execute(run, []);
    assert clip.base.Data ==
      Some(run(TableClip(Some(PlaneFunction(Plane(Vec3(1.0, 0.0, 0.0), Vec3(0.0, 0.0, 1.0)))), false, 0.0, None), None));
  }

  /** In Serial mode the first filter reads the pipeline's data and the second reads the
      first. */
  method SerialWiring(append: Appender)
  {
    var p := new PostPipeline();
    var w := new PostWarpVectorFilter();
    var c := new PostClipFilter();
    p.SetFilter([w.base, c.base], append);
    assert p.Filter[1] == c.base && p.Filter[0] == w.base;
    assert p.LastOccurrence(0) && p.LastOccurrence(1);
    assert c.base.Input == w.base && w.base.Input == null;
    p.base.SetData(Some(Sample()));
    assert FirstHolder([p], w.base, 0, 0);
    InputResolution(w.base, [p]);
    assert w.base.InputData([p]) == Some(Sample());
  }

  /** A warp on the sample lists its vector arrays and selects the first; a choice the user
      makes afterwards survives the next execute. */
  method WarpKeepsChoice(run: Runner)
  {
    SampleCatalogs();
    var src := new PostFilter();
    src.SetData(Some(Sample()));
    var w := new PostWarpVectorFilter();
    w.base.SetInput(src);
    var r := w.Execute(run, []);
    assert w.Vector == Enumeration(["U", "V"], 0);
    assert w.warp.inputArray == Some("U");

    w.SetVector(Enumeration(["U", "V"], 1));
    assert w.warp.inputArray == Some("V");
    r := w.Execute(run, []);
    assert w.Vector == Enumeration(["U", "V"], 1);
    assert w.warp.inputArray == Some("V");
  }

  /** A contour on the sample lists "None" and "p" and, with nothing chosen before, contours
      "None" without asking for another recompute of its field. */
  method ContourOnSample(run: Runner)
  {
    SampleCatalogs();
    var src := new PostFilter();
    src.SetData(Some(Sample()));
    var k := new PostContourFilter();
    k.base.SetInput(src);
    var r := k.Execute(run, []);
    assert ContourFields(Sample().pointData) == ["None", "p"];
    assert k.Field == Enumeration(["None", "p"], 0);
    assert k.contour.inputArray == Some("None");
    assert "Field" !in k.touched;
  }

  /** A scalar clip on the sample clips "p" and offers its range 0 to 10 in steps of 0.1. */
  method ScalarClipOnSample(run: Runner)
  {
    SampleCatalogs();
    var src := new PostFilter();
    src.SetData(Some(Sample()));
    var s := new PostScalarClipFilter();
    s.base.SetInput(src);
    var r := s.Execute(run, []);
    assert s.Scalars == Enumeration(["p"], 0);
    assert s.clipper.inputArray == Some("p");
    assert ArrayByName(Sample().pointData, "p").value.range == Range(0.0, 10.0);
    assert s.constraint == Some(FloatConstraint(0.0, 10.0, 0.1));
  }
}
