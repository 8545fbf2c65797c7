# Cfd post-processing core in Dafny

This project models the post-processing engine of FreeCAD's Cfd module (`src/Mod/Cfd/App`).
A result file is read into an *instant collection*: one `Instant` per time step, each holding a
multi-block set of regions. A `PostPipeline` shows the regions of one instant, selected by its
`TimeIndex`. It owns an ordered list of filters, wired either in Serial mode (each filter reads
its predecessor) or in Parallel mode (every filter reads the pipeline's input, and the pipeline
appends their outputs).

Each filter is a document object. It keeps a few properties and forwards them into the settings
of the visualisation-library stage it runs. It refreshes its field catalogs from its input: the
names of the point arrays with the right number of components. There are nine filters: warp,
clip, scalar clip, cut, contour, glyph, streamline, data-along-line and data-at-point. The plane
and sphere function objects hand the clip and cut filters a shared implicit function.

Modules and files:

- `data.dfy` (`Data`) holds the data values shared by everything else:
  - data sets, point arrays, multi-blocks and enumeration properties;
  - the catalog scan and the catalog refresh;
  - array lookup by name and the magnitude reduction of a tuple.
- `file_info.dfy` (`FileInfo`) holds the file-name rules the loaders use: file name, extension, and comparison that ignores ASCII case.
- `instant.dfy` (`Instants`) holds:
  - `Instant` and `InstantCollection` as classes;
  - the four loaders, taking reader output as a parameter;
  - the dispatch on file names;
  - the tolerance comparison and the time-index type.
- `post_function.dfy` (`PostFunctions`) holds the plane and sphere function objects, and the handle through which a filter sees their current function.
- `vtk_stages.dfy` (`VtkStages`) holds the settings each library stage receives and the `Stage` value a chain runs. Running a stage is a parameter of type `Runner`.
- `post_objects.dfy` (`PostObjects`) holds:
  - the filter base `PostFilter`: input link, data, chains, `execute` and `getInputData`;
  - `PostPipeline` and the result object.
- `post_filter.dfy` (`PostFilters`) holds the nine concrete filters. Each one is a class that holds a `PostFilter` as its `base`.
- `scenarios.dfy` (`Scenarios`) holds client walk-throughs on a small sample data set.

Notes on how the model is built:

- **Inheritance.** C++ inheritance becomes composition. A concrete filter or pipeline holds `const base: PostFilter`, and a pipeline's `Filter` list holds the children's bases.
- **Touched properties.** These are a set of property names. A property setter assigns the value, adds the name to the set, and then runs `onChanged` for it, as the property framework does.
- **Document search.** The search for pipelines holding a filter becomes an explicit `seq<PostPipeline>` parameter.
- **Behaviour the model keeps exactly as the code has it:**
  - `read` sets the time-index range and the last index even when the loader fails;
  - the stored `TimeIndex` is not clamped to that range;
  - a `TimeIndex` at or above 2^32 wraps around when it is cast to the unsigned `label`;
  - the sphere's function record starts at a different center from the `Center` property.

## Model

| member | source | states |
|---|---|---|
| Data.ScanPointArrays | src/Mod/Cfd/App/PostFilter.cpp:175-180 | the loop over the point arrays collects exactly the catalog `NamesWithComponents(pd, k)` |
| Data.CatalogMembership | src/Mod/Cfd/App/PostFilter.cpp:177-180 | a name is in the catalog iff some point array has that name and exactly `k` components |
| Data.CatalogInArrayOrder | src/Mod/Cfd/App/PostFilter.cpp:177-180 | the catalog lists the matching arrays in array order, each exactly once: strictly increasing positions that cover every array with `k` components |
| Data.IndexOf | src/Mod/Cfd/App/PostFilter.cpp:187-189 | `std::find`: the first position holding the name, and none exactly when the name is absent |
| Data.RefreshSelection | src/Mod/Cfd/App/PostFilter.cpp:182-189 | after the refresh the enumeration lists the new names; the old selection is kept iff it is non-empty and still listed, otherwise the first name is selected; nothing is selected iff the list is empty |
| Data.RefreshIdempotent | src/Mod/Cfd/App/PostFilter.cpp:182-189 | refreshing again against the same names changes nothing |
| Data.ArrayByName | src/Mod/Cfd/App/PostFilter.cpp:869 | `GetArray(name)` finds an array of that name from the point data, and nothing exactly when no array has the name |
| Data.CatalogNamesResolve | src/Mod/Cfd/App/PostFilter.cpp:386 | every catalog name resolves to an array, so looking a selected field up succeeds |
| Data.SumOfSquaresNonNegative | src/Mod/Cfd/App/PostFilter.cpp:884-888 | the sum of the squared components is never negative, so its square root is defined |
| Data.PointValueIsMagnitude | src/Mod/Cfd/App/PostFilter.cpp:881-889 | a tuple with other than one component reduces to its magnitude: non-negative, and its square is the sum of squares |
| Data.MagnitudeOfThreeFourZero | src/Mod/Cfd/App/PostFilter.cpp:881-889 | the tuple (3, 4, 0) reduces to 5 |
| FileInfo.FileName | src/Mod/Cfd/App/Instant.cpp:220 | the file name is a slash-free suffix of the normalised path; `FileNameOfSuffix` pins it to what follows the last slash |
| FileInfo.FileNameOfSuffix | src/Mod/Cfd/App/Instant.cpp:220 | a path ending in `/` and a name free of both kinds of slash has exactly that name as its file name, so `dir/controlDict` is recognised |
| FileInfo.Extension | src/Mod/Cfd/App/Instant.cpp:224 | the extension contains no dot, and is empty when the path has none |
| FileInfo.ExtensionOfSuffix | src/Mod/Cfd/App/Instant.cpp:224-235 | a path ending in `.` and a dot-free extension has exactly that extension |
| Instants.LabelOf | src/Mod/Cfd/App/Instant.h:42 | conversion to the unsigned 32-bit `label`: the value modulo 2^32, unchanged when in range |
| Instants.Int32Of | src/Mod/Cfd/App/Instant.cpp:268-273 | a `label` passed into `GetItem(int)` becomes the signed 32-bit value congruent to it, unchanged below 2^31 |
| Instants.ToleranceIsNotTransitive | src/Mod/Cfd/App/Instant.cpp:129-132 | `Equal` with tolerance `SMALL` is symmetric and reflexive but not transitive |
| Instants.EqualYetOrdered | src/Mod/Cfd/App/Instant.cpp:190-194 | two instants can be `==` under the tolerance and yet one is `<` the other, because `<` is exact |
| Instants.Instant.constructor | src/Mod/Cfd/App/Instant.cpp:96-100 | a new instant has time 0.0 and no regions |
| Instants.Instant.SetTimeValue | src/Mod/Cfd/App/Instant.h:79 | sets the time; the modification count grows only when the value changes |
| Instants.Instant.SetRegions | src/Mod/Cfd/App/Instant.cpp:110-127 | a null handle or the handle already held changes nothing; any other handle, even one carrying equal blocks, is stored and marks the instant modified |
| Instants.Instant.GetAllRegions | src/Mod/Cfd/App/Instant.cpp:142-158 | the append of the data of every block, in block order |
| Instants.Instant.ListAllRegionNames | src/Mod/Cfd/App/Instant.cpp:160-176 | one name per block, in block order |
| Instants.Instant.Equal | src/Mod/Cfd/App/Instant.cpp:129-132 | the time lies strictly within `SMALL` of `b` on both sides; its symmetry, reflexivity and non-transitivity are stated by `ToleranceIsNotTransitive` |
| Instants.Eq | src/Mod/Cfd/App/Instant.cpp:178-181 | `operator==` is the first instant's `Equal` applied to the second's time; its laws are stated by `OperatorLaws` |
| Instants.Ne | src/Mod/Cfd/App/Instant.cpp:184-187 | `operator!=` is the negation of `operator==`, as `OperatorLaws` states |
| Instants.Lt | src/Mod/Cfd/App/Instant.cpp:190-193 | `operator<` compares the times exactly, with no tolerance; `OperatorLaws` states it is a strict order, and `EqualYetOrdered` that it can disagree with `==` |
| Instants.Gt | src/Mod/Cfd/App/Instant.cpp:196-199 | `operator>` compares the times exactly; `OperatorLaws` states it is `<` with the operands swapped |
| Instants.Less | src/Mod/Cfd/App/Instant.h:65-73 | the sorting comparator compares the times exactly; `OperatorLaws` states it agrees with `operator<` |
| Instants.OperatorLaws | src/Mod/Cfd/App/Instant.cpp:178-199 | `==` is symmetric and reflexive and `!=` is its negation; `<` is `>` flipped, a strict order and the same as `Instant::less`; times a tolerance apart are `<` and `!=` |
| Instants.SingleSnapshot | src/Mod/Cfd/App/Instant.cpp:285-298 | a data set read becomes one instant at time 0 whose block 0 holds the data, and nothing is read without data |
| Instants.GridData | src/Mod/Cfd/App/Instant.cpp:310-327 | the XML grid reader's output when it produced one, and the legacy reader's otherwise |
| Instants.NetCDFTimesAreBlockIndices | src/Mod/Cfd/App/Instant.cpp:365-384 | NetCDF instants are the multi-block blocks in order, each timed by its block index; every multi-block block yields one, and other blocks are skipped |
| Instants.NetCDFSnapshots | src/Mod/Cfd/App/Instant.cpp:365-384 | the NetCDF loader's instants, block by block; what they are is stated by `NetCDFTimesAreBlockIndices` and `NetCDFTimesIncrease` |
| Instants.FoamSnapshots | src/Mod/Cfd/App/Instant.cpp:404-421 | the OpenFOAM loader's instants, reader time by reader time; what they are is stated by `FoamKeepsReaderTimes` and `FoamTimesComeFromReader` |
| Instants.NetCDFTimesIncrease | src/Mod/Cfd/App/Instant.cpp:365-384 | NetCDF instant times strictly increase |
| Instants.FoamKeepsReaderTimes | src/Mod/Cfd/App/Instant.cpp:404-421 | when every block up to the time count is a multi-block, one instant per reader time, with that time and block |
| Instants.FoamTimesComeFromReader | src/Mod/Cfd/App/Instant.cpp:404-421 | there are never more OpenFOAM instants than reader times, and every instant time is a reader time |
| Instants.LoaderDispatch | src/Mod/Cfd/App/Instant.cpp:220-235 | the file name `controlDict` is checked first; no loader is chosen iff the name is not `controlDict` and the extension is none of vtk, vtu, nc (ignoring case) |
| Instants.LoaderFor | src/Mod/Cfd/App/Instant.cpp:220-235 | the loader `Read` chooses for a file name; its order and its no-loader case are stated by `LoaderDispatch` |
| Instants.ReadOutcomes | src/Mod/Cfd/App/Instant.cpp:212-248 | the OpenFOAM and NetCDF loaders always succeed; the data-set and grid loaders succeed iff their readers produced data; with no loader, reading fails |
| Instants.InstantCollection.constructor | src/Mod/Cfd/App/Instant.cpp:204-206 | a new collection is empty |
| Instants.InstantCollection.AddItem | src/Mod/Cfd/App/Instant.h:141-144 | appends the instant at the bottom and leaves earlier items alone |
| Instants.InstantCollection.GetItem | src/Mod/Cfd/App/Instant.h:162-164 | positional access, null outside the list |
| Instants.InstantCollection.FindInstant | src/Mod/Cfd/App/Instant.cpp:268-273 | positional lookup of the label read as a signed int; labels from 2^31 upwards find nothing |
| Instants.InstantCollection.FindClosestInstant | src/Mod/Cfd/App/Instant.cpp:263-266 | always null |
| Instants.InstantCollection.GetTimeValues | src/Mod/Cfd/App/Instant.cpp:250-261 | one time per item, in collection order |
| Instants.InstantCollection.ReadDataSet | src/Mod/Cfd/App/Instant.cpp:275-301 | succeeds iff data was read, appending exactly the single instant at time 0 |
| Instants.InstantCollection.ReadUnstructuredGrid | src/Mod/Cfd/App/Instant.cpp:303-345 | succeeds iff either reader produced data, preferring the XML reader, and appends that one instant at time 0 |
| Instants.InstantCollection.AddBlock | src/Mod/Cfd/App/Instant.cpp:367-381 | one loop step: a multi-block block appends one fresh instant at the given time, and any other block appends nothing |
| Instants.InstantCollection.ReadNetCDF | src/Mod/Cfd/App/Instant.cpp:347-385 | always succeeds, and appends exactly the NetCDF instants |
| Instants.InstantCollection.ReadOpenFOAM | src/Mod/Cfd/App/Instant.cpp:387-423 | always succeeds, and appends exactly the OpenFOAM instants |
| Instants.InstantCollection.Read | src/Mod/Cfd/App/Instant.cpp:212-248 | succeeds iff the loader chosen by the file name succeeds; appends that loader's instants, and nothing on failure |
| PostFunctions.Execute | src/Mod/Cfd/App/PostFunction.cpp:47-50 | a function object's recompute always returns `StdReturn` |
| PostFunctions.PostPlaneFunction.constructor | src/Mod/Cfd/App/PostFunction.cpp:71-81 | origin (0,0,0) and normal (0,0,1), in the properties and the plane alike |
| PostFunctions.PostPlaneFunction.OnChanged | src/Mod/Cfd/App/PostFunction.cpp:87-99 | `Origin` changes only the plane's origin and `Normal` only its normal; anything else leaves the plane alone |
| PostFunctions.PostPlaneFunction.SetOrigin | src/Mod/Cfd/App/PostFunction.cpp:89-92 | the new origin reaches the plane, the normal is kept, and a plane in sync stays in sync |
| PostFunctions.PostPlaneFunction.SetNormal | src/Mod/Cfd/App/PostFunction.cpp:93-96 | the new normal reaches the plane, the origin is kept, and a plane in sync stays in sync |
| PostFunctions.PostSphereFunction.constructor | src/Mod/Cfd/App/PostFunction.cpp:104-114 | properties radius 5 and center (1,0,0), but the sphere itself is at the origin with radius 5, so the two are out of sync |
| PostFunctions.PostSphereFunction.OnChanged | src/Mod/Cfd/App/PostFunction.cpp:120-131 | `Center` changes only the sphere's center and `Radius` only its radius; anything else leaves the sphere alone |
| PostFunctions.PostSphereFunction.SetCenter | src/Mod/Cfd/App/PostFunction.cpp:122-125 | the new center reaches the sphere and the radius is kept; this brings a freshly built sphere into sync |
| PostFunctions.PostSphereFunction.SetRadius | src/Mod/Cfd/App/PostFunction.cpp:126-128 | the new radius reaches the sphere and the center is kept |
| PostFunctions.HandleOf | src/Mod/Cfd/App/PostFilter.cpp:252-254 | only a linked plane or sphere function object yields an implicit function; no link or another object yields none |
| PostObjects.ChainNames | src/Mod/Cfd/App/PostFilter.cpp:93-114 | the chain names every filter registers all run, and so does "DataAtPoint2"; the 11-character name "ScalarClips" does not |
| PostObjects.RunsChain | src/Mod/Cfd/App/PostFilter.cpp:97-100 | a chain runs when its name is shorter than 11 characters, or starts with DataAlongLine or DataAtPoint; which registered names run is stated by `ChainNames` |
| PostObjects.HolderDataIsFirstHolder | src/Mod/Cfd/App/PostFilter.cpp:121-130 | the document search yields the data of the first pipeline that holds the filter, and nothing when none holds it |
| PostObjects.PostFilter.constructor | src/Mod/Cfd/App/PostFilter.cpp:68-71 | no input, no data, no chains, no active chain |
| PostObjects.PostFilter.AddFilterPipeline | src/Mod/Cfd/App/PostFilter.cpp:78-80 | registers the chain name, replacing any of the same name, and changes nothing else |
| PostObjects.PostFilter.SetActiveFilterPipeline | src/Mod/Cfd/App/PostFilter.cpp:86-91 | switches the active chain iff the name differs and the object is valid; otherwise nothing changes |
| PostObjects.PostFilter.GetInputData | src/Mod/Cfd/App/PostFilter.cpp:116-134 | returns exactly the specification `InputData` |
| PostObjects.PostFilter.Execute | src/Mod/Cfd/App/PostFilter.cpp:93-114 | when chains exist and a running chain is active, the data becomes the stage's output on the input data; a non-running active name only gets registered; otherwise nothing changes; always `StdReturn` |
| PostObjects.InputResolution | src/Mod/Cfd/App/PostFilter.cpp:116-134 | an explicit input's data wins; otherwise the first pipeline holding the filter supplies the data; with neither, the result is nothing |
| PostObjects.PostFilter.InputData | src/Mod/Cfd/App/PostFilter.cpp:116-134 | the data `getInputData` returns; its three cases are stated by `InputResolution` and `HolderDataIsFirstHolder` |
| PostObjects.CanReadExtensions | src/Mod/Cfd/App/PostPipeline.cpp:221-233 | `canRead` holds exactly when the lower-cased extension is one of vtk, vtp, vts, vtr, vti, vtu |
| PostObjects.CanRead | src/Mod/Cfd/App/PostPipeline.cpp:221-233 | `canRead` tests the six extensions one by one, ignoring case; `CanReadExtensions` states it is membership of the lower-cased extension |
| PostObjects.ReadableIgnoringCase | src/Mod/Cfd/App/PostPipeline.cpp:223-229 | the six case-insensitive comparisons agree with membership of the lower-cased extension in the readable set |
| PostObjects.ReadableWithoutLoader | src/Mod/Cfd/App/PostPipeline.cpp:221-233 | a vtp, vts, vtr or vti file passes `canRead` although no loader reads it |
| PostObjects.PostPipeline.constructor | src/Mod/Cfd/App/PostPipeline.cpp:51-63 | time index 0, no filters, Serial mode, an empty instant collection, no input and no data |
| PostObjects.PostPipeline.MustExecute | src/Mod/Cfd/App/PostPipeline.cpp:70-76 | 1 when `Mode` is touched, the base's answer otherwise |
| PostObjects.PostPipeline.GetLastPostObject | src/Mod/Cfd/App/PostPipeline.cpp:191-197 | the pipeline itself when it has no filters, its last filter otherwise |
| PostObjects.PostPipeline.HoldsPostObject | src/Mod/Cfd/App/PostPipeline.cpp:209-219 | true iff the object occurs in the filter list |
| PostObjects.PostPipeline.LinkChild | src/Mod/Cfd/App/PostPipeline.cpp:139-154 | one wiring step: the child is linked to its expected input and touched only when the link changes |
| PostObjects.PostPipeline.Wire | src/Mod/Cfd/App/PostPipeline.cpp:136-181 | every child is linked to its expected input (the first to the pipeline's input, later ones to their predecessor in Serial mode and to the pipeline's input in Parallel mode); only links change, and correct links are not touched |
| PostObjects.PostPipeline.Fetch | src/Mod/Cfd/App/PostPipeline.cpp:287-304 | returns exactly the specification `FetchedData` of the current time index |
| PostObjects.PostPipeline.OnChanged | src/Mod/Cfd/App/PostPipeline.cpp:122-189 | `Filter` or `Mode` rewires the children and nothing else; `TimeIndex` sets the data to the fetched instant; other properties change nothing |
| PostObjects.PostPipeline.SetFilter | src/Mod/Cfd/App/PostPipeline.cpp:124-181 | sets the list and leaves every child wired |
| PostObjects.PostPipeline.SetMode | src/Mod/Cfd/App/PostPipeline.cpp:124-181 | sets the mode and leaves every child wired |
| PostObjects.PostPipeline.SetTimeIndex | src/Mod/Cfd/App/PostPipeline.cpp:183-186 | sets the index and the data to that index's instant; no child changes |
| PostObjects.PostPipeline.Execute | src/Mod/Cfd/App/PostPipeline.cpp:78-111 | no input: nothing changes; Serial: the data of the last child, or its own when there is none; Parallel: the append of all children's data in list order |
| PostObjects.PostPipeline.Read | src/Mod/Cfd/App/PostPipeline.cpp:235-262 | unreadable: a file exception and nothing changes; otherwise the instants the chosen loader produces (`Loaded`) are appended, none when no loader applies, with whether they loaded ignored; the index range becomes 0 to max(N-1, 0) in steps of 1; the index is set to its upper end, and the data fetched there |
| PostObjects.PostPipeline.ReadReadable | src/Mod/Cfd/App/PostPipeline.cpp:241-261 | the readable path of `read`: appends exactly the instants the chosen loader produces, or none when no loader applies, then shows the last index |
| PostObjects.PostPipeline.ReadInstants | src/Mod/Cfd/App/PostPipeline.cpp:241 | the collection grows by exactly the instants the chosen loader produces (`Loaded`), and by none when no loader applies |
| PostObjects.PostPipeline.ShowLastIndex | src/Mod/Cfd/App/PostPipeline.cpp:243-261 | the range 0 to max(N-1, 0) step 1; the index at its upper end; the data is the last instant's regions appended, or nothing with no instants; the instants themselves are left as they were |
| PostObjects.PostPipeline.Advance | src/Mod/Cfd/App/PostPipeline.cpp:306-313 | the index moves by `delta` with no clamping, the data follows it, and the result is 0 |
| PostObjects.PostPipeline.Load | src/Mod/Cfd/App/PostPipeline.cpp:264-275 | no result object: only a warning; otherwise this pipeline is appended to the result's pipes and earlier ones are kept |
| PostObjects.PostPipeline.ListTimeValues | src/Mod/Cfd/App/PostPipeline.cpp:277-280 | always empty |
| PostObjects.PostPipeline.ListRegions | src/Mod/Cfd/App/PostPipeline.cpp:282-285 | always empty |
| PostObjects.FetchAtIndex | src/Mod/Cfd/App/PostPipeline.cpp:287-304 | an index inside the list (below 2^31) fetches that instant's regions, appended |
| PostObjects.FetchOutsideList | src/Mod/Cfd/App/PostPipeline.cpp:287-304 | any index in the 32-bit range outside the list, negative ones included, fetches nothing |
| PostObjects.FetchWrapsAround | src/Mod/Cfd/App/PostPipeline.cpp:290-294 | an index 2^32 above `t` fetches what `t` fetches, because of the cast to `unsigned int` |
| PostFilters.Rebuilt | src/Mod/Cfd/App/PostFilter.cpp:182-185 | resetting and refilling an enumeration lists the new names and selects the first, or nothing when there are none |
| PostFilters.ArrayAfterRefreshListed | src/Mod/Cfd/App/PostFilter.cpp:200-203 | after a refresh the stage processes a listed array when there are any, keeps its old array when there are none, and keeps a still-listed choice |
| PostFilters.PostWarpVectorFilter.constructor | src/Mod/Cfd/App/PostFilter.cpp:144-155 | Factor 0, an unfilled `Vector`, a warp with scale 1 and no array, and the "warp" chain active |
| PostFilters.PostWarpVectorFilter.OnChanged | src/Mod/Cfd/App/PostFilter.cpp:195-206 | `Factor` sets the scale factor; a selected `Vector` sets the warped array; nothing else changes the warp |
| PostFilters.PostWarpVectorFilter.SetFactor | src/Mod/Cfd/App/PostFilter.cpp:197-199 | the factor reaches the warp's scale, and the array is kept |
| PostFilters.PostWarpVectorFilter.SetVector | src/Mod/Cfd/App/PostFilter.cpp:200-203 | the selection reaches the warp's array |
| PostFilters.PostWarpVectorFilter.RefreshVector | src/Mod/Cfd/App/PostFilter.cpp:182-189 | the enumeration is refreshed against the names, and the warp follows the resulting selection |
| PostFilters.PostWarpVectorFilter.MustExecute | src/Mod/Cfd/App/PostFilter.cpp:208-216 | 1 iff `Factor` or `Vector` is touched, the base's answer otherwise |
| PostFilters.PostWarpVectorFilter.Execute | src/Mod/Cfd/App/PostFilter.cpp:162-193 | without a data set as input nothing changes; otherwise the vector catalog (3-component arrays) is refreshed and the warp is run on the input |
| PostFilters.PostClipFilter.constructor | src/Mod/Cfd/App/PostFilter.cpp:222-242 | no function, both flags false, "clip" and "extract" registered, the extractor keeping the outside, and "extract" active |
| PostFilters.PostClipFilter.OnChanged | src/Mod/Cfd/App/PostFilter.cpp:248-271 | a function object's implicit function goes to clipper and extractor; `InsideOut` sets the clipper flag and extract-inside to 1 or 0; `CutCells` selects "clip" when true and "extract" when false |
| PostFilters.PostClipFilter.SetFunction | src/Mod/Cfd/App/PostFilter.cpp:250-256 | linking a function object hands its function to both stages, and any other link changes neither |
| PostFilters.PostClipFilter.SetInsideOut | src/Mod/Cfd/App/PostFilter.cpp:257-261 | the clipper's inside-out equals the flag, and the extractor keeps the inside exactly when it is set |
| PostFilters.PostClipFilter.SetCutCells | src/Mod/Cfd/App/PostFilter.cpp:262-267 | on a valid object, true activates "clip" and false "extract"; the stages are unchanged |
| PostFilters.PostClipFilter.MustExecute | src/Mod/Cfd/App/PostFilter.cpp:273-282 | 1 iff `Function`, `InsideOut` or `CutCells` is touched, the base's answer otherwise |
| PostFilters.PostClipFilter.ActiveStage | src/Mod/Cfd/App/PostFilter.cpp:228-238 | the "clip" chain runs the table clipper, and the "extract" chain the geometry extractor, each with its function's current value |
| PostFilters.PostClipFilter.Execute | src/Mod/Cfd/App/PostFilter.cpp:284-290 | with no function set nothing changes; otherwise the active stage runs on the input |
| PostFilters.ConstraintFor | src/Mod/Cfd/App/PostFilter.cpp:388-391 | lower bound is the range minimum and upper bound the maximum; a hundred steps span the range, so the step is non-negative for a proper range |
| PostFilters.PostScalarClipFilter.constructor | src/Mod/Cfd/App/PostFilter.cpp:296-310 | Value 0, an unfilled `Scalars`, InsideOut false, the "clip" chain active, and no constraint yet |
| PostFilters.PostScalarClipFilter.SetConstraintForField | src/Mod/Cfd/App/PostFilter.cpp:378-392 | with a data set as input the constraint is derived from the selected array's range; otherwise it is kept |
| PostFilters.PostScalarClipFilter.OnChanged | src/Mod/Cfd/App/PostFilter.cpp:350-365 | `Value` and `InsideOut` reach the clipper; a selected `Scalars` sets the clipped array and rederives the constraint |
| PostFilters.PostScalarClipFilter.SetValue | src/Mod/Cfd/App/PostFilter.cpp:352-354 | the value reaches the clipper as given, not clamped to the constraint |
| PostFilters.PostScalarClipFilter.SetInsideOut | src/Mod/Cfd/App/PostFilter.cpp:355-357 | the flag reaches the clipper |
| PostFilters.PostScalarClipFilter.SetScalars | src/Mod/Cfd/App/PostFilter.cpp:358-362 | the selection reaches the clipper's array and the constraint follows the selected field |
| PostFilters.PostScalarClipFilter.RefreshScalars | src/Mod/Cfd/App/PostFilter.cpp:336-343 | the scalar catalog is refreshed, the selection resolves to an array, and the clipper and the constraint follow it |
| PostFilters.PostScalarClipFilter.MustExecute | src/Mod/Cfd/App/PostFilter.cpp:367-376 | 1 iff `Value`, `InsideOut` or `Scalars` is touched, the base's answer otherwise |
| PostFilters.PostScalarClipFilter.Execute | src/Mod/Cfd/App/PostFilter.cpp:316-348 | without a data set as input nothing changes; otherwise the 1-component catalog is refreshed and the clip runs with the current value, direction and array |
| PostFilters.PostCutFilter.constructor | src/Mod/Cfd/App/PostFilter.cpp:397-409 | no function, a cutter generating cut scalars and triangles, and the "cut" chain active |
| PostFilters.PostCutFilter.OnChanged | src/Mod/Cfd/App/PostFilter.cpp:415-425 | a linked function object's function becomes the cut function; nothing else changes the cutter |
| PostFilters.PostCutFilter.SetFunction | src/Mod/Cfd/App/PostFilter.cpp:417-422 | linking a function object hands its function to the cutter; any other link changes nothing |
| PostFilters.PostCutFilter.MustExecute | src/Mod/Cfd/App/PostFilter.cpp:427-434 | 1 iff `Function` is touched, the base's answer otherwise |
| PostFilters.PostCutFilter.Execute | src/Mod/Cfd/App/PostFilter.cpp:436-442 | with no cut function nothing changes; otherwise the cutter runs with the function's current value |
| PostFilters.ContourFields | src/Mod/Cfd/App/PostFilter.cpp:521-532 | the contour catalog always starts with "None" |
| PostFilters.ContourFieldAlwaysSelected | src/Mod/Cfd/App/PostFilter.cpp:533-543 | after the refresh something is always selected and contoured: the old choice when still listed, "None" otherwise |
| PostFilters.PostContourFilter.constructor | src/Mod/Cfd/App/PostFilter.cpp:448-474 | range 0 to 1 with 10 contours in the properties and the stage alike, scalars computed, an unfilled `Field`, and the "Contour" chain active |
| PostFilters.PostContourFilter.OnChanged | src/Mod/Cfd/App/PostFilter.cpp:480-496 | a range or count change regenerates the contour values from all three properties; a selected `Field` sets the contoured array |
| PostFilters.PostContourFilter.SetRangeStart | src/Mod/Cfd/App/PostFilter.cpp:482-489 | the contour values are the properties' again, and the array is kept |
| PostFilters.PostContourFilter.SetRangeEnd | src/Mod/Cfd/App/PostFilter.cpp:482-489 | the contour values are the properties' again, and the array is kept |
| PostFilters.PostContourFilter.SetNumberOfContours | src/Mod/Cfd/App/PostFilter.cpp:482-489 | the contour values are the properties' again, and the array is kept |
| PostFilters.PostContourFilter.SetField | src/Mod/Cfd/App/PostFilter.cpp:490-493 | the selection reaches the contoured array |
| PostFilters.PostContourFilter.RefreshField | src/Mod/Cfd/App/PostFilter.cpp:534-541 | the field catalog is refreshed and the contour follows the resulting selection |
| PostFilters.PostContourFilter.MustExecute | src/Mod/Cfd/App/PostFilter.cpp:498-507 | 1 iff one of the field, range or count properties is touched, the base's answer otherwise |
| PostFilters.PostContourFilter.Execute | src/Mod/Cfd/App/PostFilter.cpp:509-546 | without a data set as input nothing changes; otherwise "None" plus the 1-component arrays are listed, the selected field is contoured, `Field` is no longer touched, and the contour runs |
| PostFilters.PostGlyph3DFilter.constructor | src/Mod/Cfd/App/PostFilter.cpp:552-585 | at most 100 points with random mode 1, vector glyphs scaled by scalar at 0.01, an unfilled `Vector`, and the "Glyph3D" chain active |
| PostFilters.PostGlyph3DFilter.OnChanged | src/Mod/Cfd/App/PostFilter.cpp:591-608 | the point limit reaches the mask; a selected `Vector` switches to vector mode on that array; `ScaleFactor` reaches the glyph |
| PostFilters.PostGlyph3DFilter.SetMaximumNumberOfPoints | src/Mod/Cfd/App/PostFilter.cpp:593-595 | the limit reaches the mask and the glyph is unchanged |
| PostFilters.PostGlyph3DFilter.SetVector | src/Mod/Cfd/App/PostFilter.cpp:596-602 | a selection switches the glyph to vector mode on that array; no selection changes nothing |
| PostFilters.PostGlyph3DFilter.SetScaleFactor | src/Mod/Cfd/App/PostFilter.cpp:603-605 | the factor reaches the glyph |
| PostFilters.PostGlyph3DFilter.RefreshVector | src/Mod/Cfd/App/PostFilter.cpp:642-649 | the vector catalog is refreshed; a non-empty one orients the glyphs by the selection |
| PostFilters.PostGlyph3DFilter.MustExecute | src/Mod/Cfd/App/PostFilter.cpp:610-620 | 1 iff the point limit, `Vector` or `ScaleFactor` is touched, the base's answer otherwise |
| PostFilters.PostGlyph3DFilter.Execute | src/Mod/Cfd/App/PostFilter.cpp:622-652 | without a data set as input nothing changes; otherwise the 3-component catalog is refreshed and the masked glyph stage runs |
| PostFilters.PostStreamlineFilter.constructor | src/Mod/Cfd/App/PostFilter.cpp:658-688 | a seed line from (0,0,0) to (0,1,1) with 100 intervals, matching the properties; no traced array; the "StreamLine" chain active |
| PostFilters.PostStreamlineFilter.OnChanged | src/Mod/Cfd/App/PostFilter.cpp:694-714 | `Vector` sets the traced array; each line property moves only its part of the seed line |
| PostFilters.PostStreamlineFilter.SetVector | src/Mod/Cfd/App/PostFilter.cpp:696-699 | the selection reaches the tracer and the seed line is kept |
| PostFilters.PostStreamlineFilter.SetPoint1 | src/Mod/Cfd/App/PostFilter.cpp:701-704 | the seed line's first point moves, and a synced line stays synced |
| PostFilters.PostStreamlineFilter.SetPoint2 | src/Mod/Cfd/App/PostFilter.cpp:705-708 | the seed line's second point moves, and a synced line stays synced |
| PostFilters.PostStreamlineFilter.SetResolution | src/Mod/Cfd/App/PostFilter.cpp:709-711 | the seed line's resolution changes, and a synced line stays synced |
| PostFilters.PostStreamlineFilter.RefreshVector | src/Mod/Cfd/App/PostFilter.cpp:756-763 | the vector catalog is refreshed and the tracer follows the selection |
| PostFilters.PostStreamlineFilter.UpdateProperties | src/Mod/Cfd/App/PostFilter.cpp:736-776 | for a data set as input: the 3-component catalog is refreshed and the seed line spans the input's bounding box; otherwise nothing changes |
| PostFilters.PostStreamlineFilter.MustExecute | src/Mod/Cfd/App/PostFilter.cpp:716-727 | 1 iff `Vector`, a line end or `Resolution` is touched, the base's answer otherwise |
| PostFilters.PostStreamlineFilter.Execute | src/Mod/Cfd/App/PostFilter.cpp:729-734 | updates the properties from the input, then traces streamlines from the updated seed line |
| PostFilters.FieldValuesAreReductions | src/Mod/Cfd/App/PostFilter.cpp:879-890 | one value per probe point: component 0 of a one-component field, otherwise the tuple's magnitude |
| PostFilters.CoordinatesWithinLine | src/Mod/Cfd/App/PostFilter.cpp:874-892 | one x value per probe point, and with texture coordinates in [0, 1] every x lies between 0 and the line's length |
| PostFilters.ReduceTuple | src/Mod/Cfd/App/PostFilter.cpp:881-889 | the loop over the components computes the specification reduction `PointValue` |
| PostFilters.PostDataAlongLineFilter.constructor | src/Mod/Cfd/App/PostFilter.cpp:781-820 | a line from (0,0,0) to (0,0,1) with 100 intervals, matching the properties; no plot data; the "DataAlongLine" chain active |
| PostFilters.PostDataAlongLineFilter.GetAxisData | src/Mod/Cfd/App/PostFilter.cpp:862-896 | the y values are the reduced field values of the probe output, and the x values are the texture coordinates scaled by the line length |
| PostFilters.PostDataAlongLineFilter.OnChanged | src/Mod/Cfd/App/PostFilter.cpp:833-849 | each line property moves its part of the probe line; `PlotData` recomputes both axes |
| PostFilters.PostDataAlongLineFilter.SetPoint1 | src/Mod/Cfd/App/PostFilter.cpp:834-837 | the probe line's first point moves, and a synced line stays synced |
| PostFilters.PostDataAlongLineFilter.SetPoint2 | src/Mod/Cfd/App/PostFilter.cpp:838-841 | the probe line's second point moves, and a synced line stays synced |
| PostFilters.PostDataAlongLineFilter.SetResolution | src/Mod/Cfd/App/PostFilter.cpp:842-844 | the probe line's resolution changes, and a synced line stays synced |
| PostFilters.PostDataAlongLineFilter.SetPlotData | src/Mod/Cfd/App/PostFilter.cpp:845-847 | plots the named field of the last probe output along the line |
| PostFilters.PostDataAlongLineFilter.MustExecute | src/Mod/Cfd/App/PostFilter.cpp:851-860 | 1 iff a line end or `Resolution` is touched, the base's answer otherwise |
| PostFilters.PostDataAlongLineFilter.Execute | src/Mod/Cfd/App/PostFilter.cpp:826-831 | the probe along the current line runs on the input and its output becomes the data |
| PostFilters.PostDataAtPointFilter.constructor | src/Mod/Cfd/App/PostFilter.cpp:901-936 | center (0,0,1) and radius 0 in the properties and the point source; no values, field or unit; the "DataAtPoint" chain active |
| PostFilters.PostDataAtPointFilter.GetPointData | src/Mod/Cfd/App/PostFilter.cpp:969-993 | the values are the reduced field values of the probe output, one per point |
| PostFilters.PostDataAtPointFilter.OnChanged | src/Mod/Cfd/App/PostFilter.cpp:949-958 | `Center` moves the point source; `FieldName` recomputes the values; the radius does not reach the source |
| PostFilters.PostDataAtPointFilter.SetCenter | src/Mod/Cfd/App/PostFilter.cpp:950-953 | the point source moves to the new center |
| PostFilters.PostDataAtPointFilter.SetRadius | src/Mod/Cfd/App/PostFilter.cpp:949-958 | only the property changes, and the point source keeps its radius |
| PostFilters.PostDataAtPointFilter.SetFieldName | src/Mod/Cfd/App/PostFilter.cpp:954-956 | reports the named field of the last probe output |
| PostFilters.PostDataAtPointFilter.SetUnit | src/Mod/Cfd/App/PostFilter.cpp:949-958 | only the property changes |
| PostFilters.PostDataAtPointFilter.MustExecute | src/Mod/Cfd/App/PostFilter.cpp:960-967 | 1 iff `Center` is touched, the base's answer otherwise |
| PostFilters.PostDataAtPointFilter.Execute | src/Mod/Cfd/App/PostFilter.cpp:942-947 | the probe at the current point source runs on the input and its output becomes the data |
| Scenarios.SampleCatalogs | src/Mod/Cfd/App/PostFilter.cpp:177-180 | on the sample data set, the vector catalog is ["U", "V"] and the scalar catalog is ["p"] |

## Left out

- The visualisation library's algorithms are parameters, not models:
  - running a stage is `Runner` and appending data objects is `Appender`;
  - the geometry of clips, cuts, contours, glyphs, stream lines and probes is not modelled;
  - the model records only the settings handed to each stage.
- File readers are left out. Their output is the `ReaderOutput` parameter, and whether a file is readable is the `readable` parameter of `PostPipeline.Read`.
- Logging and timing are left out.
- Floating point:
  - values are reals;
  - the square root is a parameter, specified by its defining relationship in `IsSqrt`;
  - `SMALL` is the exact value of `DBL_MIN`, so the model does not capture that `b + SMALL` rounds back to `b` in double arithmetic. In doubles, therefore, the program's `==` is false for every pair of ordinary-sized times, equal ones included. The reflexivity of `==` in `OperatorLaws` and `ToleranceIsNotTransitive`, and the pair 1.0 and 1.0 + SMALL/2 in `EqualYetOrdered` (which rounds to 1.0 and 1.0), hold only in the real arithmetic the model uses.
- Reference counting (`Register`, `UnRegister`, `Delete`) is left out. Ownership of regions and of implicit functions is handle identity.
- Base `FileInfo` is framework code and is not part of this model. It is modelled as far as the loaders use it: back slashes normalised, file name after the last slash, extension after the last dot, ASCII case folding.
- Enumeration defaults are an assumption about the property framework. After `setEnums` followed by `setValue`, the model selects the first item, or nothing (-1) when the list is empty.
- Setting the selection by name after a refresh is modelled only as re-selecting the first occurrence of the old name.
- `App::DocumentObject::mustExecute` is the `baseMustExecute` parameter of each `MustExecute`. `isValid` is the `valid` field of the base.
- Document-level recompute ordering, touch purging, undo, save and restore are left out. `isTouched` is membership in the touched set, which only Contour's `execute` clears, for `Field`.
- The property framework's constraint on `TimeIndex` and on `Value` is left out. Constraints are recorded but never clamp a value.
- `getBoundingBox` and other members of `PostObject.cpp` are not part of this model. The bounding box is the `bounds` field of a data set.
- ResultObject is not part of this model beyond its `Pipes` list.
- Python bindings, module initialisation, the GUI and `getPyObject` are left out.
- `getFilterPipeline` is left out. A chain is its name, and its stage is derived from the filter's settings.
- The probe tolerance depends on the library version. The model uses the settings the source sets (no computed tolerance, tolerance 0.01).
- PostObjects.PostFilter.Execute requires that a running active chain is registered. In the source, looking up a missing chain inserts an empty one and then calls into null stage pointers.
- PostFilters.PostScalarClipFilter.SetConstraintForField requires that the selected name resolves to an array. The source dereferences a null array otherwise.
- PostFilters.PostDataAlongLineFilter.GetAxisData requires that the plotted field and the texture coordinates exist in the probe output and hold a tuple per point. The source dereferences them unchecked.
- PostFilters.PostDataAtPointFilter.GetPointData requires that the field exists in the probe output with a tuple per point. The source dereferences it unchecked.
- Instants.Instant.ListAllRegionNames requires regions in which every block is named. The source builds a string from a null name otherwise.
- Instants.Instant.GetAllRegions requires regions. The source dereferences null regions otherwise.
- PostObjects.PostPipeline.Read states the instants it appends through the ghost `added` list, whose settings are the loader's result (`Loaded`). The instants' data at the last index is stated on `ShowLastIndex` rather than again on `Read`.
- PostObjects.PostPipeline.Read requires `Valid`. That predicate holds that a pipeline registers no chains and is not its own child, and that every instant read holds regions, which the loaders guarantee.
- The probe output before the first run is modelled as an empty data set. The source's probes hand out an empty output there.
- The `int` and `long` arithmetic of `advance` and `read` is unbounded here. Only the cast of the time index to `label` wraps.
- The ScalarClip constraint is indeterminate before its first derivation in the source. Here it is `None`.
