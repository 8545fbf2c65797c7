/** Values the post-processing core exchanges with the visualisation library: data objects with
    their point-array metadata, the enumeration properties that list selectable field names, and
    the field catalog that fills them. */
module Data {

  datatype Option<+T> = None | Some(value: T)

  /** The result of a document object's `execute`. */
  datatype ExecReturn = StdReturn | ExecError(message: string)

  datatype Vec3 = Vec3(x: real, y: real, z: real)

  /** The range of component 0 of an array, as the library reports it. */
  datatype Range = Range(lo: real, hi: real)

  /** A point-associated data array: its name, its number of components, the range the library
      reports for it, and one tuple of component values per point. */
  datatype DataArray = DataArray(name: string, components: nat, range: Range, tuples: seq<seq<real>>)

  datatype Bounds = Bounds(min: Vec3, max: Vec3)

  /** A data object is either a data set (point arrays, point count, bounding box) or a
      multi-block composite; a composite is not a data set. */
  datatype DataObject =
    | DataSet(pointData: seq<DataArray>, numPoints: nat, bounds: Bounds)
    | MultiBlock(blocks: seq<Block>)

  /** One block of a multi-block data set: the NAME entry of its metadata (absent when never
      set) and the block's data object (absent for an empty slot). */
  datatype Block = Block(name: Option<string>, data: Option<DataObject>)

  /** The library's append filter: one combined data set from a list of inputs, in order.
      Its geometry is not modelled, so it is a parameter of the operations that use it. */
  type Appender = seq<Option<DataObject>> -> DataObject

  predicate IsDataSet(d: Option<DataObject>) {
    d.Some? && d.value.DataSet?
  }

  /** The data objects of a block list, in block order. */
  function BlockData(blocks: seq<Block>): (r: seq<Option<DataObject>>)
    ensures |r| == |blocks|
    ensures forall i :: 0 <= i < |blocks| ==> r[i] == blocks[i].data
  {
    seq(|blocks|, i requires 0 <= i < |blocks| => blocks[i].data)
  }

  // ---------------------------------------------------------------------------------------------
  // Field catalog

  /** The names of the point arrays that have exactly `k` components, in array order. */
  function NamesWithComponents(pd: seq<DataArray>, k: nat): seq<string>
  {
    if pd == [] then []
    else
      var last := pd[|pd| - 1];
      NamesWithComponents(pd[..|pd| - 1], k) + (if last.components == k then [last.name] else [])
  }

  /** Scans the point arrays and collects the names of those with `k` components. */
  method ScanPointArrays(pd: seq<DataArray>, k: nat) returns (names: seq<string>)
    ensures names == NamesWithComponents(pd, k)
  {
    names := [];
    var i := 0;
    while i < |pd|
      invariant 0 <= i <= |pd|
      invariant names == NamesWithComponents(pd[..i], k)
    {
      assert pd[..i + 1][..i] == pd[..i];
      if pd[i].components == k {
        names := names + [pd[i].name];
      }
      i := i + 1;
    }
    assert pd[..|pd|] == pd;
  }

  /** A name is in the catalog exactly when some array with `k` components carries it. */
  lemma {:induction false} CatalogMembership(pd: seq<DataArray>, k: nat, n: string)
    ensures n in NamesWithComponents(pd, k) <==>
            exists i :: 0 <= i < |pd| && pd[i].components == k && pd[i].name == n
  {
    if pd != [] {
      var init := pd[..|pd| - 1];
      CatalogMembership(init, k, n);
      if n in NamesWithComponents(pd, k) && n !in NamesWithComponents(init, k) {
        assert pd[|pd| - 1].components == k && pd[|pd| - 1].name == n;
      }
      if exists i :: 0 <= i < |pd| && pd[i].components == k && pd[i].name == n {
        var i :| 0 <= i < |pd| && pd[i].components == k && pd[i].name == n;
        if i < |pd| - 1 {
          assert init[i] == pd[i];
        }
      }
    }
  }

  /** The catalog lists the k-component arrays in array order: there is a strictly increasing
      choice of array positions, one per listed name, that covers every k-component array. */
  lemma {:induction false} CatalogInArrayOrder(pd: seq<DataArray>, k: nat)
    returns (pos: seq<nat>)
    ensures |pos| == |NamesWithComponents(pd, k)|
    ensures forall j :: 0 <= j < |pos| ==>
              pos[j] < |pd| && pd[pos[j]].components == k &&
              pd[pos[j]].name == NamesWithComponents(pd, k)[j]
    ensures forall j, l :: 0 <= j < l < |pos| ==> pos[j] < pos[l]
    ensures forall i :: 0 <= i < |pd| && pd[i].components == k ==> i in pos
  {
    if pd == [] {
      pos := [];
    } else {
      var init := pd[..|pd| - 1];
      var p0 := CatalogInArrayOrder(init, k);
      if pd[|pd| - 1].components == k {
        pos := p0 + [|pd| - 1];
      } else {
        pos := p0;
      }
    }
  }

  // ---------------------------------------------------------------------------------------------
  // Enumeration properties

  /** An enumeration property: its list of names and the selected index (-1 when unset). */
  datatype Enumeration = Enumeration(items: seq<string>, index: int) {

    /** `getValueAsString`: the selected name, or the empty string when nothing is selected. */
    function ValueAsString(): string {
      if 0 <= index < |items| then items[index] else ""
    }
  }

  /** The enumeration a filter starts with: no names, nothing selected. */
  const EmptyEnumeration := Enumeration([], -1)

  /** The position of the first occurrence of `name` in `items`. */
  function IndexOf(items: seq<string>, name: string): (r: Option<nat>)
    ensures r.Some? ==> r.value < |items| && items[r.value] == name &&
                        forall j :: 0 <= j < r.value ==> items[j] != name
    ensures r.None? <==> name !in items
  {
    if items == [] then None
    else if items[0] == name then Some(0)
    else match IndexOf(items[1..], name)
      case None => None
      case Some(i) => Some(i + 1)
  }

  /** The enumeration after a catalog refresh: the property is reset, given the new `items`
      (first name selected, or nothing when the list is empty), and the previously selected
      name is selected again when it is non-empty and still listed. */
  function Refresh(e: Enumeration, items: seq<string>): Enumeration
  {
    var previous := e.ValueAsString();
    var rebuilt := Enumeration(items, if |items| > 0 then 0 else -1);
    match IndexOf(items, previous)
    case Some(i) => if previous != "" then rebuilt.(index := i) else rebuilt
    case None => rebuilt
  }

  /** A refresh keeps the previous selection whenever it is non-empty and still listed, and
      otherwise falls back to the first name; the selection always names a listed item or is
      unset exactly when the list is empty. */
  lemma RefreshSelection(e: Enumeration, items: seq<string>)
    ensures Refresh(e, items).items == items
    ensures var prev := e.ValueAsString();
            prev != "" && prev in items ==> Refresh(e, items).ValueAsString() == prev
    ensures var prev := e.ValueAsString();
            (prev == "" || prev !in items) ==> Refresh(e, items).index == (if |items| > 0 then 0 else -1)
    ensures Refresh(e, items).index == -1 <==> items == []
    ensures items != [] ==> 0 <= Refresh(e, items).index < |items|
  {
  }

  /** Refreshing twice against the same list gives the same enumeration as refreshing once:
      an unchanged input keeps its catalog and its selection. */
  lemma {:induction false} RefreshIdempotent(e: Enumeration, items: seq<string>)
    ensures Refresh(Refresh(e, items), items) == Refresh(e, items)
  {
    var once := Refresh(e, items);
    if items != [] {
      var s := once.ValueAsString();
      assert s == items[once.index];
      if s != "" {
        // the selection is the first occurrence of its name, so looking it up again finds it
        assert IndexOf(items, s) == Some(once.index);
      }
    }
  }

  // ---------------------------------------------------------------------------------------------
  // Array lookup and value reduction

  /** `GetArray(name)`: the first point array with that name. */
  function ArrayByName(pd: seq<DataArray>, name: string): (r: Option<DataArray>)
    ensures r.Some? ==> r.value in pd && r.value.name == name
    ensures r.None? <==> forall i :: 0 <= i < |pd| ==> pd[i].name != name
  {
    if pd == [] then None
    else if pd[0].name == name then Some(pd[0])
    else ArrayByName(pd[1..], name)
  }

  /** Every name in a catalog resolves to an array. */
  lemma CatalogNamesResolve(pd: seq<DataArray>, k: nat, n: string)
    requires n in NamesWithComponents(pd, k)
    ensures ArrayByName(pd, n).Some?
  {
    CatalogMembership(pd, k, n);
  }

  /** An array is well formed for `n` points when it has a tuple per point, each holding
      `components` values. */
  predicate WellFormed(a: DataArray, n: nat) {
    |a.tuples| == n && forall i :: 0 <= i < n ==> |a.tuples[i]| == a.components
  }

  /** The sum of the squares of the values in `s`. */
  function SumOfSquares(s: seq<real>): real {
    if s == [] then 0.0 else SumOfSquares(s[..|s| - 1]) + s[|s| - 1] * s[|s| - 1]
  }

  lemma {:induction false} SumOfSquaresNonNegative(s: seq<real>)
    ensures SumOfSquares(s) >= 0.0
  {
    if s != [] {
      SumOfSquaresNonNegative(s[..|s| - 1]);
    }
  }

  /** A square root: non-negative, and its square is its argument. */
  ghost predicate IsSqrt(sqrt: real -> real) {
    forall x: real :: 0.0 <= x ==> 0.0 <= sqrt(x) && sqrt(x) * sqrt(x) == x
  }

  /** The value a probe reports for one point: component 0 of a one-component field, and
      otherwise the Euclidean norm of the tuple. */
  function PointValue(tuple: seq<real>, components: nat, sqrt: real -> real): real
    requires |tuple| == components
  {
    if components == 1 then tuple[0] else sqrt(SumOfSquares(tuple))
  }

  /** The reduced value of a multi-component tuple is its magnitude: non-negative and its square
      is the sum of squared components. */
  lemma PointValueIsMagnitude(tuple: seq<real>, components: nat, sqrt: real -> real)
    requires |tuple| == components && components != 1
    requires IsSqrt(sqrt)
    ensures PointValue(tuple, components, sqrt) >= 0.0
    ensures PointValue(tuple, components, sqrt) * PointValue(tuple, components, sqrt) == SumOfSquares(tuple)
  {
    SumOfSquaresNonNegative(tuple);
  }

  /** The vector (3, 4, 0) is reported as 5. */
  lemma MagnitudeOfThreeFourZero(sqrt: real -> real)
    requires IsSqrt(sqrt)
    ensures PointValue([3.0, 4.0, 0.0], 3, sqrt) == 5.0
  {
    var t := [3.0, 4.0, 0.0];
    assert t[..2] == [3.0, 4.0] && t[..2][..1] == [3.0] && [3.0][..0] == [];
    assert SumOfSquares(t) == 25.0;
    var r := sqrt(25.0);
    assert r >= 0.0 && r * r == 25.0;
    assert (r - 5.0) * (r + 5.0) == 0.0;
    ZeroProduct(r - 5.0, r + 5.0);
  }

  /** A product of two reals is zero only when a factor is. */
  lemma ZeroProduct(a: real, b: real)
    requires a * b == 0.0
    ensures a == 0.0 || b == 0.0
  {
  }

  /** The Euclidean distance between two points, through the given square root. */
  function Distance(a: Vec3, b: Vec3, sqrt: real -> real): real {
    var d := Vec3(a.x - b.x, a.y - b.y, a.z - b.z);
    sqrt(d.x * d.x + d.y * d.y + d.z * d.z)
  }
}
