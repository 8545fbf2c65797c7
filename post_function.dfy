/** Implicit-function parameter objects: a plane and a sphere whose document properties are
    forwarded into the implicit-function record that clip and cut stages hold a handle to. */
module PostFunctions {
  import opened Data

  /** The implicit plane the library evaluates. */
  datatype Plane = Plane(origin: Vec3, normal: Vec3)

  /** The implicit sphere the library evaluates. */
  datatype Sphere = Sphere(center: Vec3, radius: real)

  /** `PostFunction::execute`: a function object computes nothing on recompute. */
  function Execute(): (r: ExecReturn)
    ensures r.StdReturn?
  {
    StdReturn
  }

  class PostPlaneFunction {
    var Origin: Vec3
    var Normal: Vec3
    /** The owned implicit plane. */
    var plane: Plane

    /** The plane and its properties agree. */
    predicate Synced()
      reads this
    {
      plane.origin == Origin && plane.normal == Normal
    }

    /** Origin (0,0,0) and normal (0,0,1), in the properties and in the plane alike. */
    constructor()
      ensures Origin == Vec3(0.0, 0.0, 0.0) && Normal == Vec3(0.0, 0.0, 1.0)
      ensures plane == Plane(Vec3(0.0, 0.0, 0.0), Vec3(0.0, 0.0, 1.0))
      ensures Synced()
    {
      Origin := Vec3(0.0, 0.0, 0.0);
      Normal := Vec3(0.0, 0.0, 1.0);
      plane := Plane(Vec3(0.0, 0.0, 0.0), Vec3(0.0, 0.0, 1.0));
    }

    /** `onChanged`: a change of `Origin` moves only the plane's origin, a change of `Normal`
        turns only its normal; other properties leave the plane alone. */
    method OnChanged(prop: string)
      modifies this
      ensures Origin == old(Origin) && Normal == old(Normal)
      ensures prop == "Origin" ==> plane == old(plane).(origin := Origin)
      ensures prop == "Normal" ==> plane == old(plane).(normal := Normal)
      ensures prop != "Origin" && prop != "Normal" ==> plane == old(plane)
    {
      if prop == "Origin" {
        plane := plane.(origin := Origin);
      } else if prop == "Normal" {
        plane := plane.(normal := Normal);
      }
    }

    /** Setting `Origin`: the property and then the plane's origin; the normal is untouched. */
    method SetOrigin(v: Vec3)
      modifies this
      ensures Origin == v && Normal == old(Normal)
      ensures plane == Plane(v, old(plane).normal)
      ensures old(Synced()) ==> Synced()
    {
      Origin := v;
      OnChanged("Origin");
    }

    /** Setting `Normal`: the property and then the plane's normal; the origin is untouched. */
    method SetNormal(v: Vec3)
      modifies this
      ensures Normal == v && Origin == old(Origin)
      ensures plane == Plane(old(plane).origin, v)
      ensures old(Synced()) ==> Synced()
    {
      Normal := v;
      OnChanged("Normal");
    }
  }

  class PostSphereFunction {
    var Radius: real
    var Center: Vec3
    /** The owned implicit sphere. */
    var sphere: Sphere

    /** The sphere and its properties agree. */
    predicate Synced()
      reads this
    {
      sphere.center == Center && sphere.radius == Radius
    }

    /** Properties radius 5 and center (1,0,0), but the sphere itself is centred at the origin
        with radius 5: the two centers disagree until `Center` is next set. */
    constructor()
      ensures Radius == 5.0 && Center == Vec3(1.0, 0.0, 0.0)
      ensures sphere == Sphere(Vec3(0.0, 0.0, 0.0), 5.0)
      ensures !Synced() && sphere.radius == Radius
    {
      Radius := 5.0;
      Center := Vec3(1.0, 0.0, 0.0);
      sphere := Sphere(Vec3(0.0, 0.0, 0.0), 5.0);
    }

    /** `onChanged`: a change of `Center` moves only the sphere's center, a change of `Radius`
        changes only its radius; other properties leave the sphere alone. */
    method OnChanged(prop: string)
      modifies this
      ensures Radius == old(Radius) && Center == old(Center)
      ensures prop == "Center" ==> sphere == old(sphere).(center := Center)
      ensures prop == "Radius" ==> sphere == old(sphere).(radius := Radius)
      ensures prop != "Center" && prop != "Radius" ==> sphere == old(sphere)
    {
      if prop == "Center" {
        sphere := sphere.(center := Center);
      } else if prop == "Radius" {
        sphere := sphere.(radius := Radius);
      }
    }

    /** Setting `Center`: the property and then the sphere's center; the radius is untouched. */
    method SetCenter(v: Vec3)
      modifies this
      ensures Center == v && Radius == old(Radius)
      ensures sphere == Sphere(v, old(sphere).radius)
      ensures old(sphere.radius == Radius) ==> Synced()
    {
      Center := v;
      OnChanged("Center");
    }

    /** Setting `Radius`: the property and then the sphere's radius; the center is untouched. */
    method SetRadius(v: real)
      modifies this
      ensures Radius == v && Center == old(Center)
      ensures sphere == Sphere(old(sphere).center, v)
      ensures old(sphere.center == Center) ==> Synced()
    {
      Radius := v;
      OnChanged("Radius");
    }
  }

  /** A handle to the implicit function a function object owns (`getImplicitFunction`). */
  datatype ImplicitHandle = PlaneHandle(planeObject: PostPlaneFunction) | SphereHandle(sphereObject: PostSphereFunction)

  /** The value of an implicit function at the moment it is evaluated. */
  datatype Implicit = PlaneFunction(plane: Plane) | SphereFunction(sphere: Sphere)

  /** The object a `Function` link property points to: nothing, one of the two function
      objects, or some other document object. */
  datatype FunctionLink = NoObject | PlaneObject(p: PostPlaneFunction) | SphereObject(s: PostSphereFunction) | OtherObject(name: string)

  /** The implicit function behind a link, present only when the linked object is a function
      object. */
  function HandleOf(link: FunctionLink): (r: Option<ImplicitHandle>)
    ensures r.None? <==> link.NoObject? || link.OtherObject?
    ensures link.PlaneObject? ==> r == Some(PlaneHandle(link.p))
    ensures link.SphereObject? ==> r == Some(SphereHandle(link.s))
  {
    match link
    case PlaneObject(p) => Some(PlaneHandle(p))
    case SphereObject(s) => Some(SphereHandle(s))
    case _ => None
  }

  function HandleObject(h: ImplicitHandle): object {
    match h
    case PlaneHandle(p) => p
    case SphereHandle(s) => s
  }

  /** The current value of the function behind a handle. */
  function Evaluate(h: ImplicitHandle): Implicit
    reads HandleObject(h)
  {
    match h
    case PlaneHandle(p) => PlaneFunction(p.plane)
    case SphereHandle(s) => SphereFunction(s.sphere)
  }
}
