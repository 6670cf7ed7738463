/**
 * Item 10 (chapter3/item10_equals): a `Point` with a correct `equals` and
 * `hashCode`, a `ColorPoint` that adds a colour by composition, and an
 * `InheritanceColorPoint` that adds it by subclassing `Point`.
 *
 * Objects are values: an `equals` call receives any run-time object, so the
 * argument ranges over `Object`, which names every class the three `equals`
 * methods distinguish. The `obj == this` shortcuts return what the field
 * comparison returns for these classes, so the model compares fields.
 */
module EqualsContract {
  import opened Lang
  import opened AwtColor

  datatype Point = Point(x: int32, y: int32)

  /** Composition: a point and a colour side by side. */
  datatype ColorPoint = ColorPoint(point: Point, color: Color)

  /** Inheritance: a `Point` subclass with an extra colour field. */
  datatype InheritanceColorPoint = InheritanceColorPoint(x: int32, y: int32, color: Color)

  /** A run-time argument of `equals`. */
  datatype Object =
    | Null
    | PointObject(p: Point)
    | ColorPointObject(cp: ColorPoint)
    | InheritanceObject(icp: InheritanceColorPoint)
    | OtherObject

  /** `obj instanceof Point`: a `Point` or its subclass. */
  predicate IsPoint(obj: Object) {
    obj.PointObject? || obj.InheritanceObject?
  }

  /** The `Point` fields of an object that is a `Point`. */
  function AsPointFields(obj: Object): Point
    requires IsPoint(obj)
  {
    match obj
    case PointObject(p) => p
    case InheritanceObject(q) => Point(q.x, q.y)
  }

  /** `Point.equals(obj)`. */
  function PointEquals(self: Point, obj: Object): (r: bool)
    ensures obj == PointObject(self) ==> r
    ensures !IsPoint(obj) ==> !r
    ensures IsPoint(obj) ==> (r <==> AsPointFields(obj).x == self.x && AsPointFields(obj).y == self.y)
  {
    if !IsPoint(obj) then false
    else
      var p := AsPointFields(obj);
      self.x == p.x && self.y == p.y
  }

  /** `Point.hashCode()`: `31 * x + y`, step by step in `int` arithmetic. */
  function PointHashCode(self: Point): int32 {
    var result := self.x;
    Add32(Mul32(31, result), self.y)
  }

  /** `ColorPoint.asPoint()`. */
  function AsPoint(self: ColorPoint): (r: Point)
    ensures r.x == self.point.x && r.y == self.point.y
  {
    self.point
  }

  /** `ColorPoint.equals(obj)` (composition). */
  function ColorPointEquals(self: ColorPoint, obj: Object): (r: bool)
    ensures r <==> obj.ColorPointObject? && obj.cp == self
  {
    match obj
    case ColorPointObject(cp) => PointEquals(cp.point, PointObject(self.point)) && cp.color == self.color
    case _ => false
  }

  /** `ColorPoint.hashCode()`: `31 * point.hashCode() + color.hashCode()`. */
  function ColorPointHashCode(self: ColorPoint): int32 {
    var result := PointHashCode(self.point);
    Add32(Mul32(31, result), ColorHash(self.color))
  }

  /** `InheritanceColorPoint.equals(obj)`. */
  function InheritanceEquals(self: InheritanceColorPoint, obj: Object): (r: bool)
    ensures !IsPoint(obj) ==> !r
    ensures obj.PointObject? ==> (r <==> obj.p.x == self.x && obj.p.y == self.y)
    ensures obj.InheritanceObject? ==> (r <==> obj.icp == self)
  {
    if !IsPoint(obj) then false
    else if !obj.InheritanceObject? then
      // a plain Point: `obj.equals(this)`, the colour-blind comparison
      PointEquals(obj.p, InheritanceObject(self))
    else
      PointEquals(Point(self.x, self.y), obj) && obj.icp.color == self.color
  }

  /** `a.equals(b)` by the dynamic class of the receiver `a`. */
  function Equals(a: Object, b: Object): bool
    requires a.PointObject? || a.ColorPointObject? || a.InheritanceObject?
  {
    match a
    case PointObject(p) => PointEquals(p, b)
    case ColorPointObject(cp) => ColorPointEquals(cp, b)
    case InheritanceObject(icp) => InheritanceEquals(icp, b)
  }

  /** The objects of the `Point` and composition `ColorPoint` classes. */
  predicate InCompositionFamily(a: Object) {
    a.PointObject? || a.ColorPointObject?
  }

  /** The objects of the `Point` and `InheritanceColorPoint` classes. */
  predicate InInheritanceFamily(a: Object) {
    a.PointObject? || a.InheritanceObject?
  }

  // ---------------------------------------------------------------------
  // The equals contract
  // ---------------------------------------------------------------------

  /** `Point.equals` is reflexive, symmetric, transitive and false on null. */
  lemma PointEqualsIsEquivalence(p: Point, q: Point, s: Point)
    ensures PointEquals(p, PointObject(p))
    ensures PointEquals(p, PointObject(q)) <==> PointEquals(q, PointObject(p))
    ensures PointEquals(p, PointObject(q)) && PointEquals(q, PointObject(s)) ==> PointEquals(p, PointObject(s))
    ensures !PointEquals(p, Null)
  {
  }

  /** Two points are equal exactly when their coordinates are. */
  lemma PointEqualsIffSameCoordinates(p: Point, q: Point)
    ensures PointEquals(p, PointObject(q)) <==> p == q
  {
  }

  /**
   * With composition, `equals` across points and colour points is an
   * equivalence relation: a point never equals a colour point either way.
   */
  lemma CompositionIsEquivalence(a: Object, b: Object, c: Object)
    requires InCompositionFamily(a) && InCompositionFamily(b) && InCompositionFamily(c)
    ensures Equals(a, a)
    ensures Equals(a, b) <==> Equals(b, a)
    ensures Equals(a, b) && Equals(b, c) ==> Equals(a, c)
    ensures !Equals(a, Null)
  {
  }

  /** Two colour points differing only in colour are unequal, yet their point views are equal. */
  lemma AsPointIgnoresColor(x: int32, y: int32, c1: Color, c2: Color)
    requires c1 != c2
    ensures !ColorPointEquals(ColorPoint(Point(x, y), c1), ColorPointObject(ColorPoint(Point(x, y), c2)))
    ensures PointEquals(AsPoint(ColorPoint(Point(x, y), c1)), PointObject(AsPoint(ColorPoint(Point(x, y), c2))))
  {
  }

  /**
   * Between points and inheritance colour points `equals` IS symmetric:
   * both directions between a `Point` and an `InheritanceColorPoint` come
   * down to `Point.equals`.
   */
  lemma InheritanceIsSymmetric(a: Object, b: Object)
    requires InInheritanceFamily(a) && InInheritanceFamily(b)
    ensures Equals(a, b) <==> Equals(b, a)
  {
  }

  /** ...but it is not transitive: a point equals a red and a blue colour point, which differ. */
  lemma InheritanceBreaksTransitivity()
    ensures var p, cp, cp2 := PointObject(Point(1, 2)),
                              InheritanceObject(InheritanceColorPoint(1, 2, RED)),
                              InheritanceObject(InheritanceColorPoint(1, 2, BLUE));
            Equals(p, cp) && Equals(cp, p) && Equals(p, cp2) && !Equals(cp, cp2)
  {
  }

  // ---------------------------------------------------------------------
  // The hashCode contract
  // ---------------------------------------------------------------------

  /** `Point.hashCode()` is `31 * x + y` wrapped once to 32 bits. */
  lemma PointHashCodeValue(p: Point)
    ensures PointHashCode(p) == Wrap(31 * p.x as int + p.y as int)
  {
    WrapAdd(31 * p.x as int, p.y as int);
  }

  /** `ColorPoint.hashCode()` is `961 * x + 31 * y + argb` wrapped once. */
  lemma ColorPointHashCodeValue(cp: ColorPoint)
    ensures ColorPointHashCode(cp) == Wrap(961 * cp.point.x as int + 31 * cp.point.y as int + cp.color.argb as int)
  {
    var h := 31 * cp.point.x as int + cp.point.y as int;
    PointHashCodeValue(cp.point);
    WrapMul(31, h);
    WrapAdd(31 * h, cp.color.argb as int);
    assert 31 * h + cp.color.argb as int == 961 * cp.point.x as int + 31 * cp.point.y as int + cp.color.argb as int;
  }

  /** Equal points have equal hash codes. */
  lemma EqualPointsHaveEqualHashes(p: Point, obj: Object)
    requires PointEquals(p, obj) && obj.PointObject?
    ensures PointHashCode(p) == PointHashCode(obj.p)
  {
  }

  /** Equal colour points have equal hash codes. */
  lemma EqualColorPointsHaveEqualHashes(cp: ColorPoint, obj: Object)
    requires ColorPointEquals(cp, obj)
    ensures ColorPointHashCode(cp) == ColorPointHashCode(obj.cp)
  {
  }

  /**
   * An inheritance colour point keeps `Point.hashCode`, so a point and an
   * inheritance colour point that are equal (either way) hash alike.
   */
  lemma InheritanceEqualsKeepsHashes(p: Point, icp: InheritanceColorPoint)
    requires PointEquals(p, InheritanceObject(icp))
    ensures PointHashCode(p) == PointHashCode(Point(icp.x, icp.y))
  {
  }

  /** The hash codes printed for the demonstration points. */
  lemma HashCodeExamples()
    ensures PointHashCode(Point(1, 2)) == 33
    ensures ColorPointHashCode(ColorPoint(Point(1, 2), RED)) == 33 * 31 - 0x1_0000
  {
  }
}
