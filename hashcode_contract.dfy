/**
 * Item 11 (chapter3/item11_hashcode): a `Point` whose `hashCode` is
 * `Objects.hash(x, y)` with a hand-written alternative, and a `ColorPoint`
 * subclass whose `equals` and `hashCode` add a nullable colour. The
 * subclass uses `Objects.equals` and `Objects.hashCode`, which its file
 * never imports; the model gives them their `java.util.Objects` meaning.
 */
module HashCodeContract {
  import opened Lang
  import opened AwtColor

  datatype Point = Point(x: int32, y: int32)

  /** A `Point` subclass; its colour may be null. */
  datatype ColorPoint = ColorPoint(x: int32, y: int32, color: Option<Color>)

  /** A run-time argument of `equals`. */
  datatype Object =
    | Null
    | PointObject(p: Point)
    | ColorPointObject(cp: ColorPoint)
    | OtherObject

  /** `getX()`. */
  function GetX(self: Point): (r: int32)
    ensures Point(r, self.y) == self
  {
    self.x
  }

  /** `getY()`. */
  function GetY(self: Point): (r: int32)
    ensures Point(self.x, r) == self
  {
    self.y
  }

  /** `o instanceof Point`. */
  predicate IsPoint(o: Object) {
    o.PointObject? || o.ColorPointObject?
  }

  /** The `Point` fields of an object that is a `Point`. */
  function PointFields(o: Object): Point
    requires IsPoint(o)
  {
    match o
    case PointObject(p) => p
    case ColorPointObject(cp) => Point(cp.x, cp.y)
  }

  /** `Point.equals(o)`. */
  function PointEquals(self: Point, o: Object): (r: bool)
    ensures r <==> IsPoint(o) && PointFields(o) == self
  {
    if !IsPoint(o) then false
    else
      var p := PointFields(o);
      p.x == self.x && p.y == self.y
  }

  /** `Objects.equals(a, b)` on colours. */
  function ObjectsEquals(a: Option<Color>, b: Option<Color>): bool {
    if a.None? then b.None? else b.Some? && a.value == b.value
  }

  /** `Objects.hashCode(o)` on colours: 0 for null. */
  function ObjectsHashCode(c: Option<Color>): int32 {
    if c.None? then 0 else ColorHash(c.value)
  }

  /** `ColorPoint.equals(o)`. */
  function ColorPointEquals(self: ColorPoint, o: Object): (r: bool)
    ensures r <==> o == ColorPointObject(self)
  {
    if !o.ColorPointObject? then false
    else PointEquals(Point(self.x, self.y), o) && ObjectsEquals(self.color, o.cp.color)
  }

  /** `Objects.hash(x, y)`, i.e. `Arrays.hashCode` over `[x, y]`: start at 1, then `31 * result + e`. */
  function HashCode(self: Point): int32 {
    var result: int32 := 1;
    var result := Add32(Mul32(31, result), self.x);
    Add32(Mul32(31, result), self.y)
  }

  /** `manualHashCode()`: `31 * x + y`. */
  function ManualHashCode(self: Point): int32 {
    var result := self.x;
    Add32(Mul32(31, result), self.y)
  }

  /** `ColorPoint.hashCode()`: `31 * super.hashCode() + Objects.hashCode(color)`. */
  function ColorPointHashCode(self: ColorPoint): int32 {
    Add32(Mul32(31, HashCode(Point(self.x, self.y))), ObjectsHashCode(self.color))
  }

  // ---------------------------------------------------------------------
  // equals
  // ---------------------------------------------------------------------

  /** Among points, `equals` is reflexive, symmetric, transitive and false on null. */
  lemma PointEqualsIsEquivalence(p: Point, q: Point, s: Point)
    ensures PointEquals(p, PointObject(p))
    ensures PointEquals(p, PointObject(q)) <==> PointEquals(q, PointObject(p))
    ensures PointEquals(p, PointObject(q)) && PointEquals(q, PointObject(s)) ==> PointEquals(p, PointObject(s))
    ensures !PointEquals(p, Null)
  {
  }

  /** Among colour points, `equals` is an equivalence relation, null colours included. */
  lemma ColorPointEqualsIsEquivalence(a: ColorPoint, b: ColorPoint, c: ColorPoint)
    ensures ColorPointEquals(a, ColorPointObject(a))
    ensures ColorPointEquals(a, ColorPointObject(b)) <==> ColorPointEquals(b, ColorPointObject(a))
    ensures ColorPointEquals(a, ColorPointObject(b)) && ColorPointEquals(b, ColorPointObject(c)) ==> ColorPointEquals(a, ColorPointObject(c))
  {
  }

  /** A colour point never equals a plain point, whatever its coordinates. */
  lemma ColorPointRejectsPlainPoints(cp: ColorPoint, p: Point)
    ensures !ColorPointEquals(cp, PointObject(p))
  {
  }

  /** Yet a plain point equals every colour point at its coordinates: equality is not symmetric. */
  lemma PointColorPointAsymmetry(p: Point, c: Option<Color>)
    ensures PointEquals(p, ColorPointObject(ColorPoint(p.x, p.y, c)))
    ensures !ColorPointEquals(ColorPoint(p.x, p.y, c), PointObject(p))
  {
  }

  // ---------------------------------------------------------------------
  // hashCode
  // ---------------------------------------------------------------------

  /** `hashCode()` is `31 * (31 + x) + y` wrapped once. */
  lemma HashCodeValue(p: Point)
    ensures HashCode(p) == Wrap(961 + 31 * p.x as int + p.y as int)
  {
    var a := 31 + p.x as int;
    var first := Add32(Mul32(31, 1), p.x);
    assert first == Wrap(a);
    WrapMul(31, a);
    assert Mul32(31, first) == Wrap(31 * a);
    WrapAdd(31 * a, p.y as int);
    assert 31 * a + p.y as int == 961 + 31 * p.x as int + p.y as int;
  }

  /** `manualHashCode()` is `31 * x + y` wrapped once. */
  lemma ManualHashCodeValue(p: Point)
    ensures ManualHashCode(p) == Wrap(31 * p.x as int + p.y as int)
  {
    WrapAdd(31 * p.x as int, p.y as int);
  }

  /** The two hash functions never agree: they differ by 961, which is not a multiple of 2^32. */
  lemma HashCodeDiffersFromManual(p: Point)
    ensures HashCode(p) != ManualHashCode(p)
  {
    var n := 31 * p.x as int + p.y as int;
    HashCodeValue(p);
    ManualHashCodeValue(p);
    WrapShiftDiffers(n, 961);
    assert 961 + n == n + 961;
  }

  /** Equal points have equal `hashCode` and equal `manualHashCode`. */
  lemma EqualPointsHaveEqualHashes(p: Point, q: Point)
    requires PointEquals(p, PointObject(q))
    ensures HashCode(p) == HashCode(q) && ManualHashCode(p) == ManualHashCode(q)
  {
  }

  /** Equal colour points have equal hash codes. */
  lemma EqualColorPointsHaveEqualHashes(a: ColorPoint, b: ColorPoint)
    requires ColorPointEquals(a, ColorPointObject(b))
    ensures ColorPointHashCode(a) == ColorPointHashCode(b)
  {
  }

  /**
   * The demonstration values: (1,2) red and (1,2) blue differ; the plain
   * point (1,2) equals the red colour point, yet their hash codes differ.
   */
  lemma DemonstrationValues()
    ensures HashCode(Point(1, 2)) == 994 && ManualHashCode(Point(1, 2)) == 33
    ensures !ColorPointEquals(ColorPoint(1, 2, Some(RED)), ColorPointObject(ColorPoint(1, 2, Some(BLUE))))
    ensures PointEquals(Point(1, 2), ColorPointObject(ColorPoint(1, 2, Some(RED))))
    ensures ColorPointHashCode(ColorPoint(1, 2, Some(RED))) == 994 * 31 - 0x1_0000
    ensures HashCode(Point(1, 2)) != ColorPointHashCode(ColorPoint(1, 2, Some(RED)))
  {
  }

  // ---------------------------------------------------------------------
  // A hash table keyed by points
  // ---------------------------------------------------------------------

  /** A hash table as `HashMap` organises it: buckets by hash code, searched with `equals`. */
  type PointMap<V> = map<int32, seq<(Point, V)>>

  function Bucket<V>(m: PointMap<V>, h: int32): seq<(Point, V)> {
    if h in m then m[h] else []
  }

  /** The value of the first entry of a bucket whose key `equals` the given key. */
  function FindInBucket<V>(b: seq<(Point, V)>, key: Point): (r: Option<V>)
    ensures r.Some? ==> exists i :: 0 <= i < |b| && b[i].1 == r.value && PointEquals(key, PointObject(b[i].0))
                                   && forall j :: 0 <= j < i ==> !PointEquals(key, PointObject(b[j].0))
    ensures r.None? ==> forall i :: 0 <= i < |b| ==> !PointEquals(key, PointObject(b[i].0))
  {
    if b == [] then None
    else if PointEquals(key, PointObject(b[0].0)) then Some(b[0].1)
    else FindInBucket(b[1..], key)
  }

  /** `map.get(key)`. */
  function Get<V>(m: PointMap<V>, key: Point): Option<V> {
    FindInBucket(Bucket(m, HashCode(key)), key)
  }

  /** `map.put(key, value)`: the new entry goes first in its bucket and shadows any equal key. */
  function Put<V>(m: PointMap<V>, key: Point, value: V): PointMap<V> {
    var h := HashCode(key);
    m[h := [(key, value)] + Bucket(m, h)]
  }

  /** A lookup with any key equal to the stored one finds the stored value. */
  lemma PutThenGetEqualKey<V>(m: PointMap<V>, p1: Point, p2: Point, v: V)
    requires PointEquals(p2, PointObject(p1))
    ensures Get(Put(m, p1, v), p2) == Some(v)
  {
    EqualPointsHaveEqualHashes(p2, p1);
  }
}
