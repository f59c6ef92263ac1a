/**
 Area and centroid of a polygon by the shoelace formula, over exact reals.

 Points are degrees of longitude and latitude. They are projected around a reference
 point; the theorems say that the reference point does not matter, that ring
 direction does not matter, and that the result is what cutting the polygon into
 triangles gives.
 */
module Geometry {
  import opened Wrappers

  const EARTH_RADIUS_M: real := 6378137.0

  type NonZero = x: real | x != 0.0 witness 1.0

  datatype Point = Point(lon: real, lat: real)
  type Ring = seq<Point>

  datatype PolygonGeometry = PolygonGeometry(lon: real, lat: real, area: real)

  datatype GeometryError = NoCoordinates | UnsupportedType | NoRings | ShortRing

  datatype GeoJson =
    | MissingCoordinates
    | Polygon(rings: seq<Ring>)
    | MultiPolygon(parts: seq<seq<Ring>>)
    | OtherType

  // Radians in one degree, and the cosine, as the platform gives them.
  datatype Trigonometry = Trigonometry(radian: NonZero, cos: real -> real)

  /******* The plane *******/

  datatype Vec = Vec(x: real, y: real)

  function Minus(a: Vec, d: Vec): Vec {
    Vec(a.x - d.x, a.y - d.y)
  }

  function Cross(a: Vec, b: Vec): real {
    a.x * b.y - b.x * a.y
  }

  // Twice the signed area, and six times the first moments.
  datatype Moments = Moments(cross: real, sx: real, sy: real) {
    function Plus(other: Moments): Moments {
      Moments(cross + other.cross, sx + other.sx, sy + other.sy)
    }

    function Negated(): Moments {
      Moments(-cross, -sx, -sy)
    }
  }

  const NOTHING := Moments(0.0, 0.0, 0.0)

  function EdgeMoments(a: Vec, b: Vec): Moments {
    Moments(Cross(a, b), (a.x + b.x) * Cross(a, b), (a.y + b.y) * Cross(a, b))
  }

  // The first m edges of a path.
  function PathMoments(path: seq<Vec>, m: nat): Moments
    requires m < |path|
  {
    if m == 0 then NOTHING else PathMoments(path, m - 1).Plus(EdgeMoments(path[m - 1], path[m]))
  }

  function Shifted(path: seq<Vec>, d: Vec): seq<Vec> {
    seq(|path|, i requires 0 <= i < |path| => Minus(path[i], d))
  }

  // The moments of a path from a to b, seen from d: beside the multiples of the cross
  // sum, what is left over depends only on the two ends.
  function SeenFrom(m: Moments, a: Vec, b: Vec, d: Vec): Moments {
    var cross := m.cross - d.x * (b.y - a.y) + d.y * (b.x - a.x);
    Moments(
      cross,
      m.sx - 2.0 * d.x * cross - d.x * (m.cross + b.x * b.y - a.x * a.y) + d.y * (b.x * b.x - a.x * a.x),
      m.sy - 2.0 * d.y * cross - d.y * (m.cross - b.x * b.y + a.x * a.y) - d.x * (b.y * b.y - a.y * a.y))
  }

  lemma EdgeSeenFrom(b: Vec, c: Vec, d: Vec)
    ensures EdgeMoments(Minus(b, d), Minus(c, d)) == SeenFrom(EdgeMoments(b, c), b, c, d)
  {}

  lemma SeenFromJoins(m: Moments, e: Moments, a: Vec, b: Vec, c: Vec, d: Vec)
    ensures SeenFrom(m.Plus(e), a, c, d) == SeenFrom(m, a, b, d).Plus(SeenFrom(e, b, c, d))
  {}

  lemma {:induction false} PathSeenFrom(path: seq<Vec>, d: Vec, m: nat)
    requires m < |path|
    ensures PathMoments(Shifted(path, d), m) == SeenFrom(PathMoments(path, m), path[0], path[m], d)
  {
    hide EdgeMoments, SeenFrom, Minus, Moments.Plus;
    if m == 0 {
      SeenFromNothing(path[0], d);
    } else {
      PathSeenFrom(path, d, m - 1);
      EdgeSeenFrom(path[m - 1], path[m], d);
      SeenFromJoins(PathMoments(path, m - 1), EdgeMoments(path[m - 1], path[m]), path[0], path[m - 1], path[m], d);
    }
  }

  lemma SeenFromNothing(a: Vec, d: Vec)
    ensures SeenFrom(NOTHING, a, a, d) == NOTHING
  {}

  /******* Closed paths *******/

  // The moments of a closed path about d, from those about the origin.
  function About(m: Moments, d: Vec): Moments {
    Moments(m.cross, m.sx - 3.0 * d.x * m.cross, m.sy - 3.0 * d.y * m.cross)
  }

  // The cross sum of a closed path does not depend on the origin, and each moment
  // moves by three times the cross sum times the shift.
  lemma ClosedPathAbout(path: seq<Vec>, d: Vec)
    requires |path| > 0 && path[0] == path[|path| - 1]
    ensures PathMoments(Shifted(path, d), |path| - 1) == About(PathMoments(path, |path| - 1), d)
  {
    PathSeenFrom(path, d, |path| - 1);
    SeenFromClosed(PathMoments(path, |path| - 1), path[0], d);
  }

  lemma SeenFromClosed(m: Moments, a: Vec, d: Vec)
    ensures SeenFrom(m, a, a, d) == About(m, d)
  {}

  // A triangle: twice its signed area, and that times three times its centroid.
  function Triangle(p: Vec, a: Vec, b: Vec): Moments {
    var twice := Cross(Minus(a, p), Minus(b, p));
    Moments(twice, (p.x + a.x + b.x) * twice, (p.y + a.y + b.y) * twice)
  }

  function Fan(apex: Vec, path: seq<Vec>, m: nat): Moments
    requires m < |path|
  {
    if m == 0 then NOTHING else Fan(apex, path, m - 1).Plus(Triangle(apex, path[m - 1], path[m]))
  }

  function MovedBack(m: Moments, p: Vec): Moments {
    Moments(m.cross, m.sx + 3.0 * p.x * m.cross, m.sy + 3.0 * p.y * m.cross)
  }

  lemma TriangleFromEdge(p: Vec, a: Vec, b: Vec)
    ensures Triangle(p, a, b) == MovedBack(EdgeMoments(Minus(a, p), Minus(b, p)), p)
  {}

  lemma MovedBackJoins(m: Moments, e: Moments, p: Vec)
    ensures MovedBack(m.Plus(e), p) == MovedBack(m, p).Plus(MovedBack(e, p))
  {
    TimesSum(3.0 * p.x, m.cross, e.cross, m.Plus(e).cross);
    TimesSum(3.0 * p.y, m.cross, e.cross, m.Plus(e).cross);
  }

  lemma TimesSum(k: real, c: real, c': real, sum: real)
    requires sum == c + c'
    ensures k * sum == k * c + k * c'
  {}

  lemma {:induction false} FanFromPath(apex: Vec, path: seq<Vec>, m: nat)
    requires m < |path|
    ensures Fan(apex, path, m) == MovedBack(PathMoments(Shifted(path, apex), m), apex)
  {
    hide EdgeMoments, Triangle, MovedBack, Minus, Moments.Plus;
    if m == 0 {
      MovedNothing(apex);
    } else {
      FanFromPath(apex, path, m - 1);
      TriangleFromEdge(apex, path[m - 1], path[m]);
      MovedBackJoins(PathMoments(Shifted(path, apex), m - 1),
          EdgeMoments(Minus(path[m - 1], apex), Minus(path[m], apex)), apex);
    }
  }

  lemma MovedNothing(p: Vec)
    ensures MovedBack(NOTHING, p) == NOTHING
  {}

  // The shoelace moments of a closed path are those of the triangles it forms with any point.
  lemma ShoelaceIsTriangles(apex: Vec, path: seq<Vec>)
    requires |path| > 0 && path[0] == path[|path| - 1]
    ensures PathMoments(path, |path| - 1) == Fan(apex, path, |path| - 1)
  {
    FanFromPath(apex, path, |path| - 1);
    ClosedPathAbout(path, apex);
    BackAndForth(PathMoments(path, |path| - 1), apex);
  }

  lemma BackAndForth(m: Moments, p: Vec)
    ensures MovedBack(About(m, p), p) == m
  {}

  function Backwards<T>(s: seq<T>): seq<T> {
    seq(|s|, i requires 0 <= i < |s| => s[|s| - 1 - i])
  }

  lemma {:induction false} PathBackwards(path: seq<Vec>, m: nat)
    requires m < |path|
    ensures PathMoments(Backwards(path), m).Plus(PathMoments(path, |path| - 1))
         == PathMoments(path, |path| - 1 - m)
  {
    hide EdgeMoments;
    if m > 0 {
      PathBackwards(path, m - 1);
      EdgeBackwards(path[|path| - m], path[|path| - 1 - m]);
    }
  }

  lemma EdgeBackwards(a: Vec, b: Vec)
    ensures EdgeMoments(a, b) == EdgeMoments(b, a).Negated()
  {}

  /******* Rings *******/

  // What a projection is made of: the platform's constants, the cosine factor and
  // the reference point.
  datatype Frame = Frame(radian: NonZero, factor: NonZero, origin: Point) {
    function Project(p: Point): Vec {
      Vec(EARTH_RADIUS_M * (radian * (p.lon - origin.lon)) * factor, EARTH_RADIUS_M * (radian * (p.lat - origin.lat)))
    }

    // Area, and the centroid in degrees.
    function Unproject(m: Moments): PolygonGeometry
      requires m.cross != 0.0
    {
      var signed := 0.5 * m.cross;
      PolygonGeometry(
        Coordinate(origin.lon, m.sx, signed, EARTH_RADIUS_M * factor, radian),
        Coordinate(origin.lat, m.sy, signed, EARTH_RADIUS_M, radian),
        if signed < 0.0 then -signed else signed)
    }
  }

  // From a moment and the signed area to degrees.
  function Coordinate(origin: real, moment: real, signed: real, scale: real, radian: NonZero): real
    requires signed != 0.0 && scale != 0.0
  {
    var projected := moment / (6.0 * signed);
    origin + projected / scale / radian
  }

  predicate Proper(ring: Ring) {
    |ring| >= 4
  }

  ghost predicate Closed(ring: Ring) {
    |ring| > 0 && ring[0] == ring[|ring| - 1]
  }

  // The projected vertices in order, back to the first. The repeated last point of
  // the ring is not looked at.
  function Outline(ring: Ring, f: Frame): (path: seq<Vec>)
    requires Proper(ring)
    ensures |path| == |ring| && path[0] == path[|path| - 1]
  {
    seq(|ring|, i requires 0 <= i < |ring| => f.Project(ring[if i == |ring| - 1 then 0 else i]))
  }

  function RingMoments(ring: Ring, f: Frame): Moments
    requires Proper(ring)
  {
    PathMoments(Outline(ring, f), |ring| - 1)
  }

  function TotalMoments(rings: seq<Ring>, f: Frame, k: nat): Moments
    requires k <= |rings| && forall i | 0 <= i < k :: Proper(rings[i])
  {
    if k == 0 then NOTHING else TotalMoments(rings, f, k - 1).Plus(RingMoments(rings[k - 1], f))
  }

  lemma NextIndex(i: nat, n: nat)
    requires i < n
    ensures (i + 1) % n == if i + 1 == n then 0 else i + 1
  {}

  method AddEdge(p: Vec, q: Vec, cross: real, sx: real, sy: real) returns (cross': real, sx': real, sy': real)
    ensures Moments(cross', sx', sy') == Moments(cross, sx, sy).Plus(EdgeMoments(p, q))
  {
    var edge := p.x * q.y - q.x * p.y;
    cross' := cross + edge;
    sx' := sx + (p.x + q.x) * edge;
    sy' := sy + (p.y + q.y) * edge;
  }

  method MeasureRing(ring: Ring, f: Frame) returns (r: Result<Moments, GeometryError>)
    ensures r == if Proper(ring) then Success(RingMoments(ring, f)) else Failure(ShortRing)
  {
    hide Frame.Project, EdgeMoments, Moments.Plus;
    if |ring| < 4 {
      return Failure(ShortRing);
    }
    var cross, sx, sy := 0.0, 0.0, 0.0;
    var n := |ring| - 1;
    ghost var path := Outline(ring, f);
    for i := 0 to n
      invariant Moments(cross, sx, sy) == PathMoments(path, i)
    {
      NextIndex(i, n);
      var p, q := f.Project(ring[i]), f.Project(ring[(i + 1) % n]);
      assert q == path[i + 1];
      assert p == path[i];
      cross, sx, sy := AddEdge(p, q, cross, sx, sy);
    }
    r := Success(Moments(cross, sx, sy));
  }

  method MeasureRings(rings: seq<Ring>, f: Frame) returns (r: Result<Moments, GeometryError>)
    ensures r.Success? <==> forall ring | ring in rings :: Proper(ring)
    ensures r.Success? ==>
              (forall i | 0 <= i < |rings| :: Proper(rings[i])) && r.value == TotalMoments(rings, f, |rings|)
    ensures r.Failure? ==> r.error == ShortRing
  {
    var total := NOTHING;
    for i := 0 to |rings|
      invariant forall j | 0 <= j < i :: Proper(rings[j])
      invariant total == TotalMoments(rings, f, i)
    {
      assert rings[i] in rings;
      var m := MeasureRing(rings[i], f);
      if m.Failure? {
        return Failure(m.error);
      }
      total := total.Plus(m.value);
    }
    r := Success(total);
  }

  /******* The reference point *******/

  function SumLon(ring: Ring, k: nat): real
    requires k <= |ring|
  {
    if k == 0 then 0.0 else SumLon(ring, k - 1) + ring[k - 1].lon
  }

  function SumLat(ring: Ring, k: nat): real
    requires k <= |ring|
  {
    if k == 0 then 0.0 else SumLat(ring, k - 1) + ring[k - 1].lat
  }

  function Mean(sum: real, n: nat): real {
    sum / (if n < 1 then 1 else n) as real
  }

  // The mean of the outer ring's vertices, the repeated one left out.
  function ReferencePoint(ring: Ring): Point {
    var n := if |ring| == 0 then 0 else |ring| - 1;
    Point(Mean(SumLon(ring, n), n), Mean(SumLat(ring, n), n))
  }

  function Radians(degrees: real, radian: NonZero): (angle: real)
    ensures angle == radian * degrees
  {
    radian * degrees
  }

  function CosineAt(lat: real, trig: Trigonometry): real {
    trig.cos(Radians(lat, trig.radian))
  }

  // A cosine too small to divide by is replaced.
  function FrameAround(origin: Point, trig: Trigonometry): Frame {
    var cos := CosineAt(origin.lat, trig);
    Frame(trig.radian, if cos >= 0.000000000001 || cos <= -0.000000000001 then cos else 0.000000000001, origin)
  }

  function ReferenceFrame(rings: seq<Ring>, trig: Trigonometry): Frame
    requires rings != []
  {
    FrameAround(ReferencePoint(rings[0]), trig)
  }

  // What a list of rings measures in a given frame; a shape without area has its
  // centroid at the frame's own origin.
  function Measured(rings: seq<Ring>, f: Frame): PolygonGeometry
    requires forall i | 0 <= i < |rings| :: Proper(rings[i])
  {
    var m := TotalMoments(rings, f, |rings|);
    if m.cross == 0.0 then PolygonGeometry(f.origin.lon, f.origin.lat, 0.0) else f.Unproject(m)
  }

  function Joined(parts: seq<seq<Ring>>, k: nat): seq<Ring>
    requires k <= |parts|
  {
    if k == 0 then [] else Joined(parts, k - 1) + parts[k - 1]
  }

  function RingsOf(geom: GeoJson): Result<seq<Ring>, GeometryError> {
    match geom
    case MissingCoordinates => Failure(NoCoordinates)
    case Polygon(rings) => Success(rings)
    case MultiPolygon(parts) => Success(Joined(parts, |parts|))
    case OtherType => Failure(UnsupportedType)
  }

  // How many rings the parts before the k-th have.
  function RingsBefore(parts: seq<seq<Ring>>, k: nat): nat
    requires k <= |parts|
  {
    if k == 0 then 0 else RingsBefore(parts, k - 1) + |parts[k - 1]|
  }

  // The j-th ring of part i comes after those of the parts before and its own first j.
  ghost predicate InPlace(rings: seq<Ring>, parts: seq<seq<Ring>>, i: nat, j: nat) {
    && i < |parts| && j < |parts[i]|
    && RingsBefore(parts, i) + j < |rings| && rings[RingsBefore(parts, i) + j] == parts[i][j]
  }

  ghost predicate FromPart(rings: seq<Ring>, parts: seq<seq<Ring>>, k: nat, p: nat) {
    exists i: nat, j: nat :: i < k && InPlace(rings, parts, i, j) && p == RingsBefore(parts, i) + j
  }

  // The rings of the first k parts, each in its place and none besides.
  ghost predicate InOrder(rings: seq<Ring>, parts: seq<seq<Ring>>, k: nat)
    requires k <= |parts|
  {
    && (forall i: nat, j: nat | i < k && j < |parts[i]| :: InPlace(rings, parts, i, j))
    && forall p: nat | p < |rings| :: FromPart(rings, parts, k, p)
  }

  lemma {:induction false} JoinedLength(parts: seq<seq<Ring>>, k: nat)
    requires k <= |parts|
    ensures |Joined(parts, k)| == RingsBefore(parts, k)
  {
    if k > 0 {
      JoinedLength(parts, k - 1);
    }
  }

  lemma {:induction false} PartsInOrder(parts: seq<seq<Ring>>, k: nat)
    requires k <= |parts|
    ensures InOrder(Joined(parts, k), parts, k)
  {
    if k > 0 {
      var front, rings := Joined(parts, k - 1), Joined(parts, k);
      PartsInOrder(parts, k - 1);
      JoinedLength(parts, k - 1);
      forall i: nat, j: nat | i < k && j < |parts[i]|
        ensures InPlace(rings, parts, i, j)
      {
        assert i < k - 1 ==> InPlace(front, parts, i, j);
      }
      forall p: nat | p < |rings|
        ensures FromPart(rings, parts, k, p)
      {
        if p < |front| {
          assert FromPart(front, parts, k - 1, p);
          var i: nat, j: nat :| i < k - 1 && InPlace(front, parts, i, j) && p == RingsBefore(parts, i) + j;
          assert InPlace(rings, parts, i, j);
        } else {
          assert InPlace(rings, parts, k - 1, p - |front|);
        }
      }
    }
  }

  // The rings of a polygon, or of every part of a multipolygon in order: ring j of part i
  // comes right after the rings of the parts before i and the j rings before it.
  method Rings(geom: GeoJson) returns (r: Result<seq<Ring>, GeometryError>)
    ensures r == RingsOf(geom)
    ensures r.Success? <==> geom.Polygon? || geom.MultiPolygon?
    ensures geom.MultiPolygon? ==> InOrder(r.value, geom.parts, |geom.parts|)
  {
    match geom {
      case MissingCoordinates => r := Failure(NoCoordinates);
      case Polygon(rings) => r := Success(rings);
      case MultiPolygon(parts) =>
        var out: seq<Ring> := [];
        for i := 0 to |parts|
          invariant out == Joined(parts, i)
        {
          out := out + parts[i];
        }
        PartsInOrder(parts, |parts|);
        r := Success(out);
      case OtherType => r := Failure(UnsupportedType);
    }
  }

  predicate Measurable(geom: GeoJson) {
    var rings := RingsOf(geom);
    rings.Success? && rings.value != [] && forall i | 0 <= i < |rings.value| :: Proper(rings.value[i])
  }

  /******* The reference point does not matter *******/

  function At(f: Frame, origin: Point): Frame {
    f.(origin := origin)
  }

  lemma ProjectAt(f: Frame, origin: Point, p: Point)
    ensures At(f, origin).Project(p) == Minus(f.Project(p), f.Project(origin))
  {}

  lemma RingAt(ring: Ring, f: Frame, origin: Point)
    requires Proper(ring)
    ensures RingMoments(ring, At(f, origin)) == About(RingMoments(ring, f), f.Project(origin))
  {
    hide Frame.Project, Minus, About;
    var path, d := Outline(ring, f), f.Project(origin);
    forall i | 0 <= i < |path|
      ensures Outline(ring, At(f, origin))[i] == Minus(path[i], d)
    {
      ProjectAt(f, origin, ring[if i == |ring| - 1 then 0 else i]);
    }
    assert Outline(ring, At(f, origin)) == Shifted(path, d);
    ClosedPathAbout(path, d);
  }

  lemma AboutJoins(m: Moments, e: Moments, d: Vec)
    ensures About(m.Plus(e), d) == About(m, d).Plus(About(e, d))
  {
    TimesSum(3.0 * d.x, m.cross, e.cross, m.Plus(e).cross);
    TimesSum(3.0 * d.y, m.cross, e.cross, m.Plus(e).cross);
  }

  // The same for any list of rings, holes among them.
  lemma {:induction false} TotalAt(rings: seq<Ring>, f: Frame, origin: Point, k: nat)
    requires k <= |rings| && forall i | 0 <= i < k :: Proper(rings[i])
    ensures TotalMoments(rings, At(f, origin), k) == About(TotalMoments(rings, f, k), f.Project(origin))
  {
    hide RingMoments, Frame.Project, At;
    if k > 0 {
      TotalAt(rings, f, origin, k - 1);
      RingAt(rings[k - 1], f, origin);
      AboutJoins(TotalMoments(rings, f, k - 1), RingMoments(rings[k - 1], f), f.Project(origin));
    }
  }

  lemma Divided(x: real, q: real, t: real)
    requires t != 0.0 && x == q * t
    ensures x / t == q
  {}

  lemma QuotientAbout(s: real, shift: real, t: real, moved: real)
    requires t != 0.0 && moved == s - shift * t
    ensures moved / t == s / t - shift
  {
    var q := s / t;
    assert q * t == s;
    TimesSum(t, q - shift, shift, q);
    Divided(moved, q - shift, t);
  }

  // One coordinate of the centroid, read back in the moved frame.
  lemma CoordinateAbout(moment: real, moved: real, signed: real, scale: real, radian: NonZero, from: real, to: real,
                        shift: real)
    requires signed != 0.0 && scale != 0.0 && shift == scale * (radian * (to - from))
    requires moved == moment - shift * (6.0 * signed)
    ensures Coordinate(to, moved, signed, scale, radian) == Coordinate(from, moment, signed, scale, radian)
  {
    var degrees, t := to - from, 6.0 * signed;
    var c, c' := moment / t, moved / t;
    QuotientAbout(moment, shift, t, moved);
    assert c' == c - shift;
    QuotientAbout(c, radian * degrees, scale, c');
    QuotientAbout(c / scale, degrees, radian, c' / scale);
  }

  lemma UnprojectAt(f: Frame, origin: Point, m: Moments)
    requires m.cross != 0.0
    ensures At(f, origin).Unproject(About(m, f.Project(origin))) == f.Unproject(m)
  {
    hide Coordinate, Frame.Project, About;
    var d := f.Project(origin);
    var there := About(m, d);
    ProjectedShift(f, origin);
    AboutIs(m, d);
    CoordinateAbout(m.sx, there.sx, 0.5 * m.cross, EARTH_RADIUS_M * f.factor, f.radian, f.origin.lon, origin.lon, d.x);
    CoordinateAbout(m.sy, there.sy, 0.5 * m.cross, EARTH_RADIUS_M, f.radian, f.origin.lat, origin.lat, d.y);
  }

  lemma AboutIs(m: Moments, d: Vec)
    ensures About(m, d).cross == m.cross
    ensures About(m, d).sx == m.sx - d.x * (6.0 * (0.5 * m.cross))
    ensures About(m, d).sy == m.sy - d.y * (6.0 * (0.5 * m.cross))
  {}

  lemma ProjectedShift(f: Frame, origin: Point)
    ensures f.Project(origin).x == EARTH_RADIUS_M * f.factor * (f.radian * (origin.lon - f.origin.lon))
    ensures f.Project(origin).y == EARTH_RADIUS_M * (f.radian * (origin.lat - f.origin.lat))
  {}

  // With area, both area and centroid are the same whatever the frame's origin.
  lemma OriginDoesNotMatter(rings: seq<Ring>, f: Frame, origin: Point)
    requires forall i | 0 <= i < |rings| :: Proper(rings[i])
    requires TotalMoments(rings, f, |rings|).cross != 0.0
    ensures Measured(rings, At(f, origin)) == Measured(rings, f)
  {
    hide Frame.Unproject, Frame.Project;
    TotalAt(rings, f, origin, |rings|);
    UnprojectAt(f, origin, TotalMoments(rings, f, |rings|));
  }

  // And whether there is area does not depend on the origin either.
  lemma AreaIsOriginFree(rings: seq<Ring>, f: Frame, origin: Point)
    requires forall i | 0 <= i < |rings| :: Proper(rings[i])
    ensures Measured(rings, At(f, origin)).area == Measured(rings, f).area
  {
    TotalAt(rings, f, origin, |rings|);
  }

  /******* Ring direction does not matter *******/

  lemma OutlineBackwards(ring: Ring, f: Frame)
    requires Proper(ring) && Closed(ring)
    ensures Outline(Backwards(ring), f) == Backwards(Outline(ring, f))
  {}

  lemma RingBackwards(ring: Ring, f: Frame)
    requires Proper(ring) && Closed(ring)
    ensures RingMoments(Backwards(ring), f) == RingMoments(ring, f).Negated()
  {
    OutlineBackwards(ring, f);
    PathBackwards(Outline(ring, f), |ring| - 1);
  }

  function AllBackwards(rings: seq<Ring>): (turned: seq<Ring>)
    ensures |turned| == |rings| && forall i | 0 <= i < |rings| :: turned[i] == Backwards(rings[i])
  {
    seq(|rings|, i requires 0 <= i < |rings| => Backwards(rings[i]))
  }

  lemma {:induction false} TotalBackwards(rings: seq<Ring>, f: Frame, k: nat)
    requires k <= |rings| && forall i | 0 <= i < |rings| :: Proper(rings[i]) && Closed(rings[i])
    ensures forall i | 0 <= i < |rings| :: Proper(AllBackwards(rings)[i])
    ensures TotalMoments(AllBackwards(rings), f, k) == TotalMoments(rings, f, k).Negated()
  {
    hide RingMoments;
    if k > 0 {
      TotalBackwards(rings, f, k - 1);
      RingBackwards(rings[k - 1], f);
    }
  }

  lemma {:induction false} SumsBackwards(ring: Ring, k: nat)
    requires k <= |ring|
    ensures SumLon(Backwards(ring), k) + SumLon(ring, |ring| - k) == SumLon(ring, |ring|)
    ensures SumLat(Backwards(ring), k) + SumLat(ring, |ring| - k) == SumLat(ring, |ring|)
  {
    if k > 0 {
      SumsBackwards(ring, k - 1);
    }
  }

  lemma ReferenceBackwards(ring: Ring)
    requires Closed(ring)
    ensures ReferencePoint(Backwards(ring)) == ReferencePoint(ring)
  {
    SumsBackwards(ring, |ring| - 1);
    assert SumLon(ring, 1) == SumLon(ring, 0) + ring[0].lon;
    assert SumLat(ring, 1) == SumLat(ring, 0) + ring[0].lat;
  }

  lemma UnprojectNegated(f: Frame, m: Moments)
    requires m.cross != 0.0
    ensures f.Unproject(m.Negated()) == f.Unproject(m)
  {
    QuotientNegated(m.sx, 6.0 * (0.5 * m.cross));
    QuotientNegated(m.sy, 6.0 * (0.5 * m.cross));
  }

  lemma QuotientNegated(s: real, t: real)
    requires t != 0.0
    ensures (-s) / (-t) == s / t
  {}

  // Turning every ring around changes neither area nor centroid, degenerate shapes included.
  lemma DirectionDoesNotMatter(rings: seq<Ring>, trig: Trigonometry)
    requires rings != [] && forall i | 0 <= i < |rings| :: Proper(rings[i]) && Closed(rings[i])
    ensures forall i | 0 <= i < |rings| :: Proper(AllBackwards(rings)[i])
    ensures Measured(AllBackwards(rings), ReferenceFrame(AllBackwards(rings), trig)) ==
              Measured(rings, ReferenceFrame(rings, trig))
  {
    hide Frame.Unproject, TotalMoments;
    var f := ReferenceFrame(rings, trig);
    ReferenceBackwards(rings[0]);
    var turned := AllBackwards(rings);
    assert turned[0] == Backwards(rings[0]);
    assert ReferenceFrame(turned, trig) == f;
    TotalBackwards(rings, f, |rings|);
    if TotalMoments(rings, f, |rings|).cross != 0.0 {
      UnprojectNegated(f, TotalMoments(rings, f, |rings|));
    }
  }

  /******* Cutting into triangles *******/

  // The signed triangles that every edge of every ring forms with one point.
  function Triangles(apex: Vec, rings: seq<Ring>, f: Frame, k: nat): Moments
    requires k <= |rings| && forall i | 0 <= i < k :: Proper(rings[i])
  {
    if k == 0 then NOTHING
    else Triangles(apex, rings, f, k - 1).Plus(Fan(apex, Outline(rings[k - 1], f), |rings[k - 1]| - 1))
  }

  // The area is the absolute sum of signed triangle areas, and the centroid the mean
  // of the triangles' centroids weighted by them, whatever point they share.
  lemma {:induction false} AreaIsTriangles(apex: Vec, rings: seq<Ring>, f: Frame, k: nat)
    requires k <= |rings| && forall i | 0 <= i < k :: Proper(rings[i])
    ensures TotalMoments(rings, f, k) == Triangles(apex, rings, f, k)
  {
    if k > 0 {
      AreaIsTriangles(apex, rings, f, k - 1);
      ShoelaceIsTriangles(apex, Outline(rings[k - 1], f));
    }
  }

  ghost function Absolute(x: real): real {
    if x < 0.0 then -x else x
  }

  // The signed area of a triangle, and that times the mean of its corners.
  ghost function SignedArea(p: Vec, a: Vec, b: Vec): real {
    0.5 * ((a.x - p.x) * (b.y - p.y) - (b.x - p.x) * (a.y - p.y))
  }

  ghost function Lever(p: Vec, a: Vec, b: Vec): Vec {
    var area := SignedArea(p, a, b);
    Vec(area * ((p.x + a.x + b.x) / 3.0), area * ((p.y + a.y + b.y) / 3.0))
  }

  // Their sums over the first m edges of a path, and over all edges of the first k rings.
  ghost function FanArea(apex: Vec, path: seq<Vec>, m: nat): real
    requires m < |path|
  {
    if m == 0 then 0.0 else FanArea(apex, path, m - 1) + SignedArea(apex, path[m - 1], path[m])
  }

  ghost function FanLever(apex: Vec, path: seq<Vec>, m: nat): Vec
    requires m < |path|
  {
    if m == 0 then Vec(0.0, 0.0)
    else
      var before, last := FanLever(apex, path, m - 1), Lever(apex, path[m - 1], path[m]);
      Vec(before.x + last.x, before.y + last.y)
  }

  ghost function RingsArea(apex: Vec, rings: seq<Ring>, f: Frame, k: nat): real
    requires k <= |rings| && forall i | 0 <= i < k :: Proper(rings[i])
  {
    if k == 0 then 0.0
    else RingsArea(apex, rings, f, k - 1) + FanArea(apex, Outline(rings[k - 1], f), |rings[k - 1]| - 1)
  }

  ghost function RingsLever(apex: Vec, rings: seq<Ring>, f: Frame, k: nat): Vec
    requires k <= |rings| && forall i | 0 <= i < k :: Proper(rings[i])
  {
    if k == 0 then Vec(0.0, 0.0)
    else
      var before := RingsLever(apex, rings, f, k - 1);
      var last := FanLever(apex, Outline(rings[k - 1], f), |rings[k - 1]| - 1);
      Vec(before.x + last.x, before.y + last.y)
  }

  // An area and centroid that agree with the triangles about one point; without area the
  // centroid is the reference point.
  ghost predicate Weighs(g: PolygonGeometry, apex: Vec, rings: seq<Ring>, f: Frame) {
    && (forall i | 0 <= i < |rings| :: Proper(rings[i]))
    && var area, lever := RingsArea(apex, rings, f, |rings|), RingsLever(apex, rings, f, |rings|);
       && g.area == Absolute(area)
       && (area == 0.0 ==> Point(g.lon, g.lat) == f.origin)
       && (area != 0.0 ==>
             && f.Project(Point(g.lon, g.lat)).x * area == lever.x
             && f.Project(Point(g.lon, g.lat)).y * area == lever.y)
  }

  lemma TriangleWeighs(p: Vec, a: Vec, b: Vec)
    ensures Triangle(p, a, b)
         == Moments(2.0 * SignedArea(p, a, b), 6.0 * Lever(p, a, b).x, 6.0 * Lever(p, a, b).y)
  {
    var twice, area := Cross(Minus(a, p), Minus(b, p)), SignedArea(p, a, b);
    assert twice == 2.0 * area;
    SixTimes(area, p.x + a.x + b.x);
    SixTimes(area, p.y + a.y + b.y);
  }

  lemma SixTimes(area: real, sum: real)
    ensures sum * (2.0 * area) == 6.0 * (area * (sum / 3.0))
  {
    var third := sum / 3.0;
    assert sum == 3.0 * third;
  }

  lemma {:induction false} FanWeighs(apex: Vec, path: seq<Vec>, m: nat)
    requires m < |path|
    ensures Fan(apex, path, m)
         == Moments(2.0 * FanArea(apex, path, m), 6.0 * FanLever(apex, path, m).x, 6.0 * FanLever(apex, path, m).y)
  {
    hide Triangle, SignedArea, Lever;
    if m > 0 {
      FanWeighs(apex, path, m - 1);
      TriangleWeighs(apex, path[m - 1], path[m]);
    }
  }

  lemma {:induction false} RingsWeigh(apex: Vec, rings: seq<Ring>, f: Frame, k: nat)
    requires k <= |rings| && forall i | 0 <= i < k :: Proper(rings[i])
    ensures Triangles(apex, rings, f, k)
         == Moments(2.0 * RingsArea(apex, rings, f, k), 6.0 * RingsLever(apex, rings, f, k).x,
                    6.0 * RingsLever(apex, rings, f, k).y)
  {
    hide Fan, FanArea, FanLever;
    if k > 0 {
      RingsWeigh(apex, rings, f, k - 1);
      FanWeighs(apex, Outline(rings[k - 1], f), |rings[k - 1]| - 1);
    }
  }

  // One coordinate of the centroid, projected again, times the signed area.
  lemma CoordinateWeighs(origin: real, moment: real, signed: real, scale: real, radian: NonZero, lever: real)
    requires signed != 0.0 && scale != 0.0 && moment == 6.0 * lever
    ensures scale * (radian * (Coordinate(origin, moment, signed, scale, radian) - origin)) * signed == lever
  {
    var projected := moment / (6.0 * signed);
    var q := projected / scale;
    var degrees := q / radian;
    assert Coordinate(origin, moment, signed, scale, radian) - origin == degrees;
    assert radian * degrees == q;
    assert scale * q == projected;
    assert projected * (6.0 * signed) == moment;
    assert projected * signed == lever by {
      assert 6.0 * (projected * signed) == projected * (6.0 * signed);
    }
  }

  lemma ProjectIs(f: Frame, p: Point)
    ensures f.Project(p).x == EARTH_RADIUS_M * f.factor * (f.radian * (p.lon - f.origin.lon))
    ensures f.Project(p).y == EARTH_RADIUS_M * (f.radian * (p.lat - f.origin.lat))
  {}

  lemma UnprojectWeighs(f: Frame, m: Moments, area: real, lever: Vec)
    requires m == Moments(2.0 * area, 6.0 * lever.x, 6.0 * lever.y) && area != 0.0
    ensures var g := f.Unproject(m);
            && g.area == Absolute(area)
            && f.Project(Point(g.lon, g.lat)).x * area == lever.x
            && f.Project(Point(g.lon, g.lat)).y * area == lever.y
  {
    hide Frame.Project, Coordinate;
    var g := f.Unproject(m);
    assert 0.5 * m.cross == area;
    ProjectIs(f, Point(g.lon, g.lat));
    CoordinateWeighs(f.origin.lon, m.sx, area, EARTH_RADIUS_M * f.factor, f.radian, lever.x);
    CoordinateWeighs(f.origin.lat, m.sy, area, EARTH_RADIUS_M, f.radian, lever.y);
  }

  lemma MeasuredWeighs(rings: seq<Ring>, f: Frame)
    requires forall i | 0 <= i < |rings| :: Proper(rings[i])
    ensures forall apex: Vec :: Weighs(Measured(rings, f), apex, rings, f)
  {
    hide Frame.Unproject, Frame.Project, RingsArea, RingsLever, TotalMoments, Triangles;
    forall apex: Vec ensures Weighs(Measured(rings, f), apex, rings, f) {
      AreaIsTriangles(apex, rings, f, |rings|);
      RingsWeigh(apex, rings, f, |rings|);
      var area := RingsArea(apex, rings, f, |rings|);
      if area != 0.0 {
        UnprojectWeighs(f, TotalMoments(rings, f, |rings|), area, RingsLever(apex, rings, f, |rings|));
      }
    }
  }

  // The sum of the vertices from the i-th on, the repeated last one left out.
  ghost function VerticesFrom(ring: Ring, i: nat): Vec
    decreases |ring| - i
  {
    if i + 1 >= |ring| then Vec(0.0, 0.0)
    else Vec(ring[i].lon + VerticesFrom(ring, i + 1).x, ring[i].lat + VerticesFrom(ring, i + 1).y)
  }

  // The origin is the mean vertex of the first ring, and the factor the cosine of its
  // latitude, or what stands in for one too small.
  ghost predicate IsFrame(f: Frame, ring: Ring, trig: Trigonometry) {
    && |ring| >= 4 && f.radian == trig.radian
    && f.origin.lon * (|ring| - 1) as real == VerticesFrom(ring, 0).x
    && f.origin.lat * (|ring| - 1) as real == VerticesFrom(ring, 0).y
    && var cos := trig.cos(Radians(f.origin.lat, trig.radian));
    f.factor == if Absolute(cos) >= 0.000000000001 then cos else 0.000000000001
  }

  lemma {:induction false} SumsFrom(ring: Ring, k: nat)
    requires k < |ring|
    ensures SumLon(ring, k) + VerticesFrom(ring, k).x == VerticesFrom(ring, 0).x
    ensures SumLat(ring, k) + VerticesFrom(ring, k).y == VerticesFrom(ring, 0).y
  {
    if k > 0 {
      SumsFrom(ring, k - 1);
    }
  }

  lemma MeanTimes(mean: real, sum: real, n: int, total: real)
    requires n > 0 && mean == Mean(sum, n) && sum == total
    ensures mean * n as real == total
  {}

  lemma FrameIs(rings: seq<Ring>, trig: Trigonometry)
    requires rings != [] && Proper(rings[0])
    ensures IsFrame(ReferenceFrame(rings, trig), rings[0], trig)
  {
    hide Mean;
    var ring, n := rings[0], |rings[0]| - 1;
    SumsFrom(ring, n);
    var f := ReferenceFrame(rings, trig);
    MeanTimes(f.origin.lon, SumLon(ring, n), |ring| - 1, VerticesFrom(ring, 0).x);
    MeanTimes(f.origin.lat, SumLat(ring, n), |ring| - 1, VerticesFrom(ring, 0).y);
    FrameIsAround(ReferencePoint(ring), trig);
  }

  // The area, whatever point the triangles share, is the absolute sum of their signed
  // areas, and the centroid is the mean of theirs weighted by them.
  method ComputePolygonGeometry(geom: GeoJson, trig: Trigonometry) returns (r: Result<PolygonGeometry, GeometryError>)
    ensures r.Success? <==> Measurable(geom)
    ensures r.Success? ==> r.value == Measured(RingsOf(geom).value, ReferenceFrame(RingsOf(geom).value, trig))
    ensures r.Success? ==>
              var rings, f := RingsOf(geom).value, ReferenceFrame(RingsOf(geom).value, trig);
              IsFrame(f, rings[0], trig) && forall apex: Vec :: Weighs(r.value, apex, rings, f)
  {
    var found := Rings(geom);
    if found.Failure? {
      return Failure(found.error);
    }
    var rings := found.value;
    if rings == [] {
      return Failure(NoRings);
    }
    var f := ReferenceFrame(rings, trig);
    var total := MeasureRings(rings, f);
    if total.Failure? {
      return Failure(total.error);
    }
    MeasuredWeighs(rings, f);
    FrameIs(rings, trig);
    if 0.5 * total.value.cross == 0.0 {
      return Success(PolygonGeometry(f.origin.lon, f.origin.lat, 0.0));
    }
    r := Success(f.Unproject(total.value));
  }

  /******* Rectangles *******/

  function Rectangle(corner: Point, dlon: real, dlat: real): Ring {
    [corner, Point(corner.lon + dlon, corner.lat), Point(corner.lon + dlon, corner.lat + dlat),
     Point(corner.lon, corner.lat + dlat), corner]
  }

  lemma RectangleReference(corner: Point, dlon: real, dlat: real)
    ensures ReferencePoint(Rectangle(corner, dlon, dlat)) == Point(corner.lon + dlon / 2.0, corner.lat + dlat / 2.0)
  {
    var ring := Rectangle(corner, dlon, dlat);
    assert SumLon(ring, 1) == corner.lon && SumLat(ring, 1) == corner.lat;
    assert SumLon(ring, 2) == 2.0 * corner.lon + dlon && SumLat(ring, 2) == 2.0 * corner.lat;
    assert SumLon(ring, 3) == 3.0 * corner.lon + 2.0 * dlon && SumLat(ring, 3) == 3.0 * corner.lat + dlat;
    assert SumLon(ring, 4) == 4.0 * corner.lon + 2.0 * dlon && SumLat(ring, 4) == 4.0 * corner.lat + 2.0 * dlat;
  }

  // Around its middle: half a width to either side, half a height up and down.
  lemma RectangleMoments(path: seq<Vec>, w: real, h: real)
    requires |path| == 5 && path[0] == path[4] == Vec(-w, -h)
    requires path[1] == Vec(w, -h) && path[2] == Vec(w, h) && path[3] == Vec(-w, h)
    ensures PathMoments(path, 4) == Moments(8.0 * (w * h), 0.0, 0.0)
  {
    hide EdgeMoments;
    RectangleEdges(w, h);
    assert PathMoments(path, 1) == EdgeMoments(path[0], path[1]);
    assert PathMoments(path, 2) == PathMoments(path, 1).Plus(EdgeMoments(path[1], path[2]));
    assert PathMoments(path, 3) == PathMoments(path, 2).Plus(EdgeMoments(path[2], path[3]));
  }

  lemma EdgeAlong(w: real, h: real, wh: real)
    requires wh == w * h
    ensures EdgeMoments(Vec(-w, -h), Vec(w, -h)) == Moments(2.0 * wh, 0.0, -2.0 * h * (2.0 * wh))
  {}

  lemma EdgeUp(w: real, h: real, wh: real)
    requires wh == w * h
    ensures EdgeMoments(Vec(w, -h), Vec(w, h)) == Moments(2.0 * wh, 2.0 * w * (2.0 * wh), 0.0)
  {}

  lemma RectangleEdges(w: real, h: real)
    ensures EdgeMoments(Vec(-w, -h), Vec(w, -h)) == Moments(2.0 * (w * h), 0.0, -2.0 * h * (2.0 * (w * h)))
    ensures EdgeMoments(Vec(w, -h), Vec(w, h)) == Moments(2.0 * (w * h), 2.0 * w * (2.0 * (w * h)), 0.0)
    ensures EdgeMoments(Vec(w, h), Vec(-w, h)) == Moments(2.0 * (w * h), 0.0, 2.0 * h * (2.0 * (w * h)))
    ensures EdgeMoments(Vec(-w, h), Vec(-w, -h)) == Moments(2.0 * (w * h), -2.0 * w * (2.0 * (w * h)), 0.0)
  {
    hide EdgeMoments;
    EdgeAlong(w, h, w * h);
    EdgeUp(w, h, w * h);
    EdgeAlong(-w, -h, w * h);
    EdgeUp(-w, -h, w * h);
    assert -(-w) == w && -(-h) == h;
  }

  // What a frame around the middle makes of its sides.
  lemma RectangleOutline(corner: Point, dlon: real, dlat: real, f: Frame, w: real, h: real)
    requires f.origin == Point(corner.lon + dlon / 2.0, corner.lat + dlat / 2.0)
    requires w == EARTH_RADIUS_M * f.factor * (f.radian * (dlon / 2.0))
    requires h == EARTH_RADIUS_M * (f.radian * (dlat / 2.0))
    ensures Outline(Rectangle(corner, dlon, dlat), f) == [Vec(-w, -h), Vec(w, -h), Vec(w, h), Vec(-w, h), Vec(-w, -h)]
  {
    hide Frame.Project;
    var ring := Rectangle(corner, dlon, dlat);
    forall i | 0 <= i < 5
      ensures f.Project(ring[i]) == [Vec(-w, -h), Vec(w, -h), Vec(w, h), Vec(-w, h), Vec(-w, -h)][i]
    {
      ProjectIs(f, ring[i]);
      MirrorTimes(EARTH_RADIUS_M * f.factor, f.radian, dlon / 2.0, ring[i].lon - f.origin.lon);
      MirrorTimes(EARTH_RADIUS_M, f.radian, dlat / 2.0, ring[i].lat - f.origin.lat);
    }
  }

  lemma MirrorTimes(scale: real, radian: real, half: real, offset: real)
    requires offset == half || offset == -half
    ensures scale * (radian * offset) == if offset == half then scale * (radian * half) else -(scale * (radian * half))
  {}

  lemma RectangleTotal(corner: Point, dlon: real, dlat: real, f: Frame, w: real, h: real)
    requires f.origin == Point(corner.lon + dlon / 2.0, corner.lat + dlat / 2.0)
    requires w == EARTH_RADIUS_M * f.factor * (f.radian * (dlon / 2.0))
    requires h == EARTH_RADIUS_M * (f.radian * (dlat / 2.0))
    ensures TotalMoments([Rectangle(corner, dlon, dlat)], f, 1) == Moments(8.0 * (w * h), 0.0, 0.0)
  {
    hide Outline, PathMoments;
    var ring := Rectangle(corner, dlon, dlat);
    RectangleOutline(corner, dlon, dlat, f, w, h);
    RectangleMoments(Outline(ring, f), w, h);
    assert TotalMoments([ring], f, 0) == NOTHING;
  }

  // The cosine of the reference latitude, or what stands in for one too small.
  lemma FrameIsAround(p: Point, trig: Trigonometry)
    ensures var f, cos := FrameAround(p, trig), trig.cos(Radians(p.lat, trig.radian));
            && f.origin == p && f.radian == trig.radian
            && f.factor == if Absolute(cos) >= 0.000000000001 then cos else 0.000000000001
  {}

  lemma CentredUnproject(f: Frame, area: real)
    requires area != 0.0
    ensures f.Unproject(Moments(2.0 * area, 0.0, 0.0)) == PolygonGeometry(f.origin.lon, f.origin.lat, Absolute(area))
  {}

  // Half a width times half a height, four times.
  lemma Sides(scale: real, factor: real, radian: real, x: real, y: real, w: real, h: real, k: real)
    requires w == scale * factor * (radian * (x / 2.0)) && h == scale * (radian * (y / 2.0)) && k == scale * radian
    ensures 4.0 * (w * h) == k * k * factor * (x * y)
  {
    var a, b := x / 2.0, y / 2.0;
    Regroup(scale, factor, radian, a);
    Regroup(scale, 1.0, radian, b);
    assert h == k * b;
    ProductOfSides(k, factor, a, b, w, h);
    Quarter(x, y, a, b, k * k * factor, w * h);
  }

  lemma Regroup(scale: real, factor: real, radian: real, a: real)
    ensures scale * factor * (radian * a) == scale * radian * factor * a
  {}

  lemma ProductOfSides(k: real, factor: real, a: real, b: real, w: real, h: real)
    requires w == k * factor * a && h == k * b
    ensures w * h == k * k * factor * (a * b)
  {
    assert w * h == (k * factor * a) * (k * b);
  }

  lemma Quarter(x: real, y: real, a: real, b: real, c: real, wh: real)
    requires x == 2.0 * a && y == 2.0 * b && wh == c * (a * b)
    ensures 4.0 * wh == c * (x * y)
  {
    assert x * y == 4.0 * (a * b);
    assert c * (x * y) == c * (4.0 * (a * b));
  }

  lemma AbsoluteTimes(x: real, y: real, xy: real)
    requires xy == x * y
    ensures Absolute(xy) == Absolute(x) * Absolute(y)
  {}

  lemma AbsoluteArea(k: real, factor: real, x: real, y: real, area: real)
    requires area == k * k * factor * (x * y)
    ensures Absolute(area) == k * k * Absolute(factor) * (Absolute(x) * Absolute(y))
  {
    hide Absolute;
    var square, xy := k * k, x * y;
    var scaled := square * factor;
    SquareIsPositive(k, square);
    AbsoluteTimes(x, y, xy);
    AbsoluteTimes(square, factor, scaled);
    AbsoluteTimes(scaled, xy, area);
  }

  lemma SquareIsPositive(k: real, square: real)
    requires square == k * k
    ensures Absolute(square) == square
  {}

  lemma RectangleMeasures(corner: Point, dlon: real, dlat: real, f: Frame)
    requires f.origin == Point(corner.lon + dlon / 2.0, corner.lat + dlat / 2.0)
    ensures var k := EARTH_RADIUS_M * f.radian;
            Measured([Rectangle(corner, dlon, dlat)], f)
            == PolygonGeometry(f.origin.lon, f.origin.lat,
                               k * k * Absolute(f.factor) * (Absolute(dlon) * Absolute(dlat)))
  {
    hide Frame.Unproject, TotalMoments, Absolute;
    var w := EARTH_RADIUS_M * f.factor * (f.radian * (dlon / 2.0));
    var h := EARTH_RADIUS_M * (f.radian * (dlat / 2.0));
    var k, area := EARTH_RADIUS_M * f.radian, 4.0 * (w * h);
    RectangleTotal(corner, dlon, dlat, f, w, h);
    Sides(EARTH_RADIUS_M, f.factor, f.radian, dlon, dlat, w, h, k);
    assert area == k * k * f.factor * (dlon * dlat);
    AbsoluteArea(k, f.factor, dlon, dlat, area);
    assert Absolute(area) == k * k * Absolute(f.factor) * (Absolute(dlon) * Absolute(dlat));
    ZeroArea(area);
    assert 8.0 * (w * h) == 2.0 * area;
    if area != 0.0 {
      CentredUnproject(f, area);
    }
  }

  lemma ZeroArea(area: real)
    ensures area == 0.0 <==> Absolute(area) == 0.0
  {}

  // Every rectangle along the axes, whichever corner it starts from and either way round.
  method MeasureRectangle(corner: Point, dlon: real, dlat: real, trig: Trigonometry) returns (g: PolygonGeometry)
    ensures (g.lon, g.lat) == (corner.lon + dlon / 2.0, corner.lat + dlat / 2.0)
    ensures var k, cos := EARTH_RADIUS_M * trig.radian, trig.cos(Radians(g.lat, trig.radian));
            var factor := if Absolute(cos) >= 0.000000000001 then cos else 0.000000000001;
            g.area == k * k * Absolute(factor) * (Absolute(dlon) * Absolute(dlat))
  {
    hide Absolute, ReferencePoint, FrameAround, Measured, Weighs, Rectangle;
    var ring := Rectangle(corner, dlon, dlat);
    RectangleReference(corner, dlon, dlat);
    FrameIsAround(ReferencePoint(ring), trig);
    RectangleMeasures(corner, dlon, dlat, ReferenceFrame([ring], trig));
    RectangleIsProper(corner, dlon, dlat);
    var r := ComputePolygonGeometry(Polygon([ring]), trig);
    g := r.value;
  }

  lemma RectangleIsProper(corner: Point, dlon: real, dlat: real)
    ensures Proper(Rectangle(corner, dlon, dlat))
  {}

  /******* Moving a shape along its parallel *******/

  function East(p: Point, degrees: real): Point {
    Point(p.lon + degrees, p.lat)
  }

  function RingEast(ring: Ring, degrees: real): (moved: Ring)
    ensures |moved| == |ring| && forall i | 0 <= i < |ring| :: moved[i] == East(ring[i], degrees)
  {
    seq(|ring|, i requires 0 <= i < |ring| => East(ring[i], degrees))
  }

  function AllEast(rings: seq<Ring>, degrees: real): (moved: seq<Ring>)
    ensures |moved| == |rings| && forall i | 0 <= i < |rings| :: moved[i] == RingEast(rings[i], degrees)
  {
    seq(|rings|, i requires 0 <= i < |rings| => RingEast(rings[i], degrees))
  }

  lemma {:induction false} SumsEast(ring: Ring, degrees: real, k: nat)
    requires k <= |ring|
    ensures SumLon(RingEast(ring, degrees), k) == SumLon(ring, k) + k as real * degrees
    ensures SumLat(RingEast(ring, degrees), k) == SumLat(ring, k)
  {
    if k > 0 {
      SumsEast(ring, degrees, k - 1);
      assert k as real * degrees == (k - 1) as real * degrees + degrees;
    }
  }

  lemma MeanEast(sum: real, moved: real, degrees: real, n: nat)
    requires n > 0 && moved == sum + n as real * degrees
    ensures Mean(moved, n) == Mean(sum, n) + degrees
  {
    QuotientAbout(sum, -degrees, n as real, moved);
  }

  lemma ReferenceEast(ring: Ring, degrees: real)
    requires Proper(ring)
    ensures ReferencePoint(RingEast(ring, degrees)) == East(ReferencePoint(ring), degrees)
  {
    hide Mean;
    var n := |ring| - 1;
    SumsEast(ring, degrees, n);
    MeanEast(SumLon(ring, n), SumLon(RingEast(ring, degrees), n), degrees, n);
  }

  lemma ProjectEast(f: Frame, p: Point, degrees: real)
    ensures At(f, East(f.origin, degrees)).Project(East(p, degrees)) == f.Project(p)
  {
    assert p.lon + degrees - (f.origin.lon + degrees) == p.lon - f.origin.lon;
  }

  lemma {:induction false} TotalEast(rings: seq<Ring>, f: Frame, degrees: real, k: nat)
    requires k <= |rings| && forall i | 0 <= i < |rings| :: Proper(rings[i])
    ensures forall i | 0 <= i < |rings| :: Proper(AllEast(rings, degrees)[i])
    ensures TotalMoments(AllEast(rings, degrees), At(f, East(f.origin, degrees)), k) == TotalMoments(rings, f, k)
  {
    if k > 0 {
      TotalEast(rings, f, degrees, k - 1);
      var ring, g := rings[k - 1], At(f, East(f.origin, degrees));
      forall p: Point
        ensures g.Project(East(p, degrees)) == f.Project(p)
      {
        ProjectEast(f, p, degrees);
      }
      assert Outline(RingEast(ring, degrees), g) == Outline(ring, f);
    }
  }

  // A shape moved along its parallel keeps its area, and its centroid moves with it.
  lemma AreaMovesEast(rings: seq<Ring>, trig: Trigonometry, degrees: real)
    requires rings != [] && forall i | 0 <= i < |rings| :: Proper(rings[i])
    ensures forall i | 0 <= i < |rings| :: Proper(AllEast(rings, degrees)[i])
    ensures var here := Measured(rings, ReferenceFrame(rings, trig));
            Measured(AllEast(rings, degrees), ReferenceFrame(AllEast(rings, degrees), trig))
            == here.(lon := here.lon + degrees)
  {
    hide TotalMoments, ReferencePoint;
    var f, moved := ReferenceFrame(rings, trig), AllEast(rings, degrees);
    ReferenceEast(rings[0], degrees);
    assert moved[0] == RingEast(rings[0], degrees);
    EastFrame(f.origin, trig, degrees);
    TotalEast(rings, f, degrees, |rings|);
  }

  lemma EastFrame(origin: Point, trig: Trigonometry, degrees: real)
    ensures FrameAround(East(origin, degrees), trig) == At(FrameAround(origin, trig), East(origin, degrees))
  {}
}
