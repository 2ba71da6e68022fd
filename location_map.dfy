/**
 * The projection behind the experience map (src/components/maps/LocationMap.tsx):
 * the bounding box of the country outline, the affine map from longitude
 * and latitude onto the 800 by 800 canvas with its Y axis inverted, the SVG
 * path of the outline, the table of city points and the lookup of a pin's
 * city.
 *
 * Numbers are exact reals. The path is the sequence of its commands; how
 * a number is printed inside the path string is not part of the model.
 */
module LocationMap {
  import opened Common
  import opened Text

  const Width: real := 800.0
  const Height: real := 800.0
  const Padding: real := 50.0
  /** Where a pin whose city is unknown is drawn: the middle of the canvas. */
  const Fallback := Point(400.0, 400.0)

  /** `[lng, lat]`: a GeoJSON position; further components are ignored. */
  datatype Coord = Coord(lng: real, lat: real)

  type Ring = seq<Coord>
  type Polygon = seq<Ring>
  type MultiPolygon = seq<Polygon>

  datatype Point = Point(x: real, y: real)

  /** `{minX, minY, maxX, maxY}`. */
  datatype Bounds = Bounds(minX: real, minY: real, maxX: real, maxY: real)

  /** The arguments `transformCoordinate` is called with besides the
      coordinate itself. */
  datatype Frame = Frame(minX: real, minY: real, scaleX: real, scaleY: real, height: real, padding: real)

  // ---------------------------------------------------------------------
  // transformCoordinate
  // ---------------------------------------------------------------------

  /** `transformCoordinate`. */
  function Transform(c: Coord, f: Frame): Point {
    Point((c.lng - f.minX) * f.scaleX + f.padding, f.height - ((c.lat - f.minY) * f.scaleY + f.padding))
  }

  /** A box wide and tall enough to divide by. */
  predicate NonDegenerate(b: Bounds) {
    b.maxX > b.minX && b.maxY > b.minY
  }

  /** The frame the effect builds from the outline's bounds: a scale per
      axis that stretches the box over the canvas less the padding. */
  function MapFrame(b: Bounds): (f: Frame)
    requires NonDegenerate(b)
    ensures f.scaleX > 0.0 && f.scaleY > 0.0
    ensures f.scaleX * (b.maxX - b.minX) == Width - 2.0 * Padding
    ensures f.scaleY * (b.maxY - b.minY) == Height - 2.0 * Padding
  {
    Frame(b.minX, b.minY, (Width - Padding * 2.0) / (b.maxX - b.minX), (Height - Padding * 2.0) / (b.maxY - b.minY),
          Height, Padding)
  }

  /** The corners of the box land on the corners of the padded canvas, the
      south-west one at the bottom left. */
  lemma TransformCorners(b: Bounds)
    requires NonDegenerate(b)
    ensures Transform(Coord(b.minX, b.minY), MapFrame(b)) == Point(50.0, 750.0)
    ensures Transform(Coord(b.maxX, b.maxY), MapFrame(b)) == Point(750.0, 50.0)
  {
    var f := MapFrame(b);
    assert (b.maxX - b.minX) * f.scaleX == 700.0;
    assert (b.maxY - b.minY) * f.scaleY == 700.0;
  }

  /** Every point of the box lands inside the padded canvas. */
  lemma TransformInCanvas(b: Bounds, c: Coord)
    requires NonDegenerate(b)
    requires b.minX <= c.lng <= b.maxX && b.minY <= c.lat <= b.maxY
    ensures var p := Transform(c, MapFrame(b)); 50.0 <= p.x <= 750.0 && 50.0 <= p.y <= 750.0
  {
    var f := MapFrame(b);
    assert f.minX == b.minX && f.minY == b.minY && f.height == 800.0 && f.padding == 50.0;
    var dx, dy := (c.lng - f.minX) * f.scaleX, (c.lat - f.minY) * f.scaleY;
    ScaledBetween(c.lng - f.minX, b.maxX - f.minX, f.scaleX);
    ScaledBetween(c.lat - f.minY, b.maxY - f.minY, f.scaleY);
    assert (b.maxX - f.minX) * f.scaleX == 700.0;
    assert (b.maxY - f.minY) * f.scaleY == 700.0;
    assert Transform(c, f) == Point(dx + f.padding, f.height - (dy + f.padding));
  }

  lemma ScaledBetween(d: real, range: real, s: real)
    requires 0.0 <= d <= range && s > 0.0
    ensures 0.0 <= d * s <= range * s
  {
  }

  /** East is right and north is up: the transform increases with longitude
      and decreases with latitude. */
  lemma TransformMonotone(f: Frame, c1: Coord, c2: Coord)
    requires f.scaleX > 0.0 && f.scaleY > 0.0
    ensures c1.lng < c2.lng ==> Transform(c1, f).x < Transform(c2, f).x
    ensures c1.lat < c2.lat ==> Transform(c1, f).y > Transform(c2, f).y
  {
    if c1.lng < c2.lng {
      StrictlyScaled(c1.lng - f.minX, c2.lng - f.minX, f.scaleX);
    }
    if c1.lat < c2.lat {
      var a, b := (c1.lat - f.minY) * f.scaleY, (c2.lat - f.minY) * f.scaleY;
      StrictlyScaled(c1.lat - f.minY, c2.lat - f.minY, f.scaleY);
      assert Transform(c1, f).y == f.height - (a + f.padding);
      assert Transform(c2, f).y == f.height - (b + f.padding);
    }
  }

  lemma StrictlyScaled(a: real, b: real, s: real)
    requires a < b && s > 0.0
    ensures a * s < b * s
  {
    assert b * s - a * s == (b - a) * s;
  }

  // ---------------------------------------------------------------------
  // findBounds
  // ---------------------------------------------------------------------

  /** The positions of a polygon's rings, ring after ring. */
  function RingsCoords(rings: seq<Ring>): seq<Coord> {
    if rings == [] then [] else RingsCoords(rings[..|rings| - 1]) + rings[|rings| - 1]
  }

  /** Every position of every ring of every polygon, in visiting order. */
  function AllCoords(mp: MultiPolygon): seq<Coord> {
    if mp == [] then [] else AllCoords(mp[..|mp| - 1]) + RingsCoords(mp[|mp| - 1])
  }

  /** One step of the scan: the box widened to take in `c`. `None` is the
      initial box of infinities that every position replaces. */
  function Include(b: Option<Bounds>, c: Coord): (r: Bounds)
    ensures r.minX <= c.lng <= r.maxX && r.minY <= c.lat <= r.maxY
  {
    match b
    case None => Bounds(c.lng, c.lat, c.lng, c.lat)
    case Some(b) =>
      Bounds(if c.lng < b.minX then c.lng else b.minX, if c.lat < b.minY then c.lat else b.minY,
             if c.lng > b.maxX then c.lng else b.maxX, if c.lat > b.maxY then c.lat else b.maxY)
  }

  /** The box the scan ends with on a list of positions; no positions, no
      box. */
  function BoundsOf(cs: seq<Coord>): (r: Option<Bounds>)
    ensures r.Some? <==> |cs| > 0
  {
    if cs == [] then None else Some(Include(BoundsOf(cs[..|cs| - 1]), cs[|cs| - 1]))
  }

  /** The scan finds the smallest box holding every position: all of them
      lie inside it and each of its four sides touches one. */
  lemma {:induction false} BoundsOfIsTight(cs: seq<Coord>)
    requires |cs| > 0
    ensures var b := BoundsOf(cs).value;
      forall i :: 0 <= i < |cs| ==> b.minX <= cs[i].lng <= b.maxX && b.minY <= cs[i].lat <= b.maxY
    ensures var b := BoundsOf(cs).value;
      (exists i :: 0 <= i < |cs| && cs[i].lng == b.minX) && (exists i :: 0 <= i < |cs| && cs[i].lat == b.minY)
      && (exists i :: 0 <= i < |cs| && cs[i].lng == b.maxX) && (exists i :: 0 <= i < |cs| && cs[i].lat == b.maxY)
  {
    var init := cs[..|cs| - 1];
    var last := cs[|cs| - 1];
    var r := BoundsOf(cs).value;
    assert r == Include(BoundsOf(init), last);
    if init == [] {
      assert cs == [last];
    } else {
      BoundsOfIsTight(init);
      var b := BoundsOf(init).value;
      assert forall i :: 0 <= i < |init| ==> init[i] == cs[i];
      var i0 :| 0 <= i0 < |init| && init[i0].lng == b.minX;
      var i1 :| 0 <= i1 < |init| && init[i1].lat == b.minY;
      var i2 :| 0 <= i2 < |init| && init[i2].lng == b.maxX;
      var i3 :| 0 <= i3 < |init| && init[i3].lat == b.maxY;
      assert cs[if r.minX == last.lng then |cs| - 1 else i0].lng == r.minX;
      assert cs[if r.minY == last.lat then |cs| - 1 else i1].lat == r.minY;
      assert cs[if r.maxX == last.lng then |cs| - 1 else i2].lng == r.maxX;
      assert cs[if r.maxY == last.lat then |cs| - 1 else i3].lat == r.maxY;
    }
  }

  /** The innermost `forEach` of `findBounds`: the box `b` of the positions
      `done` widened by every position of `ring`, in order. */
  method WidenByRing(b: Option<Bounds>, ghost done: seq<Coord>, ring: Ring) returns (r: Option<Bounds>)
    requires b == BoundsOf(done)
    ensures r == BoundsOf(done + ring)
  {
    r := b;
    var i := 0;
    assert done + ring[..0] == done;
    while i < |ring|
      invariant i <= |ring|
      invariant r == BoundsOf(done + ring[..i])
    {
      assert (done + ring[..i + 1])[..|done| + i] == done + ring[..i];
      r := Some(Include(r, ring[i]));
      i := i + 1;
    }
    assert ring[..i] == ring;
  }

  /** `findBounds`: the nested `forEach` over polygons, rings and positions,
      widening the box at every position. */
  method FindBounds(mp: MultiPolygon) returns (b: Option<Bounds>)
    ensures b == BoundsOf(AllCoords(mp))
  {
    b := None;
    var p := 0;
    while p < |mp|
      invariant p <= |mp|
      invariant b == BoundsOf(AllCoords(mp[..p]))
    {
      var polygon := mp[p];
      ghost var done := AllCoords(mp[..p]);
      var r := 0;
      assert done + RingsCoords(polygon[..0]) == done;
      while r < |polygon|
        invariant r <= |polygon|
        invariant b == BoundsOf(done + RingsCoords(polygon[..r]))
      {
        b := WidenByRing(b, done + RingsCoords(polygon[..r]), polygon[r]);
        RingsCoordsStep(done, polygon, r);
        r := r + 1;
      }
      assert polygon[..r] == polygon;
      AllCoordsStep(mp, p);
      p := p + 1;
    }
    assert mp[..p] == mp;
  }

  lemma RingsCoordsStep(done: seq<Coord>, rings: seq<Ring>, r: nat)
    requires r < |rings|
    ensures done + RingsCoords(rings[..r]) + rings[r] == done + RingsCoords(rings[..r + 1])
  {
    assert rings[..r + 1][..r] == rings[..r];
  }

  lemma AllCoordsStep(mp: MultiPolygon, p: nat)
    requires p < |mp|
    ensures AllCoords(mp[..p]) + RingsCoords(mp[p]) == AllCoords(mp[..p + 1])
  {
    assert mp[..p + 1][..p] == mp[..p];
  }

  // ---------------------------------------------------------------------
  // generateSvgPath
  // ---------------------------------------------------------------------

  /** One command of the outline's path: `M x,y` (with or without a leading
      space), ` L x,y` or ` Z`. */
  datatype PathCommand =
    | MoveTo(leadingSpace: bool, p: Point)
    | LineTo(p: Point)
    | Close

  /** The commands emitted for position `i` of `ring`: a move to its first
      position or a line to a later one, and a close after its last. */
  function PointCommands(ring: Ring, i: nat, lead: bool, f: Frame): (r: seq<PathCommand>)
    requires i < |ring|
    ensures 1 <= |r| <= 2
    ensures r[0].MoveTo? <==> i == 0
    ensures r[|r| - 1] == Close <==> i == |ring| - 1
  {
    (if i == 0 then [MoveTo(lead, Transform(ring[i], f))] else [LineTo(Transform(ring[i], f))])
    + (if i == |ring| - 1 then [Close] else [])
  }

  /** The commands for the first `k` positions of `ring`. */
  function RingPathUpTo(ring: Ring, k: nat, lead: bool, f: Frame): (r: seq<PathCommand>)
    requires k <= |ring|
    ensures |r| == k + (if k == |ring| && k > 0 then 1 else 0)
  {
    if k == 0 then [] else RingPathUpTo(ring, k - 1, lead, f) + PointCommands(ring, k - 1, lead, f)
  }

  /** The commands for a whole ring. */
  function RingPath(ring: Ring, lead: bool, f: Frame): (r: seq<PathCommand>)
    ensures |r| == if ring == [] then 0 else |ring| + 1
  {
    RingPathUpTo(ring, |ring|, lead, f)
  }

  /** The commands for the rings of the polygon with index `polyIndex`: the
      move of every ring but ring 0 of polygon 0 has a leading space. */
  function PolygonPath(rings: seq<Ring>, polyIndex: nat, f: Frame): seq<PathCommand> {
    if rings == [] then []
    else
      var r := |rings| - 1;
      PolygonPath(rings[..r], polyIndex, f) + RingPath(rings[r], polyIndex > 0 || r > 0, f)
  }

  /** The commands for every polygon, in order. */
  function SvgPath(mp: MultiPolygon, f: Frame): seq<PathCommand> {
    if mp == [] then [] else SvgPath(mp[..|mp| - 1], f) + PolygonPath(mp[|mp| - 1], |mp| - 1, f)
  }

  /** The shape of a ring's commands: a move to its first position, a line
      to every later one, and a close. An empty ring emits nothing. */
  lemma {:induction false} RingPathShape(ring: Ring, lead: bool, f: Frame)
    ensures ring == [] ==> RingPath(ring, lead, f) == []
    ensures ring != [] ==>
      var path := RingPath(ring, lead, f);
      |path| == |ring| + 1
      && path[0] == MoveTo(lead, Transform(ring[0], f))
      && (forall i :: 1 <= i < |ring| ==> path[i] == LineTo(Transform(ring[i], f)))
      && path[|ring|] == Close
  {
    if ring != [] {
      RingPathPrefix(ring, |ring| - 1, lead, f);
    }
  }

  /** Before the last position the commands are one per position, with no
      close yet. */
  lemma {:induction false} RingPathPrefix(ring: Ring, k: nat, lead: bool, f: Frame)
    requires k < |ring|
    ensures var path := RingPathUpTo(ring, k, lead, f);
      |path| == k
      && (k > 0 ==> path[0] == MoveTo(lead, Transform(ring[0], f)))
      && (forall i :: 1 <= i < k ==> path[i] == LineTo(Transform(ring[i], f)))
  {
    if k > 0 {
      RingPathPrefix(ring, k - 1, lead, f);
    }
  }

  /** Every move in the path has a leading space. */
  predicate AllMovesSpaced(path: seq<PathCommand>) {
    forall k :: 0 <= k < |path| && path[k].MoveTo? ==> path[k].leadingSpace
  }

  /** Only a move at the very start of the path may lack the leading space. */
  predicate OnlyFirstMoveUnspaced(path: seq<PathCommand>) {
    forall k :: 0 <= k < |path| && path[k].MoveTo? && !path[k].leadingSpace ==> k == 0
  }

  lemma RingPathMoves(ring: Ring, lead: bool, f: Frame)
    ensures lead ==> AllMovesSpaced(RingPath(ring, lead, f))
    ensures OnlyFirstMoveUnspaced(RingPath(ring, lead, f))
  {
    RingPathShape(ring, lead, f);
  }

  lemma {:induction false} PolygonPathMoves(rings: seq<Ring>, polyIndex: nat, f: Frame)
    ensures polyIndex > 0 ==> AllMovesSpaced(PolygonPath(rings, polyIndex, f))
    ensures OnlyFirstMoveUnspaced(PolygonPath(rings, polyIndex, f))
  {
    if rings != [] {
      var r := |rings| - 1;
      PolygonPathMoves(rings[..r], polyIndex, f);
      RingPathMoves(rings[r], polyIndex > 0 || r > 0, f);
      if r == 0 {
        assert PolygonPath(rings, polyIndex, f) == RingPath(rings[r], polyIndex > 0, f);
      }
    }
  }

  /** Only the move that opens ring 0 of polygon 0 is written without a
      leading space, and it can only be the first command of the path. */
  lemma {:induction false} SvgPathMoves(mp: MultiPolygon, f: Frame)
    ensures OnlyFirstMoveUnspaced(SvgPath(mp, f))
  {
    if mp != [] {
      var p := |mp| - 1;
      SvgPathMoves(mp[..p], f);
      PolygonPathMoves(mp[p], p, f);
      if p == 0 {
        assert SvgPath(mp, f) == PolygonPath(mp[p], 0, f);
      }
    }
  }

  /** The innermost `forEach` of `generateSvgPath`: the commands of one
      ring, appended position by position. */
  method EmitRing(ring: Ring, lead: bool, f: Frame) returns (cmds: seq<PathCommand>)
    ensures cmds == RingPath(ring, lead, f)
  {
    cmds := [];
    var i := 0;
    while i < |ring|
      invariant i <= |ring|
      invariant cmds == RingPathUpTo(ring, i, lead, f)
    {
      var p := Transform(ring[i], f);
      if i == 0 {
        cmds := cmds + [MoveTo(lead, p)];
      } else {
        cmds := cmds + [LineTo(p)];
      }
      if i == |ring| - 1 {
        cmds := cmds + [Close];
      }
      i := i + 1;
    }
  }

  /** `generateSvgPath`: the nested `forEach` over polygons, rings and
      positions, appending to the path. */
  method GenerateSvgPath(mp: MultiPolygon, f: Frame) returns (path: seq<PathCommand>)
    ensures path == SvgPath(mp, f)
  {
    path := [];
    var polyIndex := 0;
    while polyIndex < |mp|
      invariant polyIndex <= |mp|
      invariant path == SvgPath(mp[..polyIndex], f)
    {
      var polygon := mp[polyIndex];
      ghost var before := path;
      var ringIndex := 0;
      while ringIndex < |polygon|
        invariant ringIndex <= |polygon|
        invariant path == before + PolygonPath(polygon[..ringIndex], polyIndex, f)
      {
        var cmds := EmitRing(polygon[ringIndex], polyIndex > 0 || ringIndex > 0, f);
        path := path + cmds;
        assert polygon[..ringIndex + 1][..ringIndex] == polygon[..ringIndex];
        ringIndex := ringIndex + 1;
      }
      assert polygon[..ringIndex] == polygon;
      assert mp[..polyIndex + 1][..polyIndex] == mp[..polyIndex];
      polyIndex := polyIndex + 1;
    }
    assert mp[..polyIndex] == mp;
  }

  // ---------------------------------------------------------------------
  // City points
  // ---------------------------------------------------------------------

  /** The geometry of a feature: a point, the outline's polygons, or any
      other kind. */
  datatype Geometry =
    | GeoPoint(coord: Coord)
    | GeoPolygons(polygons: MultiPolygon)
    | GeoOther

  /** A GeoJSON feature: its `location` property, if any, and its geometry. */
  datatype Feature = Feature(location: Option<string>, geometry: Geometry)

  /** A city point: its place on the canvas and its raw position. */
  datatype CityPoint = CityPoint(x: real, y: real, rawX: real, rawY: real)

  /** A feature that names a city: a truthy `location` and a point geometry. */
  predicate IsCity(feature: Feature) {
    feature.location.Some? && feature.location.value != "" && feature.geometry.GeoPoint?
  }

  function CityPointOf(c: Coord, f: Frame): (cp: CityPoint)
    ensures Point(cp.x, cp.y) == Transform(c, f) && cp.rawX == c.lng && cp.rawY == c.lat
  {
    var p := Transform(c, f);
    CityPoint(p.x, p.y, c.lng, c.lat)
  }

  /** The table built from `features`, in order, a later city of the same
      name replacing an earlier one. */
  function CityPointsOf(features: seq<Feature>, f: Frame): (m: map<string, CityPoint>)
    ensures forall name :: name in m <==> exists k :: 0 <= k < |features| && IsCity(features[k])
                                                     && features[k].location.value == name
  {
    if features == [] then map[]
    else
      var n := |features| - 1;
      var rest := CityPointsOf(features[..n], f);
      assert forall k :: 0 <= k < n ==> features[..n][k] == features[k];
      var feature := features[n];
      if IsCity(feature) then rest[feature.location.value := CityPointOf(feature.geometry.coord, f)]
      else rest
  }

  /** The entry for a name is the point of the last feature with that name. */
  lemma {:induction false} LastCityWins(features: seq<Feature>, f: Frame, k: nat)
    requires k < |features| && IsCity(features[k])
    requires forall j :: k < j < |features| && IsCity(features[j]) ==>
      features[j].location.value != features[k].location.value
    ensures CityPointsOf(features, f)[features[k].location.value] == CityPointOf(features[k].geometry.coord, f)
  {
    var n := |features| - 1;
    if k < n {
      assert forall j :: 0 <= j < n ==> features[..n][j] == features[j];
      LastCityWins(features[..n], f, k);
    }
  }

  /** Every city lands inside the canvas when its position lies in the
      outline's box. */
  lemma CitiesInCanvas(features: seq<Feature>, b: Bounds, name: string)
    requires NonDegenerate(b)
    requires forall k :: 0 <= k < |features| && IsCity(features[k]) ==>
      var c := features[k].geometry.coord; b.minX <= c.lng <= b.maxX && b.minY <= c.lat <= b.maxY
    requires name in CityPointsOf(features, MapFrame(b))
    ensures var cp := CityPointsOf(features, MapFrame(b))[name]; 50.0 <= cp.x <= 750.0 && 50.0 <= cp.y <= 750.0
  {
    var k :| 0 <= k < |features| && IsCity(features[k]) && features[k].location.value == name;
    var last := LastNamed(features, name, k);
    LastCityWins(features, MapFrame(b), last);
    TransformInCanvas(b, features[last].geometry.coord);
  }

  /** The last feature naming `name`, at or after `k`. */
  lemma {:induction false} LastNamed(features: seq<Feature>, name: string, k: nat) returns (last: nat)
    requires k < |features| && IsCity(features[k]) && features[k].location.value == name
    ensures k <= last < |features| && IsCity(features[last]) && features[last].location.value == name
    ensures forall j :: last < j < |features| && IsCity(features[j]) ==> features[j].location.value != name
    decreases |features| - k
  {
    if exists j :: k < j < |features| && IsCity(features[j]) && features[j].location.value == name {
      var j :| k < j < |features| && IsCity(features[j]) && features[j].location.value == name;
      last := LastNamed(features, name, j);
    } else {
      last := k;
    }
  }

  /** The loop of the effect over `features.slice(1)`. */
  method CityPoints(features: seq<Feature>, f: Frame) returns (cityPoints: map<string, CityPoint>)
    ensures cityPoints == CityPointsOf(features, f)
  {
    cityPoints := map[];
    var i := 0;
    while i < |features|
      invariant i <= |features|
      invariant cityPoints == CityPointsOf(features[..i], f)
    {
      var feature := features[i];
      assert features[..i + 1][..i] == features[..i];
      if feature.location.Some? && feature.location.value != "" && feature.geometry.GeoPoint? {
        var cityName := feature.location.value;
        var coord := feature.geometry.coord;
        var p := Transform(coord, f);
        cityPoints := cityPoints[cityName := CityPoint(p.x, p.y, coord.lng, coord.lat)];
      }
      i := i + 1;
    }
    assert features[..i] == features;
  }

  // ---------------------------------------------------------------------
  // The effect and the component state
  // ---------------------------------------------------------------------

  /** The map's data can be drawn: feature 0 is the outline, and its box is
      neither empty nor flat. */
  predicate Drawable(features: seq<Feature>) {
    |features| > 0 && features[0].geometry.GeoPolygons?
    && BoundsOf(AllCoords(features[0].geometry.polygons)).Some?
    && NonDegenerate(BoundsOf(AllCoords(features[0].geometry.polygons)).value)
  }

  /** The frame every position of a drawable map is transformed with. */
  function FrameOf(features: seq<Feature>): (f: Frame)
    requires Drawable(features)
    ensures f.scaleX > 0.0 && f.scaleY > 0.0
  {
    MapFrame(BoundsOf(AllCoords(features[0].geometry.polygons)).value)
  }

  /** The component's `transformedData`, updated by its mount effect. */
  class LocationMapState {
    var ukPath: seq<PathCommand>
    var cityPoints: map<string, CityPoint>

    /** The first render: no path and no cities. */
    constructor ()
      ensures ukPath == [] && cityPoints == map[]
    {
      ukPath := [];
      cityPoints := map[];
    }

    /** The mount effect on the bundled features. With no features it
        changes nothing; otherwise it stores the outline's path and the
        cities of the features after the first, all drawn with the frame of
        the outline's box. */
    method RunEffect(features: seq<Feature>)
      requires |features| > 0 ==> Drawable(features)
      modifies this
      ensures features == [] ==> ukPath == old(ukPath) && cityPoints == old(cityPoints)
      ensures features != [] ==>
        ukPath == SvgPath(features[0].geometry.polygons, FrameOf(features))
        && cityPoints == CityPointsOf(features[1..], FrameOf(features))
    {
      if |features| == 0 {
        return;
      }
      var ukCoordinates := features[0].geometry.polygons;
      var bounds := FindBounds(ukCoordinates);
      var b := bounds.value;
      var scaleX := (Width - Padding * 2.0) / (b.maxX - b.minX);
      var scaleY := (Height - Padding * 2.0) / (b.maxY - b.minY);
      var frame := Frame(b.minX, b.minY, scaleX, scaleY, Height, Padding);
      var path := GenerateSvgPath(ukCoordinates, frame);
      var points := CityPoints(features[1..], frame);
      ukPath := path;
      cityPoints := points;
    }
  }

  // ---------------------------------------------------------------------
  // Pins
  // ---------------------------------------------------------------------

  /** `s.split(',').pop()`: the text after the last comma, or all of `s`
      when it has none. */
  function LastSegment(s: string): (r: string)
    ensures ',' !in r
    ensures |r| <= |s| && r == s[|s| - |r|..]
    ensures |r| < |s| ==> s[|s| - |r| - 1] == ','
  {
    if s == [] || s[|s| - 1] == ',' then []
    else
      var r := LastSegment(s[..|s| - 1]);
      assert s[..|s| - 1][|s| - 1 - |r|..] + [s[|s| - 1]] == s[|s| - 1 - |r|..];
      r + [s[|s| - 1]]
  }

  /** Only the text after the last comma counts. */
  lemma {:induction false} LastSegmentAfterComma(prefix: string, s: string)
    requires ',' !in s
    ensures LastSegment(prefix + [','] + s) == s
    ensures LastSegment(s) == s
  {
    var t := prefix + [','] + s;
    assert t[|t| - |s| - 1] == ',';
    assert t[|t| - |s|..] == s;
  }

  /** The pin's city: the last comma-separated part of its location,
      trimmed and lowercased. */
  function CityNameOf(location: string): (name: string)
    ensures ',' !in name
  {
    NoCommaAfterTrimLower(LastSegment(location));
    Lower(Trim(LastSegment(location)))
  }

  lemma NoCommaAfterTrimLower(s: string)
    requires ',' !in s
    ensures ',' !in Lower(Trim(s))
  {
    TrimIsOuterSlice(s);
    var t := Trim(s);
    assert forall i :: 0 <= i < |t| ==> t[i] in s;
    assert forall i :: 0 <= i < |t| ==> Lower(t)[i] == LowerChar(t[i]);
  }

  /** `name.charAt(0).toUpperCase() + name.slice(1)`. */
  function Capitalize(name: string): (r: string)
    ensures |r| == |name|
    ensures |name| > 0 ==> r[0] == UpperChar(name[0]) && r[1..] == name[1..]
  {
    if name == [] then [] else [UpperChar(name[0])] + name[1..]
  }

  /** Where a pin is drawn: at the city stored under its lowercase name, else
      under the capitalised name, else in the middle of the canvas. */
  function PinPosition(cityPoints: map<string, CityPoint>, location: string): (p: Point)
    ensures CityNameOf(location) in cityPoints ==>
      p == Point(cityPoints[CityNameOf(location)].x, cityPoints[CityNameOf(location)].y)
    ensures CityNameOf(location) !in cityPoints && Capitalize(CityNameOf(location)) in cityPoints ==>
      p == Point(cityPoints[Capitalize(CityNameOf(location))].x, cityPoints[Capitalize(CityNameOf(location))].y)
    ensures CityNameOf(location) !in cityPoints && Capitalize(CityNameOf(location)) !in cityPoints ==>
      p == Fallback
  {
    var name := CityNameOf(location);
    if name in cityPoints then Point(cityPoints[name].x, cityPoints[name].y)
    else if Capitalize(name) in cityPoints then
      var cp := cityPoints[Capitalize(name)];
      Point(cp.x, cp.y)
    else Fallback
  }

  /** A pin is drawn at a stored city or at the fallback, never elsewhere. */
  lemma PinAtCityOrFallback(cityPoints: map<string, CityPoint>, location: string)
    ensures var p := PinPosition(cityPoints, location);
      p == Fallback || exists name :: name in cityPoints && p == Point(cityPoints[name].x, cityPoints[name].y)
  {
    var name := CityNameOf(location);
    if name !in cityPoints && Capitalize(name) in cityPoints {
      assert Capitalize(name) in cityPoints;
    }
  }
}
