/** The bar geometry builder: add_quad, add_bar and the geometry half of add_bars.

    Every grid cell becomes an axis-aligned box drawn as six quads; every quad
    becomes the six vertices a, b, c, c, d, a and six copies of one colour.
    The same vertex stream is handed to the GPU as GL_TRIANGLES, GL_LINES or
    GL_POINTS. Corners of a box are kept symbolic (Corner) so that the
    topology of a bar can be stated independently of its coordinates, and
    Place turns a symbolic corner into a position. */
module Geometry {
  import opened Bands
  import opened Grids
  import opened RealArith

  datatype Vec3 = Vec3(x: real, y: real, z: real)

  function Sub(u: Vec3, v: Vec3): Vec3 {
    Vec3(u.x - v.x, u.y - v.y, u.z - v.z)
  }

  /** glm's `vec3 * float`. */
  function Scale(v: Vec3, k: real): Vec3 {
    Vec3(v.x * k, v.y * k, v.z * k)
  }

  function Dot(u: Vec3, v: Vec3): real {
    u.x * v.x + u.y * v.y + u.z * v.z
  }

  function Cross(u: Vec3, v: Vec3): Vec3 {
    Vec3(u.y * v.z - u.z * v.y, u.z * v.x - u.x * v.z, u.x * v.y - u.y * v.x)
  }

  /** The primitive type m_mode selects for glDrawArrays. */
  datatype Primitive = Triangles | Lines | Points

  // ---------------------------------------------------------------------------
  // Symbolic boxes

  datatype Side = Lft | Rgt
  datatype Level = Btm | Top
  datatype Depth = Bck | Fnt

  /** One of the eight corners {lft,rgt} x {btm,top} x {bck,fnt} of a bar. */
  datatype Corner = Corner(side: Side, level: Level, depth: Depth)

  /** The coordinates add_bar computes: x from lft to rgt, y from btm to top, z from bck to fnt. */
  datatype Box = Box(lft: real, rgt: real, btm: real, top: real, bck: real, fnt: real)

  /** The box has positive extent along every axis. */
  predicate Proper(b: Box) {
    b.lft < b.rgt && b.btm < b.top && b.bck < b.fnt
  }

  function Place(b: Box, c: Corner): Vec3 {
    Vec3(if c.side == Lft then b.lft else b.rgt,
         if c.level == Btm then b.btm else b.top,
         if c.depth == Bck then b.bck else b.fnt)
  }

  function Centre(b: Box): Vec3 {
    Vec3((b.lft + b.rgt) / 2.0, (b.btm + b.top) / 2.0, (b.bck + b.fnt) / 2.0)
  }

  /** Distinct corners of a proper box are at distinct positions. */
  lemma PlaceInjective(b: Box, c: Corner, c': Corner)
    requires Proper(b)
    requires Place(b, c) == Place(b, c')
    ensures c == c'
  {
  }

  datatype Quad<T> = Quad(a: T, b: T, c: T, d: T)

  function PlaceQuad(b: Box, q: Quad<Corner>): Quad<Vec3> {
    Quad(Place(b, q.a), Place(b, q.b), Place(b, q.c), Place(b, q.d))
  }

  /** The six faces in the order add_bar emits them. */
  datatype Face = Bottom | LeftSide | Back | Front | RightSide | TopFace

  const Faces: seq<Face> := [Bottom, LeftSide, Back, Front, RightSide, TopFace]

  /** The corner order add_bar passes to add_quad for each face: four
      distinct corners, all on that face. */
  function FaceQuad(f: Face): (q: Quad<Corner>)
    ensures OnFace(q.a, f) && OnFace(q.b, f) && OnFace(q.c, f) && OnFace(q.d, f)
    ensures q.a != q.b && q.a != q.c && q.a != q.d && q.b != q.c && q.b != q.d && q.c != q.d
  {
    match f
    case Bottom    => Quad(Corner(Rgt, Btm, Fnt), Corner(Lft, Btm, Fnt), Corner(Lft, Btm, Bck), Corner(Rgt, Btm, Bck))
    case LeftSide  => Quad(Corner(Lft, Btm, Fnt), Corner(Lft, Top, Fnt), Corner(Lft, Top, Bck), Corner(Lft, Btm, Bck))
    case Back      => Quad(Corner(Lft, Btm, Bck), Corner(Lft, Top, Bck), Corner(Rgt, Top, Bck), Corner(Rgt, Btm, Bck))
    case Front     => Quad(Corner(Rgt, Top, Fnt), Corner(Lft, Top, Fnt), Corner(Lft, Btm, Fnt), Corner(Rgt, Btm, Fnt))
    case RightSide => Quad(Corner(Rgt, Top, Bck), Corner(Rgt, Top, Fnt), Corner(Rgt, Btm, Fnt), Corner(Rgt, Btm, Bck))
    case TopFace   => Quad(Corner(Lft, Top, Bck), Corner(Lft, Top, Fnt), Corner(Rgt, Top, Fnt), Corner(Rgt, Top, Bck))
  }

  /** The corner a face lies on: the coordinate all four of its corners share. */
  predicate OnFace(c: Corner, f: Face) {
    match f
    case Bottom    => c.level == Btm
    case TopFace   => c.level == Top
    case LeftSide  => c.side == Lft
    case RightSide => c.side == Rgt
    case Back      => c.depth == Bck
    case Front     => c.depth == Fnt
  }

  // ---------------------------------------------------------------------------
  // add_quad and the three ways the GPU reads its output

  /** The vertex stream add_quad appends for corners a, b, c, d. */
  function QuadStream<T>(q: Quad<T>): (s: seq<T>)
    ensures |s| == 6
  {
    [q.a, q.b, q.c, q.c, q.d, q.a]
  }

  /** GL_TRIANGLES: consecutive triples. */
  function TriangleList<T>(s: seq<T>): (ts: seq<(T, T, T)>)
    requires |s| % 3 == 0
    ensures |ts| == |s| / 3
    ensures forall t :: 0 <= t < |ts| ==> ts[t] == (s[3 * t], s[3 * t + 1], s[3 * t + 2])
  {
    seq(|s| / 3, t requires 0 <= t < |s| / 3 => (s[3 * t], s[3 * t + 1], s[3 * t + 2]))
  }

  /** GL_LINES: consecutive pairs. */
  function LineList<T>(s: seq<T>): (ls: seq<(T, T)>)
    requires |s| % 2 == 0
    ensures |ls| == |s| / 2
    ensures forall l :: 0 <= l < |ls| ==> ls[l] == (s[2 * l], s[2 * l + 1])
  {
    seq(|s| / 2, l requires 0 <= l < |s| / 2 => (s[2 * l], s[2 * l + 1]))
  }

  /** Read as triangles, a quad's stream is the two triangles (a, b, c) and
      (c, d, a) sharing the diagonal a-c; read as lines, it is a-b, the
      degenerate c-c and d-a; read as points, it shows each corner. */
  lemma QuadReadings<T>(q: Quad<T>)
    ensures TriangleList(QuadStream(q)) == [(q.a, q.b, q.c), (q.c, q.d, q.a)]
    ensures LineList(QuadStream(q)) == [(q.a, q.b), (q.c, q.c), (q.d, q.a)]
    ensures forall v :: v in QuadStream(q) <==> v in {q.a, q.b, q.c, q.d}
  {
  }

  lemma PlaceStream(b: Box, q: Quad<Corner>, i: int)
    requires 0 <= i < 6
    ensures QuadStream(PlaceQuad(b, q))[i] == Place(b, QuadStream(q)[i])
  {
  }

  datatype Mesh = Mesh(vertices: seq<Vec3>, colors: seq<Vec3>)

  const EmptyMesh: Mesh := Mesh([], [])

  /** add_quad: append one quad's six vertices and six copies of its colour;
      everything already in the buffers is kept. */
  function AddQuad(m: Mesh, q: Quad<Vec3>, color: Vec3): (r: Mesh)
    ensures |r.vertices| == |m.vertices| + 6 && |r.colors| == |m.colors| + 6
    ensures forall i :: 0 <= i < |m.vertices| ==> r.vertices[i] == m.vertices[i]
    ensures forall i :: 0 <= i < |m.colors| ==> r.colors[i] == m.colors[i]
    ensures forall i :: 0 <= i < 6 ==> r.vertices[|m.vertices| + i] == QuadStream(q)[i]
    ensures forall i :: |m.colors| <= i < |r.colors| ==> r.colors[i] == color
  {
    Mesh(m.vertices + QuadStream(q), m.colors + [color, color, color, color, color, color])
  }

  // ---------------------------------------------------------------------------
  // add_bar

  /** The side-face multipliers sideMlpy1..4 (left, back, front, right):
      darker sides in triangle mode, unshaded otherwise. Bottom and top are
      never shaded. */
  function Shade(f: Face, mode: Primitive): (k: real)
    ensures 0.0 < k <= 1.0
    ensures k < 1.0 <==> mode == Triangles && f != Bottom && f != TopFace
  {
    if mode != Triangles then 1.0
    else match f
      case LeftSide  => 0.5
      case Back      => 0.25
      case Front     => 0.75
      case RightSide => 0.5
      case _         => 1.0
  }

  /** In triangle mode the back is the darkest face and the front the
      brightest of the four sides. */
  lemma ShadeDarkensSides(f: Face, mode: Primitive)
    ensures mode == Triangles ==> Shade(Back, mode) < Shade(f, mode) || f == Back
    ensures mode == Triangles ==> Shade(Front, mode) >= Shade(f, mode) || f == Bottom || f == TopFace
  {
  }

  /** The colour add_bar passes for face f: the base colour for bottom and top,
      `color * sideMlpy` for the four sides. */
  function FaceColor(color: Vec3, f: Face, mode: Primitive): (c: Vec3)
    ensures c == Scale(color, Shade(f, mode))
  {
    if f == Bottom || f == TopFace then color else Scale(color, Shade(f, mode))
  }

  /** The symbolic corner stream of one bar: vertex i is corner i % 6 of the
      stream of face i / 6. */
  function BarCorners(): (s: seq<Corner>)
    ensures |s| == 36
  {
    seq(36, i requires 0 <= i < 36 => QuadStream(FaceQuad(Faces[i / 6]))[i % 6])
  }

  /** add_bar's first j quads, in face order, onto the given buffers. */
  function AddFaces(m: Mesh, b: Box, color: Vec3, mode: Primitive, j: nat): (r: Mesh)
    requires j <= |Faces|
    ensures |r.vertices| == |m.vertices| + 6 * j && |r.colors| == |m.colors| + 6 * j
    ensures forall i :: 0 <= i < |m.vertices| ==> r.vertices[i] == m.vertices[i]
    ensures forall i :: 0 <= i < |m.colors| ==> r.colors[i] == m.colors[i]
  {
    if j == 0 then m
    else
      var f := Faces[j - 1];
      AddQuad(AddFaces(m, b, color, mode, j - 1), PlaceQuad(b, FaceQuad(f)), FaceColor(color, f, mode))
  }

  /** add_bar: one add_quad per face, bottom, left, back, front, right, top. */
  function AddBar(m: Mesh, b: Box, color: Vec3, mode: Primitive): (r: Mesh)
    ensures |r.vertices| == |m.vertices| + 36 && |r.colors| == |m.colors| + 36
    ensures forall i :: 0 <= i < |m.vertices| ==> r.vertices[i] == m.vertices[i]
    ensures forall i :: 0 <= i < |m.colors| ==> r.colors[i] == m.colors[i]
  {
    AddFaces(m, b, color, mode, |Faces|)
  }

  lemma {:induction false} AddFacesContents(m: Mesh, b: Box, color: Vec3, mode: Primitive, j: nat, i: int)
    requires j <= |Faces| && |m.vertices| == |m.colors|
    requires 0 <= i < 6 * j
    ensures AddFaces(m, b, color, mode, j).vertices[|m.vertices| + i] == Place(b, BarCorners()[i])
    ensures AddFaces(m, b, color, mode, j).colors[|m.colors| + i] == FaceColor(color, Faces[i / 6], mode)
  {
    var prev := AddFaces(m, b, color, mode, j - 1);
    var f := Faces[j - 1];
    var r := AddQuad(prev, PlaceQuad(b, FaceQuad(f)), FaceColor(color, f, mode));
    assert r == AddFaces(m, b, color, mode, j);
    if i < 6 * (j - 1) {
      AddFacesContents(m, b, color, mode, j - 1, i);
    } else {
      var k := i - 6 * (j - 1);
      assert i / 6 == j - 1 && i % 6 == k;
      PlaceStream(b, FaceQuad(f), k);
      assert BarCorners()[i] == QuadStream(FaceQuad(f))[k];
      assert r.vertices[|prev.vertices| + k] == QuadStream(PlaceQuad(b, FaceQuad(f)))[k];
    }
  }

  /** The 36 vertices add_bar appends are the placed corners of BarCorners, and
      vertex i carries the colour of face i / 6. */
  lemma AddBarContents(m: Mesh, b: Box, color: Vec3, mode: Primitive, i: int)
    requires |m.vertices| == |m.colors|
    requires 0 <= i < 36
    ensures AddBar(m, b, color, mode).vertices[|m.vertices| + i] == Place(b, BarCorners()[i])
    ensures AddBar(m, b, color, mode).colors[|m.colors| + i] == Scale(color, Shade(Faces[i / 6], mode))
  {
    AddFacesContents(m, b, color, mode, |Faces|, i);
  }

  /** Only triangle mode shades the sides: in line and point mode every vertex
      of a bar has the base colour. */
  lemma UnshadedOutsideTriangleMode(m: Mesh, b: Box, color: Vec3, mode: Primitive, i: int)
    requires |m.vertices| == |m.colors|
    requires mode != Triangles
    requires |m.colors| <= i < |m.colors| + 36
    ensures AddBar(m, b, color, mode).colors[i] == color
  {
    AddBarContents(m, b, color, mode, i - |m.colors|);
  }

  // ---------------------------------------------------------------------------
  // Topology of one bar

  /** Two corners are joined by an edge of the box: they differ in exactly one coordinate. */
  predicate IsBoxEdge(p: Corner, q: Corner) {
    (if p.side != q.side then 1 else 0) + (if p.level != q.level then 1 else 0)
      + (if p.depth != q.depth then 1 else 0) == 1
  }

  /** Two line segments join the same two corners, in either direction. */
  predicate SameSegment(l: (Corner, Corner), l': (Corner, Corner)) {
    (l.0 == l'.0 && l.1 == l'.1) || (l.0 == l'.1 && l.1 == l'.0)
  }

  /** The position in the line list of a bar where each of the twelve box
      edges is drawn (an explicit inverse of the line list). */
  function EdgeSlot(p: Corner, q: Corner): (l: nat)
    requires IsBoxEdge(p, q)
    ensures l < 18 && l % 3 != 1
  {
    if p.side != q.side then
      match (p.level, p.depth)
      case (Btm, Fnt) => 0
      case (Btm, Bck) => 8
      case (Top, Fnt) => 9
      case (Top, Bck) => 17
    else if p.level != q.level then
      match (p.side, p.depth)
      case (Lft, Fnt) => 3
      case (Lft, Bck) => 6
      case (Rgt, Fnt) => 11
      case (Rgt, Bck) => 14
    else
      match (p.side, p.level)
      case (Rgt, Btm) => 2
      case (Lft, Btm) => 5
      case (Rgt, Top) => 12
      case (Lft, Top) => 15
  }

  /** Line l of a bar's line list is line l % 3 of the quad of face l / 3. */
  lemma BarLine(l: int)
    requires 0 <= l < 18
    ensures var q := FaceQuad(Faces[l / 3]);
      LineList(BarCorners())[l] == [(q.a, q.b), (q.c, q.c), (q.d, q.a)][l % 3]
  {
    var j, k := l / 3, l % 3;
    assert (2 * l) / 6 == j && (2 * l) % 6 == 2 * k;
    assert (2 * l + 1) / 6 == j && (2 * l + 1) % 6 == 2 * k + 1;
  }

  /** In line mode the first and last vertex of each face's quad are chosen so
      that its two real lines are box edges drawn at the positions EdgeSlot names. */
  lemma FaceLines(j: int)
    requires 0 <= j < 6
    ensures var q := FaceQuad(Faces[j]);
      && IsBoxEdge(q.a, q.b) && EdgeSlot(q.a, q.b) == 3 * j
      && IsBoxEdge(q.d, q.a) && EdgeSlot(q.d, q.a) == 3 * j + 2
  {
  }

  /** Read as GL_LINES, a bar's 36 vertices give 18 segments: every third one
      (the c, c pair of each quad) is degenerate and the other twelve are box
      edges, each at its EdgeSlot position. */
  lemma LineModeSegments(l: int)
    requires 0 <= l < 18
    ensures var s := LineList(BarCorners())[l];
      && (s.0 == s.1 <==> l % 3 == 1)
      && (l % 3 != 1 ==> IsBoxEdge(s.0, s.1) && EdgeSlot(s.0, s.1) == l)
  {
    BarLine(l);
    FaceLines(l / 3);
  }

  /** Every edge of the box is drawn in line mode. */
  lemma LineModeCoversEveryEdge(p: Corner, q: Corner)
    requires IsBoxEdge(p, q)
    ensures SameSegment(LineList(BarCorners())[EdgeSlot(p, q)], (p, q))
  {
    var l := EdgeSlot(p, q);
    LineModeSegments(l);
    var s := LineList(BarCorners())[l];
    assert EdgeSlot(s.0, s.1) == l;
  }

  /** No edge of the box is drawn twice in line mode. */
  lemma LineModeDrawsEachEdgeOnce(l: int, l': int)
    requires 0 <= l < 18 && 0 <= l' < 18 && l % 3 != 1 && l' % 3 != 1
    requires SameSegment(LineList(BarCorners())[l], LineList(BarCorners())[l'])
    ensures l == l'
  {
    LineModeSegments(l);
    LineModeSegments(l');
    var s, s' := LineList(BarCorners())[l], LineList(BarCorners())[l'];
    assert EdgeSlot(s.0, s.1) == EdgeSlot(s'.0, s'.1);
  }

  // ---------------------------------------------------------------------------
  // Winding

  /** The normal of triangle (a, b, c) by the right-hand rule. */
  function Normal(t: (Vec3, Vec3, Vec3)): Vec3 {
    Cross(Sub(t.1, t.0), Sub(t.2, t.0))
  }

  /** The triangle is counter-clockwise seen from outside the box: its normal
      points away from the box's centre. */
  predicate FacesOutward(t: (Vec3, Vec3, Vec3), b: Box) {
    Dot(Normal(t), Sub(t.0, Centre(b))) > 0.0
  }

  /** Both triangles of a face of a proper box are counter-clockwise from outside. */
  lemma FaceWinding(b: Box, f: Face)
    requires Proper(b)
    ensures var q := PlaceQuad(b, FaceQuad(f));
      FacesOutward((q.a, q.b, q.c), b) && FacesOutward((q.c, q.d, q.a), b)
  {
    var w, h, d := b.rgt - b.lft, b.top - b.btm, b.fnt - b.bck;
    ProductPositive(w, h);
    ProductPositive(w, d);
    ProductPositive(h, d);
    ProductPositive(w * h, d);
    ProductPositive(w * d, h);
    ProductPositive(h * d, w);
  }

  /** Vertex i of a bar's stream is vertex i % 6 of the stream of face i / 6. */
  lemma BarVertex(m: Mesh, b: Box, color: Vec3, mode: Primitive, i: int)
    requires |m.vertices| == |m.colors|
    requires 0 <= i < 36
    ensures AddBar(m, b, color, mode).vertices[|m.vertices|..][i]
      == QuadStream(PlaceQuad(b, FaceQuad(Faces[i / 6])))[i % 6]
  {
    AddBarContents(m, b, color, mode, i);
    PlaceStream(b, FaceQuad(Faces[i / 6]), i % 6);
  }

  /** Triangle t of a bar's vertex stream is triangle t % 2 of the quad of face t / 2. */
  lemma BarTriangle(m: Mesh, b: Box, color: Vec3, mode: Primitive, t: int)
    requires |m.vertices| == |m.colors|
    requires 0 <= t < 12
    ensures var r := AddBar(m, b, color, mode);
      var q := PlaceQuad(b, FaceQuad(Faces[t / 2]));
      TriangleList(r.vertices[|m.vertices|..])[t] == [(q.a, q.b, q.c), (q.c, q.d, q.a)][t % 2]
  {
    var s := AddBar(m, b, color, mode).vertices[|m.vertices|..];
    BarVertex(m, b, color, mode, 3 * t);
    BarVertex(m, b, color, mode, 3 * t + 1);
    BarVertex(m, b, color, mode, 3 * t + 2);
    var j := t / 2;
    if t % 2 == 0 {
      assert (3 * t) / 6 == j && (3 * t) % 6 == 0;
      assert (3 * t + 1) / 6 == j && (3 * t + 1) % 6 == 1;
      assert (3 * t + 2) / 6 == j && (3 * t + 2) % 6 == 2;
    } else {
      assert (3 * t) / 6 == j && (3 * t) % 6 == 3;
      assert (3 * t + 1) / 6 == j && (3 * t + 1) % 6 == 4;
      assert (3 * t + 2) / 6 == j && (3 * t + 2) % 6 == 5;
    }
    assert TriangleList(s)[t] == (s[3 * t], s[3 * t + 1], s[3 * t + 2]);
  }

  /** The vertex stream of a bar of positive size, read as GL_TRIANGLES,
      consists of twelve triangles, all counter-clockwise seen from outside,
      so back-face culling keeps exactly the faces turned to the viewer. */
  lemma BarWinding(m: Mesh, b: Box, color: Vec3, mode: Primitive, t: int)
    requires Proper(b)
    requires |m.vertices| == |m.colors|
    requires 0 <= t < 12
    ensures var r := AddBar(m, b, color, mode);
      var ts := TriangleList(r.vertices[|m.vertices|..]);
      |ts| == 12 && FacesOutward(ts[t], b)
  {
    BarTriangle(m, b, color, mode, t);
    FaceWinding(b, Faces[t / 2]);
  }

  // ---------------------------------------------------------------------------
  // add_bars: placement and colour of every cell

  const BarWidth: real := 0.1

  /** Centre of column x on the x axis: [0, NUM_BANDS - 1] = [0, 15] mapped onto [-1.5, 1.5]. */
  function XMid(x: int): (m: real)
    ensures m == -1.5 + 0.2 * x as real
    ensures 0 <= x < 16 ==> -1.5 <= m <= 1.5
  {
    3.0 * (-0.5 + x as real / 15.0)
  }

  /** Centre of row y on the z axis: [0, 15] mapped onto [1.5, -1.5]. */
  function ZMid(y: int): (m: real)
    ensures m == 1.5 - 0.2 * y as real
    ensures 0 <= y < 16 ==> -1.5 <= m <= 1.5
  {
    3.0 * (0.5 - y as real / 15.0)
  }

  /** The box add_bar builds around a centre, from the floor up to `height`. */
  function BarBox(xMid: real, zMid: real, height: real): (b: Box)
    ensures height > 0.0 ==> Proper(b)
    ensures b.rgt - b.lft == BarWidth && b.fnt - b.bck == BarWidth && b.top - b.btm == height
    ensures Centre(b) == Vec3(xMid, height / 2.0, zMid)
  {
    Box(xMid - BarWidth / 2.0, xMid + BarWidth / 2.0, 0.0, height, zMid - BarWidth / 2.0, zMid + BarWidth / 2.0)
  }

  /** Bars of different columns or rows never overlap: neighbouring centres are
      0.2 apart and a bar is 0.1 wide. */
  lemma FootprintsDisjoint(x: int, x': int, y: int, y': int, h: real, h': real)
    requires IsCell(y, x) && IsCell(y', x')
    ensures x < x' ==> BarBox(XMid(x), ZMid(y), h).rgt < BarBox(XMid(x'), ZMid(y'), h').lft
    ensures y < y' ==> BarBox(XMid(x'), ZMid(y'), h').fnt < BarBox(XMid(x), ZMid(y), h).bck
  {
  }

  /** The position-keyed colour gradient of bar (x, y). */
  function BarColor(x: int, y: int): (c: Vec3)
    requires IsCell(y, x)
    ensures 0.0 <= c.x <= 1.0 && 0.0 <= c.y <= 1.0 && 0.0 <= c.z <= 1.0
  {
    var blue := y as real / 15.0;
    var green := x as real / 15.0;
    ProductInUnitInterval(1.0 - blue, 1.0 - green);
    Vec3((1.0 - blue) * (1.0 - green), green, blue)
  }

  /** The three corner bars (0, 0), (15, 0) and (0, 15) are pure red, green and
      blue, and the far corner (15, 15) is cyan. */
  lemma CornerColors()
    ensures BarColor(0, 0) == Vec3(1.0, 0.0, 0.0)
    ensures BarColor(NumBands - 1, 0) == Vec3(0.0, 1.0, 0.0)
    ensures BarColor(0, NumBands - 1) == Vec3(0.0, 0.0, 1.0)
    ensures BarColor(NumBands - 1, NumBands - 1) == Vec3(0.0, 1.0, 1.0)
  {
  }

  /** Column x and row y of the k-th bar add_bars emits (y outer, x inner). */
  function CellRow(k: int): int {
    k / 16
  }

  function CellColumn(k: int): int {
    k % 16
  }

  const NumCells: nat := NumBands * NumBands

  /** The box of the k-th cell for displayed heights g. */
  function CellBox(g: Grid, k: int): Box
    requires IsGrid(g) && 0 <= k < NumCells
  {
    BarBox(XMid(CellColumn(k)), ZMid(CellRow(k)), g[CellRow(k)][CellColumn(k)])
  }

  function CellColor(k: int): Vec3
    requires 0 <= k < NumCells
  {
    BarColor(CellColumn(k), CellRow(k))
  }

  /** One bar on its own, in closed form: vertex i is corner BarCorners()[i]
      of the box, coloured by face i / 6. */
  function BarMesh(b: Box, color: Vec3, mode: Primitive): (m: Mesh)
    ensures |m.vertices| == 36 && |m.colors| == 36
  {
    Mesh(seq(36, i requires 0 <= i < 36 => Place(b, BarCorners()[i])),
         seq(36, i requires 0 <= i < 36 => Scale(color, Shade(Faces[i / 6], mode))))
  }

  /** Both buffers of `n` after those of `m`. */
  function Append(m: Mesh, n: Mesh): Mesh {
    Mesh(m.vertices + n.vertices, m.colors + n.colors)
  }

  /** The buffers of a run of meshes, one after the other. */
  function Concat(ms: seq<Mesh>): (r: Mesh)
    requires forall k :: 0 <= k < |ms| ==> |ms[k].vertices| == 36 && |ms[k].colors| == 36
    ensures |r.vertices| == 36 * |ms| && |r.colors| == 36 * |ms|
  {
    if ms == [] then EmptyMesh else Append(Concat(ms[..|ms| - 1]), ms[|ms| - 1])
  }

  /** Entry 36k + i of a run of 36-entry meshes is entry i of mesh k. */
  lemma {:induction false} ConcatAt(ms: seq<Mesh>, k: nat, i: nat)
    requires forall k :: 0 <= k < |ms| ==> |ms[k].vertices| == 36 && |ms[k].colors| == 36
    requires k < |ms| && i < 36
    ensures Concat(ms).vertices[36 * k + i] == ms[k].vertices[i]
    ensures Concat(ms).colors[36 * k + i] == ms[k].colors[i]
  {
    var init := ms[..|ms| - 1];
    if k < |ms| - 1 {
      ConcatAt(init, k, i);
    }
  }

  /** add_bar appends exactly BarMesh to buffers of equal length. */
  lemma AddBarAppends(m: Mesh, b: Box, color: Vec3, mode: Primitive)
    requires |m.vertices| == |m.colors|
    ensures AddBar(m, b, color, mode) == Append(m, BarMesh(b, color, mode))
  {
    var r := AddBar(m, b, color, mode);
    var bar := BarMesh(b, color, mode);
    forall i | 0 <= i < 36
      ensures r.vertices[|m.vertices| + i] == bar.vertices[i]
      ensures r.colors[|m.colors| + i] == bar.colors[i]
    {
      AddBarContents(m, b, color, mode, i);
    }
    assert r.vertices == m.vertices + bar.vertices;
    assert r.colors == m.colors + bar.colors;
  }

  /** The bar of the k-th cell. */
  function CellBar(g: Grid, mode: Primitive, k: int): (m: Mesh)
    requires IsGrid(g) && 0 <= k < NumCells
    ensures |m.vertices| == 36 && |m.colors| == 36
  {
    BarMesh(CellBox(g, k), CellColor(k), mode)
  }

  /** The bars of the first n cells, in add_bars' order. */
  function CellBars(g: Grid, mode: Primitive, n: nat): (ms: seq<Mesh>)
    requires IsGrid(g) && n <= NumCells
    ensures |ms| == n
    ensures forall k :: 0 <= k < n ==> ms[k] == CellBar(g, mode, k)
  {
    seq(n, k requires 0 <= k < n => CellBar(g, mode, k))
  }

  /** The buffers after add_bars has emitted its first n bars onto empty
      buffers. */
  function Bars(g: Grid, mode: Primitive, n: nat): (m: Mesh)
    requires IsGrid(g) && n <= NumCells
    ensures |m.vertices| == 36 * n && |m.colors| == 36 * n
  {
    Concat(CellBars(g, mode, n))
  }

  /** Bars is add_bar applied cell after cell: each step is one add_bar call
      with the cell's box and gradient colour. */
  lemma BarsIsAddBarFold(g: Grid, mode: Primitive, k: nat)
    requires IsGrid(g) && k < NumCells
    ensures Bars(g, mode, k + 1) == AddBar(Bars(g, mode, k), CellBox(g, k), CellColor(k), mode)
  {
    assert CellBars(g, mode, k + 1)[..k] == CellBars(g, mode, k);
    AddBarAppends(Bars(g, mode, k), CellBox(g, k), CellColor(k), mode);
  }

  /** The buffers add_bars produces from empty buffers. */
  function BuildMesh(g: Grid, mode: Primitive): (m: Mesh)
    requires IsGrid(g)
    ensures |m.vertices| == NumBands * NumBands * 6 * 2 * 3
    ensures |m.colors| == NumBands * NumBands * 6 * 2 * 3
  {
    Bars(g, mode, NumCells)
  }

  /** The whole mesh: cell (y, x) is bar 16y + x, its vertices are its box's
      corners and its colours the gradient colour shaded per face. */
  lemma MeshContents(g: Grid, mode: Primitive, y: int, x: int, i: nat)
    requires IsGrid(g) && IsCell(y, x) && i < 36
    ensures var k := NumBands * y + x;
      var m := BuildMesh(g, mode);
      && m.vertices[36 * k + i] == Place(BarBox(XMid(x), ZMid(y), g[y][x]), BarCorners()[i])
      && m.colors[36 * k + i] == Scale(BarColor(x, y), Shade(Faces[i / 6], mode))
  {
    var k := NumBands * y + x;
    assert CellRow(k) == y && CellColumn(k) == x;
    ConcatAt(CellBars(g, mode, NumCells), k, i);
  }
}
