// A stepped-pyramid mesh generator: from five parameters it builds a list of
// vertices (eight per step) and a list of quad faces indexing into it.
// Coordinates are exact reals; the generator itself is `MakePyramid`, and
// `Pyramid` is the function it is proved to compute.

module AddMeshPyramid {

  /** A mesh vertex. */
  datatype Vertex = Vertex(x: real, y: real, z: real)

  /** A quad face: four vertex indices in winding order. */
  datatype Face = Face(i0: int, i1: int, i2: int, i3: int)

  /** The five inputs of the generator. */
  datatype Params = Params(
    initialSize: real,
    stepHeight: real,
    stepWidth: real,
    numberSteps: int,
    pointTop: bool)

  /** What the generator returns: the vertex list and the face list. */
  datatype Mesh = Mesh(verts: seq<Vertex>, faces: seq<Face>)

  /** The real-valued running variables of the generator loop at the start of a
      pass: the footprint size and the anchor corner. (The integer vertex offset
      of pass k is 8 * k.) */
  datatype State = State(curSize: real, x: real, y: real, z: real)

  function Initial(p: Params): State {
    State(p.initialSize, 0.0, 0.0, 0.0)
  }

  /** The state update at the end of each pass. */
  function Advance(p: Params, st: State): State {
    State(st.curSize - p.stepWidth * 2.0,
          st.x + p.stepWidth,
          st.y + p.stepWidth,
          st.z + p.stepHeight)
  }

  /** The running state at the start of pass `k` (and after the loop, for k = numberSteps). */
  function StateAt(p: Params, k: nat): State {
    if k == 0 then Initial(p) else Advance(p, StateAt(p, k - 1))
  }

  /** The eight corners one pass emits, in the order
      bottom front-left, front-right, back-left, back-right, then the same four on top. */
  function LayerVerts(st: State, stepHeight: real): (r: seq<Vertex>)
    ensures |r| == 8
  {
    var x, y, z, s := st.x, st.y, st.z, st.curSize;
    [Vertex(x, y, z), Vertex(x + s, y, z), Vertex(x, y + s, z), Vertex(x + s, y + s, z),
     Vertex(x, y, z + stepHeight), Vertex(x + s, y, z + stepHeight),
     Vertex(x, y + s, z + stepHeight), Vertex(x + s, y + s, z + stepHeight)]
  }

  /** Front, back, left and right side faces of the layer whose first vertex is `v`. */
  function SideFaces(v: int): seq<Face> {
    [Face(v + 4, v + 5, v + 1, v + 0),
     Face(v + 6, v + 7, v + 3, v + 2),
     Face(v + 2, v + 6, v + 4, v + 0),
     Face(v + 3, v + 7, v + 5, v + 1)]
  }

  /** Faces joining the previous layer's top ring to the bottom ring of the layer at `v`. */
  function ConnectorFaces(v: int): seq<Face> {
    [Face(v - 4, v - 3, v + 1, v + 0),
     Face(v - 2, v - 1, v + 3, v + 2),
     Face(v - 4, v - 2, v + 2, v + 0),
     Face(v - 3, v - 1, v + 3, v + 1)]
  }

  /** The faces one pass emits: connectors only when the layer is not the first. */
  function LayerFaces(v: int): (r: seq<Face>)
    ensures |r| == if v > 0 then 8 else 4
  {
    SideFaces(v) + (if v > 0 then ConnectorFaces(v) else [])
  }

  function TopCap(v: int): Face {
    Face(v + 6, v + 7, v + 5, v + 4)
  }

  const BottomCap: Face := Face(2, 3, 1, 0)

  /** The vertex list after `k` passes of the loop. */
  function LoopVerts(p: Params, k: nat): (r: seq<Vertex>)
    ensures |r| == 8 * k
  {
    if k == 0 then [] else LoopVerts(p, k - 1) + LayerVerts(StateAt(p, k - 1), p.stepHeight)
  }

  /** The face list after `k` passes of the loop; pass j works at offset 8 * j. */
  function LoopFaces(k: nat): seq<Face> {
    if k == 0 then [] else LoopFaces(k - 1) + LayerFaces(8 * (k - 1))
  }

  /** Number of faces emitted by the first `k` passes. */
  function FacesAfter(k: nat): nat {
    if k == 0 then 0 else 8 * k - 4
  }

  /** The apex point: the centre of the top ring of the layer at `v`, computed
      from its back-right, back-left and front-right top corners. */
  function TopCenter(verts: seq<Vertex>, v: int): Vertex
    requires 0 <= v && v + 8 <= |verts|
  {
    var x2 := verts[v + 7].x;
    var x1 := verts[v + 6].x;
    var y2 := verts[v + 7].y;
    var y1 := verts[v + 5].y;
    Vertex((x2 - x1) / 2.0 + x1, (y2 - y1) / 2.0 + y1, verts[v + 6].z)
  }

  /** Overwrite the four top vertices of the layer at `v` with their centre. */
  function CollapseTop(verts: seq<Vertex>, v: int): (r: seq<Vertex>)
    requires 0 <= v && v + 8 <= |verts|
    ensures |r| == |verts|
    ensures forall i | v + 4 <= i < v + 8 :: r[i] == TopCenter(verts, v)
    ensures forall i | 0 <= i < |verts| && !(v + 4 <= i < v + 8) :: r[i] == verts[i]
  {
    var c := TopCenter(verts, v);
    verts[v + 6 := c][v + 7 := c][v + 5 := c][v + 4 := c]
  }

  /** The returned vertex list: the loop's, with the last layer's top ring collapsed when
      pointTop is set. */
  function Vertices(p: Params): seq<Vertex>
    requires p.numberSteps >= 1
  {
    var verts := LoopVerts(p, p.numberSteps);
    if p.pointTop then CollapseTop(verts, 8 * (p.numberSteps - 1)) else verts
  }

  /** The returned face list: the loop's, then the top cap over the last layer and the
      bottom cap under the first. It depends on the number of steps only. */
  function Faces(n: int): seq<Face>
    requires n >= 1
  {
    LoopFaces(n) + [TopCap(8 * (n - 1))] + [BottomCap]
  }

  /** The mesh the generator returns. */
  function Pyramid(p: Params): Mesh
    requires p.numberSteps >= 1
  {
    Mesh(Vertices(p), Faces(p.numberSteps))
  }

  /** The generator: one pass per step, then the caps and the optional apex. */
  method MakePyramid(initialSize: real, stepHeight: real, stepWidth: real, numberSteps: int, pointTop: bool)
    returns (vertList: seq<Vertex>, faceList: seq<Face>)
    requires numberSteps >= 1
    ensures Mesh(vertList, faceList) == Pyramid(Params(initialSize, stepHeight, stepWidth, numberSteps, pointTop))
  {
    ghost var p := Params(initialSize, stepHeight, stepWidth, numberSteps, pointTop);
    vertList := [];
    faceList := [];
    var curSize := initialSize;
    var x, y, z := 0.0, 0.0, 0.0;
    var voffset := 0;
    var sn := 0;
    while sn < numberSteps
      invariant 0 <= sn <= numberSteps
      invariant voffset == 8 * sn && |vertList| == 8 * sn
      invariant State(curSize, x, y, z) == StateAt(p, sn)
      invariant vertList == LoopVerts(p, sn)
      invariant faceList == LoopFaces(sn)
    {
      var bfl := Vertex(x, y, z);
      var bfr := Vertex(x + curSize, y, z);
      var bbl := Vertex(x, y + curSize, z);
      var bbr := Vertex(x + curSize, y + curSize, z);
      var tfl := Vertex(x, y, z + stepHeight);
      var tfr := Vertex(x + curSize, y, z + stepHeight);
      var tbl := Vertex(x, y + curSize, z + stepHeight);
      var tbr := Vertex(x + curSize, y + curSize, z + stepHeight);
      vertList := vertList + [bfl, bfr, bbl, bbr, tfl, tfr, tbl, tbr];

      // side faces
      var front := Face(voffset + 4, voffset + 5, voffset + 1, voffset + 0);
      var back := Face(voffset + 6, voffset + 7, voffset + 3, voffset + 2);
      var left := Face(voffset + 2, voffset + 6, voffset + 4, voffset + 0);
      var right := Face(voffset + 3, voffset + 7, voffset + 5, voffset + 1);
      faceList := faceList + [front, back, left, right];

      // connectors to the previous layer's top ring, from the second pass on
      if voffset > 0 {
        var cFront := Face(voffset - 4, voffset - 3, voffset + 1, voffset + 0);
        var cBack := Face(voffset - 2, voffset - 1, voffset + 3, voffset + 2);
        var cLeft := Face(voffset - 4, voffset - 2, voffset + 2, voffset + 0);
        var cRight := Face(voffset - 3, voffset - 1, voffset + 3, voffset + 1);
        faceList := faceList + [cFront, cBack, cLeft, cRight];
      }

      curSize := curSize - stepWidth * 2.0;
      x := x + stepWidth;
      y := y + stepWidth;
      z := z + stepHeight;
      sn := sn + 1;
      voffset := voffset + 8;
    }

    ghost var layers := vertList;
    ghost var loopFaces := faceList;
    voffset := voffset - 8;
    faceList := faceList + [Face(voffset + 6, voffset + 7, voffset + 5, voffset + 4)];
    faceList := faceList + [Face(2, 3, 1, 0)];
    assert faceList == loopFaces + [TopCap(voffset)] + [BottomCap];

    if pointTop {
      var x2 := vertList[voffset + 7].x;
      var x1 := vertList[voffset + 6].x;
      var centerX := (x2 - x1) / 2.0 + x1;
      var y2 := vertList[voffset + 7].y;
      var y1 := vertList[voffset + 5].y;
      var centerY := (y2 - y1) / 2.0 + y1;
      var centerZ := vertList[voffset + 6].z;
      var pointCenter := Vertex(centerX, centerY, centerZ);
      vertList := vertList[voffset + 6 := pointCenter];
      vertList := vertList[voffset + 7 := pointCenter];
      vertList := vertList[voffset + 5 := pointCenter];
      vertList := vertList[voffset + 4 := pointCenter];
      assert pointCenter == TopCenter(layers, voffset);
    }
    assert vertList == if pointTop then CollapseTop(layers, voffset) else layers;
  }
}
