// What the generated pyramid mesh satisfies: sizes, index bounds, face order,
// per-layer geometry and the effect of collapsing the top to an apex.

module PyramidProperties {
  import opened AddMeshPyramid

  /** Every index of `f` lies in [0, vertexCount). */
  predicate InBounds(f: Face, vertexCount: int) {
    0 <= f.i0 < vertexCount && 0 <= f.i1 < vertexCount &&
    0 <= f.i2 < vertexCount && 0 <= f.i3 < vertexCount
  }

  /** The four indices of `f` are pairwise distinct. */
  predicate Distinct(f: Face) {
    f.i0 != f.i1 && f.i0 != f.i2 && f.i0 != f.i3 &&
    f.i1 != f.i2 && f.i1 != f.i3 && f.i2 != f.i3
  }

  /** Whether slot `i` of the vertex list is one the apex collapse overwrites. */
  predicate Collapsed(p: Params, i: int) {
    p.pointTop && 8 * p.numberSteps - 4 <= i
  }

  // ---------------------------------------------------------------------------
  // The running state

  /** After k advances the running state has the closed form
      x = y = k*stepWidth, z = k*stepHeight, curSize = initialSize - 2*k*stepWidth. */
  lemma {:induction false} StateAtClosedForm(p: Params, k: nat)
    ensures StateAt(p, k) == State(p.initialSize - 2.0 * (k as real) * p.stepWidth,
                                   (k as real) * p.stepWidth,
                                   (k as real) * p.stepWidth,
                                   (k as real) * p.stepHeight)
  {
    if k > 0 {
      StateAtClosedForm(p, k - 1);
      var j := (k - 1) as real;
      assert (j + 1.0) * p.stepWidth == j * p.stepWidth + p.stepWidth;
      assert (j + 1.0) * p.stepHeight == j * p.stepHeight + p.stepHeight;
    }
  }

  // ---------------------------------------------------------------------------
  // The loop's lists

  /** Slot j of layer k in the loop's list is corner j of the layer emitted on pass k. */
  lemma {:induction false} LoopVertexAt(p: Params, n: nat, k: nat, j: int)
    requires k < n && 0 <= j < 8
    ensures 8 * k + j < |LoopVerts(p, n)|
    ensures LoopVerts(p, n)[8 * k + j] == LayerVerts(StateAt(p, k), p.stepHeight)[j]
  {
    var prev := LoopVerts(p, n - 1);
    var layer := LayerVerts(StateAt(p, n - 1), p.stepHeight);
    assert LoopVerts(p, n) == prev + layer;
    if k < n - 1 {
      LoopVertexAt(p, n - 1, k, j);
      assert (prev + layer)[8 * k + j] == prev[8 * k + j];
    } else {
      assert (prev + layer)[|prev| + j] == layer[j];
    }
  }

  lemma {:induction false} LoopFacesLength(k: nat)
    ensures |LoopFaces(k)| == FacesAfter(k)
  {
    if k > 0 {
      LoopFacesLength(k - 1);
      assert |LayerFaces(8 * (k - 1))| == if k > 1 then 8 else 4;
    }
  }

  /** The faces of pass j sit at positions FacesAfter(j) .. FacesAfter(j + 1) of the loop's list. */
  lemma {:induction false} LoopFacesAt(k: nat, j: nat, i: int)
    requires j < k && 0 <= i < |LayerFaces(8 * j)|
    ensures |LoopFaces(k)| == FacesAfter(k)
    ensures FacesAfter(j) + i < FacesAfter(k)
    ensures LoopFaces(k)[FacesAfter(j) + i] == LayerFaces(8 * j)[i]
  {
    LoopFacesLength(k);
    LoopFacesLength(k - 1);
    var prev, layer := LoopFaces(k - 1), LayerFaces(8 * (k - 1));
    assert |layer| == if k > 1 then 8 else 4;
    if j < k - 1 {
      LoopFacesAt(k - 1, j, i);
      assert (prev + layer)[FacesAfter(j) + i] == prev[FacesAfter(j) + i];
    } else {
      assert (prev + layer)[|prev| + i] == layer[i];
    }
  }

  /** Every face the first k passes emit indexes only the 8 * k vertices emitted so far,
      with four distinct indices. */
  lemma {:induction false} LoopFacesWellFormed(k: nat)
    ensures forall f | f in LoopFaces(k) :: InBounds(f, 8 * k) && Distinct(f)
  {
    if k > 0 {
      LoopFacesWellFormed(k - 1);
      var v := 8 * (k - 1);
      assert forall f | f in LayerFaces(v) :: InBounds(f, 8 * k) && Distinct(f) by {
        assert v > 0 ==> v >= 8;
      }
    }
  }

  // ---------------------------------------------------------------------------
  // Counts and index bounds of the returned mesh

  /** The vertex list holds exactly eight vertices per step: the apex collapse only overwrites. */
  lemma VertexCount(p: Params)
    requires p.numberSteps >= 1
    ensures |Vertices(p)| == 8 * p.numberSteps
  {
  }

  /** Four side faces per pass, four connectors per pass but the first, and two caps. */
  lemma FaceCount(n: int)
    requires n >= 1
    ensures |Faces(n)| == 4 * n + 4 * (n - 1) + 2
  {
    LoopFacesLength(n);
  }

  /** Every face has four pairwise distinct indices in [0, 8 * n). */
  lemma FacesWellFormed(n: int)
    requires n >= 1
    ensures forall i | 0 <= i < |Faces(n)| :: InBounds(Faces(n)[i], 8 * n) && Distinct(Faces(n)[i])
  {
    LoopFacesWellFormed(n);
    var faces := Faces(n);
    assert faces == LoopFaces(n) + [TopCap(8 * (n - 1)), BottomCap];
    forall i | 0 <= i < |faces|
      ensures InBounds(faces[i], 8 * n) && Distinct(faces[i])
    {
      if i < |LoopFaces(n)| {
        assert faces[i] in LoopFaces(n);
      }
    }
  }

  /** Every face of the returned mesh has four pairwise distinct indices into its vertex list. */
  lemma MeshWellFormed(p: Params)
    requires p.numberSteps >= 1
    ensures var m := Pyramid(p);
      forall i | 0 <= i < |m.faces| :: InBounds(m.faces[i], |m.verts|) && Distinct(m.faces[i])
  {
    VertexCount(p);
    FacesWellFormed(p.numberSteps);
  }

  /** A single step has no connector faces: four sides, the top cap and the bottom cap. */
  lemma SingleStep()
    ensures Faces(1) ==
      [Face(4, 5, 1, 0), Face(6, 7, 3, 2), Face(2, 6, 4, 0), Face(3, 7, 5, 1),
       Face(6, 7, 5, 4), Face(2, 3, 1, 0)]
  {
    assert LoopFaces(1) == LayerFaces(0);
  }

  // ---------------------------------------------------------------------------
  // Face order

  /** Pass k (vertex offset v = 8k) contributes its front, back, left and right side faces
      starting at position 0 for the first pass and 8k - 4 after it, followed, from the
      second pass on, by the four connector faces. */
  lemma PassFaces(n: int, k: nat)
    requires k < n
    ensures var faces := Faces(n);
      var v := 8 * k;
      var b := if k == 0 then 0 else 8 * k - 4;
      b + 4 <= |faces| &&
      faces[b] == Face(v + 4, v + 5, v + 1, v) &&
      faces[b + 1] == Face(v + 6, v + 7, v + 3, v + 2) &&
      faces[b + 2] == Face(v + 2, v + 6, v + 4, v) &&
      faces[b + 3] == Face(v + 3, v + 7, v + 5, v + 1) &&
      (k > 0 ==>
        b + 8 <= |faces| &&
        faces[b + 4] == Face(v - 4, v - 3, v + 1, v) &&
        faces[b + 5] == Face(v - 2, v - 1, v + 3, v + 2) &&
        faces[b + 6] == Face(v - 4, v - 2, v + 2, v) &&
        faces[b + 7] == Face(v - 3, v - 1, v + 3, v + 1))
  {
    var loop := LoopFaces(n);
    var faces := Faces(n);
    assert faces == loop + [TopCap(8 * (n - 1)), BottomCap];
    var b := FacesAfter(k);
    LoopFacesAt(n, k, 0);
    LoopFacesAt(n, k, 1);
    LoopFacesAt(n, k, 2);
    LoopFacesAt(n, k, 3);
    assert faces[b] == loop[b] && faces[b + 1] == loop[b + 1];
    assert faces[b + 2] == loop[b + 2] && faces[b + 3] == loop[b + 3];
    if k > 0 {
      LoopFacesAt(n, k, 4);
      LoopFacesAt(n, k, 5);
      LoopFacesAt(n, k, 6);
      LoopFacesAt(n, k, 7);
      assert faces[b + 4] == loop[b + 4] && faces[b + 5] == loop[b + 5];
      assert faces[b + 6] == loop[b + 6] && faces[b + 7] == loop[b + 7];
    }
  }

  /** The last two faces are the top cap over the last layer's top ring and the bottom cap
      under the first layer's bottom ring. */
  lemma CapFaces(n: int)
    requires n >= 1
    ensures var faces := Faces(n);
      var v := 8 * (n - 1);
      |faces| >= 2 &&
      faces[|faces| - 2] == Face(v + 6, v + 7, v + 5, v + 4) &&
      faces[|faces| - 1] == Face(2, 3, 1, 0)
  {
  }

  // ---------------------------------------------------------------------------
  // Geometry

  /** Where vertex 8k + j of the returned list comes from: corner j of pass k, unless the
      apex collapse overwrote it with the centre of the last layer's top ring. */
  lemma VertexAt(p: Params, k: nat, j: int)
    requires k < p.numberSteps && 0 <= j < 8
    ensures 8 * k + j < |Vertices(p)|
    ensures Vertices(p)[8 * k + j] ==
      if p.pointTop && k == p.numberSteps - 1 && 4 <= j
      then TopCenter(LoopVerts(p, p.numberSteps), 8 * k)
      else LayerVerts(StateAt(p, k), p.stepHeight)[j]
  {
    LoopVertexAt(p, p.numberSteps, k, j);
  }

  /** Pass k emits, at vertex slots 8k .. 8k+7, the corners bfl, bfr, bbl, bbr of a square of
      side curSize = initialSize - 2k*stepWidth anchored at x = y = k*stepWidth on height
      z = k*stepHeight, then tfl, tfr, tbl, tbr of the same square at z + stepHeight.
      Only the apex collapse can change the top four of the last layer. */
  lemma LayerVertices(p: Params, k: nat)
    requires k < p.numberSteps
    ensures var verts := Vertices(p);
      var x := (k as real) * p.stepWidth;
      var z := (k as real) * p.stepHeight;
      var s := p.initialSize - 2.0 * (k as real) * p.stepWidth;
      var h := p.stepHeight;
      var v := 8 * k;
      v + 8 <= |verts| &&
      verts[v] == Vertex(x, x, z) &&
      verts[v + 1] == Vertex(x + s, x, z) &&
      verts[v + 2] == Vertex(x, x + s, z) &&
      verts[v + 3] == Vertex(x + s, x + s, z) &&
      (!(p.pointTop && k == p.numberSteps - 1) ==>
        verts[v + 4] == Vertex(x, x, z + h) &&
        verts[v + 5] == Vertex(x + s, x, z + h) &&
        verts[v + 6] == Vertex(x, x + s, z + h) &&
        verts[v + 7] == Vertex(x + s, x + s, z + h))
  {
    StateAtClosedForm(p, k);
    VertexAt(p, k, 0);
    VertexAt(p, k, 1);
    VertexAt(p, k, 2);
    VertexAt(p, k, 3);
    VertexAt(p, k, 4);
    VertexAt(p, k, 5);
    VertexAt(p, k, 6);
    VertexAt(p, k, 7);
  }

  /** With pointTop, the four top vertices of the last layer all become the centre of that
      layer's top square, (x + s/2, y + s/2, numberSteps * stepHeight). */
  lemma ApexCollapse(p: Params)
    requires p.numberSteps >= 1 && p.pointTop
    ensures var verts := Vertices(p);
      var n := p.numberSteps;
      var x := ((n - 1) as real) * p.stepWidth;
      var s := p.initialSize - 2.0 * ((n - 1) as real) * p.stepWidth;
      |verts| == 8 * n &&
      forall i | 8 * n - 4 <= i < 8 * n ::
        verts[i] == Vertex(x + s / 2.0, x + s / 2.0, (n as real) * p.stepHeight)
  {
    var n := p.numberSteps;
    var k := n - 1;
    LoopVertexAt(p, n, k, 5);
    LoopVertexAt(p, n, k, 6);
    LoopVertexAt(p, n, k, 7);
    StateAtClosedForm(p, k);
    LastLayerClosedForm(p);
  }

  /** The top ring of a layer is four distinct points exactly when its footprint size is not 0. */
  lemma TopRingDistinct(st: State, h: real)
    ensures var layer := LayerVerts(st, h);
      (forall i, j | 4 <= i < j < 8 :: layer[i] != layer[j]) <==> st.curSize != 0.0
  {
    var layer := LayerVerts(st, h);
    if st.curSize == 0.0 {
      assert layer[4] == layer[5];
    }
  }

  /** Without pointTop, the last layer's top ring is that of pass numberSteps - 1, at
      height z + stepHeight, and it is four distinct points exactly when curSize is not 0. */
  lemma FlatTopRing(p: Params)
    requires p.numberSteps >= 1 && !p.pointTop
    ensures var st := StateAt(p, p.numberSteps - 1);
      var verts := Vertices(p);
      var t := 8 * p.numberSteps - 4;
      |verts| == t + 4 &&
      (forall i | t <= i < t + 4 :: verts[i].z == st.z + p.stepHeight) &&
      ((forall i, j | t <= i < j < t + 4 :: verts[i] != verts[j]) <==> st.curSize != 0.0)
  {
    var n := p.numberSteps;
    var verts := LoopVerts(p, n);
    assert Vertices(p) == verts;
    var st := StateAt(p, n - 1);
    var layer := LayerVerts(st, p.stepHeight);
    var t := 8 * (n - 1);
    LoopVertexAt(p, n, n - 1, 4);
    LoopVertexAt(p, n, n - 1, 5);
    LoopVertexAt(p, n, n - 1, 6);
    LoopVertexAt(p, n, n - 1, 7);
    TopRingDistinct(st, p.stepHeight);
    if st.curSize != 0.0 {
      forall i, j | t + 4 <= i < j < t + 8 ensures verts[i] != verts[j] {
        assert layer[i - t] != layer[j - t];
      }
    } else {
      assert verts[t + 4] == layer[4] == layer[5] == verts[t + 5];
    }
  }

  /** The last layer's curSize and top height in closed form. */
  lemma LastLayerClosedForm(p: Params)
    requires p.numberSteps >= 1
    ensures StateAt(p, p.numberSteps - 1).curSize
            == p.initialSize - 2.0 * ((p.numberSteps - 1) as real) * p.stepWidth
    ensures StateAt(p, p.numberSteps - 1).z + p.stepHeight == (p.numberSteps as real) * p.stepHeight
  {
    StateAtClosedForm(p, p.numberSteps - 1);
  }

  /** With a flat top, the last layer's top ring lies at height numberSteps * stepHeight,
      and its four corners are pairwise distinct exactly when the last curSize is not 0. */
  lemma FlatTop(p: Params)
    requires p.numberSteps >= 1 && !p.pointTop
    ensures |Vertices(p)| == 8 * p.numberSteps
    ensures forall i | 8 * p.numberSteps - 4 <= i < 8 * p.numberSteps ::
      Vertices(p)[i].z == (p.numberSteps as real) * p.stepHeight
    ensures (forall i, j | 8 * p.numberSteps - 4 <= i < j < 8 * p.numberSteps ::
               Vertices(p)[i] != Vertices(p)[j])
            <==> p.initialSize - 2.0 * ((p.numberSteps - 1) as real) * p.stepWidth != 0.0
  {
    FlatTopRing(p);
    LastLayerClosedForm(p);
  }

  /** With stepWidth = 0, slot j of layer k is slot j of layer 0 lifted by k * stepHeight. */
  lemma StraightSlot(p: Params, k: nat, j: int)
    requires k < p.numberSteps && 0 <= j < 8 && p.stepWidth == 0.0
    requires !Collapsed(p, 8 * k + j) && !Collapsed(p, j)
    ensures 8 * k + j < |Vertices(p)|
    ensures var verts := Vertices(p);
      verts[8 * k + j] == Vertex(verts[j].x, verts[j].y, verts[j].z + (k as real) * p.stepHeight)
  {
    VertexAt(p, k, j);
    VertexAt(p, 0, j);
    StateAtClosedForm(p, k);
    assert (k as real) * p.stepWidth == 0.0;
  }

  /** With stepWidth = 0 every layer has the first layer's footprint, lifted by k * stepHeight. */
  lemma StraightPrism(p: Params)
    requires p.numberSteps >= 1 && p.stepWidth == 0.0
    ensures var verts := Vertices(p);
      |verts| == 8 * p.numberSteps &&
      forall i | 0 <= i < |verts| && !Collapsed(p, i) && !Collapsed(p, i % 8) ::
        verts[i] == Vertex(verts[i % 8].x, verts[i % 8].y,
                           verts[i % 8].z + ((i / 8) as real) * p.stepHeight)
  {
    var verts := Vertices(p);
    forall i | 0 <= i < |verts| && !Collapsed(p, i) && !Collapsed(p, i % 8)
      ensures verts[i] == Vertex(verts[i % 8].x, verts[i % 8].y,
                                 verts[i % 8].z + ((i / 8) as real) * p.stepHeight)
    {
      var k, j := i / 8, i % 8;
      assert 8 * k + j == i;
      StraightSlot(p, k, j);
    }
  }

  // ---------------------------------------------------------------------------
  // pointTop changes nothing but the apex

  lemma {:induction false} LoopVertsIgnoresPointTop(p: Params, q: Params, k: nat)
    requires p.initialSize == q.initialSize && p.stepHeight == q.stepHeight && p.stepWidth == q.stepWidth
    ensures LoopVerts(p, k) == LoopVerts(q, k) && StateAt(p, k) == StateAt(q, k)
  {
    if k > 0 {
      LoopVertsIgnoresPointTop(p, q, k - 1);
    }
  }

  /** Setting pointTop leaves the face list as it is and keeps every vertex outside the last
      layer's top four slots. */
  lemma PointTopOnlyMovesApex(p: Params)
    requires p.numberSteps >= 1
    ensures var pointed := Pyramid(p.(pointTop := true));
      var flat := Pyramid(p.(pointTop := false));
      pointed.faces == flat.faces &&
      |pointed.verts| == |flat.verts| == 8 * p.numberSteps &&
      forall i | 0 <= i < 8 * p.numberSteps - 4 :: pointed.verts[i] == flat.verts[i]
  {
    LoopVertsIgnoresPointTop(p.(pointTop := true), p.(pointTop := false), p.numberSteps);
  }
}
