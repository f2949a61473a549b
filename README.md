# Stepped pyramid mesh generator

This project models `makePyramid`, the mesh builder of the Blender "Add Mesh: Pyramid"
add-on (`add_mesh_pyramid.py`). It takes five inputs: `initialSize`, `stepHeight`,
`stepWidth`, `numberSteps` and `pointTop`. It returns a vertex list and a quad face list
for a stepped pyramid.

Each pass of its loop emits eight corners:
- a bottom ring and a top ring, each a square of side `curSize` anchored at `(x, y)`;
- order: bottom front-left, front-right, back-left, back-right, then the same four
  corners on top.

Each pass also emits four side quads. From the second pass on it adds four connector
quads, which join the previous layer's top ring to the new bottom ring. Then it
shrinks the square, moves the anchor inwards and steps up.

After the loop it appends a top cap and a bottom cap. If `pointTop` is set, it overwrites
the last layer's four top corners in place with the centre of that top square.

Files:
- `add_mesh_pyramid.dfy` (module `AddMeshPyramid`):
  - the vertex, face, parameter and mesh types;
  - the recursive functions describing the loop's lists after `k` passes (`LoopVerts`,
    `LoopFaces`, with `StateAt` for the running variables);
  - the returned mesh `Pyramid`;
  - the method `MakePyramid`: the generator itself, a `while` loop over sequence
    accumulators, proved to return exactly `Pyramid`.
- `pyramid_properties.dfy` (module `PyramidProperties`): the lemmas about `Pyramid`.
  They cover exact counts, index bounds and distinctness, the fixed face order, the
  closed form of each layer's geometry, the apex collapse, and the fact that `pointTop`
  changes only the four apex slots.

The remaining definitions in `AddMeshPyramid` carry no contract of their own. The lemmas
below state what they mean:
- `Initial`, `Advance` and `StateAt` are the running variables: the start values at
  add_mesh_pyramid.py:44-47 and the per-pass update at lines 83-86.
- `LoopFaces` and `FacesAfter` are the face list the loop accumulates at lines 67-79,
  and its length.
- `SideFaces`, `ConnectorFaces`, `TopCap` and `BottomCap` are the face literals at
  lines 68-71, 76-79, 93 and 96.
- `TopCenter` is the centre computation at lines 99-110.
- `Vertices`, `Faces` and `Pyramid` are the returned lists at line 117.

Coordinates are exact `real`s. The integer offset `voffset` of pass `k` is `8 * k`, and
`MakePyramid`'s loop invariant says so.

## Model

| member | source | states |
|---|---|---|
| AddMeshPyramid.MakePyramid | add_mesh_pyramid.py:39-117 | For every numberSteps >= 1, the returned vertex and face lists are exactly `Pyramid(p)`. That is the loop's lists after numberSteps passes, with the top and bottom caps appended and the apex collapse applied when pointTop is set. |
| AddMeshPyramid.LayerVerts | add_mesh_pyramid.py:53-65 | A pass emits exactly 8 corners, in the order bfl, bfr, bbl, bbr, tfl, tfr, tbl, tbr. The order is the function's definition, and LayerVertices states each corner's coordinates in closed form. |
| AddMeshPyramid.LoopVerts | add_mesh_pyramid.py:51-65 | After k passes the vertex list holds exactly 8k vertices: each pass extends it by one layer of eight. |
| AddMeshPyramid.LayerFaces | add_mesh_pyramid.py:67-79 | A pass emits 8 faces when its vertex offset is positive (4 sides and 4 connectors) and 4 faces on the first pass. |
| AddMeshPyramid.CollapseTop | add_mesh_pyramid.py:98-114 | The apex collapse keeps the list length. It sets the four slots v+4 .. v+7 to the centre computed from slots 7, 6 and 5, and leaves every other slot unchanged. |
| PyramidProperties.StateAtClosedForm | add_mesh_pyramid.py:44-88 | At the start of pass k: x = y = k*stepWidth, z = k*stepHeight, curSize = initialSize - 2k*stepWidth. |
| PyramidProperties.LoopVertexAt | add_mesh_pyramid.py:51-65 | Slot 8k+j of the loop's vertex list is corner j of the layer emitted on pass k. |
| PyramidProperties.LoopFacesLength | add_mesh_pyramid.py:67-79 | After k passes the face list holds 0 faces for k = 0 and 8k - 4 faces otherwise. |
| PyramidProperties.LoopFacesAt | add_mesh_pyramid.py:67-79 | The faces of pass j sit at positions FacesAfter(j) .. FacesAfter(j+1) of the face list after any later pass. Later passes only append. |
| PyramidProperties.LoopFacesWellFormed | add_mesh_pyramid.py:67-88 | Every face emitted by the first k passes indexes only the 8k vertices emitted so far, with four pairwise distinct indices. |
| PyramidProperties.VertexCount | add_mesh_pyramid.py:51-114 | The returned vertex list has exactly 8 * numberSteps entries. The apex collapse only overwrites. |
| PyramidProperties.FaceCount | add_mesh_pyramid.py:68-96 | The face list has exactly 4n + 4(n-1) + 2 entries. |
| PyramidProperties.FacesWellFormed | add_mesh_pyramid.py:68-96 | Every face, caps included, has four pairwise distinct indices in [0, 8n). |
| PyramidProperties.MeshWellFormed | add_mesh_pyramid.py:39-117 | Every face of the returned mesh indexes its own vertex list in bounds, with four distinct indices. |
| PyramidProperties.SingleStep | add_mesh_pyramid.py:75-96 | With one step there are no connectors. The face list is exactly the four side faces, the top cap (6,7,5,4) and the bottom cap (2,3,1,0). |
| PyramidProperties.PassFaces | add_mesh_pyramid.py:68-79 | Pass k with v = 8k emits, in this order: front (v+4,v+5,v+1,v), back (v+6,v+7,v+3,v+2), left (v+2,v+6,v+4,v) and right (v+3,v+7,v+5,v+1). They start at position 0 on the first pass and at 8k-4 after it. When k > 0 they are followed by the connectors (v-4,v-3,v+1,v), (v-2,v-1,v+3,v+2), (v-4,v-2,v+2,v) and (v-3,v-1,v+3,v+1). |
| PyramidProperties.CapFaces | add_mesh_pyramid.py:92-96 | The last two faces are the top cap (v'+6,v'+7,v'+5,v'+4) with v' = 8(n-1), then the bottom cap (2,3,1,0). |
| PyramidProperties.VertexAt | add_mesh_pyramid.py:51-114 | Vertex 8k+j of the returned list is corner j of pass k. The exception is the last layer's top four slots with pointTop, which hold the centre of that top ring. |
| PyramidProperties.LayerVertices | add_mesh_pyramid.py:44-88 | Vertices 8k .. 8k+7 are, in order, the corners bfl, bfr, bbl, bbr at height k*stepHeight and tfl, tfr, tbl, tbr at height k*stepHeight + stepHeight. They form a square of side initialSize - 2k*stepWidth anchored at x = y = k*stepWidth. Only the apex collapse can change the top four of the last layer. |
| PyramidProperties.ApexCollapse | add_mesh_pyramid.py:98-114 | With pointTop, the last layer's four top slots are all (x + s/2, y + s/2, n*stepHeight), where x = y and s are the last layer's anchor and curSize. |
| PyramidProperties.TopRingDistinct | add_mesh_pyramid.py:59-62 | A layer's four top corners are pairwise distinct if and only if its curSize is not 0. |
| PyramidProperties.FlatTopRing | add_mesh_pyramid.py:51-96 | Without pointTop, the last four vertices lie at the last pass's z + stepHeight. They are pairwise distinct if and only if that pass's curSize is not 0. |
| PyramidProperties.LastLayerClosedForm | add_mesh_pyramid.py:83-88 | The last pass's curSize is initialSize - 2(n-1)*stepWidth, and its top ring height is n*stepHeight. |
| PyramidProperties.FlatTop | add_mesh_pyramid.py:51-96 | Without pointTop, the last four vertices lie at height n*stepHeight. They are pairwise distinct if and only if initialSize - 2(n-1)*stepWidth is not 0. |
| PyramidProperties.StraightSlot | add_mesh_pyramid.py:44-88 | With stepWidth = 0, slot j of layer k equals slot j of layer 0 lifted by k*stepHeight, outside the apex slots. |
| PyramidProperties.StraightPrism | add_mesh_pyramid.py:44-88 | With stepWidth = 0, every vertex outside the apex slots equals its counterpart in the first layer, lifted by (i/8)*stepHeight. |
| PyramidProperties.LoopVertsIgnoresPointTop | add_mesh_pyramid.py:51-88 | The loop's vertex list and running state do not depend on pointTop. |
| PyramidProperties.PointTopOnlyMovesApex | add_mesh_pyramid.py:93-114 | Setting pointTop leaves the face list identical and the vertex count unchanged. It keeps every vertex outside the last layer's four top slots. |

## Left out

- `add_pyramid_object` (add_mesh_pyramid.py:120-127) is not modelled. It hands the lists to Blender's mesh and object API and prints a debug value, which is host I/O.
- The `OBJECT_OT_add_pyramid` operator class is not modelled. Its UI property declarations and execute callback (lines 131-155) are host glue. Their only effect on the model is the precondition `numberSteps >= 1`, taken from the `min=1` bound on line 147.
- `menu_func`, `register`, `unregister`, `bl_info` and the `__main__` hook are plugin registration and are not modelled.
- Coordinates are exact `real`s. IEEE-754 rounding of the additions, subtractions and halvings is not modelled.
- numberSteps <= 0 is excluded by precondition on `MakePyramid` and `Pyramid`. The source does not guard it: `voffset` becomes -8, the caps index missing vertices, and with pointTop the code indexes an empty list. The range of the operator's property makes this input unreachable.
- A `curSize` driven to zero or below (large stepWidth) is not rejected. The model computes what the code computes. `FlatTop` and `TopRingDistinct` state exactly when a top ring degenerates to a point.
- `MakePyramid` appends each group of four faces with one `+` of a four-element sequence. The source makes four one-element `extend` calls. The resulting list is the same.
- The apex collapse's in-place writes to `vertList` are modelled as sequence updates, in the source's order (slots 6, 7, 5, 4). The model does not capture aliasing of the caller's list, since `makePyramid` creates its own lists.
