# ASCII legacy-VTK PolyData writer — Dafny model

This project models the exporter of the Blender add-on `io_mesh_vtk`. The
function `ascii_write_vtk` (with its helper `vtk_header`) writes the active
mesh as a legacy VTK file in ASCII. The file is a `POLYDATA` dataset. In order,
it holds:

- a three-line header;
- `DATASET POLYDATA`;
- a `POINTS` section with one coordinate line per vertex;
- a `POLYGONS` section with one row per polygon;
- one `POINT_DATA` / `COLOR_SCALARS` block per vertex-colour layer.

The model is a pure function `VtkWriter.Write(mesh, fmt)`. It returns the
file's lines, without their newlines. It returns an error where the source
would raise `IndexError`.

The modules:

- `MeshData` (`mesh.dfy`): the mesh as the writer sees it. This is the name,
  the vertices, the polygons (vertex indices and loop indices), the loops (the
  vertex each loop sits on) and the colour layers (one RGBA per loop).
  `Consistent` is the agreement Blender keeps between these.
- `VtkWriter` (`writer.dfy`): the writer. It follows the source statement by
  statement:
  - `ScanLoops` is the inner `for li in p.loop_indices` loop. Its `continue`
    does not leave the loop.
  - `ScanPolygons` is the polygon loop with the `found` flag.
  - `VertexColorGroups` is the `for i in range(len(vertices))` loop.
- `ColorSelection` (`colorselection.dfy`): the colour rule stated without
  loops. For each vertex, take the first polygon that touches it, then the
  colours of all that polygon's loops on the vertex. It proves that the
  scanning functions compute exactly this.
- `WriterProperties` (`properties.dfy`): the layout of the file. It covers the
  order and count of lines, the POLYGONS size, the fields of a face row, and
  the error path.
- `ColorBlockExamples` (`properties.dfy`): two concrete meshes. On each, a
  colour block does not hold one line per declared point.
- `Decimal` (`decimal.dfy`): Python's `str()` of a non-negative integer. Its
  inverse `DecimalValue` is proved, and so is the fact that `str()` is a
  bijection onto canonical decimal texts.
- `Fields` (`fields.dfy`): joining and splitting on single spaces, with the
  split/join round trip.
- `Results` (`results.dfy`): the success-or-error result type.

Facts about the source that the model keeps as written:

- The add-on has no reader. `ImportVTK` is named in `menu_import`
  (`__init__.py:83`) but never defined.
- The writer emits one colour block per vertex-colour layer.
- A vertex that no loop sits on gets no colour line, so its block holds fewer
  lines than `POINT_DATA n` announces (`LooseVertexGetsNoColorLine`).
- A polygon with two loops on one vertex gives that vertex two colour lines,
  so its block holds more lines than announced
  (`RepeatedCornerGivesTwoColorLines`).

## Model

| member | source | states |
|---|---|---|
| WriterProperties.WriteBeginsWithHeader | __init__.py:152-157 | the output opens with exactly `# vtk DataFile Version 4.2`, the mesh name verbatim, then `ASCII` |
| WriterProperties.WritePointsSection | __init__.py:117-120 | line 4 is `DATASET POLYDATA`; line 5 is `POINTS <n> float`, where n is the vertex count; the next n lines are each vertex's three formatted coordinates, in vertex order |
| WriterProperties.WritePolygonsSection | __init__.py:123-129 | after the points comes `POLYGONS <f> <size>`, then exactly one face row per polygon, in polygon order; each row splits into the polygon's vertex count and vertex indices; the size equals the number of fields in those rows |
| WriterProperties.PolygonsSizeCountsFields | __init__.py:123-124 | the size in the POLYGONS header, Σ(1 + face size), equals the total number of space-separated fields in the face rows that follow |
| WriterProperties.FaceRowFields | __init__.py:125-129 | splitting a face row on spaces gives 1 + k canonical decimal fields; the first denotes the vertex count k, and field j+1 denotes the polygon's j-th vertex index |
| WriterProperties.WriteWithoutColorsEndsAfterFaces | __init__.py:132 | with no colour layers, writing never fails and the output ends with the last face row (6 + n + f lines) |
| WriterProperties.WriteColorBlocks | __init__.py:132-134 | after the face rows comes one block per colour layer, in layer order; each block starts with `POINT_DATA <n>` and `COLOR_SCALARS <layer name> 4` |
| WriterProperties.ColorBlockGroupsByVertex | __init__.py:139 | a block's colour lines are the lines of vertex 0, then vertex 1, and so on up to vertex n-1 |
| WriterProperties.WriteSucceedsOnConsistentMesh | __init__.py:144-146 | on a `Consistent` mesh (every loop index in range, one colour per loop in every layer) writing does not raise |
| WriterProperties.DanglingLoopIndexFails | __init__.py:144-145 | with at least one vertex and one colour layer, a dangling first loop index of the first polygon makes the writer raise on that index |
| VtkWriter.Write | __init__.py:109-149 | no contract; specified by the `WriterProperties` lemmas (layout, colour blocks, error path) |
| VtkWriter.VtkHeader | __init__.py:152-157 | no contract; specified by `WriteBeginsWithHeader` |
| VtkWriter.ScanLoops | __init__.py:144-149 | no contract; specified by `ScanLoopsEmitsMatches` |
| VtkWriter.ScanPolygons | __init__.py:140-149 | no contract; specified by `ScanAfterFoundIsEmpty` and `ScanPolygonsSelectsFirst` |
| VtkWriter.VertexColorLines | __init__.py:139-149 | no contract; specified by `FirstMatchSelection` and `VertexColoredIffTouched` |
| VtkWriter.FaceRow | __init__.py:125-129 | no contract; specified by `FaceRowFields` |
| VtkWriter.AppendIndices | __init__.py:127-128 | no contract; specified by `AppendIndicesJoins` |
| VtkWriter.PolygonsSize | __init__.py:123-124 | no contract; specified by `PolygonsSizeCountsFields` |
| WriterProperties.AppendIndicesJoins | __init__.py:126-128 | appending the indices to a joined row gives the join of the row's fields followed by the indices' decimal texts |
| VtkWriter.VertexColorGroups | __init__.py:139-149 | the vertex loop succeeds iff every vertex's scan succeeds; it then yields one group per vertex, and group i is vertex i's colour lines |
| VtkWriter.ColorBlocks | __init__.py:132-134 | the layer loop succeeds iff every layer's block succeeds; it then yields one block per layer, in layer order |
| VtkWriter.ColorBlock | __init__.py:133-139 | a layer's block is written iff every vertex's colour scan succeeds |
| ColorSelection.ScanLoopsEmitsMatches | __init__.py:144-149 | the inner loop emits one colour line for every loop of the polygon that sits on the vertex, in loop order, not just for the first |
| ColorSelection.ScanAfterFoundIsEmpty | __init__.py:141-143 | once a colour has been found, the remaining polygons add no lines |
| ColorSelection.ScanPolygonsSelectsFirst | __init__.py:140-149 | over any polygon sequence, the scan yields the matching-loop colours of the first polygon touching the vertex, or nothing when none touches it |
| ColorSelection.FirstMatchSelection | __init__.py:136-149 | the colour lines of vertex i come only from the first polygon, in polygon order, having a loop on i; all of that polygon's loops on i contribute; an untouched vertex gets none |
| ColorSelection.VertexColoredIffTouched | __init__.py:140-149 | a vertex gets at least one colour line iff some loop of some polygon sits on it |
| ColorSelection.MatchingLoopsOfOne | __init__.py:144-146 | a single loop is selected iff it sits on the vertex |
| ColorSelection.MatchingLoopsAppend | __init__.py:144-149 | the selection over a concatenation of loop lists is the concatenation of the selections; with `MatchingLoopsOfOne` this fixes the order and the count of the selected loops |
| ColorSelection.MatchingLoopsSelects | __init__.py:144-145 | the loops selected for a vertex are exactly the loops of the list that sit on it; there is one iff the list touches the vertex |
| ColorBlockExamples.LooseVertexGetsNoColorLine | __init__.py:133-149 | a triangle plus a loose vertex gives a block that announces 4 points but holds 3 colour lines |
| ColorBlockExamples.RepeatedCornerGivesTwoColorLines | __init__.py:144-149 | a polygon with two loops on vertex 1 gives vertex 1 two colour lines, so a 3-point block holds 4 lines |
| ColorBlockExamples.SingleLayerLineCount | __init__.py:114-149 | a consistent one-layer mesh writes 6 + n + f + 2 lines plus the sum of the per-vertex colour-line counts |
| Decimal.NatToString | __init__.py:118 | `str()` of a count or index is a non-empty string of decimal digits with no leading zero; it starts with `0` only for zero |
| Decimal.DecimalValueOfNatToString | __init__.py:118 | the text written for a count denotes that count |
| Decimal.NatToStringOfDecimalValue | __init__.py:128 | every canonical decimal text is the `str()` of the number it denotes, so written numbers are unambiguous |
| Decimal.NatToStringInjective | __init__.py:128 | distinct indices are written as distinct texts |

## Left out

- Operator, menu and registration code (`ExportVTK`, `menu_import`, `menu_export`, `register`, `unregister`, lines 58-106): this is Blender user-interface glue with no file logic.
- Opening and closing the file (lines 112-113): the output is modelled as the returned sequence of lines. Each line is one element, so a mesh or layer name that contains a newline is not split into two lines.
- The lines written before an `IndexError`: the source leaves them in the file, but the model returns only the error.
- `%f` formatting of coordinates and RGBA components (lines 120, 147): this is floating-point text formatting. It is the uninterpreted parameter `fmt`, and floats are modelled as `real`.
- The axis and orientation options (lines 50-51, 58): they are never applied to the data.
- A VTK reader: the source has none.
- WriteSucceedsOnConsistentMesh: gives a sufficient condition for success, not a necessary one. The writer never follows the loops of polygons after the first polygon touching each vertex, so some inconsistent meshes are still written (for example `[Polygon([0],[0]), Polygon([0],[7])]` with one loop). `DanglingLoopIndexFails` gives one failing case. Which error a general inconsistent mesh raises is given only by the definitions.
