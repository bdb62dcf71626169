# OBJ mesh loader — a verified model

This project models `loadOBJFile`, the mesh loader of a small OpenGL scene
renderer. The loader reads a Wavefront OBJ text file line by line. It
fills three attribute pools (positions, texture coordinates, normals) and
three face-index lists. Then it assembles a flat sequence of interleaved
vertex records (position, normal, uv) for upload to a GPU vertex buffer.

The model has five modules, one per part of the loader:

- `ObjTypes` (`obj_types.dfy`): the vector and vertex records, the abstract
  view of a line, the three index lists, and the loader's result.
- `FaceParser` (`face_parser.dfy`): the face-line loop, with its rotating
  cursor (0 position, 1 texcoord, 2 normal). The cursor moves on only when
  the character after an integer is a slash or a space, and wraps to 0
  after 2.
- `LineParser` (`line_parser.dfy`): the per-line dispatch on the first
  token. It keeps the state that outlives a line: the six vectors, the last
  prefix, and the two vector temporaries.
- `Assembler` (`assembler.dfy`): sizes the output to the position-index
  list and fills each entry through the 1-based indices.
- `ObjLoader` (`obj_loader.dfy`): the whole loader, plus lemmas about the
  result of loading a file.

The loops are methods proved against specification functions:

- `ParseFace` is proved against `Route`.
- The line loop in `LoadObjFile` is proved against `ParseLines`, a fold of
  `Step`.
- `Assemble` works over an array, as the source's resize-and-fill does.

Lemmas then relate the specification functions to reference definitions
that carry no parser state (`PositionsOf`, `FaceIndicesOf`, `Column`).

How the input is abstracted. A line is either `Blank` (no token at all) or
a `Directive` with its first token. A `Directive` also carries two views of
the rest of the line:

- the numbers the float extractor reads;
- the integers the face loop reads, each paired with the character that
  follows it (`Slash`, `Space` or `Other`, where `Other` includes end of
  line).

Float values are opaque `real`s.

Quirks of the source that the model keeps:

- `prefix`, `temp_vec3` and `temp_vec2` are declared outside the line loop
  (application.cpp:363-366). On a line with no token, `ss >> prefix` fails
  and leaves the old prefix. The previous branch then runs again with the
  stale temporaries. After a `v`, `vt` or `vn` line, that branch appends the
  last record a second time (`BlankLineRepeatsPosition`,
  `BlankLineRepeatsTexcoord`, `BlankLineRepeatsNormal`); after an `f` line
  it re-runs the face loop on an empty line, which adds nothing
  (`BlankLineAfterFaceAddsNothing`). The model carries the prefix and the
  temporaries as state.
- The temporaries start out uninitialised, so the loader takes their
  initial values as parameters.
- A `v`/`vt`/`vn` line may hold fewer numbers than its branch extracts.
  Extraction then stops, and the remaining components keep their old
  values (`Fill3`, `Fill2`).

Behaviour of the code that the model states explicitly:

- A reference with an omitted component (`1//3`) does not desynchronise
  the cursor: reading an integer fails at the second `/`, and the face loop
  stops there. The items of a line are only the integers actually read.
- A reference with two components (`a/b c/d e/f`) does desynchronise the
  cursor, as `TwoComponentFaceDesynchronises` shows.
- The code checks no index before assembly (application.cpp:455-457). An
  out-of-range index, or an index list shorter than the position list, is
  undefined behaviour there. `Assemble` requires that every lookup is in
  bounds, which is what the code silently assumes. The loader checks this
  first and returns `Failure(IndexOutOfRange)` instead of inventing a
  default vertex.
- A file that cannot be opened gives `Failure(IOError)`, where the code
  throws. Nothing has been read at that point.

## Model

| member | source | states |
|---|---|---|
| `FaceParser.Advance` | application.cpp:426-440 | the cursor stays in {0,1,2}; it is unchanged when the character after the integer is neither `/` nor a space, and otherwise moves to the next slot, wrapping from 2 to 0 |
| `FaceParser.Route` | application.cpp:415-441 | starting from a valid cursor, every integer read lands in exactly one of the three lists (their total length is the number of integers read) |
| `FaceParser.ParseFace` | application.cpp:413-441 | the face loop, run with the cursor starting at 0, leaves the index lists equal to the old lists followed by what `Route` distributes |
| `FaceParser.RouteAppend` | application.cpp:415-441 | reading two runs of integers one after the other distributes the first run and then the second, the cursor carrying over between them |
| `FaceParser.RouteFaceText` | application.cpp:413-441 | a face of any number of full `p/t/n` references sends all position indices to the position list, all texcoord indices to the texcoord list and all normal indices to the normal list, each in reference order |
| `FaceParser.TriangleFaceRouting` | application.cpp:413-441 | the face `a/b/c d/e/f g/h/i` appends exactly `a,d,g`, `b,e,h` and `c,f,i` to the three lists |
| `FaceParser.TriangleFaceAddsThree` | application.cpp:413-441 | a triangle face in full form adds exactly three indices to each list |
| `FaceParser.TwoComponentFaceDesynchronises` | application.cpp:415-440 | the face `a/b c/d e/f` puts the cursor out of step: the position list receives `a,d`, the texcoord list `b,e` and the normal list `c,f` |
| `LineParser.Fill3` | application.cpp:400 | a line with three numbers sets all three components of the temporary; a line with none leaves it unchanged |
| `LineParser.Fill2` | application.cpp:405 | a line with two numbers sets both components of the temporary; a line with none leaves it unchanged |
| `LineParser.Step` | application.cpp:378-446 | the prefix in force is the line's token, or the previous prefix on a line without one; `v`, `vt` and `vn` append exactly one record to their own pool and change none of the other five vectors; `f` appends to the index lists only; every other prefix changes none of the six vectors |
| `LineParser.BlankLineRepeatsPosition` | application.cpp:363-402 | a line without a token right after a `v` line appends the same position a second time |
| `LineParser.BlankLineRepeatsTexcoord` | application.cpp:363-407 | a line without a token right after a `vt` line appends the same texcoord a second time |
| `LineParser.BlankLineRepeatsNormal` | application.cpp:363-412 | a line without a token right after a `vn` line appends the same normal a second time |
| `LineParser.BlankLineAfterFaceAddsNothing` | application.cpp:363-442 | a line without a token right after an `f` line re-runs the face loop on an empty line and changes none of the six vectors |
| `LineParser.VectorsOnlyGrow` | application.cpp:375-447 | over any run of lines, the pools and the index lists only grow at their ends |
| `LineParser.IgnoredLinesChangeNothing` | application.cpp:382-397 | lines with prefix `#`, `o`, `s`, `use_mtl`, an unrecognised prefix or no token leave all six vectors unchanged, provided the prefix in force before them selects no data branch |
| `LineParser.StepFullLine` | application.cpp:398-441 | a line carrying all the numbers its branch reads appends exactly what it declares, whatever state came before it |
| `LineParser.FaceIndicesInLineOrder` | application.cpp:413-447 | over any run of lines, from any state, the index lists gain exactly each face line's routed indices, in line order, whatever the other lines are (blank lines included, since the face loop reads no integers from them) |
| `LineParser.ParseFullLines` | application.cpp:375-411 | on a file of full lines, from any state, the pools gain the declared records in file order, exactly as the stateless reference definitions `PositionsOf`, `TexcoordsOf` and `NormalsOf` give them |
| `LineParser.TriangleFacesGiveThreeEach` | application.cpp:413-441 | when every face line is a triangle in full form, each index list holds three indices per face line |
| `Assembler.Assemble` | application.cpp:449-458 | the output has one vertex per position index; vertex `i` holds `positions[pos[i]-1]`, `texcoords[tc[i]-1]` and `normals[nrm[i]-1]` |
| `Assembler.ResolvedAppend` | application.cpp:453-458 | resolving two index lists in sequence gives the two resolved blocks in sequence, so the output follows face-reference order and nothing is merged |
| `Assembler.SharedReferenceDuplicated` | application.cpp:453-458 | two references with the same indices both appear in the output, as equal vertices |
| `ObjLoader.LoadObjFile` | application.cpp:345-466 | the loader returns exactly what `Loaded` specifies: `IOError` for a file that cannot be opened, and otherwise the parsed and assembled vertices, or `IndexOutOfRange` |
| `ObjLoader.UnreadableFails` | application.cpp:369-372 | a file that cannot be opened fails with `IOError` |
| `ObjLoader.LoadedVertices` | application.cpp:449-458 | loading succeeds exactly when every lookup is in bounds; otherwise it fails with `IndexOutOfRange`; on success vertex `i` is read from the pools through the `i`-th index of each list, converted from 1-based |
| `ObjLoader.IgnoredOnlyLoadsEmpty` | application.cpp:375-458 | a file of only comments, `o`, `s`, `use_mtl`, unrecognised lines and lines without a token loads to the empty vertex sequence |
| `ObjLoader.TriangleFileVertexCount` | application.cpp:413-458 | a file whose faces are all full-form triangles, whatever other lines it holds (blank or short lines included), when it loads, yields exactly three vertices per face line |
| `ObjLoader.ParseOneMore` | application.cpp:375-447 | one more full line after any lines appends exactly what that line declares to the pools and index lists |
| `ObjLoader.ParsePositionLine` | application.cpp:398-402 | a `v x y z` line after any lines appends `(x, y, z)` to the positions and changes nothing else |
| `ObjLoader.ParseTexcoordLine` | application.cpp:403-407 | a `vt u v` line after any lines appends `(u, v)` to the texcoords and changes nothing else |
| `ObjLoader.ParseNormalLine` | application.cpp:408-412 | a `vn x y z` line after any lines appends `(x, y, z)` to the normals and changes nothing else |
| `ObjLoader.ParseTriangleLine` | application.cpp:413-441 | a face line `f a/b/c d/e/f g/h/i` after any lines appends `a,d,g`, `b,e,h` and `c,f,i` to the index lists and leaves the pools alone |
| `ObjLoader.TriangleFileParses` | application.cpp:375-447 | a one-triangle file (three `v`, three `vt`, one `vn`, `f 1/1/1 2/2/1 3/3/1`), whatever its numbers, yields the three pools in file order and the index lists `1,2,3`, `1,2,3`, `1,1,1` |
| `ObjLoader.TriangleStateLoads` | application.cpp:449-458 | whenever parsing ends with those pools and index lists, loading gives the three corners in face order, each with its own texcoord and the one normal |
| `ObjLoader.TriangleFileLoads` | application.cpp:345-466 | a one-triangle file loads to its three corners in face order, each with its own texcoord and the single normal |
| `ObjLoader.OutOfRangeIndexFails` | application.cpp:455-457 | a face naming position 2 in a file that declares one position fails with `IndexOutOfRange` instead of giving a default vertex |

## Left out

- Float parsing: the numbers of `v`, `vt` and `vn` lines are opaque values.
  The model also does not capture a token that is not a number. C++ stream
  extraction stores 0 for such a token and stops. The model takes the
  numbers as the run of well-formed values that extraction reads.
- Splitting a line into tokens: the model takes as given the line's first
  token, its numbers, and the integers the face loop reads with the
  character after each.
- Integer width: face indices are unbounded integers. The overflow of a
  32-bit `GLint` while an index is read is not modelled.
- `Assemble`: it requires in-bounds lookups, where the code performs
  unchecked `operator[]` with undefined behaviour. The loader reports the
  out-of-bounds case as `IndexOutOfRange` rather than modelling undefined
  behaviour.
- File I/O: opening the file becomes the `Unreadable`/`Readable` choice of
  the input. Reading lines becomes the input's sequence of lines.
- The debug output after assembly (application.cpp:461-464).
- The rest of the program (window setup, input callbacks, camera maths,
  shader, texture and buffer creation, the render loop): these are calls
  into OpenGL, GLFW and stb_image with no logic of their own.
