/** The OBJ mesh loader as a whole: open the file, run the line loop, then
    assemble the vertex sequence. */
module ObjLoader {
  import opened ObjTypes
  import opened FaceParser
  import opened LineParser
  import opened Assembler

  /** What loading `source` yields when the temporaries start out as
      `temp3` and `temp2`. An out-of-bounds lookup during assembly is
      reported as `IndexOutOfRange`. */
  function Loaded(source: Source, temp3: Vec3, temp2: Vec2): Result<seq<Vertex>> {
    match source
    case Unreadable => Failure(IOError)
    case Readable(lines) =>
      var st := ParseLines(Start(temp3, temp2), lines);
      if Resolvable(st.positions, st.texcoords, st.normals, st.indices)
      then Success(Resolved(st.positions, st.texcoords, st.normals, st.indices))
      else Failure(IndexOutOfRange)
  }

  /** The loader. `temp3` and `temp2` are the values the vector temporaries
      hold before any line sets them. */
  method LoadObjFile(source: Source, temp3: Vec3, temp2: Vec2) returns (r: Result<seq<Vertex>>)
    ensures r == Loaded(source, temp3, temp2)
  {
    if source.Unreadable? {
      return Failure(IOError);
    }
    var lines := source.lines;
    var positions: seq<Vec3> := [];
    var texcoords: seq<Vec2> := [];
    var normals: seq<Vec3> := [];
    var indices := NoIndices;
    var prefix: string := "";
    var tempVec3, tempVec2 := temp3, temp2;
    var n := 0;
    while n < |lines|
      invariant 0 <= n <= |lines|
      invariant ParseState(positions, texcoords, normals, indices, prefix, tempVec3, tempVec2)
             == ParseLines(Start(temp3, temp2), lines[..n])
    {
      var line := lines[n];
      assert lines[..n + 1][..n] == lines[..n];
      // reading the prefix fails on a line without a token and leaves the old one
      var floats: seq<real> := [];
      var refs: seq<FaceItem> := [];
      if line.Directive? {
        prefix, floats, refs := line.prefix, line.floats, line.refs;
      }
      if prefix == "#" {
      } else if prefix == "o" {
      } else if prefix == "s" {
      } else if prefix == "use_mtl" {
      } else if prefix == "v" {
        tempVec3 := Fill3(tempVec3, floats);
        positions := positions + [tempVec3];
      } else if prefix == "vt" {
        tempVec2 := Fill2(tempVec2, floats);
        texcoords := texcoords + [tempVec2];
      } else if prefix == "vn" {
        tempVec3 := Fill3(tempVec3, floats);
        normals := normals + [tempVec3];
      } else if prefix == "f" {
        indices := ParseFace(refs, indices);
      }
      n := n + 1;
    }
    assert lines[..n] == lines;
    if !Resolvable(positions, texcoords, normals, indices) {
      return Failure(IndexOutOfRange);
    }
    var vertices := Assemble(positions, texcoords, normals, indices);
    assert vertices == Resolved(positions, texcoords, normals, indices) by {
      forall i | 0 <= i < |vertices|
        ensures vertices[i] == VertexAt(positions, texcoords, normals, indices, i)
      {
      }
    }
    r := Success(vertices);
  }

  /** A file that cannot be opened fails with `IOError`, whatever else. */
  lemma UnreadableFails(temp3: Vec3, temp2: Vec2)
    ensures Loaded(Unreadable, temp3, temp2) == Failure(IOError)
  {
  }

  /** A successful load yields one vertex per position index, each read
      from the pools through the 1-based indices. */
  lemma {:induction false} LoadedVertices(lines: seq<Line>, temp3: Vec3, temp2: Vec2)
    ensures var st := ParseLines(Start(temp3, temp2), lines);
            var r := Loaded(Readable(lines), temp3, temp2);
            (r.Success? <==> Resolvable(st.positions, st.texcoords, st.normals, st.indices)) &&
            (r.Failure? ==> r.error == IndexOutOfRange) &&
            (r.Success? ==>
              |r.value| == |st.indices.pos| &&
              forall i :: 0 <= i < |r.value| ==>
                1 <= st.indices.pos[i] <= |st.positions| &&
                1 <= st.indices.tc[i] <= |st.texcoords| &&
                1 <= st.indices.nrm[i] <= |st.normals| &&
                r.value[i] == Vertex(st.positions[st.indices.pos[i] - 1],
                                     st.normals[st.indices.nrm[i] - 1],
                                     st.texcoords[st.indices.tc[i] - 1]))
  {
  }

  /** A file of comments, `o`, `s`, `use_mtl`, unrecognised lines and lines
      without a token loads to the empty vertex sequence. */
  lemma IgnoredOnlyLoadsEmpty(lines: seq<Line>, temp3: Vec3, temp2: Vec2)
    requires forall k :: 0 <= k < |lines| ==> !IsDataLine(lines[k])
    ensures Loaded(Readable(lines), temp3, temp2) == Success([])
  {
    IgnoredLinesChangeNothing(Start(temp3, temp2), lines);
    var st := ParseLines(Start(temp3, temp2), lines);
    assert st.indices.pos == [];
    assert Resolvable(st.positions, st.texcoords, st.normals, st.indices);
    assert Resolved(st.positions, st.texcoords, st.normals, st.indices) == [];
  }

  /** A file whose faces are all triangles written in full `p/t/n` form
      loads, when it loads, to three vertices per face line, whatever other
      lines it holds (blank lines and short `v`/`vt`/`vn` lines included). */
  lemma TriangleFileVertexCount(lines: seq<Line>, temp3: Vec3, temp2: Vec2)
    requires forall k :: 0 <= k < |lines| && lines[k].Directive? && lines[k].prefix == "f" ==>
               IsTriangleFace(lines[k].refs)
    ensures var r := Loaded(Readable(lines), temp3, temp2);
            r.Success? ==> |r.value| == 3 * FaceLineCount(lines)
  {
    FaceIndicesInLineOrder(Start(temp3, temp2), lines);
    TriangleFacesGiveThreeEach(lines);
  }

  /** Handling a full line after `lines` appends what the line declares. */
  lemma ParseOneMore(st: ParseState, lines: seq<Line>, l: Line)
    requires IsFullLine(l)
    ensures var before := ParseLines(st, lines);
            var r := ParseLines(st, lines + [l]);
            r.positions == before.positions + PositionOfLine(l) &&
            r.texcoords == before.texcoords + TexcoordOfLine(l) &&
            r.normals == before.normals + NormalOfLine(l) &&
            r.indices == before.indices.Append(FaceIndicesOfLine(l))
  {
    ParseLinesSnoc(st, lines, l);
    StepFullLine(ParseLines(st, lines), l);
  }

  lemma ThreeElements<T>(s: seq<T>)
    requires |s| == 3
    ensures s == [s[0], s[1], s[2]]
  {
  }

  /** The line `v x y z`. */
  function PositionLine(v: Vec3): Line {
    Directive("v", [v.x, v.y, v.z], [])
  }

  /** The line `vt u v`. */
  function TexcoordLine(t: Vec2): Line {
    Directive("vt", [t.x, t.y], [])
  }

  /** The line `vn x y z`. */
  function NormalLine(n: Vec3): Line {
    Directive("vn", [n.x, n.y, n.z], [])
  }

  /** The face line `f a/b/c d/e/f g/h/i`. */
  function TriangleLine(a: int, b: int, c: int, d: int, e: int, f: int, g: int, h: int, i: int): Line {
    Directive("f", [], FaceText([Ref(a, b, c), Ref(d, e, f), Ref(g, h, i)], Other))
  }

  /** A `v` line after any lines appends its position and nothing else. */
  lemma ParsePositionLine(st: ParseState, lines: seq<Line>, v: Vec3)
    ensures var before := ParseLines(st, lines);
            var r := ParseLines(st, lines + [PositionLine(v)]);
            r.positions == before.positions + [v] && r.texcoords == before.texcoords &&
            r.normals == before.normals && r.indices == before.indices
  {
    ParseOneMore(st, lines, PositionLine(v));
    assert ParseLines(st, lines).indices.Append(NoIndices) == ParseLines(st, lines).indices;
  }

  /** A `vt` line after any lines appends its texcoord and nothing else. */
  lemma ParseTexcoordLine(st: ParseState, lines: seq<Line>, t: Vec2)
    ensures var before := ParseLines(st, lines);
            var r := ParseLines(st, lines + [TexcoordLine(t)]);
            r.positions == before.positions && r.texcoords == before.texcoords + [t] &&
            r.normals == before.normals && r.indices == before.indices
  {
    ParseOneMore(st, lines, TexcoordLine(t));
    assert ParseLines(st, lines).indices.Append(NoIndices) == ParseLines(st, lines).indices;
  }

  /** A `vn` line after any lines appends its normal and nothing else. */
  lemma ParseNormalLine(st: ParseState, lines: seq<Line>, n: Vec3)
    ensures var before := ParseLines(st, lines);
            var r := ParseLines(st, lines + [NormalLine(n)]);
            r.positions == before.positions && r.texcoords == before.texcoords &&
            r.normals == before.normals + [n] && r.indices == before.indices
  {
    ParseOneMore(st, lines, NormalLine(n));
    assert ParseLines(st, lines).indices.Append(NoIndices) == ParseLines(st, lines).indices;
  }

  /** A triangle face line after any lines appends its three references'
      indices to the index lists and nothing else. */
  lemma ParseTriangleLine(st: ParseState, lines: seq<Line>, a: int, b: int, c: int, d: int, e: int, f: int, g: int, h: int, i: int)
    ensures var before := ParseLines(st, lines);
            var r := ParseLines(st, lines + [TriangleLine(a, b, c, d, e, f, g, h, i)]);
            r.positions == before.positions && r.texcoords == before.texcoords && r.normals == before.normals &&
            r.indices == before.indices.Append(IndexLists([a, d, g], [b, e, h], [c, f, i]))
  {
    ParseOneMore(st, lines, TriangleLine(a, b, c, d, e, f, g, h, i));
    TriangleFaceRouting(a, b, c, d, e, f, g, h, i, Other);
  }

  /** A file of one triangle: three positions, three texcoords, one
      normal and the face `1/1/1 2/2/1 3/3/1`, written line after line. */
  predicate IsTriangleFile(ls: seq<Line>, a: Vec3, b: Vec3, c: Vec3, ta: Vec2, tb: Vec2, tc: Vec2, n: Vec3) {
    ls == [PositionLine(a)] + [PositionLine(b)] + [PositionLine(c)]
          + [TexcoordLine(ta)] + [TexcoordLine(tb)] + [TexcoordLine(tc)]
          + [NormalLine(n)]
          + [TriangleLine(1, 1, 1, 2, 2, 1, 3, 3, 1)]
  }

  /** The pools and index lists a triangle file parses to. */
  predicate HasTriangleState(st: ParseState, a: Vec3, b: Vec3, c: Vec3, ta: Vec2, tb: Vec2, tc: Vec2, n: Vec3) {
    st.positions == [a, b, c] &&
    st.texcoords == [ta, tb, tc] &&
    st.normals == [n] &&
    st.indices == IndexLists([1, 2, 3], [1, 2, 3], [1, 1, 1])
  }

  /** Three `v` lines after any lines append their positions in order. */
  lemma ParsePositionLines(st: ParseState, lines: seq<Line>, a: Vec3, b: Vec3, c: Vec3)
    ensures var before := ParseLines(st, lines);
            var r := ParseLines(st, lines + [PositionLine(a)] + [PositionLine(b)] + [PositionLine(c)]);
            r.positions == before.positions + [a, b, c] && r.texcoords == before.texcoords &&
            r.normals == before.normals && r.indices == before.indices
  {
    ParsePositionLine(st, lines, a);
    ParsePositionLine(st, lines + [PositionLine(a)], b);
    ParsePositionLine(st, lines + [PositionLine(a)] + [PositionLine(b)], c);
  }

  /** Three `vt` lines after any lines append their texcoords in order. */
  lemma ParseTexcoordLines(st: ParseState, lines: seq<Line>, a: Vec2, b: Vec2, c: Vec2)
    ensures var before := ParseLines(st, lines);
            var r := ParseLines(st, lines + [TexcoordLine(a)] + [TexcoordLine(b)] + [TexcoordLine(c)]);
            r.positions == before.positions && r.texcoords == before.texcoords + [a, b, c] &&
            r.normals == before.normals && r.indices == before.indices
  {
    ParseTexcoordLine(st, lines, a);
    ParseTexcoordLine(st, lines + [TexcoordLine(a)], b);
    ParseTexcoordLine(st, lines + [TexcoordLine(a)] + [TexcoordLine(b)], c);
  }

  /** The first three lines of a triangle file declare its three positions. */
  lemma TrianglePositionsParse(temp3: Vec3, temp2: Vec2, a: Vec3, b: Vec3, c: Vec3)
    ensures var r := ParseLines(Start(temp3, temp2), [PositionLine(a)] + [PositionLine(b)] + [PositionLine(c)]);
            r.positions == [a, b, c] && r.texcoords == [] && r.normals == [] && r.indices == NoIndices
  {
    var s0 := Start(temp3, temp2);
    assert [] + [PositionLine(a)] + [PositionLine(b)] + [PositionLine(c)]
        == [PositionLine(a)] + [PositionLine(b)] + [PositionLine(c)];
    assert ParseLines(s0, []) == s0;
    ParsePositionLines(s0, [], a, b, c);
  }

  /** The first six lines of a triangle file declare its positions and
      texcoords. */
  lemma TriangleVectorsParse(temp3: Vec3, temp2: Vec2, a: Vec3, b: Vec3, c: Vec3, ta: Vec2, tb: Vec2, tc: Vec2)
    ensures var r := ParseLines(Start(temp3, temp2),
                                [PositionLine(a)] + [PositionLine(b)] + [PositionLine(c)]
                                + [TexcoordLine(ta)] + [TexcoordLine(tb)] + [TexcoordLine(tc)]);
            r.positions == [a, b, c] && r.texcoords == [ta, tb, tc] && r.normals == [] && r.indices == NoIndices
  {
    var p3 := [PositionLine(a)] + [PositionLine(b)] + [PositionLine(c)];
    TrianglePositionsParse(temp3, temp2, a, b, c);
    ParseTexcoordLines(Start(temp3, temp2), p3, ta, tb, tc);
  }

  /** A triangle file declares its records in file order and its one face
      line fills each index list with three indices. */
  lemma TriangleFileParses(ls: seq<Line>, temp3: Vec3, temp2: Vec2,
                           a: Vec3, b: Vec3, c: Vec3, ta: Vec2, tb: Vec2, tc: Vec2, n: Vec3)
    requires IsTriangleFile(ls, a, b, c, ta, tb, tc, n)
    ensures HasTriangleState(ParseLines(Start(temp3, temp2), ls), a, b, c, ta, tb, tc, n)
  {
    var s0 := Start(temp3, temp2);
    var p6 := [PositionLine(a)] + [PositionLine(b)] + [PositionLine(c)]
              + [TexcoordLine(ta)] + [TexcoordLine(tb)] + [TexcoordLine(tc)];
    var p7 := p6 + [NormalLine(n)];
    TriangleVectorsParse(temp3, temp2, a, b, c, ta, tb, tc);
    ParseNormalLine(s0, p6, n);
    ParseTriangleLine(s0, p7, 1, 1, 1, 2, 2, 1, 3, 3, 1);
    assert NoIndices.Append(IndexLists([1, 2, 3], [1, 2, 3], [1, 1, 1])) == IndexLists([1, 2, 3], [1, 2, 3], [1, 1, 1]);
  }

  /** Any file that parses to a triangle file's pools and index lists
      loads to the triangle's three corners. */
  lemma TriangleStateLoads(lines: seq<Line>, temp3: Vec3, temp2: Vec2,
                           a: Vec3, b: Vec3, c: Vec3, ta: Vec2, tb: Vec2, tc: Vec2, n: Vec3)
    requires HasTriangleState(ParseLines(Start(temp3, temp2), lines), a, b, c, ta, tb, tc, n)
    ensures Loaded(Readable(lines), temp3, temp2) == Success([Vertex(a, n, ta), Vertex(b, n, tb), Vertex(c, n, tc)])
  {
    var st := ParseLines(Start(temp3, temp2), lines);
    assert Resolvable(st.positions, st.texcoords, st.normals, st.indices);
    var r := Resolved(st.positions, st.texcoords, st.normals, st.indices);
    ThreeElements(r);
  }

  /** A triangle file loads to its three corners in face order, each with
      its own texcoord and the one normal. */
  lemma TriangleFileLoads(ls: seq<Line>, temp3: Vec3, temp2: Vec2,
                          a: Vec3, b: Vec3, c: Vec3, ta: Vec2, tb: Vec2, tc: Vec2, n: Vec3)
    requires IsTriangleFile(ls, a, b, c, ta, tb, tc, n)
    ensures Loaded(Readable(ls), temp3, temp2) == Success([Vertex(a, n, ta), Vertex(b, n, tb), Vertex(c, n, tc)])
  {
    TriangleFileParses(ls, temp3, temp2, a, b, c, ta, tb, tc, n);
    TriangleStateLoads(ls, temp3, temp2, a, b, c, ta, tb, tc, n);
  }

  /** A file declaring one position whose face names position 2. */
  predicate IsBadIndexFile(ls: seq<Line>, p: Vec3, t: Vec2, n: Vec3) {
    ls == [PositionLine(p)] + [TexcoordLine(t)] + [NormalLine(n)]
          + [TriangleLine(1, 1, 1, 2, 1, 1, 1, 1, 1)]
  }

  /** One `v`, one `vt` and one `vn` line declare one record each. */
  lemma OneOfEachParses(temp3: Vec3, temp2: Vec2, p: Vec3, t: Vec2, n: Vec3)
    ensures var r := ParseLines(Start(temp3, temp2), [PositionLine(p)] + [TexcoordLine(t)] + [NormalLine(n)]);
            r.positions == [p] && r.texcoords == [t] && r.normals == [n] && r.indices == NoIndices
  {
    var s0 := Start(temp3, temp2);
    var p1 := [PositionLine(p)];
    var p2 := p1 + [TexcoordLine(t)];
    assert ParseLines(s0, []) == s0;
    assert [] + p1 == p1;
    ParsePositionLine(s0, [], p);
    ParseTexcoordLine(s0, p1, t);
    ParseNormalLine(s0, p2, n);
  }

  /** A face naming a position the file never declares fails with
      `IndexOutOfRange` rather than yielding a default vertex. */
  lemma OutOfRangeIndexFails(ls: seq<Line>, temp3: Vec3, temp2: Vec2, p: Vec3, t: Vec2, n: Vec3)
    requires IsBadIndexFile(ls, p, t, n)
    ensures Loaded(Readable(ls), temp3, temp2) == Failure(IndexOutOfRange)
  {
    var p3 := [PositionLine(p)] + [TexcoordLine(t)] + [NormalLine(n)];
    OneOfEachParses(temp3, temp2, p, t, n);
    ParseTriangleLine(Start(temp3, temp2), p3, 1, 1, 1, 2, 1, 1, 1, 1, 1);
    var st := ParseLines(Start(temp3, temp2), ls);
    assert st.positions == [p];
    assert st.indices.pos == [] + [1, 2, 1];
    assert !InPool(st.indices.pos[1], 1);
  }
}
