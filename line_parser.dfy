/** The line loop of the OBJ loader: the first token of each line selects
    what happens. `v`, `vt` and `vn` append one record to the position,
    texcoord or normal pool; `f` runs the face loop; every other token does
    nothing. The prefix and the vector temporaries live across lines, so a
    line with no token re-runs the previous line's branch with the values it
    left behind. */
module LineParser {
  import opened ObjTypes
  import opened FaceParser

  /** The loader's state between two lines: the six vectors it fills and
      the variables that outlive a line (the last prefix read and the last
      values of the vec3 and vec2 temporaries). */
  datatype ParseState = ParseState(
    positions: seq<Vec3>,
    texcoords: seq<Vec2>,
    normals: seq<Vec3>,
    indices: IndexLists,
    prefix: string,
    temp3: Vec3,
    temp2: Vec2)

  /** The prefixes with a branch of their own that does nothing. */
  const IgnoredPrefixes: set<string> := {"#", "o", "s", "use_mtl"}

  /** The prefixes whose branch changes one of the six vectors. */
  const DataPrefixes: set<string> := {"v", "vt", "vn", "f"}

  /** The state before the first line; the temporaries start out with
      whatever values they were declared with. */
  function Start(temp3: Vec3, temp2: Vec2): ParseState {
    ParseState([], [], [], NoIndices, "", temp3, temp2)
  }

  /** `temp_vec3` after extracting its three components from the numbers
      `fs`: extraction stops at the first component with no number left,
      and that component and the ones after it keep their old values. */
  function Fill3(t: Vec3, fs: seq<real>): (r: Vec3)
    ensures |fs| >= 3 ==> r == Vec3(fs[0], fs[1], fs[2])
    ensures fs == [] ==> r == t
  {
    Vec3(if |fs| > 0 then fs[0] else t.x,
         if |fs| > 1 then fs[1] else t.y,
         if |fs| > 2 then fs[2] else t.z)
  }

  /** `temp_vec2` after extracting its two components from `fs`. */
  function Fill2(t: Vec2, fs: seq<real>): (r: Vec2)
    ensures |fs| >= 2 ==> r == Vec2(fs[0], fs[1])
    ensures fs == [] ==> r == t
  {
    Vec2(if |fs| > 0 then fs[0] else t.x,
         if |fs| > 1 then fs[1] else t.y)
  }

  /** The prefix in force while a line is handled: the line's first token,
      or, on a line without one, the previous prefix. */
  function PrefixFor(st: ParseState, line: Line): string {
    if line.Directive? then line.prefix else st.prefix
  }

  /** The numbers and face items extraction yields on a line; on a line
      without a token the stream has failed and yields nothing. */
  function FloatsOf(line: Line): seq<real> {
    if line.Directive? then line.floats else []
  }

  function RefsOf(line: Line): seq<FaceItem> {
    if line.Directive? then line.refs else []
  }

  /** The six vectors are those of `st`. */
  predicate SameVectors(a: ParseState, b: ParseState) {
    a.positions == b.positions && a.texcoords == b.texcoords && a.normals == b.normals &&
    a.indices == b.indices
  }

  /** One pass of the line loop. */
  function Step(st: ParseState, line: Line): (r: ParseState)
    ensures r.prefix == PrefixFor(st, line)
    ensures r.prefix == "v" ==>
      r.positions == st.positions + [r.temp3] &&
      r.texcoords == st.texcoords && r.normals == st.normals && r.indices == st.indices
    ensures r.prefix == "vt" ==>
      r.texcoords == st.texcoords + [r.temp2] &&
      r.positions == st.positions && r.normals == st.normals && r.indices == st.indices
    ensures r.prefix == "vn" ==>
      r.normals == st.normals + [r.temp3] &&
      r.positions == st.positions && r.texcoords == st.texcoords && r.indices == st.indices
    ensures r.prefix == "f" ==>
      r.indices == st.indices.Append(Route(RefsOf(line), 0)) &&
      r.positions == st.positions && r.texcoords == st.texcoords && r.normals == st.normals
    ensures r.prefix !in DataPrefixes ==> SameVectors(r, st)
  {
    var prefix := PrefixFor(st, line);
    var fs := FloatsOf(line);
    var s := st.(prefix := prefix);
    if prefix in IgnoredPrefixes then s
    else if prefix == "v" then
      var t := Fill3(s.temp3, fs);
      s.(temp3 := t, positions := s.positions + [t])
    else if prefix == "vt" then
      var t := Fill2(s.temp2, fs);
      s.(temp2 := t, texcoords := s.texcoords + [t])
    else if prefix == "vn" then
      var t := Fill3(s.temp3, fs);
      s.(temp3 := t, normals := s.normals + [t])
    else if prefix == "f" then
      s.(indices := s.indices.Append(Route(RefsOf(line), 0)))
    else s
  }

  /** The state after the line loop has handled every line of `lines`. */
  function ParseLines(st: ParseState, lines: seq<Line>): ParseState
    decreases |lines|
  {
    if lines == [] then st
    else Step(ParseLines(st, lines[..|lines| - 1]), lines[|lines| - 1])
  }

  /** Handling `lines` and then `l` is handling `lines + [l]`. */
  lemma ParseLinesSnoc(st: ParseState, lines: seq<Line>, l: Line)
    ensures ParseLines(st, lines + [l]) == Step(ParseLines(st, lines), l)
  {
    assert (lines + [l])[..|lines|] == lines;
  }

  /** A line without a token right after a `v` line appends the same
      position a second time. */
  lemma BlankLineRepeatsPosition(st: ParseState, fs: seq<real>, refs: seq<FaceItem>)
    ensures var once := Step(st, Directive("v", fs, refs));
            Step(once, Blank).positions == st.positions + [once.temp3, once.temp3]
  {
  }

  /** A line without a token right after a `vt` line appends the same
      texcoord a second time. */
  lemma BlankLineRepeatsTexcoord(st: ParseState, fs: seq<real>, refs: seq<FaceItem>)
    ensures var once := Step(st, Directive("vt", fs, refs));
            Step(once, Blank).texcoords == st.texcoords + [once.temp2, once.temp2]
  {
  }

  /** A line without a token right after a `vn` line appends the same
      normal a second time. */
  lemma BlankLineRepeatsNormal(st: ParseState, fs: seq<real>, refs: seq<FaceItem>)
    ensures var once := Step(st, Directive("vn", fs, refs));
            Step(once, Blank).normals == st.normals + [once.temp3, once.temp3]
  {
  }

  /** A line without a token right after an `f` line re-runs the face loop
      on an empty line, which reads no integer and changes nothing. */
  lemma BlankLineAfterFaceAddsNothing(st: ParseState, refs: seq<FaceItem>)
    ensures var once := Step(st, Directive("f", [], refs));
            SameVectors(Step(once, Blank), once)
  {
  }

  /** The pools and the index lists only ever grow at their ends. */
  lemma {:induction false} VectorsOnlyGrow(st: ParseState, lines: seq<Line>)
    ensures var r := ParseLines(st, lines);
            st.positions <= r.positions && st.texcoords <= r.texcoords && st.normals <= r.normals &&
            st.indices.pos <= r.indices.pos && st.indices.tc <= r.indices.tc &&
            st.indices.nrm <= r.indices.nrm
    decreases |lines|
  {
    if lines != [] {
      VectorsOnlyGrow(st, lines[..|lines| - 1]);
    }
  }

  /** A line that can reach a branch that changes a vector. */
  predicate IsDataLine(line: Line) {
    line.Directive? && line.prefix in DataPrefixes
  }

  /** Lines that are comments, `o`, `s`, `use_mtl`, unrecognised, or
      without a token leave all six vectors as they were, provided the
      prefix in force beforehand selects no data branch either. */
  lemma {:induction false} IgnoredLinesChangeNothing(st: ParseState, lines: seq<Line>)
    requires st.prefix !in DataPrefixes
    requires forall k :: 0 <= k < |lines| ==> !IsDataLine(lines[k])
    ensures SameVectors(ParseLines(st, lines), st)
    ensures ParseLines(st, lines).prefix !in DataPrefixes
    decreases |lines|
  {
    if lines != [] {
      IgnoredLinesChangeNothing(st, lines[..|lines| - 1]);
    }
  }

  /** A line carrying its prefix and at least as many numbers as its
      branch extracts. */
  predicate IsFullLine(line: Line) {
    line.Directive? &&
    (line.prefix == "v" || line.prefix == "vn" ==> |line.floats| >= 3) &&
    (line.prefix == "vt" ==> |line.floats| >= 2)
  }

  predicate AllFull(lines: seq<Line>) {
    forall k :: 0 <= k < |lines| ==> IsFullLine(lines[k])
  }

  /** Reference definitions of what a file of full lines declares, read
      line by line without any parser state: what one line declares, and
      what all lines declare, in file order. */
  function PositionOfLine(l: Line): seq<Vec3>
    requires IsFullLine(l)
  {
    if l.prefix == "v" then [Vec3(l.floats[0], l.floats[1], l.floats[2])] else []
  }

  function TexcoordOfLine(l: Line): seq<Vec2>
    requires IsFullLine(l)
  {
    if l.prefix == "vt" then [Vec2(l.floats[0], l.floats[1])] else []
  }

  function NormalOfLine(l: Line): seq<Vec3>
    requires IsFullLine(l)
  {
    if l.prefix == "vn" then [Vec3(l.floats[0], l.floats[1], l.floats[2])] else []
  }

  function FaceIndicesOfLine(l: Line): IndexLists {
    if l.Directive? && l.prefix == "f" then Route(l.refs, 0) else NoIndices
  }

  lemma AllFullPrefix(lines: seq<Line>)
    requires AllFull(lines) && lines != []
    ensures AllFull(lines[..|lines| - 1]) && IsFullLine(lines[|lines| - 1])
  {
    var init := lines[..|lines| - 1];
    forall k | 0 <= k < |init| ensures IsFullLine(init[k]) {
      assert init[k] == lines[k];
    }
  }

  function PositionsOf(lines: seq<Line>): seq<Vec3>
    requires AllFull(lines)
    decreases |lines|
  {
    if lines == [] then []
    else
      AllFullPrefix(lines);
      PositionsOf(lines[..|lines| - 1]) + PositionOfLine(lines[|lines| - 1])
  }

  function TexcoordsOf(lines: seq<Line>): seq<Vec2>
    requires AllFull(lines)
    decreases |lines|
  {
    if lines == [] then []
    else
      AllFullPrefix(lines);
      TexcoordsOf(lines[..|lines| - 1]) + TexcoordOfLine(lines[|lines| - 1])
  }

  function NormalsOf(lines: seq<Line>): seq<Vec3>
    requires AllFull(lines)
    decreases |lines|
  {
    if lines == [] then []
    else
      AllFullPrefix(lines);
      NormalsOf(lines[..|lines| - 1]) + NormalOfLine(lines[|lines| - 1])
  }

  /** The indices each `f` line distributes, concatenated in line order. */
  function FaceIndicesOf(lines: seq<Line>): IndexLists
    decreases |lines|
  {
    if lines == [] then NoIndices
    else FaceIndicesOf(lines[..|lines| - 1]).Append(FaceIndicesOfLine(lines[|lines| - 1]))
  }

  /** On a full line, one pass of the loop appends exactly what the line
      declares, whatever the state before it. */
  lemma StepFullLine(st: ParseState, l: Line)
    requires IsFullLine(l)
    ensures var r := Step(st, l);
            r.positions == st.positions + PositionOfLine(l) &&
            r.texcoords == st.texcoords + TexcoordOfLine(l) &&
            r.normals == st.normals + NormalOfLine(l) &&
            r.indices == st.indices.Append(FaceIndicesOfLine(l))
  {
  }

  /** The index lists hold the indices of every `f` line, concatenated in
      line order, whatever other lines the file holds. */
  lemma {:induction false} FaceIndicesInLineOrder(st: ParseState, lines: seq<Line>)
    ensures ParseLines(st, lines).indices == st.indices.Append(FaceIndicesOf(lines))
    decreases |lines|
  {
    if lines != [] {
      var init := lines[..|lines| - 1];
      FaceIndicesInLineOrder(st, init);
      AppendAssoc(st.indices, FaceIndicesOf(init), FaceIndicesOfLine(lines[|lines| - 1]));
    }
  }

  /** On a file of full lines the loop appends each record the file
      declares, in file order. */
  lemma {:induction false} ParseFullLines(st: ParseState, lines: seq<Line>)
    requires AllFull(lines)
    ensures var r := ParseLines(st, lines);
            r.positions == st.positions + PositionsOf(lines) &&
            r.texcoords == st.texcoords + TexcoordsOf(lines) &&
            r.normals == st.normals + NormalsOf(lines)
    decreases |lines|
  {
    if lines != [] {
      var init := lines[..|lines| - 1];
      var l := lines[|lines| - 1];
      AllFullPrefix(lines);
      ParseFullLines(st, init);
      var before := ParseLines(st, init);
      assert ParseLines(st, lines) == Step(before, l);
      StepFullLine(before, l);
      assert PositionsOf(lines) == PositionsOf(init) + PositionOfLine(l);
      assert TexcoordsOf(lines) == TexcoordsOf(init) + TexcoordOfLine(l);
      assert NormalsOf(lines) == NormalsOf(init) + NormalOfLine(l);
    }
  }

  /** The number of `f` lines. */
  function FaceLineCount(lines: seq<Line>): nat
    decreases |lines|
  {
    if lines == [] then 0
    else
      var l := lines[|lines| - 1];
      FaceLineCount(lines[..|lines| - 1]) + (if l.Directive? && l.prefix == "f" then 1 else 0)
  }

  /** When every `f` line is a triangle written in full `p/t/n` form, each
      index list holds three indices per face line. */
  lemma {:induction false} TriangleFacesGiveThreeEach(lines: seq<Line>)
    requires forall k :: 0 <= k < |lines| && lines[k].Directive? && lines[k].prefix == "f" ==>
               IsTriangleFace(lines[k].refs)
    ensures var ix := FaceIndicesOf(lines);
            |ix.pos| == 3 * FaceLineCount(lines) && |ix.tc| == 3 * FaceLineCount(lines) &&
            |ix.nrm| == 3 * FaceLineCount(lines)
    decreases |lines|
  {
    if lines != [] {
      var init := lines[..|lines| - 1];
      var l := lines[|lines| - 1];
      forall k | 0 <= k < |init| && init[k].Directive? && init[k].prefix == "f"
        ensures IsTriangleFace(init[k].refs)
      {
        assert init[k] == lines[k];
      }
      TriangleFacesGiveThreeEach(init);
      if l.Directive? && l.prefix == "f" {
        TriangleFaceAddsThree(l.refs);
      }
    }
  }
}
