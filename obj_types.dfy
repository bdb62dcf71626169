/** Values shared by the OBJ mesh loader: the attribute records, the vertex
    record handed to the GPU layer, the abstract view of one text line, and
    the loader's result. Floating-point numbers are opaque here: they are
    carried as `real` and never computed with. */
module ObjTypes {

  /** A three-component float vector (glm::vec3). */
  datatype Vec3 = Vec3(x: real, y: real, z: real)

  /** A two-component float vector (glm::vec2). */
  datatype Vec2 = Vec2(x: real, y: real)

  /** The interleaved vertex record; the field order position, normal, uv is
      the buffer layout the shaders bind to. */
  datatype Vertex = Vertex(position: Vec3, normal: Vec3, uv: Vec2)

  /** What `Vertex()` value-initialises to before assembly overwrites it. */
  const ZeroVertex := Vertex(Vec3(0.0, 0.0, 0.0), Vec3(0.0, 0.0, 0.0), Vec2(0.0, 0.0))

  /** The character right after an integer read on a face line: a slash, a
      space, or anything else (another white-space character, end of line). */
  datatype Follow = Slash | Space | Other

  /** One integer read by the face loop, with the character that follows it. */
  datatype FaceItem = FaceItem(index: int, follow: Follow)

  /** One line of the file as the line loop sees it.
      `Blank` is a line holding no token at all (empty or only white space),
      on which reading the prefix fails. A `Directive` has a first token
      `prefix`; `floats` are the numbers the float extractor reads from the
      rest of the line, in order, and `refs` are the integers the face loop
      reads from it, each with the character that follows it. Which of the
      two views is used depends on the prefix. */
  datatype Line =
    | Blank
    | Directive(prefix: string, floats: seq<real>, refs: seq<FaceItem>)

  /** The mesh file: either it cannot be opened, or it is a sequence of lines. */
  datatype Source = Unreadable | Readable(lines: seq<Line>)

  datatype LoadError = IOError | IndexOutOfRange

  datatype Result<T> = Success(value: T) | Failure(error: LoadError)

  /** The three face-index vectors, one per attribute pool, holding the
      1-based indices exactly as they were read. */
  datatype IndexLists = IndexLists(pos: seq<int>, tc: seq<int>, nrm: seq<int>) {

    /** Appends `index` to the list that cursor `slot` selects (0 position,
        1 texcoord, 2 normal); any other slot selects nothing. */
    function Push(slot: nat, index: int): IndexLists {
      if slot == 0 then this.(pos := pos + [index])
      else if slot == 1 then this.(tc := tc + [index])
      else if slot == 2 then this.(nrm := nrm + [index])
      else this
    }

    /** Each list of `this` followed by the matching list of `other`. */
    function Append(other: IndexLists): IndexLists {
      IndexLists(pos + other.pos, tc + other.tc, nrm + other.nrm)
    }

    /** The number of indices held in all three lists together. */
    function Size(): nat {
      |pos| + |tc| + |nrm|
    }
  }

  const NoIndices := IndexLists([], [], [])

  lemma PushAppend(x: IndexLists, slot: nat, index: int)
    ensures x.Push(slot, index) == x.Append(NoIndices.Push(slot, index))
  {
  }

  lemma AppendAssoc(x: IndexLists, y: IndexLists, z: IndexLists)
    ensures x.Append(y).Append(z) == x.Append(y.Append(z))
  {
    assert (x.pos + y.pos) + z.pos == x.pos + (y.pos + z.pos);
    assert (x.tc + y.tc) + z.tc == x.tc + (y.tc + z.tc);
    assert (x.nrm + y.nrm) + z.nrm == x.nrm + (y.nrm + z.nrm);
  }
}
