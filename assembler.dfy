/** Vertex assembly: one output vertex per position index, each filled from
    the three pools through the 1-based indices of the three index lists. */
module Assembler {
  import opened ObjTypes

  /** A 1-based file index that names an element of a pool of `size`. */
  predicate InPool(index: int, size: nat) {
    1 <= index <= size
  }

  /** Every lookup the assembly loop makes is in bounds: the texcoord and
      normal lists are at least as long as the position list, and every
      index it reads names an element of its pool. */
  predicate Resolvable(positions: seq<Vec3>, texcoords: seq<Vec2>, normals: seq<Vec3>, ix: IndexLists) {
    |ix.tc| >= |ix.pos| && |ix.nrm| >= |ix.pos| &&
    forall i :: 0 <= i < |ix.pos| ==>
      InPool(ix.pos[i], |positions|) && InPool(ix.tc[i], |texcoords|) && InPool(ix.nrm[i], |normals|)
  }

  /** The vertex that face reference `i` resolves to. */
  function VertexAt(positions: seq<Vec3>, texcoords: seq<Vec2>, normals: seq<Vec3>, ix: IndexLists, i: nat): Vertex
    requires Resolvable(positions, texcoords, normals, ix) && i < |ix.pos|
  {
    Vertex(positions[ix.pos[i] - 1], normals[ix.nrm[i] - 1], texcoords[ix.tc[i] - 1])
  }

  /** The whole resolved vertex sequence, in face-reference order. */
  function Resolved(positions: seq<Vec3>, texcoords: seq<Vec2>, normals: seq<Vec3>, ix: IndexLists): seq<Vertex>
    requires Resolvable(positions, texcoords, normals, ix)
  {
    seq(|ix.pos|, i requires 0 <= i < |ix.pos| => VertexAt(positions, texcoords, normals, ix, i))
  }

  /** The assembly loop: size the output to the position list, then fill
      the fields of each entry from the pools. */
  method Assemble(positions: seq<Vec3>, texcoords: seq<Vec2>, normals: seq<Vec3>, ix: IndexLists)
    returns (vertices: seq<Vertex>)
    requires Resolvable(positions, texcoords, normals, ix)
    ensures |vertices| == |ix.pos|
    ensures forall i :: 0 <= i < |vertices| ==>
      vertices[i].position == positions[ix.pos[i] - 1] &&
      vertices[i].uv == texcoords[ix.tc[i] - 1] &&
      vertices[i].normal == normals[ix.nrm[i] - 1]
  {
    var out := new Vertex[|ix.pos|](_ => ZeroVertex);
    for i := 0 to out.Length
      invariant forall k :: 0 <= k < i ==>
        out[k].position == positions[ix.pos[k] - 1] &&
        out[k].uv == texcoords[ix.tc[k] - 1] &&
        out[k].normal == normals[ix.nrm[k] - 1]
    {
      out[i] := out[i].(position := positions[ix.pos[i] - 1]);
      out[i] := out[i].(uv := texcoords[ix.tc[i] - 1]);
      out[i] := out[i].(normal := normals[ix.nrm[i] - 1]);
    }
    vertices := out[..];
  }

  /** Resolving two index lists one after the other gives the two resolved
      blocks one after the other: output order is face-reference order and
      nothing is merged. */
  lemma ResolvedAppend(positions: seq<Vec3>, texcoords: seq<Vec2>, normals: seq<Vec3>, a: IndexLists, b: IndexLists)
    requires |a.tc| == |a.pos| && |a.nrm| == |a.pos|
    requires Resolvable(positions, texcoords, normals, a)
    requires Resolvable(positions, texcoords, normals, b)
    ensures Resolvable(positions, texcoords, normals, a.Append(b))
    ensures Resolved(positions, texcoords, normals, a.Append(b))
         == Resolved(positions, texcoords, normals, a) + Resolved(positions, texcoords, normals, b)
  {
    var ab := a.Append(b);
    forall i | 0 <= i < |ab.pos|
      ensures InPool(ab.pos[i], |positions|) && InPool(ab.tc[i], |texcoords|) && InPool(ab.nrm[i], |normals|)
    {
      if i >= |a.pos| {
        assert ab.pos[i] == b.pos[i - |a.pos|];
        assert ab.tc[i] == b.tc[i - |a.pos|];
        assert ab.nrm[i] == b.nrm[i - |a.pos|];
      }
    }
  }

  /** Two references with the same three indices resolve to the same
      vertex, and both appear in the output. */
  lemma SharedReferenceDuplicated(positions: seq<Vec3>, texcoords: seq<Vec2>, normals: seq<Vec3>, ix: IndexLists, i: nat, j: nat)
    requires Resolvable(positions, texcoords, normals, ix)
    requires i < j < |ix.pos|
    requires ix.pos[i] == ix.pos[j] && ix.tc[i] == ix.tc[j] && ix.nrm[i] == ix.nrm[j]
    ensures var r := Resolved(positions, texcoords, normals, ix);
            |r| == |ix.pos| && r[i] == r[j]
  {
  }
}
