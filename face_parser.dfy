/** The face-line loop of the OBJ loader: every integer read goes to the
    index list that a rotating cursor selects (0 position, 1 texcoord,
    2 normal); the cursor moves on when the integer is followed by a slash
    or a space, which is then consumed, and wraps to 0 after 2. */
module FaceParser {
  import opened ObjTypes

  /** The cursor after handling the character that follows an integer. */
  function Advance(counter: nat, follow: Follow): (r: nat)
    ensures r < 3
    ensures counter < 3 && follow == Other ==> r == counter
    ensures counter < 3 && !follow.Other? ==> r == if counter == 2 then 0 else counter + 1
  {
    var c := if follow == Slash || follow == Space then counter + 1 else counter;
    if c > 2 then 0 else c
  }

  /** The indices the face loop distributes when it reads `items` with the
      cursor starting at `counter`. */
  function Route(items: seq<FaceItem>, counter: nat): (r: IndexLists)
    ensures counter < 3 ==> r.Size() == |items|
    decreases |items|
  {
    if items == [] then NoIndices
    else NoIndices.Push(counter, items[0].index).Append(Route(items[1..], Advance(counter, items[0].follow)))
  }

  /** The face loop: starting from the index lists read so far, with the
      cursor at 0, read every item of one face line. */
  method ParseFace(items: seq<FaceItem>, lists: IndexLists) returns (out: IndexLists)
    ensures out == lists.Append(Route(items, 0))
  {
    out := lists;
    var counter: nat := 0;
    var i := 0;
    while i < |items|
      invariant 0 <= i <= |items|
      invariant counter < 3
      invariant lists.Append(Route(items, 0)) == out.Append(Route(items[i..], counter))
    {
      var index := items[i].index;
      ghost var before, slot := out, counter;
      // push the index into the list the cursor selects
      if counter == 0 {
        out := out.(pos := out.pos + [index]);
      } else if counter == 1 {
        out := out.(tc := out.tc + [index]);
      } else if counter == 2 {
        out := out.(nrm := out.nrm + [index]);
      }
      // a slash or a space moves the cursor on and is consumed
      if items[i].follow == Slash {
        counter := counter + 1;
      } else if items[i].follow == Space {
        counter := counter + 1;
      }
      if counter > 2 {
        counter := 0;
      }
      assert out == before.Push(slot, index);
      assert counter == Advance(slot, items[i].follow);
      assert items[i..][1..] == items[i + 1..];
      calc {
        out.Append(Route(items[i + 1..], counter));
        { PushAppend(before, slot, index); }
        before.Append(NoIndices.Push(slot, index)).Append(Route(items[i + 1..], counter));
        { AppendAssoc(before, NoIndices.Push(slot, index), Route(items[i + 1..], counter)); }
        before.Append(Route(items[i..], slot));
      }
      i := i + 1;
    }
    assert items[i..] == [];
  }

  /** Reading an item for slot `counter` and then the rest is reading that
      one index and then the rest from the advanced cursor. */
  lemma {:induction false} RouteAppend(a: seq<FaceItem>, b: seq<FaceItem>, counter: nat)
    ensures Route(a + b, counter) == Route(a, counter).Append(Route(b, CursorAfter(a, counter)))
    decreases |a|
  {
    if a == [] {
      assert a + b == b;
    } else {
      var next := Advance(counter, a[0].follow);
      var head := NoIndices.Push(counter, a[0].index);
      assert (a + b)[0] == a[0];
      assert (a + b)[1..] == a[1..] + b;
      RouteAppend(a[1..], b, next);
      calc {
        Route(a + b, counter);
        head.Append(Route(a[1..] + b, next));
        head.Append(Route(a[1..], next).Append(Route(b, CursorAfter(a[1..], next))));
        { AppendAssoc(head, Route(a[1..], next), Route(b, CursorAfter(a[1..], next))); }
        head.Append(Route(a[1..], next)).Append(Route(b, CursorAfter(a[1..], next)));
      }
    }
  }

  /** The cursor after the face loop has read `items` starting at `counter`. */
  function CursorAfter(items: seq<FaceItem>, counter: nat): (r: nat)
    ensures counter < 3 ==> r < 3
    decreases |items|
  {
    if items == [] then counter else CursorAfter(items[1..], Advance(counter, items[0].follow))
  }

  /** One face-vertex reference `p/t/n`. */
  datatype Ref = Ref(p: int, t: int, n: int) {
    function At(slot: nat): int {
      if slot == 0 then p else if slot == 1 then t else n
    }
  }

  /** The items read from a reference written `p/t/n`, followed by `last`. */
  function RefItems(r: Ref, last: Follow): seq<FaceItem> {
    [FaceItem(r.p, Slash), FaceItem(r.t, Slash), FaceItem(r.n, last)]
  }

  /** The items read from a face written `p/t/n p/t/n ...` with single
      spaces between references; `last` follows the final index. */
  function FaceText(refs: seq<Ref>, last: Follow): seq<FaceItem>
    decreases |refs|
  {
    if refs == [] then []
    else if |refs| == 1 then RefItems(refs[0], last)
    else RefItems(refs[0], Space) + FaceText(refs[1..], last)
  }

  /** Component `slot` of every reference, in order. */
  function Column(refs: seq<Ref>, slot: nat): (c: seq<int>)
    ensures |c| == |refs|
    ensures forall k :: 0 <= k < |refs| ==> c[k] == refs[k].At(slot)
    decreases |refs|
  {
    if refs == [] then [] else [refs[0].At(slot)] + Column(refs[1..], slot)
  }

  /** Three items whose first two are each followed by a separator, read
      from cursor 0, land one in each list. */
  lemma RouteThree(items: seq<FaceItem>)
    requires |items| == 3 && !items[0].follow.Other? && !items[1].follow.Other?
    ensures Route(items, 0) == IndexLists([items[0].index], [items[1].index], [items[2].index])
    ensures CursorAfter(items, 0) == Advance(2, items[2].follow)
  {
    var tail2 := items[1..];
    var tail1 := tail2[1..];
    assert tail1 == [items[2]] && tail1[1..] == [];
    assert Route(tail1, 2) == IndexLists([], [], [items[2].index]);
    assert Route(tail2, 1) == IndexLists([], [items[1].index], [items[2].index]);
    assert CursorAfter(tail1, 2) == Advance(2, items[2].follow);
    assert CursorAfter(tail2, 1) == CursorAfter(tail1, 2);
  }

  lemma RouteRef(r: Ref, last: Follow)
    ensures Route(RefItems(r, last), 0) == IndexLists([r.p], [r.t], [r.n])
    ensures CursorAfter(RefItems(r, last), 0) == if last.Other? then 2 else 0
  {
    RouteThree(RefItems(r, last));
  }

  /** A face written in full `p/t/n` form sends every position index to the
      position list, every texcoord index to the texcoord list and every
      normal index to the normal list, each in reference order. */
  lemma {:induction false} RouteFaceText(refs: seq<Ref>, last: Follow)
    ensures Route(FaceText(refs, last), 0) == IndexLists(Column(refs, 0), Column(refs, 1), Column(refs, 2))
    decreases |refs|
  {
    if refs == [] {
    } else if |refs| == 1 {
      RouteRef(refs[0], last);
    } else {
      RouteAppend(RefItems(refs[0], Space), FaceText(refs[1..], last), 0);
      RouteRef(refs[0], Space);
      RouteFaceText(refs[1..], last);
    }
  }

  /** The face `a/b/c d/e/f g/h/i`: each list grows by exactly three. */
  lemma TriangleFaceRouting(a: int, b: int, c: int, d: int, e: int, f: int, g: int, h: int, i: int, last: Follow)
    ensures Route(FaceText([Ref(a, b, c), Ref(d, e, f), Ref(g, h, i)], last), 0)
         == IndexLists([a, d, g], [b, e, h], [c, f, i])
  {
    var refs := [Ref(a, b, c), Ref(d, e, f), Ref(g, h, i)];
    RouteFaceText(refs, last);
    assert Column(refs, 0) == [a, d, g];
    assert Column(refs, 1) == [b, e, h];
    assert Column(refs, 2) == [c, f, i];
  }

  /** A face of three full references, as a predicate on the items read. */
  predicate IsTriangleFace(items: seq<FaceItem>) {
    |items| == 9 &&
    items == FaceText([Ref(items[0].index, items[1].index, items[2].index),
                       Ref(items[3].index, items[4].index, items[5].index),
                       Ref(items[6].index, items[7].index, items[8].index)], items[8].follow)
  }

  lemma TriangleFaceAddsThree(items: seq<FaceItem>)
    requires IsTriangleFace(items)
    ensures |Route(items, 0).pos| == 3 && |Route(items, 0).tc| == 3 && |Route(items, 0).nrm| == 3
  {
    TriangleFaceRouting(items[0].index, items[1].index, items[2].index,
                        items[3].index, items[4].index, items[5].index,
                        items[6].index, items[7].index, items[8].index, items[8].follow);
  }

  /** A face written `a/b c/d e/f` (two components per reference) puts the
      cursor out of step: the position list receives `a` and `d`, not the
      three position indices `a`, `c`, `e`. */
  lemma TwoComponentFaceDesynchronises(a: int, b: int, c: int, d: int, e: int, f: int)
    ensures Route([FaceItem(a, Slash), FaceItem(b, Space), FaceItem(c, Slash),
                   FaceItem(d, Space), FaceItem(e, Slash), FaceItem(f, Other)], 0)
         == IndexLists([a, d], [b, e], [c, f])
  {
    var front := [FaceItem(a, Slash), FaceItem(b, Space), FaceItem(c, Slash)];
    var back := [FaceItem(d, Space), FaceItem(e, Slash), FaceItem(f, Other)];
    assert front + back == [FaceItem(a, Slash), FaceItem(b, Space), FaceItem(c, Slash),
                            FaceItem(d, Space), FaceItem(e, Slash), FaceItem(f, Other)];
    RouteAppend(front, back, 0);
    RouteThree(front);
    RouteThree(back);
  }
}
