/**
 * Byte layout of a vertex buffer: the blocks attribute data is written to
 * with glBufferSubData, and the bytes glVertexAttribPointer makes GL read
 * for each vertex. Both model classes are described in these terms.
 */
module BufferLayout {
  import opened Gl

  /**
   * One vertex attribute stored in its own block of the array buffer and
   * read back through a tightly packed float pointer (stride = components
   * floats).
   */
  datatype Attribute = Attribute(slot: nat, components: nat, offset: nat, size: nat)
  {
    function Stride(): nat {
      components * SizeOfFloat
    }

    function End(): nat {
      offset + size
    }

    /** The glVertexAttribPointer call that reads this block. */
    function Pointer(): (c: Command)
      ensures c.AttribPointer? && c.slot == slot && c.offset == offset
    {
      AttribPointer(slot, components, Stride(), offset)
    }
  }

  /** First byte GL reads for vertex v through a pointer command. */
  function ReadStart(p: Command, v: nat): nat
    requires p.AttribPointer?
  {
    p.offset + v * p.stride
  }

  /** One past the last byte GL reads for vertex v through a pointer command. */
  function ReadEnd(p: Command, v: nat): nat
    requires p.AttribPointer?
  {
    ReadStart(p, v) + p.components * SizeOfFloat
  }

  /** Blocks laid end to end from byte 0, in sequence order. */
  predicate Packed(attrs: seq<Attribute>) {
    (attrs != [] ==> attrs[0].offset == 0) &&
    forall k :: 0 < k < |attrs| ==> attrs[k].offset == attrs[k - 1].End()
  }

  /** Sum of the block sizes. */
  function TotalSize(attrs: seq<Attribute>): nat
    decreases |attrs|
  {
    if attrs == [] then 0 else TotalSize(attrs[..|attrs| - 1]) + attrs[|attrs| - 1].size
  }

  /** Appending a block adds its size. */
  lemma TotalSizeSnoc(attrs: seq<Attribute>, a: Attribute)
    ensures TotalSize(attrs + [a]) == TotalSize(attrs) + a.size
  {
  }

  /** One block at byte 0 is packed, and the total is its size. */
  lemma PackedOne(a: Attribute)
    requires a.offset == 0
    ensures Packed([a]) && TotalSize([a]) == a.size
  {
    assert [a][..0] == [];
  }

  /** Two blocks end to end from byte 0 are packed, and the total is their sizes added. */
  lemma PackedTwo(a: Attribute, b: Attribute)
    requires a.offset == 0 && b.offset == a.End()
    ensures Packed([a, b]) && TotalSize([a, b]) == a.size + b.size
  {
    assert [a, b][..1] == [a];
    PackedOne(a);
  }

  /** Three blocks end to end from byte 0 are packed, and the total is their sizes added. */
  lemma PackedThree(a: Attribute, b: Attribute, c: Attribute)
    requires a.offset == 0 && b.offset == a.End() && c.offset == b.End()
    ensures Packed([a, b, c]) && TotalSize([a, b, c]) == a.size + b.size + c.size
  {
    assert [a, b, c][..2] == [a, b];
    PackedTwo(a, b);
  }

  /** The last packed block ends exactly at the total size. */
  lemma {:induction false} PackedEnd(attrs: seq<Attribute>)
    requires Packed(attrs) && attrs != []
    ensures attrs[|attrs| - 1].End() == TotalSize(attrs)
    decreases |attrs|
  {
    var n := |attrs|;
    if n > 1 {
      var front := attrs[..n - 1];
      assert Packed(front) by {
        forall k | 0 < k < |front| ensures front[k].offset == front[k - 1].End() {
          assert front[k] == attrs[k] && front[k - 1] == attrs[k - 1];
        }
      }
      PackedEnd(front);
    }
  }

  /** Packed blocks do not overlap: an earlier block ends before a later one starts. */
  lemma {:induction false} PackedOrdered(attrs: seq<Attribute>, i: nat, j: nat)
    requires Packed(attrs) && i < j < |attrs|
    ensures attrs[i].End() <= attrs[j].offset
    decreases j - i
  {
    if i + 1 < j {
      PackedOrdered(attrs, i, j - 1);
    }
  }

  /**
   * Packed blocks are pairwise disjoint and each lies inside a buffer of the
   * total size.
   */
  lemma PackedDisjointInBounds(attrs: seq<Attribute>)
    requires Packed(attrs)
    ensures forall i, j :: 0 <= i < j < |attrs| ==> attrs[i].End() <= attrs[j].offset
    ensures forall k :: 0 <= k < |attrs| ==> attrs[k].End() <= TotalSize(attrs)
  {
  }

  lemma MulMonotone(a: nat, b: nat, c: nat)
    requires a <= b
    ensures a * c <= b * c
  {
  }

  /**
   * A block holding `count` elements is read inside itself for every vertex
   * below `count`.
   */
  lemma ReadsInsideBlock(a: Attribute, count: nat, v: nat)
    requires a.size == count * a.Stride() && v < count
    ensures a.offset <= ReadStart(a.Pointer(), v)
    ensures ReadEnd(a.Pointer(), v) <= a.End()
  {
    MulMonotone(v + 1, count, a.Stride());
  }
}
