/**
  The slice of the DOM the scripts touch: a container element whose child
  list is read, cleared and appended to. Markup is abstract: a child is a
  value of whatever block type the section renders.
 */
module Dom {

  /** A container element found by id; its children in document order. */
  class Container<T> {
    var children: seq<T>

    constructor (children: seq<T>)
      ensures this.children == children
    {
      this.children := children;
    }
  }

  /** One rendered block per record, in the records' order. */
  function Rendered<R, B>(records: seq<R>, render: R -> B): (blocks: seq<B>)
    ensures |blocks| == |records|
    ensures forall i :: 0 <= i < |records| ==> blocks[i] == render(records[i])
  {
    if records == [] then [] else [render(records[0])] + Rendered(records[1..], render)
  }

  lemma RenderedConcat<R, B>(a: seq<R>, b: seq<R>, render: R -> B)
    ensures Rendered(a + b, render) == Rendered(a, render) + Rendered(b, render)
  {
    var lhs, rhs := Rendered(a + b, render), Rendered(a, render) + Rendered(b, render);
    forall i | 0 <= i < |lhs| ensures lhs[i] == rhs[i] {
      if i < |a| {
        assert (a + b)[i] == a[i];
      } else {
        assert (a + b)[i] == b[i - |a|];
      }
    }
  }

  /** The scripts' `records.forEach(r => container.appendChild(render(r)))`
      (and its `innerHTML +=` variant): appends each rendered record in turn. */
  method AppendRendered<R, B>(container: Container<B>, records: seq<R>, render: R -> B)
    modifies container
    ensures container.children == old(container.children) + Rendered(records, render)
  {
    var i := 0;
    while i < |records|
      invariant 0 <= i <= |records|
      invariant container.children == old(container.children) + Rendered(records[..i], render)
    {
      RenderedConcat(records[..i], [records[i]], render);
      assert records[..i] + [records[i]] == records[..i + 1];
      container.children := container.children + [render(records[i])];
      i := i + 1;
    }
    assert records[..i] == records;
  }
}
