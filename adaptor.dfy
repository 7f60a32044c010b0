/** The stream adaptor of the older rustc test-suite adaptor
    (rustc-testsuite-adaptor/src/adaptor.rs): a wrapper around an iterator meant to turn rustc
    test files into gccrs ones, which for now passes every item through. */
module Adaptor {

  import opened Options

  /** An iterator over a finite run of items, with its position. */
  class Stream<T> {
    const items: seq<T>
    var pos: nat

    ghost predicate Valid()
      reads this
    {
      pos <= |items|
    }

    constructor (items: seq<T>)
      ensures Valid() && this.items == items && pos == 0
    {
      this.items := items;
      pos := 0;
    }

    /** The items not yet yielded. */
    function Remaining(): seq<T>
      reads this
      requires Valid()
    {
      items[pos..]
    }

    /** `next`: the item at the position, which moves past it; nothing once all are yielded. */
    method Next() returns (x: Option<T>)
      requires Valid()
      modifies this
      ensures Valid()
      ensures old(pos) < |items| ==> x == Some(items[old(pos)]) && pos == old(pos) + 1
      ensures old(pos) == |items| ==> x == None && pos == old(pos)
    {
      if pos < |items| {
        x := Some(items[pos]);
        pos := pos + 1;
      } else {
        x := None;
      }
    }
  }

  /** `FileAdaptor`: the wrapped iterator. */
  class FileAdaptor<T> {
    const inner: Stream<T>

    /** `FileAdaptorExt::adapt`, available on every stream. */
    constructor (inner: Stream<T>)
      ensures this.inner == inner
    {
      this.inner := inner;
    }

    /** `FileAdaptor::next`: whatever the wrapped stream's `next` gives. */
    method Next() returns (x: Option<T>)
      requires inner.Valid()
      modifies inner
      ensures inner.Valid()
      ensures old(inner.pos) < |inner.items| ==> x == Some(inner.items[old(inner.pos)]) && inner.pos == old(inner.pos) + 1
      ensures old(inner.pos) == |inner.items| ==> x == None && inner.pos == old(inner.pos)
    {
      x := inner.Next();
    }
  }

  /** Draining an adapted stream yields exactly the items the wrapped one had left, in order,
      and ends exactly when the wrapped stream is exhausted. */
  method Drain<T>(a: FileAdaptor<T>) returns (xs: seq<T>)
    requires a.inner.Valid()
    modifies a.inner
    ensures xs == old(a.inner.Remaining())
    ensures a.inner.Valid() && a.inner.pos == |a.inner.items|
  {
    xs := [];
    ghost var start := a.inner.pos;
    while true
      invariant a.inner.Valid() && start <= a.inner.pos
      invariant xs == a.inner.items[start..a.inner.pos]
      decreases |a.inner.items| - a.inner.pos
    {
      var x := a.Next();
      if x.None? {
        break;
      }
      xs := xs + [x.value];
    }
  }
}
