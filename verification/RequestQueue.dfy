/** The linked request queue: `front` and `last` pointers and a 32-bit count. Popping the
    only node leaves `last` pointing at it; the next push never follows that pointer. */
module RequestQueue {
  import opened Messages

  class Node {
    const req: Request
    var next: Node?
    ghost const place: nat   // how many nodes were pushed before this one

    constructor (req: Request, ghost place: nat)
      ensures this.req == req && next == null && this.place == place
    {
      this.req := req;
      next := null;
      this.place := place;
    }
  }

  /** The wrapped count keeps step with the exact one. */
  lemma CountWraps(n: int, change: int)
    ensures Wrap(Wrap(n) + change) == Wrap(n + change)
  {
  }

  class Queue {
    var front: Node?
    var last: Node?
    var size: word
    ghost var contents: seq<Request>   // the requests, first to leave first
    ghost var spine: seq<Node>         // the nodes from the front on
    ghost var gone: nat                // how many nodes have been popped

    ghost predicate Valid()
      reads this, spine
    {
      && size == Wrap(|spine|) && |contents| == |spine|
      && (forall i :: 0 <= i < |spine| ==> spine[i].req == contents[i])
      && (forall i :: 0 <= i < |spine| ==> spine[i].place == gone + i)   // so no node occurs twice
      && (forall i :: 0 <= i < |spine| - 1 ==> spine[i].next == spine[i + 1])
      && (if spine == [] then front == null
          else front == spine[0] && last == spine[|spine| - 1] && spine[|spine| - 1].next == null)
    }

    constructor ()
      ensures Valid() && spine == [] && contents == []
    {
      front, last, size, spine, gone, contents := null, null, 0, [], 0, [];
    }

    /** Forgets whatever the queue held. */
    method Init()
      modifies this
      ensures Valid() && spine == [] && contents == []
    {
      front, last, size := null, null, 0;
      spine, gone, contents := [], 0, [];
    }

    method Front() returns (req: Request)
      requires Valid() && contents != []
      ensures req == contents[0]
    {
      req := front.req;
    }

    method Pop()
      requires Valid() && contents != []
      modifies this
      ensures Valid() && contents == old(contents)[1..] && spine == old(spine)[1..]
      ensures |old(spine)| == 1 ==> last == old(spine)[0]
    {
      CountWraps(|spine|, -1);
      size := Wrap(size - 1);
      front := front.next;
      spine, gone, contents := spine[1..], gone + 1, contents[1..];
    }

    method Push(req: Request)
      requires Valid()
      modifies this, if front == null then {} else {last}
      ensures Valid() && contents == old(contents) + [req]
      ensures old(spine) == [] && old(last) != null ==> unchanged(old(last))
      ensures |spine| == |old(spine)| + 1 && spine[..|old(spine)|] == old(spine) && fresh(spine[|old(spine)|])
    {
      CountWraps(|spine|, 1);
      size := Wrap(size + 1);
      var node := new Node(req, gone + |spine|);
      if front == null {
        front := node;
        last := front;
      } else {
        last.next := node;
        last := last.next;
      }
      ghost var was := spine;
      spine, contents := spine + [node], contents + [req];
      assert spine[|was|] == node
          && forall i :: 0 <= i < |was| ==> spine[i].next == if i == |was| - 1 then node else was[i + 1];
    }

    /** The count wraps at 2^32, so emptiness is exact for queues shorter than that. */
    method Empty() returns (r: bool)
      requires Valid()
      ensures r <==> |contents| % 0x1_0000_0000 == 0
      ensures |contents| < 0x1_0000_0000 ==> (r <==> contents == [])
    {
      r := size == 0;
    }
  }
}
