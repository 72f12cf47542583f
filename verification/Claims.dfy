/** What a runner that holds the claim may rely on: one stored record, and the
  * saves of the present claim that have not taken effect yet, oldest first.
  *
  * A save is a conditional write against its predecessor's revision, so the
  * outstanding saves take effect one after another and never out of order.
  * Module Journal proves that the conditional-write protocol behaves like this;
  * the controllers are written against it.
  */
module Claims {

  datatype Cell<R> = Cell(stored: R, unlanded: seq<R>) {

    /** Every record that is stored now or may still come to be stored. */
    function Chain(): seq<R> {
      [stored] + unlanded
    }

    /** The holder issues one more save. */
    function Attempted(r: R): Cell<R> {
      Cell(stored, unlanded + [r])
    }

    /** The oldest n outstanding saves take effect. */
    function Landed(n: nat): (c: Cell<R>)
      requires n <= |unlanded|
      ensures c.Chain() == Chain()[n..]
    {
      Cell(Chain()[n], unlanded[n..])
    }

    /** The claim is given up: outstanding saves can no longer take effect. */
    function Dropped(): Cell<R> {
      Cell(stored, [])
    }
  }

  /** How a call ended for its caller: it was answered, it failed (and may or
    * may not have acted), or the calling process died. */
  datatype Reply = Done | Failed | Killed

  /** A call to a host or a cloud service whose effect is not modelled here. */
  method Outside() returns (reply: Reply)
  {
    reply :| true;
  }

  /** A call that did, or did not, act: an answer means that it did; without
    * one the caller cannot tell. */
  method Answered(acted: bool) returns (reply: Reply)
    ensures reply.Done? ==> acted
  {
    reply :| true;
    if reply.Done? && !acted {
      reply := Failed;
    }
  }

  /** The journal as the holder of the claim sees it. Every choice made with
    * `*` belongs to the network and to the crash model. */
  class Store<R> {
    const calm: bool     // every save is answered
    var cell: Cell<R>
    ghost var attempts: seq<R>

    constructor (initial: R)
      ensures cell == Cell(initial, []) && attempts == []
    {
      calm := false;
      cell := Cell(initial, []);
      attempts := [];
    }

    constructor Calm(initial: R)
      ensures cell == Cell(initial, []) && attempts == [] && calm
    {
      calm := true;
      cell := Cell(initial, []);
      attempts := [];
    }

    /** A successful claim. Saves of the previous claim either took effect
      * before it was given up or never will. */
    method Acquire() returns (r: R)
      modifies this
      ensures r == cell.stored && cell.unlanded == []
      ensures exists n: nat :: n <= |old(cell).unlanded| && cell == old(cell).Landed(n).Dropped()
      ensures cell.stored in old(cell).Chain()
      ensures attempts == old(attempts)
    {
      var n: nat :| n <= |cell.unlanded|;
      assert cell.Chain()[n] in cell.Chain();
      cell := cell.Landed(n).Dropped();
      r := cell.stored;
    }

    /** A save that is answered has taken effect. One that fails, or whose
      * caller dies, may have taken effect, may yet do so, or may never. */
    method Save(r: R) returns (reply: Reply)
      modifies this
      ensures attempts == old(attempts) + [r]
      ensures exists n: nat :: n <= |old(cell).unlanded| + 1 && cell == old(cell).Attempted(r).Landed(n)
      ensures forall x :: x in cell.Chain() ==> x in old(cell).Chain() || x == r
      ensures reply.Done? ==> cell == Cell(r, [])
      ensures calm ==> reply.Done?
    {
      attempts := attempts + [r];
      cell := cell.Attempted(r);
      var answered: bool := *;
      if answered || calm {
        cell := cell.Landed(|cell.unlanded|);
        reply := Done;
      } else {
        var n: nat :| n <= |cell.unlanded|;
        cell := cell.Landed(n);
        reply :| reply.Failed? || reply.Killed?;
      }
    }
  }
}
