/** Byte streams that are consumed as they are read. */
module Streams {
  import opened Bytes

  /** A connection that delivers `readable` of its bytes and then ends or fails. */
  class Reader {
    const data: Bytes
    const readable: nat
    var offset: nat

    ghost predicate Valid()
      reads this
    {
      offset <= readable <= |data|
    }

    /** Everything not yet consumed, deliverable or not. */
    ghost function Unread(): Bytes
      reads this
      requires Valid()
    {
      data[offset..]
    }

    ghost function Deliverable(): Bytes
      reads this
      requires Valid()
    {
      data[offset..readable]
    }

    constructor (data: Bytes, readable: nat)
      requires readable <= |data|
      ensures Valid() && Unread() == data && Deliverable() == data[..readable]
    {
      this.data, this.readable := data, readable;
      offset := 0;
    }

    method ReadFull(n: nat) returns (got: Bytes, ok: bool)
      requires Valid()
      modifies this
      ensures Valid() && ok == (n <= |old(Deliverable())|)
      ensures got == if ok then old(Deliverable())[..n] else old(Deliverable())
      ensures Deliverable() == if ok then old(Deliverable())[n..] else []
      ensures got + Unread() == old(Unread())
    {
      var take := if n <= readable - offset then n else readable - offset;
      got := data[offset..offset + take];
      offset := offset + take;
      ok := take == n;
      if !ok {
        assert got == old(Deliverable());
      }
    }
  }
}
