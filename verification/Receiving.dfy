/** The receive paths of both sides, reading a byte stream in pieces of any size. */
module Receiving {
  import opened Lists
  import opened Bytes
  import opened Wire
  import opened Framing
  import Iso

  class Connection {
    /** All that the peer sends, and how much of it each recvmsg hands over at most. */
    const stream: seq<Byte>
    const chunk: nat -> nat
    var pos: nat
    var calls: nat

    ghost predicate Valid()
      reads this
    {
      pos <= |stream|
    }

    ghost function Left(): seq<Byte>
      requires Valid()
      reads this
    {
      stream[pos..]
    }

    constructor (stream: seq<Byte>, chunk: nat -> nat)
      ensures Valid() && Left() == stream && this.chunk == chunk
    {
      this.stream, this.chunk := stream, chunk;
      pos, calls := 0, 0;
    }

    /** One recvmsg: something, unless the peer has closed. */
    method RecvMsg(size: nat) returns (got: seq<Byte>)
      requires Valid() && size > 0
      modifies this
      ensures Valid() && |got| <= size && pos == old(pos) + |got| && got == stream[old(pos)..pos]
      ensures got == [] <==> old(pos) == |stream|
    {
      var n := 1 + chunk(calls);
      if n > size { n := size; }
      if n > |stream| - pos { n := |stream| - pos; }
      got := stream[pos..pos + n];
      pos, calls := pos + n, calls + 1;
    }

    /** usbip_recv: all that was asked for or nothing, however the stream was cut up. */
    method Recv(size: nat) returns (r: Option<seq<Byte>>)
      requires Valid()
      modifies this
      ensures Valid() && (r.Some? <==> 0 < size <= |stream| - old(pos))
      ensures r.Some? ==> pos == old(pos) + size && r.value == stream[old(pos)..pos]
    {
      if size == 0 { return None; }
      var left, buf := size, [];
      while left > 0
        invariant Valid() && old(pos) <= pos && 0 <= left && left == size - (pos - old(pos)) && buf == stream[old(pos)..pos]
        decreases left
      {
        var got := RecvMsg(left);
        if got == [] { return None; }
        buf, left := buf + got, left - |got|;
      }
      r := Some(buf);
    }

    /** usbip_recv_iso, given how many packets there are and what they must come to. */
    method RecvIso(n: nat, total: int) returns (r: Option<seq<Desc>>)
      requires Valid()
      modifies this
      ensures Valid()
      ensures r.Some? <==> && DescSize * n <= |stream| - old(pos)
                           && (n > 0 ==> Iso.Sum(DecodeDescs(stream[old(pos)..old(pos) + DescSize * n], n)) == total)
      ensures r.Some? ==> pos == old(pos) + DescSize * n && r.value == DecodeDescs(stream[old(pos)..pos], n)
    {
      if n == 0 { return Some([]); }
      var b := Recv(DescSize * n);
      if b.None? { return None; }
      var ps := DecodeDescs(b.value, n);
      var sum := Iso.FixupActualLength(ps);
      r := if sum == total then Some(ps) else None;
    }

    /** usbip_recv_xbuff. */
    method RecvXbuff(n: nat) returns (r: Option<seq<Byte>>)
      requires Valid()
      modifies this
      ensures Valid() && (r.Some? <==> n <= |stream| - old(pos))
      ensures r.Some? ==> pos == old(pos) + n && r.value == stream[old(pos)..pos]
    {
      if n == 0 { return Some([]); }
      r := Recv(n);
    }

    method RxBody(h: Header, shape: Shape) returns (r: Option<Message>)
      requires Valid()
      modifies this
      ensures Valid()
      ensures match DecodeBody(h, shape, old(Left()))
              case None => r == None
              case Some((m, rest)) => r == Some(m) && Left() == rest
    {
      ghost var s := Left();
      var payload := RecvXbuff(shape.payload);
      if payload.None? { return None; }
      assert payload.value == s[..shape.payload];
      ghost var n := shape.payload + DescSize * shape.packets;
      assert n <= |s| ==> stream[pos..pos + DescSize * shape.packets] == s[shape.payload..n];
      var packets := RecvIso(shape.packets, shape.total);
      if packets.None? { return None; }
      r := Some(Message(h, payload.value, packets.value));
    }

    /** stub_rx_pdu, v_rx_pdu and vhci_rx_pdu: one PDU, the same for every way of cutting up the stream. */
    method RxPdu(side: Side) returns (r: Option<Message>)
      requires Valid()
      modifies this
      ensures Valid()
      ensures match Decode(side, old(Left()))
              case None => r == None
              case Some((m, rest)) => r == Some(m) && Left() == rest
    {
      ghost var s := Left();
      var b := Recv(HeaderSize);
      if b.None? { return None; }
      assert b.value == s[..HeaderSize] && Left() == s[HeaderSize..];
      var h := DecodeHeader(b.value);
      if h.None? { return None; }
      var shape := ShapeOf(side, h.value);
      if shape.None? { return None; }
      r := RxBody(h.value, shape.value);
    }

    /** The receive loop, to the end of the stream or the first PDU refused. */
    method RxLoop(start: Side) returns (ms: seq<Message>, clean: bool)
      requires Valid()
      modifies this
      ensures (ms, clean) == DecodeAll(start, old(Left()))
    {
      ms, clean := [], true;
      var side := start;
      ghost var all := DecodeAll(start, Left());
      assert [] + all.0 == all.0;
      while clean && pos < |stream|
        invariant Valid()
        invariant clean ==> all == Prepend(ms, DecodeAll(side, Left()))
        invariant !clean ==> all == (ms, false)
        decreases if clean then |stream| - pos + 1 else 0
      {
        ghost var s := Left();
        var m := RxPdu(side);
        if m.None? {
          clean := false;
          assert ms + [] == ms;
        } else {
          ghost var next := DecodeAll(After(side, m.value.header), Left());
          assert ms + ([m.value] + next.0) == ms + [m.value] + next.0;
          ms, side := ms + [m.value], After(side, m.value.header);
        }
      }
      assert clean ==> Left() == [] && ms + [] == ms;
    }
  }

  function Prepend(ms: seq<Message>, r: (seq<Message>, bool)): (seq<Message>, bool) { (ms + r.0, r.1) }
}
