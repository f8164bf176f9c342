/**
 Isochronous packets.  The server sends the packets without the padding between them; the client puts
 each one back at its offset, in place, from the last to the first.
 */
module Iso {
  import opened Lists
  import opened Bytes

  /** struct usb_iso_packet_descriptor. */
  datatype Packet = Packet(offset: nat, length: nat, actual: nat, status: int)

  function Sum(ps: seq<Packet>): nat {
    if ps == [] then 0 else Sum(ps[..|ps| - 1]) + ps[|ps| - 1].actual
  }

  predicate Fits(ps: seq<Packet>, size: nat) {
    forall i :: 0 <= i < |ps| ==> ps[i].offset + ps[i].actual <= size
  }

  /** In order and without overlap. */
  predicate Ordered(ps: seq<Packet>) {
    forall i :: 0 <= i < |ps| - 1 ==> ps[i].offset + ps[i].actual <= ps[i + 1].offset
  }

  function Slice(buf: seq<Byte>, p: Packet): seq<Byte>
    requires p.offset + p.actual <= |buf|
  {
    buf[p.offset..p.offset + p.actual]
  }

  /** The packets one after the other, without what lies between them. */
  function Gather(buf: seq<Byte>, ps: seq<Packet>): (r: seq<Byte>)
    requires Fits(ps, |buf|)
    ensures |r| == Sum(ps)
  {
    if ps == [] then [] else Gather(buf, ps[..|ps| - 1]) + Slice(buf, ps[|ps| - 1])
  }

  /** The moves of usbip_pad_iso, last packet first; packet 0 stays where it is. */
  function Scatter(buf: seq<Byte>, ps: seq<Packet>): (r: seq<Byte>)
    requires Fits(ps, |buf|) && Sum(ps) <= |buf|
    ensures |r| == |buf|
    decreases |ps|
  {
    if |ps| <= 1 then buf else
    var front, p := ps[..|ps| - 1], ps[|ps| - 1];
    Scatter(Copied(buf, Sum(front), buf, p.offset, p.actual), front)
  }

  /** usbip_pad_iso with its early returns; tbl is transfer_buffer_length. */
  function Pad(buf: seq<Byte>, ps: seq<Packet>, actual: nat, tbl: nat): (r: seq<Byte>)
    requires Fits(ps, |buf|) && Sum(ps) == actual <= |buf|
    ensures |r| == |buf|
  {
    if ps == [] || actual == 0 || actual == tbl then buf else Scatter(buf, ps)
  }

  // ---------------------------------------------------------------------------------------------
  // Padding undoes compaction.
  // ---------------------------------------------------------------------------------------------

  lemma {:induction false} SumFront(ps: seq<Packet>, k: nat)
    requires k < |ps|
    ensures Sum(ps[..k]) + ps[k].actual == Sum(ps[..k + 1]) <= Sum(ps)
    decreases |ps|
  {
    assert ps[..k + 1][..k] == ps[..k];
    if k + 1 == |ps| {
      assert ps[..k + 1] == ps;
    } else {
      var front := ps[..|ps| - 1];
      assert front[..k] == ps[..k] && front[..k + 1] == ps[..k + 1];
      SumFront(front, k);
    }
  }

  /** An ordered packet never lies below its place in the compact stream. */
  lemma {:induction false} PlaceBelowOffset(ps: seq<Packet>, k: nat)
    requires Ordered(ps) && k < |ps|
    ensures Sum(ps[..k]) <= ps[k].offset
  {
    if k > 0 {
      PlaceBelowOffset(ps, k - 1);
      SumFront(ps, k - 1);
    }
  }

  lemma OffsetsRise(ps: seq<Packet>, j: nat, k: nat)
    requires Ordered(ps) && j < k < |ps|
    ensures ps[j].offset + ps[j].actual <= ps[k].offset
    decreases k
  {
    if j + 1 < k {
      OffsetsRise(ps, j, k - 1);
    }
  }

  /** Scattering ordered packets leaves everything from this offset on alone. */
  lemma {:induction false} ScatterLeaves(buf: seq<Byte>, ps: seq<Packet>, from: nat)
    requires Fits(ps, |buf|) && Fits(ps, from) && Sum(ps) <= |buf| && from <= |buf|
    ensures Scatter(buf, ps)[from..] == buf[from..]
    decreases |ps|
  {
    if |ps| > 1 {
      var front, p := ps[..|ps| - 1], ps[|ps| - 1];
      ScatterLeaves(Copied(buf, Sum(front), buf, p.offset, p.actual), front, from);
    }
  }

  /** Nor does it touch what lies before the second packet. */
  lemma {:induction false} ScatterKeepsFirst(buf: seq<Byte>, ps: seq<Packet>, upto: nat)
    requires Fits(ps, |buf|) && Sum(ps) <= |buf| && upto <= |buf|
    requires forall i :: 1 <= i < |ps| ==> upto <= ps[i].offset
    ensures Scatter(buf, ps)[..upto] == buf[..upto]
    decreases |ps|
  {
    if |ps| > 1 {
      var front, p := ps[..|ps| - 1], ps[|ps| - 1];
      ScatterKeepsFirst(Copied(buf, Sum(front), buf, p.offset, p.actual), front, upto);
    }
  }

  /** Packet k of the compact stream stands at its place. */
  function Piece(buf: seq<Byte>, ps: seq<Packet>, k: nat): seq<Byte>
    requires k < |ps| && Sum(ps) <= |buf|
  {
    SumFront(ps, k);
    buf[Sum(ps[..k])..Sum(ps[..k + 1])]
  }

  lemma PieceOfFront(buf: seq<Byte>, ps: seq<Packet>, k: nat)
    requires k < |ps| - 1 && Sum(ps) <= |buf|
    ensures Sum(ps[..|ps| - 1]) <= |buf| && Piece(buf, ps[..|ps| - 1], k) == Piece(buf, ps, k)
  {
    var front := ps[..|ps| - 1];
    assert front[..k] == ps[..k] && front[..k + 1] == ps[..k + 1];
  }

  /** A copy above the stream of the earlier packets does not disturb them. */
  lemma PieceStays(buf: seq<Byte>, c: seq<Byte>, ps: seq<Packet>, k: nat)
    requires k < |ps| && Sum(ps) <= |buf| && Sum(ps) <= |c| && c[..Sum(ps)] == buf[..Sum(ps)]
    ensures Piece(c, ps, k) == Piece(buf, ps, k)
  {
    SumFront(ps, k);
    var i, j := Sum(ps[..k]), Sum(ps[..k + 1]);
    SliceOfPrefix(c, Sum(ps), i, j);
    SliceOfPrefix(buf, Sum(ps), i, j);
  }

  lemma CopiedLower(buf: seq<Byte>, i: nat, j: nat, len: nat, m: nat)
    requires i + len <= |buf| && j + len <= |buf| && m <= j
    ensures Copied(buf, i, buf, j, len)[..m] == buf[..m]
  {
  }

  lemma CopiedAt(buf: seq<Byte>, i: nat, j: nat, len: nat)
    requires i + len <= |buf| && j + len <= |buf|
    ensures Copied(buf, i, buf, j, len)[j..j + len] == buf[i..i + len]
  {
  }

  lemma SliceAbove(a: seq<Byte>, b: seq<Byte>, p: Packet)
    requires |a| == |b| && p.offset + p.actual <= |a| && a[p.offset..] == b[p.offset..]
    ensures Slice(a, p) == Slice(b, p)
  {
    assert Slice(a, p) == a[p.offset..][..p.actual] && Slice(b, p) == b[p.offset..][..p.actual];
  }

  lemma FrontBelow(ps: seq<Packet>)
    requires Ordered(ps) && ps != []
    ensures Fits(ps[..|ps| - 1], ps[|ps| - 1].offset)
  {
    forall i | 0 <= i < |ps| - 1 ensures ps[i].offset + ps[i].actual <= ps[|ps| - 1].offset {
      OffsetsRise(ps, i, |ps| - 1);
    }
  }

  lemma LastPlaced(buf: seq<Byte>, front: seq<Packet>, p: Packet)
    requires Fits(front, |buf|) && Fits(front, p.offset) && p.offset + p.actual <= |buf| && Sum(front) + p.actual <= |buf|
    ensures Slice(Scatter(Copied(buf, Sum(front), buf, p.offset, p.actual), front), p) ==
            buf[Sum(front)..Sum(front) + p.actual]
  {
    var c := Copied(buf, Sum(front), buf, p.offset, p.actual);
    ScatterLeaves(c, front, p.offset);
    SliceAbove(Scatter(c, front), c, p);
    CopiedAt(buf, Sum(front), p.offset, p.actual);
  }

  lemma PieceUnmoved(buf: seq<Byte>, ps: seq<Packet>, k: nat)
    requires Fits(ps, |buf|) && Sum(ps) <= |buf| && Ordered(ps) && k < |ps| - 1
    ensures var front, p := ps[..|ps| - 1], ps[|ps| - 1];
            Sum(front) <= |buf| && Sum(front) + p.actual <= |buf| &&
            Piece(Copied(buf, Sum(front), buf, p.offset, p.actual), front, k) == Piece(buf, ps, k)
  {
    var front, p := ps[..|ps| - 1], ps[|ps| - 1];
    PlaceBelowOffset(ps, |ps| - 1);
    CopiedLower(buf, Sum(front), p.offset, p.actual, Sum(front));
    PieceStays(buf, Copied(buf, Sum(front), buf, p.offset, p.actual), front, k);
    PieceOfFront(buf, ps, k);
  }

  /** Every packet but the first reaches its offset. */
  lemma {:induction false} ScatterPlaces(buf: seq<Byte>, ps: seq<Packet>, k: nat)
    requires Fits(ps, |buf|) && Sum(ps) <= |buf| && Ordered(ps) && 1 <= k < |ps|
    ensures Slice(Scatter(buf, ps), ps[k]) == Piece(buf, ps, k)
    decreases |ps|
  {
    var front, p := ps[..|ps| - 1], ps[|ps| - 1];
    if k < |ps| - 1 {
      ScatterPlaces(Copied(buf, Sum(front), buf, p.offset, p.actual), front, k);
      PieceUnmoved(buf, ps, k);
    } else {
      FrontBelow(ps);
      LastPlaced(buf, front, p);
      assert ps[..k + 1] == ps;
    }
  }

  /** Packet 0 is never moved. */
  lemma ScatterFirst(buf: seq<Byte>, ps: seq<Packet>)
    requires Fits(ps, |buf|) && Sum(ps) <= |buf| && Ordered(ps) && ps != []
    ensures Slice(Scatter(buf, ps), ps[0]) == Slice(buf, ps[0])
  {
    var upto := ps[0].offset + ps[0].actual;
    forall i | 1 <= i < |ps| ensures upto <= ps[i].offset { OffsetsRise(ps, 0, i); }
    ScatterKeepsFirst(buf, ps, upto);
    var r := Scatter(buf, ps);
    assert Slice(r, ps[0]) == r[..upto][ps[0].offset..] && Slice(buf, ps[0]) == buf[..upto][ps[0].offset..];
  }

  /** With no room to spare, every packet already stands at its offset. */
  lemma {:induction false} TightOffsets(ps: seq<Packet>, size: nat, k: nat)
    requires Ordered(ps) && Fits(ps, size) && k < |ps|
    ensures ps[k].offset + Sum(ps) <= size + Sum(ps[..k])
    decreases |ps| - k
  {
    SumFront(ps, k);
    if k + 1 < |ps| {
      TightOffsets(ps, size, k + 1);
    } else {
      assert ps[..k + 1] == ps;
    }
  }

  /** Every packet of the compact stream at the front of buf stands at its offset in r. */
  ghost predicate Recovered(buf: seq<Byte>, r: seq<Byte>, ps: seq<Packet>)
    requires Fits(ps, |r|) && Sum(ps) <= |buf|
  {
    forall k :: 0 <= k < |ps| ==> Slice(r, ps[k]) == Piece(buf, ps, k)
  }

  /** What a caller can check: the packet that is never moved is already in place, or empty. */
  predicate FirstInPlace(ps: seq<Packet>) {
    ps == [] || ps[0].offset == 0 || ps[0].actual == 0
  }

  lemma FirstPiece(buf: seq<Byte>, ps: seq<Packet>)
    requires ps != [] && Sum(ps) <= |buf|
    ensures ps[0].actual <= |buf| && Piece(buf, ps, 0) == buf[..ps[0].actual]
  {
    SumFront(ps, 0);
    assert ps[..0] == [];
  }

  lemma EmptyPiece(buf: seq<Byte>, ps: seq<Packet>, k: nat)
    requires Fits(ps, |buf|) && Sum(ps) == 0 && k < |ps|
    ensures Slice(buf, ps[k]) == Piece(buf, ps, k)
  {
    SumFront(ps, k);
  }

  lemma TightPlace(ps: seq<Packet>, tbl: nat, k: nat)
    requires Fits(ps, tbl) && Ordered(ps) && Sum(ps) == tbl && k < |ps|
    ensures ps[k].offset == Sum(ps[..k]) && ps[k].offset + ps[k].actual == Sum(ps[..k + 1])
  {
    SumFront(ps, k);
    TightOffsets(ps, tbl, k);
    PlaceBelowOffset(ps, k);
  }

  lemma TightPiece(buf: seq<Byte>, ps: seq<Packet>, tbl: nat, k: nat)
    requires Fits(ps, |buf|) && Sum(ps) <= |buf| && Fits(ps, tbl) && Ordered(ps) && Sum(ps) == tbl && k < |ps|
    ensures Slice(buf, ps[k]) == Piece(buf, ps, k)
  {
    TightPlace(ps, tbl, k);
  }

  lemma ScatterRecovers(buf: seq<Byte>, ps: seq<Packet>, k: nat)
    requires Fits(ps, |buf|) && Sum(ps) <= |buf| && Ordered(ps) && FirstInPlace(ps) && k < |ps|
    ensures Slice(Scatter(buf, ps), ps[k]) == Piece(buf, ps, k)
  {
    if k > 0 {
      ScatterPlaces(buf, ps, k);
    } else {
      ScatterFirst(buf, ps);
      FirstPiece(buf, ps);
    }
  }

  lemma PadPlaces(buf: seq<Byte>, ps: seq<Packet>, tbl: nat, k: nat)
    requires Fits(ps, |buf|) && Sum(ps) <= |buf| && Fits(ps, tbl) && Ordered(ps) && FirstInPlace(ps) && k < |ps|
    ensures Slice(Pad(buf, ps, Sum(ps), tbl), ps[k]) == Piece(buf, ps, k)
  {
    if Sum(ps) == 0 {
      EmptyPiece(buf, ps, k);
    } else if Sum(ps) == tbl {
      TightPiece(buf, ps, tbl, k);
    } else {
      ScatterRecovers(buf, ps, k);
    }
  }

  lemma PadRecovers(buf: seq<Byte>, ps: seq<Packet>, tbl: nat)
    requires Fits(ps, |buf|) && Sum(ps) <= |buf| && Fits(ps, tbl) && Ordered(ps) && FirstInPlace(ps)
    ensures Recovered(buf, Pad(buf, ps, Sum(ps), tbl), ps)
  {
    forall k | 0 <= k < |ps| ensures Slice(Pad(buf, ps, Sum(ps), tbl), ps[k]) == Piece(buf, ps, k) {
      PadPlaces(buf, ps, tbl, k);
    }
  }

  /** A buffer on which the first packet shows whether it was moved. */
  function Marked(size: nat): (r: seq<Byte>)
    requires size > 0
    ensures |r| == size
  {
    [1] + seq(size - 1, _ => 0)
  }

  /**
   For ordered packets the padding is right on every buffer exactly when the first packet needs no
   move: usbip_pad_iso never moves packet 0.
   */
  lemma PadExact(ps: seq<Packet>, size: nat, tbl: nat)
    requires Fits(ps, size) && Sum(ps) <= size && Fits(ps, tbl) && Ordered(ps)
    ensures (forall buf: seq<Byte> :: |buf| == size ==> Recovered(buf, Pad(buf, ps, Sum(ps), tbl), ps)) <==> FirstInPlace(ps)
  {
    if FirstInPlace(ps) {
      forall buf: seq<Byte> | |buf| == size ensures Recovered(buf, Pad(buf, ps, Sum(ps), tbl), ps) {
        PadRecovers(buf, ps, tbl);
      }
    } else {
      FirstStays(ps, size, tbl);
    }
  }

  lemma FirstStays(ps: seq<Packet>, size: nat, tbl: nat)
    requires Fits(ps, size) && Sum(ps) <= size && Fits(ps, tbl) && Ordered(ps) && !FirstInPlace(ps)
    ensures size > 0 && !Recovered(Marked(size), Pad(Marked(size), ps, Sum(ps), tbl), ps)
  {
    var buf := Marked(size);
    var r := Pad(buf, ps, Sum(ps), tbl);
    if Sum(ps) != 0 && Sum(ps) != tbl {
      ScatterFirst(buf, ps);
    }
    assert Slice(r, ps[0])[0] == buf[ps[0].offset] == 0;
    FirstPiece(buf, ps);
    assert Piece(buf, ps, 0)[0] == 1;
  }

  // ---------------------------------------------------------------------------------------------
  // From the server's buffer to the client's.
  // ---------------------------------------------------------------------------------------------

  /**
   The client's side of a RET_SUBMIT with isochronous packets: usbip_recv_xbuff, usbip_recv_iso and
   usbip_pad_iso on a buffer of transfer_buffer_length bytes.
   */
  function ClientReceive(cbuf: seq<Byte>, payload: seq<Byte>, actual: nat, ps: seq<Packet>): (r: Option<seq<Byte>>)
    requires |payload| == actual && Fits(ps, |cbuf|)
  {
    if actual > |cbuf| || (ps != [] && Sum(ps) != actual) then None
    else if ps == [] then Some(Splice(cbuf, 0, payload))
    else Some(Pad(Splice(cbuf, 0, payload), ps, actual, |cbuf|))
  }

  lemma {:induction false} GatherPiece(buf: seq<Byte>, ps: seq<Packet>, k: nat)
    requires Fits(ps, |buf|) && k < |ps|
    ensures Piece(Gather(buf, ps), ps, k) == Slice(buf, ps[k])
    decreases |ps|
  {
    var front, p := ps[..|ps| - 1], ps[|ps| - 1];
    if k < |ps| - 1 {
      GatherPiece(buf, front, k);
      PieceOfFront(Gather(buf, ps), ps, k);
      PieceStays(Gather(buf, front), Gather(buf, ps), front, k);
    } else {
      assert ps[..k + 1] == ps;
    }
  }

  lemma SplicedFront(cbuf: seq<Byte>, payload: seq<Byte>)
    requires |payload| <= |cbuf|
    ensures Splice(cbuf, 0, payload)[..|payload|] == payload == payload[..|payload|]
  {
  }

  /** The round trip: whatever the client's buffer held, it ends with the server's packets at their offsets. */
  lemma RoundTrip(sbuf: seq<Byte>, cbuf: seq<Byte>, ps: seq<Packet>, k: nat)
    requires Fits(ps, |sbuf|) && Fits(ps, |cbuf|) && Ordered(ps) && FirstInPlace(ps) && k < |ps|
    ensures var r := ClientReceive(cbuf, Gather(sbuf, ps), Sum(ps), ps);
            r.Some? && |r.value| == |cbuf| && Slice(r.value, ps[k]) == Slice(sbuf, ps[k])
  {
    var payload := Gather(sbuf, ps);
    TotalFits(ps, |cbuf|);
    var buf := Splice(cbuf, 0, payload);
    PadPlaces(buf, ps, |cbuf|, k);
    SplicedFront(cbuf, payload);
    PieceStays(payload, buf, ps, k);
    GatherPiece(sbuf, ps, k);
  }

  lemma TotalFits(ps: seq<Packet>, size: nat)
    requires Ordered(ps) && Fits(ps, size)
    ensures Sum(ps) <= size
  {
    if ps != [] {
      TightOffsets(ps, size, 0);
      assert ps[..0] == [];
    }
  }

  // ---------------------------------------------------------------------------------------------
  // The libusb server keeps no offsets: it derives them from the lengths.
  // ---------------------------------------------------------------------------------------------

  function Lengths(ps: seq<Packet>): nat {
    if ps == [] then 0 else Lengths(ps[..|ps| - 1]) + ps[|ps| - 1].length
  }

  /** usbip_alloc_iso_desc_pdu: each offset is the sum of the lengths before it. */
  function RunningOffsets(ps: seq<Packet>): (r: seq<Packet>)
    ensures |r| == |ps| && Sum(r) == Sum(ps)
  {
    if ps == [] then [] else
    var front, p := ps[..|ps| - 1], ps[|ps| - 1];
    var r := RunningOffsets(front) + [p.(offset := Lengths(front))];
    assert r[..|r| - 1] == RunningOffsets(front);
    r
  }

  predicate NoLongerThanAsked(ps: seq<Packet>) {
    forall i :: 0 <= i < |ps| ==> ps[i].actual <= ps[i].length
  }

  lemma {:induction false} RunningAt(ps: seq<Packet>, k: nat)
    requires k < |ps|
    ensures RunningOffsets(ps)[k] == ps[k].(offset := Lengths(ps[..k]))
    ensures Lengths(ps[..k]) + ps[k].length == Lengths(ps[..k + 1]) <= Lengths(ps)
    decreases |ps|
  {
    var front := ps[..|ps| - 1];
    assert ps[..k + 1][..k] == ps[..k];
    if k < |ps| - 1 {
      RunningAt(front, k);
      assert front[..k] == ps[..k] && front[..k + 1] == ps[..k + 1];
    } else {
      assert ps[..k + 1] == ps;
    }
  }

  /** They meet everything usbip_pad_iso asks of a layout. */
  lemma RunningLayout(ps: seq<Packet>, size: nat)
    requires NoLongerThanAsked(ps) && Lengths(ps) <= size
    ensures var r := RunningOffsets(ps); Ordered(r) && Fits(r, size) && FirstInPlace(r)
  {
    var r := RunningOffsets(ps);
    forall k | 0 <= k < |r| ensures r[k].offset + r[k].actual <= Lengths(ps[..k + 1]) <= size {
      RunningAt(ps, k);
    }
    forall k | 0 <= k < |r| - 1 ensures r[k].offset + r[k].actual <= r[k + 1].offset {
      RunningAt(ps, k + 1);
    }
    if ps != [] {
      RunningAt(ps, 0);
      assert ps[..0] == [];
    }
  }

  /** With no padding at all, each offset is the sum of the actual lengths before it. */
  lemma RunningTight(ps: seq<Packet>, size: nat, k: nat)
    requires NoLongerThanAsked(ps) && Lengths(ps) <= size && Sum(ps) == size && k < |ps|
    ensures RunningOffsets(ps)[k].offset == Sum(RunningOffsets(ps)[..k])
  {
    RunningLayout(ps, size);
    TightPlace(RunningOffsets(ps), size, k);
  }

  /** The libusb server's packets reach the client whole, each at the offset its descriptor names. */
  lemma LibusbRoundTrip(sbuf: seq<Byte>, cbuf: seq<Byte>, ps: seq<Packet>, k: nat)
    requires NoLongerThanAsked(ps) && Lengths(ps) <= |sbuf| && Lengths(ps) <= |cbuf| && k < |ps|
    ensures Fits(RunningOffsets(ps), |sbuf|) && Fits(RunningOffsets(ps), |cbuf|)
    ensures RunningOffsets(ps)[k] == ps[k].(offset := Lengths(ps[..k]))
    ensures var ds := RunningOffsets(ps);
            var r := ClientReceive(cbuf, Gather(sbuf, ds), Sum(ps), ds);
            r.Some? && |r.value| == |cbuf| && Slice(r.value, ds[k]) == Slice(sbuf, ds[k])
  {
    RunningLayout(ps, |sbuf|);
    RunningLayout(ps, |cbuf|);
    RunningAt(ps, k);
    RoundTrip(sbuf, cbuf, RunningOffsets(ps), k);
  }

  // ---------------------------------------------------------------------------------------------
  // The loops.
  // ---------------------------------------------------------------------------------------------

  /** What the loop still has to do: the packets todo, whose bytes are the first at ones. */
  ghost predicate Left(buf: seq<Byte>, todo: seq<Packet>, at: nat, goal: seq<Byte>) {
    Fits(todo, |buf|) && Sum(todo) == at <= |buf| && Scatter(buf, todo) == goal
  }

  lemma LeftNext(buf: seq<Byte>, todo: seq<Packet>, front: seq<Packet>, p: Packet, at: nat, goal: seq<Byte>)
    requires Left(buf, todo, at, goal) && todo == front + [p] && front != []
    ensures p.actual <= at && p.offset + p.actual <= |buf|
    ensures Left(Copied(buf, at - p.actual, buf, p.offset, p.actual), front, at - p.actual, goal)
  {
    assert todo[..|todo| - 1] == front && todo[|todo| - 1] == p;
    forall j | 0 <= j < |front| ensures front[j].offset + front[j].actual <= |buf| { assert todo[j] == front[j]; }
  }

  /** The scatter, in place: the loop of usbip_pad_iso with its early returns. */
  method PadIso(buffer: array<Byte>, ps: seq<Packet>, actual: nat, tbl: nat)
    requires Fits(ps, buffer.Length) && Sum(ps) == actual <= buffer.Length
    modifies buffer
    ensures buffer[..] == Pad(old(buffer[..]), ps, actual, tbl)
  {
    if |ps| == 0 || actual == 0 || actual == tbl { return; }
    var i: nat, at: nat := |ps| - 1, actual;
    ghost var todo, goal := ps, Scatter(buffer[..], ps);
    while i > 0
      invariant 0 <= i < |ps| && |todo| == i + 1 && todo <= ps
      invariant Left(buffer[..], todo, at, goal)
    {
      var p := ps[i];
      ghost var front := todo[..i];
      LeftNext(buffer[..], todo, front, p, at, goal);
      at := at - p.actual;
      Move(buffer, at, p.offset, p.actual);
      i, todo := i - 1, front;
    }
  }

  /** memmove. */
  method Move(buffer: array<Byte>, src: nat, dst: nat, len: nat)
    requires src + len <= buffer.Length && dst + len <= buffer.Length
    modifies buffer
    ensures buffer[..] == Copied(old(buffer[..]), src, old(buffer[..]), dst, len)
  {
    forall j | 0 <= j < len { buffer[dst + j] := buffer[src + j]; }
  }

  lemma GatherMore(buf: seq<Byte>, ps: seq<Packet>, i: nat)
    requires Fits(ps, |buf|) && i < |ps|
    ensures Gather(buf, ps[..i + 1]) == Gather(buf, ps[..i]) + Slice(buf, ps[i])
  {
    assert ps[..i + 1][..i] == ps[..i];
  }

  /** The iovecs of stub_send_ret_submit, concatenated; None is the size check that ends the connection. */
  method StubGather(buf: seq<Byte>, ps: seq<Packet>, actual: nat) returns (r: Option<seq<Byte>>)
    requires Fits(ps, |buf|)
    ensures r == if Sum(ps) == actual then Some(Gather(buf, ps)) else None
  {
    var out, i := [], 0;
    while i < |ps|
      invariant 0 <= i <= |ps| && out == Gather(buf, ps[..i])
    {
      GatherMore(buf, ps, i);
      out := out + buf[ps[i].offset..ps[i].offset + ps[i].actual];
      i := i + 1;
    }
    assert ps[..i] == ps;
    r := if |out| == actual then Some(out) else None;
  }

  /** fixup_actual_length, and the same sum in usbip_recv_iso. */
  method FixupActualLength(ps: seq<Packet>) returns (len: nat)
    ensures len == Sum(ps)
  {
    len := 0;
    for i := 0 to |ps|
      invariant len == Sum(ps[..i])
    {
      assert ps[..i + 1][..i] == ps[..i];
      len := len + ps[i].actual;
    }
    assert ps[..|ps|] == ps;
  }

  /** The libusb server's descriptors: a running offset over the lengths asked for. */
  method LibusbDescs(ps: seq<Packet>) returns (ds: seq<Packet>)
    ensures ds == RunningOffsets(ps)
  {
    ds := [];
    var offset := 0;
    for i := 0 to |ps|
      invariant offset == Lengths(ps[..i]) && ds == RunningOffsets(ps)[..i]
    {
      RunningAt(ps, i);
      ds := ds + [ps[i].(offset := offset)];
      offset := offset + ps[i].length;
    }
  }

  /**
   The two loops of the libusb server, each with its own running offset: they gather from exactly the
   offsets they announce.
   */
  method LibusbGather(buf: seq<Byte>, ps: seq<Packet>) returns (out: seq<Byte>, ds: seq<Packet>)
    requires Fits(RunningOffsets(ps), |buf|)
    ensures ds == RunningOffsets(ps) && out == Gather(buf, ds)
  {
    out := [];
    var offset := 0;
    ghost var all := RunningOffsets(ps);
    for i := 0 to |ps|
      invariant offset == Lengths(ps[..i]) && out == Gather(buf, all[..i])
    {
      RunningAt(ps, i);
      GatherMore(buf, all, i);
      out := out + buf[offset..offset + ps[i].actual];
      offset := offset + ps[i].length;
    }
    assert all[..|ps|] == all;
    ds := LibusbDescs(ps);
  }
}
