/** The wire format: big-endian words, a 48-byte header, packet descriptors (usbip_protocol.txt). */
module Wire {
  import opened Lists
  import opened Bytes
  import Iso

  type U32 = x: int | 0 <= x < 0x1_0000_0000
  type S32 = x: int | -0x8000_0000 <= x < 0x8000_0000
  type Setup = s: seq<Byte> | |s| == 8 witness seq(8, _ => 0)

  const CMD_SUBMIT: U32 := 1
  const CMD_UNLINK: U32 := 2
  const RET_SUBMIT: U32 := 3
  const RET_UNLINK: U32 := 4
  const DIR_IN: U32 := 1
  const DIR_OUT: U32 := 0

  const HeaderSize := 48
  const DescSize := 16

  /** A signed field travels as its two's complement. */
  function ToU32(x: S32): U32 { if x < 0 then x + 0x1_0000_0000 else x }

  function ToS32(x: U32): S32 { if x >= 0x8000_0000 then x - 0x1_0000_0000 else x }

  /** cpu_to_be32. */
  function Be32(x: U32): (b: seq<Byte>)
    ensures |b| == 4
  {
    var (y, z) := (x / 0x100, x / 0x100 / 0x100);
    [(z / 0x100) as Byte, (z % 0x100) as Byte, (y % 0x100) as Byte, (x % 0x100) as Byte]
  }

  /** be32_to_cpu. */
  function FromBe32(b: seq<Byte>): (x: U32)
    requires |b| == 4
  {
    b[0] as int * 0x100_0000 + b[1] as int * 0x1_0000 + b[2] as int * 0x100 + b[3] as int
  }

  lemma WordRoundTrip(x: U32)
    ensures FromBe32(Be32(x)) == x
  {
  }

  function Words(ws: seq<U32>): (b: seq<Byte>)
    ensures |b| == 4 * |ws|
  {
    if ws == [] then [] else Be32(ws[0]) + Words(ws[1..])
  }

  function Parse(b: seq<Byte>): (ws: seq<U32>)
    ensures 4 * |ws| <= |b| < 4 * |ws| + 4
  {
    if |b| < 4 then [] else [FromBe32(b[..4])] + Parse(b[4..])
  }

  lemma {:induction false} WordsRoundTrip(ws: seq<U32>)
    ensures Parse(Words(ws)) == ws
  {
    if ws != [] {
      var b := Words(ws);
      assert b[..4] == Be32(ws[0]) && b[4..] == Words(ws[1..]);
      WordRoundTrip(ws[0]);
      WordsRoundTrip(ws[1..]);
    }
  }

  datatype Base = Base(seqnum: U32, devid: U32, direction: U32, ep: U32)

  datatype Header =
    | CmdSubmit(base: Base, flags: U32, length: S32, startFrame: S32, packets: S32, interval: S32, setup: Setup)
    | CmdUnlink(base: Base, target: U32)
    | RetSubmit(base: Base, status: S32, actual: S32, startFrame: S32, packets: S32, errorCount: S32)
    | RetUnlink(base: Base, status: S32)

  function Command(h: Header): U32 {
    match h
    case CmdSubmit(_, _, _, _, _, _, _) => CMD_SUBMIT
    case CmdUnlink(_, _) => CMD_UNLINK
    case RetSubmit(_, _, _, _, _, _) => RET_SUBMIT
    case RetUnlink(_, _) => RET_UNLINK
  }

  /** The union; what a shorter member leaves of it is zero. */
  function Union(h: Header): (ws: seq<U32>)
    ensures |ws| == 5
  {
    match h
    case CmdSubmit(_, flags, length, startFrame, packets, interval, _) =>
      [flags, ToU32(length), ToU32(startFrame), ToU32(packets), ToU32(interval)]
    case CmdUnlink(_, target) => [target, 0, 0, 0, 0]
    case RetSubmit(_, status, actual, startFrame, packets, errorCount) =>
      [ToU32(status), ToU32(actual), ToU32(startFrame), ToU32(packets), ToU32(errorCount)]
    case RetUnlink(_, status) => [ToU32(status), 0, 0, 0, 0]
  }

  function Tail(h: Header): Setup {
    if h.CmdSubmit? then h.setup else seq(8, _ => 0)
  }

  function HeaderWords(h: Header): (ws: seq<U32>)
    ensures |ws| == 10
  {
    [Command(h), h.base.seqnum, h.base.devid, h.base.direction, h.base.ep] + Union(h)
  }

  function EncodeHeader(h: Header): (b: seq<Byte>)
    ensures |b| == HeaderSize
  {
    Words(HeaderWords(h)) + Tail(h)
  }

  /** The members of the union that the command selects; None is the "unknown pdu" branch. */
  function FromWords(ws: seq<U32>, tail: Setup): Option<Header>
    requires |ws| == 10
  {
    var base := Base(ws[1], ws[2], ws[3], ws[4]);
    if ws[0] == CMD_SUBMIT then
      Some(CmdSubmit(base, ws[5], ToS32(ws[6]), ToS32(ws[7]), ToS32(ws[8]), ToS32(ws[9]), tail))
    else if ws[0] == CMD_UNLINK then Some(CmdUnlink(base, ws[5]))
    else if ws[0] == RET_SUBMIT then
      Some(RetSubmit(base, ToS32(ws[5]), ToS32(ws[6]), ToS32(ws[7]), ToS32(ws[8]), ToS32(ws[9])))
    else if ws[0] == RET_UNLINK then Some(RetUnlink(base, ToS32(ws[5])))
    else None
  }

  function DecodeHeader(b: seq<Byte>): Option<Header>
    requires |b| == HeaderSize
  {
    FromWords(Parse(b[..40]), b[40..])
  }

  lemma HeaderRoundTrip(h: Header)
    ensures DecodeHeader(EncodeHeader(h)) == Some(h)
  {
    var b := EncodeHeader(h);
    assert b[..40] == Words(HeaderWords(h)) && b[40..] == Tail(h);
    WordsRoundTrip(HeaderWords(h));
  }

  lemma {:induction false} WordAt(ws: seq<U32>, i: nat)
    requires i < |ws|
    ensures Words(ws)[4 * i..4 * i + 4] == Be32(ws[i])
  {
    var b := Words(ws);
    if i == 0 {
      assert b[..4] == Be32(ws[0]);
    } else {
      WordAt(ws[1..], i - 1);
      assert b[4..] == Words(ws[1..]);
      assert b[4 * i..4 * i + 4] == b[4..][4 * (i - 1)..4 * (i - 1) + 4];
    }
  }

  /** The word at a byte offset of a header. */
  function Field(b: seq<Byte>, at: nat): U32
    requires at + 4 <= |b|
  {
    FromBe32(b[at..at + 4])
  }

  lemma FieldAt(h: Header, i: nat)
    requires i < 10
    ensures Field(EncodeHeader(h), 4 * i) == HeaderWords(h)[i]
  {
    var b := EncodeHeader(h);
    WordAt(HeaderWords(h), i);
    assert b[4 * i..4 * i + 4] == Words(HeaderWords(h))[4 * i..4 * i + 4];
    WordRoundTrip(HeaderWords(h)[i]);
  }

  /** Every field stands at the offset the protocol document gives it. */
  lemma HeaderLayout(h: Header)
    ensures var b := EncodeHeader(h);
            && Field(b, 0) == Command(h) && Field(b, 4) == h.base.seqnum && Field(b, 8) == h.base.devid
            && Field(b, 0xC) == h.base.direction && Field(b, 0x10) == h.base.ep
            && (h.CmdSubmit? ==>
                  && Field(b, 0) == 1 && Field(b, 0x14) == h.flags && ToS32(Field(b, 0x18)) == h.length
                  && ToS32(Field(b, 0x1C)) == h.startFrame && ToS32(Field(b, 0x20)) == h.packets
                  && ToS32(Field(b, 0x24)) == h.interval && b[0x28..0x30] == h.setup)
            && (h.CmdUnlink? ==> Field(b, 0) == 2 && Field(b, 0x14) == h.target)
            && (h.RetSubmit? ==>
                  && Field(b, 0) == 3 && ToS32(Field(b, 0x14)) == h.status && ToS32(Field(b, 0x18)) == h.actual
                  && ToS32(Field(b, 0x1C)) == h.startFrame && ToS32(Field(b, 0x20)) == h.packets
                  && ToS32(Field(b, 0x24)) == h.errorCount)
            && (h.RetUnlink? ==> Field(b, 0) == 4 && ToS32(Field(b, 0x14)) == h.status)
  {
    FieldAt(h, 0); FieldAt(h, 1); FieldAt(h, 2); FieldAt(h, 3); FieldAt(h, 4);
    FieldAt(h, 5); FieldAt(h, 6); FieldAt(h, 7); FieldAt(h, 8); FieldAt(h, 9);
    TailAt(h);
  }

  lemma TailAt(h: Header)
    ensures EncodeHeader(h)[0x28..0x30] == Tail(h)
  {
    var b := EncodeHeader(h);
    assert b[40..] == Tail(h);
    assert b[0x28..0x30] == b[40..];
  }

  // ---------------------------------------------------------------------------------------------
  // Isochronous packet descriptors.
  // ---------------------------------------------------------------------------------------------

  predicate Encodable(p: Iso.Packet) {
    p.offset < 0x1_0000_0000 && p.length < 0x1_0000_0000 && p.actual < 0x1_0000_0000
    && -0x8000_0000 <= p.status < 0x8000_0000
  }

  type Desc = p: Iso.Packet | Encodable(p) witness Iso.Packet(0, 0, 0, 0)

  function EncodeDesc(p: Desc): (b: seq<Byte>)
    ensures |b| == DescSize
  {
    Words([p.offset, p.length, p.actual, ToU32(p.status)])
  }

  function DecodeDesc(b: seq<Byte>): Desc
    requires |b| == DescSize
  {
    var ws := Parse(b);
    Iso.Packet(ws[0], ws[1], ws[2], ToS32(ws[3]))
  }

  lemma DescRoundTrip(p: Desc)
    ensures DecodeDesc(EncodeDesc(p)) == p
  {
    WordsRoundTrip([p.offset, p.length, p.actual, ToU32(p.status)]);
  }

  /** In this order on the wire, which is not the order the driver assigns them in. */
  lemma DescLayout(p: Desc)
    ensures var b := EncodeDesc(p);
            Field(b, 0) == p.offset && Field(b, 4) == p.length && Field(b, 8) == p.actual && ToS32(Field(b, 12)) == p.status
  {
    var ws := [p.offset, p.length, p.actual, ToU32(p.status)];
    WordAt(ws, 0); WordAt(ws, 1); WordAt(ws, 2); WordAt(ws, 3);
    WordRoundTrip(ws[0]); WordRoundTrip(ws[1]); WordRoundTrip(ws[2]); WordRoundTrip(ws[3]);
  }

  function EncodeDescs(ps: seq<Desc>): (b: seq<Byte>)
    ensures |b| == DescSize * |ps|
  {
    if ps == [] then [] else EncodeDesc(ps[0]) + EncodeDescs(ps[1..])
  }

  function DecodeDescs(b: seq<Byte>, n: nat): (ps: seq<Desc>)
    requires |b| == DescSize * n
    ensures |ps| == n
  {
    if n == 0 then [] else [DecodeDesc(b[..DescSize])] + DecodeDescs(b[DescSize..], n - 1)
  }

  lemma {:induction false} DescsRoundTrip(ps: seq<Desc>)
    ensures DecodeDescs(EncodeDescs(ps), |ps|) == ps
  {
    if ps != [] {
      var b := EncodeDescs(ps);
      assert b[..DescSize] == EncodeDesc(ps[0]) && b[DescSize..] == EncodeDescs(ps[1..]);
      DescRoundTrip(ps[0]);
      DescsRoundTrip(ps[1..]);
    }
  }
}

/** PDUs on a raw byte stream: both ends must agree where one ends and the next begins. */
module Framing {
  import opened Lists
  import opened Bytes
  import opened Wire
  import Iso

  /** What one PDU carries: header, transfer buffer, descriptors. */
  datatype Message = Message(header: Header, payload: seq<Byte>, packets: seq<Desc>)

  function Encode(m: Message): (b: seq<Byte>)
    ensures |b| == HeaderSize + |m.payload| + DescSize * |m.packets|
  {
    EncodeHeader(m.header) + m.payload + EncodeDescs(m.packets)
  }

  /** What a header makes the receiver read after it, and the total its packets must come to. */
  datatype Shape = Shape(payload: nat, packets: nat, total: int)

  /** What the client remembers of an URB it sent. */
  datatype Expected = Expected(input: bool, isoc: bool, length: nat)

  /** A receiver: the server knows its endpoints, the client its pending URBs and unlinks. */
  datatype Side =
    | Server(isocEndpoint: (U32, bool) -> Option<bool>)
    | Client(pending: map<U32, Expected>, targets: map<U32, U32>)

  function Positive(n: int): nat { if n > 0 then n else 0 }

  /** usbip_recv_xbuff and usbip_recv_iso; None wherever they drop the connection. */
  function ShapeOf(side: Side, h: Header): Option<Shape> {
    match side
    case Server(isocEndpoint) => (
      match h
      case CmdSubmit(base, _, length, _, packets, _, _) =>
        var input := base.direction == DIR_IN;
        var isoc := isocEndpoint(base.ep, input);
        if isoc.None? || (isoc.value && packets < 0) then None
        else Some(Shape(if input then 0 else Positive(length), if isoc.value then packets else 0, 0))
      case CmdUnlink(_, _) => Some(Shape(0, 0, 0))
      case _ => None)
    case Client(pending, targets) => (
      match h
      case RetSubmit(base, _, actual, _, packets, _) =>
        if base.seqnum !in pending then None else
        var e := pending[base.seqnum];
        if (e.input && actual > e.length) || (e.isoc && packets < 0) then None
        else Some(Shape(if e.input then Positive(actual) else 0, if e.isoc then packets else 0, actual))
      case RetUnlink(_, _) => Some(Shape(0, 0, 0))
      case _ => None)
  }

  /** The client forgets an URB when its RET_SUBMIT comes, or the RET_UNLINK that names it. */
  function After(side: Side, h: Header): Side {
    match side
    case Server(_) => side
    case Client(pending, targets) => (
      match h
      case RetSubmit(base, _, _, _, _, _) => Client(pending - {base.seqnum}, targets)
      case RetUnlink(base, _) =>
        if base.seqnum in targets then Client(pending - {targets[base.seqnum]}, targets - {base.seqnum}) else side
      case _ => side)
  }

  function DecodeBody(h: Header, shape: Shape, s: seq<Byte>): Option<(Message, seq<Byte>)> {
    var n := shape.payload + DescSize * shape.packets;
    if |s| < n then None else
    var packets := DecodeDescs(s[shape.payload..n], shape.packets);
    if shape.packets > 0 && Iso.Sum(packets) != shape.total then None
    else Some((Message(h, s[..shape.payload], packets), s[n..]))
  }

  /** One PDU off the front of the stream, and what follows it. */
  function Decode(side: Side, s: seq<Byte>): (r: Option<(Message, seq<Byte>)>)
    ensures r.Some? ==> |r.value.1| < |s|
  {
    if |s| < HeaderSize then None else
    var h := DecodeHeader(s[..HeaderSize]);
    if h.None? then None else
    var shape := ShapeOf(side, h.value);
    if shape.None? then None else DecodeBody(h.value, shape.value, s[HeaderSize..])
  }

  /** The receive loop: all PDUs up to the end of the stream or the first one refused. */
  function DecodeAll(side: Side, s: seq<Byte>): (r: (seq<Message>, bool))
    decreases |s|
  {
    if s == [] then ([], true) else
    match Decode(side, s)
    case None => ([], false)
    case Some((m, rest)) =>
      var (more, clean) := DecodeAll(After(side, m.header), rest);
      ([m] + more, clean)
  }

  // ---------------------------------------------------------------------------------------------
  // A message of the shape its receiver expects is received as it was sent.
  // ---------------------------------------------------------------------------------------------

  /** The receiver reads just this much after the header. */
  predicate Sized(side: Side, m: Message) {
    var shape := ShapeOf(side, m.header);
    shape.Some? && shape.value.payload == |m.payload| && shape.value.packets == |m.packets|
  }

  predicate Totalled(shape: Shape, m: Message) { m.packets == [] || shape.total == Iso.Sum(m.packets) }

  predicate Expects(side: Side, m: Message) { Sized(side, m) && Totalled(ShapeOf(side, m.header).value, m) }

  lemma BodyRoundTrip(m: Message, shape: Shape, rest: seq<Byte>)
    requires shape.payload == |m.payload| && shape.packets == |m.packets|
    ensures DecodeBody(m.header, shape, m.payload + EncodeDescs(m.packets) + rest)
            == if Totalled(shape, m) then Some((m, rest)) else None
  {
    var s := m.payload + EncodeDescs(m.packets) + rest;
    var n := |m.payload| + DescSize * |m.packets|;
    assert s[..|m.payload|] == m.payload && s[|m.payload|..n] == EncodeDescs(m.packets) && s[n..] == rest;
    DescsRoundTrip(m.packets);
  }

  lemma MessageRoundTrip(side: Side, m: Message, rest: seq<Byte>)
    requires Sized(side, m)
    ensures Decode(side, Encode(m) + rest) == if Expects(side, m) then Some((m, rest)) else None
  {
    var s := Encode(m) + rest;
    assert s[..HeaderSize] == EncodeHeader(m.header);
    assert s[HeaderSize..] == m.payload + EncodeDescs(m.packets) + rest;
    HeaderRoundTrip(m.header);
    BodyRoundTrip(m, ShapeOf(side, m.header).value, rest);
  }

  // ---------------------------------------------------------------------------------------------
  // What the senders put on the wire.
  // ---------------------------------------------------------------------------------------------

  /** An URB as the client submits it. */
  datatype Request = Request(
    seqnum: U32, devid: U32, input: bool, ep: U32, isoc: bool,
    flags: U32, buffer: seq<Byte>, startFrame: S32, interval: S32, setup: Setup, number: S32, packets: seq<Desc>)

  predicate GoodRequest(q: Request) {
    |q.buffer| < 0x8000_0000 && (if q.isoc then |q.packets| == q.number else q.packets == [])
  }

  /** usbcore clears the packets' results on submission; the server's usbip_recv_iso relies on it. */
  predicate Cleared(q: Request) { q.packets == [] || Iso.Sum(q.packets) == 0 }

  /** tweak_transfer_flags: URB_NO_TRANSFER_DMA_MAP, 0x4, is cleared. */
  function Tweak(flags: U32): (r: U32)
    ensures r / 4 % 2 == 0 && r % 4 == flags % 4 && r / 8 == flags / 8
  {
    flags - 4 * (flags / 4 % 2)
  }

  /** vhci_send_cmd_submit. */
  function RequestMessage(q: Request): Message
    requires GoodRequest(q)
  {
    var base := Base(q.seqnum, q.devid, if q.input then DIR_IN else DIR_OUT, q.ep);
    Message(CmdSubmit(base, Tweak(q.flags), |q.buffer|, q.startFrame, q.number, q.interval, q.setup),
            if q.input then [] else q.buffer, q.packets)
  }

  /** A completed URB as a server returns it. */
  datatype Reply = Reply(
    seqnum: U32, input: bool, isoc: bool, status: S32, actual: S32, startFrame: S32, number: S32, errorCount: S32,
    buffer: seq<Byte>, packets: seq<Desc>)

  predicate GoodReply(p: Reply) {
    && 0 <= p.actual <= |p.buffer|
    && (if p.isoc then |p.packets| == p.number && Iso.Fits(p.packets, |p.buffer|) else p.packets == [])
  }

  /** stub_send_ret_submit and v_send_ret_submit; None is their check that the packets come to actual_length. */
  function ReplyMessage(p: Reply): (r: Option<Message>)
    requires GoodReply(p)
  {
    var payload :=
      if !p.input then [] else if p.isoc then Iso.Gather(p.buffer, p.packets) else p.buffer[..p.actual];
    if p.input && |payload| != p.actual then None else
    var header := RetSubmit(Base(p.seqnum, 0, 0, 0), p.status, p.actual, p.startFrame, p.number, p.errorCount);
    Some(Message(header, payload, p.packets))
  }

  datatype Sent =
    | SentSubmit(request: Request)
    | SentUnlink(seqnum: U32, devid: U32, target: U32)
    | SentReply(reply: Reply)
    | SentRetUnlink(seqnum: U32, status: S32)

  /** Both sides agree: on the endpoint's type, or on the pending URB the reply belongs to. */
  predicate Agreed(side: Side, x: Sent) {
    match x
    case SentSubmit(q) => side.Server? && GoodRequest(q) && Cleared(q) && side.isocEndpoint(q.ep, q.input) == Some(q.isoc)
    case SentUnlink(_, _, _) => side.Server?
    case SentReply(p) =>
      && side.Client? && GoodReply(p) && ReplyMessage(p).Some?
      && (!p.input && p.packets != [] ==> Iso.Sum(p.packets) == p.actual)
      && p.seqnum in side.pending
      && (var e := side.pending[p.seqnum];
          e.input == p.input && e.isoc == p.isoc && (p.input ==> p.actual <= e.length))
    case SentRetUnlink(_, _) => side.Client?
  }

  function MessageOf(side: Side, x: Sent): Message
    requires Agreed(side, x)
  {
    match x
    case SentSubmit(q) => RequestMessage(q)
    case SentUnlink(seqnum, devid, target) => Message(CmdUnlink(Base(seqnum, devid, 0, 0), target), [], [])
    case SentReply(p) => ReplyMessage(p).value
    case SentRetUnlink(seqnum, status) => Message(RetUnlink(Base(seqnum, 0, 0, 0), status), [], [])
  }

  lemma AgreedExpects(side: Side, x: Sent)
    requires Agreed(side, x)
    ensures Expects(side, MessageOf(side, x))
  {
  }

  predicate AllAgreed(side: Side, xs: seq<Sent>)
    decreases |xs|
  {
    xs == [] || (Agreed(side, xs[0]) && AllAgreed(After(side, MessageOf(side, xs[0]).header), xs[1..]))
  }

  function Messages(side: Side, xs: seq<Sent>): seq<Message>
    requires AllAgreed(side, xs)
    decreases |xs|
  {
    if xs == [] then [] else
    var m := MessageOf(side, xs[0]);
    [m] + Messages(After(side, m.header), xs[1..])
  }

  function EncodeAll(ms: seq<Message>): seq<Byte> {
    if ms == [] then [] else Encode(ms[0]) + EncodeAll(ms[1..])
  }

  lemma FirstOfStream(side: Side, m: Message, rest: seq<Byte>)
    requires Expects(side, m)
    ensures var (more, clean) := DecodeAll(After(side, m.header), rest);
            DecodeAll(side, Encode(m) + rest) == ([m] + more, clean)
  {
    MessageRoundTrip(side, m, rest);
  }

  /** In both directions, a whole stream of PDUs is taken apart just as it was put together. */
  lemma {:induction false} StreamRoundTrip(side: Side, xs: seq<Sent>)
    requires AllAgreed(side, xs)
    ensures DecodeAll(side, EncodeAll(Messages(side, xs))) == (Messages(side, xs), true)
    decreases |xs|
  {
    if xs != [] {
      var m := MessageOf(side, xs[0]);
      var next := After(side, m.header);
      var rest := EncodeAll(Messages(next, xs[1..]));
      assert Messages(side, xs)[1..] == Messages(next, xs[1..]);
      AgreedExpects(side, xs[0]);
      FirstOfStream(side, m, rest);
      StreamRoundTrip(next, xs[1..]);
    }
  }

  /** What the receiver expects after these messages. */
  function AfterAll(side: Side, xs: seq<Sent>): Side
    requires AllAgreed(side, xs)
    decreases |xs|
  {
    if xs == [] then side else AfterAll(After(side, MessageOf(side, xs[0]).header), xs[1..])
  }

  lemma Regrouped<T>(a: seq<T>, b: seq<T>, c: seq<T>)
    ensures (a + b) + c == a + (b + c)
  {
  }

  /** Whatever follows, the receiver first learns all that was sent. */
  lemma {:induction false} StreamGoesOn(side: Side, xs: seq<Sent>, more: seq<Byte>)
    requires AllAgreed(side, xs)
    ensures var (ms, clean) := DecodeAll(AfterAll(side, xs), more);
            DecodeAll(side, EncodeAll(Messages(side, xs)) + more) == (Messages(side, xs) + ms, clean)
    decreases |xs|
  {
    var ms := DecodeAll(AfterAll(side, xs), more).0;
    if xs == [] {
      assert [] + more == more && [] + ms == ms;
    } else {
      var m := MessageOf(side, xs[0]);
      var next := After(side, m.header);
      var rest := EncodeAll(Messages(next, xs[1..]));
      assert Messages(side, xs)[1..] == Messages(next, xs[1..]);
      AgreedExpects(side, xs[0]);
      FirstOfStream(side, m, rest + more);
      Regrouped(Encode(m), rest, more);
      StreamGoesOn(next, xs[1..], more);
      Regrouped([m], Messages(next, xs[1..]), ms);
    }
  }

  /** A PDU that is refused ends the connection, and the loop does not end as if the stream had. */
  lemma StreamRefused(side: Side, xs: seq<Sent>, bad: seq<Byte>)
    requires AllAgreed(side, xs) && bad != [] && Decode(AfterAll(side, xs), bad).None?
    ensures DecodeAll(side, EncodeAll(Messages(side, xs)) + bad) == (Messages(side, xs), false)
  {
    StreamGoesOn(side, xs, bad);
    assert Messages(side, xs) + [] == Messages(side, xs);
  }

  // ---------------------------------------------------------------------------------------------
  // Every field comes back.
  // ---------------------------------------------------------------------------------------------

  /** The server's URB: usbip_pack_pdu, and a zeroed buffer where nothing was sent. */
  function Unpack(m: Message, isoc: bool): Request
    requires m.header.CmdSubmit?
  {
    var h := m.header;
    var input := h.base.direction == DIR_IN;
    Request(h.base.seqnum, h.base.devid, input, h.base.ep, isoc, h.flags,
            if input then seq(Positive(h.length), _ => 0) else m.payload,
            h.startFrame, h.interval, h.setup, h.packets, m.packets)
  }

  /** All of the request, but the flag that only means something on the client's machine and the contents of an input buffer. */
  lemma RequestRecovered(side: Side, q: Request, rest: seq<Byte>)
    requires Agreed(side, SentSubmit(q))
    ensures var r := Decode(side, Encode(RequestMessage(q)) + rest);
            && r.Some? && r.value.1 == rest && r.value.0.header.CmdSubmit?
            && Unpack(r.value.0, q.isoc) ==
               q.(flags := Tweak(q.flags), buffer := if q.input then seq(|q.buffer|, _ => 0) else q.buffer)
  {
    AgreedExpects(side, SentSubmit(q));
    MessageRoundTrip(side, RequestMessage(q), rest);
    assert q.packets == RequestMessage(q).packets;
  }

  /** The server takes an isochronous request exactly when its packets' results are cleared. */
  lemma RequestAcceptedIff(side: Side, q: Request, rest: seq<Byte>)
    requires side.Server? && GoodRequest(q) && side.isocEndpoint(q.ep, q.input) == Some(q.isoc)
    ensures Decode(side, Encode(RequestMessage(q)) + rest).Some? <==> Cleared(q)
  {
    MessageRoundTrip(side, RequestMessage(q), rest);
  }

  /** The bytes a reply brings: all that was read, or each packet without the padding around it. */
  ghost predicate Brings(p: Reply, payload: seq<Byte>)
    requires GoodReply(p)
  {
    && |payload| == (if p.input then p.actual else 0)
    && (p.input && !p.isoc ==> payload == p.buffer[..p.actual])
    && (p.input && p.isoc ==> Iso.Sum(p.packets) == p.actual)
    && (p.input && p.isoc ==>
          forall k :: 0 <= k < |p.packets| ==> Iso.Piece(payload, p.packets, k) == Iso.Slice(p.buffer, p.packets[k]))
  }

  /** A reply is sent unless it is an isochronous input whose packets do not come to its actual_length. */
  lemma ReplySentExactly(p: Reply)
    requires GoodReply(p)
    ensures ReplyMessage(p).Some? <==> !(p.input && p.isoc && Iso.Sum(p.packets) != p.actual)
  {
  }

  lemma ReplyBrings(p: Reply)
    requires GoodReply(p) && ReplyMessage(p).Some?
    ensures Brings(p, ReplyMessage(p).value.payload)
  {
    if p.input && p.isoc {
      forall k | 0 <= k < |p.packets|
        ensures Iso.Piece(Iso.Gather(p.buffer, p.packets), p.packets, k) == Iso.Slice(p.buffer, p.packets[k])
      {
        Iso.GatherPiece(p.buffer, p.packets, k);
      }
    }
  }

  /** What a receiver learns from a PDU is what its sender meant. */
  ghost predicate Conveys(x: Sent, m: Message) {
    match x
    case SentSubmit(q) =>
      && m.header.CmdSubmit?
      && Unpack(m, q.isoc) ==
         q.(flags := Tweak(q.flags), buffer := if q.input then seq(|q.buffer|, _ => 0) else q.buffer)
    case SentUnlink(seqnum, devid, target) => m == Message(CmdUnlink(Base(seqnum, devid, 0, 0), target), [], [])
    case SentReply(p) =>
      && m.header == RetSubmit(Base(p.seqnum, 0, 0, 0), p.status, p.actual, p.startFrame, p.number, p.errorCount)
      && m.packets == p.packets && GoodReply(p) && Brings(p, m.payload)
    case SentRetUnlink(seqnum, status) => m == Message(RetUnlink(Base(seqnum, 0, 0, 0), status), [], [])
  }

  lemma SentConveys(side: Side, x: Sent)
    requires Agreed(side, x)
    ensures Conveys(x, MessageOf(side, x))
  {
    match x
    case SentSubmit(q) => assert q.packets == RequestMessage(q).packets;
    case SentReply(p) => ReplyBrings(p);
    case _ =>
  }

  /** One PDU of any kind: everything in it arrives, and the rest of the stream is left. */
  lemma SentRecovered(side: Side, x: Sent, rest: seq<Byte>)
    requires Agreed(side, x)
    ensures var r := Decode(side, Encode(MessageOf(side, x)) + rest);
            r.Some? && r.value.1 == rest && Conveys(x, r.value.0)
  {
    AgreedExpects(side, x);
    MessageRoundTrip(side, MessageOf(side, x), rest);
    SentConveys(side, x);
  }

  /** Every reply, input or output, isochronous or not: all header fields, the descriptors and the bytes. */
  lemma ReplyRecovered(side: Side, p: Reply, rest: seq<Byte>)
    requires Agreed(side, SentReply(p))
    ensures var r := Decode(side, Encode(ReplyMessage(p).value) + rest);
            && r.Some? && r.value.1 == rest
            && r.value.0.header == RetSubmit(Base(p.seqnum, 0, 0, 0), p.status, p.actual, p.startFrame, p.number, p.errorCount)
            && r.value.0.packets == p.packets && Brings(p, r.value.0.payload)
  {
    SentRecovered(side, SentReply(p), rest);
  }

  ghost predicate AllConvey(xs: seq<Sent>, ms: seq<Message>) {
    |ms| == |xs| && forall k :: 0 <= k < |xs| ==> Conveys(xs[k], ms[k])
  }

  lemma {:induction false} MessagesConvey(side: Side, xs: seq<Sent>)
    requires AllAgreed(side, xs)
    ensures AllConvey(xs, Messages(side, xs))
    decreases |xs|
  {
    if xs != [] {
      var m := MessageOf(side, xs[0]);
      MessagesConvey(After(side, m.header), xs[1..]);
      SentConveys(side, xs[0]);
    }
  }

  /** In both directions the receive loop learns, PDU by PDU, what was sent, and ends with the stream. */
  lemma StreamConveys(side: Side, xs: seq<Sent>)
    requires AllAgreed(side, xs)
    ensures var (ms, clean) := DecodeAll(side, EncodeAll(Messages(side, xs))); clean && AllConvey(xs, ms)
  {
    StreamRoundTrip(side, xs);
    MessagesConvey(side, xs);
  }

  /**
   Isochronous input from end to end: gathered by the server, framed, read back, checked and padded,
   every packet stands in the client's buffer where it stood in the server's.
   */
  lemma PacketsRecovered(side: Side, p: Reply, rest: seq<Byte>, cbuf: seq<Byte>, k: nat)
    requires Agreed(side, SentReply(p)) && p.input && p.isoc && k < |p.packets|
    requires Iso.Ordered(p.packets) && Iso.FirstInPlace(p.packets) && Iso.Fits(p.packets, |cbuf|)
    ensures var r := Decode(side, Encode(ReplyMessage(p).value) + rest);
            && r.Some? && r.value.1 == rest && r.value.0.packets == p.packets
            && |r.value.0.payload| == p.actual
            && (var c := Iso.ClientReceive(cbuf, r.value.0.payload, p.actual, r.value.0.packets);
                c.Some? && |c.value| == |cbuf| && Iso.Slice(c.value, p.packets[k]) == Iso.Slice(p.buffer, p.packets[k]))
  {
    AgreedExpects(side, SentReply(p));
    MessageRoundTrip(side, ReplyMessage(p).value, rest);
    Iso.RoundTrip(p.buffer, cbuf, p.packets, k);
  }

  // ---------------------------------------------------------------------------------------------
  // What is refused.
  // ---------------------------------------------------------------------------------------------

  lemma DecodeSplit(side: Side, h: Header, body: seq<Byte>)
    ensures Decode(side, EncodeHeader(h) + body) ==
            if ShapeOf(side, h).None? then None else DecodeBody(h, ShapeOf(side, h).value, body)
  {
    var s := EncodeHeader(h) + body;
    assert s[..HeaderSize] == EncodeHeader(h) && s[HeaderSize..] == body;
    HeaderRoundTrip(h);
  }

  /** The stream ends too early, or n descriptors after size bytes do not come to this total. */
  predicate BadBody(body: seq<Byte>, size: nat, n: nat, total: int) {
    |body| < size + DescSize * n
    || (n > 0 && Iso.Sum(DecodeDescs(body[size..size + DescSize * n], n)) != total)
  }

  /**
   The client drops the connection over a RET_SUBMIT exactly if nothing with its number is pending, it brings
   more than the URB's buffer holds, counts its packets below zero, or its body is bad.
   */
  lemma ReplyRefusedExactly(side: Side, h: Header, body: seq<Byte>)
    requires side.Client? && h.RetSubmit?
    ensures Decode(side, EncodeHeader(h) + body).None? <==>
              || h.base.seqnum !in side.pending
              || (var e := side.pending[h.base.seqnum];
                  || (e.input && h.actual > e.length) || (e.isoc && h.packets < 0)
                  || BadBody(body, if e.input && h.actual > 0 then h.actual else 0, if e.isoc then h.packets else 0, h.actual))
  {
    DecodeSplit(side, h, body);
  }

  /** The server: an endpoint it does not have, a negative number of packets, or a bad body. */
  lemma RequestRefusedExactly(side: Side, h: Header, body: seq<Byte>)
    requires side.Server? && h.CmdSubmit?
    ensures var isoc := side.isocEndpoint(h.base.ep, h.base.direction == DIR_IN);
            Decode(side, EncodeHeader(h) + body).None? <==>
              || isoc.None? || (isoc.value && h.packets < 0)
              || BadBody(body, if h.base.direction != DIR_IN && h.length > 0 then h.length else 0,
                         if isoc.value then h.packets else 0, 0)
  {
    DecodeSplit(side, h, body);
  }

  /** Either side refuses what only the other may receive, and takes every unlink PDU. */
  lemma OtherHeaders(side: Side, h: Header, body: seq<Byte>)
    requires !h.CmdSubmit? && !h.RetSubmit?
    ensures Decode(side, EncodeHeader(h) + body) ==
            if h.CmdUnlink? == side.Server? then Some((Message(h, [], []), body)) else None
  {
    DecodeSplit(side, h, body);
  }

  lemma WrongSide(side: Side, h: Header, body: seq<Byte>)
    requires if side.Server? then h.RetSubmit? else h.CmdSubmit?
    ensures Decode(side, EncodeHeader(h) + body).None?
  {
    DecodeSplit(side, h, body);
  }

  /** The client forgets an URB with its RET_SUBMIT, or with the RET_UNLINK of its unlink, and so takes no second one. */
  lemma ForgetsExactly(side: Side, h: Header, n: U32)
    requires side.Client? && n in side.pending
    ensures var next := After(side, h);
            && next.Client? && (n in next.pending ==> next.pending[n] == side.pending[n])
            && (n !in next.pending <==>
                  || (h.RetSubmit? && h.base.seqnum == n)
                  || (h.RetUnlink? && h.base.seqnum in side.targets && side.targets[h.base.seqnum] == n))
  {
  }

  /** And an unlink with the RET_UNLINK that has its number. */
  lemma ForgetsUnlinks(side: Side, h: Header, u: U32)
    requires side.Client? && u in side.targets
    ensures var next := After(side, h);
            && next.Client? && (u in next.targets ==> next.targets[u] == side.targets[u])
            && (u !in next.targets <==> h.RetUnlink? && h.base.seqnum == u)
  {
  }
}
