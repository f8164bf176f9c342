/** The copy loop of transfer(): one URB against the requests queued on its endpoint. */
module Transfer {
  import opened Errno
  import opened Bytes

  /** struct usb_request. */
  datatype Req = Req(buf: seq<Byte>, actual: nat, zero: bool, status: int)

  /** A request on req_queue. */
  type Queued = r: Req | r.actual <= |r.buf| && r.status == EINPROGRESS
    witness Req([], 0, false, EINPROGRESS)

  /**
   The gadget's completion callback.  It may do anything to the queue, and something else at every
   call: it is told how many calls went before.
   */
  type Handler = (nat, seq<Queued>, Req) -> seq<Queued>

  datatype Config = Config(maxpacket: nat, toHost: bool, zeroPacket: bool, giveback: Handler)

  predicate Usable(cfg: Config) { cfg.maxpacket > 0 }

  /** The URB and the endpoint's queue. */
  datatype State = State(buf: seq<Byte>, actual: nat, status: int, queue: seq<Queued>, calls: nat)

  predicate Valid(s: State) { s.actual <= |s.buf| }

  predicate Ready(s: State) { Valid(s) && s.queue != [] }

  predicate Open(s: State) { Ready(s) && s.status == EINPROGRESS }

  function HostLen(s: State): nat
    requires Valid(s)
  {
    |s.buf| - s.actual
  }

  function DevLen(r: Queued): nat { |r.buf| - r.actual }

  /** How much one iteration copies: whole packets first, then the remainder. */
  function BulkLen(mp: nat, host: nat, dev: nat): (n: nat)
    requires mp > 0
    ensures n <= Min(host, dev) && (n < mp ==> n == Min(host, dev))
  {
    var len := Min(host, dev);
    if len < mp then len else
    BulkIsWhole(len, mp);
    len - len % mp
  }

  function ReqStatus(cfg: Config, host: nat, dev: nat, len: nat, zero: bool): int {
    if len < cfg.maxpacket then
      if !cfg.toHost && host > dev then EOVERFLOW else OK
    else if len == dev && !(zero && cfg.toHost) then OK
    else EINPROGRESS
  }

  function UrbStatus(cfg: Config, was: int, host: nat, dev: nat, len: nat): int {
    if len < cfg.maxpacket then
      if cfg.toHost && dev > host then EOVERFLOW else OK
    else if len == host && !(cfg.zeroPacket && !cfg.toHost) then OK
    else was
  }

  /** The head request after len bytes moved. */
  function HeadAfter(cfg: Config, s: State, len: nat): (r: Req)
    requires Ready(s) && len <= Min(HostLen(s), DevLen(s.queue[0]))
    ensures r.actual == s.queue[0].actual + len <= |r.buf| && |r.buf| == |s.queue[0].buf|
  {
    var r := s.queue[0];
    Req(ReqBuf(cfg, s, len), r.actual + len, r.zero, ReqStatus(cfg, HostLen(s), DevLen(r), len, r.zero))
  }

  function ReqBuf(cfg: Config, s: State, len: nat): (b: seq<Byte>)
    requires Ready(s) && len <= Min(HostLen(s), DevLen(s.queue[0]))
    ensures |b| == |s.queue[0].buf|
  {
    var r := s.queue[0];
    if cfg.toHost then r.buf else Copied(s.buf, s.actual, r.buf, r.actual, len)
  }

  function BufAfter(cfg: Config, s: State, len: nat): (b: seq<Byte>)
    requires Ready(s) && len <= Min(HostLen(s), DevLen(s.queue[0]))
    ensures |b| == |s.buf|
  {
    var r := s.queue[0];
    if cfg.toHost then Copied(r.buf, r.actual, s.buf, s.actual, len) else s.buf
  }

  /** One turn of the loop, copying len bytes. */
  function Turn(cfg: Config, s: State, len: nat): (z: State)
    requires Usable(cfg) && Ready(s) && len <= Min(HostLen(s), DevLen(s.queue[0]))
    ensures Valid(z) && z.actual == s.actual + len && |z.buf| == |s.buf|
    ensures z.status == EINPROGRESS ==> len >= cfg.maxpacket
  {
    var after := HeadAfter(cfg, s, len);
    var buf := BufAfter(cfg, s, len);
    var status := UrbStatus(cfg, s.status, HostLen(s), DevLen(s.queue[0]), len);
    if after.status == EINPROGRESS then State(buf, s.actual + len, status, [after] + s.queue[1..], s.calls)
    else State(buf, s.actual + len, status, cfg.giveback(s.calls, s.queue[1..], after), s.calls + 1)
  }

  function Bulk(cfg: Config, s: State): nat
    requires Usable(cfg) && Ready(s)
  {
    BulkLen(cfg.maxpacket, HostLen(s), DevLen(s.queue[0]))
  }

  /** What transfer() leaves behind, as it works: many packets at a time. */
  function Finish(cfg: Config, s: State): (z: State)
    requires Usable(cfg) && Valid(s)
    ensures Valid(z) && |z.buf| == |s.buf| && s.actual <= z.actual
    ensures z.status != EINPROGRESS || z.queue == []
    decreases |s.buf| - s.actual, if s.status == EINPROGRESS then 1 else 0
  {
    if !Open(s) then s else Finish(cfg, Turn(cfg, s, Bulk(cfg, s)))
  }

  // ---------------------------------------------------------------------------------------------
  // The bus: one packet at a time (section 5.8.3 of the USB 2.0 specification).
  // ---------------------------------------------------------------------------------------------

  function PacketLen(cfg: Config, s: State): nat
    requires Ready(s)
  {
    Min(cfg.maxpacket, Min(HostLen(s), DevLen(s.queue[0])))
  }

  function PacketFinish(cfg: Config, s: State): (z: State)
    requires Usable(cfg) && Valid(s)
    decreases |s.buf| - s.actual, if s.status == EINPROGRESS then 1 else 0
  {
    if !Open(s) then s else PacketFinish(cfg, Turn(cfg, s, PacketLen(cfg, s)))
  }

  /** A packet on the bus: its bytes, and its request before and after it. */
  datatype Packet = Packet(data: seq<Byte>, before: Queued, after: Req)

  function PacketOf(cfg: Config, s: State): Packet
    requires Ready(s)
  {
    var len := PacketLen(cfg, s);
    Packet(Moved(cfg, s, len), s.queue[0], HeadAfter(cfg, s, len))
  }

  function Trace(cfg: Config, s: State): seq<Packet>
    requires Usable(cfg) && Valid(s)
    decreases |s.buf| - s.actual, if s.status == EINPROGRESS then 1 else 0
  {
    if !Open(s) then [] else [PacketOf(cfg, s)] + Trace(cfg, Turn(cfg, s, PacketLen(cfg, s)))
  }

  function Data(trace: seq<Packet>): seq<Byte> {
    if trace == [] then [] else trace[0].data + Data(trace[1..])
  }

  function Growth(trace: seq<Packet>): int {
    if trace == [] then 0 else trace[0].after.actual - trace[0].before.actual + Growth(trace[1..])
  }

  // ---------------------------------------------------------------------------------------------
  // Whole packets first, then the rest: the same as one packet at a time.
  // ---------------------------------------------------------------------------------------------

  /** A full packet that exhausts neither side leaves both in progress. */
  lemma InnerPacket(cfg: Config, s: State)
    requires Usable(cfg) && Open(s) && cfg.maxpacket < HostLen(s) && cfg.maxpacket < DevLen(s.queue[0])
    ensures var z := Turn(cfg, s, cfg.maxpacket);
            Open(z) && z.calls == s.calls && z.queue == [HeadAfter(cfg, s, cfg.maxpacket)] + s.queue[1..]
  {
  }

  /** On the buffers, copying m bytes and then n more is copying m + n. */
  lemma CopyTwice(cfg: Config, s: State, z: State, m: nat, n: nat)
    requires Open(s) && m + n <= Min(HostLen(s), DevLen(s.queue[0])) && Open(z)
    requires z.actual == s.actual + m && z.buf == BufAfter(cfg, s, m)
    requires z.queue[0].actual == s.queue[0].actual + m && z.queue[0].buf == ReqBuf(cfg, s, m)
    ensures BufAfter(cfg, z, n) == BufAfter(cfg, s, m + n) && ReqBuf(cfg, z, n) == ReqBuf(cfg, s, m + n)
  {
    var r := s.queue[0];
    if cfg.toHost {
      CopiedTwice(r.buf, r.actual, s.buf, s.actual, m, n);
    } else {
      CopiedTwice(s.buf, s.actual, r.buf, r.actual, m, n);
    }
  }

  lemma HeadTwice(cfg: Config, s: State, z: State, m: nat, n: nat)
    requires Open(s) && m + n <= Min(HostLen(s), DevLen(s.queue[0])) && Open(z) && n >= cfg.maxpacket
    requires z.actual == s.actual + m && |z.buf| == |s.buf| && z.queue[0] == HeadAfter(cfg, s, m)
    requires ReqBuf(cfg, z, n) == ReqBuf(cfg, s, m + n)
    ensures HeadAfter(cfg, z, n) == HeadAfter(cfg, s, m + n)
    ensures UrbStatus(cfg, z.status, HostLen(z), DevLen(z.queue[0]), n)
            == UrbStatus(cfg, s.status, HostLen(s), DevLen(s.queue[0]), m + n)
  {
  }

  lemma TurnTwice(cfg: Config, s: State, n: nat)
    requires Usable(cfg) && Open(s) && n >= cfg.maxpacket
    requires cfg.maxpacket + n <= Min(HostLen(s), DevLen(s.queue[0]))
    ensures Open(Turn(cfg, s, cfg.maxpacket))
    ensures var z := Turn(cfg, s, cfg.maxpacket);
            n <= Min(HostLen(z), DevLen(z.queue[0])) && Turn(cfg, z, n) == Turn(cfg, s, cfg.maxpacket + n)
  {
    var m := cfg.maxpacket;
    InnerPacket(cfg, s);
    var z := Turn(cfg, s, m);
    CopyTwice(cfg, s, z, m, n);
    HeadTwice(cfg, s, z, m, n);
    assert z.queue[1..] == s.queue[1..];
  }

  /** n is one or more whole packets. */
  predicate Whole(n: nat, mp: nat)
    requires mp > 0
  {
    n == mp || (n > mp && Whole(n - mp, mp))
  }

  lemma Remainder(a: nat, m: nat, q: int, r: nat)
    requires r < m && a == q * m + r
    ensures a % m == r
  {
    var d := a / m - q;
    assert d * m == r - a % m;
    Scaled(d, m);
  }

  lemma Scaled(d: int, m: nat)
    ensures (d >= 1 ==> d * m >= m) && (d <= -1 ==> d * m + m <= 0)
  {
  }

  lemma {:induction false} BulkIsWhole(len: nat, mp: nat)
    requires 0 < mp <= len
    ensures mp <= len - len % mp && Whole(len - len % mp, mp)
  {
    if len < 2 * mp {
      Remainder(len, mp, 1, len - mp);
    } else {
      Remainder(len - mp, mp, len / mp - 1, len % mp);
      BulkIsWhole(len - mp, mp);
    }
  }

  lemma FullPacket(cfg: Config, s: State)
    requires Usable(cfg) && Open(s) && cfg.maxpacket <= Min(HostLen(s), DevLen(s.queue[0]))
    ensures PacketFinish(cfg, s) == PacketFinish(cfg, Turn(cfg, s, cfg.maxpacket))
  {
  }

  /** f does not change under one full packet from s. */
  predicate Skips(cfg: Config, f: State -> State, s: State)
    requires Usable(cfg)
  {
    Open(s) && cfg.maxpacket <= Min(HostLen(s), DevLen(s.queue[0])) ==> f(s) == f(Turn(cfg, s, cfg.maxpacket))
  }

  /** Then it does not change under any number of them taken at once. */
  lemma {:induction false} SkipsWhole(cfg: Config, f: State -> State, s: State, n: nat)
    requires Usable(cfg) && Open(s) && n <= Min(HostLen(s), DevLen(s.queue[0])) && Whole(n, cfg.maxpacket)
    requires forall y :: Skips(cfg, f, y)
    ensures f(s) == f(Turn(cfg, s, n))
    decreases n
  {
    assert Skips(cfg, f, s);
    if n > cfg.maxpacket {
      TurnTwice(cfg, s, n - cfg.maxpacket);
      SkipsWhole(cfg, f, Turn(cfg, s, cfg.maxpacket), n - cfg.maxpacket);
    }
  }

  lemma PacketsReachBulk(cfg: Config, s: State)
    requires Usable(cfg) && Open(s)
    ensures PacketFinish(cfg, s) == PacketFinish(cfg, Turn(cfg, s, Bulk(cfg, s)))
  {
    var len := Min(HostLen(s), DevLen(s.queue[0]));
    if len >= cfg.maxpacket {
      var f := (y: State) => if Valid(y) then PacketFinish(cfg, y) else y;
      forall y ensures Skips(cfg, f, y) {
        if Open(y) && cfg.maxpacket <= Min(HostLen(y), DevLen(y.queue[0])) {
          FullPacket(cfg, y);
        }
      }
      BulkIsWhole(len, cfg.maxpacket);
      SkipsWhole(cfg, f, s, Bulk(cfg, s));
    }
  }

  /** transfer() is the packet-by-packet transfer, whatever the callback does. */
  lemma {:induction false} FinishIsPackets(cfg: Config, s: State)
    requires Usable(cfg) && Valid(s)
    ensures Finish(cfg, s) == PacketFinish(cfg, s)
    decreases |s.buf| - s.actual, if s.status == EINPROGRESS then 1 else 0
  {
    if Open(s) {
      FinishIsPackets(cfg, Turn(cfg, s, Bulk(cfg, s)));
      PacketsReachBulk(cfg, s);
    }
  }

  // ---------------------------------------------------------------------------------------------
  // Conservation, and the short-packet rule.
  // ---------------------------------------------------------------------------------------------

  /** Where a packet's bytes come from and go to, on the request's side. */
  ghost predicate Copies(toHost: bool, p: Packet) {
    && p.before.actual + |p.data| == p.after.actual <= |p.after.buf| && |p.after.buf| == |p.before.buf|
    && (if toHost then p.data == p.before.buf[p.before.actual..p.after.actual] && p.after.buf == p.before.buf
        else p.after.buf == Splice(p.before.buf, p.before.actual, p.data))
  }

  ghost predicate AllCopy(toHost: bool, trace: seq<Packet>) {
    forall i :: 0 <= i < |trace| ==> Copies(toHost, trace[i])
  }

  lemma PrependData(p: Packet, trace: seq<Packet>)
    ensures Data([p] + trace) == p.data + Data(trace)
    ensures Growth([p] + trace) == p.after.actual - p.before.actual + Growth(trace)
  {
    assert ([p] + trace)[1..] == trace;
  }

  /** Both sides of the account: the URB's buffer and the packets. */
  ghost predicate Accounts(toHost: bool, s: State, z: State, moved: seq<Byte>) {
    && s.actual + |moved| == z.actual <= |s.buf|
    && (toHost ==> z.buf == Splice(s.buf, s.actual, moved))
    && (!toHost ==> z.buf == s.buf && moved == s.buf[s.actual..z.actual])
  }

  /** The bytes of one turn. */
  function Moved(cfg: Config, s: State, len: nat): seq<Byte>
    requires Ready(s) && len <= Min(HostLen(s), DevLen(s.queue[0]))
  {
    var r := s.queue[0];
    if cfg.toHost then r.buf[r.actual..r.actual + len] else s.buf[s.actual..s.actual + len]
  }

  /** One turn, of any length and from any status, keeps the account. */
  lemma TurnAccounts(cfg: Config, s: State, len: nat)
    requires Usable(cfg) && Ready(s) && len <= Min(HostLen(s), DevLen(s.queue[0]))
    ensures Copies(cfg.toHost, Packet(Moved(cfg, s, len), s.queue[0], HeadAfter(cfg, s, len)))
    ensures Accounts(cfg.toHost, s, Turn(cfg, s, len), Moved(cfg, s, len))
  {
  }

  lemma AccountsAdd(toHost: bool, s: State, y: State, z: State, a: seq<Byte>, b: seq<Byte>)
    requires Accounts(toHost, s, y, a) && Accounts(toHost, y, z, b) && |y.buf| == |s.buf|
    ensures Accounts(toHost, s, z, a + b)
  {
    if toHost {
      SpliceTwice(s.buf, s.actual, a, b);
    } else {
      SliceTwice(s.buf, s.actual, |a|, |b|);
    }
  }

  lemma PrependCopies(toHost: bool, p: Packet, trace: seq<Packet>)
    requires Copies(toHost, p) && AllCopy(toHost, trace)
    ensures AllCopy(toHost, [p] + trace)
  {
  }

  /**
   The bytes moved are the packets' bytes in order; as many leave one side as reach the other, and
   neither side exceeds its buffer.
   */
  lemma {:induction false} BytesConserved(cfg: Config, s: State)
    requires Usable(cfg) && Valid(s)
    ensures var t := Trace(cfg, s);
            AllCopy(cfg.toHost, t) && Growth(t) == |Data(t)| && Accounts(cfg.toHost, s, PacketFinish(cfg, s), Data(t))
    decreases |s.buf| - s.actual, if s.status == EINPROGRESS then 1 else 0
  {
    if Open(s) {
      var next := Turn(cfg, s, PacketLen(cfg, s));
      var p, rest := PacketOf(cfg, s), Trace(cfg, next);
      BytesConserved(cfg, next);
      TurnAccounts(cfg, s, PacketLen(cfg, s));
      PrependData(p, rest);
      PrependCopies(cfg.toHost, p, rest);
      AccountsAdd(cfg.toHost, s, next, PacketFinish(cfg, next), p.data, Data(rest));
    }
  }

  ghost predicate FullButLast(mp: nat, t: seq<Packet>) {
    && (forall i :: 0 <= i < |t| ==> |t[i].data| <= mp)
    && (forall i :: 0 <= i < |t| - 1 ==> |t[i].data| == mp)
  }

  lemma PrependFull(mp: nat, p: Packet, t: seq<Packet>)
    requires FullButLast(mp, t) && |p.data| <= mp && (t != [] ==> |p.data| == mp)
    ensures FullButLast(mp, [p] + t)
  {
  }

  lemma ShortEnds(cfg: Config, s: State)
    requires Usable(cfg) && Open(s)
    ensures |PacketOf(cfg, s).data| == PacketLen(cfg, s)
    ensures PacketLen(cfg, s) < cfg.maxpacket ==> !Open(Turn(cfg, s, PacketLen(cfg, s)))
    ensures PacketLen(cfg, s) < cfg.maxpacket ==> Turn(cfg, s, PacketLen(cfg, s)).status != EINPROGRESS
  {
  }

  /** Every packet but the last is full, and a short one ends the URB. */
  lemma {:induction false} OnlyTheLastIsShort(cfg: Config, s: State)
    requires Usable(cfg) && Valid(s)
    ensures var t := Trace(cfg, s);
            && FullButLast(cfg.maxpacket, t)
            && (t != [] && |t[|t| - 1].data| < cfg.maxpacket ==> PacketFinish(cfg, s).status != EINPROGRESS)
    decreases |s.buf| - s.actual, if s.status == EINPROGRESS then 1 else 0
  {
    if Open(s) {
      var next := Turn(cfg, s, PacketLen(cfg, s));
      OnlyTheLastIsShort(cfg, next);
      ShortEnds(cfg, s);
      PrependFull(cfg.maxpacket, PacketOf(cfg, s), Trace(cfg, next));
    }
  }

  /** A request that is not given back stays at the head: the next packet continues where it stands. */
  lemma {:induction false} HeadContinues(cfg: Config, s: State)
    requires Usable(cfg) && Valid(s)
    ensures var t := Trace(cfg, s);
            && (t != [] ==> s.queue != [] && t[0].before == s.queue[0])
            && (forall i :: 0 <= i < |t| - 1 && t[i].after.status == EINPROGRESS ==> t[i + 1].before == t[i].after)
    decreases |s.buf| - s.actual, if s.status == EINPROGRESS then 1 else 0
  {
    if Open(s) {
      HeadContinues(cfg, Turn(cfg, s, PacketLen(cfg, s)));
    }
  }

  predicate Short(cfg: Config, p: Packet) { |p.data| < cfg.maxpacket }

  /** Bytes of the packet's request are left. */
  predicate Cut(p: Packet) { p.after.actual < |p.after.buf| }

  /**
   How it ends, exactly.  A short packet ends the URB: with -EOVERFLOW if it is an input and bytes of the
   request are left, else with 0.  A full one ends it, with 0, if it fills the buffer, unless the URB is an
   output that asks for a zero-length packet.  Otherwise it stays in progress, and no request is left.
   */
  lemma {:induction false} HowItEnds(cfg: Config, s: State)
    requires Usable(cfg) && Valid(s) && s.status == EINPROGRESS
    ensures var z := PacketFinish(cfg, s); var t := Trace(cfg, s);
            && (z.status == EINPROGRESS || z.status == OK || z.status == EOVERFLOW)
            && (z.status == EINPROGRESS ==> z.queue == [])
            && (z.status == EOVERFLOW <==> t != [] && Short(cfg, t[|t| - 1]) && cfg.toHost && Cut(t[|t| - 1]))
            && (z.status == OK <==>
                  t != [] && if Short(cfg, t[|t| - 1]) then !(cfg.toHost && Cut(t[|t| - 1]))
                             else z.actual == |z.buf| && !(cfg.zeroPacket && !cfg.toHost))
    decreases |s.buf| - s.actual
  {
    if Open(s) {
      var next := Turn(cfg, s, PacketLen(cfg, s));
      ShortEnds(cfg, s);
      if next.status == EINPROGRESS {
        HowItEnds(cfg, next);
        LastOfTrace(cfg, s, next);
      } else {
        assert Trace(cfg, s) == [PacketOf(cfg, s)];
      }
    }
  }

  /** With no packet after it, the URB stays as this one left it. */
  lemma LastOfTrace(cfg: Config, s: State, next: State)
    requires Usable(cfg) && Open(s) && next == Turn(cfg, s, PacketLen(cfg, s)) && next.status == EINPROGRESS
    ensures var t, u := Trace(cfg, s), Trace(cfg, next);
            && t == [PacketOf(cfg, s)] + u && (u != [] ==> t[|t| - 1] == u[|u| - 1])
            && !Short(cfg, PacketOf(cfg, s))
            && (u == [] ==> PacketFinish(cfg, s) == next
                            && (next.actual < |next.buf| || (cfg.zeroPacket && !cfg.toHost)))
  {
    ShortEnds(cfg, s);
  }

  /**
   A packet's request is given back exactly if the packet is short, or the request is used up and is not an
   input that asks for a zero-length packet; and with -EOVERFLOW or 0 as RequestOverflows says.
   */
  lemma {:induction false} RequestEnds(cfg: Config, s: State, i: nat)
    requires Usable(cfg) && Valid(s) && i < |Trace(cfg, s)|
    ensures var p := Trace(cfg, s)[i];
            && (p.after.status == EINPROGRESS || p.after.status == OK || p.after.status == EOVERFLOW)
            && p.after.zero == p.before.zero
            && (p.after.status != EINPROGRESS <==> Short(cfg, p) || (!Cut(p) && !(p.before.zero && cfg.toHost)))
    decreases |s.buf| - s.actual, if s.status == EINPROGRESS then 1 else 0
  {
    if i > 0 {
      RequestEnds(cfg, Turn(cfg, s, PacketLen(cfg, s)), i - 1);
    } else {
      ShortEnds(cfg, s);
    }
  }

  /** "Only an error to write too much": a request overflows exactly when an output's short packet leaves bytes unsent. */
  lemma {:induction false} RequestOverflows(cfg: Config, s: State, i: nat)
    requires Usable(cfg) && Valid(s) && i < |Trace(cfg, s)|
    ensures var t := Trace(cfg, s); var z := PacketFinish(cfg, s);
            t[i].after.status == EOVERFLOW <==>
              !cfg.toHost && i == |t| - 1 && |t[i].data| < cfg.maxpacket && z.actual < |z.buf|
    decreases |s.buf| - s.actual, if s.status == EINPROGRESS then 1 else 0
  {
    var next := Turn(cfg, s, PacketLen(cfg, s));
    ShortEnds(cfg, s);
    if i > 0 {
      RequestOverflows(cfg, next, i - 1);
    } else if Open(next) {
      assert Trace(cfg, next) != [];
    } else {
      assert Trace(cfg, s) == [PacketOf(cfg, s)] && PacketFinish(cfg, s) == next;
    }
  }

  // ---------------------------------------------------------------------------------------------
  // Zero-length packets.
  // ---------------------------------------------------------------------------------------------

  /** The URB is full when packet i is to be sent. */
  predicate FullAt(cfg: Config, s: State, i: nat)
    requires Usable(cfg) && Valid(s) && i <= |Trace(cfg, s)|
  {
    StateAt(cfg, s, i).actual == |StateAt(cfg, s, i).buf|
  }

  /** A packet is empty exactly if its request is used up before it, or the URB is full. */
  lemma {:induction false} EmptyExactly(cfg: Config, s: State, i: nat)
    requires Usable(cfg) && Valid(s) && i < |Trace(cfg, s)|
    ensures Trace(cfg, s)[i].data == [] <==> Done(Trace(cfg, s)[i].before) || FullAt(cfg, s, i)
    decreases i
  {
    if i > 0 {
      EmptyExactly(cfg, Turn(cfg, s, PacketLen(cfg, s)), i - 1);
    } else {
      ShortEnds(cfg, s);
    }
  }

  /** The gadget asks for an empty packet after this one: a full one that uses up an input request with zero set. */
  predicate GadgetAsks(cfg: Config, p: Packet) { cfg.toHost && p.before.zero && !Short(cfg, p) && !Cut(p) }

  /** The host asks for one after an output that it filled with a full packet. */
  predicate HostAsks(cfg: Config, full: bool) { !cfg.toHost && cfg.zeroPacket && full }

  /**
   After the first packet an empty one is sent only if its writer asked for it, or for an empty request the
   queue went on to.
   */
  lemma {:induction false} EmptyWasAsked(cfg: Config, s: State, i: nat)
    requires Usable(cfg) && Valid(s) && i + 1 < |Trace(cfg, s)| && Trace(cfg, s)[i + 1].data == []
    ensures var t := Trace(cfg, s);
            || (GadgetAsks(cfg, t[i]) && t[i + 1].before == t[i].after)
            || HostAsks(cfg, FullAt(cfg, s, i + 1))
            || (t[i].after.status != EINPROGRESS && Done(t[i + 1].before))
    decreases i
  {
    var next := Turn(cfg, s, PacketLen(cfg, s));
    if i > 0 {
      EmptyWasAsked(cfg, next, i - 1);
    } else {
      ShortEnds(cfg, s);
      EmptyExactly(cfg, s, 1);
    }
  }

  /** And what was asked for is sent: by the gadget while the URB has room, by the host while a request is queued. */
  lemma {:induction false} AskedIsSent(cfg: Config, s: State, i: nat)
    requires Usable(cfg) && Valid(s) && i < |Trace(cfg, s)|
    ensures var t := Trace(cfg, s);
            && (GadgetAsks(cfg, t[i]) && !FullAt(cfg, s, i + 1) ==>
                  i + 2 == |t| && t[i + 1].data == [] && t[i + 1].before == t[i].after)
            && (!Short(cfg, t[i]) && HostAsks(cfg, FullAt(cfg, s, i + 1)) && StateAt(cfg, s, i + 1).queue != [] ==>
                  i + 2 == |t| && t[i + 1].data == [])
    decreases i
  {
    var next := Turn(cfg, s, PacketLen(cfg, s));
    if i > 0 {
      AskedIsSent(cfg, next, i - 1);
    } else {
      ShortEnds(cfg, s);
      if Open(next) {
        ShortEnds(cfg, next);
      }
    }
  }

  // ---------------------------------------------------------------------------------------------
  // A callback that leaves the queue alone.
  // ---------------------------------------------------------------------------------------------

  /** What the gadget has queued and the bus has not seen. */
  function Unread(queue: seq<Queued>): seq<Byte> {
    if queue == [] then [] else queue[0].buf[queue[0].actual..] + Unread(queue[1..])
  }

  predicate Prefix<T(==)>(a: seq<T>, b: seq<T>) { |a| <= |b| && b[..|a|] == a }

  ghost predicate Passive(h: Handler) {
    forall n, q, r :: h(n, q, r) == q
  }

  lemma UnreadMoves(r: Queued, after: Queued, rest: seq<Queued>)
    requires after.buf == r.buf && r.actual <= after.actual
    ensures Unread([r] + rest) == r.buf[r.actual..after.actual] + Unread([after] + rest)
  {
    assert ([r] + rest)[1..] == rest && ([after] + rest)[1..] == rest;
    assert r.buf[r.actual..] == r.buf[r.actual..after.actual] + r.buf[after.actual..];
  }

  lemma UnreadGone(r: Queued, rest: seq<Queued>)
    ensures Unread([r] + rest) == r.buf[r.actual..|r.buf|] + Unread(rest)
  {
    assert ([r] + rest)[1..] == rest;
  }

  /** A passive turn that leaves the URB in progress takes its bytes off the front. */
  lemma UnreadFalls(cfg: Config, s: State)
    requires Usable(cfg) && Open(s) && cfg.toHost && Passive(cfg.giveback)
    requires Turn(cfg, s, PacketLen(cfg, s)).status == EINPROGRESS
    ensures Unread(s.queue) == PacketOf(cfg, s).data + Unread(Turn(cfg, s, PacketLen(cfg, s)).queue)
  {
    var r, rest := s.queue[0], s.queue[1..];
    var after := HeadAfter(cfg, s, PacketLen(cfg, s));
    assert s.queue == [r] + rest;
    if after.status == EINPROGRESS {
      UnreadMoves(r, after, rest);
    } else {
      UnreadGone(r, rest);
    }
  }

  lemma PrefixAppend<T>(a: seq<T>, x: seq<T>, b: seq<T>)
    requires Prefix(x, b)
    ensures Prefix(a + x, a + b)
  {
  }

  lemma LastTurn(cfg: Config, s: State)
    requires Usable(cfg) && Open(s) && cfg.toHost
    ensures Prefix(PacketOf(cfg, s).data, Unread(s.queue))
  {
  }

  lemma {:induction false} InQueueOrder(cfg: Config, s: State)
    requires Usable(cfg) && Valid(s) && cfg.toHost && Passive(cfg.giveback)
    ensures Prefix(Data(Trace(cfg, s)), Unread(s.queue))
    decreases |s.buf| - s.actual, if s.status == EINPROGRESS then 1 else 0
  {
    if Open(s) {
      var next := Turn(cfg, s, PacketLen(cfg, s));
      var p, rest := PacketOf(cfg, s), Trace(cfg, next);
      PrependData(p, rest);
      InQueueOrder(cfg, next);
      if next.status == EINPROGRESS {
        UnreadFalls(cfg, s);
        PrefixAppend(p.data, Data(rest), Unread(next.queue));
      } else {
        assert Data(rest) == [];
        LastTurn(cfg, s);
        assert p.data + [] == p.data;
      }
    }
  }

  // ---------------------------------------------------------------------------------------------
  // Which requests the packets go to, in both directions.
  // ---------------------------------------------------------------------------------------------

  /** The state before packet i. */
  function StateAt(cfg: Config, s: State, i: nat): (y: State)
    requires Usable(cfg) && Valid(s) && i <= |Trace(cfg, s)|
    ensures Valid(y) && (i < |Trace(cfg, s)| ==> Open(y))
    decreases i
  {
    if i == 0 then s else StateAt(cfg, Turn(cfg, s, PacketLen(cfg, s)), i - 1)
  }

  /**
   For every callback: a packet is for the head of the queue as it stands, which is the same request
   again, or the head of the queue that the callback returned.
   */
  lemma {:induction false} NextHead(cfg: Config, s: State, i: nat)
    requires Usable(cfg) && Valid(s) && i < |Trace(cfg, s)|
    ensures var t, y := Trace(cfg, s), StateAt(cfg, s, i);
            && t[i].before == y.queue[0]
            && StateAt(cfg, s, i + 1).queue ==
               (if t[i].after.status == EINPROGRESS then [t[i].after] + y.queue[1..]
                else cfg.giveback(y.calls, y.queue[1..], t[i].after))
            && StateAt(cfg, s, i + 1).calls == y.calls + if t[i].after.status == EINPROGRESS then 0 else 1
    decreases i
  {
    if i > 0 {
      NextHead(cfg, Turn(cfg, s, PacketLen(cfg, s)), i - 1);
    }
  }

  /** after is before with more of it done. */
  ghost predicate Fills(toHost: bool, before: Req, after: Req) {
    && |after.buf| == |before.buf| && before.actual <= after.actual <= |after.buf|
    && (toHost ==> after.buf == before.buf)
    && (!toHost ==> after.buf == Splice(before.buf, before.actual, after.buf[before.actual..after.actual]))
  }

  /** The bytes that were read from it, or written to it. */
  function Piece(before: Req, after: Req): seq<Byte>
    requires before.actual <= after.actual <= |after.buf|
  {
    after.buf[before.actual..after.actual]
  }

  ghost predicate AllFill(toHost: bool, queue: seq<Queued>, now: seq<Req>) {
    |queue| == |now| && forall j :: 0 <= j < |queue| ==> Fills(toHost, queue[j], now[j])
  }

  ghost function Poured(toHost: bool, queue: seq<Queued>, now: seq<Req>): seq<Byte>
    requires AllFill(toHost, queue, now)
  {
    if queue == [] then [] else Piece(queue[0], now[0]) + Poured(toHost, queue[1..], now[1..])
  }

  /** The requests given back, in order. */
  function Given(cfg: Config, s: State): seq<Req>
    requires Usable(cfg) && Valid(s)
    decreases |s.buf| - s.actual, if s.status == EINPROGRESS then 1 else 0
  {
    if !Open(s) then [] else
    var after := HeadAfter(cfg, s, PacketLen(cfg, s));
    (if after.status == EINPROGRESS then [] else [after]) + Given(cfg, Turn(cfg, s, PacketLen(cfg, s)))
  }

  /** The requests of the original queue, given back or still queued. */
  function Now(cfg: Config, s: State): seq<Req>
    requires Usable(cfg) && Valid(s)
  {
    Given(cfg, s) + PacketFinish(cfg, s).queue
  }

  lemma FillsTwice(toHost: bool, a: Req, b: Req, c: Req)
    requires Fills(toHost, a, b) && Fills(toHost, b, c)
    ensures Fills(toHost, a, c) && Piece(a, c) == Piece(a, b) + Piece(b, c)
  {
    SliceTwice(c.buf, a.actual, b.actual - a.actual, c.actual - b.actual);
    if toHost {
    } else {
      SpliceTwice(a.buf, a.actual, Piece(a, b), Piece(b, c));
      SpliceBelow(b.buf, b.actual, Piece(b, c), a.actual, b.actual);
    }
  }

  lemma SpliceBelow<T>(dst: seq<T>, at: nat, src: seq<T>, i: nat, j: nat)
    requires at + |src| <= |dst| && i <= j <= at
    ensures Splice(dst, at, src)[i..j] == dst[i..j]
  {
  }

  lemma TurnFills(cfg: Config, s: State)
    requires Usable(cfg) && Open(s)
    ensures var after := HeadAfter(cfg, s, PacketLen(cfg, s));
            Fills(cfg.toHost, s.queue[0], after) && Piece(s.queue[0], after) == PacketOf(cfg, s).data
  {
    TurnAccounts(cfg, s, PacketLen(cfg, s));
    if !cfg.toHost {
      SpliceHolds(s.queue[0].buf, s.queue[0].actual, PacketOf(cfg, s).data);
    }
  }

  lemma SpliceHolds<T>(dst: seq<T>, at: nat, src: seq<T>)
    requires at + |src| <= |dst|
    ensures Splice(dst, at, src)[at..at + |src|] == src
  {
  }

  lemma PourHead(toHost: bool, r: Queued, rest: seq<Queued>, x: Req, more: seq<Req>)
    requires Fills(toHost, r, x) && AllFill(toHost, rest, more)
    ensures AllFill(toHost, [r] + rest, [x] + more)
    ensures Poured(toHost, [r] + rest, [x] + more) == Piece(r, x) + Poured(toHost, rest, more)
  {
    assert ([r] + rest)[1..] == rest && ([x] + more)[1..] == more;
  }

  /** What became of the queue, and the bytes that did it. */
  ghost predicate PouredAs(toHost: bool, queue: seq<Queued>, now: seq<Req>, data: seq<Byte>) {
    AllFill(toHost, queue, now) && Poured(toHost, queue, now) == data
  }

  /** The head took more before it came to this. */
  lemma PourFirst(toHost: bool, r: Queued, after: Queued, rest: seq<Queued>, x: Req, more: seq<Req>)
    requires Fills(toHost, r, after) && Fills(toHost, after, x) && AllFill(toHost, rest, more)
    ensures AllFill(toHost, [r] + rest, [x] + more) && AllFill(toHost, [after] + rest, [x] + more)
    ensures Poured(toHost, [r] + rest, [x] + more) == Piece(r, after) + Poured(toHost, [after] + rest, [x] + more)
  {
    FillsTwice(toHost, r, after, x);
    PourHead(toHost, r, rest, x, more);
    PourHead(toHost, after, rest, x, more);
  }

  lemma SplitNow(toHost: bool, after: Queued, rest: seq<Queued>, now: seq<Req>)
    requires AllFill(toHost, [after] + rest, now)
    ensures now != [] && now == [now[0]] + now[1..] && Fills(toHost, after, now[0]) && AllFill(toHost, rest, now[1..])
  {
    assert ([after] + rest)[0] == after;
    forall j | 0 <= j < |rest| ensures Fills(toHost, rest[j], now[1..][j]) {
      assert ([after] + rest)[j + 1] == rest[j];
    }
  }

  lemma PourMore(toHost: bool, r: Queued, after: Queued, rest: seq<Queued>, now: seq<Req>, data: seq<Byte>)
    requires Fills(toHost, r, after) && PouredAs(toHost, [after] + rest, now, data)
    ensures PouredAs(toHost, [r] + rest, now, Piece(r, after) + data)
  {
    SplitNow(toHost, after, rest, now);
    PourFirst(toHost, r, after, rest, now[0], now[1..]);
  }

  predicate Done(r: Req) { r.actual == |r.buf| }

  /** What one turn does to the queue, when the callback does nothing. */
  lemma PassiveTurn(cfg: Config, s: State)
    requires Usable(cfg) && Open(s) && Passive(cfg.giveback)
    ensures var after, next := HeadAfter(cfg, s, PacketLen(cfg, s)), Turn(cfg, s, PacketLen(cfg, s));
            && next.queue == (if after.status == EINPROGRESS then [after] else []) + s.queue[1..]
            && Given(cfg, s) == (if after.status == EINPROGRESS then [] else [after]) + Given(cfg, next)
            && PacketFinish(cfg, s) == PacketFinish(cfg, next)
            && (after.status != EINPROGRESS && next.status == EINPROGRESS ==> Done(after))
            && (next.status != EINPROGRESS ==> Given(cfg, next) == [] && PacketFinish(cfg, next) == next)
  {
  }

  /**
   With a callback that leaves the queue alone, in either direction: the bytes moved are the pieces of
   the queued requests in queue order, each piece the next bytes of its request.
   */
  lemma {:induction false} QueueFilled(cfg: Config, s: State)
    requires Usable(cfg) && Valid(s) && Passive(cfg.giveback)
    ensures PouredAs(cfg.toHost, s.queue, Now(cfg, s), Data(Trace(cfg, s)))
    decreases |s.buf| - s.actual, if s.status == EINPROGRESS then 1 else 0
  {
    if Open(s) {
      var next := Turn(cfg, s, PacketLen(cfg, s));
      QueueFilled(cfg, next);
      PassiveTurn(cfg, s);
      TurnFills(cfg, s);
      PrependData(PacketOf(cfg, s), Trace(cfg, next));
      FilledStep(cfg.toHost, s.queue[0], HeadAfter(cfg, s, PacketLen(cfg, s)), s.queue[1..], next.queue,
                 Given(cfg, next), PacketFinish(cfg, next).queue, Data(Trace(cfg, next)));
      assert s.queue == [s.queue[0]] + s.queue[1..];
    } else {
      assert Now(cfg, s) == s.queue;
      NothingPoured(cfg.toHost, s.queue);
    }
  }

  lemma FilledStep(toHost: bool, r: Queued, after: Req, rest: seq<Queued>, queue: seq<Queued>,
                   given: seq<Req>, left: seq<Req>, data: seq<Byte>)
    requires Fills(toHost, r, after) && queue == (if after.status == EINPROGRESS then [after] else []) + rest
    requires PouredAs(toHost, queue, given + left, data)
    ensures PouredAs(toHost, [r] + rest, (if after.status == EINPROGRESS then [] else [after]) + given + left,
                     Piece(r, after) + data)
  {
    if after.status == EINPROGRESS {
      assert [] + given + left == given + left;
      PourMore(toHost, r, after, rest, given + left, data);
    } else {
      assert [after] + given + left == [after] + (given + left) && queue == rest;
      PourHead(toHost, r, rest, after, given + left);
    }
  }

  lemma {:induction false} NothingPoured(toHost: bool, queue: seq<Queued>)
    ensures AllFill(toHost, queue, queue) && Poured(toHost, queue, queue) == []
  {
    forall j | 0 <= j < |queue| ensures Fills(toHost, queue[j], queue[j]) {
      assert queue[j].buf[queue[j].actual..queue[j].actual] == [];
      assert Splice(queue[j].buf, queue[j].actual, []) == queue[j].buf;
    }
    if queue != [] {
      NothingPoured(toHost, queue[1..]);
    }
  }

  /** No request is begun before those ahead of it are done; one that is given back undone is the last. */
  ghost predicate InTurn(queue: seq<Queued>, now: seq<Req>, given: nat) {
    && |queue| == |now| && given <= |now|
    && (forall j :: 0 <= j < given - 1 ==> Done(now[j]))
    && (forall j :: given < j < |now| ==> now[j] == queue[j])
    && (given > 0 && !Done(now[given - 1]) ==> forall j :: given <= j < |now| ==> now[j] == queue[j])
  }

  lemma {:induction false} QueueInTurn(cfg: Config, s: State)
    requires Usable(cfg) && Valid(s) && Passive(cfg.giveback)
    ensures InTurn(s.queue, Now(cfg, s), |Given(cfg, s)|)
    decreases |s.buf| - s.actual, if s.status == EINPROGRESS then 1 else 0
  {
    if Open(s) {
      var next := Turn(cfg, s, PacketLen(cfg, s));
      QueueInTurn(cfg, next);
      PassiveTurn(cfg, s);
      InTurnStep(s.queue[0], HeadAfter(cfg, s, PacketLen(cfg, s)), s.queue[1..], next.queue,
                 Given(cfg, next), PacketFinish(cfg, next).queue, next.status == EINPROGRESS);
      assert s.queue == [s.queue[0]] + s.queue[1..];
    } else {
      assert Now(cfg, s) == s.queue;
    }
  }

  lemma InTurnStep(r: Queued, after: Req, rest: seq<Queued>, queue: seq<Queued>, given: seq<Req>, left: seq<Req>, goesOn: bool)
    requires after.actual <= |after.buf| && queue == (if after.status == EINPROGRESS then [after] else []) + rest
    requires InTurn(queue, given + left, |given|)
    requires after.status != EINPROGRESS && goesOn ==> Done(after)
    requires !goesOn ==> given == [] && left == queue
    ensures var first := if after.status == EINPROGRESS then [] else [after];
            InTurn([r] + rest, first + given + left, |first + given|)
  {
    var now := given + left;
    if after.status == EINPROGRESS {
      assert [] + given + left == now && [] + given == given;
      InTurnHead(r, after, rest, now, |given|);
    } else {
      assert [after] + given + left == [after] + now && queue == rest;
      InTurnGiven(r, after, rest, now, |given|, goesOn);
    }
  }

  lemma InTurnHead(r: Queued, after: Queued, rest: seq<Queued>, now: seq<Req>, given: nat)
    requires InTurn([after] + rest, now, given)
    ensures InTurn([r] + rest, now, given)
  {
    forall j | 1 <= j < |now| ensures ([r] + rest)[j] == ([after] + rest)[j] {
    }
  }

  lemma InTurnGiven(r: Queued, after: Req, rest: seq<Queued>, now: seq<Req>, given: nat, goesOn: bool)
    requires InTurn(rest, now, given) && (goesOn ==> Done(after)) && (!goesOn ==> given == 0 && now == rest)
    ensures InTurn([r] + rest, [after] + now, given + 1)
  {
    var q, n := [r] + rest, [after] + now;
    forall j | 1 <= j < |n| ensures n[j] == now[j - 1] && q[j] == rest[j - 1] {
    }
    assert n[0] == after;
  }
}

/** transfer() itself, working on the URB's buffer and the endpoint's queue. */
module TransferDevice {
  import opened Errno
  import opened Bytes
  import opened T = Transfer

  class Urb {
    const buffer: array<Byte>
    const toHost: bool
    const zeroPacket: bool
    var actual: nat
    var status: int

    constructor (buffer: array<Byte>, toHost: bool, zeroPacket: bool)
      ensures this.buffer == buffer && this.toHost == toHost && this.zeroPacket == zeroPacket
      ensures actual == 0 && status == EINPROGRESS
    {
      this.buffer, this.toHost, this.zeroPacket := buffer, toHost, zeroPacket;
      actual, status := 0, EINPROGRESS;
    }
  }

  class Endpoint {
    const maxpacket: nat
    const giveback: Handler
    var reqQueue: seq<Queued>
    var calls: nat

    constructor (maxpacket: nat, giveback: Handler)
      ensures this.maxpacket == maxpacket && this.giveback == giveback && reqQueue == [] && calls == 0
    {
      this.maxpacket, this.giveback := maxpacket, giveback;
      reqQueue, calls := [], 0;
    }

    ghost function ConfigFor(urb: Urb): Config { Config(maxpacket, urb.toHost, urb.zeroPacket, giveback) }

    ghost function With(urb: Urb): State
      reads this, urb, urb.buffer
    {
      State(urb.buffer[..], urb.actual, urb.status, reqQueue, calls)
    }

    /** The memcpy of one iteration; the request's new buffer. */
    method Copy(urb: Urb, r: Queued, len: nat) returns (buf: seq<Byte>)
      requires len <= DevLen(r) && urb.actual + len <= urb.buffer.Length
      modifies urb.buffer
      ensures urb.buffer[..] == if urb.toHost then Copied(r.buf, r.actual, old(urb.buffer[..]), urb.actual, len)
                                else old(urb.buffer[..])
      ensures buf == if urb.toHost then r.buf
                     else Copied(old(urb.buffer[..]), urb.actual, r.buf, r.actual, len)
    {
      if urb.toHost {
        forall i | 0 <= i < len { urb.buffer[urb.actual + i] := r.buf[r.actual + i]; }
        buf := r.buf;
      } else {
        buf := r.buf[..r.actual] + urb.buffer[urb.actual..urb.actual + len] + r.buf[r.actual + len..];
      }
    }

    /** Whole packets first; rest says that a remainder is left for another turn. */
    method PickLen(host: nat, dev: nat) returns (len: nat, isShort: bool, rest: bool)
      requires maxpacket > 0
      ensures len == BulkLen(maxpacket, host, dev)
      ensures (isShort <==> len < maxpacket) && (!rest <==> len == Min(host, dev))
    {
      len, isShort, rest := Min(host, dev), true, false;
      if len >= maxpacket {
        BulkIsWhole(len, maxpacket);
        isShort := false;
        rest := len % maxpacket > 0;
        len := len - len % maxpacket;
      }
    }

    /** The statuses one iteration ends with, and whether it asks for another. */
    method Judge(urb: Urb, isShort: bool, hostLen: nat, devLen: nat, len: nat, zero: bool)
      returns (reqStatus: int, urbStatus: int, again: bool)
      requires maxpacket > 0 && len <= Min(hostLen, devLen) && (isShort <==> len < maxpacket)
      ensures reqStatus == ReqStatus(ConfigFor(urb), hostLen, devLen, len, zero)
      ensures urbStatus == UrbStatus(ConfigFor(urb), urb.status, hostLen, devLen, len)
      ensures urbStatus == EINPROGRESS && reqStatus == EINPROGRESS && len == Min(hostLen, devLen) ==> again
    {
      reqStatus, urbStatus, again := EINPROGRESS, urb.status, false;
      if isShort {
        if hostLen == devLen {
          reqStatus, urbStatus := OK, OK;
        } else if urb.toHost {
          reqStatus := OK;
          urbStatus := if devLen > hostLen then EOVERFLOW else OK;
        } else {
          urbStatus := OK;
          reqStatus := if hostLen > devLen then EOVERFLOW else OK;
        }
      } else {
        if devLen == len {
          if zero && urb.toHost { again := true; } else { reqStatus := OK; }
        }
        if hostLen == len {
          if urb.zeroPacket && !urb.toHost { again := true; } else { urbStatus := OK; }
        }
      }
    }

    /** The first half of the loop body: choose the length and copy. */
    method MoveData(urb: Urb) returns (len: nat, isShort: bool, rest: bool, buf: seq<Byte>)
      requires maxpacket > 0 && Ready(With(urb))
      modifies urb`actual, urb.buffer
      ensures len == Bulk(ConfigFor(urb), old(With(urb))) && urb.actual == old(urb.actual) + len
      ensures urb.buffer[..] == BufAfter(ConfigFor(urb), old(With(urb)), len)
      ensures buf == ReqBuf(ConfigFor(urb), old(With(urb)), len)
      ensures isShort <==> len < maxpacket
      ensures !rest <==> len == Min(HostLen(old(With(urb))), DevLen(reqQueue[0]))
    {
      var r := reqQueue[0];
      len, isShort, rest := PickLen(urb.buffer.Length - urb.actual, |r.buf| - r.actual);
      if len > 0 {
        buf := Copy(urb, r, len);
        urb.actual := urb.actual + len;
      } else {
        CopiedNone(r.buf, r.actual, urb.buffer[..], urb.actual);
        CopiedNone(urb.buffer[..], urb.actual, r.buf, r.actual);
        buf := r.buf;
      }
    }

    /** The second half: a finished request is given back, and the callback may do anything to the queue. */
    method Settle(after: Req)
      requires reqQueue != [] && after.actual <= |after.buf|
      modifies this
      ensures after.status == EINPROGRESS ==> reqQueue == [after] + old(reqQueue)[1..] && calls == old(calls)
      ensures after.status != EINPROGRESS ==>
                reqQueue == giveback(old(calls), old(reqQueue)[1..], after) && calls == old(calls) + 1
    {
      if after.status != EINPROGRESS {
        reqQueue, calls := giveback(calls, reqQueue[1..], after), calls + 1;
      } else {
        reqQueue := [after] + reqQueue[1..];
      }
    }

    /** The body of the loop, on the head request; rescan is what the source's flag says at the end. */
    method OnePass(urb: Urb) returns (len: nat, rescan: bool)
      requires maxpacket > 0 && Ready(With(urb))
      modifies this, urb, urb.buffer
      ensures len == Bulk(ConfigFor(urb), old(With(urb)))
      ensures With(urb) == Turn(ConfigFor(urb), old(With(urb)), len)
      ensures urb.status == EINPROGRESS ==> rescan
    {
      var r, host := reqQueue[0], urb.buffer.Length - urb.actual;
      var isShort, rest, buf;
      len, isShort, rest, buf := MoveData(urb);
      var reqStatus, urbStatus, again := Judge(urb, isShort, host, |r.buf| - r.actual, len, r.zero);
      urb.status := urbStatus;
      Settle(Req(buf, r.actual + len, r.zero, reqStatus));
      rescan := rest || again || reqStatus != EINPROGRESS;
    }

    /**
     transfer().  It terminates whatever the callback does.  The list walk never reaches a second
     request: each turn that leaves the URB in progress starts again from the top.  v_timer also calls
     it for a control request already handled, whose status is set; then there is at most one turn.
     */
    method Run(urb: Urb) returns (sent: nat)
      requires maxpacket > 0 && Valid(With(urb))
      modifies this, urb, urb.buffer
      ensures sent == urb.actual - old(urb.actual)
      ensures old(urb.status) == EINPROGRESS ==>
                && With(urb) == Finish(ConfigFor(urb), old(With(urb)))
                && With(urb) == PacketFinish(ConfigFor(urb), old(With(urb)))
                && sent == |Data(Trace(ConfigFor(urb), old(With(urb))))|
      ensures old(urb.status) != EINPROGRESS ==>
                var s := old(With(urb));
                With(urb) == if s.queue == [] then s else Turn(ConfigFor(urb), s, Bulk(ConfigFor(urb), s))
    {
      sent := 0;
      ghost var cfg, start := ConfigFor(urb), With(urb);
      if reqQueue == [] { AtOnce(cfg, start); return; }
      var len, rescan := OnePass(urb);
      sent := len;
      while urb.status == EINPROGRESS && reqQueue != []
        invariant Valid(With(urb)) && start.status == old(urb.status)
        invariant start.status == EINPROGRESS ==> Finish(cfg, start) == Finish(cfg, With(urb))
        invariant start.status != EINPROGRESS ==> urb.status != EINPROGRESS
        invariant start.status != EINPROGRESS ==> With(urb) == Turn(cfg, start, Bulk(cfg, start))
        invariant urb.status == EINPROGRESS ==> rescan
        invariant sent == urb.actual - old(urb.actual)
        decreases urb.buffer.Length - urb.actual, if urb.status == EINPROGRESS then 1 else 0
      {
        len, rescan := OnePass(urb);
        sent := sent + len;
      }
      AtOnce(cfg, start);
    }
  }

  lemma AtOnce(cfg: Config, s: State)
    requires Usable(cfg) && Valid(s)
    ensures Finish(cfg, s) == PacketFinish(cfg, s) && PacketFinish(cfg, s).actual == s.actual + |Data(Trace(cfg, s))|
  {
    FinishIsPackets(cfg, s);
    BytesConserved(cfg, s);
  }
}
