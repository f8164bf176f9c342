/**
 The usbip_ux rendezvous.  A kernel thread hands one iovec at a time to user space and waits; request
 and response flags pass the buffer back and forth.
 */
module UxSend {
  import opened Bytes

  /** The sending half of struct usbip_ux, with the kernel thread inside usbip_ux_sendmsg. */
  datatype State = State(
    buf: seq<Byte>,          // tx_buf, tx_bytes
    count: nat,              // tx_count
    req: bool,
    rsp: bool,
    waiting: bool,           // the kernel thread is inside usbip_ux_sendvec
    todo: seq<seq<Byte>>,    // iovecs of the message still to hand over
    sum: nat,                // the count of usbip_ux_sendmsg
    size: nat,               // history: size of the current message
    given: seq<Byte>,        // history: all iovecs of all messages
    out: seq<Byte>)          // history: all bytes read by user space

  const Initial := State([], 0, false, false, false, [], 0, 0, [], [])

  datatype Step = SendMsg(vecs: seq<seq<Byte>>) | SendVec | Read(blen: nat) | Wake

  /** usbip_ux_read of blen bytes: the request is answered once the iovec is used up. */
  function DoRead(s: State, blen: nat): State
    requires s.count <= |s.buf|
  {
    var n := s.count + Min(blen, |s.buf| - s.count);
    var z := s.(count := n, out := s.out + s.buf[s.count..n]);
    if n >= |s.buf| then z.(req := false, rsp := true) else z
  }

  function Apply(s: State, step: Step): State {
    match step
    case SendMsg(vecs) =>
      if s.waiting || s.todo != [] then s
      else s.(todo := vecs, sum := 0, size := |Flat(vecs)|, given := s.given + Flat(vecs))
    case SendVec =>
      if s.waiting || s.todo == [] then s
      else s.(buf := s.todo[0], count := 0, rsp := false, req := true, waiting := true, todo := s.todo[1..])
    case Read(blen) => if !s.req || s.count > |s.buf| then s else DoRead(s, blen)
    case Wake => if s.waiting && s.rsp then s.(waiting := false, sum := s.sum + s.count) else s
  }

  function Run(s: State, steps: seq<Step>): State {
    if steps == [] then s else Apply(Run(s, steps[..|steps| - 1]), steps[|steps| - 1])
  }

  /** What the kernel thread has handed over and user space has not read. */
  function InFlight(s: State): seq<Byte> {
    if s.waiting && s.count <= |s.buf| then s.buf[s.count..] else []
  }

  ghost predicate Flags(s: State) {
    && s.count <= |s.buf|
    && !(s.req && s.rsp)
    && (s.waiting ==> s.req || s.rsp)
    && (s.req ==> s.waiting)
    && (s.rsp ==> s.count == |s.buf|)
  }

  ghost predicate Stream(s: State) {
    && s.out + InFlight(s) + Flat(s.todo) == s.given
    && s.sum + (if s.waiting then |s.buf| else 0) + |Flat(s.todo)| == s.size
  }

  lemma StepFlags(s: State, step: Step)
    requires Flags(s)
    ensures Flags(Apply(s, step))
  {
  }

  lemma CutAt(out: seq<Byte>, buf: seq<Byte>, count: nat, n: nat, todo: seq<Byte>)
    requires count <= n <= |buf|
    ensures (out + buf[count..n]) + buf[n..] + todo == out + buf[count..] + todo
  {
    assert buf[count..] == buf[count..n] + buf[n..];
  }

  lemma ReadStream(s: State, blen: nat)
    requires Flags(s) && Stream(s) && s.req
    ensures Stream(DoRead(s, blen))
  {
    CutAt(s.out, s.buf, s.count, s.count + Min(blen, |s.buf| - s.count), Flat(s.todo));
  }

  lemma StepStream(s: State, step: Step)
    requires Flags(s) && Stream(s)
    ensures Stream(Apply(s, step))
  {
    match step
    case SendMsg(vecs) =>
      if !s.waiting && s.todo == [] {
        assert s.out == s.given;
        assert s.out + [] + Flat(vecs) == s.given + Flat(vecs);
      }
    case SendVec =>
      if !s.waiting && s.todo != [] {
        assert s.todo[0][0..] == s.todo[0];
        assert s.out + [] + Flat(s.todo) == s.out + s.todo[0] + Flat(s.todo[1..]);
      }
    case Read(blen) => if s.req { ReadStream(s, blen); }
    case Wake =>
  }

  lemma {:induction false} RunInv(steps: seq<Step>)
    ensures Flags(Run(Initial, steps)) && Stream(Run(Initial, steps))
  {
    if steps != [] {
      var s := Run(Initial, steps[..|steps| - 1]);
      RunInv(steps[..|steps| - 1]);
      StepFlags(s, steps[|steps| - 1]);
      StepStream(s, steps[|steps| - 1]);
    }
  }

  predicate Idle(s: State) { !s.waiting && s.todo == [] }

  /**
   A byte FIFO: what user space has read is at any moment the beginning of the concatenated iovecs, and
   all of them once sendmsg returns; sendmsg then returns the size of its message.
   */
  lemma SendIsFifo(steps: seq<Step>)
    ensures var s := Run(Initial, steps);
            && |s.out| <= |s.given| && s.given[..|s.out|] == s.out
            && (Idle(s) ==> s.out == s.given && s.sum == s.size)
            && !(s.req && s.rsp)
  {
    RunInv(steps);
  }

  // A reader that asks for at least one byte each time always brings the message to its end.

  function Measure(s: State): nat {
    |InFlight(s)| + |Flat(s.todo)| + 3 * |s.todo| + (if !s.waiting then 0 else if s.rsp then 1 else 2)
  }

  function NextStep(s: State, blen: nat): Step {
    if !s.waiting then SendVec else if s.rsp then Wake else Read(blen)
  }

  lemma Progress(s: State, blen: nat)
    requires Flags(s) && !Idle(s) && blen > 0
    ensures Measure(Apply(s, NextStep(s, blen))) < Measure(s)
  {
  }

  /** Whatever sizes the reads have, read by read (and zero-length iovecs included), the message gets through. */
  function Drain(s: State, sizes: nat -> nat, call: nat): (z: State)
    requires Flags(s) && Stream(s) && forall n :: sizes(n) > 0
    ensures Idle(z) && z.given == s.given && z.out == s.given
    decreases Measure(s)
  {
    if Idle(s) then s else
    var step := NextStep(s, sizes(call));
    Progress(s, sizes(call));
    StepFlags(s, step);
    StepStream(s, step);
    Drain(Apply(s, step), sizes, if step.Read? then call + 1 else call)
  }
}

/** The receiving half: usbip_recv asks, user space writes, one answer per write. */
module UxReceive {
  import opened Bytes

  datatype State = State(
    want: nat,               // what usbip_recv still needs; rx_bytes while waiting
    got: seq<Byte>,          // what it has in its buffer already
    filled: seq<Byte>,       // what the last write put at rx_buf; rx_count is its length
    req: bool,
    rsp: bool,
    waiting: bool,
    failed: bool,            // usbip_recv returned 0: the connection is taken for closed
    zero: bool,              // history: a write of no bytes was accepted
    recvs: seq<seq<Byte>>,   // history: what the finished calls returned
    written: seq<Byte>)      // history: bytes accepted from user space

  const Initial := State(0, [], [], false, false, false, false, false, [], [])

  datatype Step = Recv(size: nat) | Write(data: seq<Byte>) | Wake

  /** usbip_ux_recvvec: a request for what is still wanted. */
  function Arm(s: State, want: nat): State {
    s.(want := want, filled := [], rsp := false, req := true, waiting := true)
  }

  /** usbip_ux_write: it takes what fits and answers at once. */
  function DoWrite(s: State, data: seq<Byte>): State {
    var part := data[..Min(|data|, s.want)];
    s.(filled := part, req := false, rsp := true, written := s.written + part, zero := s.zero || part == [])
  }

  /** usbip_recv after recvmsg: no bytes is an error, too few ask again. */
  function DoWake(s: State): State {
    var z := s.(waiting := false, filled := []);
    if s.filled == [] then z.(failed := true)
    else if |s.filled| >= s.want then
      z.(want := 0, got := [], recvs := s.recvs + [s.got + s.filled])
    else Arm(z.(got := s.got + s.filled), s.want - |s.filled|)
  }

  function Apply(s: State, step: Step): State {
    match step
    case Recv(size) => if s.waiting || s.failed || size == 0 then s else Arm(s.(got := []), size)
    case Write(data) => if s.req then DoWrite(s, data) else s
    case Wake => if s.waiting && s.rsp then DoWake(s) else s
  }

  function Run(s: State, steps: seq<Step>): State {
    if steps == [] then s else Apply(Run(s, steps[..|steps| - 1]), steps[|steps| - 1])
  }

  ghost predicate Flags(s: State) {
    && !(s.req && s.rsp)
    && (s.waiting ==> s.req || s.rsp)
    && (s.req ==> s.waiting)
    && (s.waiting ==> s.want > 0 && |s.filled| <= s.want && !s.failed)
    && (!s.waiting && !s.failed ==> s.got == [])
    && (!s.rsp || !s.waiting ==> s.filled == [])
  }

  ghost predicate Stream(s: State) {
    Flat(s.recvs) + s.got + s.filled == s.written
  }

  /** A call with this size is started: no other is under way, none has failed, and it asks for something. */
  predicate Accepts(s: State, step: Step) { step.Recv? && !s.waiting && !s.failed && step.size > 0 }

  /** The sizes of the calls of a run, in order. */
  function Sizes(s: State, steps: seq<Step>): seq<nat> {
    if steps == [] then [] else
    var front, last := steps[..|steps| - 1], steps[|steps| - 1];
    Sizes(s, front) + (if Accepts(Run(s, front), last) then [last.size] else [])
  }

  /** The finished calls have had what they asked for; the one under way still wants the rest. */
  ghost predicate Sized(s: State, sizes: seq<nat>) {
    && |sizes| == |s.recvs| + (if s.waiting || s.failed then 1 else 0)
    && (forall k :: 0 <= k < |s.recvs| ==> |s.recvs[k]| == sizes[k])
    && (s.waiting ==> |s.got| + s.want == sizes[|s.recvs|])
  }

  lemma StepSized(s: State, step: Step, sizes: seq<nat>)
    requires Flags(s) && Sized(s, sizes)
    ensures Sized(Apply(s, step), sizes + (if Accepts(s, step) then [step.size] else []))
  {
    assert sizes + [] == sizes;
  }

  /** usbip_recv fails exactly when a write of no bytes was accepted. */
  predicate FailsOnZero(s: State) {
    s.zero <==> s.failed || (s.waiting && s.rsp && s.filled == [])
  }

  lemma StepFlags(s: State, step: Step)
    requires Flags(s) && FailsOnZero(s)
    ensures Flags(Apply(s, step)) && FailsOnZero(Apply(s, step))
  {
  }

  lemma WakeStream(s: State)
    requires Stream(s) && Flags(s) && s.waiting && s.rsp
    ensures Stream(DoWake(s))
  {
    FlatAppend(s.recvs, s.got + s.filled);
    assert Flat(s.recvs) + s.got + s.filled == Flat(s.recvs) + (s.got + s.filled) + [] + [];
    assert s.got + s.filled + [] == s.got + s.filled;
  }

  lemma StepStream(s: State, step: Step)
    requires Flags(s) && Stream(s)
    ensures Stream(Apply(s, step))
  {
    match step
    case Recv(size) =>
    case Write(data) =>
      if s.req {
        var part := data[..Min(|data|, s.want)];
        assert Flat(s.recvs) + s.got + part == Flat(s.recvs) + s.got + [] + part;
      }
    case Wake => if s.waiting && s.rsp { WakeStream(s); }
  }

  lemma {:induction false} RunInv(steps: seq<Step>)
    ensures var s := Run(Initial, steps); Flags(s) && FailsOnZero(s) && Stream(s) && Sized(s, Sizes(Initial, steps))
  {
    if steps != [] {
      var front, last := steps[..|steps| - 1], steps[|steps| - 1];
      RunInv(front);
      StepFlags(Run(Initial, front), last);
      StepStream(Run(Initial, front), last);
      StepSized(Run(Initial, front), last, Sizes(Initial, front));
    }
  }

  /**
   A byte FIFO: the finished usbip_recv calls got, one after the other, exactly as many bytes as they
   were called for, and together with the call in progress they are the written stream.
   */
  lemma ReceiveIsFifo(steps: seq<Step>)
    ensures var s := Run(Initial, steps); var sizes := Sizes(Initial, steps);
            && s.written == Flat(s.recvs) + s.got + s.filled
            && |s.recvs| <= |sizes| && (forall k :: 0 <= k < |s.recvs| ==> |s.recvs[k]| == sizes[k])
            && (s.waiting ==> |sizes| == |s.recvs| + 1 && |s.got| + s.want == sizes[|s.recvs|])
            && !(s.req && s.rsp)
            && (!s.waiting && !s.failed ==> s.written == Flat(s.recvs))
  {
    RunInv(steps);
    var s := Run(Initial, steps);
    if !s.waiting && !s.failed {
      assert Flat(s.recvs) + [] + [] == Flat(s.recvs);
    }
  }

  /** A refused call means an accepted empty write; and an accepted empty write refuses the call when it wakes. */
  lemma FailsIffZeroWrite(steps: seq<Step>)
    ensures var s := Run(Initial, steps + [Wake]); s.failed <==> s.zero
  {
    assert (steps + [Wake])[..|steps|] == steps;
    RunInv(steps);
    RunInv(steps + [Wake]);
  }

  /** One empty write is enough. */
  lemma EmptyWriteFails()
    ensures Run(Initial, [Recv(48), Write([]), Wake]).failed
  {
    var steps := [Recv(48), Write([]), Wake];
    assert steps[..2] == [Recv(48), Write([])] && steps[..2][..1] == [Recv(48)] && [Recv(48)][..0] == [];
    assert Run(Initial, []) == Initial;
    assert Run(Initial, [Recv(48)]) == Apply(Initial, Recv(48));
    assert Run(Initial, steps[..2]) == Apply(Apply(Initial, Recv(48)), Write([]));
  }

  // ---------------------------------------------------------------------------------------------
  // The user-space pump never writes nothing.
  // ---------------------------------------------------------------------------------------------

  /** usbip_ux_rx: buf + written onward, and what came from the socket. */
  datatype Pumped = Pumped(u: State, buf: seq<Byte>, socket: seq<Byte>)

  datatype PumpStep = Kernel(step: Step) | Fetch(data: seq<Byte>) | Push

  function PumpApply(p: Pumped, step: PumpStep): Pumped {
    match step
    case Kernel(k) => if k.Write? then p else p.(u := Apply(p.u, k))
    case Fetch(data) => if p.buf != [] then p else p.(buf := data, socket := p.socket + data)
    case Push =>
      if p.buf == [] || !p.u.req then p else
      p.(u := DoWrite(p.u, p.buf), buf := p.buf[Min(|p.buf|, p.u.want)..])
  }

  function PumpRun(p: Pumped, steps: seq<PumpStep>): Pumped {
    if steps == [] then p else PumpApply(PumpRun(p, steps[..|steps| - 1]), steps[|steps| - 1])
  }

  ghost predicate PumpInv(p: Pumped) {
    Flags(p.u) && FailsOnZero(p.u) && Stream(p.u) && !p.u.zero && p.socket == p.u.written + p.buf
  }

  lemma PumpStepInv(p: Pumped, step: PumpStep)
    requires PumpInv(p)
    ensures PumpInv(PumpApply(p, step))
  {
    match step
    case Kernel(k) =>
      StepFlags(p.u, k);
      StepStream(p.u, k);
    case Fetch(data) => assert p.u.written + [] + data == p.u.written + data;
    case Push =>
      StepFlags(p.u, Write(p.buf));
      StepStream(p.u, Write(p.buf));
      var n := Min(|p.buf|, p.u.want);
      assert p.u.written + p.buf == p.u.written + p.buf[..n] + p.buf[n..];
  }

  /** From the socket to usbip_recv: every byte, in order, and no call ever fails. */
  lemma {:induction false} PumpDelivers(steps: seq<PumpStep>)
    ensures var p := PumpRun(Pumped(Initial, [], []), steps);
            PumpInv(p) && !p.u.failed && p.socket == Flat(p.u.recvs) + p.u.got + p.u.filled + p.buf
  {
    if steps != [] {
      PumpDelivers(steps[..|steps| - 1]);
      PumpStepInv(PumpRun(Pumped(Initial, [], []), steps[..|steps| - 1]), steps[|steps| - 1]);
    }
  }
}

/** struct usbip_ux: both halves, as the kernel and the device file's read and write change them. */
module UxDevice {
  import opened Bytes
  import S = UxSend
  import R = UxReceive

  class Ux {
    var txBuf: seq<Byte>
    var txCount: nat
    var txReq: bool
    var txRsp: bool
    var rxBytes: nat
    var rxBuf: seq<Byte>
    var rxReq: bool
    var rxRsp: bool

    constructor ()
      ensures !txReq && !txRsp && !rxReq && !rxRsp && txBuf == [] && rxBuf == [] && txCount == 0
    {
      txBuf, txCount, txReq, txRsp := [], 0, false, false;
      rxBytes, rxBuf, rxReq, rxRsp := 0, [], false, false;
    }

    ghost predicate TxIs(s: S.State)
      reads this
    {
      txBuf == s.buf && txCount == s.count && txReq == s.req && txRsp == s.rsp
    }

    ghost predicate RxIs(s: R.State)
      reads this
    {
      rxReq == s.req && rxRsp == s.rsp && (s.waiting ==> rxBytes == s.want && rxBuf == s.filled)
    }

    /** usbip_ux_sendvec up to its wait. */
    method Sendvec(vec: seq<Byte>, ghost s: S.State)
      requires TxIs(s) && !s.waiting && s.todo != [] && s.todo[0] == vec
      modifies this`txBuf, this`txCount, this`txReq, this`txRsp
      ensures TxIs(S.Apply(s, S.SendVec))
    {
      txBuf, txCount := vec, 0;
      txRsp, txReq := false, true;
    }

    /** usbip_ux_read after its wait. */
    method Read(blen: nat, ghost s: S.State) returns (got: seq<Byte>)
      requires TxIs(s) && S.Flags(s) && s.req
      modifies this`txCount, this`txReq, this`txRsp
      ensures TxIs(S.Apply(s, S.Read(blen))) && S.Apply(s, S.Read(blen)).out == s.out + got
      ensures |got| <= blen
    {
      var bytes := |txBuf| - txCount;
      if blen < bytes { bytes := blen; }
      got := txBuf[txCount..txCount + bytes];
      txCount := txCount + bytes;
      if txCount >= |txBuf| { txReq, txRsp := false, true; }
    }

    /** usbip_ux_recvvec up to its wait. */
    method Recvvec(size: nat, ghost s: R.State)
      requires RxIs(s) && !s.waiting && !s.failed && size > 0
      modifies this`rxBytes, this`rxBuf, this`rxReq, this`rxRsp
      ensures RxIs(R.Apply(s, R.Recv(size)))
    {
      rxBytes, rxBuf := size, [];
      rxRsp, rxReq := false, true;
    }

    /** usbip_ux_write after its wait. */
    method Write(data: seq<Byte>, ghost s: R.State) returns (bytes: nat)
      requires RxIs(s) && R.Flags(s) && s.req
      modifies this`rxBuf, this`rxReq, this`rxRsp
      ensures RxIs(R.Apply(s, R.Write(data)))
      ensures bytes <= |data| && R.Apply(s, R.Write(data)).written == s.written + data[..bytes]
    {
      bytes := rxBytes - |rxBuf|;
      if |data| < bytes { bytes := |data|; }
      rxBuf := rxBuf + data[..bytes];
      rxReq, rxRsp := false, true;
    }
  }
}
