/** The device-side server, usbip-host: three lists of requests and two of unlink replies. */
module Stub {
  import opened Errno
  import P = Protocol
  import opened Servers
  import opened Transmit

  /** struct stub_unlink. */
  datatype Pending = Pending(seqnum: nat, status: int)

  datatype Stub = Stub(
    privInit: seq<P.Entry>,
    privTx: seq<nat>,
    privFree: seq<nat>,
    unlinkTx: seq<Pending>,
    unlinkFree: seq<Pending>)

  const Empty := Stub([], [], [], [], [])

  /** stub_priv_alloc and stub_recv_cmd_unlink. */
  function RecvCmd(st: Stub, cmd: P.Cmd): Stub {
    st.(privInit := QueueAfter(st.privInit, cmd),
        unlinkTx := if Misses(st.privInit, cmd) then st.unlinkTx + [Pending(cmd.seqnum, OK)] else st.unlinkTx)
  }

  /** stub_complete; usb_kill_urb (-ENOENT) leaves the request where it is. */
  function Complete(st: Stub, i: nat, status: int): Stub {
    if i >= |st.privInit| || status == ENOENT then st else
    var e := st.privInit[i];
    var rest := st.(privInit := st.privInit[..i] + st.privInit[i + 1..]);
    if e.unlinked then rest.(unlinkTx := st.unlinkTx + [Pending(e.seqnum, status)])
    else rest.(privTx := st.privTx + [e.seqnum])
  }

  function Submitted(list: seq<nat>): (r: seq<P.Ret>)
    ensures |r| == |list|
  {
    if list == [] then [] else [P.RetSubmit(list[0])] + Submitted(list[1..])
  }

  function Cancelled(list: seq<Pending>): (r: seq<P.Ret>)
    ensures |r| == |list|
  {
    if list == [] then [] else [P.RetUnlink(list[0].seqnum, list[0].status)] + Cancelled(list[1..])
  }

  /** What an undisturbed round of stub_tx_loop sends. */
  function PassReplies(st: Stub): seq<P.Ret> { Submitted(st.privTx) + Cancelled(st.unlinkTx) }

  datatype StubTx = StubTx(st: Stub, pc: Pc, rets: seq<P.Ret>)

  /** stub_tx_loop: one entry is dequeued and sent; a drain that finds its list empty frees what it sent. */
  function TxStep(st: Stub, pc: Pc): StubTx {
    match pc
    case Submitting =>
      if st.privTx == [] then StubTx(st.(privFree := []), Unlinking, [])
      else StubTx(st.(privTx := st.privTx[1..], privFree := st.privFree + [st.privTx[0]]), Submitting,
                  [P.RetSubmit(st.privTx[0])])
    case Unlinking =>
      if st.unlinkTx == [] then StubTx(st.(unlinkFree := []), Submitting, [])
      else StubTx(st.(unlinkTx := st.unlinkTx[1..], unlinkFree := st.unlinkFree + [st.unlinkTx[0]]), Unlinking,
                  [P.RetUnlink(st.unlinkTx[0].seqnum, st.unlinkTx[0].status)])
  }

  // ---------------------------------------------------------------------------------------------
  // Conservation, against any peer and under every interleaving.
  // ---------------------------------------------------------------------------------------------

  datatype Step =
    | Recv(cmd: P.Cmd)
    | DoComplete(i: nat, status: int)
    | DoTx(pc: Pc)     // one turn of either drain, in any order

  /** The server and its books: what came in, what was sent, what was matched by an unlink. */
  datatype World = World(
    st: Stub,
    sent: seq<P.Ret>,
    submits: multiset<nat>,
    unlinks: multiset<nat>,
    matched: multiset<nat>,
    retargeted: multiset<nat>)

  const Start := World(Empty, [], multiset{}, multiset{}, multiset{}, multiset{})

  function DoRecv(w: World, cmd: P.Cmd): World {
    var v := w.(st := RecvCmd(w.st, cmd));
    match cmd
    case CmdSubmit(s) => v.(submits := w.submits + multiset{s})
    case CmdUnlink(u, t) =>
      var i := Find(w.st.privInit, t);
      var x := v.(unlinks := w.unlinks + multiset{u});
      if i == |w.st.privInit| then x
      else if w.st.privInit[i].unlinked then x.(retargeted := w.retargeted + multiset{t})
      else x.(matched := w.matched + multiset{t})
  }

  function Apply(w: World, step: Step): World {
    match step
    case Recv(cmd) => DoRecv(w, cmd)
    case DoComplete(i, status) => w.(st := Complete(w.st, i, status))
    case DoTx(pc) => w.(st := TxStep(w.st, pc).st, sent := w.sent + TxStep(w.st, pc).rets)
  }

  function Run(w: World, steps: seq<Step>): World {
    if steps == [] then w else Apply(Run(w, steps[..|steps| - 1]), steps[|steps| - 1])
  }

  // How often the number n occurs in each list and log.

  function Bit(b: bool): nat { if b then 1 else 0 }

  function Entries(q: seq<P.Entry>, unlinked: bool, n: nat): nat {
    if q == [] then 0 else Bit(q[0] == P.Entry(n, unlinked)) + Entries(q[1..], unlinked, n)
  }

  function Numbers(a: seq<nat>, n: nat): nat {
    if a == [] then 0 else Bit(a[0] == n) + Numbers(a[1..], n)
  }

  function Waiting(q: seq<Pending>, n: nat): nat {
    if q == [] then 0 else Bit(q[0].seqnum == n) + Waiting(q[1..], n)
  }

  function SubmitsSent(log: seq<P.Ret>, n: nat): nat {
    if log == [] then 0 else Bit(log[0] == P.RetSubmit(n)) + SubmitsSent(log[1..], n)
  }

  function UnlinksSent(log: seq<P.Ret>, n: nat): nat {
    if log == [] then 0 else Bit(log[0].RetUnlink? && log[0].seqnum == n) + UnlinksSent(log[1..], n)
  }

  lemma {:induction false} EntriesSplit(a: seq<P.Entry>, b: seq<P.Entry>, unlinked: bool, n: nat)
    ensures Entries(a + b, unlinked, n) == Entries(a, unlinked, n) + Entries(b, unlinked, n)
  {
    if a == [] {
      assert a + b == b;
    } else {
      EntriesSplit(a[1..], b, unlinked, n);
      assert (a + b)[1..] == a[1..] + b;
    }
  }

  lemma EntriesAt(q: seq<P.Entry>, i: nat, unlinked: bool, n: nat)
    requires i < |q|
    ensures Entries(q, unlinked, n) == Entries(q[..i] + q[i + 1..], unlinked, n) + Bit(q[i] == P.Entry(n, unlinked))
  {
    assert q == q[..i] + q[i..] && q[i..][1..] == q[i + 1..];
    EntriesSplit(q[..i], q[i..], unlinked, n);
    EntriesSplit(q[..i], q[i + 1..], unlinked, n);
  }

  lemma EntriesUpdate(q: seq<P.Entry>, i: nat, e: P.Entry, unlinked: bool, n: nat)
    requires i < |q|
    ensures Entries(q[i := e], unlinked, n) ==
            Entries(q, unlinked, n) - Bit(q[i] == P.Entry(n, unlinked)) + Bit(e == P.Entry(n, unlinked))
  {
    var r := q[i := e];
    EntriesAt(q, i, unlinked, n);
    EntriesAt(r, i, unlinked, n);
    assert r[..i] == q[..i] && r[i + 1..] == q[i + 1..];
  }

  lemma {:induction false} NumbersAppend(a: seq<nat>, x: nat, n: nat)
    ensures Numbers(a + [x], n) == Numbers(a, n) + Bit(x == n)
  {
    if a == [] {
      assert a + [x] == [x];
    } else {
      NumbersAppend(a[1..], x, n);
      assert (a + [x])[1..] == a[1..] + [x];
    }
  }

  lemma {:induction false} WaitingAppend(q: seq<Pending>, p: Pending, n: nat)
    ensures Waiting(q + [p], n) == Waiting(q, n) + Bit(p.seqnum == n)
  {
    if q == [] {
      assert q + [p] == [p];
    } else {
      WaitingAppend(q[1..], p, n);
      assert (q + [p])[1..] == q[1..] + [p];
    }
  }

  lemma {:induction false} SentAppend(log: seq<P.Ret>, r: P.Ret, n: nat)
    ensures SubmitsSent(log + [r], n) == SubmitsSent(log, n) + Bit(r == P.RetSubmit(n))
    ensures UnlinksSent(log + [r], n) == UnlinksSent(log, n) + Bit(r.RetUnlink? && r.seqnum == n)
  {
    if log == [] {
      assert log + [r] == [r];
    } else {
      SentAppend(log[1..], r, n);
      assert (log + [r])[1..] == log[1..] + [r];
    }
  }

  /** The books balance: for every number n, what came in is somewhere, as often as it came. */
  ghost predicate Balanced(w: World, n: nat) {
    && w.submits[n] == Entries(w.st.privInit, false, n) + Numbers(w.st.privTx, n) + SubmitsSent(w.sent, n) + w.matched[n]
    && w.unlinks[n] == Entries(w.st.privInit, true, n) + Waiting(w.st.unlinkTx, n) + UnlinksSent(w.sent, n) + w.retargeted[n]
    && Numbers(w.st.privFree, n) <= SubmitsSent(w.sent, n)
  }

  lemma RecvBalanced(w: World, cmd: P.Cmd, n: nat)
    requires Balanced(w, n)
    ensures Balanced(DoRecv(w, cmd), n)
  {
    var q := w.st.privInit;
    match cmd {
      case CmdSubmit(s) =>
        var e := P.Entry(s, false);
        EntriesSplit(q, [e], false, n);
        EntriesSplit(q, [e], true, n);
      case CmdUnlink(u, t) =>
        var i := Find(q, t);
        if i < |q| {
          EntriesUpdate(q, i, P.Entry(u, true), false, n);
          EntriesUpdate(q, i, P.Entry(u, true), true, n);
        } else {
          WaitingAppend(w.st.unlinkTx, Pending(u, OK), n);
        }
    }
  }

  lemma CompleteBalanced(w: World, i: nat, status: int, n: nat)
    requires Balanced(w, n)
    ensures Balanced(Apply(w, DoComplete(i, status)), n)
  {
    if i < |w.st.privInit| {
      var s := w.st.privInit[i].seqnum;
      EntriesAt(w.st.privInit, i, false, n);
      EntriesAt(w.st.privInit, i, true, n);
      WaitingAppend(w.st.unlinkTx, Pending(s, status), n);
      NumbersAppend(w.st.privTx, s, n);
    }
  }

  lemma StepBalanced(w: World, step: Step, n: nat)
    requires Balanced(w, n)
    ensures Balanced(Apply(w, step), n)
  {
    match step {
      case Recv(cmd) => RecvBalanced(w, cmd, n);
      case DoComplete(i, status) => CompleteBalanced(w, i, status, n);
      case DoTx(pc) =>
        if pc.Submitting? && w.st.privTx != [] {
          SentAppend(w.sent, P.RetSubmit(w.st.privTx[0]), n);
          NumbersAppend(w.st.privFree, w.st.privTx[0], n);
        } else if pc.Unlinking? && w.st.unlinkTx != [] {
          SentAppend(w.sent, P.RetUnlink(w.st.unlinkTx[0].seqnum, w.st.unlinkTx[0].status), n);
        } else {
          assert w.sent + [] == w.sent;
        }
    }
  }

  lemma {:induction false} RunBalanced(steps: seq<Step>, n: nat)
    ensures Balanced(Run(Start, steps), n)
  {
    if steps != [] {
      RunBalanced(steps[..|steps| - 1], n);
      StepBalanced(Run(Start, steps[..|steps| - 1]), steps[|steps| - 1], n);
    }
  }

  /** Nothing is waiting in the server any more. */
  predicate Drained(st: Stub) { st.privInit == [] && st.privTx == [] && st.unlinkTx == [] }

  /** No CMD_UNLINK aims at the number of an earlier CMD_UNLINK. */
  predicate WellAimed(steps: seq<Step>) {
    steps == [] ||
    (var front, last := steps[..|steps| - 1], steps[|steps| - 1];
     WellAimed(front)
     && (last.Recv? && last.cmd.CmdUnlink? ==> Run(Start, front).unlinks[last.cmd.target] == 0))
  }

  lemma {:induction false} NoneUnlinked(q: seq<P.Entry>, i: nat)
    requires i < |q| && Entries(q, true, q[i].seqnum) == 0
    ensures !q[i].unlinked
  {
    if i > 0 {
      assert q[1..][i - 1] == q[i];
      NoneUnlinked(q[1..], i - 1);
    }
  }

  lemma {:induction false} NeverRetargeted(steps: seq<Step>)
    requires WellAimed(steps)
    ensures Run(Start, steps).retargeted == multiset{}
  {
    if steps != [] {
      var front, last := steps[..|steps| - 1], steps[|steps| - 1];
      NeverRetargeted(front);
      if last.Recv? && last.cmd.CmdUnlink? {
        var w := Run(Start, front);
        var i := Find(w.st.privInit, last.cmd.target);
        RunBalanced(front, last.cmd.target);
        if i < |w.st.privInit| {
          NoneUnlinked(w.st.privInit, i);
        }
      }
    }
  }

  /** The step receives a CMD_UNLINK that takes the place of a request, or of an earlier unlink, in priv_init. */
  predicate Replaces(st: Stub, step: Step, n: nat, unlinked: bool) {
    && step.Recv? && step.cmd.CmdUnlink? && step.cmd.target == n
    && Find(st.privInit, n) < |st.privInit| && st.privInit[Find(st.privInit, n)].unlinked == unlinked
  }

  predicate ReplacesAt(steps: seq<Step>, k: nat, n: nat, unlinked: bool) {
    k < |steps| && Replaces(Run(Start, steps[..k]).st, steps[k], n, unlinked)
  }

  function Displaced(w: World, unlinked: bool): multiset<nat> { if unlinked then w.retargeted else w.matched }

  lemma ReplacesFront(steps: seq<Step>, k: nat, n: nat, unlinked: bool)
    requires k < |steps| - 1
    ensures ReplacesAt(steps, k, n, unlinked) <==> ReplacesAt(steps[..|steps| - 1], k, n, unlinked)
  {
    assert steps[..|steps| - 1][..k] == steps[..k];
  }

  ghost predicate SomeReplaces(steps: seq<Step>, n: nat, unlinked: bool) {
    exists k: nat :: ReplacesAt(steps, k, n, unlinked)
  }

  lemma SomeInFront(steps: seq<Step>, n: nat, unlinked: bool)
    requires steps != [] && SomeReplaces(steps[..|steps| - 1], n, unlinked)
    ensures SomeReplaces(steps, n, unlinked)
  {
    var k: nat :| ReplacesAt(steps[..|steps| - 1], k, n, unlinked);
    ReplacesFront(steps, k, n, unlinked);
  }

  lemma SomeAt(steps: seq<Step>, k: nat, n: nat, unlinked: bool)
    requires ReplacesAt(steps, k, n, unlinked)
    ensures SomeReplaces(steps, n, unlinked)
  {
  }

  /** What happened before the last step, or by it. */
  ghost predicate EarlierOrLast(steps: seq<Step>, n: nat, unlinked: bool)
    requires steps != []
  {
    var front := steps[..|steps| - 1];
    SomeReplaces(front, n, unlinked) || Replaces(Run(Start, front).st, steps[|steps| - 1], n, unlinked)
  }

  lemma ReplacesWhere(steps: seq<Step>, k: nat, n: nat, unlinked: bool)
    requires steps != [] && ReplacesAt(steps, k, n, unlinked)
    ensures EarlierOrLast(steps, n, unlinked)
  {
    if k < |steps| - 1 {
      ReplacesFront(steps, k, n, unlinked);
      SomeAt(steps[..|steps| - 1], k, n, unlinked);
    }
  }

  lemma SomeIn(steps: seq<Step>, n: nat, unlinked: bool)
    requires steps != [] && SomeReplaces(steps, n, unlinked)
    ensures EarlierOrLast(steps, n, unlinked)
  {
    var k: nat :| ReplacesAt(steps, k, n, unlinked);
    ReplacesWhere(steps, k, n, unlinked);
  }

  lemma SomeMore(steps: seq<Step>, n: nat, unlinked: bool)
    requires steps != []
    ensures SomeReplaces(steps, n, unlinked) <==> EarlierOrLast(steps, n, unlinked)
  {
    if SomeReplaces(steps, n, unlinked) {
      SomeIn(steps, n, unlinked);
    } else if SomeReplaces(steps[..|steps| - 1], n, unlinked) {
      SomeInFront(steps, n, unlinked);
    } else {
      assert !ReplacesAt(steps, |steps| - 1, n, unlinked);
    }
  }

  lemma OneDisplaced(w: World, step: Step, n: nat, unlinked: bool)
    ensures Displaced(Apply(w, step), unlinked)[n] ==
            Displaced(w, unlinked)[n] + Bit(Replaces(w.st, step, n, unlinked))
  {
  }

  lemma {:induction false} DisplacedExactly(steps: seq<Step>, n: nat, unlinked: bool)
    ensures Displaced(Run(Start, steps), unlinked)[n] > 0 <==> SomeReplaces(steps, n, unlinked)
  {
    if steps != [] {
      var front, last := steps[..|steps| - 1], steps[|steps| - 1];
      DisplacedExactly(front, n, unlinked);
      SomeMore(steps, n, unlinked);
      OneDisplaced(Run(Start, front), last, n, unlinked);
    }
  }

  /**
   Against any peer: once the server is drained, each CMD_SUBMIT has had exactly one RET_SUBMIT if and only
   if no CMD_UNLINK found it in priv_init, and each CMD_UNLINK exactly one RET_UNLINK with its own number if
   and only if no later CMD_UNLINK found its number there; and there are never more replies than commands.
   */
  lemma RepliesExactly(steps: seq<Step>, n: nat)
    requires Drained(Run(Start, steps).st)
    ensures var w := Run(Start, steps);
            && SubmitsSent(w.sent, n) + w.matched[n] == w.submits[n]
            && UnlinksSent(w.sent, n) + w.retargeted[n] == w.unlinks[n]
            && (SubmitsSent(w.sent, n) == w.submits[n] <==> !exists k: nat :: ReplacesAt(steps, k, n, false))
            && (UnlinksSent(w.sent, n) == w.unlinks[n] <==> !exists k: nat :: ReplacesAt(steps, k, n, true))
  {
    RunBalanced(steps, n);
    DisplacedExactly(steps, n, false);
    DisplacedExactly(steps, n, true);
  }

  lemma RunMore(steps: seq<Step>, step: Step)
    ensures Run(Start, steps + [step]) == Apply(Run(Start, steps), step)
  {
    assert (steps + [step])[..|steps|] == steps;
  }

  /** A peer that unlinks an unlink: the first one is never answered. */
  lemma RetargetedUnanswered() returns (steps: seq<Step>)
    ensures var w := Run(Start, steps);
            Drained(w.st) && w.unlinks[2] == 1 && UnlinksSent(w.sent, 2) == 0 && w.retargeted[2] == 1
  {
    steps := [];
    RunMore(steps, Recv(P.CmdSubmit(1)));
    steps := steps + [Recv(P.CmdSubmit(1))];
    RunMore(steps, Recv(P.CmdUnlink(2, 1)));
    steps := steps + [Recv(P.CmdUnlink(2, 1))];
    assert Run(Start, steps).st.privInit == [P.Entry(2, true)];
    RunMore(steps, Recv(P.CmdUnlink(3, 2)));
    steps := steps + [Recv(P.CmdUnlink(3, 2))];
    assert Run(Start, steps).st.privInit == [P.Entry(3, true)];
    RunMore(steps, DoComplete(0, ECONNRESET));
    steps := steps + [DoComplete(0, ECONNRESET)];
    RunMore(steps, DoTx(Unlinking));
    steps := steps + [DoTx(Unlinking)];
    assert Run(Start, steps).sent == [P.RetUnlink(3, ECONNRESET)];
  }

  /** With a peer that aims only at submissions, as module StubAccount shows vhci to be, every command is answered. */
  lemma ExactlyOneReply(steps: seq<Step>, n: nat)
    requires WellAimed(steps) && Drained(Run(Start, steps).st)
    ensures var w := Run(Start, steps);
            UnlinksSent(w.sent, n) == w.unlinks[n] && SubmitsSent(w.sent, n) + w.matched[n] == w.submits[n]
  {
    NeverRetargeted(steps);
    RunBalanced(steps, n);
  }

  /** A turn that ends a drain: its list is empty, and what it sent is freed. */
  predicate EndsDrain(w: World, step: Step, pc: Pc) {
    step == DoTx(pc) && if pc.Submitting? then w.st.privTx == [] else w.st.unlinkTx == []
  }

  /** How much had been sent when this drain last ended. */
  function SentBefore(steps: seq<Step>, pc: Pc): nat {
    if steps == [] then 0 else
    var front, last := steps[..|steps| - 1], steps[|steps| - 1];
    if EndsDrain(Run(Start, front), last, pc) then |Run(Start, front).sent| else SentBefore(front, pc)
  }

  function SubmitNumbers(log: seq<P.Ret>): seq<nat> {
    if log == [] then [] else
    SubmitNumbers(log[..|log| - 1]) + if log[|log| - 1].RetSubmit? then [log[|log| - 1].seqnum] else []
  }

  function UnlinkReplies(log: seq<P.Ret>): seq<Pending> {
    if log == [] then [] else
    var r := log[|log| - 1];
    UnlinkReplies(log[..|log| - 1]) + if r.RetUnlink? then [Pending(r.seqnum, r.status)] else []
  }

  ghost predicate FreeFrom(w: World, x: nat, y: nat) {
    && x <= |w.sent| && y <= |w.sent|
    && w.st.privFree == SubmitNumbers(w.sent[x..]) && w.st.unlinkFree == UnlinkReplies(w.sent[y..])
  }

  lemma SentMore(log: seq<P.Ret>, r: P.Ret, x: nat)
    requires x <= |log|
    ensures SubmitNumbers((log + [r])[x..]) == SubmitNumbers(log[x..]) + if r.RetSubmit? then [r.seqnum] else []
    ensures UnlinkReplies((log + [r])[x..]) == UnlinkReplies(log[x..]) + if r.RetUnlink? then [Pending(r.seqnum, r.status)] else []
  {
    var more := (log + [r])[x..];
    assert more == log[x..] + [r] && more[..|more| - 1] == log[x..];
  }

  lemma FreeStep(w: World, step: Step, x: nat, y: nat)
    requires FreeFrom(w, x, y)
    ensures FreeFrom(Apply(w, step), if EndsDrain(w, step, Submitting) then |w.sent| else x,
                     if EndsDrain(w, step, Unlinking) then |w.sent| else y)
  {
    if step.DoTx? {
      var rets := TxStep(w.st, step.pc).rets;
      if rets == [] {
        assert w.sent + rets == w.sent && w.sent[|w.sent|..] == [];
      } else {
        assert rets == [rets[0]];
        SentMore(w.sent, rets[0], x);
        SentMore(w.sent, rets[0], y);
      }
    }
  }

  /** The free lists hold exactly what was sent since their drain last ended; so nothing sent is kept for good. */
  lemma {:induction false} FreedExactly(steps: seq<Step>)
    ensures FreeFrom(Run(Start, steps), SentBefore(steps, Submitting), SentBefore(steps, Unlinking))
  {
    if steps != [] {
      var front := steps[..|steps| - 1];
      FreedExactly(front);
      FreeStep(Run(Start, front), steps[|steps| - 1], SentBefore(front, Submitting), SentBefore(front, Unlinking));
    }
  }

  /** The three lists of requests are disjoint, at every moment. */
  lemma ListsDisjoint(steps: seq<Step>, n: nat)
    requires Run(Start, steps).submits[n] <= 1
    ensures var st := Run(Start, steps).st;
            Entries(st.privInit, false, n) + Numbers(st.privTx, n) + Numbers(st.privFree, n) <= 1
  {
    RunBalanced(steps, n);
  }
}

/** struct stub_device. */
module StubDevices {
  import opened Errno
  import P = Protocol
  import opened Servers
  import opened S = Stub

  class StubDevice {
    var privInit: seq<P.Entry>
    var privTx: seq<nat>
    var privFree: seq<nat>
    var unlinkTx: seq<Pending>
    var unlinkFree: seq<Pending>

    ghost function State(): S.Stub
      reads this
    {
      S.Stub(privInit, privTx, privFree, unlinkTx, unlinkFree)
    }

    constructor ()
      ensures State() == Empty
    {
      privInit, privTx, privFree, unlinkTx, unlinkFree := [], [], [], [], [];
    }

    method PrivAlloc(s: nat)
      modifies this
      ensures State() == RecvCmd(old(State()), P.CmdSubmit(s))
    {
      privInit := privInit + [P.Entry(s, false)];
    }

    /** stub_recv_cmd_unlink: only priv_init is searched. */
    method RecvCmdUnlink(u: nat, t: nat)
      modifies this
      ensures State() == RecvCmd(old(State()), P.CmdUnlink(u, t))
    {
      var i := 0;
      while i < |privInit| && privInit[i].seqnum != t
        invariant i <= Find(privInit, t)
      {
        i := i + 1;
      }
      if i < |privInit| {
        privInit := privInit[i := P.Entry(u, true)];
      } else {
        unlinkTx := unlinkTx + [Pending(u, OK)];
      }
    }

    /** stub_complete, for the request at position i of priv_init. */
    method CompleteUrb(i: nat, status: int)
      requires i < |privInit|
      modifies this
      ensures State() == Complete(old(State()), i, status)
    {
      if status == ENOENT { return; }
      var e := privInit[i];
      privInit := privInit[..i] + privInit[i + 1..];
      if e.unlinked {
        unlinkTx := unlinkTx + [Pending(e.seqnum, status)];
      } else {
        privTx := privTx + [e.seqnum];
      }
    }

    /** One undisturbed round of stub_tx_loop: every RET_SUBMIT first, then every RET_UNLINK. */
    method TxPass() returns (sent: seq<P.Ret>)
      modifies this
      ensures State() == old(State()).(privTx := [], unlinkTx := [], privFree := [], unlinkFree := [])
      ensures sent == PassReplies(old(State()))
    {
      sent := [];
      while privTx != []
        invariant sent + Submitted(privTx) == Submitted(old(privTx))
        invariant privInit == old(privInit) && unlinkTx == old(unlinkTx)
        decreases |privTx|
      {
        var s := privTx[0];
        assert sent + ([P.RetSubmit(s)] + Submitted(privTx[1..])) == sent + [P.RetSubmit(s)] + Submitted(privTx[1..]);
        privTx, privFree := privTx[1..], privFree + [s];
        sent := sent + [P.RetSubmit(s)];
      }
      privFree := [];
      while unlinkTx != []
        invariant sent + Cancelled(unlinkTx) == Submitted(old(privTx)) + Cancelled(old(unlinkTx))
        invariant privInit == old(privInit) && privTx == [] && privFree == []
        decreases |unlinkTx|
      {
        var p := unlinkTx[0];
        var r := P.RetUnlink(p.seqnum, p.status);
        assert sent + ([r] + Cancelled(unlinkTx[1..])) == sent + [r] + Cancelled(unlinkTx[1..]);
        unlinkTx, unlinkFree := unlinkTx[1..], unlinkFree + [p];
        sent := sent + [r];
      }
      unlinkFree := [];
    }
  }
}
