/** The request queue of usbip-vudc and the steps that change it. */
module UrbQueue {
  import opened Lists
  import opened Errno
  import P = Protocol
  import V = Vudc
  import Servers

  /** struct urbp; no is the arrival number, a history field no step reads. */
  datatype Urbp = Urbp(seqnum: nat, ep: Option<nat>, unlinked: bool, no: nat)

  datatype Rx = Submit(seqnum: nat, ep: Option<nat>) | Unlink(seqnum: nat, target: nat)

  /** done lists, in order, the URBs returned by a RET_SUBMIT. */
  datatype Q = Q(urbQueue: seq<Urbp>, txQueue: seq<P.Ret>, nextNo: nat, done: seq<Urbp>)

  const Empty := Q([], [], 0, [])

  datatype Step = Receive(rx: Rx) | Return(i: nat)

  /** The URB as the protocol sees it. */
  function EntryOf(u: Urbp): P.Entry { P.Entry(u.seqnum, u.unlinked) }

  function Entries(q: seq<Urbp>): (r: seq<P.Entry>)
    ensures |r| == |q| && forall i :: 0 <= i < |q| ==> r[i] == EntryOf(q[i])
  {
    if q == [] then [] else Entries(q[..|q| - 1]) + [EntryOf(q[|q| - 1])]
  }

  function Answer(u: Urbp): P.Ret { V.Answer(EntryOf(u)) }

  function DoReceive(q: Q, rx: Rx): Q {
    match rx
    case Submit(s, ep) =>
      q.(urbQueue := q.urbQueue + [Urbp(s, ep, false, q.nextNo)], nextNo := q.nextNo + 1)
    case Unlink(u, t) =>
      var i := Servers.Find(Entries(q.urbQueue), t);
      if i < |q.urbQueue| then q.(urbQueue := q.urbQueue[i := q.urbQueue[i].(seqnum := u, unlinked := true)])
      else q.(txQueue := q.txQueue + [P.RetUnlink(u, OK)])
  }

  function DoReturn(q: Q, i: nat): Q {
    if i >= |q.urbQueue| then q else
    var u := q.urbQueue[i];
    q.(urbQueue := q.urbQueue[..i] + q.urbQueue[i + 1..], txQueue := q.txQueue + [Answer(u)],
       done := if u.unlinked then q.done else q.done + [u])
  }

  function Apply(q: Q, step: Step): Q {
    match step
    case Receive(rx) => DoReceive(q, rx)
    case Return(i) => DoReturn(q, i)
  }

  /** An URB is completed only when it is the first of its endpoint. */
  predicate Legal(q: Q, step: Step) {
    step.Return? ==>
      && step.i < |q.urbQueue|
      && (!q.urbQueue[step.i].unlinked ==>
            forall j :: 0 <= j < step.i ==> q.urbQueue[j].ep != q.urbQueue[step.i].ep)
  }

  function Run(q: Q, steps: seq<Step>): Q {
    if steps == [] then q else Apply(Run(q, steps[..|steps| - 1]), steps[|steps| - 1])
  }

  predicate LegalRun(q: Q, steps: seq<Step>) {
    steps == [] || (LegalRun(q, steps[..|steps| - 1]) && Legal(Run(q, steps[..|steps| - 1]), steps[|steps| - 1]))
  }

  lemma Extend(q: Q, steps: seq<Step>, step: Step)
    ensures Run(q, steps + [step]) == Apply(Run(q, steps), step)
    ensures LegalRun(q, steps + [step]) <==> LegalRun(q, steps) && Legal(Run(q, steps), step)
  {
    assert (steps + [step])[..|steps + [step]| - 1] == steps;
  }

  // ---------------------------------------------------------------------------------------------
  // Completion order.
  // ---------------------------------------------------------------------------------------------

  ghost predicate Arrived(q: Q) {
    && (forall i, j :: 0 <= i < j < |q.urbQueue| ==> q.urbQueue[i].no < q.urbQueue[j].no)
    && (forall i :: 0 <= i < |q.urbQueue| ==> q.urbQueue[i].no < q.nextNo)
    && (forall u :: u in q.done ==> u.no < q.nextNo)
  }

  /** What is done came before what is queued on the same endpoint. */
  ghost predicate InOrder(q: Q) {
    && (forall u, i :: u in q.done && 0 <= i < |q.urbQueue| && u.ep == q.urbQueue[i].ep ==> u.no < q.urbQueue[i].no)
    && (forall i, j :: 0 <= i < j < |q.done| && q.done[i].ep == q.done[j].ep ==> q.done[i].no < q.done[j].no)
  }

  lemma SubmitOrder(q: Q, s: nat, ep: Option<nat>)
    requires Arrived(q) && InOrder(q)
    ensures Arrived(DoReceive(q, Submit(s, ep))) && InOrder(DoReceive(q, Submit(s, ep)))
  {
  }

  lemma UnlinkOrder(q: Q, u: nat, t: nat)
    requires Arrived(q) && InOrder(q)
    ensures Arrived(DoReceive(q, Unlink(u, t))) && InOrder(DoReceive(q, Unlink(u, t)))
  {
  }

  lemma ReceiveOrder(q: Q, rx: Rx)
    requires Arrived(q) && InOrder(q)
    ensures Arrived(DoReceive(q, rx)) && InOrder(DoReceive(q, rx))
  {
    match rx
    case Submit(s, ep) => SubmitOrder(q, s, ep);
    case Unlink(u, t) => UnlinkOrder(q, u, t);
  }

  lemma Later(q: Q, i: nat, k: nat)
    requires Arrived(q) && i < |q.urbQueue| && k < |q.urbQueue| - 1
    requires forall j :: 0 <= j < i ==> q.urbQueue[j].ep != q.urbQueue[i].ep
    ensures var x := (q.urbQueue[..i] + q.urbQueue[i + 1..])[k];
            x == q.urbQueue[if k < i then k else k + 1] && (x.ep == q.urbQueue[i].ep ==> q.urbQueue[i].no < x.no)
  {
  }

  lemma ReturnArrived(q: Q, i: nat)
    requires Arrived(q) && i < |q.urbQueue|
    ensures Arrived(DoReturn(q, i))
  {
    var d := DoReturn(q, i);
    assert forall k :: 0 <= k < |d.urbQueue| ==> d.urbQueue[k] == q.urbQueue[if k < i then k else k + 1];
  }

  lemma ReturnOrder(q: Q, i: nat)
    requires Arrived(q) && InOrder(q) && Legal(q, Return(i))
    ensures InOrder(DoReturn(q, i))
  {
    var d := DoReturn(q, i);
    var u := q.urbQueue[i];
    assert forall k :: 0 <= k < |d.urbQueue| ==> d.urbQueue[k] == q.urbQueue[if k < i then k else k + 1];
    if !u.unlinked {
      forall k | 0 <= k < |d.urbQueue| && d.urbQueue[k].ep == u.ep ensures u.no < d.urbQueue[k].no {
        Later(q, i, k);
      }
      forall k | 0 <= k < |q.done| && q.done[k].ep == u.ep ensures q.done[k].no < u.no {
        assert q.done[k] in q.done;
      }
    }
  }

  lemma {:induction false} RunOrder(q: Q, steps: seq<Step>)
    requires Arrived(q) && InOrder(q) && LegalRun(q, steps)
    ensures Arrived(Run(q, steps)) && InOrder(Run(q, steps))
  {
    if steps != [] {
      var front, last := steps[..|steps| - 1], steps[|steps| - 1];
      RunOrder(q, front);
      if last.Receive? {
        ReceiveOrder(Run(q, front), last.rx);
      } else {
        ReturnArrived(Run(q, front), last.i);
        ReturnOrder(Run(q, front), last.i);
      }
    }
  }

  /** URBs that were not unlinked complete in arrival order on each endpoint. */
  lemma CompletionOrder(steps: seq<Step>, i: nat, j: nat)
    requires LegalRun(Empty, steps)
    requires var d := Run(Empty, steps).done; i < j < |d| && d[i].ep == d[j].ep
    ensures Run(Empty, steps).done[i].no < Run(Empty, steps).done[j].no
  {
    RunOrder(Empty, steps);
  }

  // ---------------------------------------------------------------------------------------------
  // One reply for each URB that leaves.
  // ---------------------------------------------------------------------------------------------

  predicate Prefix(a: seq<P.Ret>, b: seq<P.Ret>) { |a| <= |b| && b[..|a|] == a }

  lemma {:induction false} RepliesKept(q: Q, steps: seq<Step>, k: nat)
    requires k <= |steps|
    ensures Prefix(Run(q, steps[..k]).txQueue, Run(q, steps).txQueue)
  {
    if k == |steps| {
      assert steps[..k] == steps;
    } else {
      var front := steps[..|steps| - 1];
      assert front[..k] == steps[..k];
      RepliesKept(q, front, k);
      assert Prefix(Run(q, front).txQueue, Run(q, steps).txQueue);
    }
  }

  /**
   Each return takes one URB off the queue and appends one reply, a RET_SUBMIT exactly if the URB was
   not unlinked; the replies of different returns stand at different places of the reply queue.
   */
  lemma OneReplyEach(q: Q, steps: seq<Step>, k: nat, m: nat)
    requires LegalRun(q, steps) && k < |steps| && steps[k].Return?
    ensures var y, z := Run(q, steps[..k]), Run(q, steps[..k + 1]);
            var at, i := |y.txQueue|, steps[k].i;
            && i < |y.urbQueue| && |z.urbQueue| == |y.urbQueue| - 1
            && at < |Run(q, steps).txQueue| && Run(q, steps).txQueue[at] == Answer(y.urbQueue[i])
            && (Answer(y.urbQueue[i]).RetSubmit? <==> !y.urbQueue[i].unlinked)
            && Answer(y.urbQueue[i]).seqnum == y.urbQueue[i].seqnum
            && (k < m <= |steps| ==> at < |Run(q, steps[..m]).txQueue|)
  {
    var y, z := Run(q, steps[..k]), Run(q, steps[..k + 1]);
    LegalAt(q, steps, k);
    assert steps[..k + 1][..k] == steps[..k];
    RepliesKept(q, steps, k + 1);
    assert Run(q, steps).txQueue[..|z.txQueue|][|y.txQueue|] == Answer(y.urbQueue[steps[k].i]);
    if k < m <= |steps| {
      assert steps[..m][..k + 1] == steps[..k + 1];
      RepliesKept(q, steps[..m], k + 1);
    }
  }

  lemma {:induction false} LegalAt(q: Q, steps: seq<Step>, k: nat)
    requires LegalRun(q, steps) && k < |steps|
    ensures Legal(Run(q, steps[..k]), steps[k])
  {
    if k < |steps| - 1 {
      var front := steps[..|steps| - 1];
      assert front[..k] == steps[..k];
      LegalAt(q, front, k);
    }
  }

  // ---------------------------------------------------------------------------------------------
  // The same queue, as the protocol sees it.
  // ---------------------------------------------------------------------------------------------

  function View(q: Q): V.Vudc { V.Vudc(Entries(q.urbQueue), q.txQueue) }

  function Command(rx: Rx): P.Cmd {
    match rx
    case Submit(s, _) => P.CmdSubmit(s)
    case Unlink(u, t) => P.CmdUnlink(u, t)
  }

  /** Every step is a step of the server that module Vudc composes with the client. */
  lemma StepAgrees(q: Q, step: Step)
    ensures View(Apply(q, step)) ==
            match step
            case Receive(rx) => V.RecvCmd(View(q), Command(rx))
            case Return(i) => V.Return(View(q), i)
  {
    var z, es := Apply(q, step), Entries(q.urbQueue);
    match step {
      case Receive(Submit(s, ep)) => assert Entries(z.urbQueue) == es + [P.Entry(s, false)];
      case Receive(Unlink(u, t)) =>
        var i := Servers.Find(es, t);
        if i < |es| {
          assert Entries(z.urbQueue) == es[i := P.Entry(u, true)];
        }
      case Return(i) =>
        if i < |es| {
          assert Entries(z.urbQueue) == es[..i] + es[i + 1..];
        }
    }
  }
}
