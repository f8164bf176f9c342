/** The gadget-side server, usbip-vudc, as the protocol sees it: one list of requests, one FIFO of replies. */
module Vudc {
  import opened Lists
  import opened Errno
  import P = Protocol
  import opened Servers

  datatype Vudc = Vudc(urbQueue: seq<P.Entry>, txQueue: seq<P.Ret>)

  function RecvCmd(v: Vudc, cmd: P.Cmd): Vudc {
    Vudc(QueueAfter(v.urbQueue, cmd),
         if Misses(v.urbQueue, cmd) then v.txQueue + [P.RetUnlink(cmd.seqnum, OK)] else v.txQueue)
  }

  /** return_urb in v_timer: the reply is a RET_SUBMIT unless the URB was unlinked. */
  function Answer(e: P.Entry): P.Ret {
    if e.unlinked then P.RetUnlink(e.seqnum, ECONNRESET) else P.RetSubmit(e.seqnum)
  }

  function Return(v: Vudc, i: nat): Vudc {
    if i >= |v.urbQueue| then v else
    Vudc(v.urbQueue[..i] + v.urbQueue[i + 1..], v.txQueue + [Answer(v.urbQueue[i])])
  }

  // ---------------------------------------------------------------------------------------------
  // The FIFO against the protocol's bag of replies.
  // ---------------------------------------------------------------------------------------------

  ghost predicate SameOut(v: Vudc, a: P.Sys) {
    NoDup(v.txQueue) && forall r :: r in a.out <==> r in v.txQueue
  }

  /** The FIFO keeps a RET_SUBMIT ahead of the RET_UNLINK that follows it. */
  ghost predicate InOrder(v: Vudc, targetOf: map<nat, nat>) {
    forall i, j :: 0 <= i < j < |v.txQueue| && v.txQueue[i].RetUnlink? && v.txQueue[i].seqnum in targetOf
      ==> v.txQueue[j] != P.RetSubmit(targetOf[v.txQueue[i].seqnum])
  }

  lemma ReturnOut(v: Vudc, a: P.Sys, i: nat)
    requires P.Submits(a) && P.Unlinks(a) && P.Names(a.c) && SameOut(v, a) && i < |v.urbQueue| && v.urbQueue[i] in a.queue
    ensures SameOut(Return(v, i), P.DoComplete(a, v.urbQueue[i], ECONNRESET))
  {
    assert Answer(v.urbQueue[i]) !in a.out;
  }

  lemma ReturnOrder(v: Vudc, a: P.Sys, i: nat)
    requires P.Submits(a) && P.Unlinks(a) && P.Targets(a) && P.Names(a.c) && SameOut(v, a)
    requires InOrder(v, a.c.targetOf) && i < |v.urbQueue| && v.urbQueue[i] in a.queue
    ensures InOrder(Return(v, i), a.c.targetOf)
  {
    var e := v.urbQueue[i];
    forall k | 0 <= k < |v.txQueue| && v.txQueue[k].RetUnlink? && v.txQueue[k].seqnum in a.c.targetOf
      ensures Answer(e) != P.RetSubmit(a.c.targetOf[v.txQueue[k].seqnum])
    {
      assert v.txQueue[k] in a.out;
    }
  }

  lemma RecvOut(v: Vudc, a: P.Sys)
    requires P.Submits(a) && P.Unlinks(a) && P.Names(a.c) && a.up != [] && SameOut(v, a)
    requires a.up[0].CmdUnlink? ==> (Misses(v.urbQueue, a.up[0]) <==> P.Entry(a.up[0].target, false) !in a.queue)
    ensures SameOut(RecvCmd(v, a.up[0]), P.DoServerRecv(a))
  {
    assert a.up[0] in a.up;
    if a.up[0].CmdUnlink? {
      assert P.RetUnlink(a.up[0].seqnum, OK) !in a.out;
    }
  }

  lemma SendOut(v: Vudc, a: P.Sys)
    requires SameOut(v, a) && v.txQueue != []
    ensures SameOut(v.(txQueue := v.txQueue[1..]), P.DoReply(a, v.txQueue[0])) && v.txQueue[0] in a.out
    ensures InOrder(v, a.c.targetOf) ==> P.Disciplined(a, P.Reply(v.txQueue[0]))
  {
    TailMembers(v.txQueue);
    assert v.txQueue[0] in v.txQueue;
  }
}
