/**
 The submit/unlink protocol: a client and a server joined by two FIFO byte streams.

 The server is seen as two bags: the requests it still holds and the replies it has not sent yet.
 Both servers of the repository are instances (modules Vudc and Stub).
 */
module Protocol {
  import opened Lists
  import opened Errno
  import C = Client

  datatype Cmd = CmdSubmit(seqnum: nat) | CmdUnlink(seqnum: nat, target: nat)

  datatype Ret = RetSubmit(seqnum: nat) | RetUnlink(seqnum: nat, status: int)

  /** A request held by the server; once unlinked it carries the unlink's sequence number. */
  datatype Entry = Entry(seqnum: nat, unlinked: bool)

  /** Where a sent sequence number has got to: a history variable, read by no step. */
  datatype Phase = Upward | Held | Outgoing | Downward | Received | Withdrawn

  datatype Sys = Sys(
    c: C.Client,
    up: seq<Cmd>,
    queue: set<Entry>,
    out: set<Ret>,
    down: seq<Ret>,
    phase: map<nat, Phase>)

  const Initial := Sys(C.Initial, [], {}, {}, [], map[])

  datatype Step =
    | Enqueue(urb: nat)
    | Dequeue(urb: nat)
    | OtherPort
    | SendSubmit
    | SendUnlink
    | Recv
    | FinishUnlink
    | Giveback(s: nat)
    | ServerRecv
    | Complete(e: Entry, status: int)
    | Reply(r: Ret)

  function DoSendSubmit(y: Sys): Sys {
    if y.c.privTx == [] then y else
    var s := y.c.privTx[0];
    y.(c := C.SendSubmit(y.c), up := y.up + [CmdSubmit(s)], phase := y.phase[s := Upward])
  }

  function DoSendUnlink(y: Sys): Sys {
    if y.c.unlinkTx == [] || y.c.unlinkTx[0] !in y.c.targetOf then y else
    var u := y.c.unlinkTx[0];
    y.(c := C.SendUnlink(y.c), up := y.up + [CmdUnlink(u, y.c.targetOf[u])], phase := y.phase[u := Upward])
  }

  function TakeRetSubmit(y: Sys, s: nat, rest: seq<Ret>): Sys {
    y.(c := C.RecvRetSubmit(y.c, s), down := rest, phase := y.phase[s := Received])
  }

  function TakeRetUnlink(y: Sys, u: nat, status: int, rest: seq<Ret>): Sys {
    y.(c := C.RecvRetUnlink(y.c, u, status), down := rest, phase := y.phase[u := Received])
  }

  /** A reply whose record is not found changes nothing but the stream. */
  function DoRecv(y: Sys): Sys {
    if y.down == [] || y.c.inHand.Some? then y else
    match y.down[0]
    case RetSubmit(s) => TakeRetSubmit(y, s, y.down[1..])
    case RetUnlink(u, status) => TakeRetUnlink(y, u, status, y.down[1..])
  }

  function Accept(y: Sys, s: nat, rest: seq<Cmd>): Sys {
    y.(up := rest, queue := y.queue + {Entry(s, false)}, phase := y.phase[s := Held])
  }

  /** The matched entry takes over the unlink's sequence number. */
  function Withdraw(y: Sys, u: nat, t: nat, rest: seq<Cmd>): Sys {
    y.(up := rest, queue := y.queue - {Entry(t, false)} + {Entry(u, true)}, phase := y.phase[t := Withdrawn][u := Held])
  }

  function Miss(y: Sys, u: nat, rest: seq<Cmd>): Sys {
    y.(up := rest, out := y.out + {RetUnlink(u, OK)}, phase := y.phase[u := Outgoing])
  }

  function DoServerRecv(y: Sys): Sys {
    if y.up == [] then y else
    match y.up[0]
    case CmdSubmit(s) => Accept(y, s, y.up[1..])
    case CmdUnlink(u, t) =>
      if Entry(t, false) in y.queue then Withdraw(y, u, t, y.up[1..]) else Miss(y, u, y.up[1..])
  }

  function DoComplete(y: Sys, e: Entry, status: int): Sys {
    if e !in y.queue then y else
    var r := if e.unlinked then RetUnlink(e.seqnum, status) else RetSubmit(e.seqnum);
    y.(queue := y.queue - {e}, out := y.out + {r}, phase := y.phase[e.seqnum := Outgoing])
  }

  function DoReply(y: Sys, r: Ret): Sys {
    if r !in y.out then y else
    y.(out := y.out - {r}, down := y.down + [r], phase := y.phase[r.seqnum := Downward])
  }

  function Apply(y: Sys, step: Step): Sys {
    match step
    case Enqueue(urb) => y.(c := C.Enqueue(y.c, urb))
    case Dequeue(urb) => y.(c := C.Dequeue(y.c, urb))
    case OtherPort => y.(c := C.Apply(y.c, C.OtherPort))
    case SendSubmit => DoSendSubmit(y)
    case SendUnlink => DoSendUnlink(y)
    case Recv => DoRecv(y)
    case FinishUnlink => y.(c := C.FinishUnlink(y.c))
    case Giveback(s) => y.(c := C.Giveback(y.c, s))
    case ServerRecv => DoServerRecv(y)
    case Complete(e, status) => DoComplete(y, e, status)
    case Reply(r) => DoReply(y, r)
  }

  /**
   The two ordering duties: no UNLINK leaves while its SUBMIT waits in priv_tx, and no RET_UNLINK
   leaves while the RET_SUBMIT of its target waits.
   */
  predicate Disciplined(y: Sys, step: Step) {
    match step
    case SendUnlink =>
      y.c.unlinkTx != [] && y.c.unlinkTx[0] in y.c.targetOf ==> y.c.targetOf[y.c.unlinkTx[0]] !in y.c.privTx
    case Reply(RetUnlink(u, _)) => u in y.c.targetOf ==> RetSubmit(y.c.targetOf[u]) !in y.out
    case _ => true
  }

  // ---------------------------------------------------------------------------------------------
  // The invariant.
  // ---------------------------------------------------------------------------------------------

  predicate In(y: Sys, s: nat, p: Phase) { s in y.phase && y.phase[s] == p }

  ghost predicate Domain(y: Sys) { C.Inv(y.c) && y.c.connected && Phased(y) }

  /** The numbers with a phase are those that were sent. */
  ghost predicate Phased(y: Sys) {
    && (forall s :: s in y.phase ==> s in y.c.urbOf || s in y.c.targetOf)
    && (forall s :: s in y.c.urbOf ==> (s in y.phase <==> s !in y.c.privTx))
    && (forall u :: u in y.c.targetOf ==> (u in y.phase <==> u !in y.c.unlinkTx))
  }

  ghost predicate Submits(y: Sys) {
    && (forall s :: CmdSubmit(s) in y.up <==> s in y.c.urbOf && In(y, s, Upward))
    && (forall s :: Entry(s, false) in y.queue <==> s in y.c.urbOf && In(y, s, Held))
    && (forall s :: RetSubmit(s) in y.out <==> s in y.c.urbOf && In(y, s, Outgoing))
    && (forall s :: RetSubmit(s) in y.down <==> s in y.c.urbOf && In(y, s, Downward))
    && (forall s :: s in y.c.privRx ==> s in y.phase && y.phase[s] != Received)
    && (forall s :: s in y.c.urbOf && s in y.phase && y.phase[s] != Received && y.phase[s] != Withdrawn
          ==> s in y.c.privRx)
  }

  ghost predicate Unlinks(y: Sys) {
    && (forall u, t :: CmdUnlink(u, t) in y.up ==> u in y.c.targetOf && y.c.targetOf[u] == t && In(y, u, Upward))
    && (forall u :: Entry(u, true) in y.queue ==> u in y.c.targetOf && In(y, u, Held))
    && (forall u, status :: RetUnlink(u, status) in y.out ==> u in y.c.targetOf && In(y, u, Outgoing))
    && (forall u, status :: RetUnlink(u, status) in y.down ==> u in y.c.targetOf && In(y, u, Downward))
    && (forall u :: u in y.c.targetOf && u in y.phase ==>
          y.phase[u] != Withdrawn && (y.phase[u] != Received <==> u in y.c.unlinkRx))
  }

  ghost predicate Settled(y: Sys, t: nat) {
    t in y.phase && y.phase[t] != Upward && y.phase[t] != Held
  }

  /** How far a submission is, given how far its unlink is. */
  ghost predicate Targets(y: Sys) {
    forall u :: u in y.c.targetOf ==>
      var t := y.c.targetOf[u];
      && (u !in y.phase ==> !In(y, t, Withdrawn))
      && (u in y.phase ==>
            && t in y.phase
            && (y.phase[u] == Upward ==> y.phase[t] != Withdrawn)
            && (y.phase[u] == Held ==> y.phase[t] == Withdrawn)
            && (y.phase[u] == Outgoing ==> Settled(y, t))
            && (y.phase[u] == Downward ==> Settled(y, t) && y.phase[t] != Outgoing)
            && (y.phase[u] == Received ==> y.phase[t] == Received || y.phase[t] == Withdrawn))
  }

  ghost predicate UpOrder(y: Sys) {
    && NoDup(y.up)
    && (forall i, j :: 0 <= i < j < |y.up| && y.up[i].CmdUnlink? ==> y.up[j] != CmdSubmit(y.up[i].target))
  }

  ghost predicate DownOrder(y: Sys) {
    && (forall i, j :: 0 <= i < j < |y.down| ==> y.down[i].seqnum != y.down[j].seqnum)
    && (forall i, j :: 0 <= i < j < |y.down| && y.down[i].RetUnlink? && y.down[i].seqnum in y.c.targetOf
          ==> y.down[j] != RetSubmit(y.c.targetOf[y.down[i].seqnum]))
  }

  ghost predicate OutUnique(y: Sys) {
    forall r, q :: r in y.out && q in y.out && r.seqnum == q.seqnum ==> r == q
  }

  /** A submission that left by the RET_UNLINK path was withdrawn by the server. */
  ghost predicate Outcomes(y: Sys) {
    forall s :: s in y.c.outcome ==>
      && s in y.phase
      && (y.c.outcome[s].Cancelled? ==> y.phase[s] == Withdrawn)
      && (y.c.outcome[s].Completed? ==> y.phase[s] == Received)
  }

  ghost predicate Caused(y: Sys) {
    forall t :: t in y.phase && y.phase[t] == Withdrawn ==> exists u :: u in y.c.targetOf && y.c.targetOf[u] == t
  }

  ghost predicate Inv(y: Sys) {
    Domain(y) && Submits(y) && Unlinks(y) && Rest(y)
  }

  // ---------------------------------------------------------------------------------------------
  // Every disciplined step keeps it.  The server's steps leave the client alone.
  // ---------------------------------------------------------------------------------------------

  /** All the server's steps need to know of the client. */
  ghost predicate Names(c: C.Client) {
    && (forall s :: s in c.urbOf ==> s !in c.targetOf)
    && (forall u :: u in c.targetOf ==> c.targetOf[u] in c.urbOf)
    && (forall s :: s in c.privRx ==> s in c.urbOf)
  }

  /** A token that moves on keeps the domain. */
  lemma MoveKeeps(y: Sys, z: Sys, s: nat, p: Phase)
    requires Domain(y) && z.c == y.c && s in y.phase && z.phase == y.phase[s := p]
    ensures Domain(z)
  {
  }

  lemma CompleteSubmits(y: Sys, e: Entry, status: int)
    requires Submits(y) && Unlinks(y) && Names(y.c) && e in y.queue
    ensures Submits(DoComplete(y, e, status))
  {
  }

  lemma CompleteUnlinks(y: Sys, e: Entry, status: int)
    requires Submits(y) && Unlinks(y) && Names(y.c) && e in y.queue
    ensures Unlinks(DoComplete(y, e, status))
  {
  }

  lemma CompleteTargets(y: Sys, e: Entry, status: int)
    requires Submits(y) && Unlinks(y) && Names(y.c) && e in y.queue && Targets(y)
    ensures Targets(DoComplete(y, e, status))
  {
  }

  lemma CompleteOut(y: Sys, e: Entry, status: int)
    requires Submits(y) && Unlinks(y) && Names(y.c) && e in y.queue && OutUnique(y)
    ensures OutUnique(DoComplete(y, e, status))
  {
  }

  /** A token that is neither received nor withdrawn moves to a phase that is not Withdrawn. */
  lemma MoveOutcomes(y: Sys, z: Sys, s: nat, p: Phase)
    requires Outcomes(y) && Caused(y) && z.c == y.c && s in y.phase && z.phase == y.phase[s := p]
    requires y.phase[s] != Received && y.phase[s] != Withdrawn && p != Withdrawn
    ensures Outcomes(z) && Caused(z)
  {
  }

  lemma CompleteRest(y: Sys, e: Entry, status: int)
    requires Submits(y) && Unlinks(y) && Names(y.c) && e in y.queue && Rest(y)
    ensures Rest(DoComplete(y, e, status)) && e.seqnum in y.phase && y.phase[e.seqnum] == Held
  {
    CompleteTargets(y, e, status);
    CompleteOut(y, e, status);
    MoveOutcomes(y, DoComplete(y, e, status), e.seqnum, Outgoing);
  }

  lemma ReplySubmits(y: Sys, r: Ret)
    requires Submits(y) && Unlinks(y) && Names(y.c) && r in y.out
    ensures Submits(DoReply(y, r))
  {
  }

  lemma ReplyUnlinks(y: Sys, r: Ret)
    requires Submits(y) && Unlinks(y) && Names(y.c) && r in y.out && OutUnique(y)
    ensures Unlinks(DoReply(y, r))
  {
  }

  lemma ReplyTargets(y: Sys, r: Ret)
    requires Submits(y) && Unlinks(y) && Names(y.c) && r in y.out && Targets(y) && Disciplined(y, Reply(r))
    ensures Targets(DoReply(y, r))
  {
  }

  /** What leaves now is behind everything on the stream, and no earlier RET_UNLINK waits for it. */
  lemma ReplyOrder(y: Sys, r: Ret)
    requires Submits(y) && Unlinks(y) && Names(y.c) && r in y.out && Targets(y) && DownOrder(y)
    ensures DownOrder(DoReply(y, r))
  {
    var z := DoReply(y, r);
    var n := |y.down|;
    forall i | 0 <= i < n
      ensures y.down[i].seqnum != r.seqnum
      ensures y.down[i].RetUnlink? && y.down[i].seqnum in y.c.targetOf
              ==> r != RetSubmit(y.c.targetOf[y.down[i].seqnum])
    {
      assert y.down[i] in y.down;
      if y.down[i].RetUnlink? {
        assert In(y, y.down[i].seqnum, Downward);
      } else {
        assert In(y, y.down[i].seqnum, Downward);
      }
    }
  }

  lemma ReplyRest(y: Sys, r: Ret)
    requires Submits(y) && Unlinks(y) && Names(y.c) && r in y.out && Rest(y) && Disciplined(y, Reply(r))
    ensures Rest(DoReply(y, r)) && r.seqnum in y.phase && y.phase[r.seqnum] == Outgoing
  {
    ReplyTargets(y, r);
    ReplyOrder(y, r);
    MoveOutcomes(y, DoReply(y, r), r.seqnum, Downward);
  }

  /** The stream is m and then rest, and m is not in it again. */
  ghost predicate Popped(y: Sys, m: Cmd, rest: seq<Cmd>) {
    m !in rest && (forall x :: x in y.up <==> x == m || x in rest)
  }

  ghost predicate Arriving(y: Sys, m: Cmd, rest: seq<Cmd>) {
    Submits(y) && Unlinks(y) && Names(y.c) && Popped(y, m, rest)
  }

  lemma AcceptSubmits(y: Sys, s: nat, rest: seq<Cmd>)
    requires Submits(y) && Popped(y, CmdSubmit(s), rest)
    ensures Submits(Accept(y, s, rest))
  {
  }

  lemma AcceptTargets(y: Sys, s: nat, rest: seq<Cmd>)
    requires Targets(y) && In(y, s, Upward) && s !in y.c.targetOf
    ensures Targets(Accept(y, s, rest))
  {
  }

  lemma AcceptUnlinks(y: Sys, s: nat, rest: seq<Cmd>)
    requires Unlinks(y) && Popped(y, CmdSubmit(s), rest) && s !in y.c.targetOf
    ensures Unlinks(Accept(y, s, rest))
  {
  }

  lemma WithdrawSubmits(y: Sys, u: nat, t: nat, rest: seq<Cmd>)
    requires Submits(y) && Popped(y, CmdUnlink(u, t), rest) && Entry(t, false) in y.queue && u !in y.c.urbOf
    ensures Submits(Withdraw(y, u, t, rest))
  {
  }

  lemma WithdrawUnlinks(y: Sys, u: nat, t: nat, rest: seq<Cmd>)
    requires Unlinks(y) && Popped(y, CmdUnlink(u, t), rest) && t !in y.c.targetOf
    ensures Unlinks(Withdraw(y, u, t, rest))
  {
  }

  lemma WithdrawTargets(y: Sys, u: nat, t: nat, rest: seq<Cmd>)
    requires Arriving(y, CmdUnlink(u, t), rest) && Entry(t, false) in y.queue
    requires Targets(y) && C.OneUnlink(y.c)
    ensures Targets(Withdraw(y, u, t, rest))
  {
  }

  lemma MissSubmits(y: Sys, u: nat, t: nat, rest: seq<Cmd>)
    requires Submits(y) && Popped(y, CmdUnlink(u, t), rest) && u !in y.c.urbOf
    ensures Submits(Miss(y, u, rest))
  {
  }

  lemma MissOut(y: Sys, u: nat, t: nat, rest: seq<Cmd>)
    requires Submits(y) && Unlinks(y) && In(y, u, Upward) && OutUnique(y)
    ensures OutUnique(Miss(y, u, rest))
  {
  }

  lemma MissUnlinks(y: Sys, u: nat, t: nat, rest: seq<Cmd>)
    requires Unlinks(y) && Popped(y, CmdUnlink(u, t), rest)
    ensures Unlinks(Miss(y, u, rest))
  {
  }

  /** The target was received before its unlink, so it is settled. */
  lemma MissTargets(y: Sys, u: nat, t: nat, rest: seq<Cmd>)
    requires Arriving(y, CmdUnlink(u, t), rest) && Entry(t, false) !in y.queue
    requires Targets(y) && CmdSubmit(t) !in y.up
    ensures Targets(Miss(y, u, rest))
  {
  }

  // The client's steps.

  ghost predicate Fresh(y: Sys, n: nat) {
    n !in y.phase && n !in y.c.urbOf && n !in y.c.targetOf
  }

  /** Everything that reads neither the lists nor the URBs. */
  ghost predicate Rest(y: Sys) {
    Targets(y) && Caused(y) && UpOrder(y) && DownOrder(y) && OutUnique(y) && Outcomes(y)
  }

  lemma SameRest(y: Sys, z: Sys)
    requires Rest(y)
    requires z.up == y.up && z.down == y.down && z.out == y.out && z.phase == y.phase
    requires z.c.targetOf == y.c.targetOf && z.c.outcome == y.c.outcome
    ensures Rest(z)
  {
  }

  lemma EnqueueFits(y: Sys, urb: nat)
    requires Domain(y) && urb !in y.c.hcpriv
    ensures Domain(Apply(y, Enqueue(urb))) && Fresh(y, y.c.counter + 1)
  {
    C.EnqueueInv(y.c, urb);
    EnqueuePhased(y, urb);
  }

  lemma EnqueuePhased(y: Sys, urb: nat)
    requires Phased(y) && C.Numbered(y.c) && urb !in y.c.hcpriv
    ensures Phased(Apply(y, Enqueue(urb))) && Fresh(y, y.c.counter + 1)
  {
  }

  lemma EnqueueSubmits(y: Sys, urb: nat)
    requires Submits(y) && Fresh(y, y.c.counter + 1)
    ensures Submits(Apply(y, Enqueue(urb)))
  {
  }

  lemma EnqueueUnlinks(y: Sys, urb: nat)
    requires Unlinks(y) && Fresh(y, y.c.counter + 1)
    ensures Unlinks(Apply(y, Enqueue(urb)))
  {
  }

  lemma EnqueueInv(y: Sys, urb: nat)
    requires Inv(y)
    ensures Inv(Apply(y, Enqueue(urb)))
  {
    if urb !in y.c.hcpriv {
      EnqueueFits(y, urb);
      EnqueueSubmits(y, urb);
      EnqueueUnlinks(y, urb);
      SameRest(y, Apply(y, Enqueue(urb)));
    }
  }

  lemma DequeueFits(y: Sys, urb: nat)
    requires Domain(y) && urb in y.c.hcpriv && urb !in y.c.marked
    ensures Domain(Apply(y, Dequeue(urb))) && Fresh(y, y.c.counter + 1) && y.c.connected
  {
    C.OpenDequeueInv(y.c, urb);
  }

  lemma DequeuePlaces(y: Sys, urb: nat)
    requires Submits(y) && Unlinks(y) && Fresh(y, y.c.counter + 1) && y.c.connected
    ensures Submits(Apply(y, Dequeue(urb))) && Unlinks(Apply(y, Dequeue(urb)))
  {
  }

  lemma DequeueTarget(y: Sys, urb: nat)
    requires C.Inv(y.c) && Caused(y) && urb in y.c.hcpriv && urb !in y.c.marked
    ensures !In(y, y.c.hcpriv[urb], Withdrawn)
  {
    assert y.c.Queued(y.c.hcpriv[urb]);
  }

  lemma DequeueRest(y: Sys, urb: nat)
    requires Unlinks(y) && Rest(y) && Fresh(y, y.c.counter + 1) && y.c.connected
    requires urb in y.c.hcpriv ==> !In(y, y.c.hcpriv[urb], Withdrawn)
    ensures Rest(Apply(y, Dequeue(urb)))
  {
    var z := Apply(y, Dequeue(urb));
    assert forall u :: u in y.c.targetOf ==> z.c.targetOf[u] == y.c.targetOf[u];
    assert DownOrder(z) by {
      assert forall i :: 0 <= i < |y.down| ==> y.down[i] in y.down;
    }
  }

  lemma DequeueInv(y: Sys, urb: nat)
    requires Inv(y)
    ensures Inv(Apply(y, Dequeue(urb)))
  {
    if urb in y.c.hcpriv && urb !in y.c.marked {
      DequeueFits(y, urb);
      DequeuePlaces(y, urb);
      DequeueTarget(y, urb);
      DequeueRest(y, urb);
    }
  }

  /** A submission about to be sent: on no list but priv_tx, and at no phase. */
  ghost predicate Leaving(y: Sys, s: nat, rest: seq<nat>) {
    && y.c.connected && y.c.privTx == [s] + rest && s !in rest
    && s !in y.phase && s in y.c.urbOf && s !in y.c.targetOf
  }

  lemma SendSubmitFits(y: Sys)
    requires Domain(y) && y.c.privTx != []
    ensures Domain(DoSendSubmit(y)) && Leaving(y, y.c.privTx[0], y.c.privTx[1..])
  {
    C.SendSubmitInv(y.c);
    TailMembers(y.c.privTx);
    SendSubmitPhased(y);
    assert y.c.privTx[0] in y.c.privTx;
  }

  lemma SendSubmitPhased(y: Sys)
    requires Phased(y) && C.Numbered(y.c) && C.Ordered(y.c) && y.c.connected
    ensures Phased(DoSendSubmit(y))
  {
    if y.c.privTx != [] {
      TailMembers(y.c.privTx);
    }
  }

  lemma SendSubmitSubmits(y: Sys, s: nat, rest: seq<nat>)
    requires Submits(y) && Leaving(y, s, rest)
    ensures Submits(DoSendSubmit(y))
  {
  }

  lemma SendSubmitUnlinks(y: Sys, s: nat, rest: seq<nat>)
    requires Unlinks(y) && Leaving(y, s, rest)
    ensures Unlinks(DoSendSubmit(y))
  {
  }

  lemma SendSubmitRest(y: Sys, s: nat, rest: seq<nat>)
    requires Unlinks(y) && Rest(y) && Leaving(y, s, rest) && CmdSubmit(s) !in y.up
    ensures Rest(DoSendSubmit(y))
  {
    var z := DoSendSubmit(y);
    forall i | 0 <= i < |y.up| && y.up[i].CmdUnlink? ensures y.up[i].target != s {
      assert y.up[i] in y.up;
    }
  }

  lemma SendSubmitInv(y: Sys)
    requires Inv(y)
    ensures Inv(DoSendSubmit(y))
  {
    if y.c.privTx != [] {
      var s, rest := y.c.privTx[0], y.c.privTx[1..];
      SendSubmitFits(y);
      SendSubmitSubmits(y, s, rest);
    SendSubmitUnlinks(y, s, rest);
      assert CmdSubmit(s) !in y.up;
      SendSubmitRest(y, s, rest);
    }
  }

  ghost predicate LeavingUnlink(y: Sys, u: nat, rest: seq<nat>) {
    && y.c.connected && y.c.unlinkTx == [u] + rest && u !in rest
    && u !in y.phase && u in y.c.targetOf && u !in y.c.urbOf && y.c.targetOf[u] in y.phase
  }

  lemma SendUnlinkFits(y: Sys)
    requires Domain(y) && y.c.unlinkTx != [] && Disciplined(y, SendUnlink)
    ensures Domain(DoSendUnlink(y)) && LeavingUnlink(y, y.c.unlinkTx[0], y.c.unlinkTx[1..])
  {
    C.SendUnlinkInv(y.c);
    TailMembers(y.c.unlinkTx);
    SendUnlinkPhased(y);
    assert y.c.unlinkTx[0] in y.c.unlinkTx;
  }

  lemma SendUnlinkPhased(y: Sys)
    requires Phased(y) && C.Numbered(y.c) && C.Ordered(y.c) && y.c.connected
    ensures Phased(DoSendUnlink(y))
  {
    if y.c.unlinkTx != [] {
      TailMembers(y.c.unlinkTx);
    }
  }

  lemma SendUnlinkSubmits(y: Sys, u: nat, rest: seq<nat>)
    requires Submits(y) && LeavingUnlink(y, u, rest)
    ensures Submits(DoSendUnlink(y))
  {
  }

  lemma SendUnlinkUnlinks(y: Sys, u: nat, rest: seq<nat>)
    requires Unlinks(y) && LeavingUnlink(y, u, rest)
    ensures Unlinks(DoSendUnlink(y))
  {
  }

  lemma SendUnlinkRest(y: Sys, u: nat, rest: seq<nat>)
    requires Unlinks(y) && Rest(y) && LeavingUnlink(y, u, rest)
    ensures Rest(DoSendUnlink(y))
  {
    assert CmdUnlink(u, y.c.targetOf[u]) !in y.up;
  }

  lemma SendUnlinkInv(y: Sys)
    requires Inv(y) && Disciplined(y, SendUnlink)
    ensures Inv(DoSendUnlink(y))
  {
    if y.c.unlinkTx != [] && y.c.unlinkTx[0] in y.c.targetOf {
      var u, rest := y.c.unlinkTx[0], y.c.unlinkTx[1..];
      SendUnlinkFits(y);
      SendUnlinkSubmits(y, u, rest);
      SendUnlinkUnlinks(y, u, rest);
      SendUnlinkRest(y, u, rest);
    }
  }

  /** The head of the reply stream, and what the order says of the rest. */
  ghost predicate Head(y: Sys, r: Ret, rest: seq<Ret>) {
    && y.down == [r] + rest && y.c.connected && y.c.inHand.None?
    && (forall q :: q in rest ==> q.seqnum != r.seqnum)
    && (r.RetUnlink? && r.seqnum in y.c.targetOf ==> RetSubmit(y.c.targetOf[r.seqnum]) !in rest)
  }

  lemma HeadOfDown(y: Sys)
    requires DownOrder(y) && y.down != [] && y.c.connected && y.c.inHand.None?
    ensures Head(y, y.down[0], y.down[1..])
  {
    var r, rest := y.down[0], y.down[1..];
    forall q | q in rest
      ensures q.seqnum != r.seqnum
      ensures r.RetUnlink? && r.seqnum in y.c.targetOf ==> q != RetSubmit(y.c.targetOf[r.seqnum])
    {
      var j :| 0 <= j < |rest| && rest[j] == q;
      assert y.down[j + 1] == q;
    }
  }

  /** Taking the head off the reply stream keeps every order. */
  lemma ShorterDown(y: Sys, z: Sys, r: Ret)
    requires UpOrder(y) && DownOrder(y) && OutUnique(y) && y.down == [r] + z.down
    requires z.up == y.up && z.out == y.out && z.c.targetOf == y.c.targetOf
    ensures UpOrder(z) && DownOrder(z) && OutUnique(z)
  {
    assert forall i :: 0 <= i < |z.down| ==> z.down[i] == y.down[i + 1];
  }

  /** The record of a RET_SUBMIT is on priv_rx. */
  lemma RetSubmitFits(y: Sys, s: nat, rest: seq<Ret>)
    requires Domain(y) && Submits(y) && Head(y, RetSubmit(s), rest)
    ensures Domain(TakeRetSubmit(y, s, rest)) && s in y.c.privRx && s in y.c.urbOf && In(y, s, Downward)
    ensures Without(Remove(y.c.privRx, s), y.c.privRx, s)
  {
    assert RetSubmit(s) in y.down;
    C.PickupInv(y.c, s, C.Completed);
    RetSubmitPhased(y, s, rest);
    RemoveSorted(y.c.privRx, s);
  }

  lemma RetSubmitPhased(y: Sys, s: nat, rest: seq<Ret>)
    requires Phased(y) && s in y.phase
    ensures Phased(TakeRetSubmit(y, s, rest))
  {
  }

  lemma RetSubmitPlaces(y: Sys, s: nat, rest: seq<Ret>)
    requires Submits(y) && Head(y, RetSubmit(s), rest) && s in y.c.privRx && s in y.c.urbOf
    requires Without(Remove(y.c.privRx, s), y.c.privRx, s)
    ensures Submits(TakeRetSubmit(y, s, rest))
  {
  }

  lemma RetSubmitUnlinks(y: Sys, s: nat, rest: seq<Ret>)
    requires Unlinks(y) && Names(y.c) && Head(y, RetSubmit(s), rest) && s in y.c.urbOf
    ensures Unlinks(TakeRetSubmit(y, s, rest))
  {
  }

  lemma RetSubmitTargets(y: Sys, s: nat, rest: seq<Ret>)
    requires Submits(y) && Targets(y) && Names(y.c) && Head(y, RetSubmit(s), rest)
    ensures Targets(TakeRetSubmit(y, s, rest))
  {
    assert RetSubmit(s) in y.down;
  }

  lemma RetSubmitOutcomes(y: Sys, s: nat, rest: seq<Ret>)
    requires Outcomes(y) && Caused(y) && In(y, s, Downward)
    ensures Outcomes(TakeRetSubmit(y, s, rest)) && Caused(TakeRetSubmit(y, s, rest))
  {
  }

  lemma NamesOf(y: Sys)
    requires C.Numbered(y.c)
    ensures Names(y.c)
  {
  }

  lemma RetSubmitRest(y: Sys, s: nat, rest: seq<Ret>)
    requires Submits(y) && Names(y.c) && Head(y, RetSubmit(s), rest) && In(y, s, Downward) && Rest(y)
    ensures Rest(TakeRetSubmit(y, s, rest))
  {
    RetSubmitTargets(y, s, rest);
    RetSubmitOutcomes(y, s, rest);
    ShorterDown(y, TakeRetSubmit(y, s, rest), RetSubmit(s));
  }

  lemma RetSubmitInv(y: Sys, s: nat, rest: seq<Ret>)
    requires Inv(y) && Head(y, RetSubmit(s), rest)
    ensures Inv(TakeRetSubmit(y, s, rest))
  {
    NamesOf(y);
    RetSubmitFits(y, s, rest);
    RetSubmitPlaces(y, s, rest);
    RetSubmitUnlinks(y, s, rest);
    RetSubmitRest(y, s, rest);
  }

  /** The record of a RET_UNLINK is on unlink_rx. */
  lemma RetUnlinkFits(y: Sys, u: nat, status: int, rest: seq<Ret>)
    requires Unlinks(y) && Sorted(y.c.unlinkRx) && Head(y, RetUnlink(u, status), rest)
    ensures u in y.c.unlinkRx && u in y.c.targetOf && In(y, u, Downward)
    ensures Without(Remove(y.c.unlinkRx, u), y.c.unlinkRx, u)
  {
    assert RetUnlink(u, status) in y.down;
    RemoveSorted(y.c.unlinkRx, u);
  }

  lemma RetUnlinkDomain(y: Sys, u: nat, status: int, rest: seq<Ret>)
    requires Domain(y) && u in y.phase
    ensures Domain(TakeRetUnlink(y, u, status, rest))
  {
    C.RecvUnlinkInv(y.c, u, status);
  }

  lemma RetUnlinkPlaces(y: Sys, u: nat, status: int, rest: seq<Ret>)
    requires Submits(y) && Names(y.c) && Head(y, RetUnlink(u, status), rest)
    requires u in y.c.unlinkRx && u in y.c.targetOf
    ensures Submits(TakeRetUnlink(y, u, status, rest))
  {
  }

  lemma RetUnlinkUnlinks(y: Sys, u: nat, status: int, rest: seq<Ret>)
    requires Unlinks(y) && Names(y.c) && Head(y, RetUnlink(u, status), rest)
    requires u in y.c.unlinkRx && u in y.c.targetOf
    requires Without(Remove(y.c.unlinkRx, u), y.c.unlinkRx, u)
    ensures Unlinks(TakeRetUnlink(y, u, status, rest))
  {
  }

  lemma RetUnlinkTargets(y: Sys, u: nat, status: int, rest: seq<Ret>)
    requires Submits(y) && Unlinks(y) && Targets(y) && Names(y.c) && Head(y, RetUnlink(u, status), rest)
    ensures Targets(TakeRetUnlink(y, u, status, rest))
  {
    assert RetUnlink(u, status) in y.down;
    assert RetSubmit(y.c.targetOf[u]) !in y.down;
  }

  lemma RetUnlinkOutcomes(y: Sys, u: nat, status: int, rest: seq<Ret>)
    requires Outcomes(y) && Caused(y) && In(y, u, Downward)
    ensures Outcomes(TakeRetUnlink(y, u, status, rest)) && Caused(TakeRetUnlink(y, u, status, rest))
  {
  }

  lemma RetUnlinkRest(y: Sys, u: nat, status: int, rest: seq<Ret>)
    requires Submits(y) && Unlinks(y) && Names(y.c) && Head(y, RetUnlink(u, status), rest) && In(y, u, Downward) && Rest(y)
    ensures Rest(TakeRetUnlink(y, u, status, rest))
  {
    RetUnlinkTargets(y, u, status, rest);
    RetUnlinkOutcomes(y, u, status, rest);
    ShorterDown(y, TakeRetUnlink(y, u, status, rest), RetUnlink(u, status));
  }

  lemma RetUnlinkInv(y: Sys, u: nat, status: int, rest: seq<Ret>)
    requires Inv(y) && Head(y, RetUnlink(u, status), rest)
    ensures Inv(TakeRetUnlink(y, u, status, rest))
  {
    NamesOf(y);
    RetUnlinkFits(y, u, status, rest);
    RetUnlinkDomain(y, u, status, rest);
    RetUnlinkPlaces(y, u, status, rest);
    RetUnlinkUnlinks(y, u, status, rest);
    RetUnlinkRest(y, u, status, rest);
  }

  /** The target of an answered unlink: still queued only if it was withdrawn. */
  lemma AnsweredTarget(y: Sys)
    requires C.Inv(y.c) && Unlinks(y) && Domain(y) && Targets(y) && y.c.inHand.Some?
    ensures var t := y.c.targetOf[y.c.inHand.value.0];
            (In(y, t, Received) || In(y, t, Withdrawn)) && Without(Remove(y.c.privRx, t), y.c.privRx, t)
  {
    RemoveSorted(y.c.privRx, y.c.targetOf[y.c.inHand.value.0]);
  }

  lemma FinishUnlinkSubmits(y: Sys, t: nat)
    requires Submits(y) && y.c.inHand.Some? && y.c.inHand.value.0 in y.c.targetOf
    requires t == y.c.targetOf[y.c.inHand.value.0] && (In(y, t, Received) || In(y, t, Withdrawn))
    requires Without(Remove(y.c.privRx, t), y.c.privRx, t)
    ensures Submits(Apply(y, FinishUnlink))
  {
  }

  lemma FinishUnlinkUnlinks(y: Sys)
    requires Unlinks(y)
    ensures Unlinks(Apply(y, FinishUnlink))
  {
  }

  lemma FinishUnlinkRest(y: Sys, t: nat)
    requires Submits(y) && Rest(y) && y.c.inHand.Some? && y.c.inHand.value.0 in y.c.targetOf
    requires t == y.c.targetOf[y.c.inHand.value.0] && (In(y, t, Received) || In(y, t, Withdrawn))
    ensures Rest(Apply(y, FinishUnlink))
  {
    var z := Apply(y, FinishUnlink);
    SameRest(y, z.(c := z.c.(outcome := y.c.outcome)));
  }

  lemma FinishUnlinkInv(y: Sys)
    requires Inv(y)
    ensures Inv(Apply(y, FinishUnlink))
  {
    if y.c.inHand.Some? && y.c.inHand.value.0 in y.c.targetOf {
      var t := y.c.targetOf[y.c.inHand.value.0];
      C.FinishUnlinkInv(y.c);
      NamesOf(y);
      AnsweredTarget(y);
      FinishUnlinkSubmits(y, t);
      FinishUnlinkUnlinks(y);
      FinishUnlinkRest(y, t);
    }
  }

  /** A client step that moves no record. */
  lemma StillPlaces(y: Sys, c: C.Client)
    requires Submits(y) && Unlinks(y)
    requires c.urbOf == y.c.urbOf && c.targetOf == y.c.targetOf && c.privRx == y.c.privRx && c.unlinkRx == y.c.unlinkRx
    ensures Submits(y.(c := c)) && Unlinks(y.(c := c))
  {
  }

  lemma StillDomain(y: Sys, c: C.Client)
    requires Domain(y) && C.Inv(c) && c.connected
    requires c.urbOf == y.c.urbOf && c.targetOf == y.c.targetOf && c.privTx == y.c.privTx && c.unlinkTx == y.c.unlinkTx
    ensures Domain(y.(c := c))
  {
  }

  ghost predicate SameLists(c: C.Client, d: C.Client) {
    && d.connected == c.connected && d.urbOf == c.urbOf && d.targetOf == c.targetOf && d.outcome == c.outcome
    && d.privTx == c.privTx && d.privRx == c.privRx && d.unlinkTx == c.unlinkTx && d.unlinkRx == c.unlinkRx
  }

  lemma StillInv(y: Sys, c: C.Client)
    requires Inv(y) && C.Inv(c) && SameLists(y.c, c)
    ensures Inv(y.(c := c))
  {
    StillPlaces(y, c);
    StillDomain(y, c);
    SameRest(y, y.(c := c));
  }

  lemma CompleteInv(y: Sys, e: Entry, status: int)
    requires Inv(y) && e in y.queue
    ensures Inv(DoComplete(y, e, status))
  {
    NamesOf(y);
    CompleteSubmits(y, e, status);
    CompleteUnlinks(y, e, status);
    CompleteRest(y, e, status);
    MoveKeeps(y, DoComplete(y, e, status), e.seqnum, Outgoing);
  }

  lemma ReplyInv(y: Sys, r: Ret)
    requires Inv(y) && Disciplined(y, Reply(r)) && r in y.out
    ensures Inv(DoReply(y, r))
  {
    NamesOf(y);
    ReplySubmits(y, r);
    ReplyUnlinks(y, r);
    ReplyRest(y, r);
    MoveKeeps(y, DoReply(y, r), r.seqnum, Downward);
  }

  lemma ArrivingHead(y: Sys, m: Cmd, rest: seq<Cmd>)
    requires Submits(y) && Unlinks(y) && Names(y.c) && UpOrder(y) && y.up == [m] + rest
    ensures Arriving(y, m, rest) && (m.CmdUnlink? ==> CmdSubmit(m.target) !in y.up)
    ensures In(y, m.seqnum, Upward)
  {
    assert rest == y.up[1..] && m == y.up[0] && m in y.up;
    TailMembers(y.up);
  }

  lemma ShorterUp(y: Sys, z: Sys, m: Cmd)
    requires UpOrder(y) && y.up == [m] + z.up
    ensures UpOrder(z)
  {
    assert forall i :: 0 <= i < |z.up| ==> z.up[i] == y.up[i + 1];
  }

  lemma SameDown(y: Sys, z: Sys)
    requires DownOrder(y) && z.down == y.down && z.c == y.c
    ensures DownOrder(z)
  {
  }

  lemma AcceptInv(y: Sys, s: nat, rest: seq<Cmd>)
    requires Inv(y) && y.up == [CmdSubmit(s)] + rest
    ensures Inv(Accept(y, s, rest))
  {
    var z := Accept(y, s, rest);
    NamesOf(y);
    ArrivingHead(y, CmdSubmit(s), rest);
    AcceptSubmits(y, s, rest);
    AcceptUnlinks(y, s, rest);
    AcceptTargets(y, s, rest);
    MoveKeeps(y, z, s, Held);
    MoveOutcomes(y, z, s, Held);
    ShorterUp(y, z, CmdSubmit(s));
    SameDown(y, z);
  }

  lemma MissInv(y: Sys, u: nat, t: nat, rest: seq<Cmd>)
    requires Inv(y) && y.up == [CmdUnlink(u, t)] + rest && Entry(t, false) !in y.queue
    ensures Inv(Miss(y, u, rest))
  {
    var z := Miss(y, u, rest);
    NamesOf(y);
    ArrivingHead(y, CmdUnlink(u, t), rest);
    MissSubmits(y, u, t, rest);
    MissOut(y, u, t, rest);
    MissUnlinks(y, u, t, rest);
    MissTargets(y, u, t, rest);
    MoveKeeps(y, z, u, Outgoing);
    MoveOutcomes(y, z, u, Outgoing);
    ShorterUp(y, z, CmdUnlink(u, t));
    SameDown(y, z);
  }

  lemma WithdrawOutcomes(y: Sys, u: nat, t: nat, rest: seq<Cmd>)
    requires Outcomes(y) && Caused(y) && In(y, u, Upward) && In(y, t, Held) && u in y.c.targetOf && y.c.targetOf[u] == t
    ensures Outcomes(Withdraw(y, u, t, rest)) && Caused(Withdraw(y, u, t, rest))
  {
  }

  lemma WithdrawInv(y: Sys, u: nat, t: nat, rest: seq<Cmd>)
    requires Inv(y) && y.up == [CmdUnlink(u, t)] + rest && Entry(t, false) in y.queue
    ensures Inv(Withdraw(y, u, t, rest))
  {
    var z := Withdraw(y, u, t, rest);
    NamesOf(y);
    ArrivingHead(y, CmdUnlink(u, t), rest);
    WithdrawSubmits(y, u, t, rest);
    WithdrawUnlinks(y, u, t, rest);
    WithdrawTargets(y, u, t, rest);
    WithdrawOutcomes(y, u, t, rest);
    MoveKeeps(y, y.(phase := y.phase[t := Withdrawn]), t, Withdrawn);
    MoveKeeps(y.(phase := y.phase[t := Withdrawn]), z, u, Held);
    ShorterUp(y, z, CmdUnlink(u, t));
    SameDown(y, z);
  }

  lemma UnlinkArrivesInv(y: Sys, u: nat, t: nat, rest: seq<Cmd>)
    requires Inv(y) && y.up == [CmdUnlink(u, t)] + rest
    ensures Inv(if Entry(t, false) in y.queue then Withdraw(y, u, t, rest) else Miss(y, u, rest))
  {
    if Entry(t, false) in y.queue {
      WithdrawInv(y, u, t, rest);
    } else {
      MissInv(y, u, t, rest);
    }
  }

  lemma ArrivesInv(y: Sys, cmd: Cmd, rest: seq<Cmd>)
    requires Inv(y) && y.up == [cmd] + rest
    ensures Inv(DoServerRecv(y))
  {
    assert y.up[1..] == rest;
    match cmd
    case CmdSubmit(s) => AcceptInv(y, s, rest);
    case CmdUnlink(u, t) => UnlinkArrivesInv(y, u, t, rest);
  }

  lemma ServerRecvInv(y: Sys)
    requires Inv(y) && y.up != []
    ensures Inv(DoServerRecv(y))
  {
    HeadAndTail(y.up);
    ArrivesInv(y, y.up[0], y.up[1..]);
  }

  lemma TakeInv(y: Sys, r: Ret, rest: seq<Ret>)
    requires Inv(y) && Head(y, r, rest)
    ensures Inv(if r.RetSubmit? then TakeRetSubmit(y, r.seqnum, rest) else TakeRetUnlink(y, r.seqnum, r.status, rest))
  {
    match r
    case RetSubmit(s) => RetSubmitInv(y, s, rest);
    case RetUnlink(u, status) => RetUnlinkInv(y, u, status, rest);
  }

  lemma RecvInv(y: Sys)
    requires Inv(y) && y.down != [] && y.c.inHand.None?
    ensures Inv(DoRecv(y))
  {
    var r, rest := y.down[0], y.down[1..];
    HeadOfDown(y);
    TakeInv(y, r, rest);
  }

  lemma OtherPortInv(y: Sys)
    requires Inv(y)
    ensures Inv(Apply(y, OtherPort))
  {
    C.ApplyInv(y.c, C.OtherPort);
    StillInv(y, Apply(y, OtherPort).c);
  }

  lemma GivebackFrame(c: C.Client, s: nat)
    requires C.Inv(c)
    ensures C.Inv(C.Giveback(c, s)) && SameLists(c, C.Giveback(c, s))
  {
    C.GivebackInv(c, s);
  }

  lemma GivebackInv(y: Sys, s: nat)
    requires Inv(y)
    ensures Inv(y.(c := C.Giveback(y.c, s)))
  {
    GivebackFrame(y.c, s);
    StillInv(y, C.Giveback(y.c, s));
  }

  lemma ApplyInv(y: Sys, step: Step)
    requires Inv(y) && Disciplined(y, step)
    ensures Inv(Apply(y, step))
  {
    if Apply(y, step) != y {
      match step
      case Enqueue(urb) => EnqueueInv(y, urb);
      case Dequeue(urb) => DequeueInv(y, urb);
      case OtherPort => OtherPortInv(y);
      case SendSubmit => SendSubmitInv(y);
      case SendUnlink => SendUnlinkInv(y);
      case Recv => RecvInv(y);
      case FinishUnlink => FinishUnlinkInv(y);
      case Giveback(s) => GivebackInv(y, s);
      case ServerRecv => ServerRecvInv(y);
      case Complete(e, status) => CompleteInv(y, e, status);
      case Reply(r) => ReplyInv(y, r);
    }
  }

  // ---------------------------------------------------------------------------------------------
  // Runs.
  // ---------------------------------------------------------------------------------------------

  function Run(y: Sys, steps: seq<Step>): Sys {
    if steps == [] then y else Apply(Run(y, steps[..|steps| - 1]), steps[|steps| - 1])
  }

  predicate DisciplinedRun(y: Sys, steps: seq<Step>) {
    steps == [] ||
    (DisciplinedRun(y, steps[..|steps| - 1]) && Disciplined(Run(y, steps[..|steps| - 1]), steps[|steps| - 1]))
  }

  lemma {:induction false} RunInv(y: Sys, steps: seq<Step>)
    requires Inv(y) && DisciplinedRun(y, steps)
    ensures Inv(Run(y, steps))
  {
    if steps != [] {
      RunInv(y, steps[..|steps| - 1]);
      ApplyInv(Run(y, steps[..|steps| - 1]), steps[|steps| - 1]);
    }
  }

  lemma InitialInv()
    ensures Inv(Initial)
  {
  }

  /** The next reply, if any, is one whose record the client still keeps. */
  predicate FoundAt(c: C.Client, down: seq<Ret>) {
    down != [] && c.inHand.None? ==>
      match down[0]
      case RetSubmit(s) => s in c.privRx
      case RetUnlink(u, _) => u in c.unlinkRx
  }

  predicate Found(y: Sys) { FoundAt(y.c, y.down) }

  lemma FoundIn(y: Sys)
    requires Submits(y) && Unlinks(y)
    ensures Found(y)
  {
    if y.down != [] {
      assert y.down[0] in y.down;
    }
  }

  /** Both "cannot find" branches of the client are unreachable in disciplined runs. */
  lemma EveryReplyFindsItsRecord(steps: seq<Step>)
    requires DisciplinedRun(Initial, steps)
    ensures Found(Run(Initial, steps))
  {
    InitialInv();
    RunInv(Initial, steps);
    FoundIn(Run(Initial, steps));
  }

  ghost predicate Replied(y: Sys, s: nat) {
    s in y.c.urbOf && s in y.phase && (y.phase[s] == Outgoing || y.phase[s] == Downward || y.phase[s] == Received)
  }

  lemma RepliedSending(y: Sys, s: nat)
    requires Replied(y, s) && (forall x :: x in y.c.privTx || x in y.c.unlinkTx ==> x !in y.phase)
    ensures Replied(DoSendSubmit(y), s) && Replied(DoSendUnlink(y), s)
  {
    if y.c.privTx != [] { assert y.c.privTx[0] in y.c.privTx; }
    if y.c.unlinkTx != [] { assert y.c.unlinkTx[0] in y.c.unlinkTx; }
  }

  lemma RepliedArriving(y: Sys, s: nat)
    requires Submits(y) && Unlinks(y) && Names(y.c) && Replied(y, s)
    ensures Replied(DoServerRecv(y), s)
  {
    if y.up != [] {
      assert y.up[0] in y.up;
    }
  }

  lemma RepliedMoving(y: Sys, step: Step, s: nat)
    requires Submits(y) && Unlinks(y) && Names(y.c) && Replied(y, s)
    requires step.Complete? || step.Reply? || step.Recv?
    ensures Replied(Apply(y, step), s)
  {
    if step.Recv? && y.down != [] {
      assert y.down[0] in y.down;
    }
  }

  lemma Unsent(y: Sys)
    requires Domain(y)
    ensures forall x :: x in y.c.privTx || x in y.c.unlinkTx ==> x !in y.phase
  {
  }

  /** An answered submission stays answered: it is never withdrawn later. */
  lemma RepliedStays(y: Sys, step: Step, s: nat)
    requires Inv(y) && Replied(y, s)
    ensures Replied(Apply(y, step), s)
  {
    if step.SendSubmit? || step.SendUnlink? {
      Unsent(y);
      RepliedSending(y, s);
    } else if step.ServerRecv? {
      NamesOf(y);
      RepliedArriving(y, s);
    } else if step.Complete? || step.Reply? || step.Recv? {
      NamesOf(y);
      RepliedMoving(y, step, s);
    } else {
      RepliedLocal(y, step, s);
    }
  }

  lemma RepliedLocal(y: Sys, step: Step, s: nat)
    requires Replied(y, s)
    requires step.Enqueue? || step.Dequeue? || step.OtherPort? || step.FinishUnlink? || step.Giveback?
    ensures Replied(Apply(y, step), s)
  {
  }

  lemma {:induction false} RepliedForGood(y: Sys, steps: seq<Step>, k: nat, s: nat)
    requires Inv(y) && DisciplinedRun(y, steps) && k <= |steps| && Replied(Run(y, steps[..k]), s)
    ensures Replied(Run(y, steps), s)
  {
    if k == |steps| {
      assert steps[..k] == steps;
    } else {
      var front := steps[..|steps| - 1];
      assert front[..k] == steps[..k];
      RepliedForGood(y, front, k, s);
      RunInv(y, front);
      RepliedStays(Run(y, front), steps[|steps| - 1], s);
    }
  }

  lemma {:induction false} PrefixDisciplined(y: Sys, steps: seq<Step>, k: nat)
    requires DisciplinedRun(y, steps) && k <= |steps|
    ensures DisciplinedRun(y, steps[..k])
  {
    if k == |steps| {
      assert steps[..k] == steps;
    } else {
      var front := steps[..|steps| - 1];
      assert front[..k] == steps[..k];
      PrefixDisciplined(y, front, k);
    }
  }

  lemma SeenIsReplied(y: Sys, s: nat)
    requires Submits(y) && (RetSubmit(s) in y.out || RetSubmit(s) in y.down)
    ensures Replied(y, s)
  {
  }

  /**
   Cases 2a/2b and 3a/3b of the protocol: a submission the client gives back because of a RET_UNLINK
   is one the server withdrew, and no RET_SUBMIT for it exists in any state of the run.
   */
  lemma UnlinkedWasWithdrawn(steps: seq<Step>, s: nat, k: nat)
    requires DisciplinedRun(Initial, steps) && k <= |steps|
    requires var c := Run(Initial, steps).c; s in c.outcome && c.outcome[s].Cancelled?
    ensures In(Run(Initial, steps), s, Withdrawn)
    ensures RetSubmit(s) !in Run(Initial, steps[..k]).out && RetSubmit(s) !in Run(Initial, steps[..k]).down
  {
    InitialInv();
    RunInv(Initial, steps);
    PrefixDisciplined(Initial, steps, k);
    RunInv(Initial, steps[..k]);
    var x := Run(Initial, steps[..k]);
    if RetSubmit(s) in x.out || RetSubmit(s) in x.down {
      SeenIsReplied(x, s);
      RepliedForGood(Initial, steps, k, s);
    }
  }

  // ---------------------------------------------------------------------------------------------
  // The status of a cancelled URB, when the server reports -ECONNRESET for every withdrawn request.
  // ---------------------------------------------------------------------------------------------

  predicate Prompt(step: Step) {
    step.Complete? && step.e.unlinked ==> step.status == ECONNRESET
  }

  /** An unlink with this status: its target was not withdrawn, or the status says so. */
  predicate Honest(y: Sys, u: nat, status: int) {
    u in y.c.targetOf && In(y, y.c.targetOf[u], Withdrawn) ==> status == ECONNRESET
  }

  ghost predicate Statuses(y: Sys) {
    && (forall u, status :: RetUnlink(u, status) in y.out ==> Honest(y, u, status))
    && (forall u, status :: RetUnlink(u, status) in y.down ==> Honest(y, u, status))
    && (y.c.inHand.Some? ==> Honest(y, y.c.inHand.value.0, y.c.inHand.value.1))
    && (forall s :: s in y.c.outcome && y.c.outcome[s].Cancelled? ==> y.c.outcome[s].status == ECONNRESET)
  }

  lemma StatusesSubmitting(y: Sys)
    requires Statuses(y) && Unlinks(y) && (forall x :: x in y.c.privTx ==> x !in y.phase)
    ensures Statuses(DoSendSubmit(y))
  {
    if y.c.privTx != [] { assert y.c.privTx[0] in y.c.privTx; }
  }

  lemma StatusesUnlinking(y: Sys)
    requires Statuses(y) && Unlinks(y) && (forall x :: x in y.c.unlinkTx ==> x !in y.phase)
    ensures Statuses(DoSendUnlink(y))
  {
    if y.c.unlinkTx != [] { assert y.c.unlinkTx[0] in y.c.unlinkTx; }
  }

  lemma StatusesRecv(y: Sys)
    requires Statuses(y)
    ensures Statuses(DoRecv(y))
  {
    if y.down != [] {
      HeadAndTail(y.down);
    }
  }

  predicate HandKnown(y: Sys) {
    y.c.inHand.Some? ==> y.c.inHand.value.0 in y.c.targetOf && In(y, y.c.inHand.value.0, Received)
  }

  lemma HandIsKnown(y: Sys)
    requires Domain(y) && Unlinks(y)
    ensures HandKnown(y)
  {
  }

  lemma StatusesLocal(y: Sys, step: Step)
    requires Statuses(y) && HandKnown(y) && Unlinks(y) && Fresh(y, y.c.counter + 1) && y.c.connected
    requires step.Enqueue? || step.Dequeue? || step.OtherPort? || step.Giveback?
    ensures Statuses(Apply(y, step))
  {
  }

  lemma StatusesFinish(y: Sys)
    requires Statuses(y) && Submits(y) && y.c.inHand.Some? && y.c.inHand.value.0 in y.c.targetOf
    requires var t := y.c.targetOf[y.c.inHand.value.0]; In(y, t, Received) || In(y, t, Withdrawn)
    ensures Statuses(Apply(y, FinishUnlink))
  {
  }

  lemma StatusesComplete(y: Sys, e: Entry, status: int)
    requires Statuses(y) && Submits(y) && Unlinks(y) && Names(y.c) && Prompt(Complete(e, status))
    ensures Statuses(DoComplete(y, e, status))
  {
  }

  lemma StatusesReply(y: Sys, r: Ret)
    requires Statuses(y) && Submits(y) && Unlinks(y) && Names(y.c)
    ensures Statuses(DoReply(y, r))
  {
  }

  lemma StatusesWithdraw(y: Sys, u: nat, t: nat, rest: seq<Cmd>)
    requires Statuses(y) && HandKnown(y) && Unlinks(y) && Targets(y) && In(y, t, Held) && In(y, u, Upward)
    ensures Statuses(Withdraw(y, u, t, rest))
  {
  }

  lemma StatusesServerRecv(y: Sys)
    requires Statuses(y) && HandKnown(y) && Submits(y) && Unlinks(y) && Names(y.c) && Targets(y)
    ensures Statuses(DoServerRecv(y))
  {
    if y.up != [] {
      assert y.up[0] in y.up;
      if y.up[0].CmdUnlink? && Entry(y.up[0].target, false) in y.queue {
        StatusesWithdraw(y, y.up[0].seqnum, y.up[0].target, y.up[1..]);
      }
    }
  }

  lemma FreshNext(y: Sys)
    requires Domain(y)
    ensures Fresh(y, y.c.counter + 1)
  {
  }

  lemma StatusesStep(y: Sys, step: Step)
    requires Inv(y) && Statuses(y) && Prompt(step)
    ensures Statuses(Apply(y, step))
  {
    NamesOf(y);
    HandIsKnown(y);
    match step
    case SendSubmit => Unsent(y); StatusesSubmitting(y);
    case SendUnlink => Unsent(y); StatusesUnlinking(y);
    case Recv => StatusesRecv(y);
    case FinishUnlink => if y.c.inHand.Some? { AnsweredTarget(y); StatusesFinish(y); }
    case ServerRecv => StatusesServerRecv(y);
    case Complete(e, status) => StatusesComplete(y, e, status);
    case Reply(r) => StatusesReply(y, r);
    case _ => FreshNext(y); StatusesLocal(y, step);
  }

  lemma {:induction false} StatusesRun(y: Sys, steps: seq<Step>)
    requires Inv(y) && Statuses(y) && DisciplinedRun(y, steps) && forall step :: step in steps ==> Prompt(step)
    ensures Statuses(Run(y, steps))
  {
    if steps != [] {
      var front, last := steps[..|steps| - 1], steps[|steps| - 1];
      assert last in steps;
      StatusesRun(y, front);
      RunInv(y, front);
      StatusesStep(Run(y, front), last);
    }
  }

  /** Then an URB given back through the RET_UNLINK path reports -ECONNRESET. */
  lemma CancelledStatus(steps: seq<Step>, s: nat)
    requires DisciplinedRun(Initial, steps) && forall step :: step in steps ==> Prompt(step)
    requires var c := Run(Initial, steps).c; s in c.outcome && c.outcome[s].Cancelled?
    ensures Run(Initial, steps).c.outcome[s].status == ECONNRESET
  {
    InitialInv();
    StatusesRun(Initial, steps);
  }
}
