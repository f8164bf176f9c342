/**
 No URB gets stuck.  Once nothing is under way any more, the client waits for nothing; and in a calm run
 the system can always get there, without any further help from the callers.
 */
module Progress {
  import opened Lists
  import opened Errno
  import C = Client
  import P = Protocol
  import opened Transmit
  import S = Stub
  import opened System
  import opened Overtaking

  // ---------------------------------------------------------------------------------------------
  // What the client waits for is under way.
  // ---------------------------------------------------------------------------------------------

  /** The message an unlink's phase speaks of is there. */
  ghost predicate UnderWay(a: P.Sys, u: nat)
    requires u in a.c.targetOf
  {
    && (P.In(a, u, P.Upward) ==> P.CmdUnlink(u, a.c.targetOf[u]) in a.up)
    && (P.In(a, u, P.Held) ==> P.Entry(u, true) in a.queue)
    && (P.In(a, u, P.Outgoing) ==> exists status :: P.RetUnlink(u, status) in a.out)
    && (P.In(a, u, P.Downward) ==> exists status :: P.RetUnlink(u, status) in a.down)
  }

  predicate InHand(c: C.Client, u: nat) { c.inHand.Some? && c.inHand.value.0 == u }

  /** A withdrawn submission that is still listed has an unlink that is not finished. */
  ghost predicate Awaits(a: P.Sys, u: nat)
    requires u in a.c.targetOf
  {
    a.c.targetOf[u] in a.c.privRx && P.In(a, a.c.targetOf[u], P.Withdrawn) ==>
      u in a.phase && (a.phase[u] != P.Received || InHand(a.c, u))
  }

  ghost predicate Live(a: P.Sys, u: nat) { u in a.c.targetOf ==> UnderWay(a, u) && Awaits(a, u) }

  lemma SendSubmitLive(a: P.Sys, u: nat)
    requires P.Domain(a) && Live(a, u)
    ensures Live(P.DoSendSubmit(a), u)
  {
    if a.c.privTx != [] {
      assert a.c.privTx[0] in a.c.privTx;
    }
  }

  lemma SendUnlinkLive(a: P.Sys, u: nat)
    requires P.Domain(a) && Live(a, u)
    ensures Live(P.DoSendUnlink(a), u)
  {
    if a.c.unlinkTx != [] {
      assert a.c.unlinkTx[0] in a.c.unlinkTx;
    }
  }

  /** A new unlink is not yet sent, so its target is not withdrawn. */
  lemma LocalLive(a: P.Sys, z: P.Sys, u: nat)
    requires Live(a, u) && P.Targets(z) && z == a.(c := z.c)
    requires z.c.privRx == a.c.privRx && z.c.inHand == a.c.inHand
    requires u in z.c.targetOf && u in a.phase ==> u in a.c.targetOf && z.c.targetOf[u] == a.c.targetOf[u]
    ensures Live(z, u)
  {
  }

  lemma TakeSubmitLive(a: P.Sys, s: nat, rest: seq<P.Ret>, u: nat)
    requires s !in a.c.targetOf && Sorted(a.c.privRx) && Live(a, u) && a.down == [P.RetSubmit(s)] + rest
    ensures Live(P.TakeRetSubmit(a, s, rest), u)
  {
    RemoveSorted(a.c.privRx, s);
  }

  lemma TakeUnlinkLive(a: P.Sys, v: nat, status: int, rest: seq<P.Ret>, u: nat)
    requires P.Names(a.c) && a.c.connected && v in a.c.unlinkRx && v in a.c.targetOf && a.c.inHand.None?
    requires Live(a, u) && a.down == [P.RetUnlink(v, status)] + rest
    ensures Live(P.TakeRetUnlink(a, v, status, rest), u)
  {
  }

  lemma RecvLive(a: P.Sys, u: nat)
    requires P.Submits(a) && P.Unlinks(a) && P.Names(a.c) && a.c.connected && Sorted(a.c.privRx) && Live(a, u)
    ensures Live(P.DoRecv(a), u)
  {
    if a.down != [] && a.c.inHand.None? {
      assert a.down[0] in a.down;
      HeadAndTail(a.down);
      match a.down[0]
      case RetSubmit(s) => TakeSubmitLive(a, s, a.down[1..], u);
      case RetUnlink(v, status) => TakeUnlinkLive(a, v, status, a.down[1..], u);
    }
  }

  lemma FinishUnlinkLive(a: P.Sys, u: nat)
    requires Live(a, u) && Sorted(a.c.privRx) && forall s :: s in a.c.privRx ==> s in a.c.urbOf
    ensures Live(P.Apply(a, P.FinishUnlink), u)
  {
    if a.c.inHand.Some? && a.c.inHand.value.0 in a.c.targetOf {
      RemoveSorted(a.c.privRx, a.c.targetOf[a.c.inHand.value.0]);
    }
  }

  lemma AcceptLive(a: P.Sys, s: nat, rest: seq<P.Cmd>, u: nat)
    requires Live(a, u) && s !in a.c.targetOf && a.up == [P.CmdSubmit(s)] + rest
    ensures Live(P.Accept(a, s, rest), u)
  {
  }

  lemma MissLive(a: P.Sys, v: nat, t: nat, rest: seq<P.Cmd>, u: nat)
    requires P.Names(a.c) && Live(a, u) && v in a.c.targetOf && a.up == [P.CmdUnlink(v, t)] + rest
    ensures Live(P.Miss(a, v, rest), u)
  {
    assert P.RetUnlink(v, OK) in P.Miss(a, v, rest).out;
  }

  lemma WithdrawLive(a: P.Sys, v: nat, t: nat, rest: seq<P.Cmd>, u: nat)
    requires P.Names(a.c) && C.OneUnlink(a.c) && Live(a, u) && v in a.c.targetOf && a.c.targetOf[v] == t
    requires a.up == [P.CmdUnlink(v, t)] + rest
    ensures Live(P.Withdraw(a, v, t, rest), u)
  {
  }

  lemma ServerRecvLive(a: P.Sys, u: nat)
    requires P.Submits(a) && P.Unlinks(a) && P.Names(a.c) && C.OneUnlink(a.c) && Live(a, u)
    ensures Live(P.DoServerRecv(a), u)
  {
    if a.up != [] {
      assert a.up[0] in a.up;
      HeadAndTail(a.up);
      match a.up[0]
      case CmdSubmit(s) => AcceptLive(a, s, a.up[1..], u);
      case CmdUnlink(v, t) => WithdrawLive(a, v, t, a.up[1..], u); MissLive(a, v, t, a.up[1..], u);
    }
  }

  lemma CompleteLive(a: P.Sys, e: P.Entry, status: int, u: nat)
    requires P.Submits(a) && P.Unlinks(a) && P.Names(a.c) && Live(a, u)
    ensures Live(P.DoComplete(a, e, status), u)
  {
    if e in a.queue && e.unlinked {
      assert P.RetUnlink(e.seqnum, status) in P.DoComplete(a, e, status).out;
    }
  }

  lemma ReplyLive(a: P.Sys, r: P.Ret, u: nat)
    requires P.Submits(a) && P.Unlinks(a) && P.Names(a.c) && Live(a, u)
    ensures Live(P.DoReply(a, r), u)
  {
    if r in a.out {
      assert r in P.DoReply(a, r).down;
    }
  }

  lemma DequeueLive(a: P.Sys, urb: nat, u: nat)
    requires P.Domain(a) && P.Targets(P.Apply(a, P.Dequeue(urb))) && Live(a, u)
    ensures Live(P.Apply(a, P.Dequeue(urb)), u)
  {
    LocalLive(a, P.Apply(a, P.Dequeue(urb)), u);
  }

  lemma ClientLive(a: P.Sys, step: P.Step, u: nat)
    requires P.Targets(P.Apply(a, step)) && Live(a, u) && (step.Enqueue? || step.OtherPort? || step.Giveback?)
    ensures Live(P.Apply(a, step), u)
  {
    LocalLive(a, P.Apply(a, step), u);
  }

  lemma StepLive(a: P.Sys, step: P.Step, u: nat)
    requires P.Inv(a) && P.Disciplined(a, step) && Live(a, u)
    ensures Live(P.Apply(a, step), u)
  {
    P.NamesOf(a);
    match step
    case SendSubmit => SendSubmitLive(a, u);
    case SendUnlink => SendUnlinkLive(a, u);
    case Recv => RecvLive(a, u);
    case FinishUnlink => FinishUnlinkLive(a, u);
    case ServerRecv => ServerRecvLive(a, u);
    case Complete(e, status) => CompleteLive(a, e, status, u);
    case Reply(r) => ReplyLive(a, r, u);
    case Dequeue(urb) => P.ApplyInv(a, step); DequeueLive(a, urb, u);
    case _ => P.ApplyInv(a, step); ClientLive(a, step, u);
  }

  lemma {:induction false} RunLive(steps: seq<P.Step>, u: nat)
    requires P.DisciplinedRun(P.Initial, steps)
    ensures Live(P.Run(P.Initial, steps), u)
  {
    if steps != [] {
      var front := steps[..|steps| - 1];
      RunLive(front, u);
      ReachedInv(front);
      StepLive(P.Run(P.Initial, front), steps[|steps| - 1], u);
    }
  }

  // ---------------------------------------------------------------------------------------------
  // So nothing is awaited once nothing is under way.
  // ---------------------------------------------------------------------------------------------

  predicate Silent(c: C.Client) { c.privTx == [] && c.unlinkTx == [] && c.inHand.None? }

  ghost predicate Resting(a: P.Sys) { Silent(a.c) && a.up == [] && a.queue == {} && a.out == {} && a.down == [] }

  lemma NoUnlinkAwaited(a: P.Sys, u: nat)
    requires P.Unlinks(a) && Resting(a) && Live(a, u) && u in a.c.targetOf && u in a.phase
    ensures a.phase[u] == P.Received
  {
  }

  lemma NoSubmitAwaited(a: P.Sys, s: nat)
    requires P.Inv(a) && Resting(a) && forall u :: Live(a, u)
    ensures s !in a.c.privRx
  {
    if s in a.c.privRx {
      assert P.In(a, s, P.Withdrawn);
      var u :| u in a.c.targetOf && a.c.targetOf[u] == s;
      assert Live(a, u);
      NoUnlinkAwaited(a, u);
    }
  }

  /** Every submission was given back, exactly once, and none is still waited for. */
  ghost predicate AllBack(c: C.Client) {
    && c.privTx == [] && c.privRx == [] && c.unlinkTx == [] && c.unlinkRx == []
    && NoDup(c.given) && forall s :: s in c.urbOf <==> s in c.given
  }

  lemma RestingIsBack(a: P.Sys)
    requires P.Inv(a) && Resting(a) && (forall u :: Live(a, u)) && a.c.held == {}
    ensures AllBack(a.c)
  {
    if a.c.privRx != [] {
      NoSubmitAwaited(a, a.c.privRx[0]);
    }
    if a.c.unlinkRx != [] {
      var u := a.c.unlinkRx[0];
      assert u in a.c.unlinkRx && Live(a, u);
      NoUnlinkAwaited(a, u);
    }
  }

  /** In a disciplined run that has come to rest, every submission was given back exactly once. */
  lemma NothingStuck(steps: seq<P.Step>)
    requires P.DisciplinedRun(P.Initial, steps)
    requires Resting(P.Run(P.Initial, steps)) && P.Run(P.Initial, steps).c.held == {}
    ensures AllBack(P.Run(P.Initial, steps).c)
  {
    ReachedInv(steps);
    forall u ensures Live(P.Run(P.Initial, steps), u) { RunLive(steps, u); }
    RestingIsBack(P.Run(P.Initial, steps));
  }

  /** The same of the client with either server. */
  ghost predicate AtRest(y: Sys) {
    Silent(y.c) && y.up == [] && Queue(y.server) == [] && Waiting(y.server) == [] && y.down == []
  }

  lemma NoneOut(s: Server, a: P.Sys, r: P.Ret)
    requires SameServer(s, a) && Waiting(s) == []
    ensures r !in a.out
  {
    if s.Host? {
      assert |Waiting(s)| == |s.st.privTx| + |s.st.unlinkTx|;
      match r
      case RetSubmit(x) => assert x !in s.st.privTx;
      case RetUnlink(u, status) => assert S.Pending(u, status) !in s.st.unlinkTx;
    }
  }

  lemma RestingSim(y: Sys, a: P.Sys)
    requires Sim(y, a) && AtRest(y)
    ensures Resting(a)
  {
    forall r ensures r !in a.out { NoneOut(y.server, a, r); }
  }

  /** In a calm run that has come to rest, every submission was given back exactly once. */
  lemma EverySubmissionComesBack(server: Server, steps: seq<Step>)
    requires New(server) && CalmRun(server, steps)
    requires AtRest(Run(Start(server), steps)) && Run(Start(server), steps).c.held == {}
    ensures AllBack(Run(Start(server), steps).c)
  {
    RunSim(server, steps);
    RestingSim(Run(Start(server), steps), P.Run(P.Initial, AbstractRun(server, steps)));
    NothingStuck(AbstractRun(server, steps));
  }

  // ---------------------------------------------------------------------------------------------
  // And it can always get there.
  // ---------------------------------------------------------------------------------------------

  ghost predicate Reached(server: Server, y: Sys) {
    exists steps :: CalmRun(server, steps) && Run(Start(server), steps) == y
  }

  lemma LocalSameUrbs(c: C.Client, down: seq<P.Ret>, l: P.Step)
    requires IsLocal(l) && !l.Enqueue?
    ensures LocalStep(c, down, l).0.urbOf == c.urbOf
  {
  }

  lemma QuietSameUrbs(y: Sys, step: Step)
    requires Quiet(y, step)
    ensures Apply(y, step).c.urbOf == y.c.urbOf
  {
    if step.Local? && IsLocal(step.step) {
      LocalSameUrbs(y.c, y.down, step.step);
    }
  }

  lemma {:induction false} SameUrbs(y: Sys, more: seq<Step>)
    requires Follows(y, more)
    ensures Run(y, more).c.urbOf == y.c.urbOf
  {
    if more != [] {
      var front := more[..|more| - 1];
      SameUrbs(y, front);
      QuietSameUrbs(Run(y, front), more[|more| - 1]);
    }
  }

  lemma ReachedKnows(server: Server, y: Sys)
    requires New(server) && Reached(server, y)
    ensures Knows(y.c)
  {
    var steps :| CalmRun(server, steps) && Run(Start(server), steps) == y;
    RunSim(server, steps);
    ReachedInv(AbstractRun(server, steps));
  }

  lemma ReachedOn(server: Server, y: Sys, z: Sys)
    requires Reached(server, y) && Leads(y, z)
    ensures Reached(server, z)
  {
    var steps :| CalmRun(server, steps) && Run(Start(server), steps) == y;
    var more :| Follows(y, more) && Run(y, more) == z;
    CalmOn(server, steps, more);
  }

  /** The client sends everything, wherever its loop is. */
  lemma SendOut(y: Sys) returns (z: Sys)
    requires y.c.connected
    ensures Leads(y, z) && z.c.privTx == [] && z.c.unlinkTx == [] && z.server == y.server
  {
    if y.pc.Unlinking? {
      z := SendEverything(y);
    } else {
      WholeRound(y);
      RoundIsPass(y.c);
      var r := Round(y.c, y.pc);
      z := y.(c := r.c, pc := r.pc, up := y.up + r.pdus);
    }
  }

  lemma {:induction false} ReceiveAll(y: Sys) returns (z: Sys)
    requires AtStart(y.server)
    ensures Leads(y, z) && z.c == y.c && z.up == []
    decreases |y.up|
  {
    if y.up == [] {
      LeadsSelf(y);
      z := y;
    } else {
      LeadsOne(y, ServerRecv);
      z := ReceiveAll(Apply(y, ServerRecv));
      LeadsOn(y, Apply(y, ServerRecv), z);
    }
  }

  lemma {:induction false} FinishAll(y: Sys) returns (z: Sys)
    ensures Leads(y, z) && z.c == y.c && z.up == y.up && Queue(z.server) == []
    decreases |Queue(y.server)|
  {
    if Queue(y.server) == [] {
      LeadsSelf(y);
      z := y;
    } else {
      LeadsOne(y, FinishUrb(0, OK));
      z := FinishAll(Apply(y, FinishUrb(0, OK)));
      LeadsOn(y, Apply(y, FinishUrb(0, OK)), z);
    }
  }

  /** What the receiver leaves alone. */
  predicate OnlyReceived(y: Sys, z: Sys) {
    z.up == y.up && z.server == y.server && z.c.privTx == y.c.privTx && z.c.unlinkTx == y.c.unlinkTx
  }

  lemma ReceiverFrame(y: Sys)
    ensures OnlyReceived(y, Finished(y)) && OnlyReceived(y, Received(y))
  {
  }

  lemma {:induction false} TakeAll(y: Sys) returns (z: Sys)
    requires Knows(y.c)
    ensures Leads(y, z) && OnlyReceived(y, z) && z.down == [] && z.c.inHand.None?
    decreases |y.down|
  {
    var f := Finished(y);
    FinishKnows(y);
    ReceiverFrame(y);
    if f.down == [] {
      z := f;
    } else {
      RecvKnows(f);
      ReceiverFrame(f);
      z := TakeAll(Received(f));
      LeadsOn(f, Received(f), z);
      LeadsOn(y, f, z);
    }
  }

  lemma {:induction false} GiveAll(y: Sys) returns (z: Sys)
    ensures Leads(y, z) && OnlyReceived(y, z) && z.down == y.down && z.c.inHand == y.c.inHand && z.c.held == {}
    decreases |y.c.held|
  {
    if y.c.held == {} {
      LeadsSelf(y);
      z := y;
    } else {
      var s :| s in y.c.held;
      var x := Apply(y, Local(P.Giveback(s)));
      LeadsOne(y, Local(P.Giveback(s)));
      z := GiveAll(x);
      LeadsOn(y, x, z);
    }
  }

  lemma ComeToRest(server: Server, y: Sys) returns (z: Sys)
    requires New(server) && Reached(server, y)
    ensures Leads(y, z) && AtRest(z) && z.c.held == {}
  {
    ReachedKnows(server, y);
    var a := Flush(y);
    var b := SendOut(a);
    LeadsOn(y, a, b);
    var c := ReceiveAll(b);
    LeadsOn(y, b, c);
    var d := FinishAll(c);
    LeadsOn(y, c, d);
    var e := Flush(d);
    LeadsOn(y, d, e);
    ReachedOn(server, y, e);
    ReachedKnows(server, e);
    var f := TakeAll(e);
    LeadsOn(y, e, f);
    z := GiveAll(f);
    LeadsOn(y, f, z);
  }

  /**
   After every calm run, and without a further call from above, the system can come to rest; and then
   every URB submitted so far has been given back exactly once.
   */
  lemma EverythingCanComeBack(server: Server, steps: seq<Step>) returns (more: seq<Step>)
    requires New(server) && CalmRun(server, steps)
    ensures Follows(Run(Start(server), steps), more) && CalmRun(server, steps + more)
    ensures var y, z := Run(Start(server), steps), Run(Start(server), steps + more);
            z.c.urbOf == y.c.urbOf && AtRest(z) && z.c.held == {} && AllBack(z.c)
  {
    var y := Run(Start(server), steps);
    var z := ComeToRest(server, y);
    more :| Follows(y, more) && Run(y, more) == z;
    CalmOn(server, steps, more);
    SameUrbs(y, more);
    EverySubmissionComesBack(server, steps + more);
  }
}
