/**
 The ordering duties of module Protocol are exactly what is needed: wherever one of them can be
 broken, some continuation reaches a reply whose record the client no longer keeps.
 */
module Discipline {
  import opened Lists
  import opened Errno
  import C = Client
  import opened Protocol
  import opened Transmit

  lemma RunCons(y: Sys, step: Step, rest: seq<Step>)
    ensures Run(y, [step] + rest) == Run(Apply(y, step), rest)
  {
    assert [step][..0] == [];
    assert Run(y, []) == y;
    RunAppend(y, [step], rest);
  }

  /** Steps that no ordering duty concerns. */
  predicate Tame(steps: seq<Step>) {
    forall step :: step in steps ==> !step.SendUnlink? && !step.Reply?
  }

  lemma {:induction false} TameRun(y: Sys, steps: seq<Step>)
    requires Inv(y) && Tame(steps)
    ensures DisciplinedRun(y, steps) && Inv(Run(y, steps))
  {
    TameDisciplined(y, steps);
    RunInv(y, steps);
  }

  lemma {:induction false} TameDisciplined(y: Sys, steps: seq<Step>)
    requires Tame(steps)
    ensures DisciplinedRun(y, steps)
  {
    if steps != [] {
      assert steps[|steps| - 1] in steps;
      TameDisciplined(y, steps[..|steps| - 1]);
    }
  }

  // --- quietening the streams ---------------------------------------------------------------------

  /** What the client's receiving steps leave alone. */
  predicate SameElsewhere(y: Sys, z: Sys) {
    && z.up == y.up && z.queue == y.queue && z.out == y.out
    && z.c.privTx == y.c.privTx && z.c.unlinkTx == y.c.unlinkTx && z.c.targetOf == y.c.targetOf
  }

  ghost predicate Known(c: C.Client) {
    (c.inHand.Some? ==> c.inHand.value.0 in c.targetOf) && forall u :: u in c.unlinkRx ==> u in c.targetOf
  }

  lemma ReceiveOne(y: Sys)
    requires Known(y.c) && y.c.connected && y.down != []
    ensures var w := Apply(Apply(y, FinishUnlink), Recv);
            Known(w.c) && w.c.connected && SameElsewhere(y, w) && w.down == y.down[1..]
  {
    RemoveSubset(y.c.unlinkRx, y.down[0].seqnum);
  }

  lemma {:induction false} DrainDown(y: Sys) returns (steps: seq<Step>)
    requires Known(y.c) && y.c.connected
    ensures Tame(steps) && SameElsewhere(y, Run(y, steps))
    ensures Run(y, steps).down == [] && Run(y, steps).c.inHand.None?
    decreases |y.down|
  {
    var z := Apply(y, FinishUnlink);
    if y.down == [] {
      RunCons(y, FinishUnlink, []);
      steps := [FinishUnlink] + [];
    } else {
      ReceiveOne(y);
      var more := DrainDown(Apply(z, Recv));
      RunCons(z, Recv, more);
      RunCons(y, FinishUnlink, [Recv] + more);
      steps := [FinishUnlink] + ([Recv] + more);
    }
  }

  lemma {:induction false} DrainUp(y: Sys) returns (steps: seq<Step>)
    ensures Tame(steps) && Run(y, steps).c == y.c && Run(y, steps).up == []
    decreases |y.up|
  {
    steps := [];
    if y.up != [] {
      var more := DrainUp(Apply(y, ServerRecv));
      RunCons(y, ServerRecv, more);
      steps := [ServerRecv] + more;
    }
  }

  lemma {:induction false} SendUpTo(y: Sys, t: nat) returns (steps: seq<Step>)
    requires t in y.c.privTx && y.c.connected
    ensures Tame(steps) && Run(y, steps).c.connected && Run(y, steps).c.inHand == y.c.inHand
    ensures Run(y, steps).c.unlinkTx == y.c.unlinkTx && Run(y, steps).c.unlinkRx == y.c.unlinkRx
    ensures Run(y, steps).c.targetOf == y.c.targetOf
    ensures Run(y, steps).c.privTx != [] && Run(y, steps).c.privTx[0] == t
    decreases |y.c.privTx|
  {
    steps := [];
    if y.c.privTx[0] != t {
      HeadAndTail(y.c.privTx);
      var more := SendUpTo(Apply(y, SendSubmit), t);
      RunCons(y, SendSubmit, more);
      steps := [SendSubmit] + more;
    }
  }

  // --- a reply too early --------------------------------------------------------------------------

  /** A RET_UNLINK and the RET_SUBMIT of its target wait together, and the streams are quiet. */
  predicate ReplyTrap(y: Sys, u: nat, status: int, t: nat) {
    && y.down == [] && y.c.inHand.None? && y.c.connected
    && RetUnlink(u, status) in y.out && RetSubmit(t) in y.out
    && u in y.c.unlinkRx && u in y.c.targetOf && y.c.targetOf[u] == t && t in y.c.privRx && t in y.c.urbOf
    && t !in Remove(y.c.privRx, t)
  }

  lemma ReplyTrapSprings(y: Sys, u: nat, status: int, t: nat) returns (steps: seq<Step>)
    requires ReplyTrap(y, u, status, t)
    ensures !Found(Run(y, steps))
  {
    var s1, s4 := Reply(RetUnlink(u, status)), Reply(RetSubmit(t));
    var a := Apply(y, s1);
    var b := Apply(a, Recv);
    var c := Apply(b, FinishUnlink);
    var d := Apply(c, s4);
    assert a.down == [RetUnlink(u, status)];
    assert b.c.inHand == Some((u, status)) && b.down == [];
    assert t !in c.c.privRx;
    assert d.down == [RetSubmit(t)];
    steps := [s1] + ([Recv] + ([FinishUnlink] + ([s4] + [])));
    RunCons(y, s1, [Recv] + ([FinishUnlink] + ([s4] + [])));
    RunCons(a, Recv, [FinishUnlink] + ([s4] + []));
    RunCons(b, FinishUnlink, [s4] + []);
    RunCons(c, s4, []);
  }

  lemma ReplyTrapReady(y: Sys, u: nat, status: int)
    requires Submits(y) && Unlinks(y) && y.down == [] && y.c.inHand.None? && y.c.connected && Sorted(y.c.privRx)
    requires u in y.c.targetOf && RetUnlink(u, status) in y.out && RetSubmit(y.c.targetOf[u]) in y.out
    ensures ReplyTrap(y, u, status, y.c.targetOf[u])
  {
    RemoveSorted(y.c.privRx, y.c.targetOf[u]);
  }

  /** A server that may send a RET_UNLINK ahead of a waiting RET_SUBMIT of its target fails. */
  lemma EarlyReplyFails(y: Sys, u: nat, status: int) returns (steps: seq<Step>)
    requires Inv(y)
    requires u in y.c.targetOf && RetUnlink(u, status) in y.out && !Disciplined(y, Reply(RetUnlink(u, status)))
    ensures !Found(Run(y, steps))
  {
    var first := DrainDown(y);
    var z := Run(y, first);
    TameRun(y, first);
    ReplyTrapReady(z, u, status);
    var second := ReplyTrapSprings(z, u, status, y.c.targetOf[u]);
    RunAppend(y, first, second);
    steps := first + second;
  }

  // --- an unlink too early ------------------------------------------------------------------------

  /** The next UNLINK and its SUBMIT are both unsent, and the streams are quiet. */
  predicate SendTrap(y: Sys, u: nat, t: nat) {
    && y.up == [] && y.down == [] && y.c.inHand.None? && y.c.connected
    && y.c.unlinkTx != [] && y.c.unlinkTx[0] == u && y.c.privTx != [] && y.c.privTx[0] == t
    && u in y.c.targetOf && y.c.targetOf[u] == t && t in y.c.urbOf
    && Entry(t, false) !in y.queue && Sorted(y.c.privRx + [t])
  }

  lemma SendTrapReady(y: Sys, u: nat, t: nat)
    requires Domain(y) && Submits(y) && y.up == [] && y.down == [] && y.c.inHand.None?
    requires y.c.unlinkTx != [] && y.c.unlinkTx[0] == u && y.c.privTx != [] && y.c.privTx[0] == t
    requires u in y.c.targetOf && y.c.targetOf[u] == t
    ensures SendTrap(y, u, t)
  {
    assert t in y.c.privTx && u in y.c.unlinkTx;
    AppendSorted(y.c.privRx, t);
  }

  /** SUBMIT is under way, the answer to the overtaking UNLINK has arrived. */
  predicate Overtaken(y: Sys, u: nat, t: nat) {
    && y.up == [CmdSubmit(t)] && y.down == [RetUnlink(u, OK)] && y.c.inHand.None? && y.c.connected
    && u in y.c.unlinkRx && u in y.c.targetOf && y.c.targetOf[u] == t && t in y.c.privRx && t in y.c.urbOf
    && t !in Remove(y.c.privRx, t)
  }

  lemma SendTrapCloses(y: Sys, u: nat, t: nat) returns (steps: seq<Step>)
    requires SendTrap(y, u, t)
    ensures Overtaken(Run(y, steps), u, t)
  {
    var s4 := Reply(RetUnlink(u, OK));
    var a := Apply(y, SendUnlink);
    var b := Apply(a, ServerRecv);
    var c := Apply(b, SendSubmit);
    assert a.up == [CmdUnlink(u, t)];
    assert b.up == [] && RetUnlink(u, OK) in b.out;
    assert c.up == [CmdSubmit(t)] && c.c.privRx == y.c.privRx + [t];
    RemoveSorted(c.c.privRx, t);
    steps := [SendUnlink] + ([ServerRecv] + ([SendSubmit] + ([s4] + [])));
    RunCons(y, SendUnlink, [ServerRecv] + ([SendSubmit] + ([s4] + [])));
    RunCons(a, ServerRecv, [SendSubmit] + ([s4] + []));
    RunCons(b, SendSubmit, [s4] + []);
    RunCons(c, s4, []);
  }

  lemma OvertakenFails(y: Sys, u: nat, t: nat) returns (steps: seq<Step>)
    requires Overtaken(y, u, t)
    ensures !Found(Run(y, steps))
  {
    var s4, s5 := Complete(Entry(t, false), OK), Reply(RetSubmit(t));
    var a := Apply(y, Recv);
    var b := Apply(a, FinishUnlink);
    var c := Apply(b, ServerRecv);
    var d := Apply(c, s4);
    var e := Apply(d, s5);
    assert a.c.inHand == Some((u, OK)) && a.down == [];
    assert t !in b.c.privRx;
    assert Entry(t, false) in c.queue && c.down == [];
    assert e.down == [RetSubmit(t)];
    steps := [Recv] + ([FinishUnlink] + ([ServerRecv] + ([s4] + ([s5] + []))));
    RunCons(y, Recv, [FinishUnlink] + ([ServerRecv] + ([s4] + ([s5] + []))));
    RunCons(a, FinishUnlink, [ServerRecv] + ([s4] + ([s5] + [])));
    RunCons(b, ServerRecv, [s4] + ([s5] + []));
    RunCons(c, s4, [s5] + []);
    RunCons(d, s5, []);
  }

  /** Tame steps bring the offending pair to the heads of their lists. */
  lemma Approach(y: Sys) returns (steps: seq<Step>)
    requires Known(y.c) && y.c.connected && !Disciplined(y, SendUnlink)
    ensures Tame(steps)
    ensures var z := Run(y, steps);
            && z.up == [] && z.down == [] && z.c.inHand.None?
            && z.c.unlinkTx == y.c.unlinkTx && z.c.targetOf == y.c.targetOf
            && z.c.privTx != [] && z.c.privTx[0] == y.c.targetOf[y.c.unlinkTx[0]]
  {
    var s1 := SendUpTo(y, y.c.targetOf[y.c.unlinkTx[0]]);
    var y1 := Run(y, s1);
    var s2 := DrainUp(y1);
    var y2 := Run(y1, s2);
    var s3 := DrainDown(y2);
    RunAppend(y1, s2, s3);
    RunAppend(y, s1, s2 + s3);
    steps := s1 + (s2 + s3);
  }

  /** A client whose next UNLINK may overtake its SUBMIT fails. */
  lemma OvertakingUnlinkFails(y: Sys) returns (steps: seq<Step>)
    requires Inv(y) && !Disciplined(y, SendUnlink)
    ensures !Found(Run(y, steps))
  {
    var u := y.c.unlinkTx[0];
    var t := y.c.targetOf[u];
    var s1 := Approach(y);
    var y1 := Run(y, s1);
    TameRun(y, s1);
    SendTrapReady(y1, u, t);
    var s2 := SendTrapCloses(y1, u, t);
    var s3 := OvertakenFails(Run(y1, s2), u, t);
    RunAppend(y1, s2, s3);
    RunAppend(y, s1, s2 + s3);
    steps := s1 + (s2 + s3);
  }

  lemma SubmittedAndUnlinked() returns (y: Sys, steps: seq<Step>)
    ensures Tame(steps) && y == Run(Initial, steps) && !Disciplined(y, SendUnlink)
  {
    steps := [Enqueue(1)] + ([Dequeue(1)] + []);
    var x := Apply(Initial, Enqueue(1));
    y := Apply(x, Dequeue(1));
    RunCons(Initial, Enqueue(1), [Dequeue(1)] + []);
    RunCons(x, Dequeue(1), []);
    assert x.c.privTx == [1] && x.c.hcpriv == map[1 := 1] && x.c.marked == {};
    assert y.c.unlinkTx == [2] && y.c.privTx == [1] && y.c.targetOf == map[2 := 1];
  }

  /** A sender that may take from either list at any moment reaches such a state, and so can fail. */
  lemma FreeSenderFails() returns (steps: seq<Step>)
    ensures !Found(Run(Initial, steps))
  {
    var y, grown := SubmittedAndUnlinked();
    InitialInv();
    TameRun(Initial, grown);
    var more := OvertakingUnlinkFails(y);
    RunAppend(Initial, grown, more);
    steps := grown + more;
  }

  lemma RunMore(steps: seq<Step>, step: Step)
    ensures Run(Initial, steps + [step]) == Apply(Run(Initial, steps), step)
    ensures DisciplinedRun(Initial, steps + [step]) <==>
              DisciplinedRun(Initial, steps) && Disciplined(Run(Initial, steps), step)
  {
    assert (steps + [step])[..|steps|] == steps;
  }

  lemma CompletedUnsent() returns (steps: seq<Step>)
    ensures DisciplinedRun(Initial, steps)
    ensures var y := Run(Initial, steps);
            && y.c.connected && y.c.privTx == [] && y.c.hcpriv == map[7 := 1] && y.c.marked == {} && y.c.counter == 1
            && y.c.unlinkTx == [] && y.c.targetOf == map[] && y.up == [] && y.queue == {} && RetSubmit(1) in y.out
            && y.c.privRx == [1] && y.c.unlinkRx == [] && y.c.urbOf == map[1 := 7] && y.down == [] && y.c.inHand.None?
  {
    steps := [];
    RunMore(steps, Enqueue(7));
    steps := steps + [Enqueue(7)];
    RunMore(steps, SendSubmit);
    steps := steps + [SendSubmit];
    RunMore(steps, ServerRecv);
    steps := steps + [ServerRecv];
    RunMore(steps, Complete(Entry(1, false), OK));
    steps := steps + [Complete(Entry(1, false), OK)];
  }

  /** In order so far: an unlink is sent for a request that has completed but not been answered. */
  lemma LateUnlink() returns (steps: seq<Step>)
    ensures DisciplinedRun(Initial, steps) && ReplyTrap(Run(Initial, steps), 2, OK, 1)
    ensures !Disciplined(Run(Initial, steps), Reply(RetUnlink(2, OK)))
  {
    steps := CompletedUnsent();
    RunMore(steps, Dequeue(7));
    steps := steps + [Dequeue(7)];
    RunMore(steps, SendUnlink);
    steps := steps + [SendUnlink];
    RunMore(steps, ServerRecv);
    steps := steps + [ServerRecv];
    assert Remove([1], 1) == [];
  }

  /** A server that may send its replies in any order reaches such a state, and so can fail. */
  lemma FreeReplierFails() returns (steps: seq<Step>)
    ensures !Found(Run(Initial, steps))
  {
    var late := LateUnlink();
    var more := ReplyTrapSprings(Run(Initial, late), 2, OK, 1);
    RunAppend(Initial, late, more);
    steps := late + more;
  }
}
