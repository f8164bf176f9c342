/** What the account of module Stub says about the server when vhci is its client: every command is answered. */
module StubAccount {
  import opened Lists
  import P = Protocol
  import opened Transmit
  import S = Stub
  import Y = System

  /** The entry in the server's books for one step of the composed system. */
  function Entry(y: Y.Sys, step: Y.Step): Option<S.Step> {
    match step
    case ServerRecv => if y.up == [] then None else Some(S.Recv(y.up[0]))
    case FinishUrb(i, status) => Some(S.DoComplete(i, status))
    case ServerTx => if y.server.Host? then Some(S.DoTx(y.server.spc)) else None
    case _ => None
  }

  function Book(w: S.World, e: Option<S.Step>): S.World { if e.None? then w else S.Apply(w, e.value) }

  function Account(steps: seq<Y.Step>): S.World {
    if steps == [] then S.Start else
    Book(Account(steps[..|steps| - 1]), Entry(Y.Run(Y.Start(Y.NewHost), steps[..|steps| - 1]), steps[|steps| - 1]))
  }

  /** The server's own run. */
  function Books(steps: seq<Y.Step>): seq<S.Step> {
    if steps == [] then [] else
    var e := Entry(Y.Run(Y.Start(Y.NewHost), steps[..|steps| - 1]), steps[|steps| - 1]);
    Books(steps[..|steps| - 1]) + (if e.None? then [] else [e.value])
  }

  /** The books are about this run: the same server, and the reply stream is what it sent last. */
  ghost predicate Kept(y: Y.Sys, w: S.World) {
    y.server.Host? && w.st == y.server.st && |y.down| <= |w.sent| && w.sent[|w.sent| - |y.down|..] == y.down
  }

  /** Every unlink under way or received is one of the client's, and aims at a submission. */
  ghost predicate Aimed(y: Y.Sys, w: S.World) {
    && Counted(y.c)
    && (forall m :: m in y.up && m.CmdUnlink? ==>
          m.seqnum in y.c.targetOf && m.target !in y.c.targetOf && m.target <= y.c.counter)
    && (forall n :: w.unlinks[n] > 0 ==> n in y.c.targetOf)
  }

  lemma LocalKept(y: Y.Sys, w: S.World, l: P.Step)
    requires Kept(y, w) && IsLocal(l)
    ensures Kept(Y.Apply(y, Y.Local(l)), w)
  {
    var z := Y.Apply(y, Y.Local(l));
    if z.down != y.down {
      assert z.down == y.down[1..];
      assert w.sent[|w.sent| - |z.down|..] == w.sent[|w.sent| - |y.down|..][1..];
    }
  }

  lemma TxKept(y: Y.Sys, w: S.World)
    requires Kept(y, w)
    ensures Kept(Y.Apply(y, Y.ServerTx), S.Apply(w, S.DoTx(y.server.spc)))
  {
    var rets := S.TxStep(y.server.st, y.server.spc).rets;
    var cut := |w.sent| - |y.down|;
    assert (w.sent + rets)[cut..] == w.sent[cut..] + rets;
  }

  lemma RecvKept(y: Y.Sys, w: S.World)
    requires Kept(y, w) && y.up != []
    ensures Kept(Y.Apply(y, Y.ServerRecv), S.Apply(w, S.Recv(y.up[0])))
  {
  }

  lemma LocalAimed(y: Y.Sys, w: S.World, l: P.Step)
    requires Aimed(y, w) && IsLocal(l)
    ensures Aimed(Y.Apply(y, Y.Local(l)), w)
  {
    LocalCounted(y.c, y.down, l);
    LocalNames(y.c, y.down, l);
    StillAimed(y, Y.Apply(y, Y.Local(l)), w);
  }

  lemma StillAimed(y: Y.Sys, z: Y.Sys, w: S.World)
    requires Aimed(y, w) && Counted(z.c) && z.up == y.up && z.c.counter >= y.c.counter
    requires forall n :: n in y.c.targetOf ==> n in z.c.targetOf
    requires forall n :: n in z.c.targetOf ==> n in y.c.targetOf || n > y.c.counter
    ensures Aimed(z, w)
  {
  }

  lemma ClientTxAimed(y: Y.Sys, w: S.World)
    requires Aimed(y, w)
    ensures Aimed(Y.Apply(y, Y.ClientTx), w)
  {
    TxCounted(y.c, y.pc);
    if y.c.unlinkTx != [] {
      assert y.c.unlinkTx[0] in y.c.unlinkTx;
    }
  }

  lemma RecvAimed(y: Y.Sys, w: S.World)
    requires Aimed(y, w) && y.up != []
    ensures Aimed(Y.Apply(y, Y.ServerRecv), S.Apply(w, S.Recv(y.up[0])))
    ensures y.up[0].CmdUnlink? ==> w.unlinks[y.up[0].target] == 0
  {
    assert y.up[0] in y.up;
  }

  predicate AimsAtSubmission(w: S.World, e: Option<S.Step>) {
    e.Some? && e.value.Recv? && e.value.cmd.CmdUnlink? ==> w.unlinks[e.value.cmd.target] == 0
  }

  lemma TxAimed(y: Y.Sys, w: S.World)
    requires Aimed(y, w) && y.server.Host?
    ensures Aimed(Y.Apply(y, Y.ServerTx), S.Apply(w, S.DoTx(y.server.spc)))
  {
  }

  lemma CompleteAgrees(y: Y.Sys, w: S.World, i: nat, status: int)
    requires Kept(y, w) && Aimed(y, w)
    ensures Kept(Y.Apply(y, Y.FinishUrb(i, status)), S.Apply(w, S.DoComplete(i, status)))
    ensures Aimed(Y.Apply(y, Y.FinishUrb(i, status)), S.Apply(w, S.DoComplete(i, status)))
  {
  }

  ghost predicate Agrees(y: Y.Sys, w: S.World) { Kept(y, w) && Aimed(y, w) }

  lemma RecvAgrees(y: Y.Sys, w: S.World)
    requires Agrees(y, w)
    ensures Agrees(Y.Apply(y, Y.ServerRecv), Book(w, Entry(y, Y.ServerRecv)))
    ensures AimsAtSubmission(w, Entry(y, Y.ServerRecv))
  {
    if y.up != [] {
      RecvKept(y, w);
      RecvAimed(y, w);
    }
  }

  lemma TxAgrees(y: Y.Sys, w: S.World)
    requires Agrees(y, w)
    ensures Agrees(Y.Apply(y, Y.ServerTx), Book(w, Entry(y, Y.ServerTx)))
  {
    TxKept(y, w);
    TxAimed(y, w);
  }

  lemma ClientAgrees(y: Y.Sys, w: S.World, step: Y.Step)
    requires Agrees(y, w) && (step.Local? || step.ClientTx?)
    ensures Agrees(Y.Apply(y, step), w)
  {
    if step.ClientTx? {
      ClientTxAimed(y, w);
    } else if IsLocal(step.step) {
      LocalKept(y, w, step.step);
      LocalAimed(y, w, step.step);
    }
  }

  lemma StepAgrees(y: Y.Sys, w: S.World, step: Y.Step)
    requires Agrees(y, w)
    ensures Agrees(Y.Apply(y, step), Book(w, Entry(y, step))) && AimsAtSubmission(w, Entry(y, step))
  {
    match step
    case Local(l) => ClientAgrees(y, w, step);
    case ClientTx => ClientAgrees(y, w, step);
    case ServerRecv => RecvAgrees(y, w);
    case FinishUrb(i, status) => CompleteAgrees(y, w, i, status);
    case ServerTx => TxAgrees(y, w);
  }

  lemma OneEntry(front: seq<S.Step>, step: S.Step)
    ensures S.Run(S.Start, front + [step]) == S.Apply(S.Run(S.Start, front), step)
    ensures S.WellAimed(front + [step]) <==> S.WellAimed(front) && AimsAtSubmission(S.Run(S.Start, front), Some(step))
  {
    assert (front + [step])[..|front|] == front;
  }

  predicate AllAim(steps: seq<Y.Step>) {
    steps == [] ||
    (var front, last := steps[..|steps| - 1], steps[|steps| - 1];
     AllAim(front) && AimsAtSubmission(Account(front), Entry(Y.Run(Y.Start(Y.NewHost), front), last)))
  }

  lemma {:induction false} AccountAgrees(steps: seq<Y.Step>)
    ensures Agrees(Y.Run(Y.Start(Y.NewHost), steps), Account(steps))
    ensures AllAim(steps)
  {
    if steps != [] {
      var front, last := steps[..|steps| - 1], steps[|steps| - 1];
      AccountAgrees(front);
      StepAgrees(Y.Run(Y.Start(Y.NewHost), front), Account(front), last);
    }
  }

  lemma {:induction false} BooksAreAccount(steps: seq<Y.Step>)
    requires AllAim(steps)
    ensures S.Run(S.Start, Books(steps)) == Account(steps) && S.WellAimed(Books(steps))
  {
    if steps != [] {
      var front, last := steps[..|steps| - 1], steps[|steps| - 1];
      var e := Entry(Y.Run(Y.Start(Y.NewHost), front), last);
      BooksAreAccount(front);
      if e.None? {
        assert Books(steps) == Books(front);
      } else {
        OneEntry(Books(front), e.value);
      }
    }
  }

  /** Whatever the server does, vhci aims every CMD_UNLINK at a submission. */
  lemma WellAimed(steps: seq<Y.Step>)
    ensures S.Run(S.Start, Books(steps)) == Account(steps) && S.WellAimed(Books(steps))
    ensures Kept(Y.Run(Y.Start(Y.NewHost), steps), Account(steps))
  {
    AccountAgrees(steps);
    BooksAreAccount(steps);
  }

  /**
   In every run of vhci against stub, under every interleaving: once the server is drained, each
   CMD_UNLINK it received has had exactly one RET_UNLINK with its own number, and each CMD_SUBMIT exactly
   one RET_SUBMIT, or none if an unlink matched it.
   */
  lemma EveryCommandAnswered(steps: seq<Y.Step>, n: nat)
    requires Y.Run(Y.Start(Y.NewHost), steps).server.Host? && S.Drained(Y.Run(Y.Start(Y.NewHost), steps).server.st)
    ensures var w := Account(steps);
            && S.UnlinksSent(w.sent, n) == w.unlinks[n]
            && S.SubmitsSent(w.sent, n) + w.matched[n] == w.submits[n]
            && Kept(Y.Run(Y.Start(Y.NewHost), steps), w)
  {
    WellAimed(steps);
    S.ExactlyOneReply(Books(steps), n);
  }
}
