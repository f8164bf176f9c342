/**
 vhci_tx_loop: it drains priv_tx entry by entry until it is empty, then unlink_tx, and starts again.
 The lock is dropped between entries, so either list may grow at any moment.
 */
module Transmit {
  import opened Lists
  import C = Client
  import P = Protocol

  /** Which of the two drains a transmit loop is in. */
  datatype Pc = Submitting | Unlinking

  /** unlink_seqnum of an unlink record. */
  function Target(u: nat, targetOf: map<nat, nat>): nat { if u in targetOf then targetOf[u] else 0 }

  datatype Tx = Tx(c: C.Client, pc: Pc, pdus: seq<P.Cmd>)

  /** One entry is dequeued and sent; a drain that finds its list empty is over. */
  function TxStep(c: C.Client, pc: Pc): Tx {
    match pc
    case Submitting =>
      if !c.connected || c.privTx == [] then Tx(c, Unlinking, [])
      else Tx(C.SendSubmit(c), Submitting, [P.CmdSubmit(c.privTx[0])])
    case Unlinking =>
      if !c.connected || c.unlinkTx == [] then Tx(c, Submitting, [])
      else Tx(C.SendUnlink(c), Unlinking, [P.CmdUnlink(c.unlinkTx[0], Target(c.unlinkTx[0], c.targetOf))])
  }

  // ---------------------------------------------------------------------------------------------
  // A round with nothing in between.
  // ---------------------------------------------------------------------------------------------

  function SubmitPdus(list: seq<nat>): (r: seq<P.Cmd>)
    ensures |r| == |list|
  {
    if list == [] then [] else [P.CmdSubmit(list[0])] + SubmitPdus(list[1..])
  }

  function UnlinkPdus(list: seq<nat>, targetOf: map<nat, nat>): (r: seq<P.Cmd>)
    ensures |r| == |list|
  {
    if list == [] then [] else [P.CmdUnlink(list[0], Target(list[0], targetOf))] + UnlinkPdus(list[1..], targetOf)
  }

  /** What an undisturbed round leaves of the client, and what it sends. */
  function AfterPass(c: C.Client): C.Client {
    c.(privTx := [], privRx := c.privRx + c.privTx, unlinkTx := [], unlinkRx := c.unlinkRx + c.unlinkTx)
  }

  function PassPdus(c: C.Client): seq<P.Cmd> {
    SubmitPdus(c.privTx) + UnlinkPdus(c.unlinkTx, c.targetOf)
  }

  /** The loop until it is back at its start. */
  function Round(c: C.Client, pc: Pc): Tx
    decreases pc.Submitting?, |c.privTx| + |c.unlinkTx|
  {
    var t := TxStep(c, pc);
    if t.pc.Submitting? && pc.Unlinking? then t else
    var r := Round(t.c, t.pc);
    r.(pdus := t.pdus + r.pdus)
  }

  lemma {:induction false} SecondDrain(c: C.Client)
    requires c.connected
    ensures Round(c, Unlinking) ==
            Tx(c.(unlinkTx := [], unlinkRx := c.unlinkRx + c.unlinkTx), Submitting, UnlinkPdus(c.unlinkTx, c.targetOf))
    decreases |c.unlinkTx|
  {
    if c.unlinkTx == [] {
      assert c.unlinkRx + [] == c.unlinkRx;
    } else {
      SecondDrain(C.SendUnlink(c));
      assert c.unlinkRx + [c.unlinkTx[0]] + c.unlinkTx[1..] == c.unlinkRx + c.unlinkTx;
    }
  }

  /** Undisturbed, a round sends every SUBMIT and then every UNLINK. */
  lemma {:induction false} RoundIsPass(c: C.Client)
    requires c.connected
    ensures Round(c, Submitting) == Tx(AfterPass(c), Submitting, PassPdus(c))
    decreases |c.privTx|
  {
    if c.privTx == [] {
      SecondDrain(c);
      assert c.privRx + [] == c.privRx && [] + UnlinkPdus(c.unlinkTx, c.targetOf) == PassPdus(c);
    } else {
      RoundIsPass(C.SendSubmit(c));
      assert c.privRx + [c.privTx[0]] + c.privTx[1..] == c.privRx + c.privTx;
      assert [P.CmdSubmit(c.privTx[0])] + (SubmitPdus(c.privTx[1..]) + UnlinkPdus(c.unlinkTx, c.targetOf)) == PassPdus(c);
    }
  }

  // ---------------------------------------------------------------------------------------------
  // The client steps that do not send.
  // ---------------------------------------------------------------------------------------------

  predicate IsLocal(step: P.Step) {
    step.Enqueue? || step.Dequeue? || step.OtherPort? || step.Recv? || step.FinishUnlink? || step.Giveback?
  }

  /** Such a step reads and changes only the client and the reply stream. */
  function LocalStep(c: C.Client, down: seq<P.Ret>, step: P.Step): (C.Client, seq<P.Ret>) {
    var z := P.Apply(P.Sys(c, [], {}, {}, down, map[]), step);
    (z.c, z.down)
  }

  lemma LocalAgrees(a: P.Sys, step: P.Step)
    requires IsLocal(step)
    ensures var z := P.Apply(a, step);
            (z.c, z.down) == LocalStep(a.c, a.down, step) && z.up == a.up && z.queue == a.queue && z.out == a.out
  {
  }

  // ---------------------------------------------------------------------------------------------
  // When the order is right.
  // ---------------------------------------------------------------------------------------------

  /** In the second drain, no unlink waits whose submission is still unsent. */
  ghost predicate ClientSafe(c: C.Client, pc: Pc) {
    pc.Unlinking? ==> forall u :: u in c.unlinkTx && u in c.targetOf ==> c.targetOf[u] !in c.privTx
  }

  /** The next UNLINK leaves before its SUBMIT. */
  predicate Overtakes(c: C.Client, pc: Pc) {
    && pc.Unlinking? && c.connected && c.unlinkTx != [] && c.unlinkTx[0] in c.targetOf
    && c.targetOf[c.unlinkTx[0]] in c.privTx
  }

  /** The caller's side of it: during the second drain, no URB is unlinked that is still unsent. */
  predicate CalmLocal(c: C.Client, pc: Pc, step: P.Step) {
    pc.Unlinking? && step.Dequeue? && step.urb in c.hcpriv && step.urb !in c.marked ==> c.hcpriv[step.urb] !in c.privTx
  }

  /** What these proofs need to know of a client; it holds against any peer. */
  ghost predicate Counted(c: C.Client) {
    && c.connected
    && (forall urb :: urb in c.hcpriv ==> c.hcpriv[urb] <= c.counter && c.hcpriv[urb] !in c.targetOf)
    && (forall u :: u in c.targetOf ==> u <= c.counter && c.targetOf[u] <= c.counter && c.targetOf[u] !in c.targetOf)
    && (forall u :: u in c.unlinkTx ==> u in c.targetOf)
  }

  lemma DequeueCounted(c: C.Client, urb: nat)
    requires Counted(c)
    ensures Counted(C.Dequeue(c, urb))
  {
  }

  lemma LocalCounted(c: C.Client, down: seq<P.Ret>, step: P.Step)
    requires Counted(c) && IsLocal(step)
    ensures Counted(LocalStep(c, down, step).0)
  {
    if step.Dequeue? {
      DequeueCounted(c, step.urb);
    }
  }

  /** An unlink record never changes. */
  lemma LocalTargets(c: C.Client, down: seq<P.Ret>, step: P.Step, u: nat)
    requires Counted(c) && IsLocal(step) && u in c.targetOf
    ensures var d := LocalStep(c, down, step).0; u in d.targetOf && d.targetOf[u] == c.targetOf[u]
  {
  }

  /** A new record takes the next number. */
  lemma LocalNames(c: C.Client, down: seq<P.Ret>, step: P.Step)
    requires c.connected && IsLocal(step)
    ensures var d := LocalStep(c, down, step).0;
            && d.counter >= c.counter && (forall n :: n in c.targetOf ==> n in d.targetOf)
            && (forall n :: n in d.targetOf ==> n in c.targetOf || n > c.counter)
  {
  }

  lemma TxCounted(c: C.Client, pc: Pc)
    requires Counted(c)
    ensures Counted(TxStep(c, pc).c)
  {
    if c.unlinkTx != [] {
      HeadAndTail(c.unlinkTx);
    }
  }

  lemma LocalSafe(c: C.Client, down: seq<P.Ret>, pc: Pc, step: P.Step)
    requires Counted(c) && ClientSafe(c, pc) && IsLocal(step) && CalmLocal(c, pc, step)
    ensures ClientSafe(LocalStep(c, down, step).0, pc)
  {
  }

  lemma LocalUnsafe(c: C.Client, down: seq<P.Ret>, pc: Pc, step: P.Step)
    requires Counted(c) && IsLocal(step) && (!ClientSafe(c, pc) || !CalmLocal(c, pc, step))
    ensures !ClientSafe(LocalStep(c, down, step).0, pc)
  {
    var d := LocalStep(c, down, step).0;
    if !ClientSafe(c, pc) {
      var u :| u in c.unlinkTx && u in c.targetOf && c.targetOf[u] in c.privTx;
      assert u in d.unlinkTx && d.targetOf[u] == c.targetOf[u] && c.targetOf[u] in d.privTx;
    } else {
      assert d.unlinkTx[|c.unlinkTx|] == c.counter + 1 && d.privTx == c.privTx;
      assert c.counter + 1 in d.unlinkTx && d.targetOf[c.counter + 1] in d.privTx;
    }
  }

  lemma TxSafe(c: C.Client, pc: Pc)
    requires c.connected && ClientSafe(c, pc)
    ensures var t := TxStep(c, pc); ClientSafe(t.c, t.pc) && !Overtakes(c, pc)
  {
    if c.unlinkTx != [] {
      HeadAndTail(c.unlinkTx);
    }
  }

  /** An offending pair stays until the UNLINK overtakes. */
  lemma TxUnsafe(c: C.Client, pc: Pc)
    requires Counted(c) && !ClientSafe(c, pc)
    ensures var t := TxStep(c, pc); Overtakes(c, pc) || !ClientSafe(t.c, t.pc)
  {
    var u :| u in c.unlinkTx && u in c.targetOf && c.targetOf[u] in c.privTx;
    HeadAndTail(c.unlinkTx);
    if !Overtakes(c, pc) {
      assert u in c.unlinkTx[1..];
    }
  }

  // ---------------------------------------------------------------------------------------------
  // Against the protocol.
  // ---------------------------------------------------------------------------------------------

  /** The protocol's steps for one step of the loop. */
  function TxSteps(c: C.Client, pc: Pc): seq<P.Step> {
    if pc.Submitting? && c.connected && c.privTx != [] then [P.SendSubmit]
    else if pc.Unlinking? && c.connected && c.unlinkTx != [] then [P.SendUnlink]
    else []
  }

  /** z is a with another client and more commands sent. */
  predicate Sent(z: P.Sys, a: P.Sys, c: C.Client, pdus: seq<P.Cmd>) {
    z.c == c && z.up == a.up + pdus && z.queue == a.queue && z.out == a.out && z.down == a.down
  }

  lemma TxAgrees(a: P.Sys, pc: Pc)
    requires Counted(a.c)
    ensures var t := TxStep(a.c, pc); Sent(P.Run(a, TxSteps(a.c, pc)), a, t.c, t.pdus)
    ensures ClientSafe(a.c, pc) ==> P.DisciplinedRun(a, TxSteps(a.c, pc))
  {
    assert a.up + [] == a.up;
    SingleRun(a, P.SendSubmit);
    SingleRun(a, P.SendUnlink);
    if a.c.unlinkTx != [] {
      assert a.c.unlinkTx[0] in a.c.unlinkTx;
    }
  }

  lemma {:induction false} RunAppend(y: P.Sys, a: seq<P.Step>, b: seq<P.Step>)
    ensures P.Run(y, a + b) == P.Run(P.Run(y, a), b)
    ensures P.DisciplinedRun(y, a + b) <==> P.DisciplinedRun(y, a) && P.DisciplinedRun(P.Run(y, a), b)
  {
    if b == [] {
      assert a + b == a;
    } else {
      var front := b[..|b| - 1];
      RunAppend(y, a, front);
      assert (a + b)[..|a + b| - 1] == a + front;
    }
  }

  lemma SingleRun(y: P.Sys, step: P.Step)
    ensures P.Run(y, [step]) == P.Apply(y, step)
    ensures P.DisciplinedRun(y, [step]) <==> P.Disciplined(y, step)
  {
    assert [step][..0] == [];
    assert P.Run(y, []) == y && P.DisciplinedRun(y, []);
  }

  /** The protocol's steps for a whole run; piece(p) are those of the last step of p. */
  function Spread<T>(piece: seq<T> -> seq<P.Step>, steps: seq<T>): seq<P.Step> {
    if steps == [] then [] else Spread(piece, steps[..|steps| - 1]) + piece(steps)
  }

  lemma {:induction false} SpreadPrefix<T>(piece: seq<T> -> seq<P.Step>, steps: seq<T>, k: nat)
    requires k <= |steps|
    ensures |Spread(piece, steps[..k])| <= |Spread(piece, steps)|
    ensures Spread(piece, steps)[..|Spread(piece, steps[..k])|] == Spread(piece, steps[..k])
  {
    if k == |steps| {
      assert steps[..k] == steps;
    } else {
      var front := steps[..|steps| - 1];
      assert front[..k] == steps[..k];
      SpreadPrefix(piece, front, k);
    }
  }
}
