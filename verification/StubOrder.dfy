/** The order of replies in usbip-host, against the protocol's bag of replies. */
module StubOrder {
  import opened Lists
  import opened Errno
  import P = Protocol
  import opened Servers
  import opened Transmit
  import S = Stub

  ghost predicate SameOut(st: S.Stub, a: P.Sys) {
    && NoDup(st.privTx) && NoDup(st.unlinkTx)
    && (forall s :: P.RetSubmit(s) in a.out <==> s in st.privTx)
    && (forall u, status :: P.RetUnlink(u, status) in a.out <==> S.Pending(u, status) in st.unlinkTx)
  }

  /** In its second drain the server has no RET_UNLINK waiting whose target's RET_SUBMIT waits too. */
  ghost predicate Safe(st: S.Stub, spc: Pc, targetOf: map<nat, nat>) {
    spc.Unlinking? ==> forall p :: p in st.unlinkTx && p.seqnum in targetOf ==> targetOf[p.seqnum] !in st.privTx
  }

  /** A CMD_UNLINK that comes too late does so while the RET_SUBMIT of its target is still to be sent in this round. */
  predicate Calm(st: S.Stub, spc: Pc, cmd: P.Cmd) {
    spc.Unlinking? && Misses(st.privInit, cmd) ==> cmd.target !in st.privTx
  }

  lemma RecvOut(st: S.Stub, a: P.Sys)
    requires P.Submits(a) && P.Unlinks(a) && P.Names(a.c) && a.up != [] && SameOut(st, a)
    requires a.up[0].CmdUnlink? ==> (Misses(st.privInit, a.up[0]) <==> P.Entry(a.up[0].target, false) !in a.queue)
    ensures SameOut(S.RecvCmd(st, a.up[0]), P.DoServerRecv(a))
  {
    assert a.up[0] in a.up;
    if a.up[0].CmdUnlink? {
      assert P.RetUnlink(a.up[0].seqnum, OK) !in a.out;
    }
  }

  lemma RecvSafe(st: S.Stub, spc: Pc, a: P.Sys)
    requires P.Unlinks(a) && a.up != [] && Safe(st, spc, a.c.targetOf) && Calm(st, spc, a.up[0])
    ensures Safe(S.RecvCmd(st, a.up[0]), spc, a.c.targetOf)
  {
    assert a.up[0] in a.up;
  }

  lemma CompleteOut(st: S.Stub, a: P.Sys, e: P.Entry, i: nat, status: int)
    requires P.Submits(a) && P.Unlinks(a) && P.Names(a.c) && SameOut(st, a) && e in a.queue
    requires i < |st.privInit| && st.privInit[i] == e && status != ENOENT
    ensures SameOut(S.Complete(st, i, status), P.DoComplete(a, e, status))
  {
    if e.unlinked {
      assert P.RetUnlink(e.seqnum, status) !in a.out;
    } else {
      assert P.RetSubmit(e.seqnum) !in a.out;
    }
  }

  /** A request that completes was not too late for its unlink, and an unlinked one has no RET_SUBMIT. */
  lemma CompleteSafe(st: S.Stub, spc: Pc, a: P.Sys, e: P.Entry, i: nat, status: int)
    requires P.Submits(a) && P.Unlinks(a) && P.Targets(a) && P.Names(a.c) && SameOut(st, a) && e in a.queue
    requires i < |st.privInit| && st.privInit[i] == e && Safe(st, spc, a.c.targetOf)
    ensures Safe(S.Complete(st, i, status), spc, a.c.targetOf)
  {
    var z, t := S.Complete(st, i, status), a.c.targetOf;
    if spc.Unlinking? {
      forall p | p in z.unlinkTx && p.seqnum in t ensures t[p.seqnum] !in z.privTx {
        if p in st.unlinkTx {
          assert P.RetUnlink(p.seqnum, p.status) in a.out;
        } else {
          assert p.seqnum == e.seqnum && e.unlinked;
          assert P.RetSubmit(t[p.seqnum]) !in a.out;
        }
      }
    }
  }

  lemma TxOut(st: S.Stub, spc: Pc, a: P.Sys)
    requires SameOut(st, a) && S.TxStep(st, spc).rets != []
    ensures SameOut(S.TxStep(st, spc).st, P.DoReply(a, S.TxStep(st, spc).rets[0]))
    ensures S.TxStep(st, spc).rets[0] in a.out
    ensures Safe(st, spc, a.c.targetOf) ==> P.Disciplined(a, P.Reply(S.TxStep(st, spc).rets[0]))
  {
    match spc
    case Submitting => TailMembers(st.privTx); assert st.privTx[0] in st.privTx;
    case Unlinking =>
      TailMembers(st.unlinkTx);
      assert st.unlinkTx[0] in st.unlinkTx;
      assert S.Pending(st.unlinkTx[0].seqnum, st.unlinkTx[0].status) == st.unlinkTx[0];
  }

  lemma TxSafe(st: S.Stub, spc: Pc, targetOf: map<nat, nat>)
    requires Safe(st, spc, targetOf)
    ensures var t := S.TxStep(st, spc); Safe(t.st, t.pc, targetOf)
  {
    if st.unlinkTx != [] {
      HeadAndTail(st.unlinkTx);
    }
  }

  // ---------------------------------------------------------------------------------------------
  // A pair in the wrong order stays so until the RET_UNLINK overtakes.
  // ---------------------------------------------------------------------------------------------

  ghost predicate Offends(p: S.Pending, st: S.Stub, targetOf: map<nat, nat>) {
    p in st.unlinkTx && p.seqnum in targetOf && targetOf[p.seqnum] in st.privTx
  }

  lemma FindOffender(st: S.Stub, spc: Pc, targetOf: map<nat, nat>) returns (p: S.Pending)
    requires !Safe(st, spc, targetOf)
    ensures spc.Unlinking? && Offends(p, st, targetOf)
  {
    p :| p in st.unlinkTx && p.seqnum in targetOf && targetOf[p.seqnum] in st.privTx;
  }

  lemma OffenderUnsafe(p: S.Pending, st: S.Stub, spc: Pc, targetOf: map<nat, nat>)
    requires Offends(p, st, targetOf) && spc.Unlinking?
    ensures !Safe(st, spc, targetOf)
  {
  }
}
