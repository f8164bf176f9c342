/**
 What an uncalm step costs.  From the state it leads to, the system can lose a record without any further
 help from the callers; so the calm runs are exactly those after which every reply finds its record.
 */
module Overtaking {
  import opened Lists
  import opened Errno
  import C = Client
  import P = Protocol
  import opened Transmit
  import S = Stub
  import opened System

  // ---------------------------------------------------------------------------------------------
  // Going on without the callers.
  // ---------------------------------------------------------------------------------------------

  /** No URB is submitted or unlinked, and no CMD_UNLINK comes too late. */
  predicate Quiet(y: Sys, step: Step) {
    && !(step.Local? && (step.step.Enqueue? || step.step.Dequeue?))
    && (step.ServerRecv? ==> Calm(y, step))
  }

  predicate Follows(y: Sys, more: seq<Step>) {
    more == [] || (Follows(y, more[..|more| - 1]) && Quiet(Run(y, more[..|more| - 1]), more[|more| - 1]))
  }

  ghost predicate Leads(y: Sys, z: Sys) { exists more :: Follows(y, more) && Run(y, more) == z }

  lemma {:induction false} RunOn(y: Sys, a: seq<Step>, b: seq<Step>)
    ensures Run(y, a + b) == Run(Run(y, a), b)
    ensures Follows(y, a) && Follows(Run(y, a), b) ==> Follows(y, a + b)
  {
    if b == [] {
      assert a + b == a;
    } else {
      RunOn(y, a, b[..|b| - 1]);
      assert (a + b)[..|a + b| - 1] == a + b[..|b| - 1];
    }
  }

  lemma LeadsSelf(y: Sys)
    ensures Leads(y, y)
  {
    assert Follows(y, []) && Run(y, []) == y;
  }

  lemma LeadsOn(x: Sys, y: Sys, z: Sys)
    requires Leads(x, y) && Leads(y, z)
    ensures Leads(x, z)
  {
    var a :| Follows(x, a) && Run(x, a) == y;
    var b :| Follows(y, b) && Run(y, b) == z;
    RunOn(x, a, b);
  }

  lemma LeadsOne(y: Sys, step: Step)
    requires Quiet(y, step)
    ensures Leads(y, Apply(y, step))
  {
    var more := [step];
    assert more[..0] == [] && Run(y, []) == y && Follows(y, []);
    assert Follows(y, more) && Run(y, more) == Apply(y, step);
  }

  // ---------------------------------------------------------------------------------------------
  // A stream in the wrong order dooms the client.
  // ---------------------------------------------------------------------------------------------

  ghost predicate Knows(c: C.Client) {
    && c.connected && Sorted(c.privRx) && (forall u :: u in c.unlinkRx ==> u in c.targetOf)
    && (c.inHand.Some? ==> c.inHand.value.0 in c.targetOf)
    && (forall s :: s in c.privRx || s in c.privTx ==> s in c.urbOf)
  }

  /** What receiving leaves alone. */
  predicate SameNames(c: C.Client, d: C.Client) { d.targetOf == c.targetOf && d.privTx == c.privTx }

  function Finished(y: Sys): Sys { Apply(y, Local(P.FinishUnlink)) }

  function Received(y: Sys): Sys { Apply(y, Local(P.Recv)) }

  lemma FinishKnows(y: Sys)
    requires Knows(y.c)
    ensures var z := Finished(y);
            && Leads(y, z) && Knows(z.c) && SameNames(y.c, z.c) && z.down == y.down && z.c.inHand.None?
            && (forall s :: s in z.c.privRx ==> s in y.c.privRx)
            && (y.c.inHand.Some? ==> y.c.targetOf[y.c.inHand.value.0] !in z.c.privRx)
  {
    LeadsOne(y, Local(P.FinishUnlink));
    if y.c.inHand.Some? {
      RemoveSorted(y.c.privRx, y.c.targetOf[y.c.inHand.value.0]);
    }
  }

  lemma RecvKnows(y: Sys)
    requires Knows(y.c) && y.down != [] && y.c.inHand.None?
    ensures var z := Received(y);
            && Leads(y, z) && Knows(z.c) && SameNames(y.c, z.c) && z.down == y.down[1..]
            && (forall s :: s in z.c.privRx ==> s in y.c.privRx)
            && (y.down[0].RetUnlink? && y.down[0].seqnum in y.c.unlinkRx ==>
                  z.c.inHand.Some? && z.c.inHand.value.0 == y.down[0].seqnum)
  {
    LeadsOne(y, Local(P.Recv));
    RemoveSorted(y.c.privRx, y.down[0].seqnum);
    RemoveSubset(y.c.unlinkRx, y.down[0].seqnum);
  }

  /** The client no longer has t, and a RET_SUBMIT for it is on its way. */
  lemma {:induction false} Awaited(y: Sys, t: nat, j: nat) returns (z: Sys)
    requires Knows(y.c) && t !in y.c.privRx && j < |y.down| && y.down[j] == P.RetSubmit(t)
    ensures Leads(y, z) && !Found(z)
    decreases j
  {
    var f := Finished(y);
    FinishKnows(y);
    if j == 0 {
      z := f;
    } else {
      RecvKnows(f);
      z := Awaited(Received(f), t, j - 1);
      LeadsOn(f, Received(f), z);
      LeadsOn(y, f, z);
    }
  }

  /** A RET_UNLINK is on its way, and behind it a RET_SUBMIT of its target. */
  lemma {:induction false} Doomed(y: Sys, u: nat, t: nat, i: nat, j: nat) returns (z: Sys)
    requires Knows(y.c) && u in y.c.targetOf && y.c.targetOf[u] == t
    requires i < j < |y.down| && y.down[i].RetUnlink? && y.down[i].seqnum == u && y.down[j] == P.RetSubmit(t)
    ensures Leads(y, z) && !Found(z)
    decreases i
  {
    var f := Finished(y);
    FinishKnows(y);
    if !Found(f) {
      z := f;
    } else {
      var r := Received(f);
      RecvKnows(f);
      if i == 0 {
        z := TakesTarget(r, u, t, j - 1);
      } else {
        z := Doomed(r, u, t, i - 1, j - 1);
      }
      LeadsOn(f, r, z);
      LeadsOn(y, f, z);
    }
  }

  lemma TakesTarget(y: Sys, u: nat, t: nat, j: nat) returns (z: Sys)
    requires Knows(y.c) && u in y.c.targetOf && y.c.targetOf[u] == t && y.c.inHand.Some? && y.c.inHand.value.0 == u
    requires j < |y.down| && y.down[j] == P.RetSubmit(t)
    ensures Leads(y, z) && !Found(z)
  {
    FinishKnows(y);
    z := Awaited(Finished(y), t, j);
    LeadsOn(y, Finished(y), z);
  }

  // ---------------------------------------------------------------------------------------------
  // The server sends what it has.
  // ---------------------------------------------------------------------------------------------

  /** The replies that wait, in the order in which an undisturbed server sends them. */
  function Waiting(s: Server): seq<P.Ret> {
    match s
    case Gadget(v) => v.txQueue
    case Host(st, spc) =>
      if spc.Submitting? then S.Submitted(st.privTx) + S.Cancelled(st.unlinkTx)
      else S.Cancelled(st.unlinkTx) + S.Submitted(st.privTx)
  }

  predicate AtStart(s: Server) { s.Host? ==> s.spc.Submitting? }

  lemma SubmitTakes(x: nat, rest: seq<nat>, more: seq<P.Ret>)
    ensures S.Submitted([x] + rest) + more == [P.RetSubmit(x)] + (S.Submitted(rest) + more)
  {
    assert ([x] + rest)[1..] == rest;
  }

  lemma UnlinkTakes(p: S.Pending, rest: seq<S.Pending>, more: seq<P.Ret>)
    ensures S.Cancelled([p] + rest) + more == [P.RetUnlink(p.seqnum, p.status)] + (S.Cancelled(rest) + more)
  {
    assert ([p] + rest)[1..] == rest;
  }

  lemma HostTakes(st: S.Stub, spc: Pc)
    ensures var t := S.TxStep(st, spc); Waiting(Host(st, spc)) == t.rets + Waiting(Host(t.st, t.pc))
  {
    var x, y := S.Submitted(st.privTx), S.Cancelled(st.unlinkTx);
    if spc.Submitting? {
      if st.privTx == [] {
        assert [] + y == y && y + [] == y && [] + (y + []) == y;
      } else {
        assert st.privTx == [st.privTx[0]] + st.privTx[1..];
        SubmitTakes(st.privTx[0], st.privTx[1..], y);
      }
    } else {
      if st.unlinkTx == [] {
        assert [] + x == x && x + [] == x && [] + (x + []) == x;
      } else {
        assert st.unlinkTx == [st.unlinkTx[0]] + st.unlinkTx[1..];
        UnlinkTakes(st.unlinkTx[0], st.unlinkTx[1..], x);
      }
    }
  }

  lemma SendTakes(s: Server)
    ensures Waiting(s) == Send(s).rets + Waiting(Send(s).s)
    ensures Queue(Send(s).s) == Queue(s)
  {
    if s.Host? {
      HostTakes(s.st, s.spc);
    }
  }

  function Load(s: Server): nat {
    match s
    case Gadget(v) => |v.txQueue|
    case Host(st, spc) =>
      var n := 3 * (|st.privTx| + |st.unlinkTx|);
      if spc.Unlinking? then (if st.privTx != [] then n + 4 else n + 1)
      else if st.privTx != [] then n + 3 else if st.unlinkTx != [] then n + 2 else 0
  }

  lemma SendLightens(s: Server)
    requires Load(s) > 0
    ensures Load(Send(s).s) < Load(s)
  {
  }

  lemma NoLoad(s: Server)
    requires Load(s) == 0
    ensures Waiting(s) == [] && AtStart(s)
  {
  }

  lemma Regrouped<T>(a: seq<T>, b: seq<T>, c: seq<T>)
    ensures a + b + c == a + (b + c)
  {
  }

  /** Everything that waits reaches the stream. */
  lemma {:induction false} Flush(y: Sys) returns (z: Sys)
    ensures Leads(y, z) && z.c == y.c && z.pc == y.pc && z.up == y.up && z.down == y.down + Waiting(y.server)
    ensures Queue(z.server) == Queue(y.server) && Waiting(z.server) == [] && AtStart(z.server)
    decreases Load(y.server)
  {
    if Load(y.server) == 0 {
      NoLoad(y.server);
      LeadsSelf(y);
      assert y.down + [] == y.down;
      z := y;
    } else {
      var x := Apply(y, ServerTx);
      SendTakes(y.server);
      SendLightens(y.server);
      LeadsOne(y, ServerTx);
      z := Flush(x);
      LeadsOn(y, x, z);
      Regrouped(y.down, Send(y.server).rets, Waiting(x.server));
    }
  }

  // ---------------------------------------------------------------------------------------------
  // The client sends what it has.
  // ---------------------------------------------------------------------------------------------

  lemma {:induction false} WholeRound(y: Sys)
    ensures var r := Round(y.c, y.pc); Leads(y, y.(c := r.c, pc := r.pc, up := y.up + r.pdus))
    decreases y.pc.Submitting?, |y.c.privTx| + |y.c.unlinkTx|
  {
    var t, x, r := TxStep(y.c, y.pc), Apply(y, ClientTx), Round(y.c, y.pc);
    LeadsOne(y, ClientTx);
    if t.pc.Submitting? && y.pc.Unlinking? {
    } else {
      WholeRound(x);
      var q := Round(x.c, x.pc);
      assert y.up + t.pdus + q.pdus == y.up + (t.pdus + q.pdus);
      LeadsOn(y, x, y.(c := r.c, pc := r.pc, up := y.up + r.pdus));
    }
  }

  /** The client when everything has been sent, and what it has sent: the unlinks first. */
  function SentAll(c: C.Client): C.Client {
    c.(unlinkTx := [], unlinkRx := c.unlinkRx + c.unlinkTx, privTx := [], privRx := c.privRx + c.privTx)
  }

  lemma SendEverything(y: Sys) returns (z: Sys)
    requires y.c.connected && y.pc.Unlinking?
    ensures Leads(y, z) && z.c == SentAll(y.c) && z.server == y.server && z.down == y.down
    ensures z.up == y.up + UnlinkPdus(y.c.unlinkTx, y.c.targetOf) + SubmitPdus(y.c.privTx)
  {
    var r := Round(y.c, y.pc);
    var x := y.(c := r.c, pc := r.pc, up := y.up + r.pdus);
    WholeRound(y);
    SecondDrain(y.c);
    var q := Round(x.c, x.pc);
    z := x.(c := q.c, pc := q.pc, up := x.up + q.pdus);
    WholeRound(x);
    RoundIsPass(x.c);
    LeadsOn(y, x, z);
    assert SubmitPdus(x.c.privTx) + UnlinkPdus([], x.c.targetOf) == SubmitPdus(x.c.privTx);
    assert r.c.unlinkRx + [] == r.c.unlinkRx;
  }

  // ---------------------------------------------------------------------------------------------
  // The server receives what has been sent.
  // ---------------------------------------------------------------------------------------------

  ghost predicate NoEntry(q: seq<P.Entry>, t: nat) { forall e :: e in q ==> e.seqnum != t }

  lemma ReceiveOther(s: Server, cmd: P.Cmd, t: nat)
    requires NoEntry(Queue(s), t) && cmd.seqnum != t
    ensures NoEntry(Queue(Receive(s, cmd)), t) && AtStart(Receive(s, cmd)) == AtStart(s)
  {
  }

  /** Receiving these commands, none of which has the number t. */
  lemma {:induction false} ReceiveOthers(y: Sys, first: seq<P.Cmd>, rest: seq<P.Cmd>, t: nat) returns (z: Sys)
    requires AtStart(y.server) && y.up == first + rest && NoEntry(Queue(y.server), t)
    requires forall m :: m in first ==> m.seqnum != t
    ensures Leads(y, z) && z.c == y.c && z.pc == y.pc && z.down == y.down && z.up == rest
    ensures AtStart(z.server) && NoEntry(Queue(z.server), t)
    decreases |first|
  {
    if first == [] {
      assert first + rest == rest;
      LeadsSelf(y);
      z := y;
    } else {
      var x := Apply(y, ServerRecv);
      LeadsOne(y, ServerRecv);
      ReceiveOther(y.server, first[0], t);
      assert y.up[0] == first[0] && y.up[1..] == first[1..] + rest;
      z := ReceiveOthers(x, first[1..], rest, t);
      LeadsOn(y, x, z);
    }
  }

  /** An unlink whose target is not there is answered at once. */
  lemma ReceiveMissed(s: Server, u: nat, t: nat)
    requires AtStart(s) && NoEntry(Queue(s), t)
    ensures var z := Receive(s, P.CmdUnlink(u, t));
            AtStart(z) && P.RetUnlink(u, OK) in Waiting(z)
  {
    var q := Queue(s);
    assert forall j :: 0 <= j < |q| ==> q[j] in q && q[j].seqnum != t;
    if s.Host? {
      var z := Receive(s, P.CmdUnlink(u, t));
      CancelledHas(z.st.unlinkTx, |s.st.unlinkTx|);
      assert Waiting(z)[|z.st.privTx| + |s.st.unlinkTx|] == P.RetUnlink(u, OK);
    }
  }

  lemma {:induction false} CancelledHas(list: seq<S.Pending>, i: nat)
    requires i < |list|
    ensures S.Cancelled(list)[i] == P.RetUnlink(list[i].seqnum, list[i].status)
  {
    if i > 0 {
      CancelledHas(list[1..], i - 1);
    }
  }

  lemma {:induction false} SubmittedHas(list: seq<nat>, i: nat)
    requires i < |list|
    ensures S.Submitted(list)[i] == P.RetSubmit(list[i])
  {
    if i > 0 {
      SubmittedHas(list[1..], i - 1);
    }
  }

  /** A submission is queued and answers nothing. */
  lemma ReceiveSubmit(s: Server, x: nat)
    ensures var z := Receive(s, P.CmdSubmit(x));
            Queue(z) == Queue(s) + [P.Entry(x, false)] && Waiting(z) == Waiting(s) && AtStart(z) == AtStart(s)
  {
  }

  lemma {:induction false} ReceiveSubmits(y: Sys, list: seq<nat>) returns (z: Sys)
    requires AtStart(y.server) && y.up == SubmitPdus(list)
    ensures Leads(y, z) && z.c == y.c && z.down == y.down && AtStart(z.server) && Waiting(z.server) == Waiting(y.server)
    ensures forall t :: P.Entry(t, false) in Queue(y.server) || t in list ==> P.Entry(t, false) in Queue(z.server)
    decreases |list|
  {
    if list == [] {
      LeadsSelf(y);
      z := y;
    } else {
      var x := Apply(y, ServerRecv);
      LeadsOne(y, ServerRecv);
      ReceiveSubmit(y.server, list[0]);
      z := ReceiveSubmits(x, list[1..]);
      LeadsOn(y, x, z);
      HeadAndTail(list);
    }
  }

  /** The request is done, and its RET_SUBMIT is all that waits. */
  lemma FinishAnswers(s: Server, t: nat) returns (i: nat)
    requires P.Entry(t, false) in Queue(s) && Waiting(s) == []
    ensures Waiting(Finish(s, i, OK)) == [P.RetSubmit(t)]
  {
    i :| 0 <= i < |Queue(s)| && Queue(s)[i] == P.Entry(t, false);
    if s.Host? {
      assert |Waiting(s)| == |s.st.privTx| + |s.st.unlinkTx|;
      assert s.st.privTx == [] && s.st.unlinkTx == [];
      assert S.Submitted([t]) == [P.RetSubmit(t)] + S.Submitted([]);
    }
  }

  // ---------------------------------------------------------------------------------------------
  // After an URB is unlinked too early.
  // ---------------------------------------------------------------------------------------------

  /** The last unlink waiting is u; its target t is unsent, and unknown to the server. */
  ghost predicate TooEarly(y: Sys, u: nat, t: nat) {
    && y.pc.Unlinking? && y.c.connected && y.c.unlinkTx != [] && y.c.unlinkTx[|y.c.unlinkTx| - 1] == u
    && u in y.c.targetOf && y.c.targetOf[u] == t && t in y.c.privTx && t !in y.c.targetOf
    && (forall m :: m in y.up ==> m.seqnum != t) && NoEntry(Queue(y.server), t)
    && (forall v :: v in y.c.unlinkTx ==> v in y.c.targetOf)
    && Knows(y.c) && Sorted(y.c.privRx + y.c.privTx)
  }

  lemma {:induction false} UnlinkPdusSplit(a: seq<nat>, u: nat, targetOf: map<nat, nat>)
    ensures UnlinkPdus(a + [u], targetOf) == UnlinkPdus(a, targetOf) + [P.CmdUnlink(u, Target(u, targetOf))]
  {
    if a == [] {
      assert a + [u] == [u] && UnlinkPdus([u], targetOf) == [P.CmdUnlink(u, Target(u, targetOf))] + UnlinkPdus([], targetOf);
    } else {
      UnlinkPdusSplit(a[1..], u, targetOf);
      assert (a + [u])[1..] == a[1..] + [u];
    }
  }

  lemma {:induction false} UnlinkPdusNumbers(a: seq<nat>, targetOf: map<nat, nat>, m: P.Cmd)
    requires m in UnlinkPdus(a, targetOf)
    ensures m.seqnum in a
  {
    HeadAndTail(a);
    HeadAndTail(UnlinkPdus(a, targetOf));
    if m != UnlinkPdus(a, targetOf)[0] {
      assert UnlinkPdus(a, targetOf)[1..] == UnlinkPdus(a[1..], targetOf);
      UnlinkPdusNumbers(a[1..], targetOf, m);
    }
  }

  /** What the server has still to read: commands about others, the unlink, the submissions. */
  lemma SentStream(y: Sys, u: nat, t: nat) returns (z: Sys, others: seq<P.Cmd>)
    requires TooEarly(y, u, t) && AtStart(y.server)
    ensures Leads(y, z) && z.c == SentAll(y.c) && z.server == y.server && z.down == y.down
    ensures z.up == others + ([P.CmdUnlink(u, t)] + SubmitPdus(y.c.privTx))
    ensures forall m :: m in others ==> m.seqnum != t
  {
    var list := y.c.unlinkTx[..|y.c.unlinkTx| - 1];
    z := SendEverything(y);
    assert y.c.unlinkTx == list + [u];
    UnlinkPdusSplit(list, u, y.c.targetOf);
    others := y.up + UnlinkPdus(list, y.c.targetOf);
    Regroup(y.up, UnlinkPdus(list, y.c.targetOf), P.CmdUnlink(u, t), SubmitPdus(y.c.privTx));
    OthersOther(y, list, t);
  }

  lemma Regroup<T>(a: seq<T>, b: seq<T>, x: T, d: seq<T>)
    ensures a + (b + [x]) + d == a + b + ([x] + d)
  {
  }

  lemma OthersOther(y: Sys, list: seq<nat>, t: nat)
    requires t !in list && forall m :: m in y.up ==> m.seqnum != t
    ensures forall m :: m in y.up + UnlinkPdus(list, y.c.targetOf) ==> m.seqnum != t
  {
    forall m | m in y.up + UnlinkPdus(list, y.c.targetOf) ensures m.seqnum != t {
      if m !in y.up {
        UnlinkPdusNumbers(list, y.c.targetOf, m);
      }
    }
  }

  lemma SentKnows(c: C.Client)
    requires Knows(c) && Sorted(c.privRx + c.privTx) && forall v :: v in c.unlinkTx ==> v in c.targetOf
    ensures Knows(SentAll(c))
  {
  }

  /** The server has answered the unlink, and then taken the submission. */
  lemma Crossed(y: Sys, u: nat, t: nat) returns (z: Sys)
    requires TooEarly(y, u, t) && AtStart(y.server)
    ensures Leads(y, z) && z.c == SentAll(y.c) && z.down == y.down
    ensures P.RetUnlink(u, OK) in Waiting(z.server) && P.Entry(t, false) in Queue(z.server)
  {
    var sent, others := SentStream(y, u, t);
    var rest := [P.CmdUnlink(u, t)] + SubmitPdus(y.c.privTx);
    var read := ReceiveOthers(sent, others, rest, t);
    var met := Apply(read, ServerRecv);
    LeadsOne(read, ServerRecv);
    ReceiveMissed(read.server, u, t);
    assert met.up == SubmitPdus(y.c.privTx);
    z := ReceiveSubmits(met, y.c.privTx);
    LeadsOn(read, met, z);
    LeadsOn(sent, read, z);
    LeadsOn(y, sent, z);
  }

  /** Both replies are on their way, the wrong one first. */
  /** The request is done, and its RET_SUBMIT sent. */
  lemma Answering(y: Sys, t: nat) returns (z: Sys)
    requires P.Entry(t, false) in Queue(y.server) && Waiting(y.server) == []
    ensures Leads(y, z) && z.c == y.c && z.down == y.down + [P.RetSubmit(t)]
  {
    var n := FinishAnswers(y.server, t);
    var d := Apply(y, FinishUrb(n, OK));
    LeadsOne(y, FinishUrb(n, OK));
    z := Flush(d);
    LeadsOn(y, d, z);
  }

  lemma WaitingAt(w: seq<P.Ret>, r: P.Ret) returns (k: nat)
    requires r in w
    ensures k < |w| && w[k] == r
  {
    k :| 0 <= k < |w| && w[k] == r;
  }

  lemma Crossing(y: Sys, u: nat, t: nat) returns (z: Sys, i: nat, j: nat)
    requires TooEarly(y, u, t) && AtStart(y.server)
    ensures Leads(y, z) && z.c == SentAll(y.c) && i < j < |z.down|
    ensures z.down[i] == P.RetUnlink(u, OK) && z.down[j] == P.RetSubmit(t)
  {
    var b := Crossed(y, u, t);
    var k := WaitingAt(Waiting(b.server), P.RetUnlink(u, OK));
    var c := Flush(b);
    z := Answering(c, t);
    i, j := |b.down| + k, |c.down|;
    LeadsOn(b, c, z);
    LeadsOn(y, b, z);
  }

  lemma EarlyUnlinkFails(y: Sys, u: nat, t: nat) returns (z: Sys)
    requires TooEarly(y, u, t)
    ensures Leads(y, z) && !Found(z)
  {
    var a := Flush(y);
    var b, i, j := Crossing(a, u, t);
    SentKnows(y.c);
    z := Doomed(b, u, t, i, j);
    LeadsOn(a, b, z);
    LeadsOn(y, a, z);
  }

  // ---------------------------------------------------------------------------------------------
  // After a CMD_UNLINK came too late.
  // ---------------------------------------------------------------------------------------------

  ghost predicate TooLate(y: Sys, u: nat, t: nat) {
    && y.server.Host? && y.server.spc.Unlinking? && Knows(y.c) && u in y.c.targetOf && y.c.targetOf[u] == t
    && S.Pending(u, OK) in y.server.st.unlinkTx && t in y.server.st.privTx
  }

  lemma LateUnlinkFails(y: Sys, u: nat, t: nat) returns (z: Sys)
    requires TooLate(y, u, t)
    ensures Leads(y, z) && !Found(z)
  {
    var st := y.server.st;
    var e := Flush(y);
    var i :| 0 <= i < |st.unlinkTx| && st.unlinkTx[i] == S.Pending(u, OK);
    var j :| 0 <= j < |st.privTx| && st.privTx[j] == t;
    CancelledHas(st.unlinkTx, i);
    SubmittedHas(st.privTx, j);
    var w := Waiting(y.server);
    assert w[i] == P.RetUnlink(u, OK) && w[|st.unlinkTx| + j] == P.RetSubmit(t);
    z := Doomed(e, u, t, |y.down| + i, |y.down| + |st.unlinkTx| + j);
    LeadsOn(y, e, z);
  }

  // ---------------------------------------------------------------------------------------------
  // The exact condition.
  // ---------------------------------------------------------------------------------------------

  lemma KnowsOf(a: P.Sys)
    requires P.Domain(a)
    ensures Knows(a.c) && Sorted(a.c.privRx + a.c.privTx)
  {
    SortedParts(a.c.privRx, a.c.privTx);
  }

  /** A submission on priv_tx is unknown to everybody else. */
  lemma UnsentUnknown(y: Sys, a: P.Sys, t: nat)
    requires P.Domain(a) && P.Submits(a) && P.Unlinks(a) && P.Names(a.c) && Sim(y, a) && t in a.c.privTx
    ensures t !in a.c.targetOf && (forall m :: m in y.up ==> m.seqnum != t) && NoEntry(Queue(y.server), t)
  {
    forall e | e in Queue(y.server) ensures e.seqnum != t {
      assert e in a.queue;
    }
  }

  lemma EarlyReady(y: Sys, a: P.Sys, urb: nat)
    requires P.Inv(a) && Sim(y, a) && Counted(y.c) && !CalmLocal(y.c, y.pc, P.Dequeue(urb))
    ensures TooEarly(Apply(y, Local(P.Dequeue(urb))), y.c.counter + 1, y.c.hcpriv[urb])
  {
    P.NamesOf(a);
    KnowsOf(a);
    UnsentUnknown(y, a, y.c.hcpriv[urb]);
    EarlyStep(y, urb);
  }

  lemma EarlyStep(y: Sys, urb: nat)
    requires Counted(y.c) && !CalmLocal(y.c, y.pc, P.Dequeue(urb)) && Knows(y.c) && Sorted(y.c.privRx + y.c.privTx)
    requires forall m :: m in y.up ==> m.seqnum != y.c.hcpriv[urb]
    requires NoEntry(Queue(y.server), y.c.hcpriv[urb])
    ensures TooEarly(Apply(y, Local(P.Dequeue(urb))), y.c.counter + 1, y.c.hcpriv[urb])
  {
  }

  lemma LateReady(y: Sys, a: P.Sys)
    requires P.Domain(a) && P.Unlinks(a) && Sim(y, a) && !Calm(y, ServerRecv)
    ensures TooLate(Apply(y, ServerRecv), y.up[0].seqnum, y.up[0].target)
  {
    KnowsOf(a);
    assert y.up[0] in a.up;
    var z := Apply(y, ServerRecv);
    assert z.server.st.unlinkTx[|y.server.st.unlinkTx|] == S.Pending(y.up[0].seqnum, OK);
  }

  lemma UncalmLeadsToLoss(y: Sys, a: P.Sys, step: Step) returns (z: Sys)
    requires P.Inv(a) && Sim(y, a) && Counted(y.c) && !Calm(y, step)
    ensures Leads(Apply(y, step), z) && !Found(z)
  {
    if step.Local? {
      EarlyReady(y, a, step.step.urb);
      z := EarlyUnlinkFails(Apply(y, step), y.c.counter + 1, y.c.hcpriv[step.step.urb]);
    } else {
      LateReady(y, a);
      z := LateUnlinkFails(Apply(y, step), y.up[0].seqnum, y.up[0].target);
    }
  }

  /** After every calm run and every uncalm step, the system alone can go on to lose a record. */
  lemma UncalmFails(server: Server, steps: seq<Step>, step: Step) returns (z: Sys)
    requires New(server) && CalmRun(server, steps) && !Calm(Run(Start(server), steps), step)
    ensures Leads(Apply(Run(Start(server), steps), step), z) && !Found(z)
  {
    RunSim(server, steps);
    RunCounted(server, steps);
    ReachedInv(AbstractRun(server, steps));
    z := UncalmLeadsToLoss(Run(Start(server), steps), P.Run(P.Initial, AbstractRun(server, steps)), step);
  }

  /** Whatever follows without the callers, every reply finds its record. */
  ghost predicate Secure(y: Sys) {
    forall more :: Follows(y, more) ==> Found(Run(y, more))
  }

  lemma {:induction false} CalmOn(server: Server, steps: seq<Step>, more: seq<Step>)
    requires CalmRun(server, steps) && Follows(Run(Start(server), steps), more)
    ensures CalmRun(server, steps + more) && Run(Start(server), steps + more) == Run(Run(Start(server), steps), more)
  {
    RunOn(Start(server), steps, more);
    if more == [] {
      assert steps + more == steps;
    } else {
      var front := more[..|more| - 1];
      CalmOn(server, steps, front);
      assert (steps + more)[..|steps + more| - 1] == steps + front;
      RunOn(Start(server), steps, front);
    }
  }

  lemma CalmSecure(server: Server, steps: seq<Step>)
    requires New(server) && CalmRun(server, steps)
    ensures Secure(Run(Start(server), steps))
  {
    forall more | Follows(Run(Start(server), steps), more) ensures Found(Run(Run(Start(server), steps), more)) {
      CalmOn(server, steps, more);
      EveryReplyFindsItsRecord(server, steps + more);
    }
  }

  lemma NotSecure(y: Sys, z: Sys)
    requires Leads(y, z) && !Found(z)
    ensures !Secure(y)
  {
  }

  /** The first step that is not calm. */
  lemma {:induction false} FirstUncalm(server: Server, steps: seq<Step>) returns (k: nat)
    requires !CalmRun(server, steps)
    ensures k < |steps| && CalmRun(server, steps[..k]) && !Calm(Run(Start(server), steps[..k]), steps[k])
  {
    var front := steps[..|steps| - 1];
    if CalmRun(server, front) {
      k := |steps| - 1;
    } else {
      k := FirstUncalm(server, front);
      assert front[..k] == steps[..k];
    }
  }

  lemma UncalmInsecure(server: Server, steps: seq<Step>) returns (k: nat)
    requires New(server) && !CalmRun(server, steps)
    ensures k <= |steps| && !Secure(Run(Start(server), steps[..k]))
  {
    var n := FirstUncalm(server, steps);
    var z := UncalmFails(server, steps[..n], steps[n]);
    NotSecure(Apply(Run(Start(server), steps[..n]), steps[n]), z);
    k := n + 1;
    assert steps[..k][..n] == steps[..n];
  }

  /**
   The exact condition for "every reply finds its record": a run is calm if and only if from none of its
   states the client, the server and the streams alone can come to a reply without a record.
   */
  lemma CalmExactly(server: Server, steps: seq<Step>)
    requires New(server)
    ensures CalmRun(server, steps) <==> forall k :: 0 <= k <= |steps| ==> Secure(Run(Start(server), steps[..k]))
  {
    if CalmRun(server, steps) {
      forall k | 0 <= k <= |steps| ensures Secure(Run(Start(server), steps[..k])) {
        CalmPrefix(server, steps, k);
        CalmSecure(server, steps[..k]);
      }
    } else {
      var k := UncalmInsecure(server, steps);
    }
  }

  // ---------------------------------------------------------------------------------------------
  // Such steps happen.
  // ---------------------------------------------------------------------------------------------

  ghost predicate Reachable(server: Server, z: Sys) { exists steps :: Run(Start(server), steps) == z }

  lemma CalmMore(server: Server, steps: seq<Step>, step: Step)
    ensures Run(Start(server), steps + [step]) == Apply(Run(Start(server), steps), step)
    ensures CalmRun(server, steps + [step]) <==> CalmRun(server, steps) && Calm(Run(Start(server), steps), step)
  {
    assert (steps + [step])[..|steps|] == steps;
  }

  lemma LossReachable(server: Server, steps: seq<Step>, step: Step) returns (z: Sys)
    requires New(server) && CalmRun(server, steps) && !Calm(Run(Start(server), steps), step)
    ensures Reachable(server, z) && !Found(z)
  {
    z := UncalmFails(server, steps, step);
    CalmMore(server, steps, step);
    var more :| Follows(Apply(Run(Start(server), steps), step), more)
                && Run(Apply(Run(Start(server), steps), step), more) == z;
    RunOn(Start(server), steps + [step], more);
  }

  /** With either server: an URB is submitted and unlinked while vhci_tx_loop is in its second drain. */
  lemma ClientLoopFails(server: Server) returns (z: Sys)
    requires New(server)
    ensures Reachable(server, z) && !Found(z)
  {
    var steps: seq<Step> := [];
    CalmMore(server, steps, ClientTx);
    steps := steps + [ClientTx];
    CalmMore(server, steps, Local(P.Enqueue(7)));
    steps := steps + [Local(P.Enqueue(7))];
    assert Run(Start(server), steps).c.privTx == [1];
    z := LossReachable(server, steps, Local(P.Dequeue(7)));
  }

  lemma OneHeld() returns (steps: seq<Step>)
    ensures CalmRun(NewHost, steps)
    ensures var y := Run(Start(NewHost), steps);
            && y.pc.Submitting? && y.up == [] && y.down == []
            && y.server == Host(S.Stub([P.Entry(1, false)], [], [], [], []), Submitting)
            && y.c.connected && y.c.privTx == [] && y.c.unlinkTx == [] && y.c.hcpriv == map[7 := 1] && y.c.marked == {}
            && y.c.counter == 1 && y.c.targetOf == map[]
  {
    steps := [];
    CalmMore(NewHost, steps, Local(P.Enqueue(7)));
    steps := steps + [Local(P.Enqueue(7))];
    assert Run(Start(NewHost), steps).c.privTx == [1];
    CalmMore(NewHost, steps, ClientTx);
    steps := steps + [ClientTx];
    assert Run(Start(NewHost), steps).up == [P.CmdSubmit(1)];
    CalmMore(NewHost, steps, ServerRecv);
    steps := steps + [ServerRecv];
  }

  lemma CompletedUnsent() returns (steps: seq<Step>)
    ensures CalmRun(NewHost, steps)
    ensures var y := Run(Start(NewHost), steps);
            && y.pc.Submitting? && y.up == [] && y.down == [] && y.server == Host(S.Stub([], [1], [], [], []), Unlinking)
            && y.c.connected && y.c.privTx == [] && y.c.unlinkTx == [] && y.c.hcpriv == map[7 := 1] && y.c.marked == {}
            && y.c.counter == 1 && y.c.targetOf == map[]
  {
    steps := OneHeld();
    CalmMore(NewHost, steps, ServerTx);
    steps := steps + [ServerTx];
    CalmMore(NewHost, steps, FinishUrb(0, OK));
    steps := steps + [FinishUrb(0, OK)];
  }

  /** With usbip-host: the request completes while stub_tx_loop is in its second drain, and then its unlink arrives. */
  lemma HostLoopFails() returns (z: Sys)
    ensures Reachable(NewHost, z) && !Found(z)
  {
    var steps := CompletedUnsent();
    CalmMore(NewHost, steps, Local(P.Dequeue(7)));
    steps := steps + [Local(P.Dequeue(7))];
    CalmMore(NewHost, steps, ClientTx);
    steps := steps + [ClientTx];
    CalmMore(NewHost, steps, ClientTx);
    steps := steps + [ClientTx];
    assert Run(Start(NewHost), steps).up == [P.CmdUnlink(2, 1)];
    z := LossReachable(NewHost, steps, ServerRecv);
  }
}
