/**
 The client and one of the two servers, joined by two byte streams.

 Every lock section of either is a step of its own, the transmit loops included.  A run is calm if, during
 a second drain, no still unsent URB is unlinked, and (for usbip-host) no CMD_UNLINK comes too late for a
 request whose RET_SUBMIT is still unsent.  Calm runs simulate disciplined runs of module Protocol.
 */
module System {
  import opened Lists
  import opened Errno
  import C = Client
  import P = Protocol
  import opened Servers
  import opened Transmit
  import V = Vudc
  import S = Stub
  import O = StubOrder

  // ---------------------------------------------------------------------------------------------
  // The servers.
  // ---------------------------------------------------------------------------------------------

  datatype Server = Gadget(v: V.Vudc) | Host(st: S.Stub, spc: Pc)

  function Queue(s: Server): seq<P.Entry> { if s.Gadget? then s.v.urbQueue else s.st.privInit }

  function Receive(s: Server, cmd: P.Cmd): Server {
    match s
    case Gadget(v) => Gadget(V.RecvCmd(v, cmd))
    case Host(st, spc) => Host(S.RecvCmd(st, cmd), spc)
  }

  /** The request at position i is done; v_timer returns unlinked ones with -ECONNRESET of its own. */
  function Finish(s: Server, i: nat, status: int): Server {
    match s
    case Gadget(v) => Gadget(V.Return(v, i))
    case Host(st, spc) => Host(S.Complete(st, i, status), spc)
  }

  datatype Sending = Sending(s: Server, rets: seq<P.Ret>)

  /** One turn of the server's transmit loop. */
  function Send(s: Server): Sending {
    match s
    case Gadget(v) =>
      if v.txQueue == [] then Sending(s, []) else Sending(Gadget(v.(txQueue := v.txQueue[1..])), [v.txQueue[0]])
    case Host(st, spc) => var t := S.TxStep(st, spc); Sending(Host(t.st, t.pc), t.rets)
  }

  const NewGadget := Gadget(V.Vudc([], []))
  const NewHost := Host(S.Empty, Submitting)

  // ---------------------------------------------------------------------------------------------
  // Client and server together.
  // ---------------------------------------------------------------------------------------------

  /** pc says which drain the client's transmit loop is in. */
  datatype Sys = Sys(c: C.Client, pc: Pc, up: seq<P.Cmd>, server: Server, down: seq<P.Ret>)

  function Start(server: Server): Sys { Sys(C.Initial, Submitting, [], server, []) }

  predicate New(server: Server) { server == NewGadget || server == NewHost }

  datatype Step =
    | Local(step: P.Step)
    | ClientTx
    | ServerRecv
    | FinishUrb(i: nat, status: int)
    | ServerTx

  function Apply(y: Sys, step: Step): Sys {
    match step
    case Local(l) =>
      if !IsLocal(l) then y else
      var (c, down) := LocalStep(y.c, y.down, l);
      y.(c := c, down := down)
    case ClientTx =>
      var t := TxStep(y.c, y.pc);
      y.(c := t.c, pc := t.pc, up := y.up + t.pdus)
    case ServerRecv => if y.up == [] then y else y.(server := Receive(y.server, y.up[0]), up := y.up[1..])
    case FinishUrb(i, status) => y.(server := Finish(y.server, i, status))
    case ServerTx => y.(server := Send(y.server).s, down := y.down + Send(y.server).rets)
  }

  function Run(y: Sys, steps: seq<Step>): Sys {
    if steps == [] then y else Apply(Run(y, steps[..|steps| - 1]), steps[|steps| - 1])
  }

  /** The next reply, if any, is one whose record the client still keeps. */
  predicate Found(y: Sys) {
    P.FoundAt(y.c, y.down)
  }

  // ---------------------------------------------------------------------------------------------
  // Runs in which the order is kept, and runs in which it is not.
  // ---------------------------------------------------------------------------------------------

  ghost predicate ServerSafe(s: Server, targetOf: map<nat, nat>) {
    match s
    case Gadget(v) => V.InOrder(v, targetOf)
    case Host(st, spc) => O.Safe(st, spc, targetOf)
  }

  ghost predicate Safe(y: Sys) { ClientSafe(y.c, y.pc) && ServerSafe(y.server, y.c.targetOf) }

  /** The next RET_UNLINK leaves before the RET_SUBMIT of its target. */
  predicate ServerOvertakes(s: Server, targetOf: map<nat, nat>) {
    var rets := Send(s).rets;
    && rets != [] && rets[0].RetUnlink? && rets[0].seqnum in targetOf
    && (match s
        case Gadget(v) => P.RetSubmit(targetOf[rets[0].seqnum]) in v.txQueue
        case Host(st, _) => targetOf[rets[0].seqnum] in st.privTx)
  }

  predicate Overtaking(y: Sys, step: Step) {
    (step.ClientTx? && Overtakes(y.c, y.pc)) || (step.ServerTx? && ServerOvertakes(y.server, y.c.targetOf))
  }

  predicate Calm(y: Sys, step: Step) {
    match step
    case Local(l) => IsLocal(l) ==> CalmLocal(y.c, y.pc, l)
    case ServerRecv => y.up != [] && y.server.Host? ==> O.Calm(y.server.st, y.server.spc, y.up[0])
    case _ => true
  }

  predicate CalmRun(server: Server, steps: seq<Step>) {
    steps == [] ||
    (CalmRun(server, steps[..|steps| - 1]) && Calm(Run(Start(server), steps[..|steps| - 1]), steps[|steps| - 1]))
  }

  /** Somewhere in the run a message leaves before the one it must follow. */
  predicate Overtaken(server: Server, steps: seq<Step>) {
    steps != [] &&
    (Overtaken(server, steps[..|steps| - 1])
     || Overtaking(Run(Start(server), steps[..|steps| - 1]), steps[|steps| - 1]))
  }

  /** Nothing comes between the sends of a second drain: in particular, one pass of each loop is one step. */
  predicate WholeRounds(server: Server, steps: seq<Step>) {
    steps == [] ||
    (var y, last := Run(Start(server), steps[..|steps| - 1]), steps[|steps| - 1];
     && WholeRounds(server, steps[..|steps| - 1])
     && (y.pc.Unlinking? ==> last.ClientTx?) && (y.server.Host? && y.server.spc.Unlinking? ==> last.ServerTx?))
  }

  lemma {:induction false} WholeRoundsCalm(server: Server, steps: seq<Step>)
    requires WholeRounds(server, steps)
    ensures CalmRun(server, steps)
  {
    if steps != [] {
      WholeRoundsCalm(server, steps[..|steps| - 1]);
    }
  }

  lemma {:induction false} RunCounted(server: Server, steps: seq<Step>)
    ensures Counted(Run(Start(server), steps).c)
  {
    if steps != [] {
      var y, last := Run(Start(server), steps[..|steps| - 1]), steps[|steps| - 1];
      RunCounted(server, steps[..|steps| - 1]);
      TxCounted(y.c, y.pc);
      if last.Local? && IsLocal(last.step) {
        LocalCounted(y.c, y.down, last.step);
      }
    }
  }

  // ---------------------------------------------------------------------------------------------
  // The simulation.
  // ---------------------------------------------------------------------------------------------

  ghost predicate SameOut(s: Server, a: P.Sys) {
    match s
    case Gadget(v) => V.SameOut(v, a)
    case Host(st, _) => O.SameOut(st, a)
  }

  ghost predicate SameServer(s: Server, a: P.Sys) { SameQueue(Queue(s), a) && SameOut(s, a) }

  ghost predicate Sim(y: Sys, a: P.Sys) {
    a.c == y.c && a.up == y.up && a.down == y.down && SameServer(y.server, a)
  }

  predicate Finishes(s: Server, i: nat, status: int) { i < |Queue(s)| && (s.Gadget? || status != ENOENT) }

  function FinishStatus(s: Server, status: int): int { if s.Gadget? then ECONNRESET else status }

  /** The steps of the abstract run that one step stands for. */
  function Abstract(y: Sys, step: Step): seq<P.Step> {
    match step
    case Local(l) => if IsLocal(l) then [l] else []
    case ClientTx => TxSteps(y.c, y.pc)
    case ServerRecv => [P.ServerRecv]
    case FinishUrb(i, status) =>
      if Finishes(y.server, i, status) then [P.Complete(Queue(y.server)[i], FinishStatus(y.server, status))] else []
    case ServerTx => var rets := Send(y.server).rets; if rets == [] then [] else [P.Reply(rets[0])]
  }

  lemma RecvServer(s: Server, a: P.Sys)
    requires P.Submits(a) && P.Unlinks(a) && P.Names(a.c) && a.up != [] && SameServer(s, a)
    ensures SameServer(Receive(s, a.up[0]), P.DoServerRecv(a))
  {
    RecvQueue(Queue(s), a, a.up[0]);
    match s
    case Gadget(v) => V.RecvOut(v, a);
    case Host(st, _) => O.RecvOut(st, a);
  }

  lemma ServerRecvSim(y: Sys, a: P.Sys)
    requires Sim(y, a) && y.up != [] && SameServer(Receive(y.server, a.up[0]), P.DoServerRecv(a))
    ensures Sim(Apply(y, ServerRecv), P.Apply(a, P.ServerRecv))
  {
  }

  lemma FinishServer(s: Server, a: P.Sys, i: nat, status: int)
    requires P.Submits(a) && P.Unlinks(a) && P.Names(a.c) && SameServer(s, a) && Finishes(s, i, status)
    ensures Queue(s)[i] in a.queue
    ensures SameServer(Finish(s, i, status), P.DoComplete(a, Queue(s)[i], FinishStatus(s, status)))
  {
    CompleteQueue(Queue(s), a, i, FinishStatus(s, status));
    match s
    case Gadget(v) => V.ReturnOut(v, a, i);
    case Host(st, _) => O.CompleteOut(st, a, st.privInit[i], i, status);
  }

  lemma FinishSim(y: Sys, a: P.Sys, i: nat, status: int)
    requires Sim(y, a) && Finishes(y.server, i, status)
    requires SameServer(Finish(y.server, i, status),
                        P.DoComplete(a, Queue(y.server)[i], FinishStatus(y.server, status)))
    ensures Sim(Apply(y, FinishUrb(i, status)), P.Apply(a, P.Complete(Queue(y.server)[i], FinishStatus(y.server, status))))
  {
  }

  lemma SendServer(s: Server, a: P.Sys)
    requires SameServer(s, a) && Send(s).rets != []
    ensures |Send(s).rets| == 1 && Send(s).rets[0] in a.out
    ensures SameServer(Send(s).s, P.DoReply(a, Send(s).rets[0]))
    ensures ServerSafe(s, a.c.targetOf) ==> P.Disciplined(a, P.Reply(Send(s).rets[0]))
  {
    match s
    case Gadget(v) => V.SendOut(v, a);
    case Host(st, spc) => O.TxOut(st, spc, a);
  }

  lemma ServerTxSim(y: Sys, a: P.Sys)
    requires Sim(y, a) && ServerSafe(y.server, y.c.targetOf)
    ensures Sim(Apply(y, ServerTx), P.Run(a, Abstract(y, ServerTx)))
    ensures P.DisciplinedRun(a, Abstract(y, ServerTx))
  {
    var rets := Send(y.server).rets;
    if rets == [] {
      assert y.down + [] == y.down;
    } else {
      SendServer(y.server, a);
      SingleRun(a, P.Reply(rets[0]));
      assert rets == [rets[0]];
    }
  }

  lemma LocalSim(y: Sys, a: P.Sys, l: P.Step)
    requires Sim(y, a) && IsLocal(l)
    ensures Sim(Apply(y, Local(l)), P.Apply(a, l)) && P.Disciplined(a, l) && P.Prompt(l)
  {
    LocalAgrees(a, l);
  }

  lemma ClientTxSim(y: Sys, a: P.Sys)
    requires Counted(y.c) && Sim(y, a) && ClientSafe(y.c, y.pc)
    ensures Sim(Apply(y, ClientTx), P.Run(a, TxSteps(y.c, y.pc))) && P.DisciplinedRun(a, TxSteps(y.c, y.pc))
  {
    TxAgrees(a, y.pc);
  }

  /** On the gadget's side every withdrawn request is reported with -ECONNRESET. */
  ghost predicate AllPrompt(s: Server, steps: seq<P.Step>) {
    s.Gadget? ==> forall step :: step in steps ==> P.Prompt(step)
  }

  lemma ServerStepSim(y: Sys, a: P.Sys, step: Step)
    requires P.Submits(a) && P.Unlinks(a) && P.Names(a.c) && Sim(y, a) && ServerSafe(y.server, y.c.targetOf)
    requires step.ServerRecv? || step.FinishUrb? || step.ServerTx?
    ensures Sim(Apply(y, step), P.Run(a, Abstract(y, step))) && P.DisciplinedRun(a, Abstract(y, step))
    ensures AllPrompt(y.server, Abstract(y, step))
  {
    match step
    case ServerRecv =>
      SingleRun(a, P.ServerRecv);
      if y.up != [] { RecvServer(y.server, a); ServerRecvSim(y, a); }
    case FinishUrb(i, status) =>
      if Finishes(y.server, i, status) {
        FinishServer(y.server, a, i, status);
        FinishSim(y, a, i, status);
        SingleRun(a, P.Complete(Queue(y.server)[i], FinishStatus(y.server, status)));
      }
    case ServerTx => ServerTxSim(y, a);
  }

  lemma StepSim(y: Sys, a: P.Sys, step: Step)
    requires P.Inv(a) && Sim(y, a) && Counted(y.c) && Safe(y)
    ensures Sim(Apply(y, step), P.Run(a, Abstract(y, step))) && P.DisciplinedRun(a, Abstract(y, step))
    ensures AllPrompt(y.server, Abstract(y, step))
  {
    match step
    case Local(l) => if IsLocal(l) { LocalSim(y, a, l); SingleRun(a, l); }
    case ClientTx => ClientTxSim(y, a);
    case _ => P.NamesOf(a); ServerStepSim(y, a, step);
  }

  // ---------------------------------------------------------------------------------------------
  // Calm steps keep the order.
  // ---------------------------------------------------------------------------------------------

  lemma RecvSafe(s: Server, a: P.Sys)
    requires P.Unlinks(a) && a.up != [] && ServerSafe(s, a.c.targetOf)
    requires s.Host? ==> O.Calm(s.st, s.spc, a.up[0])
    ensures ServerSafe(Receive(s, a.up[0]), a.c.targetOf)
  {
    if s.Host? {
      O.RecvSafe(s.st, s.spc, a);
    }
  }

  lemma FinishSafe(s: Server, a: P.Sys, i: nat, status: int)
    requires P.Submits(a) && P.Unlinks(a) && P.Targets(a) && P.Names(a.c) && SameServer(s, a)
    requires ServerSafe(s, a.c.targetOf)
    ensures ServerSafe(Finish(s, i, status), a.c.targetOf)
  {
    if i < |Queue(s)| {
      assert Queue(s)[i] in a.queue;
      match s
      case Gadget(v) => V.ReturnOrder(v, a, i);
      case Host(st, spc) => O.CompleteSafe(st, spc, a, st.privInit[i], i, status);
    }
  }

  lemma SendSafe(s: Server, targetOf: map<nat, nat>)
    requires ServerSafe(s, targetOf)
    ensures ServerSafe(Send(s).s, targetOf)
  {
    if s.Host? {
      O.TxSafe(s.st, s.spc, targetOf);
    }
  }

  /** A client step may draw a new name; no waiting reply bears it. */
  lemma NamesSafe(y: Sys, a: P.Sys, l: P.Step)
    requires P.Unlinks(a) && Sim(y, a) && IsLocal(l) && Counted(y.c) && ServerSafe(y.server, y.c.targetOf)
    ensures ServerSafe(y.server, LocalStep(y.c, y.down, l).0.targetOf)
  {
    var t := LocalStep(y.c, y.down, l).0.targetOf;
    match y.server
    case Gadget(v) =>
      forall i | 0 <= i < |v.txQueue| && v.txQueue[i].RetUnlink?
        ensures v.txQueue[i].seqnum in y.c.targetOf && t[v.txQueue[i].seqnum] == y.c.targetOf[v.txQueue[i].seqnum]
      {
        assert v.txQueue[i] in a.out;
        LocalTargets(y.c, y.down, l, v.txQueue[i].seqnum);
      }
    case Host(st, spc) =>
      forall p | p in st.unlinkTx
        ensures p.seqnum in y.c.targetOf && t[p.seqnum] == y.c.targetOf[p.seqnum]
      {
        assert S.Pending(p.seqnum, p.status) == p && P.RetUnlink(p.seqnum, p.status) in a.out;
        LocalTargets(y.c, y.down, l, p.seqnum);
      }
  }

  lemma LocalStepSafe(y: Sys, a: P.Sys, l: P.Step)
    requires P.Unlinks(a) && Sim(y, a) && Counted(y.c) && Safe(y) && IsLocal(l) && CalmLocal(y.c, y.pc, l)
    ensures Safe(Apply(y, Local(l)))
  {
    LocalSafe(y.c, y.down, y.pc, l);
    NamesSafe(y, a, l);
  }

  lemma ClientTxStepSafe(y: Sys)
    requires Counted(y.c) && Safe(y)
    ensures Safe(Apply(y, ClientTx))
  {
    TxSafe(y.c, y.pc);
  }

  lemma StepSafe(y: Sys, a: P.Sys, step: Step)
    requires P.Submits(a) && P.Unlinks(a) && P.Targets(a) && P.Names(a.c)
    requires Sim(y, a) && Counted(y.c) && Safe(y) && Calm(y, step)
    ensures Safe(Apply(y, step))
  {
    match step
    case Local(l) => if IsLocal(l) { LocalStepSafe(y, a, l); }
    case ClientTx => ClientTxStepSafe(y);
    case ServerRecv => if y.up != [] { RecvSafe(y.server, a); }
    case FinishUrb(i, status) => FinishSafe(y.server, a, i, status);
    case ServerTx => SendSafe(y.server, y.c.targetOf);
  }

  lemma SafeInOrder(y: Sys, a: P.Sys, step: Step)
    requires Safe(y) && Counted(y.c) && SameOut(y.server, a)
    ensures !Overtaking(y, step)
  {
    TxSafe(y.c, y.pc);
    match y.server
    case Gadget(v) =>
    case Host(st, spc) => if st.unlinkTx != [] { assert st.unlinkTx[0] in st.unlinkTx; }
  }

  function Piece(server: Server): seq<Step> -> seq<P.Step> {
    (p: seq<Step>) => if p == [] then [] else Abstract(Run(Start(server), p[..|p| - 1]), p[|p| - 1])
  }

  function AbstractRun(server: Server, steps: seq<Step>): seq<P.Step> { Spread(Piece(server), steps) }

  /** The run so far, its counterpart, and the order they keep. */
  ghost predicate Tracks(y: Sys, a: P.Sys) { Sim(y, a) && Safe(y) }

  lemma StepTracks(y: Sys, a: P.Sys, step: Step)
    requires P.Inv(a) && Tracks(y, a) && Counted(y.c) && Calm(y, step)
    ensures Tracks(Apply(y, step), P.Run(a, Abstract(y, step))) && !Overtaking(y, step)
    ensures P.DisciplinedRun(a, Abstract(y, step)) && AllPrompt(y.server, Abstract(y, step))
  {
    StepSim(y, a, step);
    P.NamesOf(a);
    StepSafe(y, a, step);
    SafeInOrder(y, a, step);
  }

  /** Every calm run is a disciplined run of the protocol, and keeps the order. */
  lemma {:induction false} RunSim(server: Server, steps: seq<Step>)
    requires New(server) && CalmRun(server, steps)
    ensures Tracks(Run(Start(server), steps), P.Run(P.Initial, AbstractRun(server, steps)))
    ensures P.DisciplinedRun(P.Initial, AbstractRun(server, steps)) && AllPrompt(server, AbstractRun(server, steps))
    ensures !Overtaken(server, steps)
  {
    if steps != [] {
      var front, last := steps[..|steps| - 1], steps[|steps| - 1];
      var y, a := Run(Start(server), front), P.Run(P.Initial, AbstractRun(server, front));
      RunSim(server, front);
      RunCounted(server, front);
      ReachedInv(AbstractRun(server, front));
      StepTracks(y, a, last);
      SameKind(server, front);
      RunAppend(P.Initial, AbstractRun(server, front), Abstract(y, last));
    }
  }

  lemma ReachedInv(steps: seq<P.Step>)
    requires P.DisciplinedRun(P.Initial, steps)
    ensures P.Inv(P.Run(P.Initial, steps))
  {
    P.InitialInv();
    P.RunInv(P.Initial, steps);
  }

  lemma {:induction false} SameKind(server: Server, steps: seq<Step>)
    ensures Run(Start(server), steps).server.Gadget? == server.Gadget?
  {
    if steps != [] {
      SameKind(server, steps[..|steps| - 1]);
    }
  }

  // ---------------------------------------------------------------------------------------------
  // Of the order of messages the condition is exact.
  // ---------------------------------------------------------------------------------------------

  lemma OffenderStays(y: Sys, step: Step, p: S.Pending)
    requires Counted(y.c) && y.server.Host? && O.Offends(p, y.server.st, y.c.targetOf) && !step.ServerTx?
    ensures var z := Apply(y, step);
            z.server.Host? && z.server.spc == y.server.spc && O.Offends(p, z.server.st, z.c.targetOf)
  {
    if step.Local? && IsLocal(step.step) {
      LocalTargets(y.c, y.down, step.step, p.seqnum);
    }
  }

  lemma OffenderInDrain(y: Sys, p: S.Pending)
    requires y.server.Host? && O.Offends(p, y.server.st, y.c.targetOf) && y.server.spc.Unlinking?
    requires !ServerOvertakes(y.server, y.c.targetOf)
    ensures var z := Apply(y, ServerTx);
            z.server.Host? && z.server.spc.Unlinking? && O.Offends(p, z.server.st, z.c.targetOf)
  {
    HeadAndTail(y.server.st.unlinkTx);
  }

  /** An offending pair stays until the second message overtakes. */
  lemma HostStaysUnsafe(y: Sys, step: Step)
    requires Counted(y.c) && y.server.Host? && !ServerSafe(y.server, y.c.targetOf) && !Overtaking(y, step)
    ensures Apply(y, step).server.Host? && !ServerSafe(Apply(y, step).server, Apply(y, step).c.targetOf)
  {
    var p := O.FindOffender(y.server.st, y.server.spc, y.c.targetOf);
    if step.ServerTx? {
      OffenderInDrain(y, p);
    } else {
      OffenderStays(y, step, p);
    }
    var z := Apply(y, step);
    O.OffenderUnsafe(p, z.server.st, z.server.spc, z.c.targetOf);
  }

  lemma ClientStaysUnsafe(y: Sys, step: Step)
    requires Counted(y.c) && !ClientSafe(y.c, y.pc) && !Overtaking(y, step)
    ensures !ClientSafe(Apply(y, step).c, Apply(y, step).pc)
  {
    match step
    case Local(l) => if IsLocal(l) { LocalUnsafe(y.c, y.down, y.pc, l); }
    case ClientTx => TxUnsafe(y.c, y.pc);
    case _ =>
  }

  /** One of the two offending pairs is there. */
  ghost predicate Offending(y: Sys) {
    !ClientSafe(y.c, y.pc) || (y.server.Host? && !ServerSafe(y.server, y.c.targetOf))
  }

  lemma UncalmOffends(y: Sys, a: P.Sys, step: Step)
    requires P.Unlinks(a) && Sim(y, a) && Counted(y.c) && !Calm(y, step)
    ensures Offending(Apply(y, step))
  {
    match step
    case Local(l) => LocalUnsafe(y.c, y.down, y.pc, l);
    case ServerRecv =>
      assert y.up[0] in a.up;
      var z := Apply(y, step);
      O.OffenderUnsafe(S.Pending(y.up[0].seqnum, OK), z.server.st, z.server.spc, z.c.targetOf);
  }

  lemma {:induction false} UncalmOvertakes(server: Server, steps: seq<Step>)
    requires New(server) && !CalmRun(server, steps)
    ensures Overtaken(server, steps) || Offending(Run(Start(server), steps))
  {
    var front, last := steps[..|steps| - 1], steps[|steps| - 1];
    var y := Run(Start(server), front);
    RunCounted(server, front);
    if CalmRun(server, front) {
      RunSim(server, front);
      ReachedInv(AbstractRun(server, front));
      UncalmOffends(y, P.Run(P.Initial, AbstractRun(server, front)), last);
    } else {
      UncalmOvertakes(server, front);
      if !Overtaken(server, steps) {
        if ClientSafe(y.c, y.pc) { HostStaysUnsafe(y, last); } else { ClientStaysUnsafe(y, last); }
      }
    }
  }

  predicate OutsideSecondDrains(y: Sys) {
    y.pc.Submitting? && (y.server.Host? ==> y.server.spc.Submitting?)
  }

  /** Of the runs that end outside the second drains, the calm ones are the ones in which nothing is overtaken. */
  lemma CalmIsInOrder(server: Server, steps: seq<Step>)
    requires New(server) && OutsideSecondDrains(Run(Start(server), steps))
    ensures CalmRun(server, steps) <==> !Overtaken(server, steps)
  {
    if CalmRun(server, steps) {
      RunSim(server, steps);
    } else {
      UncalmOvertakes(server, steps);
    }
  }

  // ---------------------------------------------------------------------------------------------
  // What every calm run enjoys.
  // ---------------------------------------------------------------------------------------------

  /** The client's next reply finds its record; "cannot find" is unreachable. */
  lemma EveryReplyFindsItsRecord(server: Server, steps: seq<Step>)
    requires New(server) && CalmRun(server, steps)
    ensures Found(Run(Start(server), steps))
  {
    RunSim(server, steps);
    P.EveryReplyFindsItsRecord(AbstractRun(server, steps));
  }

  lemma {:induction false} CalmPrefix(server: Server, steps: seq<Step>, k: nat)
    requires CalmRun(server, steps) && k <= |steps|
    ensures CalmRun(server, steps[..k])
  {
    if k == |steps| {
      assert steps[..k] == steps;
    } else {
      var front := steps[..|steps| - 1];
      assert front[..k] == steps[..k];
      CalmPrefix(server, front, k);
    }
  }

  /** A RET_SUBMIT for s waits in the server or is on its way. */
  predicate Answered(y: Sys, s: nat) {
    || P.RetSubmit(s) in y.down
    || (match y.server
        case Gadget(v) => P.RetSubmit(s) in v.txQueue
        case Host(st, _) => s in st.privTx)
  }

  /**
   A submission given back through the RET_UNLINK path was really cancelled: no RET_SUBMIT for it exists in
   any state of the run, and with usbip-vudc its status is -ECONNRESET.
   */
  lemma UnlinkedWasCancelled(server: Server, steps: seq<Step>, s: nat, k: nat)
    requires New(server) && CalmRun(server, steps) && k <= |steps|
    requires var c := Run(Start(server), steps).c; s in c.outcome && c.outcome[s].Cancelled?
    ensures server.Gadget? ==> Run(Start(server), steps).c.outcome[s].status == ECONNRESET
    ensures !Answered(Run(Start(server), steps[..k]), s)
  {
    RunSim(server, steps);
    CalmPrefix(server, steps, k);
    RunSim(server, steps[..k]);
    SameKind(server, steps[..k]);
    if server.Gadget? {
      P.CancelledStatus(AbstractRun(server, steps), s);
    }
    SpreadPrefix(Piece(server), steps, k);
    P.UnlinkedWasWithdrawn(AbstractRun(server, steps), s, |AbstractRun(server, steps[..k])|);
  }
}
