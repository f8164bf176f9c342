/** Which URBs a call of v_timer returns, and why. */
module VudcServe {
  import opened Lists
  import opened Errno
  import P = Protocol
  import opened UrbQueue
  import opened VudcTimer
  import L = VudcLife

  // ---------------------------------------------------------------------------------------------
  // The decision, in terms of the endpoint and of what the gadget answers.
  // ---------------------------------------------------------------------------------------------

  /** A new URB on endpoint 0 carries a control request. */
  predicate IsSetup(d: Dev, u: Urbp) { u.ep == Some(0) && u.no in d.isNew }

  predicate Stalls(d: Dev, u: Urbp) { u.ep.Some? && u.ep.value in d.halted && !IsSetup(d, u) }

  predicate CallsGadget(d: Dev, types: Types, u: Urbp) {
    u.ep.Some? && !Stalls(d, u) && (IsSetup(d, u) || types(u.ep.value) != Isoc)
  }

  /** No such endpoint, a halted or isochronous one, a refused control request, or a transfer that is over. */
  predicate Completes(d: Dev, types: Types, u: Urbp, w: Window) {
    || u.ep.None? || Stalls(d, u)
    || (IsSetup(d, u) && w.setupRet < 0)
    || (!IsSetup(d, u) && types(u.ep.value) == Isoc)
    || w.status != EINPROGRESS
  }

  /** The URB is not unlinked, its turn has come, and the gadget is called for it. */
  predicate Works(d: Dev, types: Types, u: Urbp, total: int) {
    !u.unlinked && !Blocked(d, types, u, total) && CallsGadget(d, types, u)
  }

  predicate Leaves(d: Dev, types: Types, u: Urbp, total: int, w: Window) {
    u.unlinked || (!Blocked(d, types, u, total) && Completes(d, types, u, w))
  }

  /** What transfer() moved in this round. */
  function Spent(d: Dev, types: Types, u: Urbp, total: int, w: Window): nat {
    if Works(d, types, u, total) && !(IsSetup(d, u) && w.setupRet < 0) then w.sent else 0
  }

  function Commanded(works: bool, w: Window): seq<Rx> { if works then w.rx else [] }

  lemma DropLockFields(d: Dev, w: Window)
    ensures var z := DropLock(d, w);
            z.halted == w.halted && z.setupStage == d.setupStage && z.alreadySeen == d.alreadySeen
            && z.q == Run(d.q, Receives(w.rx)) && (d.timer == Running ==> z.timer == Running)
  {
    ReceiveAllRuns(d, w.rx);
  }

  /** Working on an URB whose turn has come. */
  lemma ProcessExactly(d: Dev, types: Types, u: Urbp, total: int, w: Window)
    requires u.ep.Some? && d.setupStage == {} && d.timer == Running
    ensures var p := Process(d, types, u, total, w);
            && (p.status != EINPROGRESS <==> Completes(d, types, u, w))
            && (p.used <==> CallsGadget(d, types, u))
            && p.left == total - (if CallsGadget(d, types, u) && !(IsSetup(d, u) && w.setupRet < 0) then w.sent else 0)
            && p.d.setupStage == {} && p.d.timer == Running
            && p.d.halted == (if CallsGadget(d, types, u) then w.halted else d.halted)
            && p.d.alreadySeen == d.alreadySeen + {u.ep.value}
            && p.d.q == Run(d.q, Receives(Commanded(CallsGadget(d, types, u), w)))
  {
    var s := Seen(d, u);
    DropLockFields(s, w);
    DropLockFields(s.(setupStage := s.setupStage - {0}, halted := s.halted - {0}), w);
  }

  /** Every URB that arrives is new. */
  lemma {:induction false} ArrivalsAreNew(d: Dev, rx: seq<Rx>, no: nat)
    ensures var z := ReceiveAll(d, rx);
            d.q.nextNo <= z.q.nextNo && (no in z.isNew <==> no in d.isNew || d.q.nextNo <= no < z.q.nextNo)
  {
    if rx != [] {
      ArrivalsAreNew(d, rx[..|rx| - 1], no);
    }
  }

  /** Its setup round over, an URB is no longer new. */
  lemma ProcessNews(d: Dev, types: Types, u: Urbp, total: int, w: Window, no: nat)
    requires u.ep.Some? && d.setupStage == {}
    ensures var z := Process(d, types, u, total, w).d;
            no in z.isNew <==> (no in d.isNew && !(IsSetup(d, u) && no == u.no)) || d.q.nextNo <= no < z.q.nextNo
  {
    var s := Seen(d, u);
    ArrivalsAreNew(s, w.rx, no);
    ArrivalsAreNew(s.(setupStage := s.setupStage - {0}, halted := s.halted - {0}), w.rx, no);
  }

  predicate Eligible(d: Dev, types: Types, u: Urbp, total: int) { !u.unlinked && !Blocked(d, types, u, total) }

  function EpOf(u: Urbp): set<nat> { if u.ep.Some? then {u.ep.value} else {} }

  /** One round up to the decision: whether the URB is returned, and everything else. */
  lemma VisitExactly(d: Dev, types: Types, pos: nat, total: int, windows: seq<Window>)
    requires pos < |d.q.urbQueue| && d.setupStage == {}
    ensures var v, u, w := Visit(d, types, pos, total, windows), d.q.urbQueue[pos], NextWindow(d, windows);
            var works := Works(d, types, u, total);
            && (v.ret <==> Leaves(d, types, u, total, w))
            && v.rest == (if works && windows != [] then windows[1..] else windows)
            && v.left == total - Spent(d, types, u, total, w)
            && v.d.q == Run(d.q, Receives(Commanded(works, w)))
            && v.d.halted == (if works then w.halted else d.halted)
            && v.d.alreadySeen == (if Eligible(d, types, u, total) then d.alreadySeen + EpOf(u) else d.alreadySeen)
            && v.d.setupStage == {} && v.d.timer == d.timer
  {
    var u := d.q.urbQueue[pos];
    if u.ep.Some? && d.timer == Running {
      ProcessExactly(d, types, u, total, NextWindow(d, windows));
    }
  }

  /** One whole round. */
  lemma RoundExactly(a: At, types: Types)
    requires Inside(a) && a.d.setupStage == {}
    ensures var b, u, w := Turn(a, types).0, a.d.q.urbQueue[a.pos], NextWindow(a.d, a.rest);
            var works, leaves := Works(a.d, types, u, a.total), Leaves(a.d, types, u, a.total, w);
            && b.d.q == (var r := Run(a.d.q, Receives(Commanded(works, w))); if leaves then DoReturn(r, a.pos) else r)
            && b.pos == (if leaves then 0 else a.pos + 1)
            && b.rest == (if works && a.rest != [] then a.rest[1..] else a.rest)
            && b.total == a.total - Spent(a.d, types, u, a.total, w)
            && b.d.halted == (if works then w.halted else a.d.halted)
            && b.d.alreadySeen == (if leaves then a.d.alreadySeen - EpOf(u)
                                   else if Eligible(a.d, types, u, a.total) then a.d.alreadySeen + EpOf(u)
                                   else a.d.alreadySeen)
            && b.d.setupStage == {} && b.d.timer == a.d.timer
    ensures var b, over := Turn(a, types).0, Turn(a, types).1;
            over <==> if b.pos == 0 then b.d.q.urbQueue == [] else b.pos == |a.d.q.urbQueue|
  {
    VisitExactly(a.d, types, a.pos, a.total, a.rest);
    VisitRuns(a.d, types, a.pos, a.total, a.rest);
    var v, u := Visit(a.d, types, a.pos, a.total, a.rest), a.d.q.urbQueue[a.pos];
    assert v.d.q.urbQueue[a.pos].ep == u.ep;
  }

  /** The new URBs after a round: those before it but for one whose setup stage it was, and all that arrived in it. */
  lemma RoundNews(a: At, types: Types, no: nat)
    requires Inside(a) && a.d.setupStage == {}
    ensures var b, u := Turn(a, types).0.d, a.d.q.urbQueue[a.pos];
            no in b.isNew <==>
              || (no in a.d.isNew && !(Eligible(a.d, types, u, a.total) && IsSetup(a.d, u) && no == u.no))
              || a.d.q.nextNo <= no < b.q.nextNo
  {
    var u := a.d.q.urbQueue[a.pos];
    if u.ep.Some? {
      ProcessNews(a.d, types, u, a.total, NextWindow(a.d, a.rest), no);
    }
  }

  // ---------------------------------------------------------------------------------------------
  // One URB through a whole call.
  // ---------------------------------------------------------------------------------------------

  /** The rounds of a scan, each by the state it starts from. */
  function Rounds(a: At, types: Types): (r: seq<At>)
    requires Inside(a)
    decreases |a.d.q.urbQueue| + ArrivalsLeft(a.rest), |a.d.q.urbQueue| + ArrivalsLeft(a.rest) - a.pos
  {
    TurnMeasure(a, types);
    var (b, over) := Turn(a, types);
    [a] + if over then [] else Rounds(b, types)
  }

  /** In this round the URB's turn has come. */
  predicate TurnOf(a: At, types: Types, u: Urbp) {
    Inside(a) && a.d.q.urbQueue[a.pos] == u && !Blocked(a.d, types, u, a.total)
  }

  /** And it completes. */
  predicate CompletesIn(a: At, types: Types, u: Urbp) {
    TurnOf(a, types, u) && Completes(a.d, types, u, NextWindow(a.d, a.rest))
  }

  ghost predicate HasTurn(rounds: seq<At>, types: Types, u: Urbp) {
    exists k :: 0 <= k < |rounds| && TurnOf(rounds[k], types, u)
  }

  ghost predicate HasCompleted(rounds: seq<At>, types: Types, u: Urbp) {
    exists k :: 0 <= k < |rounds| && CompletesIn(rounds[k], types, u)
  }

  lemma FirstRound(a: At, more: seq<At>, types: Types, u: Urbp)
    ensures HasTurn([a] + more, types, u) <==> TurnOf(a, types, u) || HasTurn(more, types, u)
    ensures HasCompleted([a] + more, types, u) <==> CompletesIn(a, types, u) || HasCompleted(more, types, u)
  {
    var r := [a] + more;
    assert r[0] == a;
    if k :| 0 <= k < |more| && TurnOf(more[k], types, u) { assert r[k + 1] == more[k]; }
    if k :| 0 <= k < |more| && CompletesIn(more[k], types, u) { assert r[k + 1] == more[k]; }
  }

  /** The URB stands at i: not unlinked, the first of its endpoint, and not returned before. */
  ghost predicate Listed(q: Q, u: Urbp, i: nat) {
    && i < |q.urbQueue| && q.urbQueue[i] == u && !u.unlinked
    && (u.ep.Some? ==> forall k :: 0 <= k < i ==> q.urbQueue[k].ep != u.ep)
    && (forall x :: x in q.done ==> x.no != u.no)
  }

  predicate Spares(rx: seq<Rx>, u: Urbp) { forall m :: 0 <= m < |rx| && rx[m].Unlink? ==> rx[m].target != u.seqnum }

  /** No command of these windows unlinks it. */
  predicate AllSpare(windows: seq<Window>, u: Urbp) { forall k :: 0 <= k < |windows| ==> Spares(windows[k].rx, u) }

  lemma ReceiveSpares(q: Q, rx: Rx, u: Urbp, i: nat)
    requires Listed(q, u, i) && (rx.Unlink? ==> rx.target != u.seqnum)
    ensures Listed(DoReceive(q, rx), u, i)
  {
    var z := DoReceive(q, rx).urbQueue;
    if rx.Unlink? {
      var j := Servers.Find(Entries(q.urbQueue), rx.target);
      assert j < |q.urbQueue| ==> Entries(q.urbQueue)[j] == EntryOf(q.urbQueue[j]);
      assert forall k :: 0 <= k < |q.urbQueue| ==> z[k].ep == q.urbQueue[k].ep;
    }
  }

  lemma {:induction false} ReceivesSpare(q: Q, rx: seq<Rx>, u: Urbp, i: nat)
    requires Listed(q, u, i) && Spares(rx, u)
    ensures Listed(Run(q, Receives(rx)), u, i)
  {
    if rx != [] {
      var front, last := rx[..|rx| - 1], rx[|rx| - 1];
      ReceivesSpare(q, front, u, i);
      Extend(q, Receives(front), Receive(last));
      ReceiveSpares(Run(q, Receives(front)), last, u, i);
    }
  }

  /** Another URB is returned. */
  lemma ReturnOther(q: Q, u: Urbp, i: nat, pos: nat)
    requires Listed(q, u, i) && Arrived(q) && pos < |q.urbQueue| && pos != i
    ensures Listed(DoReturn(q, pos), u, if pos < i then i - 1 else i)
  {
    var z, n := DoReturn(q, pos).urbQueue, if pos < i then i - 1 else i;
    assert forall k :: 0 <= k < |z| ==> z[k] == q.urbQueue[if k < pos then k else k + 1];
    assert q.urbQueue[pos].no != q.urbQueue[i].no;
  }

  /** This one is. */
  lemma ReturnThis(q: Q, u: Urbp, i: nat)
    requires Listed(q, u, i)
    ensures u in DoReturn(q, i).done && P.RetSubmit(u.seqnum) in DoReturn(q, i).txQueue
  {
    assert DoReturn(q, i).done[|q.done|] == u;
    assert DoReturn(q, i).txQueue[|q.txQueue|] == P.RetSubmit(u.seqnum);
  }

  lemma {:induction false} RunKeeps(q: Q, steps: seq<Step>, u: Urbp, r: P.Ret)
    ensures u in q.done ==> u in Run(q, steps).done
    ensures r in q.txQueue ==> r in Run(q, steps).txQueue
  {
    if steps != [] {
      RunKeeps(q, steps[..|steps| - 1], u, r);
    }
  }

  lemma {:induction false} ScanTotal(a: At, types: Types)
    requires Inside(a) && a.d.setupStage == {}
    ensures Scan(a, types).total <= a.total
    decreases |a.d.q.urbQueue| + ArrivalsLeft(a.rest), |a.d.q.urbQueue| + ArrivalsLeft(a.rest) - a.pos
  {
    TurnMeasure(a, types);
    RoundExactly(a, types);
    var (b, over) := Turn(a, types);
    if !over {
      ScanTotal(b, types);
    }
  }

  /** All that a round needs and keeps. */
  ghost predicate Sound(a: At, types: Types) {
    Inside(a) && a.d.setupStage == {} && a.d.timer == Running && Scanned(a, types) && Arrived(a.d.q) && InOrder(a.d.q)
  }

  lemma RoundSound(a: At, types: Types)
    requires Sound(a, types)
    ensures var (b, over) := Turn(a, types); (!over ==> Sound(b, types)) && b.d.timer == Running && b.d.setupStage == {}
  {
    TurnLegal(a, types);
    RoundExactly(a, types);
    RunOrder(a.d.q, TurnSteps(a, types));
  }

  lemma WindowSpares(d: Dev, rest: seq<Window>, u: Urbp)
    requires AllSpare(rest, u)
    ensures Spares(NextWindow(d, rest).rx, u) && (rest != [] ==> AllSpare(rest[1..], u))
  {
  }

  lemma OnlyPlace(q: Q, u: Urbp, i: nat, j: nat)
    requires Arrived(q) && i < |q.urbQueue| && j < |q.urbQueue| && q.urbQueue[i] == u && q.urbQueue[j] == u
    ensures i == j
  {
  }

  /** A round leaves the URB listed, unless it completes it. */
  lemma RoundTracks(a: At, types: Types, u: Urbp, i: nat) returns (n: nat)
    requires Sound(a, types) && Listed(a.d.q, u, i) && AllSpare(a.rest, u)
    ensures var b := Turn(a, types).0;
            && AllSpare(b.rest, u)
            && (CompletesIn(a, types, u) ==> u in b.d.q.done && P.RetSubmit(u.seqnum) in b.d.q.txQueue)
            && (!CompletesIn(a, types, u) ==> Listed(b.d.q, u, n))
  {
    var v, w := a.d.q.urbQueue[a.pos], NextWindow(a.d, a.rest);
    var rx := Commanded(Works(a.d, types, v, a.total), w);
    var r := Run(a.d.q, Receives(rx));
    RoundExactly(a, types);
    WindowSpares(a.d, a.rest, u);
    ReceivesSpare(a.d.q, rx, u, i);
    ReceivesGrow(a.d.q, rx);
    RunOrder(a.d.q, Receives(rx));
    n := i;
    if a.pos == i {
      ReturnThis(r, u, i);
    } else {
      if v == u { OnlyPlace(a.d.q, u, i, a.pos); }
      if Leaves(a.d, types, v, a.total, w) {
        ReturnOther(r, u, i, a.pos);
        n := if a.pos < i then i - 1 else i;
      }
    }
  }

  predicate SeenIn(a: At, u: Urbp) { u.ep.Some? && u.ep.value in a.d.alreadySeen }

  /** Bandwidth is left, if the URB needs any. */
  predicate Roomy(types: Types, u: Urbp, total: int) { u.ep.Some? && types(u.ep.value) == Bulk ==> total > 0 }

  /** Of the URBs of its endpoint none has its turn before the first. */
  lemma SeenByTurn(a: At, types: Types, u: Urbp, i: nat)
    requires Sound(a, types) && Listed(a.d.q, u, i) && Roomy(types, u, a.total)
    ensures SeenIn(Turn(a, types).0, u) ==> SeenIn(a, u) || TurnOf(a, types, u)
  {
    RoundExactly(a, types);
    if i < a.pos {
      assert Blocked(a.d, types, a.d.q.urbQueue[i], a.total);
    }
  }

  lemma SeenAtEnd(a: At, types: Types, u: Urbp, i: nat, n: nat)
    requires Sound(a, types) && Listed(a.d.q, u, i) && Roomy(types, u, a.total)
    requires Turn(a, types).1 && Listed(Turn(a, types).0.d.q, u, n)
    ensures SeenIn(a, u) || TurnOf(a, types, u)
  {
    RoundExactly(a, types);
    if i < a.pos {
      assert Blocked(a.d, types, a.d.q.urbQueue[i], a.total);
    }
  }

  /** What becomes of it from here to the end of the scan. */
  ghost predicate Served(a: At, types: Types, u: Urbp)
    requires Inside(a)
  {
    var e, rounds := Scan(a, types), Rounds(a, types);
    && (u in e.d.q.done <==> HasCompleted(rounds, types, u))
    && (u in e.d.q.done ==> P.RetSubmit(u.seqnum) in e.d.q.txQueue)
    && (SeenIn(a, u) || HasTurn(rounds, types, u))
  }

  lemma ServedNow(a: At, types: Types, u: Urbp, i: nat)
    requires Sound(a, types) && Listed(a.d.q, u, i) && AllSpare(a.rest, u) && CompletesIn(a, types, u)
    ensures Served(a, types, u)
  {
    var n := RoundTracks(a, types, u, i);
    TurnMeasure(a, types);
    RoundSound(a, types);
    var (b, over) := Turn(a, types);
    FirstRound(a, if over then [] else Rounds(b, types), types, u);
    if !over {
      ScanLegal(b, types);
      RunKeeps(b.d.q, ScanSteps(b, types), u, P.RetSubmit(u.seqnum));
    }
  }

  lemma ServedLater(a: At, types: Types, u: Urbp, i: nat, n: nat)
    requires Sound(a, types) && Listed(a.d.q, u, i) && Roomy(types, u, a.total) && !CompletesIn(a, types, u)
    requires var (b, over) := Turn(a, types); Listed(b.d.q, u, n) && (!over ==> Inside(b) && Served(b, types, u))
    ensures Served(a, types, u)
  {
    TurnMeasure(a, types);
    var (b, over) := Turn(a, types);
    if over {
      SeenAtEnd(a, types, u, i, n);
      FirstRound(a, [], types, u);
    } else {
      SeenByTurn(a, types, u, i);
      FirstRound(a, Rounds(b, types), types, u);
    }
  }

  lemma {:induction false} ScanServes(a: At, types: Types, u: Urbp, i: nat)
    requires Sound(a, types) && Listed(a.d.q, u, i) && AllSpare(a.rest, u) && Roomy(types, u, Scan(a, types).total)
    ensures Served(a, types, u)
    decreases |a.d.q.urbQueue| + ArrivalsLeft(a.rest), |a.d.q.urbQueue| + ArrivalsLeft(a.rest) - a.pos
  {
    if CompletesIn(a, types, u) {
      ServedNow(a, types, u, i);
    } else {
      var n := RoundTracks(a, types, u, i);
      TurnMeasure(a, types);
      RoundSound(a, types);
      ScanTotal(a, types);
      var (b, over) := Turn(a, types);
      if !over {
        ScanServes(b, types, u, n);
      }
      ServedLater(a, types, u, i, n);
    }
  }

  function FirstRounds(d: Dev, types: Types, limit: int, nextFrame: bool, windows: seq<Window>): seq<At> {
    if limit < 0 || d.q.urbQueue == [] then [] else
    var total := if nextFrame then limit else d.frameLimit;
    Rounds(FirstAt(d.(armed := false, frameLimit := total), total, windows), types)
  }

  /**
   A call of v_timer with the timer running gives every URB that is the first of its endpoint its turn, if
   bandwidth is left for it and no command unlinks it meanwhile; and it returns the URB, with a RET_SUBMIT,
   exactly if in some round that is its turn there is no such endpoint, the endpoint is halted outside the
   setup stage, the control request is refused, the endpoint is isochronous, or the transfer is over.
   */
  lemma TimerServes(d: Dev, types: Types, limit: int, nextFrame: bool, windows: seq<Window>, i: nat)
    requires limit >= 0 && d.timer == Running && d.setupStage == {} && Arrived(d.q) && InOrder(d.q)
    requires i < |d.q.urbQueue| && Listed(d.q, d.q.urbQueue[i], i) && AllSpare(windows, d.q.urbQueue[i])
    requires Roomy(types, d.q.urbQueue[i], Timer(d, types, limit, nextFrame, windows).total)
    ensures var u, e := d.q.urbQueue[i], Timer(d, types, limit, nextFrame, windows).d;
            var rounds := FirstRounds(d, types, limit, nextFrame, windows);
            && HasTurn(rounds, types, u)
            && (u in e.q.done <==> HasCompleted(rounds, types, u))
            && (u in e.q.done ==> P.RetSubmit(u.seqnum) in e.q.txQueue)
  {
    var total := if nextFrame then limit else d.frameLimit;
    ScanServes(FirstAt(d.(armed := false, frameLimit := total), total, windows), types, d.q.urbQueue[i], i);
  }

  function AllSpent(rounds: seq<At>, types: Types): nat {
    if rounds == [] then 0 else
    var a := rounds[0];
    (if Inside(a) then Spent(a.d, types, a.d.q.urbQueue[a.pos], a.total, NextWindow(a.d, a.rest)) else 0)
    + AllSpent(rounds[1..], types)
  }

  lemma {:induction false} ScanSpends(a: At, types: Types)
    requires Inside(a) && a.d.setupStage == {}
    ensures Scan(a, types).total == a.total - AllSpent(Rounds(a, types), types)
    decreases |a.d.q.urbQueue| + ArrivalsLeft(a.rest), |a.d.q.urbQueue| + ArrivalsLeft(a.rest) - a.pos
  {
    TurnMeasure(a, types);
    RoundExactly(a, types);
    var (b, over) := Turn(a, types);
    if !over {
      ScanSpends(b, types);
    }
  }

  /** Bandwidth: a new frame's limit, or what the last one left as it was, less what every transfer moved. */
  lemma TimerSpends(d: Dev, types: Types, limit: int, nextFrame: bool, windows: seq<Window>)
    requires limit >= 0 && d.setupStage == {}
    ensures var e := Timer(d, types, limit, nextFrame, windows);
            && e.total == (if nextFrame then limit else d.frameLimit)
                          - AllSpent(FirstRounds(d, types, limit, nextFrame, windows), types)
            && e.d.frameLimit == if nextFrame then limit else d.frameLimit
  {
    if d.q.urbQueue != [] {
      var total := if nextFrame then limit else d.frameLimit;
      var a := FirstAt(d.(armed := false, frameLimit := total), total, windows);
      ScanSpends(a, types);
      ScanLimit(a, types);
    }
  }

  lemma {:induction false} ReceiveAllLimit(d: Dev, rx: seq<Rx>)
    ensures ReceiveAll(d, rx).frameLimit == d.frameLimit
  {
    if rx != [] {
      ReceiveAllLimit(d, rx[..|rx| - 1]);
    }
  }

  lemma ProcessLimit(d: Dev, types: Types, u: Urbp, total: int, w: Window)
    requires u.ep.Some?
    ensures Process(d, types, u, total, w).d.frameLimit == d.frameLimit
  {
    var s := Seen(d, u);
    ReceiveAllLimit(s, w.rx);
    ReceiveAllLimit(s.(setupStage := s.setupStage - {0}, halted := s.halted - {0}), w.rx);
  }

  lemma TurnLimit(a: At, types: Types)
    requires Inside(a)
    ensures Turn(a, types).0.d.frameLimit == a.d.frameLimit
  {
    var u := a.d.q.urbQueue[a.pos];
    if u.ep.Some? {
      ProcessLimit(a.d, types, u, a.total, NextWindow(a.d, a.rest));
    }
  }

  lemma {:induction false} ScanLimit(a: At, types: Types)
    requires Inside(a)
    ensures Scan(a, types).d.frameLimit == a.d.frameLimit
    decreases |a.d.q.urbQueue| + ArrivalsLeft(a.rest), |a.d.q.urbQueue| + ArrivalsLeft(a.rest) - a.pos
  {
    TurnMeasure(a, types);
    TurnLimit(a, types);
    var (b, over) := Turn(a, types);
    if !over {
      ScanLimit(b, types);
    }
  }

  // ---------------------------------------------------------------------------------------------
  // In every life.
  // ---------------------------------------------------------------------------------------------

  /** No queued URB was returned before. */
  ghost predicate Unreturned(q: Q) {
    forall x, i :: x in q.done && 0 <= i < |q.urbQueue| ==> x.no != q.urbQueue[i].no
  }

  lemma ReceiveUnreturned(q: Q, rx: Rx)
    requires Arrived(q) && Unreturned(q)
    ensures Unreturned(DoReceive(q, rx))
  {
    if rx.Unlink? {
      var z := DoReceive(q, rx).urbQueue;
      assert forall k :: 0 <= k < |q.urbQueue| ==> z[k].no == q.urbQueue[k].no;
    }
  }

  lemma ReturnUnreturned(q: Q, i: nat)
    requires Arrived(q) && Unreturned(q) && i < |q.urbQueue|
    ensures Unreturned(DoReturn(q, i))
  {
    var z := DoReturn(q, i);
    forall x, k | x in z.done && 0 <= k < |z.urbQueue| ensures x.no != z.urbQueue[k].no {
      assert z.urbQueue[k] == q.urbQueue[if k < i then k else k + 1];
      assert x in q.done || x == q.urbQueue[i];
    }
  }

  lemma StepUnreturned(q: Q, step: Step)
    requires Arrived(q) && Unreturned(q)
    ensures Unreturned(Apply(q, step))
  {
    match step
    case Receive(rx) => ReceiveUnreturned(q, rx);
    case Return(i) => if i < |q.urbQueue| { ReturnUnreturned(q, i); }
  }

  lemma {:induction false} RunUnreturned(q: Q, steps: seq<Step>)
    requires Arrived(q) && InOrder(q) && LegalRun(q, steps) && Unreturned(q)
    ensures Unreturned(Run(q, steps))
  {
    if steps != [] {
      var front := steps[..|steps| - 1];
      RunUnreturned(q, front);
      RunOrder(q, front);
      StepUnreturned(Run(q, front), steps[|steps| - 1]);
    }
  }

  lemma {:induction false} ScanStage(a: At, types: Types)
    requires Inside(a) && a.d.setupStage == {}
    ensures Scan(a, types).d.setupStage == {}
    decreases |a.d.q.urbQueue| + ArrivalsLeft(a.rest), |a.d.q.urbQueue| + ArrivalsLeft(a.rest) - a.pos
  {
    TurnMeasure(a, types);
    RoundExactly(a, types);
    var (b, over) := Turn(a, types);
    if !over {
      ScanStage(b, types);
    }
  }

  ghost predicate Clean(d: Dev) { d.setupStage == {} && Unreturned(d.q) && Arrived(d.q) && InOrder(d.q) }

  lemma FireClean(d: Dev, types: Types, limit: int, nextFrame: bool, windows: seq<Window>)
    requires Clean(d)
    ensures Clean(Timer(d, types, limit, nextFrame, windows).d)
  {
    TimerLegal(d, types, limit, nextFrame, windows);
    RunUnreturned(d.q, TimerSteps(d, types, limit, nextFrame, windows));
    RunOrder(d.q, TimerSteps(d, types, limit, nextFrame, windows));
    if limit >= 0 && d.q.urbQueue != [] {
      var total := if nextFrame then limit else d.frameLimit;
      ScanStage(FirstAt(d.(armed := false, frameLimit := total), total, windows), types);
    }
  }

  lemma CommandClean(d: Dev, rx: Rx)
    requires Clean(d)
    ensures Clean(ReceiveCmd(d, rx))
  {
    ReceiveUnreturned(d.q, rx);
    ReceiveOrder(d.q, rx);
  }

  lemma CallClean(d: Dev, types: Types, call: L.Call)
    requires Clean(d)
    ensures Clean(L.Do(d, types, call))
  {
    match call
    case StartTimer(_) =>
    case Command(rx) => CommandClean(d, rx);
    case Fire(limit, nextFrame, windows) => if d.armed { FireClean(d, types, limit, nextFrame, windows); }
    case SendReplies =>
  }

  lemma {:induction false} AlwaysClean(types: Types, calls: seq<L.Call>)
    ensures Clean(L.Live(types, calls))
  {
    if calls != [] {
      AlwaysClean(types, calls[..|calls| - 1]);
      CallClean(L.Live(types, calls[..|calls| - 1]), types, calls[|calls| - 1]);
    }
  }

  /** The first URB of its endpoint, and not unlinked. */
  predicate HeadOfEndpoint(q: seq<Urbp>, i: nat) {
    i < |q| && !q[i].unlinked && (q[i].ep.Some? ==> forall k :: 0 <= k < i ==> q[k].ep != q[i].ep)
  }

  /** So after every sequence of calls, the next call serves every endpoint. */
  lemma EveryEndpointIsServed(types: Types, calls: seq<L.Call>, limit: int, nextFrame: bool, windows: seq<Window>, i: nat)
    requires var d := L.Live(types, calls);
             && limit >= 0 && d.timer == Running && HeadOfEndpoint(d.q.urbQueue, i) && AllSpare(windows, d.q.urbQueue[i])
             && Roomy(types, d.q.urbQueue[i], Timer(d, types, limit, nextFrame, windows).total)
    ensures var d := L.Live(types, calls);
            var u, e := d.q.urbQueue[i], Timer(d, types, limit, nextFrame, windows).d;
            var rounds := FirstRounds(d, types, limit, nextFrame, windows);
            && HasTurn(rounds, types, u)
            && (u in e.q.done <==> HasCompleted(rounds, types, u))
            && (u in e.q.done ==> P.RetSubmit(u.seqnum) in e.q.txQueue)
  {
    AlwaysClean(types, calls);
    TimerServes(L.Live(types, calls), types, limit, nextFrame, windows, i);
  }
}
