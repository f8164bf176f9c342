/**
 The timer of usbip-vudc: v_timer with its restarts, the receive handlers, and what keeps the timer going.
 This module says what each of them leaves behind; module VudcDevice has the code.
 */
module VudcTimer {
  import opened Lists
  import opened Errno
  import opened UrbQueue

  datatype EpType = Control | Isoc | Bulk | Interrupt

  type Types = nat -> EpType

  datatype TimerState = Running | Idle | Stopped

  /**
   What happens while udc->lock is dropped around the gadget's callbacks in one round: the result of
   the control request, the URB's status and the bytes moved by transfer(), the endpoints halted
   afterwards, and the commands the receiving thread handled meanwhile.
   */
  datatype Window = Window(setupRet: int, status: int, sent: nat, halted: set<nat>, rx: seq<Rx>)

  /** struct vudc.  isNew holds the arrival numbers of the URBs whose new flag is set; armed is mod_timer. */
  datatype Dev = Dev(
    q: Q,
    timer: TimerState,
    armed: bool,
    frameLimit: int,
    alreadySeen: set<nat>,
    setupStage: set<nat>,
    halted: set<nat>,
    isNew: set<nat>)

  const Initial := Dev(UrbQueue.Empty, Stopped, false, 0, {}, {}, {}, {})

  // ---------------------------------------------------------------------------------------------
  // The handlers.
  // ---------------------------------------------------------------------------------------------

  /** v_kick_timer. */
  function Kick(d: Dev): Dev {
    if d.timer == Running then d
    else d.(timer := if d.timer == Idle then Running else d.timer, armed := true)
  }

  /** v_start_timer. */
  function Start(d: Dev, limit: int): Dev {
    match d.timer
    case Running => d
    case Idle => Kick(d)
    case Stopped => Kick(d.(timer := Idle, frameLimit := limit))
  }

  /** v_recv_cmd_submit and v_recv_cmd_unlink: both kick the timer, but for an unlink that finds nothing. */
  function ReceiveCmd(d: Dev, rx: Rx): Dev {
    match rx
    case Submit(s, ep) => Kick(d).(q := DoReceive(d.q, rx), isNew := d.isNew + {d.q.nextNo})
    case Unlink(u, t) =>
      if Servers.Find(Entries(d.q.urbQueue), t) < |d.q.urbQueue| then Kick(d).(q := DoReceive(d.q, rx))
      else d.(q := DoReceive(d.q, rx))
  }

  function ReceiveAll(d: Dev, rx: seq<Rx>): Dev {
    if rx == [] then d else ReceiveCmd(ReceiveAll(d, rx[..|rx| - 1]), rx[|rx| - 1])
  }

  function DropLock(d: Dev, w: Window): Dev { ReceiveAll(d, w.rx).(halted := w.halted) }

  /** return_urb: off the queue, one reply, and the endpoint may be looked at again. */
  function ReturnUrb(d: Dev, pos: nat): Dev
    requires pos < |d.q.urbQueue|
  {
    var u := d.q.urbQueue[pos];
    var gone := if u.ep.Some? then {u.ep.value} else {};
    d.(q := DoReturn(d.q, pos), alreadySeen := d.alreadySeen - gone, setupStage := d.setupStage - gone)
  }

  datatype Processed = Processed(d: Dev, used: bool, status: int, left: int)

  /** The endpoint is marked seen; a new URB on endpoint 0 starts with its setup stage. */
  function Seen(d: Dev, u: Urbp): Dev
    requires u.ep.Some?
  {
    var setup := u.ep.value == 0 && u.no in d.isNew;
    d.(alreadySeen := d.alreadySeen + {u.ep.value},
       setupStage := if setup then d.setupStage + {0} else d.setupStage,
       isNew := if setup then d.isNew - {u.no} else d.isNew)
  }

  /** Unless it stalls or is isochronous, the gadget is called. */
  function Process(d: Dev, types: Types, u: Urbp, total: int, w: Window): Processed
    requires u.ep.Some?
  {
    var e, s := u.ep.value, Seen(d, u);
    if e in s.halted && e !in s.setupStage then Processed(s, false, EPIPE, total)
    else if e == 0 && 0 in s.setupStage then
      var c := DropLock(s.(setupStage := s.setupStage - {0}, halted := s.halted - {0}), w);
      if w.setupRet < 0 then Processed(c, true, EPIPE, total) else Processed(c, true, w.status, total - w.sent)
    else if types(e) == Isoc then Processed(s, false, EXDEV, total)
    else Processed(DropLock(s, w), true, w.status, total - w.sent)
  }

  /** With no window given, nothing happens while the lock is dropped. */
  function NextWindow(d: Dev, windows: seq<Window>): Window {
    if windows == [] then Window(0, EINPROGRESS, 0, d.halted, []) else windows[0]
  }

  datatype Visited = Visited(d: Dev, ret: bool, left: int, rest: seq<Window>)

  /** One round of the scan, up to the decision whether the URB at pos is returned. */
  function Visit(d: Dev, types: Types, pos: nat, total: int, windows: seq<Window>): Visited
    requires pos < |d.q.urbQueue|
  {
    var u := d.q.urbQueue[pos];
    if u.unlinked then Visited(d, true, total, windows)
    else if d.timer != Running then Visited(d, false, total, windows)
    else if u.ep.None? then Visited(d, true, total, windows)
    else if total <= 0 && types(u.ep.value) == Bulk then Visited(d, false, total, windows)
    else if u.ep.value in d.alreadySeen then Visited(d, false, total, windows)
    else
      var p := Process(d, types, u, total, NextWindow(d, windows));
      Visited(p.d, p.status != EINPROGRESS, p.left, if p.used && windows != [] then windows[1..] else windows)
  }

  /**
   Where the scan is.  Two history fields: the windows that were left when it last restarted, and
   whether an unlink has hit a queued URB since.
   */
  datatype At = At(d: Dev, pos: nat, total: int, rest: seq<Window>, since: seq<Window>, late: bool)

  predicate Inside(a: At) { a.pos < |a.d.q.urbQueue| }

  /** One round of the scan, with its return and restart; the flag says that the scan is over. */
  function Turn(a: At, types: Types): (At, bool)
    requires Inside(a)
  {
    var v := Visit(a.d, types, a.pos, a.total, a.rest);
    if v.ret && a.pos < |v.d.q.urbQueue| then
      var r := ReturnUrb(v.d, a.pos);
      (At(r, 0, v.left, v.rest, v.rest, false), r.q.urbQueue == [])
    else (At(v.d, a.pos + 1, v.left, v.rest, a.since, a.late || Hit(a.d.q, Taken(a.rest, v.rest))),
          a.pos + 1 == |a.d.q.urbQueue|)
  }

  function Scan(a: At, types: Types): At
    requires Inside(a)
    decreases |a.d.q.urbQueue| + ArrivalsLeft(a.rest), |a.d.q.urbQueue| + ArrivalsLeft(a.rest) - a.pos
  {
    TurnMeasure(a, types);
    var (b, over) := Turn(a, types);
    if over then b else Scan(b, types)
  }

  function FirstAt(d: Dev, total: int, windows: seq<Window>): At {
    At(d.(alreadySeen := {}), 0, total, windows, windows, false)
  }

  /** v_timer.  An unknown speed has a negative limit; nextFrame says that a frame has passed. */
  function Timer(d: Dev, types: Types, limit: int, nextFrame: bool, windows: seq<Window>): At {
    var fired := d.(armed := false);
    if limit < 0 then At(fired.(timer := Idle), 0, 0, windows, windows, false) else
    var total := if nextFrame then limit else d.frameLimit;
    var a := FirstAt(fired.(frameLimit := total), total, windows);
    var b := if d.q.urbQueue == [] then a else Scan(a, types);
    if b.d.q.urbQueue == [] then b.(d := b.d.(timer := Idle)) else b.(d := b.d.(armed := true))
  }

  // ---------------------------------------------------------------------------------------------
  // How the queue changes while the lock is dropped.
  // ---------------------------------------------------------------------------------------------

  /** Submissions among these commands. */
  function Arrivals(rx: seq<Rx>): nat {
    if rx == [] then 0 else Arrivals(rx[..|rx| - 1]) + (if rx[|rx| - 1].Submit? then 1 else 0)
  }

  /** Submissions that arrive during the windows still to come. */
  function ArrivalsLeft(w: seq<Window>): nat {
    if w == [] then 0 else Arrivals(w[0].rx) + ArrivalsLeft(w[1..])
  }

  function Marks(rx: seq<Rx>): set<nat> {
    set i | 0 <= i < |rx| && rx[i].Unlink? :: rx[i].seqnum
  }

  /** The unlink requests that arrive inside these windows. */
  function AllMarks(w: seq<Window>): set<nat> {
    if w == [] then {} else AllMarks(w[..|w| - 1]) + Marks(w[|w| - 1].rx)
  }

  function Receives(rx: seq<Rx>): (steps: seq<Step>)
    ensures |steps| == |rx|
  {
    if rx == [] then [] else Receives(rx[..|rx| - 1]) + [Receive(rx[|rx| - 1])]
  }

  lemma {:induction false} ReceiveAllRuns(d: Dev, rx: seq<Rx>)
    ensures var z := ReceiveAll(d, rx);
            && z.q == Run(d.q, Receives(rx)) && z.alreadySeen == d.alreadySeen && z.setupStage == d.setupStage
            && (d.timer == Running ==> z.timer == Running && z.armed == d.armed)
  {
    if rx != [] {
      var front := rx[..|rx| - 1];
      ReceiveAllRuns(d, front);
      Extend(d.q, Receives(front), Receive(rx[|rx| - 1]));
    }
  }

  /** b is a with some entries unlinked under a number in marks, and n more at the end. */
  ghost predicate Grown(a: seq<Urbp>, b: seq<Urbp>, n: nat, marks: set<nat>) {
    && |b| == |a| + n
    && (forall j :: 0 <= j < |a| ==>
          b[j] == a[j] || (b[j].ep == a[j].ep && b[j].no == a[j].no && b[j].unlinked && b[j].seqnum in marks))
    && (forall j :: |a| <= j < |b| && b[j].unlinked ==> b[j].seqnum in marks)
  }

  lemma {:induction false} ReceivesGrow(q: Q, rx: seq<Rx>)
    ensures Grown(q.urbQueue, Run(q, Receives(rx)).urbQueue, Arrivals(rx), Marks(rx))
    ensures LegalRun(q, Receives(rx))
  {
    if rx != [] {
      var front, last := rx[..|rx| - 1], rx[|rx| - 1];
      ReceivesGrow(q, front);
      Extend(q, Receives(front), Receive(last));
      GrowOne(q.urbQueue, Run(q, Receives(front)), Arrivals(front), Marks(front), last, Marks(rx));
    }
  }

  lemma GrowOne(a: seq<Urbp>, q: Q, n: nat, marks: set<nat>, rx: Rx, more: set<nat>)
    requires Grown(a, q.urbQueue, n, marks) && marks <= more && (rx.Unlink? ==> rx.seqnum in more)
    ensures Grown(a, DoReceive(q, rx).urbQueue, n + (if rx.Submit? then 1 else 0), more)
  {
  }

  // ---------------------------------------------------------------------------------------------
  // One round.
  // ---------------------------------------------------------------------------------------------

  /** The commands handled in this round. */
  function Taken(before: seq<Window>, after: seq<Window>): seq<Rx> {
    if before == [] || |after| == |before| then [] else before[0].rx
  }

  /** One of these unlinks finds its target queued. */
  predicate Hit(q: Q, rx: seq<Rx>) {
    rx != [] &&
    (var front, last := rx[..|rx| - 1], rx[|rx| - 1];
     var z := Run(q, Receives(front));
     Hit(q, front) || (last.Unlink? && Servers.Find(Entries(z.urbQueue), last.target) < |z.urbQueue|))
  }

  predicate OneFewer(before: seq<Window>, after: seq<Window>) {
    after == before || (before != [] && after == before[1..])
  }

  lemma ProcessRuns(d: Dev, types: Types, u: Urbp, total: int, w: Window)
    requires u.ep.Some? && d.timer == Running
    ensures var p := Process(d, types, u, total, w);
            && p.d.q == Run(d.q, if p.used then Receives(w.rx) else []) && p.d.timer == Running && p.d.armed == d.armed
            && p.d.alreadySeen == d.alreadySeen + {u.ep.value} && p.left <= total
  {
    var s := Seen(d, u);
    DropLockRuns(s, w);
    DropLockRuns(s.(setupStage := s.setupStage - {0}, halted := s.halted - {0}), w);
  }

  lemma DropLockRuns(d: Dev, w: Window)
    requires d.timer == Running
    ensures var z := DropLock(d, w);
            z.q == Run(d.q, Receives(w.rx)) && z.timer == Running && z.armed == d.armed && z.alreadySeen == d.alreadySeen
  {
    ReceiveAllRuns(d, w.rx);
  }

  lemma VisitRuns(d: Dev, types: Types, pos: nat, total: int, windows: seq<Window>)
    requires pos < |d.q.urbQueue|
    ensures var v := Visit(d, types, pos, total, windows);
            && OneFewer(windows, v.rest) && v.d.q == Run(d.q, Receives(Taken(windows, v.rest)))
            && Grown(d.q.urbQueue, v.d.q.urbQueue, Arrivals(Taken(windows, v.rest)), Marks(Taken(windows, v.rest)))
  {
    var u, v := d.q.urbQueue[pos], Visit(d, types, pos, total, windows);
    if u.ep.Some? && d.timer == Running {
      ProcessRuns(d, types, u, total, NextWindow(d, windows));
    }
    ReceivesGrow(d.q, Taken(windows, v.rest));
  }

  lemma TurnMeasure(a: At, types: Types)
    requires Inside(a)
    ensures var (b, over) := Turn(a, types);
            var m, n := |a.d.q.urbQueue| + ArrivalsLeft(a.rest), |b.d.q.urbQueue| + ArrivalsLeft(b.rest);
            && OneFewer(a.rest, b.rest) && (n == m - 1 || (n == m && b.pos == a.pos + 1)) && (!over ==> Inside(b))
  {
    VisitRuns(a.d, types, a.pos, a.total, a.rest);
  }

  // ---------------------------------------------------------------------------------------------
  // The steps of a whole scan, and which windows they belong to.
  // ---------------------------------------------------------------------------------------------

  function TurnSteps(a: At, types: Types): seq<Step>
    requires Inside(a)
  {
    var v := Visit(a.d, types, a.pos, a.total, a.rest);
    Receives(Taken(a.rest, v.rest)) + (if v.ret && a.pos < |v.d.q.urbQueue| then [Return(a.pos)] else [])
  }

  function ScanSteps(a: At, types: Types): seq<Step>
    requires Inside(a)
    decreases |a.d.q.urbQueue| + ArrivalsLeft(a.rest), |a.d.q.urbQueue| + ArrivalsLeft(a.rest) - a.pos
  {
    TurnMeasure(a, types);
    var (b, over) := Turn(a, types);
    TurnSteps(a, types) + if over then [] else ScanSteps(b, types)
  }

  /** Everything the timer does to the queue. */
  function TimerSteps(d: Dev, types: Types, limit: int, nextFrame: bool, windows: seq<Window>): seq<Step> {
    if limit < 0 || d.q.urbQueue == [] then [] else
    var total := if nextFrame then limit else d.frameLimit;
    ScanSteps(FirstAt(d.(armed := false, frameLimit := total), total, windows), types)
  }

  /** Why an URB passed over in this scan cannot be the one processed next. */
  predicate Blocked(d: Dev, types: Types, u: Urbp, total: int) {
    d.timer != Running ||
    (u.ep.Some? && (u.ep.value in d.alreadySeen || (total <= 0 && types(u.ep.value) == Bulk)))
  }

  ghost predicate Scanned(a: At, types: Types) {
    a.pos <= |a.d.q.urbQueue| && forall j :: 0 <= j < a.pos ==> Blocked(a.d, types, a.d.q.urbQueue[j], a.total)
  }

  /** Nothing that blocked an entry goes away within a round. */
  predicate KeepsBlocking(d: Dev, z: Dev, total: int, left: int) {
    (z == d && left == total) ||
    (d.timer == Running && z.timer == Running && d.alreadySeen <= z.alreadySeen && left <= total)
  }

  lemma BlockedStays(d: Dev, z: Dev, types: Types, total: int, left: int, u: Urbp, v: Urbp)
    requires KeepsBlocking(d, z, total, left) && Blocked(d, types, u, total) && v.ep == u.ep
    ensures Blocked(z, types, v, left)
  {
  }

  lemma VisitKeeps(d: Dev, types: Types, pos: nat, total: int, windows: seq<Window>)
    requires pos < |d.q.urbQueue|
    ensures var v := Visit(d, types, pos, total, windows);
            && KeepsBlocking(d, v.d, total, v.left)
            && (!v.ret ==> Blocked(v.d, types, d.q.urbQueue[pos], v.left) && !d.q.urbQueue[pos].unlinked)
            && (v.ret && !d.q.urbQueue[pos].unlinked ==>
                  d.timer == Running && (d.q.urbQueue[pos].ep.Some? ==>
                    !Blocked(d, types, d.q.urbQueue[pos], total)))
  {
    var u := d.q.urbQueue[pos];
    if u.ep.Some? && d.timer == Running {
      ProcessRuns(d, types, u, total, NextWindow(d, windows));
    }
  }

  lemma VisitBlocks(a: At, types: Types)
    requires Inside(a) && Scanned(a, types)
    ensures var v := Visit(a.d, types, a.pos, a.total, a.rest);
            && a.pos < |v.d.q.urbQueue|
            && (v.ret ==> v.d.q.urbQueue[a.pos].unlinked
                          || forall j :: 0 <= j < a.pos ==> v.d.q.urbQueue[j].ep != v.d.q.urbQueue[a.pos].ep)
            && (!v.ret ==> Scanned(At(v.d, a.pos + 1, v.left, v.rest, a.since, false), types)
                           && !a.d.q.urbQueue[a.pos].unlinked)
  {
    VisitRuns(a.d, types, a.pos, a.total, a.rest);
    VisitKeeps(a.d, types, a.pos, a.total, a.rest);
    var v := Visit(a.d, types, a.pos, a.total, a.rest);
    var q, r := a.d.q.urbQueue, v.d.q.urbQueue;
    if v.ret {
      if !r[a.pos].unlinked {
        forall j | 0 <= j < a.pos ensures r[j].ep != r[a.pos].ep {
          assert Blocked(a.d, types, q[j], a.total);
          assert r[j].ep == q[j].ep && r[a.pos] == q[a.pos];
        }
      }
    } else {
      forall j | 0 <= j < a.pos + 1 ensures Blocked(v.d, types, r[j], v.left) {
        assert r[j].ep == q[j].ep;
        if j < a.pos { BlockedStays(a.d, v.d, types, a.total, v.left, q[j], r[j]); }
      }
    }
  }

  lemma {:induction false} RunAppend(q: Q, a: seq<Step>, b: seq<Step>)
    ensures Run(q, a + b) == Run(Run(q, a), b)
    ensures LegalRun(q, a + b) <==> LegalRun(q, a) && LegalRun(Run(q, a), b)
  {
    if b == [] {
      assert a + b == a;
    } else {
      var front := b[..|b| - 1];
      RunAppend(q, a, front);
      assert (a + b)[..|a + b| - 1] == a + front;
    }
  }

  /** A legal run from q to z. */
  predicate Reaches(q: Q, steps: seq<Step>, z: Q) { z == Run(q, steps) && LegalRun(q, steps) }

  lemma ReachesOn(q: Q, x: seq<Step>, m: Q, y: seq<Step>, z: Q)
    requires Reaches(q, x, m) && Reaches(m, y, z)
    ensures Reaches(q, x + y, z)
  {
    RunAppend(q, x, y);
  }

  lemma TurnLegal(a: At, types: Types)
    requires Inside(a) && Scanned(a, types)
    ensures var (b, over) := Turn(a, types);
            && Reaches(a.d.q, TurnSteps(a, types), b.d.q)
            && (!over ==> Inside(b) && Scanned(b, types))
  {
    var v := Visit(a.d, types, a.pos, a.total, a.rest);
    var rx := Taken(a.rest, v.rest);
    VisitRuns(a.d, types, a.pos, a.total, a.rest);
    VisitBlocks(a, types);
    ReceivesGrow(a.d.q, rx);
    if v.ret {
      Extend(a.d.q, Receives(rx), Return(a.pos));
    } else {
      assert Receives(rx) + [] == Receives(rx);
    }
  }

  /** The scan only receives and returns, and returns an URB that was not unlinked only as the first of its endpoint. */
  lemma {:induction false} ScanLegal(a: At, types: Types)
    requires Inside(a) && Scanned(a, types)
    ensures Reaches(a.d.q, ScanSteps(a, types), Scan(a, types).d.q)
    decreases |a.d.q.urbQueue| + ArrivalsLeft(a.rest), |a.d.q.urbQueue| + ArrivalsLeft(a.rest) - a.pos
  {
    TurnMeasure(a, types);
    TurnLegal(a, types);
    var (b, over) := Turn(a, types);
    if over {
      assert TurnSteps(a, types) + [] == TurnSteps(a, types);
    } else {
      ScanLegal(b, types);
      ReachesOn(a.d.q, TurnSteps(a, types), b.d.q, ScanSteps(b, types), Scan(b, types).d.q);
    }
  }

  lemma TimerLegal(d: Dev, types: Types, limit: int, nextFrame: bool, windows: seq<Window>)
    ensures Reaches(d.q, TimerSteps(d, types, limit, nextFrame, windows), Timer(d, types, limit, nextFrame, windows).d.q)
  {
    if limit >= 0 && d.q.urbQueue != [] {
      var total := if nextFrame then limit else d.frameLimit;
      ScanLegal(FirstAt(d.(armed := false, frameLimit := total), total, windows), types);
    }
  }

  // ---------------------------------------------------------------------------------------------
  // The commands come from the windows, in order.
  // ---------------------------------------------------------------------------------------------

  function Commands(steps: seq<Step>): seq<Rx> {
    if steps == [] then [] else
    Commands(steps[..|steps| - 1]) + (if steps[|steps| - 1].Receive? then [steps[|steps| - 1].rx] else [])
  }

  function AllRx(windows: seq<Window>): seq<Rx> {
    if windows == [] then [] else windows[0].rx + AllRx(windows[1..])
  }

  predicate Suffix<T(==)>(a: seq<T>, b: seq<T>) { |a| <= |b| && b[|b| - |a|..] == a }

  /** The windows opened between two moments. */
  function Opened(before: seq<Window>, after: seq<Window>): seq<Window>
    requires |after| <= |before|
  {
    before[..|before| - |after|]
  }

  lemma {:induction false} CommandsAppend(a: seq<Step>, b: seq<Step>)
    ensures Commands(a + b) == Commands(a) + Commands(b)
  {
    if b == [] {
      assert a + b == a;
    } else {
      CommandsAppend(a, b[..|b| - 1]);
      assert (a + b)[..|a + b| - 1] == a + b[..|b| - 1];
    }
  }

  lemma {:induction false} CommandsOf(rx: seq<Rx>)
    ensures Commands(Receives(rx)) == rx
  {
    if rx != [] {
      CommandsOf(rx[..|rx| - 1]);
      assert Receives(rx)[..|rx| - 1] == Receives(rx[..|rx| - 1]);
    }
  }

  lemma CommandsTail(x: seq<Step>, step: Step)
    ensures Commands(x + [step]) == if step.Receive? then Commands(x) + [step.rx] else Commands(x)
  {
    assert (x + [step])[..|x|] == x;
  }

  lemma RoundCommands(rx: seq<Rx>, tail: seq<Step>)
    requires tail == [] || (|tail| == 1 && tail[0].Return?)
    ensures Commands(Receives(rx) + tail) == rx
  {
    CommandsOf(rx);
    if tail == [] {
      assert Receives(rx) + tail == Receives(rx);
    } else {
      CommandsTail(Receives(rx), tail[0]);
      assert tail == [tail[0]];
    }
  }

  lemma TurnCommands(a: At, types: Types)
    requires Inside(a)
    ensures OneFewer(a.rest, Turn(a, types).0.rest)
    ensures Commands(TurnSteps(a, types)) == Taken(a.rest, Turn(a, types).0.rest)
  {
    var v := Visit(a.d, types, a.pos, a.total, a.rest);
    TurnMeasure(a, types);
    RoundCommands(Taken(a.rest, v.rest), if v.ret && a.pos < |v.d.q.urbQueue| then [Return(a.pos)] else []);
  }

  /** These steps handle the commands of the windows opened between two moments. */
  predicate Covers(steps: seq<Step>, before: seq<Window>, after: seq<Window>) {
    Suffix(after, before) && Commands(steps) == AllRx(Opened(before, after))
  }

  lemma OpenedOne(x: seq<Window>, z: seq<Window>)
    requires x != [] && Suffix(z, x[1..])
    ensures Suffix(z, x) && Opened(x, z) == [x[0]] + Opened(x[1..], z)
  {
    assert x[|x| - |z|..] == x[1..][|x| - 1 - |z|..];
  }

  lemma AllRxOne(w: Window, ws: seq<Window>)
    ensures AllRx([w] + ws) == w.rx + AllRx(ws)
  {
    assert ([w] + ws)[1..] == ws;
  }

  lemma OpenedMore(x: seq<Window>, y: seq<Window>, z: seq<Window>)
    requires OneFewer(x, y) && Suffix(z, y)
    ensures Suffix(z, x) && AllRx(Opened(x, z)) == Taken(x, y) + AllRx(Opened(y, z))
  {
    if y != x {
      OpenedOne(x, z);
      AllRxOne(x[0], Opened(y, z));
    }
  }

  lemma CoversMore(x: seq<Step>, y: seq<Step>, before: seq<Window>, mid: seq<Window>, after: seq<Window>)
    requires OneFewer(before, mid) && Commands(x) == Taken(before, mid) && Covers(y, mid, after)
    ensures Covers(x + y, before, after)
  {
    CommandsAppend(x, y);
    OpenedMore(before, mid, after);
  }

  lemma CoversOne(x: seq<Step>, before: seq<Window>, mid: seq<Window>)
    requires OneFewer(before, mid) && Commands(x) == Taken(before, mid)
    ensures Covers(x, before, mid)
  {
    assert x + [] == x && Opened(mid, mid) == [];
    CoversMore(x, [], before, mid, mid);
  }

  /** The commands the scan handles are those of the windows it opens, in order. */
  lemma {:induction false} ScanCommands(a: At, types: Types)
    requires Inside(a)
    ensures Covers(ScanSteps(a, types), a.rest, Scan(a, types).rest)
    decreases |a.d.q.urbQueue| + ArrivalsLeft(a.rest), |a.d.q.urbQueue| + ArrivalsLeft(a.rest) - a.pos
  {
    TurnMeasure(a, types);
    TurnCommands(a, types);
    var (b, over) := Turn(a, types);
    if over {
      assert TurnSteps(a, types) + [] == TurnSteps(a, types);
      CoversOne(TurnSteps(a, types), a.rest, b.rest);
    } else {
      ScanCommands(b, types);
      CoversMore(TurnSteps(a, types), ScanSteps(b, types), a.rest, b.rest, Scan(b, types).rest);
    }
  }

  /** v_timer handles no command but those that arrive in the windows it opens, all of them, in order. */
  lemma TimerCommands(d: Dev, types: Types, limit: int, nextFrame: bool, windows: seq<Window>)
    ensures Covers(TimerSteps(d, types, limit, nextFrame, windows), windows,
                   Timer(d, types, limit, nextFrame, windows).rest)
  {
    assert Opened(windows, windows) == [];
    if limit >= 0 && d.q.urbQueue != [] {
      var total := if nextFrame then limit else d.frameLimit;
      ScanCommands(FirstAt(d.(armed := false, frameLimit := total), total, windows), types);
    }
  }

  // ---------------------------------------------------------------------------------------------
  // What is left unlinked.
  // ---------------------------------------------------------------------------------------------

  /** Of the first n entries, none is unlinked but by a request in marks. */
  ghost predicate Swept(q: seq<Urbp>, n: nat, marks: set<nat>) {
    forall j :: 0 <= j < |q| && j < n && q[j].unlinked ==> q[j].seqnum in marks
  }

  lemma SweptFurther(a: seq<Urbp>, b: seq<Urbp>, n: nat, pos: nat, few: set<nat>, old_: set<nat>, marks: set<nat>)
    requires Grown(a, b, n, few) && few <= marks && old_ <= marks && pos < |a| && Swept(a, pos, old_) && !a[pos].unlinked
    ensures Swept(b, pos + 1, marks) && (pos + 1 == |a| ==> Swept(b, |b|, marks))
  {
  }

  /** Everything passed over since the last restart was left alone, or unlinked in a window opened since. */
  ghost predicate SweptSo(a: At, n: nat) {
    Suffix(a.rest, a.since) && Swept(a.d.q.urbQueue, n, AllMarks(Opened(a.since, a.rest)))
  }

  lemma MarksMore(since: seq<Window>, x: seq<Window>, y: seq<Window>)
    requires Suffix(x, since) && OneFewer(x, y)
    ensures Suffix(y, since)
    ensures AllMarks(Opened(since, y)) == AllMarks(Opened(since, x)) + Marks(Taken(x, y))
  {
    if y != x {
      var n := |since| - |x|;
      assert since[n..][0] == since[n] && since[n..][1..] == since[n + 1..];
      assert Opened(since, y) == since[..n + 1] && since[..n + 1][..n] == since[..n];
    }
  }

  lemma TurnSwept(a: At, types: Types)
    requires Inside(a) && SweptSo(a, a.pos)
    ensures var (b, over) := Turn(a, types); SweptSo(b, if over then |b.d.q.urbQueue| else b.pos)
  {
    var v := Visit(a.d, types, a.pos, a.total, a.rest);
    VisitRuns(a.d, types, a.pos, a.total, a.rest);
    if !v.ret {
      var rx := Taken(a.rest, v.rest);
      MarksMore(a.since, a.rest, v.rest);
      SweptFurther(a.d.q.urbQueue, v.d.q.urbQueue, Arrivals(rx), a.pos, Marks(rx),
                   AllMarks(Opened(a.since, a.rest)), AllMarks(Opened(a.since, v.rest)));
    }
  }

  lemma {:induction false} ScanSwept(a: At, types: Types)
    requires Inside(a) && SweptSo(a, a.pos)
    ensures var e := Scan(a, types); SweptSo(e, |e.d.q.urbQueue|)
    decreases |a.d.q.urbQueue| + ArrivalsLeft(a.rest), |a.d.q.urbQueue| + ArrivalsLeft(a.rest) - a.pos
  {
    TurnMeasure(a, types);
    TurnSwept(a, types);
    var (b, over) := Turn(a, types);
    if !over {
      ScanSwept(b, types);
    }
  }

  /** The number of steps up to and with the last return. */
  function UpToReturn(steps: seq<Step>): (r: nat)
    ensures r <= |steps| && (r > 0 ==> steps[r - 1].Return?) && forall i :: r <= i < |steps| ==> steps[i].Receive?
  {
    if steps == [] then 0 else if steps[|steps| - 1].Return? then |steps| else UpToReturn(steps[..|steps| - 1])
  }

  lemma {:induction false} UpToReturnAppend(x: seq<Step>, y: seq<Step>)
    ensures UpToReturn(x + y) == if UpToReturn(y) > 0 then |x| + UpToReturn(y) else UpToReturn(x)
  {
    if y == [] {
      assert x + y == x;
    } else {
      UpToReturnAppend(x, y[..|y| - 1]);
      assert (x + y)[..|x + y| - 1] == x + y[..|y| - 1];
    }
  }

  /** since is what it is meant to be: the windows left after the last return among the steps. */
  ghost predicate SinceIsLastReturn(a: At, e: At, steps: seq<Step>) {
    var r := UpToReturn(steps);
    && (r == 0 ==> e.since == a.since)
    && (r > 0 ==> Covers(steps[..r], a.rest, e.since))
  }

  lemma {:induction false} NoReturn(rx: seq<Rx>)
    ensures UpToReturn(Receives(rx)) == 0
  {
    if rx != [] {
      NoReturn(rx[..|rx| - 1]);
      assert Receives(rx)[..|rx| - 1] == Receives(rx[..|rx| - 1]);
    }
  }

  lemma RoundSince(rx: seq<Rx>, tail: seq<Step>)
    requires tail == [] || (|tail| == 1 && tail[0].Return?)
    ensures UpToReturn(Receives(rx) + tail) == if tail == [] then 0 else |rx| + 1
  {
    if tail == [] {
      NoReturn(rx);
      assert Receives(rx) + tail == Receives(rx);
    }
  }

  lemma TurnSince(a: At, types: Types)
    requires Inside(a)
    ensures SinceIsLastReturn(a, Turn(a, types).0, TurnSteps(a, types))
  {
    var v, b := Visit(a.d, types, a.pos, a.total, a.rest), Turn(a, types).0;
    var steps := TurnSteps(a, types);
    RoundSince(Taken(a.rest, v.rest), if v.ret && a.pos < |v.d.q.urbQueue| then [Return(a.pos)] else []);
    TurnCommands(a, types);
    CoversOne(steps, a.rest, b.rest);
    assert steps[..|steps|] == steps;
  }

  lemma PrefixParts<T>(x: seq<T>, y: seq<T>, n: nat)
    requires n <= |x| + |y|
    ensures (x + y)[..n] == if n <= |x| then x[..n] else x + y[..n - |x|]
  {
  }

  lemma SinceJoins(a: At, b: At, e: At, x: seq<Step>, y: seq<Step>)
    requires SinceIsLastReturn(a, b, x) && SinceIsLastReturn(b, e, y)
    requires OneFewer(a.rest, b.rest) && Commands(x) == Taken(a.rest, b.rest)
    ensures SinceIsLastReturn(a, e, x + y)
  {
    var s := UpToReturn(y);
    UpToReturnAppend(x, y);
    PrefixParts(x, y, UpToReturn(x + y));
    if s > 0 {
      CoversMore(x, y[..s], a.rest, b.rest, e.since);
    }
  }

  lemma {:induction false} ScanSince(a: At, types: Types)
    requires Inside(a)
    ensures SinceIsLastReturn(a, Scan(a, types), ScanSteps(a, types))
    decreases |a.d.q.urbQueue| + ArrivalsLeft(a.rest), |a.d.q.urbQueue| + ArrivalsLeft(a.rest) - a.pos
  {
    TurnMeasure(a, types);
    TurnSince(a, types);
    var (b, over) := Turn(a, types);
    if over {
      assert TurnSteps(a, types) + [] == TurnSteps(a, types);
    } else {
      ScanSince(b, types);
      TurnCommands(a, types);
      SinceJoins(a, b, Scan(b, types), TurnSteps(a, types), ScanSteps(b, types));
    }
  }

  /**
   At a known speed, an URB that v_timer leaves queued and unlinked was unlinked by a command in a
   window opened after the last return; with no such window, none is left.
   */
  lemma TimerSwept(d: Dev, types: Types, limit: int, nextFrame: bool, windows: seq<Window>)
    requires limit >= 0
    ensures var e := Timer(d, types, limit, nextFrame, windows);
            var steps := TimerSteps(d, types, limit, nextFrame, windows);
            && Covers(steps[..UpToReturn(steps)], windows, e.since) && Suffix(e.rest, e.since)
            && Swept(e.d.q.urbQueue, |e.d.q.urbQueue|, AllMarks(Opened(e.since, e.rest)))
  {
    NothingOpened(windows);
    if d.q.urbQueue != [] {
      var total := if nextFrame then limit else d.frameLimit;
      var a := FirstAt(d.(armed := false, frameLimit := total), total, windows);
      ScanSince(a, types);
      ScanSwept(a, types);
    }
  }

  lemma NothingOpened(windows: seq<Window>)
    ensures Covers([], windows, windows) && AllMarks(Opened(windows, windows)) == {}
  {
    assert Opened(windows, windows) == [];
  }

  // ---------------------------------------------------------------------------------------------
  // Exactly when one is left.
  // ---------------------------------------------------------------------------------------------

  ghost predicate SomeUnlinked(q: seq<Urbp>) { exists j :: 0 <= j < |q| && q[j].unlinked }

  /** What commands do to the marks of the queued URBs. */
  ghost predicate MarkedBy(a: seq<Urbp>, b: seq<Urbp>, hit: bool) {
    && |a| <= |b|
    && (forall j :: 0 <= j < |a| && a[j].unlinked ==> b[j].unlinked)
    && (hit ==> SomeUnlinked(b))
    && (!hit ==> (forall j :: 0 <= j < |a| ==> b[j] == a[j]) && forall j :: |a| <= j < |b| ==> !b[j].unlinked)
  }

  lemma MarkOne(a: seq<Urbp>, q: Q, hit: bool, rx: Rx)
    requires MarkedBy(a, q.urbQueue, hit)
    ensures MarkedBy(a, DoReceive(q, rx).urbQueue,
                     hit || (rx.Unlink? && Servers.Find(Entries(q.urbQueue), rx.target) < |q.urbQueue|))
  {
    var z := DoReceive(q, rx).urbQueue;
    if hit {
      var j :| 0 <= j < |q.urbQueue| && q.urbQueue[j].unlinked;
      assert z[j].unlinked;
    } else if rx.Unlink? && Servers.Find(Entries(q.urbQueue), rx.target) < |q.urbQueue| {
      assert z[Servers.Find(Entries(q.urbQueue), rx.target)].unlinked;
    }
  }

  lemma {:induction false} ReceivesMark(q: Q, rx: seq<Rx>)
    ensures MarkedBy(q.urbQueue, Run(q, Receives(rx)).urbQueue, Hit(q, rx))
  {
    if rx != [] {
      var front := rx[..|rx| - 1];
      ReceivesMark(q, front);
      Extend(q, Receives(front), Receive(rx[|rx| - 1]));
      MarkOne(q.urbQueue, Run(q, Receives(front)), Hit(q, front), rx[|rx| - 1]);
    }
  }

  /** The entries before n are unlinked only if an unlink came late, and then one is. */
  ghost predicate LateSo(a: At, n: nat) {
    && (a.late ==> SomeUnlinked(a.d.q.urbQueue))
    && (!a.late ==> forall j :: 0 <= j < n && j < |a.d.q.urbQueue| ==> !a.d.q.urbQueue[j].unlinked)
  }

  lemma TurnLate(a: At, types: Types)
    requires Inside(a) && LateSo(a, a.pos)
    ensures var (b, over) := Turn(a, types); LateSo(b, if over then |b.d.q.urbQueue| else b.pos)
  {
    var v := Visit(a.d, types, a.pos, a.total, a.rest);
    VisitRuns(a.d, types, a.pos, a.total, a.rest);
    ReceivesMark(a.d.q, Taken(a.rest, v.rest));
    if !v.ret && a.late {
      var j :| 0 <= j < |a.d.q.urbQueue| && a.d.q.urbQueue[j].unlinked;
      assert v.d.q.urbQueue[j].unlinked;
    }
  }

  lemma {:induction false} ScanLate(a: At, types: Types)
    requires Inside(a) && LateSo(a, a.pos)
    ensures var e := Scan(a, types); LateSo(e, |e.d.q.urbQueue|)
    decreases |a.d.q.urbQueue| + ArrivalsLeft(a.rest), |a.d.q.urbQueue| + ArrivalsLeft(a.rest) - a.pos
  {
    TurnMeasure(a, types);
    TurnLate(a, types);
    var (b, over) := Turn(a, types);
    if !over {
      ScanLate(b, types);
    }
  }

  // late, said of the steps.

  /** A step receives an unlink whose target is on the queue z. */
  predicate Hits(z: seq<Urbp>, step: Step) {
    step.Receive? && step.rx.Unlink? && Servers.Find(Entries(z), step.rx.target) < |z|
  }

  /** Step j receives an unlink whose target is queued at that moment. */
  predicate HitAt(q: Q, steps: seq<Step>, j: nat) {
    j < |steps| && Hits(Run(q, steps[..j]).urbQueue, steps[j])
  }

  ghost predicate HitFrom(q: Q, steps: seq<Step>, r: nat) { exists j: nat :: r <= j && HitAt(q, steps, j) }

  /** Since the last return, one does. */
  predicate LateHit(q: Q, steps: seq<Step>) {
    steps != [] &&
    (var front, last := steps[..|steps| - 1], steps[|steps| - 1];
     last.Receive? && (LateHit(q, front) || Hits(Run(q, front).urbQueue, last)))
  }

  lemma {:induction false} LateHitAppend(q: Q, x: seq<Step>, m: Q, y: seq<Step>)
    requires m == Run(q, x)
    ensures LateHit(q, x + y) <==> LateHit(m, y) || (UpToReturn(y) == 0 && LateHit(q, x))
  {
    if y == [] {
      assert x + y == x;
    } else {
      var front := y[..|y| - 1];
      LateHitAppend(q, x, m, front);
      RunAppend(q, x, front);
      assert (x + y)[..|x + y| - 1] == x + front;
    }
  }

  lemma HitInFront(q: Q, steps: seq<Step>, j: nat)
    requires j < |steps| - 1
    ensures HitAt(q, steps, j) <==> HitAt(q, steps[..|steps| - 1], j)
  {
    assert steps[..|steps| - 1][..j] == steps[..j];
  }

  /** What happened before the last step, or by it. */
  ghost predicate HitFrontOrLast(q: Q, steps: seq<Step>, r: nat)
    requires steps != []
  {
    var front := steps[..|steps| - 1];
    HitFrom(q, front, r) || Hits(Run(q, front).urbQueue, steps[|steps| - 1])
  }

  lemma HitWhere(q: Q, steps: seq<Step>, r: nat, j: nat)
    requires steps != [] && r <= j && HitAt(q, steps, j)
    ensures HitFrontOrLast(q, steps, r)
  {
    if j < |steps| - 1 {
      HitInFront(q, steps, j);
    }
  }

  lemma HitSomewhere(q: Q, steps: seq<Step>, r: nat)
    requires steps != [] && r < |steps|
    ensures HitFrom(q, steps, r) <==> HitFrontOrLast(q, steps, r)
  {
    if HitFrom(q, steps, r) {
      var j: nat :| r <= j && HitAt(q, steps, j);
      HitWhere(q, steps, r, j);
    } else if HitFrom(q, steps[..|steps| - 1], r) {
      var j: nat :| r <= j && HitAt(q, steps[..|steps| - 1], j);
      HitInFront(q, steps, j);
    } else {
      assert !HitAt(q, steps, |steps| - 1);
    }
  }

  lemma {:induction false} LateIsFrom(q: Q, steps: seq<Step>)
    ensures LateHit(q, steps) <==> HitFrom(q, steps, UpToReturn(steps))
  {
    if steps != [] && steps[|steps| - 1].Receive? {
      LateIsFrom(q, steps[..|steps| - 1]);
      HitSomewhere(q, steps, UpToReturn(steps));
    }
  }

  lemma {:induction false} ReceivesHit(q: Q, rx: seq<Rx>)
    ensures LateHit(q, Receives(rx)) <==> Hit(q, rx)
  {
    if rx != [] {
      ReceivesHit(q, rx[..|rx| - 1]);
      assert Receives(rx)[..|rx| - 1] == Receives(rx[..|rx| - 1]);
    }
  }

  lemma RoundHit(q: Q, rx: seq<Rx>, tail: seq<Step>)
    requires tail == [] || (|tail| == 1 && tail[0].Return?)
    ensures LateHit(q, Receives(rx) + tail) <==> tail == [] && Hit(q, rx)
  {
    RoundSince(rx, tail);
    ReceivesHit(q, rx);
    if tail == [] {
      assert Receives(rx) + tail == Receives(rx);
    }
  }

  /** The flag is what it is meant to be. */
  ghost predicate LateIsHit(a: At, e: At, steps: seq<Step>) {
    e.late <==> (UpToReturn(steps) == 0 && a.late) || LateHit(a.d.q, steps)
  }

  lemma TurnHit(a: At, types: Types)
    requires Inside(a)
    ensures LateIsHit(a, Turn(a, types).0, TurnSteps(a, types))
  {
    var v := Visit(a.d, types, a.pos, a.total, a.rest);
    var tail := if v.ret && a.pos < |v.d.q.urbQueue| then [Return(a.pos)] else [];
    RoundSince(Taken(a.rest, v.rest), tail);
    RoundHit(a.d.q, Taken(a.rest, v.rest), tail);
  }

  lemma HitJoins(a: At, b: At, e: At, x: seq<Step>, y: seq<Step>)
    requires LateIsHit(a, b, x) && LateIsHit(b, e, y) && Reaches(a.d.q, x, b.d.q)
    ensures LateIsHit(a, e, x + y)
  {
    UpToReturnAppend(x, y);
    LateHitAppend(a.d.q, x, b.d.q, y);
  }

  lemma {:induction false} ScanHit(a: At, types: Types)
    requires Inside(a) && Scanned(a, types)
    ensures LateIsHit(a, Scan(a, types), ScanSteps(a, types))
    decreases |a.d.q.urbQueue| + ArrivalsLeft(a.rest), |a.d.q.urbQueue| + ArrivalsLeft(a.rest) - a.pos
  {
    TurnMeasure(a, types);
    TurnHit(a, types);
    TurnLegal(a, types);
    var (b, over) := Turn(a, types);
    if over {
      assert TurnSteps(a, types) + [] == TurnSteps(a, types);
    } else {
      ScanHit(b, types);
      HitJoins(a, b, Scan(b, types), TurnSteps(a, types), ScanSteps(b, types));
    }
  }

  lemma TimerLate(d: Dev, types: Types, limit: int, nextFrame: bool, windows: seq<Window>)
    requires limit >= 0
    ensures var e := Timer(d, types, limit, nextFrame, windows);
            && (SomeUnlinked(e.d.q.urbQueue) <==> e.late)
            && (e.late <==> LateHit(d.q, TimerSteps(d, types, limit, nextFrame, windows)))
  {
    if d.q.urbQueue != [] {
      var total := if nextFrame then limit else d.frameLimit;
      var a := FirstAt(d.(armed := false, frameLimit := total), total, windows);
      ScanLate(a, types);
      ScanHit(a, types);
    }
  }

  /**
   v_timer at a known speed leaves an URB queued and unlinked exactly if, after its last return, it
   received an unlink whose target was queued at that moment.
   */
  lemma LeavesUnlinkedExactly(d: Dev, types: Types, limit: int, nextFrame: bool, windows: seq<Window>)
    requires limit >= 0
    ensures var steps := TimerSteps(d, types, limit, nextFrame, windows);
            SomeUnlinked(Timer(d, types, limit, nextFrame, windows).d.q.urbQueue) <==>
              exists j: nat :: UpToReturn(steps) <= j && HitAt(d.q, steps, j)
  {
    TimerLate(d, types, limit, nextFrame, windows);
    LateIsFrom(d.q, TimerSteps(d, types, limit, nextFrame, windows));
  }
}
