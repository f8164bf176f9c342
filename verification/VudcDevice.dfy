/** struct vudc: the receive handlers, the timer and v_send_ret, proved against module VudcTimer. */
module VudcDevice {
  import opened Lists
  import opened Errno
  import P = Protocol
  import opened UrbQueue
  import opened VudcTimer

  class Vudc {
    var urbQueue: seq<Urbp>
    var txQueue: seq<P.Ret>
    var timer: TimerState
    var armed: bool
    var alreadySeen: set<nat>
    var setupStage: set<nat>
    var halted: set<nat>
    var isNew: set<nat>
    var frameLimit: int
    var nextNo: nat
    ghost var done: seq<Urbp>
    const typeOf: Types

    ghost function State(): Dev
      reads this
    {
      Dev(Q(urbQueue, txQueue, nextNo, done), timer, armed, frameLimit, alreadySeen, setupStage, halted, isNew)
    }

    constructor (types: Types)
      ensures State() == Initial && typeOf == types
    {
      urbQueue, txQueue, nextNo, done := [], [], 0, [];
      timer, armed, frameLimit := Stopped, false, 0;
      alreadySeen, setupStage, halted, isNew := {}, {}, {}, {};
      typeOf := types;
    }

    /** v_kick_timer: an idle timer runs again, and a timer that is not running is armed. */
    method KickTimer()
      modifies this`timer, this`armed
      ensures State() == Kick(old(State()))
    {
      match timer {
        case Running =>
        case Idle => timer, armed := Running, true;
        case Stopped => armed := true;
      }
    }

    /** v_start_timer. */
    method StartTimer(limit: int)
      modifies this`timer, this`armed, this`frameLimit
      ensures State() == Start(old(State()), limit)
    {
      match timer {
        case Running =>
        case Idle => KickTimer();
        case Stopped =>
          timer, frameLimit := Idle, limit;
          KickTimer();
      }
    }

    /** v_recv_cmd_submit, after the endpoint was found and the data received. */
    method RecvCmdSubmit(s: nat, ep: Option<nat>)
      modifies this
      ensures State() == ReceiveCmd(old(State()), Submit(s, ep))
    {
      KickTimer();
      isNew := isNew + {nextNo};
      urbQueue := urbQueue + [Urbp(s, ep, false, nextNo)];
      nextNo := nextNo + 1;
    }

    /** v_recv_cmd_unlink. */
    method RecvCmdUnlink(u: nat, t: nat)
      modifies this
      ensures State() == ReceiveCmd(old(State()), Unlink(u, t))
    {
      var i := 0;
      while i < |urbQueue| && urbQueue[i].seqnum != t
        invariant i <= Servers.Find(Entries(urbQueue), t)
      {
        assert Entries(urbQueue)[i] == EntryOf(urbQueue[i]);
        i := i + 1;
      }
      if i < |urbQueue| {
        assert Entries(urbQueue)[i] == EntryOf(urbQueue[i]);
        urbQueue := urbQueue[i := urbQueue[i].(seqnum := u, unlinked := true)];
        KickTimer();
      } else {
        txQueue := txQueue + [P.RetUnlink(u, OK)];
      }
    }

    /** udc->lock is dropped: the receiving thread runs, the gadget acts. */
    method Unlocked(w: Window)
      modifies this
      ensures State() == DropLock(old(State()), w)
    {
      for k := 0 to |w.rx|
        invariant State() == ReceiveAll(old(State()), w.rx[..k])
      {
        assert w.rx[..k + 1][..k] == w.rx[..k];
        match w.rx[k] {
          case Submit(s, ep) => RecvCmdSubmit(s, ep);
          case Unlink(u, t) => RecvCmdUnlink(u, t);
        }
      }
      assert w.rx[..|w.rx|] == w.rx;
      halted := w.halted;
    }

    /** The part of the loop body that works on an eligible URB. */
    method ProcessUrb(u: Urbp, total: int, w: Window) returns (used: bool, status: int, left: int)
      requires u.ep.Some?
      modifies this
      ensures Processed(State(), used, status, left) == Process(old(State()), typeOf, u, total, w)
    {
      var e := u.ep.value;
      used, left := false, total;
      alreadySeen := alreadySeen + {e};
      if e == 0 && u.no in isNew {
        setupStage := setupStage + {0};
        isNew := isNew - {u.no};
      }
      if e in halted && e !in setupStage {
        status := EPIPE;
      } else if e == 0 && 0 in setupStage {
        setupStage, halted := setupStage - {0}, halted - {0};
        used := true;
        Unlocked(w);
        if w.setupRet < 0 {
          status := EPIPE;
        } else {
          status, left := w.status, total - w.sent;
        }
      } else if typeOf(e) == Isoc {
        status := EXDEV;
      } else {
        used := true;
        Unlocked(w);
        status, left := w.status, total - w.sent;
      }
    }

    /** One round of the scan, up to the decision whether the URB at pos is returned. */
    method VisitUrb(pos: nat, total: int, windows: seq<Window>) returns (ret: bool, left: int, rest: seq<Window>)
      requires pos < |urbQueue|
      modifies this
      ensures Visited(State(), ret, left, rest) == Visit(old(State()), typeOf, pos, total, windows)
    {
      var u := urbQueue[pos];
      ret, left, rest := false, total, windows;
      if u.unlinked {
        ret := true;
        return;
      }
      if timer != Running { return; }
      if u.ep.None? {
        ret := true;
        return;
      }
      if (total <= 0 && typeOf(u.ep.value) == Bulk) || u.ep.value in alreadySeen { return; }
      var w := if windows == [] then Window(0, EINPROGRESS, 0, halted, []) else windows[0];
      var used, status, n := ProcessUrb(u, total, w);
      if used && windows != [] {
        rest := windows[1..];
      }
      ret, left := status != EINPROGRESS, n;
    }

    /** return_urb: off the queue, its endpoint may be looked at again, one reply. */
    method GiveBack(pos: nat)
      requires pos < |urbQueue|
      modifies this
      ensures State() == ReturnUrb(old(State()), pos)
    {
      var u := urbQueue[pos];
      if u.ep.Some? {
        alreadySeen, setupStage := alreadySeen - {u.ep.value}, setupStage - {u.ep.value};
      }
      urbQueue := urbQueue[..pos] + urbQueue[pos + 1..];
      txQueue := txQueue + [Answer(u)];
      if !u.unlinked {
        done := done + [u];
      }
    }

    /** One round with its goto restart; the result is the next position, or the end of the scan. */
    method Round(pos: nat, total: int, windows: seq<Window>, ghost since: seq<Window>, ghost late: bool)
      returns (next: nat, left: int, rest: seq<Window>, over: bool, ghost since': seq<Window>, ghost late': bool)
      requires pos < |urbQueue|
      modifies this
      ensures (At(State(), next, left, rest, since', late'), over)
              == Turn(At(old(State()), pos, total, windows, since, late), typeOf)
    {
      VisitRuns(State(), typeOf, pos, total, windows);
      ghost var taken := Visit(State(), typeOf, pos, total, windows).rest;
      var last := pos + 1 == |urbQueue|;
      since', late' := since, late || Hit(State().q, Taken(windows, taken));
      var ret;
      ret, left, rest := VisitUrb(pos, total, windows);
      if ret {
        GiveBack(pos);
        next, over := 0, urbQueue == [];
        since', late' := rest, false;
      } else {
        next, over := pos + 1, last;
      }
    }

    /** The scan, from the first entry; it terminates whatever the gadget and the receiving thread do meanwhile. */
    method WholeScan(limit: int, windows: seq<Window>)
      returns (rest: seq<Window>, ghost since: seq<Window>, ghost late: bool)
      modifies this
      ensures var a := At(old(State()), 0, limit, windows, windows, false);
              var e := if old(urbQueue) == [] then a else Scan(a, typeOf);
              State() == e.d && rest == e.rest && since == e.since && late == e.late
    {
      var pos: nat, total := 0, limit;
      rest, since, late := windows, windows, false;
      if urbQueue == [] { return; }
      ghost var end := Scan(At(State(), 0, limit, windows, windows, false), typeOf);
      var over := false;
      while !over
        invariant !over ==> pos < |urbQueue| && end == Scan(At(State(), pos, total, rest, since, late), typeOf)
        invariant over ==> end == At(State(), pos, total, rest, since, late)
        decreases |urbQueue| + ArrivalsLeft(rest), |urbQueue| + ArrivalsLeft(rest) - pos, !over
      {
        TurnMeasure(At(State(), pos, total, rest, since, late), typeOf);
        pos, total, rest, over, since, late := Round(pos, total, rest, since, late);
      }
    }

    /** v_timer. */
    method VTimer(limit: int, nextFrame: bool, windows: seq<Window>)
      returns (rest: seq<Window>, ghost since: seq<Window>, ghost late: bool)
      modifies this
      ensures var e := Timer(old(State()), typeOf, limit, nextFrame, windows);
              State() == e.d && rest == e.rest && since == e.since && late == e.late
    {
      armed := false;
      rest, since, late := windows, windows, false;
      if limit < 0 {
        timer := Idle;
        return;
      }
      if nextFrame {
        frameLimit := limit;
      }
      alreadySeen := {};
      rest, since, late := WholeScan(frameLimit, windows);
      if urbQueue == [] {
        timer := Idle;
      } else {
        armed := true;
      }
    }

    /** v_send_ret, with nobody else about. */
    method SendRet() returns (sent: seq<P.Ret>)
      modifies this`txQueue
      ensures sent == old(txQueue) && txQueue == []
    {
      sent := [];
      while txQueue != []
        invariant sent + txQueue == old(txQueue)
        decreases |txQueue|
      {
        sent := sent + [txQueue[0]];
        txQueue := txQueue[1..];
      }
    }
  }
}
