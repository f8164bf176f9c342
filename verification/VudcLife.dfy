/** A gadget's connection as a whole: any sequence of timer calls, commands and sends, from the start. */
module VudcLife {
  import opened Lists
  import opened Errno
  import opened UrbQueue
  import opened VudcTimer

  datatype Call =
    | StartTimer(limit: int)
    | Command(rx: Rx)
    | Fire(limit: int, nextFrame: bool, windows: seq<Window>)
    | SendReplies

  /** The timer fires only when it is armed. */
  function Do(d: Dev, types: Types, call: Call): Dev {
    match call
    case StartTimer(limit) => Start(d, limit)
    case Command(rx) => ReceiveCmd(d, rx)
    case Fire(limit, nextFrame, windows) => if d.armed then Timer(d, types, limit, nextFrame, windows).d else d
    case SendReplies => d.(q := d.q.(txQueue := []))
  }

  function Live(types: Types, calls: seq<Call>): Dev {
    if calls == [] then Initial else Do(Live(types, calls[..|calls| - 1]), types, calls[|calls| - 1])
  }

  // ---------------------------------------------------------------------------------------------
  // Completion order over all timer calls.
  // ---------------------------------------------------------------------------------------------

  lemma CallOrder(d: Dev, types: Types, call: Call)
    requires Arrived(d.q) && InOrder(d.q)
    ensures Arrived(Do(d, types, call).q) && InOrder(Do(d, types, call).q)
  {
    match call
    case StartTimer(_) =>
    case Command(rx) => ReceiveOrder(d.q, rx);
    case Fire(limit, nextFrame, windows) =>
      if d.armed {
        TimerLegal(d, types, limit, nextFrame, windows);
        RunOrder(d.q, TimerSteps(d, types, limit, nextFrame, windows));
      }
    case SendReplies =>
  }

  lemma {:induction false} LifeOrder(types: Types, calls: seq<Call>)
    ensures Arrived(Live(types, calls).q) && InOrder(Live(types, calls).q)
  {
    if calls != [] {
      LifeOrder(types, calls[..|calls| - 1]);
      CallOrder(Live(types, calls[..|calls| - 1]), types, calls[|calls| - 1]);
    }
  }

  /**
   Over all calls of v_timer, with commands arriving between them and inside them, URBs that were not
   unlinked complete in arrival order on each endpoint.
   */
  lemma CompletionOrder(types: Types, calls: seq<Call>, i: nat, j: nat)
    requires var done := Live(types, calls).q.done; i < j < |done| && done[i].ep == done[j].ep
    ensures Live(types, calls).q.done[i].no < Live(types, calls).q.done[j].no
  {
    LifeOrder(types, calls);
  }

  // ---------------------------------------------------------------------------------------------
  // What the kicks are for: a queued URB has a timer coming.
  // ---------------------------------------------------------------------------------------------

  /** This command kicks the timer. */
  predicate Kicks(d: Dev, rx: Rx) {
    rx.Submit? || Servers.Find(Entries(d.q.urbQueue), rx.target) < |d.q.urbQueue|
  }

  /** The timer last fired at an unknown speed, over a queue, and nothing has kicked it since. */
  predicate Deaf(types: Types, calls: seq<Call>) {
    calls != [] &&
    (var front, last := calls[..|calls| - 1], calls[|calls| - 1];
     var d := Live(types, front);
     match last
     case StartTimer(_) => false
     case Command(rx) => Deaf(types, front) && !Kicks(d, rx)
     case Fire(limit, _, _) => if d.armed then limit < 0 && d.q.urbQueue != [] else Deaf(types, front)
     case SendReplies => Deaf(types, front))
  }

  /** The states of the timer between calls. */
  predicate Awake(d: Dev, deaf: bool) {
    && (d.q.urbQueue != [] && !d.armed <==> deaf)
    && (d.timer == Running ==> d.armed)
    && (d.timer == Idle ==> !d.armed)
  }

  lemma CommandAwake(d: Dev, rx: Rx, deaf: bool)
    requires Awake(d, deaf)
    ensures Awake(ReceiveCmd(d, rx), deaf && !Kicks(d, rx))
  {
  }

  lemma {:induction false} ScanArmed(a: At, types: Types)
    requires Inside(a)
    ensures Scan(a, types).d.timer == a.d.timer && Scan(a, types).d.armed == a.d.armed
    decreases |a.d.q.urbQueue| + ArrivalsLeft(a.rest), |a.d.q.urbQueue| + ArrivalsLeft(a.rest) - a.pos
  {
    TurnMeasure(a, types);
    TurnArmed(a, types);
    var (b, over) := Turn(a, types);
    if !over {
      ScanArmed(b, types);
    }
  }

  lemma TurnArmed(a: At, types: Types)
    requires Inside(a)
    ensures Turn(a, types).0.d.timer == a.d.timer && Turn(a, types).0.d.armed == a.d.armed
  {
    var u := a.d.q.urbQueue[a.pos];
    if u.ep.Some? && a.d.timer == Running {
      ProcessRuns(a.d, types, u, a.total, NextWindow(a.d, a.rest));
    }
  }

  lemma FireAwake(d: Dev, types: Types, limit: int, nextFrame: bool, windows: seq<Window>)
    requires Awake(d, false) && d.armed
    ensures Awake(Timer(d, types, limit, nextFrame, windows).d, limit < 0 && d.q.urbQueue != [])
  {
    if limit >= 0 && d.q.urbQueue != [] {
      var total := if nextFrame then limit else d.frameLimit;
      ScanArmed(FirstAt(d.(armed := false, frameLimit := total), total, windows), types);
    }
  }

  lemma {:induction false} AlwaysAwake(types: Types, calls: seq<Call>)
    ensures Awake(Live(types, calls), Deaf(types, calls))
  {
    if calls != [] {
      var front, last := calls[..|calls| - 1], calls[|calls| - 1];
      var d := Live(types, front);
      AlwaysAwake(types, front);
      match last
      case StartTimer(_) =>
      case Command(rx) => CommandAwake(d, rx, Deaf(types, front));
      case Fire(limit, nextFrame, windows) => if d.armed { FireAwake(d, types, limit, nextFrame, windows); }
      case SendReplies =>
    }
  }

  /**
   Between calls, queued URBs are without a pending timer exactly if the timer last fired at an unknown
   speed and nothing has kicked it since; an idle timer with a queue is that case.
   */
  lemma QueuedIsServed(types: Types, calls: seq<Call>)
    ensures var d := Live(types, calls);
            && (d.q.urbQueue != [] && !d.armed <==> Deaf(types, calls))
            && (d.timer == Idle && d.q.urbQueue != [] ==> Deaf(types, calls))
            && (d.timer == Running ==> d.armed)
  {
    AlwaysAwake(types, calls);
  }

  lemma LiveMore(types: Types, calls: seq<Call>, call: Call)
    ensures Live(types, calls + [call]) == Do(Live(types, calls), types, call)
    ensures call.Fire? && Live(types, calls).armed ==>
              (Deaf(types, calls + [call]) <==> call.limit < 0 && Live(types, calls).q.urbQueue != [])
  {
    assert (calls + [call])[..|calls|] == calls;
  }

  // ---------------------------------------------------------------------------------------------
  // Two lives.
  // ---------------------------------------------------------------------------------------------

  lemma OneQueued(types: Types) returns (calls: seq<Call>)
    ensures var d := Live(types, calls);
            && d.q.urbQueue == [Urbp(1, Some(1), false, 0)] && d.timer == Running && d.armed
            && d.halted == {} && d.setupStage == {} && d.frameLimit == 1
  {
    calls := [];
    LiveMore(types, calls, StartTimer(1));
    calls := calls + [StartTimer(1)];
    LiveMore(types, calls, Command(Submit(1, Some(1))));
    calls := calls + [Command(Submit(1, Some(1)))];
  }

  /** An URB queued before the gadget's speed is known waits for a kick. */
  lemma UnknownSpeedIsDeaf(types: Types) returns (calls: seq<Call>)
    ensures Deaf(types, calls)
  {
    var before := OneQueued(types);
    LiveMore(types, before, Fire(-1, false, []));
    calls := before + [Fire(-1, false, [])];
  }

  /** While the gadget works on the URB, its unlink arrives: v_timer returns with it queued and unlinked. */
  lemma LeavesOneUnlinked(types: Types) returns (calls: seq<Call>)
    requires types(1) == Bulk
    ensures Live(types, calls).q.urbQueue == [Urbp(2, Some(1), true, 0)]
  {
    var before := OneQueued(types);
    var w := Window(0, EINPROGRESS, 0, {}, [Unlink(2, 1)]);
    var fire := Fire(1, true, [w]);
    LiveMore(types, before, fire);
    calls := before + [fire];
    OneRound(Live(types, before), types, w);
  }

  lemma OneRound(d: Dev, types: Types, w: Window)
    requires d.q.urbQueue == [Urbp(1, Some(1), false, 0)] && d.timer == Running && d.halted == {} && d.setupStage == {}
    requires types(1) == Bulk && w == Window(0, EINPROGRESS, 0, {}, [Unlink(2, 1)])
    ensures Timer(d, types, 1, true, [w]).d.q.urbQueue == [Urbp(2, Some(1), true, 0)]
  {
    var a := FirstAt(d.(armed := false, frameLimit := 1), 1, [w]);
    var s := Seen(a.d, d.q.urbQueue[0]);
    assert w.rx[..0] == [] && w.rx == [Unlink(2, 1)];
    assert ReceiveAll(s, []) == s;
    assert ReceiveAll(s, w.rx) == ReceiveCmd(s, Unlink(2, 1));
    assert Servers.Find(Entries(s.q.urbQueue), 1) == 0;
    assert DropLock(s, w).q.urbQueue == [Urbp(2, Some(1), true, 0)];
    assert Turn(a, types).1 && Scan(a, types) == Turn(a, types).0;
  }

  // ---------------------------------------------------------------------------------------------
  // The states of the timer.
  // ---------------------------------------------------------------------------------------------

  /** v_start_timer was never called, and no call of v_timer has ended with an empty queue or at an unknown speed. */
  predicate NeverStarted(types: Types, calls: seq<Call>) {
    calls == [] ||
    (var front, last := calls[..|calls| - 1], calls[|calls| - 1];
     var d := Live(types, front);
     NeverStarted(types, front)
     && match last
        case StartTimer(_) => false
        case Fire(limit, _, _) => d.armed ==> limit >= 0 && Live(types, calls).q.urbQueue != []
        case _ => true)
  }

  lemma FireStopped(d: Dev, types: Types, limit: int, nextFrame: bool, windows: seq<Window>)
    ensures var e := Timer(d, types, limit, nextFrame, windows).d;
            e.timer == if limit < 0 || e.q.urbQueue == [] then Idle else d.timer
  {
    if limit >= 0 && d.q.urbQueue != [] {
      var total := if nextFrame then limit else d.frameLimit;
      ScanArmed(FirstAt(d.(armed := false, frameLimit := total), total, windows), types);
    }
  }

  /**
   The timer is stopped exactly if it was never started; a kick does not start it.  Otherwise it is running
   when it is pending, and idle when it is not.
   */
  lemma {:induction false} TimerState(types: Types, calls: seq<Call>)
    ensures var d := Live(types, calls);
            d.timer == if NeverStarted(types, calls) then Stopped else if d.armed then Running else Idle
  {
    AlwaysAwake(types, calls);
    if calls != [] {
      var front, last := calls[..|calls| - 1], calls[|calls| - 1];
      TimerState(types, front);
      if last.Fire? {
        FireStopped(Live(types, front), types, last.limit, last.nextFrame, last.windows);
      }
    }
  }
}
