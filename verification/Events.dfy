/**
 The event worker.  Any context raises events on a device; one worker takes devices off a shared list
 and runs their handlers.  Each lock-held section, each test and each clearing is one step.
 */
module Events {
  import opened Lists

  datatype Bit = Shutdown | Reset | Unusable | Bye

  /** The order in which event_handler looks at the bits; Bye is never handled. */
  function Rank(b: Bit): nat {
    match b
    case Shutdown => 0
    case Reset => 1
    case Unusable => 2
    case Bye => 3
  }

  function BitAt(n: nat): (b: Bit)
    requires n < 3
    ensures Rank(b) == n && b != Bye
  {
    if n == 0 then Shutdown else if n == 1 then Reset else Unusable
  }

  /** Where the worker is: before a test of the held device, or inside a handler. */
  datatype Worker = Idle | Top | Testing(ud: nat, n: nat) | Handling(ud: nat, n: nat)

  datatype State = State(
    event: map<nat, set<Bit>>,
    list: seq<nat>,
    queued: bool,                            // usbip_work is pending on the workqueue
    worker: Worker,
    tested: multiset<(nat, set<Bit>)>,       // adders past the test of BYE
    adding: multiset<nat>)                   // adders between set_event and the insertion

  const Initial := State(map[], [], false, Idle, multiset{}, multiset{})

  function Bits(s: State, ud: nat): set<Bit> { if ud in s.event then s.event[ud] else {} }

  datatype Step =
    | AddTest(ud: nat, bits: set<Bit>)
    | AddSet(ud: nat, bits: set<Bit>)
    | AddInsert(ud: nat)
    | Start
    | Get
    | Test
    | Unset

  predicate Holds(w: Worker, ud: nat) { (w.Testing? || w.Handling?) && w.ud == ud }

  /** set_event. */
  function DoSet(s: State, ud: nat, bits: set<Bit>): State {
    s.(event := s.event[ud := Bits(s, ud) + bits], adding := s.adding + multiset{ud})
  }

  /** The locked part of usbip_event_add: a device is listed once. */
  function DoInsert(s: State, ud: nat): State {
    var z := s.(adding := s.adding - multiset{ud});
    if ud in s.list then z else z.(list := s.list + [ud], queued := true)
  }

  /** get_event; with nothing listed event_handler returns. */
  function DoGet(s: State): State {
    if s.list == [] then s.(worker := Idle)
    else s.(worker := Testing(s.list[0], 0), list := s.list[1..])
  }

  function DoTest(s: State, ud: nat, n: nat): State {
    if n >= 3 then s.(worker := Top)
    else if BitAt(n) in Bits(s, ud) then s.(worker := Handling(ud, n))
    else s.(worker := Testing(ud, n + 1))
  }

  /** The handler has returned: unset_event. */
  function DoUnset(s: State, ud: nat, n: nat): State
    requires n < 3
  {
    s.(event := s.event[ud := Bits(s, ud) - {BitAt(n)}], worker := Testing(ud, n + 1))
  }

  function Apply(s: State, step: Step): State {
    match step
    case AddTest(ud, bits) => if Bye in Bits(s, ud) then s else s.(tested := s.tested + multiset{(ud, bits)})
    case AddSet(ud, bits) =>
      if (ud, bits) !in s.tested then s else DoSet(s.(tested := s.tested - multiset{(ud, bits)}), ud, bits)
    case AddInsert(ud) => if ud !in s.adding then s else DoInsert(s, ud)
    case Start => if s.queued && s.worker.Idle? then s.(queued := false, worker := Top) else s
    case Get => if s.worker.Top? then DoGet(s) else s
    case Test => if s.worker.Testing? then DoTest(s, s.worker.ud, s.worker.n) else s
    case Unset => if s.worker.Handling? && s.worker.n < 3 then DoUnset(s, s.worker.ud, s.worker.n) else s
  }

  function Run(s: State, steps: seq<Step>): State {
    if steps == [] then s else Apply(Run(s, steps[..|steps| - 1]), steps[|steps| - 1])
  }

  // ---------------------------------------------------------------------------------------------
  // No event is lost.
  // ---------------------------------------------------------------------------------------------

  /** Somebody will still look at this bit. */
  predicate Covered(s: State, ud: nat, b: Bit) {
    ud in s.list || ud in s.adding || (Holds(s.worker, ud) && s.worker.n <= Rank(b))
  }

  ghost predicate NoneLost(s: State) {
    forall ud, b :: b in Bits(s, ud) && b != Bye ==> Covered(s, ud, b)
  }

  ghost predicate Attended(s: State) {
    NoDup(s.list) && (s.list != [] ==> s.queued || !s.worker.Idle?) && (s.worker.Handling? ==> s.worker.n < 3)
  }

  lemma GetNoneLost(s: State)
    requires NoneLost(s) && s.worker.Top?
    ensures NoneLost(DoGet(s))
  {
    if s.list != [] {
      HeadAndTail(s.list);
    }
    forall ud, b | b in Bits(DoGet(s), ud) && b != Bye ensures Covered(DoGet(s), ud, b) {
      assert b in Bits(s, ud);
    }
  }

  lemma InsertNoneLost(s: State, x: nat)
    requires NoneLost(s) && x in s.adding
    ensures NoneLost(DoInsert(s, x))
  {
    forall ud, b | b in Bits(DoInsert(s, x), ud) && b != Bye ensures Covered(DoInsert(s, x), ud, b) {
      assert b in Bits(s, ud) && Covered(s, ud, b);
    }
  }

  lemma SetNoneLost(s: State, x: nat, bits: set<Bit>)
    requires NoneLost(s)
    ensures NoneLost(DoSet(s, x, bits))
  {
    var z := DoSet(s, x, bits);
    forall ud, b | b in Bits(z, ud) && b != Bye ensures Covered(z, ud, b) {
      if b in Bits(s, ud) { assert Covered(s, ud, b); }
    }
  }

  lemma WorkNoneLost(s: State, step: Step)
    requires NoneLost(s) && (step.AddTest? || step.Start? || step.Test? || step.Unset?)
    ensures NoneLost(Apply(s, step))
  {
    var z := Apply(s, step);
    forall ud, b | b in Bits(z, ud) && b != Bye ensures Covered(z, ud, b) {
      assert b in Bits(s, ud) && Covered(s, ud, b);
    }
  }

  lemma StepNoneLost(s: State, step: Step)
    requires NoneLost(s)
    ensures NoneLost(Apply(s, step))
  {
    match step
    case Get => if s.worker.Top? { GetNoneLost(s); }
    case AddInsert(ud) => if ud in s.adding { InsertNoneLost(s, ud); }
    case AddSet(ud, bits) =>
      var t := s.(tested := s.tested - multiset{(ud, bits)});
      assert forall x, b :: Covered(s, x, b) ==> Covered(t, x, b);
      SetNoneLost(t, ud, bits);
    case _ => WorkNoneLost(s, step);
  }

  lemma StepAttended(s: State, step: Step)
    requires Attended(s)
    ensures Attended(Apply(s, step))
  {
    if s.list != [] {
      TailMembers(s.list);
    }
  }

  lemma {:induction false} RunInv(steps: seq<Step>)
    ensures var s := Run(Initial, steps); NoneLost(s) && Attended(s)
  {
    if steps != [] {
      var s, step := Run(Initial, steps[..|steps| - 1]), steps[|steps| - 1];
      RunInv(steps[..|steps| - 1]);
      StepNoneLost(s, step);
      StepAttended(s, step);
    }
  }

  /** A pending bit other than BYE always has somebody on its way to it, and the list holds no device twice. */
  lemma NoEventLost(steps: seq<Step>, ud: nat, b: Bit)
    requires b in Bits(Run(Initial, steps), ud) && b != Bye
    ensures Covered(Run(Initial, steps), ud, b) && NoDup(Run(Initial, steps).list)
  {
    RunInv(steps);
  }

  /** When everything has come to rest, nothing but BYE is pending anywhere. */
  lemma AtRest(steps: seq<Step>, ud: nat)
    requires var s := Run(Initial, steps); s.worker.Idle? && !s.queued && s.adding == multiset{}
    ensures Bits(Run(Initial, steps), ud) <= {Bye}
  {
    RunInv(steps);
    var s := Run(Initial, steps);
    forall b | b in Bits(s, ud) ensures b == Bye {
      assert b != Bye ==> Covered(s, ud, b);
    }
  }

  lemma RunMore(steps: seq<Step>, step: Step)
    ensures Run(Initial, steps + [step]) == Apply(Run(Initial, steps), step)
  {
    assert (steps + [step])[..|steps|] == steps;
  }

  lemma Added(ud: nat, bits: set<Bit>) returns (steps: seq<Step>)
    ensures var s := Run(Initial, steps); s.list == [ud] && s.queued && s.worker.Idle? && Bits(s, ud) == bits
  {
    steps := [];
    RunMore(steps, AddTest(ud, bits));
    steps := steps + [AddTest(ud, bits)];
    RunMore(steps, AddSet(ud, bits));
    steps := steps + [AddSet(ud, bits)];
    assert Bits(Run(Initial, steps), ud) == bits;
    RunMore(steps, AddInsert(ud));
    steps := steps + [AddInsert(ud)];
  }

  /** The first device to raise events, and the worker takes it up. */
  lemma TakenUp(ud: nat, bits: set<Bit>) returns (steps: seq<Step>)
    ensures var s := Run(Initial, steps); s.worker == Testing(ud, 0) && Bits(s, ud) == bits
  {
    steps := Added(ud, bits);
    StartAndGet(Run(Initial, steps), ud);
    RunMore(steps, Start);
    RunMore(steps + [Start], Get);
    steps := steps + [Start] + [Get];
  }

  lemma StartAndGet(s: State, ud: nat)
    requires s.list == [ud] && s.queued && s.worker.Idle?
    ensures var z := Apply(Apply(s, Start), Get); z.worker == Testing(ud, 0) && Bits(z, ud) == Bits(s, ud)
  {
  }

  lemma RaisedBehind(s: State, ud: nat, bits: set<Bit>)
    requires s.worker == Testing(ud, 1) && Bye !in Bits(s, ud) && Shutdown in bits && Reset in bits
    ensures var z := Apply(Apply(Apply(s, AddTest(ud, bits)), AddSet(ud, bits)), Test);
            z.worker == Handling(ud, 1) && Shutdown in Bits(z, ud)
  {
  }

  /** A run in which the events of a TCP error arrive between the first and the second test: reset goes first. */
  lemma ResetCanComeFirst(ud: nat) returns (steps: seq<Step>)
    ensures var s := Run(Initial, steps); s.worker == Handling(ud, 1) && BitAt(1) == Reset && Shutdown in Bits(s, ud)
  {
    var tcp := {Shutdown, Reset};
    steps := TakenUp(ud, {Unusable});
    RunMore(steps, Test);
    steps := steps + [Test];
    RaisedBehind(Run(Initial, steps), ud, tcp);
    RunMore(steps, AddTest(ud, tcp));
    steps := steps + [AddTest(ud, tcp)];
    RunMore(steps, AddSet(ud, tcp));
    steps := steps + [AddSet(ud, tcp)];
    RunMore(steps, Test);
    steps := steps + [Test];
  }

  // ---------------------------------------------------------------------------------------------
  // For which raises a handler starts afterwards.
  // ---------------------------------------------------------------------------------------------

  /** This step raises b on ud. */
  predicate Raises(s: State, step: Step, ud: nat, b: Bit) {
    step.AddSet? && step.ud == ud && b in step.bits && (ud, step.bits) in s.tested
  }

  /** This step starts the handler of b on ud. */
  predicate Starts(s: State, step: Step, ud: nat, b: Bit) {
    step.Test? && s.worker.Testing? && s.worker.ud == ud && s.worker.n == Rank(b) && b in Bits(s, ud)
  }

  /** The handler of b on ud is running. */
  predicate InHandler(s: State, ud: nat, b: Bit) { s.worker.Handling? && s.worker.ud == ud && s.worker.n == Rank(b) }

  predicate Waiting(s: State, ud: nat, b: Bit) { b in Bits(s, ud) && !InHandler(s, ud, b) }

  /** A bit raised outside its own handler waits until that handler starts. */
  lemma WaitsOn(s: State, step: Step, ud: nat, b: Bit)
    requires b != Bye && Attended(s) && !Starts(s, step, ud, b)
    requires Waiting(s, ud, b) || (Raises(s, step, ud, b) && !InHandler(s, ud, b))
    ensures Waiting(Apply(s, step), ud, b)
  {
  }

  /** Without such a raise the bit is cleared when its handler returns, and no handler starts. */
  lemma Quiet(s: State, step: Step, ud: nat, b: Bit)
    requires b != Bye && Attended(s) && !Waiting(s, ud, b) && !(Raises(s, step, ud, b) && !InHandler(s, ud, b))
    ensures !Waiting(Apply(s, step), ud, b) && !Starts(s, step, ud, b)
  {
    if step.AddSet? {
      QuietSet(s, step.ud, step.bits, ud, b);
    } else if step.Unset? {
      QuietUnset(s, ud, b);
    }
  }

  lemma QuietSet(s: State, x: nat, bits: set<Bit>, ud: nat, b: Bit)
    requires !Waiting(s, ud, b) && !(Raises(s, AddSet(x, bits), ud, b) && !InHandler(s, ud, b))
    ensures !Waiting(Apply(s, AddSet(x, bits)), ud, b)
  {
  }

  lemma QuietUnset(s: State, ud: nat, b: Bit)
    requires b != Bye && Attended(s) && !Waiting(s, ud, b)
    ensures !Waiting(Apply(s, Unset), ud, b)
  {
  }

  /** The states a run goes through. */
  ghost predicate History(h: seq<State>, steps: seq<Step>) {
    |h| == |steps| + 1 && h[0] == Initial && forall k :: 0 <= k < |steps| ==> Follows(h, steps, k)
  }

  predicate Follows(h: seq<State>, steps: seq<Step>, k: nat)
    requires |h| == |steps| + 1 && k < |steps|
  {
    h[k + 1] == Apply(h[k], steps[k])
  }

  lemma {:induction false} HistoryIsRun(h: seq<State>, steps: seq<Step>, k: nat)
    requires History(h, steps) && k <= |steps|
    ensures h[k] == Run(Initial, steps[..k]) && Attended(h[k])
  {
    if k > 0 {
      HistoryIsRun(h, steps, k - 1);
      assert Follows(h, steps, k - 1);
      assert steps[..k][..k - 1] == steps[..k - 1];
    }
    RunInv(steps[..k]);
  }

  predicate StartsAt(h: seq<State>, steps: seq<Step>, m: nat, ud: nat, b: Bit) {
    m < |steps| && m < |h| && Starts(h[m], steps[m], ud, b)
  }

  /** Step j raises the bit, and not from inside its own handler. */
  predicate RaisedOutside(h: seq<State>, steps: seq<Step>, j: nat, ud: nat, b: Bit) {
    j < |steps| && j < |h| && Raises(h[j], steps[j], ud, b) && !InHandler(h[j], ud, b)
  }

  lemma WaitsStep(h: seq<State>, steps: seq<Step>, k: nat, ud: nat, b: Bit)
    requires b != Bye && History(h, steps) && k < |steps| && !StartsAt(h, steps, k, ud, b)
    requires Waiting(h[k], ud, b) || RaisedOutside(h, steps, k, ud, b)
    ensures Waiting(h[k + 1], ud, b)
  {
    HistoryIsRun(h, steps, k);
    assert Follows(h, steps, k);
    WaitsOn(h[k], steps[k], ud, b);
  }

  lemma QuietStep(h: seq<State>, steps: seq<Step>, k: nat, ud: nat, b: Bit)
    requires b != Bye && History(h, steps) && k < |steps|
    requires !Waiting(h[k], ud, b) && !RaisedOutside(h, steps, k, ud, b)
    ensures !Waiting(h[k + 1], ud, b) && !StartsAt(h, steps, k, ud, b)
  {
    HistoryIsRun(h, steps, k);
    assert Follows(h, steps, k);
    Quiet(h[k], steps[k], ud, b);
  }

  lemma {:induction false} WaitsUntil(h: seq<State>, steps: seq<Step>, j: nat, n: nat, ud: nat, b: Bit)
    requires b != Bye && History(h, steps) && j < n <= |steps| && RaisedOutside(h, steps, j, ud, b)
    requires forall m :: j < m < n ==> !StartsAt(h, steps, m, ud, b)
    ensures Waiting(h[n], ud, b)
    decreases n
  {
    if n - 1 > j {
      WaitsUntil(h, steps, j, n - 1, ud, b);
    }
    WaitsStep(h, steps, n - 1, ud, b);
  }

  lemma {:induction false} QuietUntil(h: seq<State>, steps: seq<Step>, k: nat, n: nat, ud: nat, b: Bit)
    requires b != Bye && History(h, steps) && k <= n <= |steps| && !Waiting(h[k], ud, b)
    requires forall j :: k <= j < n ==> !RaisedOutside(h, steps, j, ud, b)
    ensures !Waiting(h[n], ud, b)
    decreases n
  {
    if n > k {
      QuietUntil(h, steps, k, n - 1, ud, b);
      QuietStep(h, steps, n - 1, ud, b);
    }
  }

  /** The worker is idle, nothing is queued and no adder is on its way. */
  predicate Resting(s: State) { s.worker.Idle? && !s.queued && s.adding == multiset{} }

  lemma RaisedThenStarted(h: seq<State>, steps: seq<Step>, j: nat, ud: nat, b: Bit)
    requires b != Bye && History(h, steps) && RaisedOutside(h, steps, j, ud, b) && Resting(h[|steps|])
    ensures exists m :: j < m < |steps| && StartsAt(h, steps, m, ud, b)
  {
    if forall m :: j < m < |steps| ==> !StartsAt(h, steps, m, ud, b) {
      WaitsUntil(h, steps, j, |steps|, ud, b);
      HistoryIsRun(h, steps, |steps|);
      assert steps[..|steps|] == steps;
      AtRest(steps, ud);
    }
  }

  /**
   A raise is answered exactly if it, or a later one of the same bit, comes from outside that bit's own
   handler: in a run that has come to rest, a handler starts after step k's raise in just that case.
   */
  lemma RaiseHandledExactly(h: seq<State>, steps: seq<Step>, k: nat, ud: nat, b: Bit)
    requires b != Bye && History(h, steps) && k < |steps| && Raises(h[k], steps[k], ud, b) && Resting(h[|steps|])
    ensures (exists m :: k < m < |steps| && StartsAt(h, steps, m, ud, b)) <==>
            (exists j :: k <= j < |steps| && RaisedOutside(h, steps, j, ud, b))
  {
    if j :| k <= j < |steps| && RaisedOutside(h, steps, j, ud, b) {
      RaisedThenStarted(h, steps, j, ud, b);
    } else {
      assert !RaisedOutside(h, steps, k, ud, b);
      forall m | k < m < |steps| ensures !StartsAt(h, steps, m, ud, b) {
        QuietUntil(h, steps, k, m, ud, b);
        QuietStep(h, steps, m, ud, b);
      }
    }
  }

  // ---------------------------------------------------------------------------------------------
  // What is pending, and what is refused.
  // ---------------------------------------------------------------------------------------------

  /** The handler of b on ud has returned. */
  predicate Clears(s: State, step: Step, ud: nat, b: Bit) { step.Unset? && b != Bye && InHandler(s, ud, b) }

  lemma SetBits(s: State, x: nat, bits: set<Bit>, ud: nat, b: Bit)
    ensures b in Bits(Apply(s, AddSet(x, bits)), ud) <==> b in Bits(s, ud) || Raises(s, AddSet(x, bits), ud, b)
  {
  }

  lemma UnsetBits(s: State, ud: nat, b: Bit)
    requires Attended(s)
    ensures b in Bits(Apply(s, Unset), ud) <==> b in Bits(s, ud) && !Clears(s, Unset, ud, b)
  {
  }

  lemma PendingStep(s: State, step: Step, ud: nat, b: Bit)
    requires Attended(s)
    ensures b in Bits(Apply(s, step), ud) <==>
              Raises(s, step, ud, b) || (b in Bits(s, ud) && !Clears(s, step, ud, b))
  {
    if step.AddSet? {
      SetBits(s, step.ud, step.bits, ud, b);
    } else if step.Unset? {
      UnsetBits(s, ud, b);
    }
  }

  /** Step k raised b, and up to state n no handler of it has returned. */
  predicate RaisedSince(h: seq<State>, steps: seq<Step>, k: nat, n: nat, ud: nat, b: Bit) {
    && k < n <= |steps| < |h| && Raises(h[k], steps[k], ud, b)
    && forall m :: k < m < n ==> !Clears(h[m], steps[m], ud, b)
  }

  ghost predicate Outstanding(h: seq<State>, steps: seq<Step>, n: nat, ud: nat, b: Bit) {
    exists k: nat :: RaisedSince(h, steps, k, n, ud, b)
  }

  lemma OutstandingStep(h: seq<State>, steps: seq<Step>, n: nat, next: nat, ud: nat, b: Bit)
    requires next == n + 1 <= |steps| < |h|
    ensures Outstanding(h, steps, next, ud, b) <==>
              Raises(h[n], steps[n], ud, b) || (Outstanding(h, steps, n, ud, b) && !Clears(h[n], steps[n], ud, b))
  {
    if k: nat :| RaisedSince(h, steps, k, next, ud, b) {
      assert k < n ==> RaisedSince(h, steps, k, n, ud, b);
    }
    if k: nat :| RaisedSince(h, steps, k, n, ud, b) && !Clears(h[n], steps[n], ud, b) {
      assert RaisedSince(h, steps, k, next, ud, b);
    }
    if Raises(h[n], steps[n], ud, b) {
      assert RaisedSince(h, steps, n, next, ud, b);
    }
  }

  /** In every run a bit is pending exactly if it was raised and its handler has not returned since; so BYE stays. */
  lemma {:induction false} PendingExactly(h: seq<State>, steps: seq<Step>, n: nat, ud: nat, b: Bit)
    requires History(h, steps) && n <= |steps|
    ensures b in Bits(h[n], ud) <==> Outstanding(h, steps, n, ud, b)
  {
    if n > 0 {
      HistoryIsRun(h, steps, n - 1);
      PendingStep(h[n - 1], steps[n - 1], ud, b);
      OutstandingStep(h, steps, n - 1, n, ud, b);
      PendingExactly(h, steps, n - 1, ud, b);
      assert Follows(h, steps, n - 1);
    }
  }

  function Count(b: bool): nat { if b then 1 else 0 }

  /** Calls of usbip_event_add made while BYE was not pending. */
  function Let(h: seq<State>, steps: seq<Step>, n: nat, ud: nat, bits: set<Bit>): nat
    requires n <= |steps| < |h|
  {
    if n == 0 then 0 else
    Let(h, steps, n - 1, ud, bits) + Count(steps[n - 1] == AddTest(ud, bits) && Bye !in Bits(h[n - 1], ud))
  }

  /** Those that have raised their bits. */
  function Made(h: seq<State>, steps: seq<Step>, n: nat, ud: nat, bits: set<Bit>): nat
    requires n <= |steps| < |h|
  {
    if n == 0 then 0 else
    Made(h, steps, n - 1, ud, bits) + Count(steps[n - 1] == AddSet(ud, bits) && h[n].adding[ud] > h[n - 1].adding[ud])
  }

  lemma TestedStep(s: State, step: Step, ud: nat, bits: set<Bit>)
    ensures var z := Apply(s, step);
            z.tested[(ud, bits)] + Count(step == AddSet(ud, bits) && z.adding[ud] > s.adding[ud])
            == s.tested[(ud, bits)] + Count(step == AddTest(ud, bits) && Bye !in Bits(s, ud))
  {
  }

  /**
   In every run: the raises that were made, and those still on their way, are exactly the calls made while
   BYE was not pending; every other call is refused.
   */
  lemma {:induction false} RefusedExactly(h: seq<State>, steps: seq<Step>, n: nat, ud: nat, bits: set<Bit>)
    requires History(h, steps) && n <= |steps|
    ensures Made(h, steps, n, ud, bits) + h[n].tested[(ud, bits)] == Let(h, steps, n, ud, bits)
  {
    if n > 0 {
      RefusedExactly(h, steps, n - 1, ud, bits);
      assert Follows(h, steps, n - 1);
      TestedStep(h[n - 1], steps[n - 1], ud, bits);
    }
  }

  /** A device that is not listed yet is listed, and the work queued. */
  predicate Queues(s: State, step: Step) { step.AddInsert? && step.ud in s.adding && step.ud !in s.list }

  predicate Wakes(s: State, z: State) { s.worker.Idle? && !z.worker.Idle? }

  lemma QueueStep(s: State, step: Step)
    ensures var z := Apply(s, step);
            && (z.queued <==> Queues(s, step) || (s.queued && !Wakes(s, z)))
            && (Wakes(s, z) ==> s.queued && step == Start)
  {
  }

  /** Step k queued the work, and up to state n the worker has not started on it. */
  predicate QueuedSince(h: seq<State>, steps: seq<Step>, k: nat, n: nat) {
    && k < n <= |steps| < |h| && Queues(h[k], steps[k]) && forall m :: k < m < n ==> !Wakes(h[m], h[m + 1])
  }

  ghost predicate WorkDue(h: seq<State>, steps: seq<Step>, n: nat) { exists k: nat :: QueuedSince(h, steps, k, n) }

  lemma WorkDueStep(h: seq<State>, steps: seq<Step>, n: nat, next: nat)
    requires next == n + 1 <= |steps| < |h|
    ensures WorkDue(h, steps, next) <==> Queues(h[n], steps[n]) || (WorkDue(h, steps, n) && !Wakes(h[n], h[next]))
  {
    if k: nat :| QueuedSince(h, steps, k, next) {
      assert k < n ==> QueuedSince(h, steps, k, n);
    }
    if k: nat :| QueuedSince(h, steps, k, n) && !Wakes(h[n], h[next]) {
      assert QueuedSince(h, steps, k, next);
    }
    if Queues(h[n], steps[n]) {
      assert QueuedSince(h, steps, n, next);
    }
  }

  lemma {:induction false} QueuedIsDue(h: seq<State>, steps: seq<Step>, n: nat)
    requires History(h, steps) && n <= |steps|
    ensures h[n].queued <==> WorkDue(h, steps, n)
  {
    if n > 0 {
      QueueStep(h[n - 1], steps[n - 1]);
      WorkDueStep(h, steps, n - 1, n);
      QueuedIsDue(h, steps, n - 1);
      assert Follows(h, steps, n - 1);
    }
  }

  /** The worker starts only for a device that was listed since it last started, and until then the work stays queued. */
  lemma WakesForWork(h: seq<State>, steps: seq<Step>, n: nat)
    requires History(h, steps) && n < |steps|
    ensures Wakes(h[n], h[n + 1]) ==> WorkDue(h, steps, n)
    ensures steps[n] == Start && h[n].worker.Idle? && WorkDue(h, steps, n) ==> Wakes(h[n], h[n + 1])
  {
    QueuedIsDue(h, steps, n);
    QueueStep(h[n], steps[n]);
    assert Follows(h, steps, n);
  }

  // ---------------------------------------------------------------------------------------------
  // "Shutdown must come first".
  // ---------------------------------------------------------------------------------------------

  /** The worker holds the device and has done with SHUTDOWN for this round. */
  predicate PastCheck(s: State, ud: nat) { Holds(s.worker, ud) && s.worker.n > 0 }

  lemma PastCheckStep(s: State, step: Step, ud: nat)
    requires PastCheck(Apply(s, step), ud)
    ensures Shutdown in Bits(Apply(s, step), ud) <==>
              PastCheck(s, ud) && (Shutdown in Bits(s, ud) || Raises(s, step, ud, Shutdown))
  {
    if step.AddSet? {
      SetAddsBits(s, step.ud, step.bits, ud);
    } else if step.Unset? {
      UnsetClearsOne(s, ud);
    } else {
      WorkKeepsBits(s, step, ud);
    }
  }

  lemma WorkKeepsBits(s: State, step: Step, ud: nat)
    requires !step.AddSet? && !step.Unset? && PastCheck(Apply(s, step), ud)
    ensures Apply(s, step).event == s.event && (PastCheck(s, ud) || Shutdown !in Bits(s, ud))
  {
  }

  lemma UnsetClearsOne(s: State, ud: nat)
    requires PastCheck(Apply(s, Unset), ud)
    ensures Shutdown in Bits(Apply(s, Unset), ud) <==> PastCheck(s, ud) && Shutdown in Bits(s, ud)
  {
  }

  lemma SetAddsBits(s: State, x: nat, bits: set<Bit>, ud: nat)
    ensures var z := Apply(s, AddSet(x, bits));
            z.worker == s.worker &&
            (Shutdown in Bits(z, ud) <==> Shutdown in Bits(s, ud) || Raises(s, AddSet(x, bits), ud, Shutdown))
  {
  }

  /** Step k raises SHUTDOWN, and from there to state n the worker is past its check in one and the same round. */
  predicate LateRaise(h: seq<State>, steps: seq<Step>, k: nat, n: nat, ud: nat) {
    && k < n <= |steps| < |h| && Raises(h[k], steps[k], ud, Shutdown)
    && forall m :: k <= m <= n ==> PastCheck(h[m], ud)
  }

  ghost predicate SomeLate(h: seq<State>, steps: seq<Step>, n: nat, ud: nat) {
    exists k: nat :: LateRaise(h, steps, k, n, ud)
  }

  lemma SomeLateStep(h: seq<State>, steps: seq<Step>, n: nat, ud: nat)
    requires n < |steps| < |h| && PastCheck(h[n + 1], ud)
    ensures SomeLate(h, steps, n + 1, ud) <==>
              PastCheck(h[n], ud) && (SomeLate(h, steps, n, ud) || Raises(h[n], steps[n], ud, Shutdown))
  {
    var next := n + 1;
    if k: nat :| LateRaise(h, steps, k, next, ud) {
      assert PastCheck(h[n], ud);
      assert k < n ==> LateRaise(h, steps, k, n, ud);
    }
    if PastCheck(h[n], ud) && SomeLate(h, steps, n, ud) {
      var k: nat :| LateRaise(h, steps, k, n, ud);
      assert LateRaise(h, steps, k, next, ud);
    }
    if PastCheck(h[n], ud) && Raises(h[n], steps[n], ud, Shutdown) {
      assert LateRaise(h, steps, n, next, ud);
    }
  }

  lemma {:induction false} PendingIsLate(h: seq<State>, steps: seq<Step>, n: nat, ud: nat)
    requires History(h, steps) && n <= |steps| && PastCheck(h[n], ud)
    ensures Shutdown in Bits(h[n], ud) <==> SomeLate(h, steps, n, ud)
  {
    if n > 0 {
      assert Follows(h, steps, n - 1);
      PastCheckStep(h[n - 1], steps[n - 1], ud);
      SomeLateStep(h, steps, n - 1, ud);
      if PastCheck(h[n - 1], ud) {
        PendingIsLate(h, steps, n - 1, ud);
      }
    }
  }

  /**
   "Shutdown must come first" is not kept in every run: a handler after the first is entered with
   SHUTDOWN pending exactly if some step raised SHUTDOWN after this round's check for it.
   */
  lemma ShutdownFirstUnlessLate(h: seq<State>, steps: seq<Step>, ud: nat, n: nat)
    requires History(h, steps) && h[|steps|].worker == Handling(ud, n) && n > 0
    ensures Shutdown in Bits(h[|steps|], ud) <==> exists k: nat :: LateRaise(h, steps, k, |steps|, ud)
  {
    PendingIsLate(h, steps, |steps|, ud);
  }

  // ---------------------------------------------------------------------------------------------
  // A raise that is never answered.
  // ---------------------------------------------------------------------------------------------

  lemma RaisedInside(s: State, ud: nat)
    requires s.worker == Handling(ud, 0) && Bits(s, ud) == {Shutdown}
    ensures var a := Apply(s, AddTest(ud, {Shutdown}));
            var z := Apply(Apply(a, AddSet(ud, {Shutdown})), Unset);
            && Raises(a, AddSet(ud, {Shutdown}), ud, Shutdown) && InHandler(a, ud, Shutdown)
            && Shutdown !in Bits(z, ud)
  {
  }

  /** SHUTDOWN raised again while its handler runs: the bit is cleared, and the second raise has no handler of its own. */
  lemma RaiseLost(ud: nat) returns (steps: seq<Step>, k: nat)
    ensures k < |steps| && Raises(Run(Initial, steps[..k]), steps[k], ud, Shutdown)
    ensures InHandler(Run(Initial, steps[..k]), ud, Shutdown) && k + 2 == |steps|
    ensures Shutdown !in Bits(Run(Initial, steps), ud)
  {
    var bits := {Shutdown};
    steps := TakenUp(ud, bits);
    RunMore(steps, Test);
    steps := steps + [Test];
    RaisedInside(Run(Initial, steps), ud);
    RunMore(steps, AddTest(ud, bits));
    steps := steps + [AddTest(ud, bits)];
    k := |steps|;
    ghost var before := steps;
    RunMore(steps, AddSet(ud, bits));
    steps := steps + [AddSet(ud, bits)];
    RunMore(steps, Unset);
    steps := steps + [Unset];
    assert steps[..k] == before;
  }
}

/** The global list and the event words, as usbip_event.c changes them. */
module EventDevice {
  import opened Lists
  import opened Events

  class EventQueue {
    var event: map<nat, set<Bit>>
    var list: seq<nat>
    var queued: bool

    constructor ()
      ensures event == map[] && list == [] && !queued
    {
      event, list, queued := map[], [], false;
    }

    ghost predicate Is(s: State)
      reads this
    {
      event == s.event && list == s.list && queued == s.queued
    }

    /** set_event. */
    method SetEvent(ud: nat, bits: set<Bit>, ghost s: State)
      requires Is(s)
      modifies this`event
      ensures Is(DoSet(s, ud, bits))
    {
      event := event[ud := (if ud in event then event[ud] else {}) + bits];
    }

    /** unset_event. */
    method UnsetEvent(ud: nat, n: nat, ghost s: State)
      requires Is(s) && n < 3
      modifies this`event
      ensures Is(DoUnset(s, ud, n))
    {
      event := event[ud := (if ud in event then event[ud] else {}) - {BitAt(n)}];
    }

    /** The locked part of usbip_event_add, searching the list from its end. */
    method Insert(ud: nat, ghost s: State)
      requires Is(s)
      modifies this`list, this`queued
      ensures Is(DoInsert(s, ud))
    {
      var i := |list|;
      while i > 0
        invariant 0 <= i <= |list|
        invariant forall j :: i <= j < |list| ==> list[j] != ud
        invariant list == s.list && queued == s.queued
      {
        i := i - 1;
        if list[i] == ud { return; }
      }
      list, queued := list + [ud], true;
    }

    /** get_event. */
    method GetEvent(ghost s: State) returns (r: Option<nat>)
      requires Is(s)
      modifies this`list
      ensures Is(DoGet(s))
      ensures r == if s.list == [] then None else Some(s.list[0])
    {
      if list == [] { return None; }
      r := Some(list[0]);
      list := list[1..];
    }

    /**
     event_handler with nobody else about: it empties the list, and no listed device keeps a bit other
     than BYE.  The handlers' own effects are not part of this model.
     */
    method EventHandler()
      modifies this`event, this`list
      ensures list == []
      ensures forall ud :: ud in old(list) && ud in event ==> event[ud] <= {Bye}
      ensures forall ud :: ud !in old(list) ==> (ud in event <==> ud in old(event))
      ensures forall ud :: ud !in old(list) && ud in event ==> event[ud] == old(event)[ud]
    {
      ghost var done := 0;
      while list != []
        invariant done <= |old(list)| && list == old(list)[done..]
        invariant forall ud :: ud in old(list)[..done] && ud in event ==> event[ud] <= {Bye}
        invariant forall ud :: ud !in old(list) ==> (ud in event <==> ud in old(event))
        invariant forall ud :: ud !in old(list) && ud in event ==> event[ud] == old(event)[ud]
        decreases |list|
      {
        var ud := list[0];
        assert old(list)[done] == ud && old(list)[..done + 1] == old(list)[..done] + [ud];
        list := list[1..];
        if ud in event {
          var bits := event[ud];
          if Shutdown in bits { bits := bits - {Shutdown}; }
          if Reset in bits { bits := bits - {Reset}; }
          if Unusable in bits { bits := bits - {Unusable}; }
          event := event[ud := bits];
          assert forall b :: b in bits ==> b == Bye;
        }
        done := done + 1;
      }
      assert old(list)[..done] == old(list);
    }
  }
}
