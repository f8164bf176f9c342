/** Where the port counters stop being right, exactly. */
module ControllerLimits {
  import opened Lists
  import opened Controllers

  // ---------------------------------------------------------------------------------------------
  // A port that was lost track of.
  // ---------------------------------------------------------------------------------------------

  predicate InUse(s: State, nr: nat, p: nat) { IsPort(s, nr, p) && Active(PortAt(s, nr, p)) }

  /** In use, but its own counter does not say so. */
  predicate Skewed(s: State, nr: nat, p: nat) { InUse(s, nr, p) && PortAt(s, nr, p).usingPort != 1 }

  function LostAt(s: State, nr: nat): nat {
    if nr < |s.pdevs| && s.pdevs[nr].Some? then s.pdevs[nr].value.leaked else 0
  }

  predicate Attaches(step: Step, nr: nat, p: nat) { step.DoAttach? && step.nr == nr && step.p == p }

  predicate Releases(step: Step, nr: nat, p: nat) {
    (step.DoReset? || step.DoUnusable?) && step.nr == nr && step.p == p
  }

  predicate Loses(s: State, step: Step, nr: nat) {
    (step.DoReset? || step.DoUnusable?) && step.nr == nr && Skewed(s, nr, step.p)
  }

  /** A step skews a port in use by attaching to it; releasing a skewed port loses it. */
  ghost predicate Skews(s: State, z: State, step: Step, nr: nat) {
    && (forall p: nat :: InUse(z, nr, p) ==>
          (Skewed(z, nr, p) <==> InUse(s, nr, p) && (Skewed(s, nr, p) || Attaches(step, nr, p))))
    && LostAt(z, nr) == LostAt(s, nr) + if Loses(s, step, nr) then 1 else 0
  }

  lemma OnePort(s: State, z: State, mr: nat, q: nat, port: Port, d: int, lost: nat, nr: nat)
    requires IsPort(s, mr, q) && Changes(s, z, mr, With(s.pdevs[mr].value, q, port, d, lost))
    ensures IsPort(z, mr, q) && PortAt(z, mr, q) == port
    ensures LostAt(z, nr) == LostAt(s, nr) + if nr == mr then lost else 0
    ensures forall p: nat :: nr != mr || p != q ==>
              (InUse(z, nr, p) <==> InUse(s, nr, p)) && (Skewed(z, nr, p) <==> Skewed(s, nr, p))
  {
  }

  lemma AttachSkews(s: State, mr: nat, q: nat, linked: bool, nr: nat)
    requires Inv(s) && IsPort(s, mr, q)
    ensures Skews(s, Attach(s, mr, q, linked), DoAttach(mr, q, linked), nr)
  {
    var port := PortAt(s, mr, q);
    AttachShape(s, mr, q, linked);
    if port.status == Null && linked {
      OnePort(s, Attach(s, mr, q, linked), mr, q, Port(NotAssigned, 1), 1, 0, nr);
    } else {
      OnePort(s, Attach(s, mr, q, linked), mr, q, Port(port.status, 0), 0, 0, nr);
    }
  }

  lemma EnsureSame(s: State, mr: nat, nr: nat)
    requires mr < |s.pdevs|
    ensures var e := Ensure(s, mr);
            && LostAt(e, nr) == LostAt(s, nr)
            && forall p: nat :: (InUse(e, nr, p) <==> InUse(s, nr, p)) && (Skewed(e, nr, p) <==> Skewed(s, nr, p))
  {
  }

  lemma ReleaseSkews(s: State, step: Step, mr: nat, q: nat, status: Status, nr: nat)
    requires IsPort(s, mr, q) && (status == Null || status == Error) && Releases(step, mr, q)
    ensures Skews(s, Release(s, mr, q, status), step, nr)
  {
    var port := PortAt(s, mr, q);
    ReleaseShape(s, mr, q, status);
    OnePort(s, Release(s, mr, q, status), mr, q, Port(status, port.usingPort - 1),
            if port.usingPort == 1 then -1 else 0, Lost(port), nr);
  }

  lemma UseSkews(s: State, mr: nat, q: nat, nr: nat)
    requires IsPort(s, mr, q) && PortAt(s, mr, q).status == NotAssigned
    ensures Skews(s, SetStatus(s, mr, q, Used), DoUse(mr, q), nr)
  {
    OnePort(s, SetStatus(s, mr, q, Used), mr, q, PortAt(s, mr, q).(status := Used), 0, 0, nr);
  }

  lemma DeleteSkews(s: State, init: nat, nr: nat)
    requires Inv(s)
    ensures Skews(s, TryDel(s, init), DoTryDel, nr)
  {
    if LostAt(s, nr) > 0 {
      LostCounted(s, nr);
    }
  }

  lemma LostCounted(s: State, nr: nat)
    requires Inv(s) && LostAt(s, nr) > 0
    ensures s.pdevs[nr].value.using > 0
  {
    var ports := s.pdevs[nr].value.ports;
    SumBelow((p: Port) => 0, Weight, 1, ports);
    SumZero((p: Port) => 0, ports);
  }

  lemma StepSkews(s: State, init: nat, step: Step, nr: nat)
    requires Inv(s)
    ensures Skews(s, Apply(s, init, step), step, nr)
  {
    match step
    case DoAttach(mr, q, linked) =>
      if mr < |s.pdevs| && q < s.size {
        EnsureInv(s, mr);
        EnsureSame(s, mr, nr);
        AttachSkews(Ensure(s, mr), mr, q, linked, nr);
      }
    case DoUse(mr, q) => if IsPort(s, mr, q) && PortAt(s, mr, q).status == NotAssigned { UseSkews(s, mr, q, nr); }
    case DoReset(mr, q) => if IsPort(s, mr, q) { ReleaseSkews(s, step, mr, q, Null, nr); }
    case DoUnusable(mr, q) => if IsPort(s, mr, q) { ReleaseSkews(s, step, mr, q, Error, nr); }
    case DoTryDel => DeleteSkews(s, init, nr);
  }

  /** The states a run goes through. */
  ghost predicate History(h: seq<State>, init: nat, steps: seq<Step>) {
    && |h| == |steps| + 1 && 1 <= init <= |h[0].pdevs| && h[0].size > 0
    && h[0] == Start(|h[0].pdevs|, init, h[0].size)
    && forall k :: 0 <= k < |steps| ==> Follows(h, init, steps, k)
  }

  predicate Follows(h: seq<State>, init: nat, steps: seq<Step>, k: nat)
    requires |h| == |steps| + 1 && k < |steps|
  {
    h[k + 1] == Apply(h[k], init, steps[k])
  }

  lemma {:induction false} HistoryInv(h: seq<State>, init: nat, steps: seq<Step>, n: nat)
    requires History(h, init, steps) && n <= |steps|
    ensures Inv(h[n])
  {
    if n == 0 {
      StartInv(|h[0].pdevs|, init, h[0].size);
    } else {
      HistoryInv(h, init, steps, n - 1);
      assert Follows(h, init, steps, n - 1);
      StepInv(h[n - 1], init, steps[n - 1]);
    }
  }

  /** Step j attached to the port while it was in use, and it has been in use ever since, to state n. */
  predicate HitSince(h: seq<State>, steps: seq<Step>, j: nat, n: nat, nr: nat, p: nat) {
    j < n <= |steps| < |h| && Attaches(steps[j], nr, p) && forall i :: j <= i <= n ==> InUse(h[i], nr, p)
  }

  ghost predicate Hit(h: seq<State>, steps: seq<Step>, n: nat, nr: nat, p: nat) {
    exists j: nat :: HitSince(h, steps, j, n, nr, p)
  }

  lemma HitStep(h: seq<State>, steps: seq<Step>, n: nat, next: nat, nr: nat, p: nat)
    requires next == n + 1 <= |steps| < |h| && InUse(h[next], nr, p)
    ensures Hit(h, steps, next, nr, p) <==>
              InUse(h[n], nr, p) && (Hit(h, steps, n, nr, p) || Attaches(steps[n], nr, p))
  {
    if j: nat :| HitSince(h, steps, j, next, nr, p) {
      assert InUse(h[n], nr, p);
      assert j < n ==> HitSince(h, steps, j, n, nr, p);
    }
    if InUse(h[n], nr, p) && Hit(h, steps, n, nr, p) {
      var j: nat :| HitSince(h, steps, j, n, nr, p);
      assert HitSince(h, steps, j, next, nr, p);
    }
    if InUse(h[n], nr, p) && Attaches(steps[n], nr, p) {
      assert HitSince(h, steps, n, next, nr, p);
    }
  }

  lemma StartUnused(max: nat, init: nat, size: nat, nr: nat, p: nat)
    requires 1 <= init <= max
    ensures !InUse(Start(max, init, size), nr, p) && LostAt(Start(max, init, size), nr) == 0
  {
    var s := Start(max, init, size);
    assert nr < |s.pdevs| && s.pdevs[nr].Some? ==> s.pdevs[nr].value == NewHcd(size);
  }

  lemma {:induction false} SkewedIsHit(h: seq<State>, init: nat, steps: seq<Step>, n: nat, nr: nat, p: nat)
    requires History(h, init, steps) && n <= |steps|
    ensures InUse(h[n], nr, p) ==> (Skewed(h[n], nr, p) <==> Hit(h, steps, n, nr, p))
  {
    if n == 0 {
      StartUnused(|h[0].pdevs|, init, h[0].size, nr, p);
    } else if InUse(h[n], nr, p) {
      assert Follows(h, init, steps, n - 1);
      HistoryInv(h, init, steps, n - 1);
      StepSkews(h[n - 1], init, steps[n - 1], nr);
      HitStep(h, steps, n - 1, n, nr, p);
      SkewedIsHit(h, init, steps, n - 1, nr, p);
    }
  }

  /** Step m releases a port of the controller that step j had attached to while it was in use, as it still is. */
  predicate LosesAt(h: seq<State>, steps: seq<Step>, j: nat, m: nat, nr: nat, p: nat) {
    m < |steps| && Releases(steps[m], nr, p) && HitSince(h, steps, j, m, nr, p)
  }

  ghost predicate LosesBefore(h: seq<State>, steps: seq<Step>, n: nat, nr: nat) {
    exists j: nat, m: nat, p: nat :: m < n && LosesAt(h, steps, j, m, nr, p)
  }

  lemma LosesNow(h: seq<State>, init: nat, steps: seq<Step>, n: nat, nr: nat)
    requires History(h, init, steps) && n < |steps|
    ensures LosesBefore(h, steps, n + 1, nr) <==> LosesBefore(h, steps, n, nr) || Loses(h[n], steps[n], nr)
  {
    if LosesBefore(h, steps, n + 1, nr) {
      var j: nat, m: nat, p: nat :| m < n + 1 && LosesAt(h, steps, j, m, nr, p);
      if m == n {
        SkewedIsHit(h, init, steps, n, nr, p);
      }
    }
    if Loses(h[n], steps[n], nr) {
      var p := steps[n].p;
      SkewedIsHit(h, init, steps, n, nr, p);
      var j: nat :| HitSince(h, steps, j, n, nr, p);
      assert LosesAt(h, steps, j, n, nr, p);
    }
  }

  lemma {:induction false} LostIsLosing(h: seq<State>, init: nat, steps: seq<Step>, n: nat, nr: nat)
    requires History(h, init, steps) && n <= |steps|
    ensures LostAt(h[n], nr) > 0 <==> LosesBefore(h, steps, n, nr)
  {
    if n == 0 {
      StartUnused(|h[0].pdevs|, init, h[0].size, nr, 0);
    } else {
      LostIsLosing(h, init, steps, n - 1, nr);
      assert Follows(h, init, steps, n - 1);
      HistoryInv(h, init, steps, n - 1);
      StepSkews(h[n - 1], init, steps[n - 1], nr);
      LosesNow(h, init, steps, n - 1, nr);
    }
  }

  /**
   In every run a controller's counter is the number of its ports in use exactly if no step released a
   port of it that some attach had been refused on while it was in use.
   */
  lemma CounterExactly(h: seq<State>, init: nat, steps: seq<Step>, nr: nat)
    requires History(h, init, steps) && nr < |h[|steps|].pdevs| && h[|steps|].pdevs[nr].Some?
    ensures var hcd := h[|steps|].pdevs[nr].value;
            hcd.using == Sum(Weight, hcd.ports) <==>
              !exists j: nat, m: nat, p: nat :: LosesAt(h, steps, j, m, nr, p)
  {
    HistoryInv(h, init, steps, |steps|);
    LostIsLosing(h, init, steps, |steps|, nr);
  }

  /** Once a counter is too large it stays so for ever, and its controller is never deleted. */
  lemma {:induction false} LostForEver(s: State, init: nat, steps: seq<Step>, nr: nat, n: nat)
    requires Inv(s) && LostAt(s, nr) >= n > 0
    ensures var z := Run(s, init, steps);
            && Inv(z) && nr < |z.pdevs| && z.pdevs[nr].Some?
            && z.pdevs[nr].value.using >= Sum(Weight, z.pdevs[nr].value.ports) + n && LostAt(z, nr) >= n
  {
    if steps != [] {
      var front := steps[..|steps| - 1];
      LostForEver(s, init, front, nr, n);
      StepSkews(Run(s, init, front), init, steps[|steps| - 1], nr);
      StepInv(Run(s, init, front), init, steps[|steps| - 1]);
    }
  }

  // ---------------------------------------------------------------------------------------------
  // Filling controllers.
  // ---------------------------------------------------------------------------------------------

  const Attached := Port(NotAssigned, 1)

  predicate Free(ports: seq<Port>, from: nat) {
    forall j :: from <= j < |ports| ==> ports[j].status == Null
  }

  predicate Taken(ports: seq<Port>, upto: nat) {
    upto <= |ports| && forall j :: 0 <= j < upto ==> ports[j] == Attached
  }

  /** The first n controllers are full, the next has its first p ports attached, the others none. */
  ghost predicate Filled(s: State, init: nat, n: nat, p: nat) {
    && Inv(s) && !s.busy && n < |s.pdevs| && p <= s.size
    && (forall i :: 0 <= i < n ==> s.pdevs[i].Some? && Taken(s.pdevs[i].value.ports, s.size))
    && (p > 0 ==> s.pdevs[n].Some?)
    && (forall i :: n <= i < |s.pdevs| && (i > n || p == 0) ==> (s.pdevs[i].Some? <==> i < init))
    && (forall i :: n < i < |s.pdevs| && s.pdevs[i].Some? ==> Free(s.pdevs[i].value.ports, 0))
    && (s.pdevs[n].Some? ==> Taken(s.pdevs[n].value.ports, p) && Free(s.pdevs[n].value.ports, p))
  }

  lemma StartFilled(max: nat, init: nat, size: nat)
    requires 1 <= init <= max && size > 0
    ensures Filled(Start(max, init, size), init, 0, 0)
  {
    var s := Start(max, init, size);
    StartInv(max, init, size);
    assert forall i :: 0 <= i < max ==> s.pdevs[i] == if i < init then Some(NewHcd(size)) else None;
    assert Free(NewHcd(size).ports, 0) && Taken(NewHcd(size).ports, 0);
  }

  lemma NextController(s: State, init: nat, n: nat)
    requires Filled(s, init, n, s.size) && n + 1 < |s.pdevs|
    ensures Filled(s, init, n + 1, 0)
  {
  }

  lemma NextPort(s: State, init: nat, n: nat, p: nat)
    requires Filled(s, init, n, p) && p < s.size
    ensures var z := Apply(s, init, DoAttach(n, p, true));
            Filled(z, init, n, p + 1) && |z.pdevs| == |s.pdevs| && z.size == s.size
  {
    var e := Ensure(s, n);
    EnsureInv(s, n);
    StepInv(s, init, DoAttach(n, p, true));
    AttachShape(e, n, p, true);
    var z := Apply(s, init, DoAttach(n, p, true));
    assert z.pdevs[n].value.ports == e.pdevs[n].value.ports[p := Attached];
  }

  ghost predicate FilledTo(s: State, max: nat, init: nat, size: nat, n: nat, p: nat) {
    Filled(s, init, n, p) && |s.pdevs| == max && s.size == size
  }

  lemma {:induction false} Fill(max: nat, init: nat, size: nat, n: nat, p: nat) returns (steps: seq<Step>)
    requires 1 <= init <= max && size > 0 && n < max && p <= size
    ensures FilledTo(Run(Start(max, init, size), init, steps), max, init, size, n, p)
    decreases n, p
  {
    var start := Start(max, init, size);
    if p > 0 {
      steps := Fill(max, init, size, n, p - 1);
      NextPort(Run(start, init, steps), init, n, p - 1);
      RunMore(start, init, steps, DoAttach(n, p - 1, true));
      steps := steps + [DoAttach(n, p - 1, true)];
    } else if n > 0 {
      steps := Fill(max, init, size, n - 1, size);
      NextController(Run(start, init, steps), init, n - 1);
    } else {
      steps := [];
      StartFilled(max, init, size);
    }
  }

  lemma {:induction false} SumEqual<T>(f: T -> int, a: seq<T>, n: nat, k: int)
    requires n <= |a| && (forall i :: 0 <= i < n ==> f(a[i]) == k) && forall i :: n <= i < |a| ==> f(a[i]) == 0
    ensures Sum(f, a) == n * k
  {
    if a != [] {
      SumEqual(f, a[1..], if n > 0 then n - 1 else 0, k);
    }
  }

  // ---------------------------------------------------------------------------------------------
  // Losing ports on purpose.
  // ---------------------------------------------------------------------------------------------

  /** Port 0 of controller 0 is attached. */
  predicate Holding(s: State) { IsPort(s, 0, 0) && PortAt(s, 0, 0) == Attached }

  /** The same but for controller 0, and so many ports lost there. */
  ghost predicate Same(s: State, z: State, lost: nat) {
    && z.num == s.num && z.size == s.size && Held(z) == Held(s) && z.total == s.total + lost
    && |z.pdevs| == |s.pdevs| > 0 && z.pdevs[1..] == s.pdevs[1..]
  }

  /** One port changed; nothing else. */
  lemma HeldChange(s: State, z: State, h: Hcd, port: Port, d: int, lost: nat)
    requires IsPort(s, 0, 0) && s.pdevs[0].value == h && Changes(s, z, 0, With(h, 0, port, d, lost))
    ensures Held(z) == Held(s) - Weight(h.ports[0]) + Weight(port)
    ensures IsPort(z, 0, 0) && PortAt(z, 0, 0) == port && z.pdevs[1..] == s.pdevs[1..] && |z.pdevs| == |s.pdevs|
    ensures z.num == s.num && z.size == s.size && z.total == s.total + d
  {
    SumUpdate(Weight, h.ports, 0, port);
    SumUpdate(HeldOf, s.pdevs, 0, Some(With(h, 0, port, d, lost)));
  }

  /** The refused attach takes the port's own count. */
  lemma BusyAttach(s: State, init: nat)
    requires Inv(s) && Holding(s)
    ensures var z := Apply(s, init, DoAttach(0, 0, true));
            Inv(z) && IsPort(z, 0, 0) && PortAt(z, 0, 0) == Port(NotAssigned, 0) && Same(s, z, 0)
  {
    StepInv(s, init, DoAttach(0, 0, true));
    AttachShape(s, 0, 0, true);
    HeldChange(s, Apply(s, init, DoAttach(0, 0, true)), s.pdevs[0].value, Port(NotAssigned, 0), 0, 0);
  }

  lemma ResetUncounted(s: State, init: nat)
    requires Inv(s) && IsPort(s, 0, 0) && PortAt(s, 0, 0) == Port(NotAssigned, 0)
    ensures var z := Apply(s, init, DoReset(0, 0));
            && Inv(z) && IsPort(z, 0, 0) && PortAt(z, 0, 0) == Port(Null, -1)
            && z.num == s.num && z.size == s.size && Held(z) == Held(s) - 1 && z.total == s.total
            && |z.pdevs| == |s.pdevs| && z.pdevs[1..] == s.pdevs[1..]
  {
    StepInv(s, init, DoReset(0, 0));
    ReleaseShape(s, 0, 0, Null);
    HeldChange(s, Apply(s, init, DoReset(0, 0)), s.pdevs[0].value, Port(Null, -1), 0, 1);
  }

  lemma AttachAgain(s: State, init: nat)
    requires Inv(s) && IsPort(s, 0, 0) && PortAt(s, 0, 0) == Port(Null, -1)
    ensures var z := Apply(s, init, DoAttach(0, 0, true));
            && Inv(z) && Holding(z)
            && z.num == s.num && z.size == s.size && Held(z) == Held(s) + 1 && z.total == s.total + 1
            && |z.pdevs| == |s.pdevs| && z.pdevs[1..] == s.pdevs[1..]
  {
    StepInv(s, init, DoAttach(0, 0, true));
    AttachShape(s, 0, 0, true);
    HeldChange(s, Apply(s, init, DoAttach(0, 0, true)), s.pdevs[0].value, Attached, 1, 0);
  }

  /** Attach to the port in use, reset, attach again: it is held as before, and counted once more. */
  lemma LoseOne(s: State, init: nat, before: seq<Step>) returns (steps: seq<Step>)
    requires Inv(Run(s, init, before)) && Holding(Run(s, init, before))
    ensures var y, z := Run(s, init, before), Run(s, init, steps); Inv(z) && Holding(z) && Same(y, z, 1)
  {
    steps := before;
    BusyAttach(Run(s, init, steps), init);
    RunMore(s, init, steps, DoAttach(0, 0, true));
    steps := steps + [DoAttach(0, 0, true)];
    ResetUncounted(Run(s, init, steps), init);
    RunMore(s, init, steps, DoReset(0, 0));
    steps := steps + [DoReset(0, 0)];
    AttachAgain(Run(s, init, steps), init);
    RunMore(s, init, steps, DoAttach(0, 0, true));
    steps := steps + [DoAttach(0, 0, true)];
  }

  lemma {:induction false} LoseMany(s: State, init: nat, before: seq<Step>, k: nat) returns (steps: seq<Step>)
    requires Inv(Run(s, init, before)) && Holding(Run(s, init, before))
    ensures var y, z := Run(s, init, before), Run(s, init, steps); Inv(z) && Holding(z) && Same(y, z, k)
  {
    steps := before;
    if k > 0 {
      var most := LoseMany(s, init, before, k - 1);
      steps := LoseOne(s, init, most);
    }
  }

  // ---------------------------------------------------------------------------------------------
  // The guard of the deletion, exactly.
  // ---------------------------------------------------------------------------------------------

  /** num controllers: all ports of all but the last in use, the last without one. */
  ghost predicate Crowded(s: State, init: nat, num: nat) {
    && Inv(s) && init < num <= |s.pdevs| && s.num == num && Holding(s)
    && Held(s) == (num - 1) * s.size && s.total == Held(s)
    && s.pdevs[num - 1].Some? && s.pdevs[num - 1].value.using == 0
    && (forall i :: num <= i < |s.pdevs| ==> s.pdevs[i].None?)
  }

  lemma TakenSum(ports: seq<Port>)
    requires Taken(ports, |ports|)
    ensures Sum(Weight, ports) == |ports|
  {
    SumFirst(Weight, ports, |ports|);
  }

  lemma FreeSum(ports: seq<Port>)
    requires Free(ports, 0)
    ensures Sum(Weight, ports) == 0
  {
    forall p | p in ports ensures Weight(p) == 0 {
      var j :| 0 <= j < |ports| && ports[j] == p;
    }
    SumZero(Weight, ports);
  }

  /** Registering one more controller, without a port of it in use. */
  ghost predicate LastAdded(s: State, num: nat) {
    && Inv(s) && !s.busy && 1 <= num <= |s.pdevs|
    && (forall i :: 0 <= i < num - 1 ==> s.pdevs[i].Some? && Taken(s.pdevs[i].value.ports, s.size))
    && s.pdevs[num - 1].Some? && Free(s.pdevs[num - 1].value.ports, 0)
    && (forall i :: num <= i < |s.pdevs| ==> s.pdevs[i].None?)
  }

  lemma AddLast(s: State, init: nat, num: nat)
    requires 1 <= init < num && Filled(s, init, num - 1, 0)
    ensures LastAdded(Apply(s, init, DoAttach(num - 1, 0, false)), num)
    ensures |Apply(s, init, DoAttach(num - 1, 0, false)).pdevs| == |s.pdevs|
  {
    var e := Ensure(s, num - 1);
    EnsureInv(s, num - 1);
    StepInv(s, init, DoAttach(num - 1, 0, false));
    AttachShape(e, num - 1, 0, false);
    var z := Apply(s, init, DoAttach(num - 1, 0, false));
    assert z.pdevs[num - 1].value.ports == e.pdevs[num - 1].value.ports[0 := Port(Null, 0)];
  }

  lemma AddedSums(s: State, num: nat)
    requires LastAdded(s, num)
    ensures s.num == num && Held(s) == (num - 1) * s.size && s.pdevs[num - 1].value.using == 0
  {
    forall i | 0 <= i < |s.pdevs| ensures HeldOf(s.pdevs[i]) == if i < num - 1 then s.size else 0 {
      if i < num - 1 {
        TakenSum(s.pdevs[i].value.ports);
      } else if i == num - 1 {
        FreeSum(s.pdevs[i].value.ports);
      }
    }
    SumEqual(HeldOf, s.pdevs, num - 1, s.size);
    SumFirst(Present, s.pdevs, num);
  }

  lemma Crowd(max: nat, init: nat, size: nat, num: nat) returns (steps: seq<Step>)
    requires 1 <= init < num <= max && size > 0
    ensures var s := Run(Start(max, init, size), init, steps); Crowded(s, init, num) && |s.pdevs| == max && s.size == size
  {
    var start := Start(max, init, size);
    var before := Fill(max, init, size, num - 1, 0);
    AddLast(Run(start, init, before), init, num);
    RunMore(start, init, before, DoAttach(num - 1, 0, false));
    steps := before + [DoAttach(num - 1, 0, false)];
    AddedSums(Run(start, init, steps), num);
    NoBusyNoWrap(max, init, size, steps);
  }

  /** The wrapped counters let the deletion through, and it takes the last free ports. */
  lemma WrapDeletes(y: State, s: State, init: nat, num: nat, lost: nat)
    requires Crowded(y, init, num) && Inv(s) && Same(y, s, lost) && num >= 2
    requires num * s.size < s.total <= num * s.size + 0x1_0000_0000 - FREE_HCS * s.size
    ensures TryDel(s, init) != s && TryDel(s, init).num * s.size - Held(TryDel(s, init)) < s.size
  {
    forall i | 1 <= i < |s.pdevs| ensures s.pdevs[i] == y.pdevs[i] {
      assert s.pdevs[1..][i - 1] == y.pdevs[1..][i - 1];
    }
    assert LastUnused(s.pdevs, |s.pdevs|) == num - 1;
    Wrapped(s.total - num * s.size);
    NoneHeld(s, num - 1);
    SumUpdate(HeldOf, s.pdevs, num - 1, None);
  }

  lemma Wrapped(x: int)
    requires 0 < x < 0x1_0000_0000
    ensures (0 - x) % 0x1_0000_0000 == 0x1_0000_0000 - x
  {
  }

  /** For every wrapped counter there is a run that has it and then deletes a controller it should have kept. */
  lemma WrapLosesRoom(max: nat, init: nat, size: nat, num: nat, total: nat) returns (steps: seq<Step>)
    requires 1 <= init < num <= max && size > 0
    requires num * size < total <= num * size + 0x1_0000_0000 - FREE_HCS * size
    ensures var s := Run(Start(max, init, size), init, steps);
            var z := TryDel(s, init);
            s.num == num && s.total == total && z != s && z.num * size - Held(z) < size
  {
    var before := Crowd(max, init, size, num);
    var y := Run(Start(max, init, size), init, before);
    steps := LoseMany(Start(max, init, size), init, before, total - y.total);
    WrapDeletes(y, Run(Start(max, init, size), init, steps), init, num, total - y.total);
  }

  /** A deletion leaves at least one controller's worth of ports free. */
  predicate LeavesRoom(s: State, init: nat) {
    var z := TryDel(s, init); z != s ==> z.num * s.size - Held(z) >= s.size
  }

  /** This run does not have these counters, or its deletion leaves room. */
  predicate RoomIn(max: nat, init: nat, size: nat, num: nat, total: nat, steps: seq<Step>)
    requires 1 <= init <= max
  {
    var s := Run(Start(max, init, size), init, steps);
    s.num == num && s.total == total ==> LeavesRoom(s, init)
  }

  lemma NoWrapLeavesRoom(max: nat, init: nat, size: nat, num: nat, total: nat, steps: seq<Step>)
    requires 1 <= init <= max && size > 0 && total <= num * size
    ensures RoomIn(max, init, size, num, total, steps)
  {
    var s := Run(Start(max, init, size), init, steps);
    RunInv(max, init, size, steps);
    StartSize(max, init, size, steps);
    if s.num == num && s.total == total && TryDel(s, init) != s {
      RoomLeft(s, init);
    }
  }

  lemma {:induction false} StartSize(max: nat, init: nat, size: nat, steps: seq<Step>)
    requires 1 <= init <= max && size > 0
    ensures Run(Start(max, init, size), init, steps).size == size
  {
    if steps != [] {
      RunInv(max, init, size, steps[..|steps| - 1]);
      StartSize(max, init, size, steps[..|steps| - 1]);
      StepInv(Run(Start(max, init, size), init, steps[..|steps| - 1]), init, steps[|steps| - 1]);
    }
  }

  lemma WrapBreaksRoom(max: nat, init: nat, size: nat, num: nat, total: nat) returns (steps: seq<Step>)
    requires 1 <= init < num <= max && size > 0
    requires num * size < total <= num * size + 0x1_0000_0000 - FREE_HCS * size
    ensures !RoomIn(max, init, size, num, total, steps)
  {
    steps := WrapLosesRoom(max, init, size, num, total);
    StartSize(max, init, size, steps);
  }

  /**
   The exact condition, on counters a caller can read: with them, every reachable state's deletion
   leaves room if and only if the subtraction that guards it does not wrap around.
   */
  lemma RoomExactly(max: nat, init: nat, size: nat, num: nat, total: nat)
    requires 1 <= init < num <= max && size > 0 && total <= num * size + 0x1_0000_0000 - FREE_HCS * size
    ensures (forall steps :: RoomIn(max, init, size, num, total, steps)) <==> total <= num * size
  {
    if total <= num * size {
      forall steps ensures RoomIn(max, init, size, num, total, steps) {
        NoWrapLeavesRoom(max, init, size, num, total, steps);
      }
    } else {
      var steps := WrapBreaksRoom(max, init, size, num, total);
    }
  }
}
