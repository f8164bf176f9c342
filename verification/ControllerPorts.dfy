/** The states a port goes through, and when it takes an attach. */
module ControllerPorts {
  import opened Lists
  import opened Controllers
  import opened ControllerLimits

  /** What each step makes of the status of port p of controller nr. */
  function NextStatus(was: Status, step: Step, nr: nat, p: nat): Status {
    if Attaches(step, nr, p) && step.linked && was == Null then NotAssigned
    else if step == DoUse(nr, p) && was == NotAssigned then Used
    else if step == DoReset(nr, p) then Null
    else if step == DoUnusable(nr, p) then Error
    else was
  }

  predicate Has(s: State, nr: nat, p: nat, status: Status) { IsPort(s, nr, p) && PortAt(s, nr, p).status == status }

  lemma OneStatus(s: State, z: State, mr: nat, q: nat, port: Port, d: int, lost: nat, nr: nat, p: nat)
    requires IsPort(s, mr, q) && Changes(s, z, mr, With(s.pdevs[mr].value, q, port, d, lost)) && IsPort(s, nr, p)
    ensures IsPort(z, nr, p)
    ensures PortAt(z, nr, p).status == if nr == mr && p == q then port.status else PortAt(s, nr, p).status
  {
  }

  lemma AttachStatus(s: State, mr: nat, q: nat, linked: bool, nr: nat, p: nat)
    requires Inv(s) && IsPort(s, mr, q) && IsPort(s, nr, p)
    ensures var z := Attach(s, mr, q, linked);
            IsPort(z, nr, p)
            && PortAt(z, nr, p).status == NextStatus(PortAt(s, nr, p).status, DoAttach(mr, q, linked), nr, p)
  {
    AttachShape(s, mr, q, linked);
    var port := PortAt(s, mr, q);
    if port.status == Null && linked {
      OneStatus(s, Attach(s, mr, q, linked), mr, q, Port(NotAssigned, 1), 1, 0, nr, p);
    } else {
      OneStatus(s, Attach(s, mr, q, linked), mr, q, Port(port.status, 0), 0, 0, nr, p);
    }
  }

  lemma ReleaseStatus(s: State, mr: nat, q: nat, status: Status, nr: nat, p: nat)
    requires IsPort(s, mr, q) && IsPort(s, nr, p)
    ensures var z := Release(s, mr, q, status);
            IsPort(z, nr, p) && PortAt(z, nr, p).status == if nr == mr && p == q then status else PortAt(s, nr, p).status
  {
    ReleaseShape(s, mr, q, status);
    var port := PortAt(s, mr, q);
    OneStatus(s, Release(s, mr, q, status), mr, q, Port(status, port.usingPort - 1),
              if port.usingPort == 1 then -1 else 0, Controllers.Lost(port), nr, p);
  }

  /** z has the port with this status, or no such controller. */
  predicate Moves(z: State, nr: nat, p: nat, status: Status) {
    nr < |z.pdevs| && (z.pdevs[nr].Some? ==> Has(z, nr, p, status))
  }

  lemma AttachMoves(s: State, init: nat, step: Step, nr: nat, p: nat)
    requires Inv(s) && IsPort(s, nr, p) && step.DoAttach?
    ensures Moves(Apply(s, init, step), nr, p, NextStatus(PortAt(s, nr, p).status, step, nr, p))
  {
    if step.nr < |s.pdevs| && step.p < s.size {
      EnsureInv(s, step.nr);
      AttachStatus(Ensure(s, step.nr), step.nr, step.p, step.linked, nr, p);
    }
  }

  lemma UseMoves(s: State, init: nat, mr: nat, q: nat, nr: nat, p: nat)
    requires IsPort(s, nr, p)
    ensures Moves(Apply(s, init, DoUse(mr, q)), nr, p, NextStatus(PortAt(s, nr, p).status, DoUse(mr, q), nr, p))
  {
  }

  lemma ReleaseMoves(s: State, init: nat, step: Step, nr: nat, p: nat)
    requires IsPort(s, nr, p) && (step.DoReset? || step.DoUnusable?)
    ensures Moves(Apply(s, init, step), nr, p, NextStatus(PortAt(s, nr, p).status, step, nr, p))
  {
    if IsPort(s, step.nr, step.p) {
      ReleaseStatus(s, step.nr, step.p, if step.DoReset? then Null else Error, nr, p);
    }
  }

  lemma DeleteMoves(s: State, init: nat, nr: nat, p: nat)
    requires IsPort(s, nr, p)
    ensures Moves(TryDel(s, init), nr, p, PortAt(s, nr, p).status)
  {
  }

  /** A step moves the port along these edges, unless it removes the controller. */
  lemma StatusStep(s: State, init: nat, step: Step, nr: nat, p: nat)
    requires Inv(s) && IsPort(s, nr, p)
    ensures Moves(Apply(s, init, step), nr, p, NextStatus(PortAt(s, nr, p).status, step, nr, p))
  {
    match step
    case DoAttach(_, _, _) => AttachMoves(s, init, step, nr, p);
    case DoUse(mr, q) => UseMoves(s, init, mr, q, nr, p);
    case DoTryDel => DeleteMoves(s, init, nr, p);
    case _ => ReleaseMoves(s, init, step, nr, p);
  }

  lemma AttachNew(s: State, init: nat, step: Step, nr: nat, p: nat)
    requires Inv(s) && !IsPort(s, nr, p) && step.DoAttach?
    ensures !Has(Apply(s, init, step), nr, p, Error)
  {
    if step.nr < |s.pdevs| && step.p < s.size {
      EnsureInv(s, step.nr);
      AttachShape(Ensure(s, step.nr), step.nr, step.p, step.linked);
    }
  }

  /** A port that has just been registered is free. */
  lemma NewPortFree(s: State, init: nat, step: Step, nr: nat, p: nat)
    requires Inv(s) && !IsPort(s, nr, p)
    ensures !Has(Apply(s, init, step), nr, p, Error)
  {
    match step
    case DoAttach(_, _, _) => AttachNew(s, init, step, nr, p);
    case DoReset(mr, q) => if IsPort(s, mr, q) { ReleaseShape(s, mr, q, Null); }
    case DoUnusable(mr, q) => if IsPort(s, mr, q) { ReleaseShape(s, mr, q, Error); }
    case _ =>
  }

  /** Step k made the port unusable, and up to state n it was not reset and its controller not removed. */
  predicate BrokenSince(h: seq<State>, steps: seq<Step>, k: nat, n: nat, nr: nat, p: nat) {
    && k < n <= |steps| < |h| && steps[k] == DoUnusable(nr, p)
    && (forall m :: k <= m <= n ==> IsPort(h[m], nr, p)) && forall m :: k < m < n ==> steps[m] != DoReset(nr, p)
  }

  ghost predicate Broken(h: seq<State>, steps: seq<Step>, n: nat, nr: nat, p: nat) {
    exists k: nat :: BrokenSince(h, steps, k, n, nr, p)
  }

  lemma BrokenStep(h: seq<State>, steps: seq<Step>, n: nat, next: nat, nr: nat, p: nat)
    requires next == n + 1 <= |steps| < |h|
    ensures Broken(h, steps, next, nr, p) <==>
              && IsPort(h[n], nr, p) && IsPort(h[next], nr, p)
              && (steps[n] == DoUnusable(nr, p) || (Broken(h, steps, n, nr, p) && steps[n] != DoReset(nr, p)))
  {
    if k: nat :| BrokenSince(h, steps, k, next, nr, p) {
      assert IsPort(h[n], nr, p) && IsPort(h[next], nr, p);
      assert k < n ==> BrokenSince(h, steps, k, n, nr, p);
    }
    if k: nat :| BrokenSince(h, steps, k, n, nr, p) && IsPort(h[next], nr, p) && steps[n] != DoReset(nr, p) {
      assert BrokenSince(h, steps, k, next, nr, p);
    }
    if IsPort(h[n], nr, p) && IsPort(h[next], nr, p) && steps[n] == DoUnusable(nr, p) {
      assert BrokenSince(h, steps, n, next, nr, p);
    }
  }

  lemma StartHealthy(max: nat, init: nat, size: nat, nr: nat, p: nat)
    requires 1 <= init <= max
    ensures !Has(Start(max, init, size), nr, p, Error)
  {
    var s := Start(max, init, size);
    assert nr < |s.pdevs| && s.pdevs[nr].Some? ==> s.pdevs[nr].value == NewHcd(size);
  }

  lemma UnusableStep(s: State, init: nat, step: Step, nr: nat, p: nat)
    requires Inv(s)
    ensures var z := Apply(s, init, step);
            Has(z, nr, p, Error) <==>
              && IsPort(s, nr, p) && IsPort(z, nr, p)
              && (step == DoUnusable(nr, p) || (Has(s, nr, p, Error) && step != DoReset(nr, p)))
  {
    if IsPort(s, nr, p) {
      StatusStep(s, init, step, nr, p);
    } else {
      NewPortFree(s, init, step, nr, p);
    }
  }

  /** In every run a port is unusable, and so refuses every attach, exactly if it was made so and not reset since. */
  lemma {:induction false} UnusableExactly(h: seq<State>, init: nat, steps: seq<Step>, n: nat, nr: nat, p: nat)
    requires History(h, init, steps) && n <= |steps|
    ensures Has(h[n], nr, p, Error) <==> Broken(h, steps, n, nr, p)
  {
    if n == 0 {
      StartHealthy(|h[0].pdevs|, init, h[0].size, nr, p);
    } else {
      HistoryInv(h, init, steps, n - 1);
      UnusableStep(h[n - 1], init, steps[n - 1], nr, p);
      BrokenStep(h, steps, n - 1, n, nr, p);
      UnusableExactly(h, init, steps, n - 1, nr, p);
      assert Follows(h, init, steps, n - 1);
    }
  }

  /** A port takes an attach exactly when it is free: in every run it changes hands along these edges only. */
  lemma AttachExactly(h: seq<State>, init: nat, steps: seq<Step>, n: nat, nr: nat, p: nat)
    requires History(h, init, steps) && n < |steps| && IsPort(h[n], nr, p)
    ensures nr < |h[n + 1].pdevs|
    ensures h[n + 1].pdevs[nr].Some? ==>
              (Has(h[n + 1], nr, p, NotAssigned) && !Has(h[n], nr, p, NotAssigned) <==>
                 Attaches(steps[n], nr, p) && steps[n].linked && Has(h[n], nr, p, Null))
  {
    assert Follows(h, init, steps, n);
    HistoryInv(h, init, steps, n);
    StatusStep(h[n], init, steps[n], nr, p);
  }
}
