/**
 The virtual host controllers and their port counters.  Controllers are added when a port of theirs is
 asked for, and deleted again when enough ports are free.  Attach, reset and unusable are one step each.
 */
module Controllers {
  import opened Lists

  const FREE_HCS := 2

  datatype Status = Null | NotAssigned | Used | Error

  datatype Port = Port(status: Status, usingPort: int)

  /** struct vhci_hcd; leaked is a history variable, read by no step. */
  datatype Hcd = Hcd(ports: seq<Port>, using: int, leaked: nat)

  /**
   VHCI_s.size, a build option; vhci_pdevs, vhci_num_controllers, vhci_using_ports; busy remembers an
   attach to a port in use.
   */
  datatype State = State(size: nat, pdevs: seq<Option<Hcd>>, num: int, total: int, busy: bool)

  function NewHcd(size: nat): Hcd { Hcd(seq(size, _ => Port(Null, 0)), 0, 0) }

  predicate Active(p: Port) { p.status == NotAssigned || p.status == Used }

  function Sum<T>(f: T -> int, a: seq<T>): int {
    if a == [] then 0 else f(a[0]) + Sum(f, a[1..])
  }

  function Weight(p: Port): int { if Active(p) then 1 else 0 }
  function UsingOf(h: Option<Hcd>): int { if h.Some? then h.value.using else 0 }
  function HeldOf(h: Option<Hcd>): int { if h.Some? then Sum(Weight, h.value.ports) else 0 }
  function Present(h: Option<Hcd>): int { if h.Some? then 1 else 0 }

  predicate IsPort(s: State, nr: nat, p: nat) {
    nr < |s.pdevs| && s.pdevs[nr].Some? && p < |s.pdevs[nr].value.ports|
  }

  function PortAt(s: State, nr: nat, p: nat): Port
    requires IsPort(s, nr, p)
  {
    s.pdevs[nr].value.ports[p]
  }

  function SetPort(s: State, nr: nat, p: nat, port: Port): State
    requires IsPort(s, nr, p)
  {
    var h := s.pdevs[nr].value;
    s.(pdevs := s.pdevs[nr := Some(h.(ports := h.ports[p := port]))])
  }

  function Count(s: State, nr: nat, d: int): State
    requires nr < |s.pdevs| && s.pdevs[nr].Some?
  {
    var h := s.pdevs[nr].value;
    s.(pdevs := s.pdevs[nr := Some(h.(using := h.using + d))], total := s.total + d)
  }

  /** The first part of vhci_get_device: a missing controller is registered. */
  function Ensure(s: State, nr: nat): (z: State)
    requires nr < |s.pdevs|
    ensures |z.pdevs| == |s.pdevs| && z.pdevs[nr].Some?
  {
    if s.pdevs[nr].Some? then s else s.(pdevs := s.pdevs[nr := Some(NewHcd(s.size))], num := s.num + 1)
  }

  /** __vhci_get_device. */
  function Get(s: State, nr: nat, p: nat): (z: State)
    requires IsPort(s, nr, p)
    ensures IsPort(z, nr, p) && |z.pdevs| == |s.pdevs|
  {
    Count(SetPort(s, nr, p, PortAt(s, nr, p).(usingPort := 1)), nr, 1)
  }

  /** vhci_put_device: only the decrement that reaches zero gives the port back. */
  function Put(s: State, nr: nat, p: nat): (z: State)
    requires IsPort(s, nr, p)
    ensures IsPort(z, nr, p) && |z.pdevs| == |s.pdevs|
  {
    var port := PortAt(s, nr, p);
    var z := SetPort(s, nr, p, port.(usingPort := port.usingPort - 1));
    if port.usingPort == 1 then Count(z, nr, -1) else z
  }

  function SetStatus(s: State, nr: nat, p: nat, status: Status): (z: State)
    requires IsPort(s, nr, p)
    ensures IsPort(z, nr, p) && |z.pdevs| == |s.pdevs|
  {
    SetPort(s, nr, p, PortAt(s, nr, p).(status := status))
  }

  /** store_attach: get, then put back at once if the port is in use or the socket cannot be linked. */
  function Attach(s: State, nr: nat, p: nat, linked: bool): State
    requires IsPort(s, nr, p)
  {
    var z := Get(s, nr, p);
    if PortAt(s, nr, p).status != Null then Put(z.(busy := s.busy || Active(PortAt(s, nr, p))), nr, p)
    else if !linked then Put(z, nr, p)
    else SetStatus(z, nr, p, NotAssigned)
  }

  /** vhci_device_reset (Null) and vhci_device_unusable (Error). */
  function Release(s: State, nr: nat, p: nat, status: Status): State
    requires IsPort(s, nr, p)
  {
    var lost := if Active(PortAt(s, nr, p)) && PortAt(s, nr, p).usingPort != 1 then 1 else 0;
    var h := s.pdevs[nr].value;
    Put(SetStatus(s.(pdevs := s.pdevs[nr := Some(h.(leaked := h.leaked + lost))]), nr, p, status), nr, p)
  }

  /** The search of __try_del_platform_device, from the last controller down to number 1; 0 is "none". */
  function LastUnused(pdevs: seq<Option<Hcd>>, n: nat): (r: nat)
    requires n <= |pdevs|
    ensures r > 0 ==> r < n && pdevs[r].Some? && pdevs[r].value.using == 0
    ensures forall i :: r < i < n && pdevs[i].Some? ==> pdevs[i].value.using != 0
  {
    if n <= 1 then 0
    else if pdevs[n - 1].Some? && pdevs[n - 1].value.using == 0 then n - 1
    else LastUnused(pdevs, n - 1)
  }

  /** free_ports, in unsigned arithmetic. */
  function FreePorts(s: State): (n: nat)
    ensures s.total <= s.num * s.size ==> n <= s.num * s.size - s.total
  {
    (s.num * s.size - s.total) % 0x1_0000_0000
  }

  function TryDel(s: State, init: nat): State {
    var nr := LastUnused(s.pdevs, |s.pdevs|);
    if s.num > init && FreePorts(s) >= s.size * FREE_HCS && nr > 0 then s.(pdevs := s.pdevs[nr := None], num := s.num - 1)
    else s
  }

  datatype Step =
    | DoAttach(nr: nat, p: nat, linked: bool)
    | DoUse(nr: nat, p: nat)
    | DoReset(nr: nat, p: nat)
    | DoUnusable(nr: nat, p: nat)
    | DoTryDel

  function Apply(s: State, init: nat, step: Step): State {
    match step
    case DoAttach(nr, p, linked) =>
      if nr >= |s.pdevs| || p >= s.size || (s.pdevs[nr].Some? && p >= |s.pdevs[nr].value.ports|) then s
      else Attach(Ensure(s, nr), nr, p, linked)
    case DoUse(nr, p) => if IsPort(s, nr, p) && PortAt(s, nr, p).status == NotAssigned then SetStatus(s, nr, p, Used) else s
    case DoReset(nr, p) => if IsPort(s, nr, p) then Release(s, nr, p, Null) else s
    case DoUnusable(nr, p) => if IsPort(s, nr, p) then Release(s, nr, p, Error) else s
    case DoTryDel => TryDel(s, init)
  }

  function Start(max: nat, init: nat, size: nat): State
    requires 1 <= init <= max
  {
    State(size, seq(max, i => if i < init then Some(NewHcd(size)) else None), init, 0, false)
  }

  function Run(s: State, init: nat, steps: seq<Step>): State {
    if steps == [] then s else Apply(Run(s, init, steps[..|steps| - 1]), init, steps[|steps| - 1])
  }

  // ---------------------------------------------------------------------------------------------
  // Sums over ports and controllers.
  // ---------------------------------------------------------------------------------------------

  lemma {:induction false} SumUpdate<T>(f: T -> int, a: seq<T>, i: nat, x: T)
    requires i < |a|
    ensures Sum(f, a[i := x]) == Sum(f, a) - f(a[i]) + f(x)
  {
    if i > 0 {
      assert a[i := x][1..] == a[1..][i - 1 := x];
      SumUpdate(f, a[1..], i - 1, x);
    } else {
      assert a[i := x][1..] == a[1..];
    }
  }

  lemma {:induction false} SumBelow<T>(f: T -> int, g: T -> int, k: int, a: seq<T>)
    requires forall x :: x in a ==> f(x) <= k * g(x)
    ensures Sum(f, a) <= k * Sum(g, a)
  {
    if a != [] {
      assert a[0] in a;
      SumBelow(f, g, k, a[1..]);
      assert k * (g(a[0]) + Sum(g, a[1..])) == k * g(a[0]) + k * Sum(g, a[1..]);
    }
  }

  lemma {:induction false} SumZero<T>(f: T -> int, a: seq<T>)
    requires forall x :: x in a ==> f(x) == 0
    ensures Sum(f, a) == 0
  {
    if a != [] {
      assert a[0] in a;
      SumZero(f, a[1..]);
    }
  }

  lemma {:induction false} SumFirst<T>(f: T -> int, a: seq<T>, n: nat)
    requires n <= |a| && (forall i :: 0 <= i < n ==> f(a[i]) == 1) && forall i :: n <= i < |a| ==> f(a[i]) == 0
    ensures Sum(f, a) == n
  {
    if a != [] {
      SumFirst(f, a[1..], if n > 0 then n - 1 else 0);
    }
  }

  lemma {:induction false} SumPositive<T>(f: T -> int, a: seq<T>, i: nat)
    requires i < |a| && f(a[i]) == 1 && forall x :: x in a ==> f(x) >= 0
    ensures Sum(f, a) >= 1
  {
    assert a[0] in a;
    if i > 0 {
      SumPositive(f, a[1..], i - 1);
    } else {
      SumBelow((x: T) => 0, f, 1, a[1..]);
      SumZero((x: T) => 0, a[1..]);
    }
  }

  // ---------------------------------------------------------------------------------------------
  // The invariant.
  // ---------------------------------------------------------------------------------------------

  predicate PortInv(p: Port, busy: bool) {
    p.usingPort <= 1 && (!Active(p) ==> p.usingPort <= 0) && (!busy && Active(p) ==> p.usingPort == 1)
  }

  predicate PortsInv(ports: seq<Port>, busy: bool, size: nat) {
    |ports| == size && forall i :: 0 <= i < |ports| ==> PortInv(ports[i], busy)
  }

  /** The counter is the number of ports held, plus one for each port that was lost track of. */
  predicate HcdInv(h: Hcd, busy: bool, size: nat) {
    && PortsInv(h.ports, busy, size)
    && h.using == Sum(Weight, h.ports) + h.leaked
    && (!busy ==> h.leaked == 0)
  }

  ghost predicate Inv(s: State) {
    && |s.pdevs| > 0 && s.pdevs[0].Some? && s.size > 0
    && (forall i :: 0 <= i < |s.pdevs| && s.pdevs[i].Some? ==> HcdInv(s.pdevs[i].value, s.busy, s.size))
    && s.total == Sum(UsingOf, s.pdevs) && s.num == Sum(Present, s.pdevs)
  }

  /** What a step on one port of one controller amounts to. */
  ghost predicate Changes(s: State, z: State, nr: nat, h: Hcd) {
    && nr < |s.pdevs| && s.pdevs[nr].Some?
    && z.pdevs == s.pdevs[nr := Some(h)] && z.num == s.num && z.size == s.size
    && z.total == s.total + h.using - s.pdevs[nr].value.using
    && (s.busy ==> z.busy)
  }

  lemma ChangeInv(s: State, z: State, nr: nat, h: Hcd)
    requires Inv(s) && Changes(s, z, nr, h) && HcdInv(h, z.busy, s.size)
    ensures Inv(z)
  {
    SumUpdate(UsingOf, s.pdevs, nr, Some(h));
    SumUpdate(Present, s.pdevs, nr, Some(h));
  }

  /** One port of a controller, its counter and its history. */
  function With(h: Hcd, p: nat, port: Port, d: int, lost: nat): Hcd
    requires p < |h.ports|
  {
    Hcd(h.ports[p := port], h.using + d, h.leaked + lost)
  }

  lemma WithInv(h: Hcd, p: nat, port: Port, d: int, lost: nat, was: bool, busy: bool, size: nat)
    requires HcdInv(h, was, size) && (was ==> busy) && p < |h.ports| && PortInv(port, busy)
    requires d - lost == Weight(port) - Weight(h.ports[p]) && (lost > 0 ==> busy)
    ensures HcdInv(With(h, p, port, d, lost), busy, size)
  {
    SumUpdate(Weight, h.ports, p, port);
  }

  lemma NewHcdInv(size: nat, busy: bool)
    ensures HcdInv(NewHcd(size), busy, size)
  {
    SumZero(Weight, NewHcd(size).ports);
  }

  lemma EnsureInv(s: State, nr: nat)
    requires Inv(s) && nr < |s.pdevs|
    ensures Inv(Ensure(s, nr)) && Ensure(s, nr).busy == s.busy
  {
    if s.pdevs[nr].None? {
      NewHcdInv(s.size, s.busy);
      SumUpdate(UsingOf, s.pdevs, nr, Some(NewHcd(s.size)));
      SumUpdate(Present, s.pdevs, nr, Some(NewHcd(s.size)));
    }
  }

  lemma AttachShape(s: State, nr: nat, p: nat, linked: bool)
    requires IsPort(s, nr, p) && PortInv(PortAt(s, nr, p), s.busy)
    ensures var port := PortAt(s, nr, p);
            var h := s.pdevs[nr].value;
            var z := Attach(s, nr, p, linked);
            z.busy == (s.busy || Active(port))
            && Changes(s, z, nr,
                 if port.status == Null && linked then With(h, p, Port(NotAssigned, 1), 1, 0)
                 else With(h, p, Port(port.status, 0), 0, 0))
  {
    var port, h := PortAt(s, nr, p), s.pdevs[nr].value;
    var z := Attach(s, nr, p, linked);
    var after := if port.status == Null && linked then Port(NotAssigned, 1) else Port(port.status, 0);
    assert z.pdevs[nr].value.ports == h.ports[p := after];
    assert z.pdevs == s.pdevs[nr := z.pdevs[nr]];
  }

  lemma AttachInv(s: State, nr: nat, p: nat, linked: bool)
    requires Inv(s) && IsPort(s, nr, p)
    ensures Inv(Attach(s, nr, p, linked))
  {
    var port, h := PortAt(s, nr, p), s.pdevs[nr].value;
    var z := Attach(s, nr, p, linked);
    AttachShape(s, nr, p, linked);
    if port.status == Null && linked {
      WithInv(h, p, Port(NotAssigned, 1), 1, 0, s.busy, z.busy, s.size);
      ChangeInv(s, z, nr, With(h, p, Port(NotAssigned, 1), 1, 0));
    } else {
      WithInv(h, p, Port(port.status, 0), 0, 0, s.busy, z.busy, s.size);
      ChangeInv(s, z, nr, With(h, p, Port(port.status, 0), 0, 0));
    }
  }

  function Lost(port: Port): nat { if Active(port) && port.usingPort != 1 then 1 else 0 }

  lemma ReleaseShape(s: State, nr: nat, p: nat, status: Status)
    requires IsPort(s, nr, p)
    ensures var port := PortAt(s, nr, p);
            var d := if port.usingPort == 1 then -1 else 0;
            Changes(s, Release(s, nr, p, status), nr,
                    With(s.pdevs[nr].value, p, Port(status, port.usingPort - 1), d, Lost(port)))
  {
    var z, h, port := Release(s, nr, p, status), s.pdevs[nr].value, PortAt(s, nr, p);
    assert z.pdevs[nr].value.ports == h.ports[p := Port(status, port.usingPort - 1)];
    assert z.pdevs == s.pdevs[nr := z.pdevs[nr]];
  }

  lemma ReleaseInv(s: State, nr: nat, p: nat, status: Status)
    requires Inv(s) && IsPort(s, nr, p) && (status == Null || status == Error)
    ensures Inv(Release(s, nr, p, status))
  {
    var port, h := PortAt(s, nr, p), s.pdevs[nr].value;
    var after := Port(status, port.usingPort - 1);
    var d := if port.usingPort == 1 then -1 else 0;
    ReleaseShape(s, nr, p, status);
    WithInv(h, p, after, d, Lost(port), s.busy, s.busy, s.size);
    ChangeInv(s, Release(s, nr, p, status), nr, With(h, p, after, d, Lost(port)));
  }

  lemma UseInv(s: State, nr: nat, p: nat)
    requires Inv(s) && IsPort(s, nr, p) && PortAt(s, nr, p).status == NotAssigned
    ensures Inv(SetStatus(s, nr, p, Used))
  {
    var port, h := PortAt(s, nr, p), s.pdevs[nr].value;
    WithInv(h, p, port.(status := Used), 0, 0, s.busy, s.busy, s.size);
    ChangeInv(s, SetStatus(s, nr, p, Used), nr, With(h, p, port.(status := Used), 0, 0));
  }

  lemma TryDelInv(s: State, init: nat)
    requires Inv(s)
    ensures Inv(TryDel(s, init))
  {
    var nr := LastUnused(s.pdevs, |s.pdevs|);
    if nr > 0 {
      SumUpdate(UsingOf, s.pdevs, nr, None);
      SumUpdate(Present, s.pdevs, nr, None);
    }
  }

  lemma StepInv(s: State, init: nat, step: Step)
    requires Inv(s)
    ensures Inv(Apply(s, init, step)) && |Apply(s, init, step).pdevs| == |s.pdevs| && Apply(s, init, step).size == s.size
  {
    match step
    case DoAttach(nr, p, linked) =>
      if nr < |s.pdevs| && p < s.size {
        EnsureInv(s, nr);
        AttachInv(Ensure(s, nr), nr, p, linked);
      }
    case DoUse(nr, p) => if IsPort(s, nr, p) && PortAt(s, nr, p).status == NotAssigned { UseInv(s, nr, p); }
    case DoReset(nr, p) => if IsPort(s, nr, p) { ReleaseInv(s, nr, p, Null); }
    case DoUnusable(nr, p) => if IsPort(s, nr, p) { ReleaseInv(s, nr, p, Error); }
    case DoTryDel => TryDelInv(s, init);
  }

  lemma StartInv(max: nat, init: nat, size: nat)
    requires 1 <= init <= max && size > 0
    ensures Inv(Start(max, init, size))
  {
    NewHcdInv(size, false);
    SumZero(UsingOf, Start(max, init, size).pdevs);
    SumFirst(Present, Start(max, init, size).pdevs, init);
  }

  lemma {:induction false} RunInv(max: nat, init: nat, size: nat, steps: seq<Step>)
    requires 1 <= init <= max && size > 0
    ensures Inv(Run(Start(max, init, size), init, steps))
  {
    if steps == [] {
      StartInv(max, init, size);
    } else {
      RunInv(max, init, size, steps[..|steps| - 1]);
      StepInv(Run(Start(max, init, size), init, steps[..|steps| - 1]), init, steps[|steps| - 1]);
    }
  }

  // ---------------------------------------------------------------------------------------------
  // What the counters are good for.
  // ---------------------------------------------------------------------------------------------

  function Held(s: State): int { Sum(HeldOf, s.pdevs) }

  lemma HeldBounds(s: State)
    requires Inv(s)
    ensures 0 <= Held(s) <= s.num * s.size && Held(s) <= s.total
  {
    forall h | h in s.pdevs ensures 0 <= HeldOf(h) <= s.size * Present(h) && HeldOf(h) <= UsingOf(h) {
      if h.Some? {
        var ports := h.value.ports;
        SumBelow((p: Port) => 0, Weight, 1, ports);
        SumZero((p: Port) => 0, ports);
        SumBelow(Weight, (p: Port) => 1, 1, ports);
        SumFirst((p: Port) => 1, ports, |ports|);
      }
    }
    SumBelow((h: Option<Hcd>) => 0, HeldOf, 1, s.pdevs);
    SumZero((h: Option<Hcd>) => 0, s.pdevs);
    SumBelow(HeldOf, Present, s.size, s.pdevs);
    SumBelow(HeldOf, UsingOf, 1, s.pdevs);
  }

  /**
   In every run: the global counter is the sum of the controllers' counters, and each of those is at
   least the number of its ports in use.
   */
  lemma CountersCover(max: nat, init: nat, size: nat, steps: seq<Step>, nr: nat)
    requires 1 <= init <= max && size > 0
    ensures var s := Run(Start(max, init, size), init, steps);
            && s.total == Sum(UsingOf, s.pdevs) && s.num == Sum(Present, s.pdevs)
            && (nr < |s.pdevs| && s.pdevs[nr].Some? ==> Sum(Weight, s.pdevs[nr].value.ports) <= s.pdevs[nr].value.using)
  {
    RunInv(max, init, size, steps);
  }

  /** Without an attach to a port in use, they are equal. */
  lemma CountersExact(max: nat, init: nat, size: nat, steps: seq<Step>, nr: nat)
    requires 1 <= init <= max && size > 0 && !Run(Start(max, init, size), init, steps).busy
    ensures var s := Run(Start(max, init, size), init, steps);
            nr < |s.pdevs| && s.pdevs[nr].Some? ==> Sum(Weight, s.pdevs[nr].value.ports) == s.pdevs[nr].value.using
  {
    RunInv(max, init, size, steps);
  }

  /** Dynamic deletion never removes controller 0, nor one with a port in use. */
  lemma DeletionIsSafe(max: nat, init: nat, size: nat, steps: seq<Step>, nr: nat, p: nat)
    requires 1 <= init <= max && size > 0
    requires var s := Run(Start(max, init, size), init, steps);
             nr < |s.pdevs| && s.pdevs[nr].Some? && TryDel(s, init).pdevs[nr].None?
    ensures nr > 0
    ensures var ports := Run(Start(max, init, size), init, steps).pdevs[nr].value.ports;
            p < |ports| ==> !Active(ports[p])
  {
    RunInv(max, init, size, steps);
    var ports := Run(Start(max, init, size), init, steps).pdevs[nr].value.ports;
    if p < |ports| && Active(ports[p]) {
      SumPositive(Weight, ports, p);
    }
  }

  lemma StepNum(s: State, init: nat, step: Step)
    requires Inv(s) && s.num >= init
    ensures Apply(s, init, step).num >= init
  {
    if step.DoAttach? && step.nr < |s.pdevs| && step.p < s.size {
      EnsureInv(s, step.nr);
      AttachShape(Ensure(s, step.nr), step.nr, step.p, step.linked);
    }
  }

  /** There are never fewer controllers than vhci_init_controllers. */
  lemma {:induction false} NeverBelowInit(max: nat, init: nat, size: nat, steps: seq<Step>)
    requires 1 <= init <= max && size > 0
    ensures Run(Start(max, init, size), init, steps).num >= init
  {
    if steps != [] {
      var front := steps[..|steps| - 1];
      NeverBelowInit(max, init, size, front);
      RunInv(max, init, size, front);
      StepNum(Run(Start(max, init, size), init, front), init, steps[|steps| - 1]);
    }
  }

  /** The highest controller above 0 that counts no port. */
  ghost predicate HighestUnused(s: State, nr: nat) {
    && 0 < nr < |s.pdevs| && s.pdevs[nr].Some? && s.pdevs[nr].value.using == 0
    && forall i :: nr < i < |s.pdevs| && s.pdevs[i].Some? ==> s.pdevs[i].value.using != 0
  }

  /** More controllers than to begin with, and two controllers' worth of free ports in unsigned arithmetic. */
  predicate Spare(s: State, init: nat) {
    s.num > init && (s.num * s.size - s.total) % 0x1_0000_0000 >= 2 * s.size
  }

  lemma DeletesHighest(s: State, init: nat, nr: nat)
    requires nr < |s.pdevs| && s.pdevs[nr].Some?
    ensures TryDel(s, init).pdevs[nr].None? <==> Spare(s, init) && HighestUnused(s, nr)
  {
  }

  /**
   In every state of every run a step removes a controller exactly if it is a deletion, there is a controller
   and room to spare, and this is the highest one that counts no port; a step adds one exactly if it is an
   attach to a valid port of it.
   */
  lemma ControllersExactly(max: nat, init: nat, size: nat, steps: seq<Step>, step: Step, nr: nat)
    requires 1 <= init <= max && size > 0 && nr < max
    ensures var s := Run(Start(max, init, size), init, steps);
            var z := Apply(s, init, step);
            && |s.pdevs| == |z.pdevs| == max
            && (s.pdevs[nr].Some? ==>
                  (z.pdevs[nr].None? <==> step.DoTryDel? && Spare(s, init) && HighestUnused(s, nr)))
            && (s.pdevs[nr].None? ==>
                  (z.pdevs[nr].Some? <==> step.DoAttach? && step.nr == nr && step.p < size))
  {
    RunInv(max, init, size, steps);
    RunSize(max, init, size, steps);
    StepInv(Run(Start(max, init, size), init, steps), init, step);
    ControllerStep(Run(Start(max, init, size), init, steps), init, step, nr);
  }

  lemma ControllerStep(s: State, init: nat, step: Step, nr: nat)
    requires Inv(s) && nr < |s.pdevs| && |Apply(s, init, step).pdevs| == |s.pdevs|
    ensures var z := Apply(s, init, step);
            && (s.pdevs[nr].Some? ==>
                  (z.pdevs[nr].None? <==> step.DoTryDel? && Spare(s, init) && HighestUnused(s, nr)))
            && (s.pdevs[nr].None? ==>
                  (z.pdevs[nr].Some? <==> step.DoAttach? && step.nr == nr && step.p < s.size))
  {
    match step
    case DoAttach(mr, p, linked) =>
      if mr < |s.pdevs| && p < s.size {
        EnsureInv(s, mr);
        AttachShape(Ensure(s, mr), mr, p, linked);
      }
    case DoTryDel => if s.pdevs[nr].Some? { DeletesHighest(s, init, nr); }
    case DoReset(mr, p) => if IsPort(s, mr, p) { ReleaseShape(s, mr, p, Null); }
    case DoUnusable(mr, p) => if IsPort(s, mr, p) { ReleaseShape(s, mr, p, Error); }
    case DoUse(mr, p) =>
  }

  lemma {:induction false} RunSize(max: nat, init: nat, size: nat, steps: seq<Step>)
    requires 1 <= init <= max && size > 0
    ensures var s := Run(Start(max, init, size), init, steps); |s.pdevs| == max && s.size == size
  {
    if steps != [] {
      var front := steps[..|steps| - 1];
      RunSize(max, init, size, front);
      RunInv(max, init, size, front);
      StepInv(Run(Start(max, init, size), init, front), init, steps[|steps| - 1]);
    }
  }

  /**
   A deletion leaves at least one controller's worth of ports free, as long as the subtraction that
   guards it does not wrap around.
   */
  lemma DeletionLeavesRoom(max: nat, init: nat, size: nat, steps: seq<Step>)
    requires 1 <= init <= max && size > 0
    requires var s := Run(Start(max, init, size), init, steps); TryDel(s, init) != s && s.total <= s.num * s.size
    ensures var z := TryDel(Run(Start(max, init, size), init, steps), init); z.num * z.size - Held(z) >= z.size
  {
    RunInv(max, init, size, steps);
    RoomLeft(Run(Start(max, init, size), init, steps), init);
  }

  lemma RoomLeft(s: State, init: nat)
    requires Inv(s) && TryDel(s, init) != s && s.total <= s.num * s.size
    ensures TryDel(s, init).num * s.size - Held(TryDel(s, init)) >= s.size
  {
    var nr := LastUnused(s.pdevs, |s.pdevs|);
    HeldBounds(s);
    NoneHeld(s, nr);
    SumUpdate(HeldOf, s.pdevs, nr, None);
  }

  lemma NoneHeld(s: State, nr: nat)
    requires Inv(s) && nr < |s.pdevs| && s.pdevs[nr].Some? && s.pdevs[nr].value.using == 0
    ensures HeldOf(s.pdevs[nr]) == 0
  {
    var ports := s.pdevs[nr].value.ports;
    SumBelow((p: Port) => 0, Weight, 1, ports);
    SumZero((p: Port) => 0, ports);
  }

  /** Nothing can wrap around without an attach to a port in use. */
  lemma NoBusyNoWrap(max: nat, init: nat, size: nat, steps: seq<Step>)
    requires 1 <= init <= max && size > 0 && !Run(Start(max, init, size), init, steps).busy
    ensures var s := Run(Start(max, init, size), init, steps); s.total == Held(s) <= s.num * s.size
  {
    RunInv(max, init, size, steps);
    var s := Run(Start(max, init, size), init, steps);
    HeldBounds(s);
    forall h | h in s.pdevs ensures UsingOf(h) <= HeldOf(h) {
    }
    SumBelow(UsingOf, HeldOf, 1, s.pdevs);
  }

  // ---------------------------------------------------------------------------------------------
  // An attach to a port in use loses track of it.
  // ---------------------------------------------------------------------------------------------

  /** Attach, attach again (refused as busy), and reset: nobody holds the port, and it stays counted. */
  function LeakOnce(s: State, init: nat): State {
    Apply(Apply(Apply(s, init, DoAttach(0, 0, true)), init, DoAttach(0, 0, true)), init, DoReset(0, 0))
  }

  lemma BusyAttachLeaks(s: State, init: nat)
    requires Inv(s) && PortAt0(s).status == Null
    ensures var z := LeakOnce(s, init);
            && Inv(z) && PortAt0(z).status == Null && Held(z) == Held(s) && z.num == s.num && z.total == s.total + 1 && z.size == s.size
            && z.pdevs[1..] == s.pdevs[1..]
  {
    var a := Apply(s, init, DoAttach(0, 0, true));
    var b := Apply(a, init, DoAttach(0, 0, true));
    StepInv(s, init, DoAttach(0, 0, true));
    StepInv(a, init, DoAttach(0, 0, true));
    StepInv(b, init, DoReset(0, 0));
    var z, h := LeakOnce(s, init), s.pdevs[0].value;
    var port := Port(Null, -1);
    assert z.pdevs[0].value.ports == h.ports[0 := port];
    assert z.pdevs == s.pdevs[0 := z.pdevs[0]];
    SumUpdate(Weight, h.ports, 0, port);
    SumUpdate(HeldOf, s.pdevs, 0, z.pdevs[0]);
  }

  function PortAt0(s: State): Port {
    if IsPort(s, 0, 0) then PortAt(s, 0, 0) else Port(Error, 0)
  }

  lemma RunMore(s: State, init: nat, steps: seq<Step>, step: Step)
    ensures Run(s, init, steps + [step]) == Apply(Run(s, init, steps), init, step)
  {
    assert (steps + [step])[..|steps|] == steps;
  }
}

/** The controllers' globals, as vhci_hcd.c and vhci_sysfs.c change them. */
module ControllerTable {
  import opened Lists
  import opened Controllers

  class Table {
    const size: nat
    const init: nat
    var pdevs: seq<Option<Hcd>>
    var num: int
    var total: int
    ghost var busy: bool

    ghost function Value(): State
      reads this
    {
      State(size, pdevs, num, total, busy)
    }

    constructor (max: nat, init: nat, size: nat)
      requires 1 <= init <= max
      ensures Value() == Start(max, init, size) && this.init == init
    {
      this.init, this.size := init, size;
      pdevs := seq(max, i => if i < init then Some(NewHcd(size)) else None);
      num, total, busy := init, 0, false;
    }

    /** vhci_get_device. */
    method GetDevice(nr: nat, p: nat)
      requires Inv(Value()) && nr < |pdevs| && p < size
      modifies this`pdevs, this`num, this`total
      ensures IsPort(Ensure(old(Value()), nr), nr, p)
      ensures Value() == Get(Ensure(old(Value()), nr), nr, p)
    {
      EnsureInv(Value(), nr);
      if pdevs[nr].None? {
        pdevs, num := pdevs[nr := Some(NewHcd(size))], num + 1;
      }
      var h := pdevs[nr].value;
      pdevs := pdevs[nr := Some(h.(ports := h.ports[p := h.ports[p].(usingPort := 1)], using := h.using + 1))];
      total := total + 1;
    }

    /** vhci_put_device. */
    method PutDevice(nr: nat, p: nat)
      requires IsPort(Value(), nr, p)
      modifies this`pdevs, this`total
      ensures Value() == Put(old(Value()), nr, p)
    {
      var h := pdevs[nr].value;
      var port := h.ports[p];
      h := h.(ports := h.ports[p := port.(usingPort := port.usingPort - 1)]);
      if port.usingPort - 1 == 0 {
        h := h.(using := h.using - 1);
        total := total - 1;
      }
      pdevs := pdevs[nr := Some(h)];
    }

    /** store_attach; linked says whether the socket could be linked. */
    method StoreAttach(nr: nat, p: nat, linked: bool) returns (ok: bool)
      requires Inv(Value())
      modifies this
      ensures Value() == Apply(old(Value()), init, DoAttach(nr, p, linked))
      ensures ok <==> && linked && nr < |old(pdevs)| && p < size
                      && (old(pdevs)[nr].None? || PortAt(old(Value()), nr, p).status == Null)
      ensures ok ==> IsPort(Value(), nr, p) && PortAt(Value(), nr, p) == Port(NotAssigned, 1)
    {
      if nr >= |pdevs| || p >= size { return false; }
      ghost var s := Ensure(Value(), nr);
      EnsureInv(Value(), nr);
      GetDevice(nr, p);
      var h := pdevs[nr].value;
      if h.ports[p].status != Null {
        busy := busy || Active(h.ports[p]);
        PutDevice(nr, p);
        return false;
      }
      if !linked {
        PutDevice(nr, p);
        return false;
      }
      pdevs := pdevs[nr := Some(h.(ports := h.ports[p := h.ports[p].(status := NotAssigned)]))];
      ok := true;
    }

    /** vhci_device_reset with Null, vhci_device_unusable with Error; the history notes a port lost track of. */
    method ReleasePort(nr: nat, p: nat, status: Status)
      requires IsPort(Value(), nr, p)
      modifies this`pdevs, this`total
      ensures Value() == Release(old(Value()), nr, p, status)
    {
      var h := pdevs[nr].value;
      h := h.(leaked := h.leaked + Lost(h.ports[p]), ports := h.ports[p := h.ports[p].(status := status)]);
      pdevs := pdevs[nr := Some(h)];
      PutDevice(nr, p);
    }

    /** __try_del_platform_device under try_del_platform_device's guard. */
    method TryDelete()
      modifies this`pdevs, this`num
      ensures Value() == TryDel(old(Value()), init)
    {
      var free := (num * size - total) % 0x1_0000_0000;
      if num <= init || free < size * FREE_HCS { return; }
      var nr := |pdevs| - 1;
      while nr > 0
        invariant nr < |pdevs| && pdevs == old(pdevs) && num == old(num)
        invariant nr < 0 ==> |pdevs| == 0
        invariant nr >= 0 ==> LastUnused(pdevs, |pdevs|) == LastUnused(pdevs, nr + 1)
        decreases nr
      {
        if pdevs[nr].Some? && pdevs[nr].value.using == 0 {
          pdevs, num := pdevs[nr := None], num - 1;
          return;
        }
        nr := nr - 1;
      }
      assert LastUnused(pdevs, |pdevs|) == 0;
    }
  }
}
