/** What every client keeps, whatever its peer sends. */
module ClientTheorems {
  import opened Lists
  import opened Errno
  import opened Client

  lemma InitialInv()
    ensures Inv(Initial)
  {
  }

  /** How often a submission appears among the places it can be. */
  function Places(c: Client, s: nat): nat {
    (if s in c.privTx then 1 else 0) + (if s in c.privRx then 1 else 0) + (if s in c.held then 1 else 0)
    + multiset(c.given)[s]
  }

  lemma {:induction false} NoDupOnce(a: seq<nat>, s: nat)
    requires NoDup(a)
    ensures multiset(a)[s] == if s in a then 1 else 0
  {
    if a != [] {
      TailMembers(a);
      NoDupOnce(a[1..], s);
      assert a == [a[0]] + a[1..];
    }
  }

  /**
   Conservation: in every run, every submission is on priv_tx, on priv_rx, picked up or given back,
   in exactly one of them, and is given back at most once.
   */
  lemma EverySubmissionInOnePlace(steps: seq<Step>, s: nat)
    ensures var c := Run(Initial, steps);
            Places(c, s) == (if s in c.urbOf then 1 else 0) && multiset(c.given)[s] <= 1
  {
    InitialInv();
    RunInv(Initial, steps);
    NoDupOnce(Run(Initial, steps).given, s);
  }

  /** A lookup by sequence number is unambiguous in every reachable state. */
  lemma ListsAreSorted(steps: seq<Step>)
    ensures var c := Run(Initial, steps);
            && Sorted(c.privRx + c.privTx) && Sorted(c.unlinkRx + c.unlinkTx)
            && (forall s, u :: s in c.privRx + c.privTx && u in c.unlinkRx + c.unlinkTx ==> s != u)
            && (forall u :: u in c.unlinkRx + c.unlinkTx ==> u in c.targetOf && c.targetOf[u] < u)
  {
    InitialInv();
    RunInv(Initial, steps);
    var c := Run(Initial, steps);
    SortedParts(c.privRx, c.privTx);
    SortedParts(c.unlinkRx, c.unlinkTx);
  }

  // ---------------------------------------------------------------------------------------------
  // vhci_device_unlink_cleanup.
  // ---------------------------------------------------------------------------------------------

  /** One round of the second loop, with the giveback it makes. */
  function CleanupRound(c: Client): (d: Client)
    requires !c.connected && c.unlinkRx != [] && c.unlinkRx[0] in c.targetOf
    ensures d.unlinkRx == c.unlinkRx[1..] && !d.connected && d.targetOf == c.targetOf
  {
    var t := c.targetOf[c.unlinkRx[0]];
    if t in c.privRx then Giveback(CleanupRx(c), t) else CleanupRx(c)
  }

  function CleanupLoop(c: Client): Client
    decreases |c.unlinkRx|
  {
    if c.connected || c.unlinkRx == [] || c.unlinkRx[0] !in c.targetOf then c else CleanupLoop(CleanupRound(c))
  }

  function Cleanup(c: Client): Client { CleanupLoop(CleanupTx(c)) }

  ghost predicate Answered(c: Client, s: nat) {
    exists u :: u in c.unlinkRx && u in c.targetOf && c.targetOf[u] == s
  }

  lemma RoundInv(c: Client)
    requires Inv(c) && !c.connected && c.unlinkRx != []
    ensures c.unlinkRx[0] in c.targetOf && Inv(CleanupRound(c))
  {
    assert c.unlinkRx[0] in c.unlinkRx;
    CleanupRxInv(c);
    GivebackInv(CleanupRx(c), c.targetOf[c.unlinkRx[0]]);
  }

  lemma RoundEffect(c: Client, s: nat)
    requires Inv(c) && !c.connected && c.unlinkRx != []
    ensures c.unlinkRx[0] in c.targetOf
    ensures var d := CleanupRound(c); var t := c.targetOf[c.unlinkRx[0]];
            && d.privTx == c.privTx && d.unlinkTx == c.unlinkTx && d.marked == c.marked && d.urbOf == c.urbOf
            && (s in d.privRx <==> s in c.privRx && s != t)
            && (s in d.given <==> s in c.given || (s in c.privRx && s == t))
  {
    assert c.unlinkRx[0] in c.unlinkRx;
    RemoveSorted(c.privRx, c.targetOf[c.unlinkRx[0]]);
  }

  /**
   Cleanup terminates with both unlink lists empty, and gives back exactly the sent submissions
   whose unlink was sent too; a submission whose unlink was still on unlink_tx stays where it was.
   */
  lemma {:induction false} LoopExact(c: Client, s: nat)
    requires Inv(c) && !c.connected
    ensures var d := CleanupLoop(c);
            && Inv(d) && !d.connected && d.unlinkRx == [] && d.unlinkTx == c.unlinkTx && d.privTx == c.privTx
            && d.marked == c.marked && d.urbOf == c.urbOf && d.targetOf == c.targetOf
            && (s in d.given <==> s in c.given || (s in c.privRx && Answered(c, s)))
            && (s in d.privRx <==> s in c.privRx && !Answered(c, s))
    decreases |c.unlinkRx|
  {
    if c.unlinkRx != [] {
      var d := CleanupRound(c);
      RoundInv(c);
      RoundEffect(c, s);
      LoopExact(d, s);
      HeadAndTail(c.unlinkRx);
      AnsweredRound(c, d, s);
    }
  }

  lemma AnsweredRound(c: Client, d: Client, s: nat)
    requires c.unlinkRx != [] && c.unlinkRx[0] in c.targetOf && d.unlinkRx == c.unlinkRx[1..] && d.targetOf == c.targetOf
    ensures Answered(c, s) <==> s == c.targetOf[c.unlinkRx[0]] || Answered(d, s)
  {
    HeadAndTail(c.unlinkRx);
    if Answered(c, s) && s != c.targetOf[c.unlinkRx[0]] {
      var u :| u in c.unlinkRx && u in c.targetOf && c.targetOf[u] == s;
      assert u in d.unlinkRx;
    }
  }

  lemma CleanupExact(c: Client, s: nat)
    requires Inv(c) && !c.connected
    ensures var d := Cleanup(c);
            && d == CleanupAmid(CleanupTx(c), [])
            && Inv(d) && d.unlinkRx == [] && d.unlinkTx == [] && d.privTx == c.privTx
            && (s in d.given <==> s in c.given || (s in c.privRx && Answered(c, s)))
            && (s in d.privRx <==> s in c.privRx && !Answered(c, s))
  {
    FrameInv(c, CleanupTx(c));
    LoopExact(CleanupTx(c), s);
    UndisturbedAmid(CleanupTx(c));
    assert Answered(CleanupTx(c), s) <==> Answered(c, s);
  }

  /** While the connection is closed no step gives the loop more work. */
  lemma ClosedNeverGrows(c: Client, step: Step)
    requires Inv(c) && !c.connected && !step.Connect?
    ensures var d := Apply(c, step);
            && !d.connected && |d.unlinkTx| <= |c.unlinkTx| && |d.unlinkRx| <= |c.unlinkRx|
            && (step.DoCleanupTx? ==> d.unlinkTx == [])
            && (step.DoCleanupRx? && c.unlinkRx != [] ==> |d.unlinkRx| < |c.unlinkRx|)
  {
    if step.DoCleanupRx? {
      RoundShortens(c);
    } else {
      ClosedKeepsLists(c, step);
    }
  }

  lemma RoundShortens(c: Client)
    requires Numbered(c) && !c.connected
    ensures var d := CleanupRx(c);
            !d.connected && d.unlinkTx == c.unlinkTx && d.unlinkRx == if c.unlinkRx == [] then [] else c.unlinkRx[1..]
  {
    if c.unlinkRx != [] {
      assert c.unlinkRx[0] in c.unlinkRx;
    }
  }

  lemma ClosedKeepsLists(c: Client, step: Step)
    requires !c.connected && !step.Connect? && !step.DoCleanupRx?
    ensures var d := Apply(c, step);
            !d.connected && d.unlinkTx == (if step.DoCleanupTx? then [] else c.unlinkTx) && d.unlinkRx == c.unlinkRx
  {
  }

  // ---------------------------------------------------------------------------------------------
  // What a submission is given back with.
  // ---------------------------------------------------------------------------------------------

  /** Some unlink request for s. */
  ghost predicate Unlinked(c: Client, s: nat) { exists u :: u in c.targetOf && c.targetOf[u] == s }

  /** A RET_UNLINK with this status was received for an unlink request of s. */
  ghost predicate Reported(steps: seq<Step>, c: Client, s: nat, status: int) {
    exists u :: u in c.targetOf && c.targetOf[u] == s && DoRecvRetUnlink(u, status) in steps
  }

  /** Why a submission has the outcome it has. */
  ghost predicate HasCause(steps: seq<Step>, c: Client, s: nat) {
    s in c.outcome ==>
      match c.outcome[s]
      case Completed => DoRecvRetSubmit(s) in steps
      case Cancelled(status) => Reported(steps, c, s, status)
      case Closed => s in c.urbOf && DoDequeue(c.urbOf[s]) in steps && Disconnect in steps
      case CleanedUp(status) => status == ENODEV && DoCleanupRx in steps && Unlinked(c, s)
  }

  ghost predicate HandHasCause(steps: seq<Step>, c: Client) {
    c.inHand.Some? ==> DoRecvRetUnlink(c.inHand.value.0, c.inHand.value.1) in steps
  }

  /** What a step leaves of the records and the outcomes. */
  ghost predicate NamesKept(c: Client, d: Client) {
    && (forall u :: u in c.targetOf ==> u in d.targetOf && d.targetOf[u] == c.targetOf[u])
    && (forall x :: x in c.urbOf ==> x in d.urbOf && d.urbOf[x] == c.urbOf[x])
  }

  lemma CauseKept(front: seq<Step>, step: Step, c: Client, d: Client, s: nat)
    requires HasCause(front, c, s) && NamesKept(c, d) && s in c.outcome && s in d.outcome && d.outcome[s] == c.outcome[s]
    ensures HasCause(front + [step], d, s)
  {
  }

  lemma StepNames(c: Client, step: Step)
    requires Numbered(c)
    ensures NamesKept(c, Apply(c, step))
  {
  }

  /** Nothing that was taken off the lists is taken again. */
  lemma OutcomeStays(c: Client, step: Step, s: nat)
    requires s in c.outcome && !c.Queued(s) && Numbered(c) && Linked(c)
    ensures s in Apply(c, step).outcome && Apply(c, step).outcome[s] == c.outcome[s]
  {
    if step.DoDequeue? && step.urb in c.hcpriv {
      assert c.Queued(c.hcpriv[step.urb]);
    }
  }

  lemma CleanupCause(front: seq<Step>, c: Client, s: nat)
    requires Inv(c) && s !in c.outcome
    ensures HasCause(front + [DoCleanupRx], CleanupRx(c), s)
  {
    assert DoCleanupRx in front + [DoCleanupRx];
    if c.unlinkRx != [] {
      assert c.unlinkRx[0] in c.unlinkRx;
    }
  }

  lemma DequeueCause(front: seq<Step>, c: Client, urb: nat, s: nat)
    requires Linked(c) && (!c.connected ==> Disconnect in front) && s !in c.outcome
    ensures HasCause(front + [DoDequeue(urb)], Dequeue(c, urb), s)
  {
    assert DoDequeue(urb) in front + [DoDequeue(urb)];
  }

  lemma NewCause(front: seq<Step>, c: Client, step: Step, s: nat)
    requires Inv(c) && HandHasCause(front, c) && (!c.connected ==> Disconnect in front)
    requires s !in c.outcome
    ensures HasCause(front + [step], Apply(c, step), s)
  {
    if step.DoCleanupRx? {
      CleanupCause(front, c, s);
    } else if step.DoDequeue? {
      DequeueCause(front, c, step.urb, s);
    } else {
      assert step in front + [step];
    }
  }

  lemma HandStep(front: seq<Step>, c: Client, step: Step)
    requires HandHasCause(front, c)
    ensures HandHasCause(front + [step], Apply(c, step))
  {
    assert step in front + [step];
  }

  ghost predicate Causes(steps: seq<Step>, c: Client, s: nat) {
    HandHasCause(steps, c) && (!c.connected ==> Disconnect in steps) && HasCause(steps, c, s)
  }

  lemma StepCauses(front: seq<Step>, c: Client, step: Step, s: nat)
    requires Inv(c) && Causes(front, c, s)
    ensures Causes(front + [step], Apply(c, step), s)
  {
    HandStep(front, c, step);
    assert step in front + [step];
    if s in c.outcome {
      StepNames(c, step);
      OutcomeStays(c, step, s);
      CauseKept(front, step, c, Apply(c, step), s);
    } else {
      NewCause(front, c, step, s);
    }
  }

  lemma {:induction false} RunCauses(steps: seq<Step>, s: nat)
    ensures Causes(steps, Run(Initial, steps), s) && Inv(Run(Initial, steps))
  {
    if steps == [] {
      InitialInv();
    } else {
      var front, step := steps[..|steps| - 1], steps[|steps| - 1];
      RunCauses(front, s);
      ApplyInv(Run(Initial, front), step);
      StepCauses(front, Run(Initial, front), step, s);
      LastOf(steps);
    }
  }

  lemma LastOf(steps: seq<Step>)
    requires steps != []
    ensures steps == steps[..|steps| - 1] + [steps[|steps| - 1]]
  {
  }

  /**
   In every run a submission that was taken off the lists was taken by a RET_SUBMIT with its number, or
   with the status that a RET_UNLINK reported for its unlink request, or unlinked after a disconnection, or
   by cleanup, and then with -ENODEV and an unlink request.
   */
  lemma OutcomeHasCause(steps: seq<Step>, s: nat)
    ensures HasCause(steps, Run(Initial, steps), s)
  {
    RunCauses(steps, s);
  }

  // ---------------------------------------------------------------------------------------------
  // Which unlinks are accepted.
  // ---------------------------------------------------------------------------------------------

  /** The mark of a queued URB is about its present submission. */
  ghost predicate MarksAreFresh(c: Client) {
    forall urb :: urb in c.hcpriv && urb in c.marked ==> Unlinked(c, c.hcpriv[urb])
  }

  lemma EnqueueFresh(c: Client, urb: nat)
    requires MarksAreFresh(c)
    ensures MarksAreFresh(Enqueue(c, urb))
  {
    var d := Enqueue(c, urb);
    forall x | x in d.hcpriv && x in d.marked ensures Unlinked(d, d.hcpriv[x]) {
      assert x in c.hcpriv && x in c.marked;
    }
  }

  lemma DequeueFresh(c: Client, urb: nat)
    requires MarksAreFresh(c) && Numbered(c)
    ensures MarksAreFresh(Dequeue(c, urb))
  {
    var d := Dequeue(c, urb);
    forall x | x in d.hcpriv && x in d.marked ensures Unlinked(d, d.hcpriv[x]) {
      if x != urb || d == c {
        var u :| u in c.targetOf && c.targetOf[u] == c.hcpriv[x];
        assert d.targetOf[u] == d.hcpriv[x];
      } else {
        assert d.targetOf[d.counter] == d.hcpriv[x];
      }
    }
  }

  /** A step that adds no mark and no record. */
  lemma StillFresh(c: Client, d: Client)
    requires MarksAreFresh(c) && d.marked == c.marked && d.targetOf == c.targetOf
    requires forall x :: x in d.hcpriv ==> x in c.hcpriv && d.hcpriv[x] == c.hcpriv[x]
    ensures MarksAreFresh(d)
  {
    forall x | x in d.hcpriv && x in d.marked ensures Unlinked(d, d.hcpriv[x]) {
      assert Unlinked(c, c.hcpriv[x]);
    }
  }

  lemma StepFresh(c: Client, step: Step)
    requires MarksAreFresh(c) && Numbered(c)
    ensures MarksAreFresh(Apply(c, step))
  {
    match step
    case DoEnqueue(urb) => EnqueueFresh(c, urb);
    case DoDequeue(urb) => DequeueFresh(c, urb);
    case _ => OthersMarkNone(c, step); StillFresh(c, Apply(c, step));
  }

  lemma OthersMarkNone(c: Client, step: Step)
    requires !step.DoEnqueue? && !step.DoDequeue?
    ensures var d := Apply(c, step);
            && d.marked == c.marked && d.targetOf == c.targetOf
            && forall x :: x in d.hcpriv ==> x in c.hcpriv && d.hcpriv[x] == c.hcpriv[x]
  {
  }

  lemma {:induction false} RunFresh(steps: seq<Step>)
    ensures Inv(Run(Initial, steps)) && MarksAreFresh(Run(Initial, steps))
  {
    if steps == [] {
      InitialInv();
    } else {
      var c, step := Run(Initial, steps[..|steps| - 1]), steps[|steps| - 1];
      RunFresh(steps[..|steps| - 1]);
      ApplyInv(c, step);
      StepFresh(c, step);
    }
  }

  /** In every run an unlink is accepted exactly if the URB is queued and its present submission has none yet. */
  lemma UnlinkAcceptedExactly(steps: seq<Step>, urb: nat)
    ensures var c := Run(Initial, steps);
            Dequeue(c, urb) != c <==> urb in c.hcpriv && !Unlinked(c, c.hcpriv[urb])
  {
    RunFresh(steps);
  }

  /** So an URB that was unlinked, given back and submitted again can be unlinked again. */
  lemma SubmittedAgain(steps: seq<Step>, urb: nat)
    requires urb !in Run(Initial, steps).hcpriv
    ensures var d := Run(Initial, steps + [DoEnqueue(urb)]); urb in d.hcpriv && Dequeue(d, urb) != d
  {
    RunMore(steps, DoEnqueue(urb));
    RunFresh(steps);
  }

  // ---------------------------------------------------------------------------------------------
  // What cleanup leaves behind.
  // ---------------------------------------------------------------------------------------------

  /** Shut down and cleaned up: no connection, no unlink record anywhere. */
  ghost predicate Quiet(c: Client) {
    !c.connected && c.unlinkTx == [] && c.unlinkRx == [] && c.inHand.None?
  }

  predicate NoConnect(steps: seq<Step>) {
    forall step :: step in steps ==> !step.Connect?
  }

  lemma QuietStep(c: Client, step: Step, s: nat)
    requires Inv(c) && Quiet(c) && !step.Connect? && c.Queued(s) && c.urbOf[s] in c.marked
    ensures var d := Apply(c, step);
            Quiet(d) && d.Queued(s) && s in d.urbOf && d.urbOf[s] == c.urbOf[s] && d.urbOf[s] in d.marked
  {
    if step.DoDequeue? && step.urb in c.hcpriv && step.urb !in c.marked {
      RemoveOther(c.privTx, c.hcpriv[step.urb], s);
      RemoveOther(c.privRx, c.hcpriv[step.urb], s);
    }
  }

  lemma {:induction false} RemoveOther(a: seq<nat>, x: nat, s: nat)
    requires x != s
    ensures s in Remove(a, x) <==> s in a
  {
    if a != [] {
      HeadAndTail(a);
      RemoveOther(a[1..], x, s);
    }
  }

  lemma {:induction false} MarkedStays(c: Client, steps: seq<Step>, s: nat)
    requires Inv(c) && Quiet(c) && NoConnect(steps) && c.Queued(s) && c.urbOf[s] in c.marked
    ensures var d := Run(c, steps);
            Inv(d) && Quiet(d) && d.Queued(s) && s in d.urbOf && d.urbOf[s] == c.urbOf[s] && d.urbOf[s] in d.marked
  {
    if steps != [] {
      var front, last := steps[..|steps| - 1], steps[|steps| - 1];
      assert last in steps;
      MarkedStays(c, front, s);
      QuietStep(Run(c, front), last, s);
      ApplyInv(Run(c, front), last);
    }
  }

  lemma TwoSteps(c: Client, a: Step, b: Step)
    ensures Run(c, [a, b]) == Apply(Apply(c, a), b)
  {
    assert [a, b][..1] == [a] && [a][..0] == [];
    assert Run(c, []) == c && Run(c, [a]) == Apply(c, a);
  }

  lemma UnmarkedReturns(c: Client, s: nat)
    requires Linked(c) && Quiet(c) && c.Queued(s) && c.urbOf[s] !in c.marked
    ensures var steps := [DoDequeue(c.urbOf[s]), DoGiveback(s)];
            NoConnect(steps) && s in Run(c, steps).given
  {
    TwoSteps(c, DoDequeue(c.urbOf[s]), DoGiveback(s));
    assert s in Dequeue(c, c.urbOf[s]).held;
  }

  /**
   After cleanup, a submission still queued can be given back in some continuation without a new
   connection if and only if usbcore has not already accepted an unlink for its URB: a second unlink
   would be refused, and the record of the first one is gone.
   */
  lemma ReturnsIffUnmarked(c: Client, s: nat)
    requires Inv(c) && Quiet(c) && c.Queued(s)
    ensures (exists steps :: NoConnect(steps) && s in Run(c, steps).given) <==> c.urbOf[s] !in c.marked
  {
    if c.urbOf[s] !in c.marked {
      UnmarkedReturns(c, s);
    } else {
      forall steps | NoConnect(steps) ensures s !in Run(c, steps).given {
        MarkedStays(c, steps, s);
      }
    }
  }

  /** Such submissions exist: any whose unlink was still on unlink_tx when the connection closed. */
  lemma UnsentUnlinkStrands(c: Client, u: nat, steps: seq<Step>)
    requires Inv(c) && !c.connected && c.inHand.None? && u in c.unlinkTx && c.Queued(c.targetOf[u]) && NoConnect(steps)
    ensures c.targetOf[u] !in Run(Cleanup(c), steps).given
  {
    var t := c.targetOf[u];
    UnsentUnlinkUnanswered(c, u);
    CleanupExact(c, t);
    LoopFrame(CleanupTx(c));
    assert Cleanup(c).Queued(t);
    MarkedStays(Cleanup(c), steps, t);
  }

  lemma RunMore(steps: seq<Step>, step: Step)
    ensures Run(Initial, steps + [step]) == Apply(Run(Initial, steps), step)
  {
    assert (steps + [step])[..|steps|] == steps;
  }

  /** One such run: submit, unlink, and the connection closes before either message leaves. */
  lemma StrandedRun() returns (steps: seq<Step>)
    ensures var c := Run(Initial, steps);
            && !c.connected && c.unlinkTx == [2] && 2 in c.targetOf && c.Queued(c.targetOf[2])
            && (forall more :: NoConnect(more) ==> 1 !in Run(Cleanup(c), more).given)
  {
    steps := [];
    RunMore(steps, DoEnqueue(7));
    steps := steps + [DoEnqueue(7)];
    RunMore(steps, DoDequeue(7));
    steps := steps + [DoDequeue(7)];
    RunMore(steps, Disconnect);
    steps := steps + [Disconnect];
    StrandsAll(steps);
  }

  lemma StrandsAll(steps: seq<Step>)
    requires var c := Run(Initial, steps);
             !c.connected && c.inHand.None? && c.unlinkTx == [2] && 2 in c.targetOf && c.targetOf[2] == 1 && c.Queued(1)
    ensures forall more :: NoConnect(more) ==> 1 !in Run(Cleanup(Run(Initial, steps)), more).given
  {
    InitialInv();
    RunInv(Initial, steps);
    forall more | NoConnect(more) ensures 1 !in Run(Cleanup(Run(Initial, steps)), more).given {
      UnsentUnlinkStrands(Run(Initial, steps), 2, more);
    }
  }

  lemma UnsentUnlinkUnanswered(c: Client, u: nat)
    requires Inv(c) && u in c.unlinkTx
    ensures !Answered(c, c.targetOf[u])
  {
  }

  lemma {:induction false} LoopFrame(c: Client)
    ensures var d := CleanupLoop(c);
            d.connected == c.connected && d.inHand == c.inHand && d.marked == c.marked && d.urbOf == c.urbOf
    decreases |c.unlinkRx|
  {
    if !c.connected && c.unlinkRx != [] && c.unlinkRx[0] in c.targetOf {
      LoopFrame(CleanupRound(c));
    }
  }

  // ---------------------------------------------------------------------------------------------
  // Cleanup drops its locks around each giveback: any other step may come in between.
  // ---------------------------------------------------------------------------------------------

  /** Taken by cleanup, which reports -ENODEV. */
  predicate GivenUp(c: Client, s: nat) { s in c.outcome && c.outcome[s] == CleanedUp(ENODEV) }

  /** Still to be given back by cleanup, or given back by it. */
  ghost predicate Owed(c: Client, s: nat) {
    (s in c.privRx && Answered(c, s)) || GivenUp(c, s)
  }

  /** A step that moves none of these records. */
  lemma StillOwed(c: Client, d: Client, s: nat)
    requires d.privRx == c.privRx && d.unlinkRx == c.unlinkRx && d.outcome == c.outcome
    requires forall u :: u in c.unlinkRx ==> u in c.targetOf && u in d.targetOf && d.targetOf[u] == c.targetOf[u]
    ensures Owed(d, s) <==> Owed(c, s)
  {
    assert Answered(d, s) <==> Answered(c, s);
  }

  /** A record whose unlink was sent is marked, so another dequeue cannot take it. */
  lemma OwedDequeue(c: Client, urb: nat, s: nat)
    requires Inv(c) && !c.connected
    ensures Owed(Dequeue(c, urb), s) <==> Owed(c, s)
  {
    var d := Dequeue(c, urb);
    if d != c {
      TakenIsUnowed(c, c.hcpriv[urb], s);
      assert Answered(d, s) <==> Answered(c, s);
    }
  }

  lemma OwedFinish(c: Client, s: nat)
    requires Inv(c)
    ensures Owed(FinishUnlink(c), s) <==> Owed(c, s)
  {
    var d := FinishUnlink(c);
    if c.inHand.Some? {
      var t := c.targetOf[c.inHand.value.0];
      if s == t { InHandIsUnowed(c, s); }
      TakenIsUnowed(c, t, s);
      assert Answered(d, s) <==> Answered(c, s);
    }
  }

  lemma OwedStays(c: Client, step: Step, s: nat)
    requires Inv(c) && !c.connected && !step.Connect?
    ensures Owed(Apply(c, step), s) <==> Owed(c, s)
  {
    if step.DoDequeue? {
      OwedDequeue(c, step.urb, s);
    } else if step.DoFinishUnlink? {
      OwedFinish(c, s);
    } else if step.DoCleanupRx? {
      OwedRound(c, s);
    } else {
      StillOwed(c, Apply(c, step), s);
    }
  }

  lemma TakenIsUnowed(c: Client, x: nat, s: nat)
    requires Sorted(c.privRx)
    ensures s in Remove(c.privRx, x) <==> s in c.privRx && s != x
  {
    RemoveSorted(c.privRx, x);
  }

  /** The record the receiver holds is off unlink_rx, and its target has no other. */
  lemma InHandIsUnowed(c: Client, s: nat)
    requires Inv(c) && c.inHand.Some? && s == c.targetOf[c.inHand.value.0]
    ensures !Answered(c, s)
  {
  }

  lemma RoundTakes(c: Client, s: nat)
    requires Inv(c) && !c.connected && c.unlinkRx != []
    ensures var d := CleanupRx(c);
            var t := c.targetOf[c.unlinkRx[0]];
            && d.unlinkRx == c.unlinkRx[1..] && d.targetOf == c.targetOf
            && (s in d.privRx <==> s in c.privRx && s != t)
            && (GivenUp(d, s) <==> GivenUp(c, s) || (s == t && s in c.privRx))
  {
    assert c.unlinkRx[0] in c.unlinkRx;
    TakenIsUnowed(c, c.targetOf[c.unlinkRx[0]], s);
  }

  lemma OwedRound(c: Client, s: nat)
    requires Inv(c) && !c.connected
    ensures Owed(CleanupRx(c), s) <==> Owed(c, s)
  {
    if c.unlinkRx != [] {
      assert c.unlinkRx[0] in c.unlinkRx;
      RoundTakes(c, s);
      AnsweredRound(c, CleanupRx(c), s);
    }
  }

  lemma OwedStep(c: Client, step: Step, s: nat)
    requires Inv(c) && !c.connected && !step.Connect?
    ensures var d := Apply(c, step); Inv(d) && !d.connected && (Owed(d, s) <==> Owed(c, s))
  {
    OwedStays(c, step, s);
    ApplyInv(c, step);
  }

  lemma {:induction false} OwedRun(c: Client, steps: seq<Step>, s: nat)
    requires Inv(c) && !c.connected && NoConnect(steps)
    ensures var d := Run(c, steps); Inv(d) && !d.connected && (Owed(d, s) <==> Owed(c, s))
  {
    if steps != [] {
      var front, last := steps[..|steps| - 1], steps[|steps| - 1];
      assert last in steps;
      OwedRun(c, front, s);
      OwedStep(Run(c, front), last, s);
    }
  }

  /**
   However cleanup's rounds interleave with the other steps of a closed connection, once unlink_rx is
   empty cleanup has taken exactly the sent submissions whose unlink had been sent; each was given back,
   or is in the hands of the thread that is about to.
   */
  lemma CleanupAmidOthers(c: Client, steps: seq<Step>, s: nat)
    requires Inv(c) && !c.connected && NoConnect(steps) && Run(c, steps).unlinkRx == []
    requires !GivenUp(c, s)
    ensures var d := Run(c, steps);
            && (GivenUp(d, s) <==> s in c.privRx && Answered(c, s))
            && (GivenUp(d, s) ==> (s in d.held || s in d.given) && !d.Queued(s))
  {
    OwedRun(c, steps, s);
    assert !Answered(Run(c, steps), s);
  }

  // ---------------------------------------------------------------------------------------------
  // The same as the code has it: rounds, and what happens elsewhere after each.
  // ---------------------------------------------------------------------------------------------

  /** Sections of other threads that can run while the connection is closed. */
  datatype Other = Submit(urb: nat) | Unlink(urb: nat) | GiveBack(s: nat)

  function AsStep(o: Other): Step {
    match o
    case Submit(urb) => DoEnqueue(urb)
    case Unlink(urb) => DoDequeue(urb)
    case GiveBack(s) => DoGiveback(s)
  }

  function Acted(c: Client, o: Other): Client { Apply(c, AsStep(o)) }

  function AllActed(c: Client, acts: seq<Other>): Client
    decreases |acts|
  {
    if acts == [] then c else AllActed(Acted(c, acts[0]), acts[1..])
  }

  lemma {:induction false} ActedFrame(c: Client, acts: seq<Other>)
    requires !c.connected
    ensures var d := AllActed(c, acts); !d.connected && d.unlinkRx == c.unlinkRx && d.unlinkTx == c.unlinkTx
    ensures AllActed(c, acts).targetOf == c.targetOf
    decreases |acts|
  {
    if acts != [] {
      ActedFrame(Acted(c, acts[0]), acts[1..]);
    }
  }

  /** The second loop of cleanup, with others[0] happening after its first round, and so on. */
  function CleanupAmid(c: Client, others: seq<seq<Other>>): Client
    decreases |c.unlinkRx|
  {
    if c.connected || c.unlinkRx == [] || c.unlinkRx[0] !in c.targetOf then c else
    var d := CleanupRound(c);
    if others == [] then CleanupAmid(d, []) else
    ActedFrame(d, others[0]);
    CleanupAmid(AllActed(d, others[0]), others[1..])
  }

  lemma {:induction false} UndisturbedAmid(c: Client)
    ensures CleanupAmid(c, []) == CleanupLoop(c)
    decreases |c.unlinkRx|
  {
    if !c.connected && c.unlinkRx != [] && c.unlinkRx[0] in c.targetOf {
      UndisturbedAmid(CleanupRound(c));
    }
  }

  lemma ActedOwed(c: Client, o: Other, s: nat)
    requires Inv(c) && !c.connected
    ensures var d := Acted(c, o); Inv(d) && !d.connected && (Owed(d, s) <==> Owed(c, s))
  {
    OwedStep(c, AsStep(o), s);
  }

  lemma {:induction false} AllActedOwed(c: Client, acts: seq<Other>, s: nat)
    requires Inv(c) && !c.connected
    ensures var d := AllActed(c, acts); Inv(d) && !d.connected && (Owed(d, s) <==> Owed(c, s))
    decreases |acts|
  {
    if acts != [] {
      ActedOwed(c, acts[0], s);
      AllActedOwed(Acted(c, acts[0]), acts[1..], s);
    }
  }

  lemma RoundOwed(c: Client, s: nat)
    requires Inv(c) && !c.connected && c.unlinkRx != []
    ensures c.unlinkRx[0] in c.targetOf
    ensures var d := CleanupRound(c); Inv(d) && !d.connected && (Owed(d, s) <==> Owed(c, s))
  {
    RoundInv(c);
    OwedRound(c, s);
    StillOwed(CleanupRx(c), Giveback(CleanupRx(c), c.targetOf[c.unlinkRx[0]]), s);
  }

  /** Whatever happens elsewhere, cleanup takes exactly the sent submissions whose unlink had been sent. */
  lemma {:induction false} AmidExact(c: Client, others: seq<seq<Other>>, s: nat)
    requires Inv(c) && !c.connected
    ensures var d := CleanupAmid(c, others);
            Inv(d) && !d.connected && d.unlinkRx == [] && (GivenUp(d, s) <==> Owed(c, s))
    decreases |c.unlinkRx|
  {
    if c.unlinkRx != [] {
      RoundOwed(c, s);
      var d := CleanupRound(c);
      if others == [] {
        AmidExact(d, [], s);
      } else {
        ActedFrame(d, others[0]);
        AllActedOwed(d, others[0], s);
        AmidExact(AllActed(d, others[0]), others[1..], s);
      }
    }
  }
}
