/** Status codes of the USB stack. */
module Errno {
  const OK: int := 0
  const EINPROGRESS: int := -115
  const ECONNRESET: int := -104
  const ENOENT: int := -2
  const ENODEV: int := -19
  const EPIPE: int := -32
  const EOVERFLOW: int := -75
  const EXDEV: int := -18
}

/**
 The client, vhci_hcd: one virtual device and its four lists.

 A vhci_priv and a vhci_unlink are immutable once allocated, so a record is named by its sequence
 number; urbOf and targetOf hold the other field of every record ever allocated, and the lists hold
 the names.  A submission is therefore a sequence number, and an URB that is submitted again is a
 new submission.
 */
module Client {
  import opened Lists
  import opened Errno

  /** Which path took a submission off the lists, and with which status. */
  datatype Outcome = Completed | Cancelled(status: int) | Closed | CleanedUp(status: int)

  datatype Client = Client(
    counter: nat,
    urbOf: map<nat, nat>,
    targetOf: map<nat, nat>,
    privTx: seq<nat>,
    privRx: seq<nat>,
    unlinkTx: seq<nat>,
    unlinkRx: seq<nat>,
    hcpriv: map<nat, nat>,
    marked: set<nat>,
    connected: bool,
    inHand: Option<(nat, int)>,
    held: set<nat>,
    given: seq<nat>,
    outcome: map<nat, Outcome>)
  {
    predicate Queued(s: nat) { s in privTx || s in privRx }
  }

  const Initial := Client(0, map[], map[], [], [], [], [], map[], {}, true, None, {}, [], map[])

  // ---------------------------------------------------------------------------------------------
  // Steps: one per lock-held section.
  // ---------------------------------------------------------------------------------------------

  /** vhci_tx_urb; usbcore submits an URB only while its hcpriv is null. */
  function Enqueue(c: Client, urb: nat): Client {
    if urb in c.hcpriv then c else
    var s := c.counter + 1;
    c.(counter := s, urbOf := c.urbOf[s := urb], hcpriv := c.hcpriv[urb := s],
       marked := c.marked - {urb}, privTx := c.privTx + [s])
  }

  /** vhci_urb_dequeue.  usb_hcd_check_unlink_urb refuses an URB that is already marked. */
  function Dequeue(c: Client, urb: nat): Client {
    if urb !in c.hcpriv || urb in c.marked then c else
    var s := c.hcpriv[urb];
    var m := c.(marked := c.marked + {urb});
    if !c.connected then
      m.(privTx := Remove(c.privTx, s), privRx := Remove(c.privRx, s), hcpriv := c.hcpriv - {urb},
         held := c.held + {s}, outcome := c.outcome[s := Closed])
    else
      var u := c.counter + 1;
      m.(counter := u, targetOf := c.targetOf[u := s], unlinkTx := c.unlinkTx + [u])
  }

  /** dequeue_from_priv_tx: one entry moves to the tail of priv_rx, and its PDU is sent. */
  function SendSubmit(c: Client): Client {
    if !c.connected || c.privTx == [] then c else
    c.(privTx := c.privTx[1..], privRx := c.privRx + [c.privTx[0]])
  }

  /** dequeue_from_unlink_tx. */
  function SendUnlink(c: Client): Client {
    if !c.connected || c.unlinkTx == [] then c else
    c.(unlinkTx := c.unlinkTx[1..], unlinkRx := c.unlinkRx + [c.unlinkTx[0]])
  }

  /** pickup_urb_and_free_priv: only priv_rx is searched. */
  function Pickup(c: Client, s: nat, o: Outcome): Client {
    if s !in c.privRx || s !in c.urbOf then c else
    c.(privRx := Remove(c.privRx, s), hcpriv := c.hcpriv - {c.urbOf[s]},
       held := c.held + {s}, outcome := c.outcome[s := o])
  }

  function RecvRetSubmit(c: Client, s: nat): Client {
    if !c.connected || c.inHand.Some? then c else Pickup(c, s, Completed)
  }

  /** dequeue_pending_unlink: the receiver now holds the record, off every list. */
  function RecvRetUnlink(c: Client, u: nat, status: int): Client {
    if !c.connected || c.inHand.Some? || u !in c.unlinkRx then c else
    c.(unlinkRx := Remove(c.unlinkRx, u), inHand := Some((u, status)))
  }

  /** The second lock section of vhci_recv_ret_unlink. */
  function FinishUnlink(c: Client): Client {
    if c.inHand.None? || c.inHand.value.0 !in c.targetOf then c else
    Pickup(c, c.targetOf[c.inHand.value.0], Cancelled(c.inHand.value.1)).(inHand := None)
  }

  /** usb_hcd_giveback_urb, by whichever thread holds the URB. */
  function Giveback(c: Client, s: nat): Client {
    if s !in c.held then c else c.(held := c.held - {s}, given := c.given + [s])
  }

  /** The first loop of vhci_device_unlink_cleanup. */
  function CleanupTx(c: Client): Client {
    if c.connected then c else c.(unlinkTx := [])
  }

  /** One round of its second loop. */
  function CleanupRx(c: Client): Client {
    if c.connected || c.unlinkRx == [] || c.unlinkRx[0] !in c.targetOf then c else
    Pickup(c, c.targetOf[c.unlinkRx[0]], CleanedUp(ENODEV)).(unlinkRx := c.unlinkRx[1..])
  }

  datatype Step =
    | DoEnqueue(urb: nat)
    | DoDequeue(urb: nat)
    | OtherPort                       // another port of the controller draws a sequence number
    | DoSendSubmit
    | DoSendUnlink
    | DoRecvRetSubmit(s: nat)
    | DoRecvRetUnlink(u: nat, status: int)
    | DoFinishUnlink
    | DoGiveback(s: nat)
    | Disconnect
    | Connect
    | DoCleanupTx
    | DoCleanupRx

  function Apply(c: Client, step: Step): Client {
    match step
    case DoEnqueue(urb) => Enqueue(c, urb)
    case DoDequeue(urb) => Dequeue(c, urb)
    case OtherPort => c.(counter := c.counter + 1)
    case DoSendSubmit => SendSubmit(c)
    case DoSendUnlink => SendUnlink(c)
    case DoRecvRetSubmit(s) => RecvRetSubmit(c, s)
    case DoRecvRetUnlink(u, status) => RecvRetUnlink(c, u, status)
    case DoFinishUnlink => FinishUnlink(c)
    case DoGiveback(s) => Giveback(c, s)
    case Disconnect => c.(connected := false)
    case Connect => c.(connected := true)
    case DoCleanupTx => CleanupTx(c)
    case DoCleanupRx => CleanupRx(c)
  }

  /** The state after any finite run; the peer decides every received sequence number. */
  function Run(c: Client, steps: seq<Step>): Client {
    if steps == [] then c else Apply(Run(c, steps[..|steps| - 1]), steps[|steps| - 1])
  }

  // ---------------------------------------------------------------------------------------------
  // The invariant.
  // ---------------------------------------------------------------------------------------------

  ghost predicate Ordered(c: Client) {
    && Sorted(c.privRx) && Sorted(c.privTx) && Below(c.privRx, c.privTx)
    && Sorted(c.unlinkRx) && Sorted(c.unlinkTx) && Below(c.unlinkRx, c.unlinkTx)
  }

  ghost predicate Numbered(c: Client) {
    && (forall s :: s in c.urbOf ==> s <= c.counter && s !in c.targetOf)
    && (forall u :: u in c.targetOf ==> u <= c.counter && c.targetOf[u] in c.urbOf && c.targetOf[u] < u)
    && (forall s :: s in c.privTx || s in c.privRx ==> s in c.urbOf)
    && (forall u :: u in c.unlinkTx || u in c.unlinkRx ==> u in c.targetOf)
    && (c.inHand.Some? ==>
          && c.inHand.value.0 in c.targetOf
          && c.inHand.value.0 !in c.unlinkTx && c.inHand.value.0 !in c.unlinkRx)
  }

  /** Every submission is in exactly one place, and was given back at most once. */
  ghost predicate Conserved(c: Client) {
    && NoDup(c.given)
    && (forall s :: s in c.urbOf <==> c.Queued(s) || s in c.held || s in c.given)
    && (forall s :: s in c.privTx ==> s !in c.privRx)
    && (forall s :: c.Queued(s) ==> s !in c.held && s !in c.given)
    && (forall s :: s in c.held ==> s !in c.given)
    && (forall s :: s in c.outcome <==> s in c.held || s in c.given)
  }

  ghost predicate Linked(c: Client) {
    && (forall urb :: urb in c.hcpriv ==>
          c.Queued(c.hcpriv[urb]) && c.hcpriv[urb] in c.urbOf && c.urbOf[c.hcpriv[urb]] == urb)
    && (forall s :: c.Queued(s) ==> s in c.urbOf && c.urbOf[s] in c.hcpriv && c.hcpriv[c.urbOf[s]] == s)
  }

  /** At most one unlink request per submission. */
  ghost predicate OneUnlink(c: Client) {
    && (forall u :: u in c.targetOf && c.targetOf[u] in c.urbOf && c.Queued(c.targetOf[u]) ==>
          c.urbOf[c.targetOf[u]] in c.marked)
    && (forall u, v :: u in c.targetOf && v in c.targetOf && c.targetOf[u] == c.targetOf[v] ==> u == v)
  }

  ghost predicate Inv(c: Client) {
    Ordered(c) && Numbered(c) && Conserved(c) && Linked(c) && OneUnlink(c)
  }

  // ---------------------------------------------------------------------------------------------
  // Every step keeps it.
  // ---------------------------------------------------------------------------------------------

  lemma EnqueueLists(c: Client, urb: nat)
    requires Ordered(c) && Numbered(c) && urb !in c.hcpriv
    ensures Ordered(Enqueue(c, urb)) && Numbered(Enqueue(c, urb))
  {
    AppendSorted(c.privTx, c.counter + 1);
  }

  lemma EnqueueConserved(c: Client, urb: nat)
    requires Numbered(c) && Conserved(c) && urb !in c.hcpriv
    ensures Conserved(Enqueue(c, urb))
  {
  }

  lemma EnqueueLinked(c: Client, urb: nat)
    requires Numbered(c) && Linked(c) && OneUnlink(c) && urb !in c.hcpriv
    ensures Linked(Enqueue(c, urb)) && OneUnlink(Enqueue(c, urb))
  {
    var d := Enqueue(c, urb);
    assert forall x :: d.Queued(x) <==> c.Queued(x) || x == c.counter + 1;
  }

  lemma EnqueueInv(c: Client, urb: nat)
    requires Inv(c)
    ensures Inv(Enqueue(c, urb))
  {
    if urb !in c.hcpriv {
      EnqueueLists(c, urb);
      EnqueueConserved(c, urb);
      EnqueueLinked(c, urb);
    }
  }

  lemma PickupLists(c: Client, s: nat, o: Outcome)
    requires Ordered(c) && Numbered(c) && s in c.privRx && s in c.urbOf
    ensures Ordered(Pickup(c, s, o)) && Numbered(Pickup(c, s, o))
    ensures forall x :: x in Remove(c.privRx, s) <==> x in c.privRx && x != s
  {
    RemoveSorted(c.privRx, s);
  }

  lemma PickupConserved(c: Client, s: nat, o: Outcome)
    requires Conserved(c) && s in c.privRx && s in c.urbOf
    requires forall x :: x in Remove(c.privRx, s) <==> x in c.privRx && x != s
    ensures Conserved(Pickup(c, s, o))
  {
  }

  lemma PickupLinked(c: Client, s: nat, o: Outcome)
    requires Linked(c) && OneUnlink(c) && s in c.privRx && s in c.urbOf && s !in c.privTx
    requires forall x :: x in Remove(c.privRx, s) <==> x in c.privRx && x != s
    ensures Linked(Pickup(c, s, o)) && OneUnlink(Pickup(c, s, o))
  {
    var d := Pickup(c, s, o);
    assert forall x :: d.Queued(x) <==> c.Queued(x) && x != s;
  }

  lemma PickupInv(c: Client, s: nat, o: Outcome)
    requires Inv(c)
    ensures Inv(Pickup(c, s, o))
  {
    if s in c.privRx && s in c.urbOf {
      PickupLists(c, s, o);
      PickupConserved(c, s, o);
      PickupLinked(c, s, o);
    }
  }

  lemma ClosedDequeueLists(c: Client, urb: nat)
    requires Ordered(c) && Numbered(c) && Linked(c) && !c.connected && urb in c.hcpriv && urb !in c.marked
    ensures Ordered(Dequeue(c, urb)) && Numbered(Dequeue(c, urb))
    ensures forall x :: Dequeue(c, urb).Queued(x) <==> c.Queued(x) && x != c.hcpriv[urb]
  {
    var s := c.hcpriv[urb];
    RemoveSorted(c.privRx, s);
    RemoveSorted(c.privTx, s);
  }

  lemma ClosedDequeueConserved(c: Client, urb: nat)
    requires Numbered(c) && Conserved(c) && Linked(c) && !c.connected && urb in c.hcpriv && urb !in c.marked
    requires forall x :: Dequeue(c, urb).Queued(x) <==> c.Queued(x) && x != c.hcpriv[urb]
    ensures Conserved(Dequeue(c, urb))
  {
    RemoveSubset(c.privTx, c.hcpriv[urb]);
    RemoveSubset(c.privRx, c.hcpriv[urb]);
  }

  lemma ClosedDequeueLinked(c: Client, urb: nat)
    requires Linked(c) && OneUnlink(c) && !c.connected && urb in c.hcpriv && urb !in c.marked
    requires forall x :: Dequeue(c, urb).Queued(x) <==> c.Queued(x) && x != c.hcpriv[urb]
    ensures Linked(Dequeue(c, urb)) && OneUnlink(Dequeue(c, urb))
  {
  }

  lemma ClosedDequeueInv(c: Client, urb: nat)
    requires Inv(c) && !c.connected && urb in c.hcpriv && urb !in c.marked
    ensures Inv(Dequeue(c, urb))
  {
    ClosedDequeueLists(c, urb);
    ClosedDequeueConserved(c, urb);
    ClosedDequeueLinked(c, urb);
  }

  lemma OpenDequeueLists(c: Client, urb: nat)
    requires Ordered(c) && Numbered(c) && Linked(c) && c.connected && urb in c.hcpriv && urb !in c.marked
    ensures Ordered(Dequeue(c, urb)) && Numbered(Dequeue(c, urb))
  {
    AppendSorted(c.unlinkTx, c.counter + 1);
  }

  lemma OpenDequeueInv(c: Client, urb: nat)
    requires Inv(c) && c.connected && urb in c.hcpriv && urb !in c.marked
    ensures Inv(Dequeue(c, urb))
  {
    var d := Dequeue(c, urb);
    OpenDequeueLists(c, urb);
    assert forall x :: d.Queued(x) <==> c.Queued(x);
  }

  lemma SendSubmitLists(c: Client)
    requires Ordered(c) && Numbered(c)
    ensures Ordered(SendSubmit(c)) && Numbered(SendSubmit(c))
  {
    if c.connected && c.privTx != [] {
      TailMembers(c.privTx);
      AppendSorted(c.privRx, c.privTx[0]);
    }
  }

  lemma SendSubmitInv(c: Client)
    requires Inv(c)
    ensures Inv(SendSubmit(c))
  {
    SendSubmitLists(c);
    if c.connected && c.privTx != [] {
      TailMembers(c.privTx);
      var d := SendSubmit(c);
      assert forall x :: d.Queued(x) <==> c.Queued(x);
    }
  }

  /** A change that keeps the submissions where they are. */
  lemma FrameInv(c: Client, d: Client)
    requires Inv(c)
    requires d.privTx == c.privTx && d.privRx == c.privRx && d.hcpriv == c.hcpriv && d.marked == c.marked
    requires d.urbOf == c.urbOf && d.targetOf == c.targetOf && d.counter >= c.counter
    requires d.held == c.held && d.given == c.given && d.outcome == c.outcome
    requires Sorted(d.unlinkRx) && Sorted(d.unlinkTx) && Below(d.unlinkRx, d.unlinkTx)
    requires forall u :: u in d.unlinkRx || u in d.unlinkTx ==> u in c.targetOf
    requires d.inHand.Some? ==> d.inHand.value.0 in c.targetOf
                                && d.inHand.value.0 !in d.unlinkRx && d.inHand.value.0 !in d.unlinkTx
    ensures Inv(d)
  {
    assert forall x :: d.Queued(x) <==> c.Queued(x);
  }

  lemma SendUnlinkInv(c: Client)
    requires Inv(c)
    ensures Inv(SendUnlink(c))
  {
    if c.connected && c.unlinkTx != [] {
      TailMembers(c.unlinkTx);
      AppendSorted(c.unlinkRx, c.unlinkTx[0]);
      FrameInv(c, SendUnlink(c));
    }
  }

  lemma RecvUnlinkInv(c: Client, u: nat, status: int)
    requires Inv(c)
    ensures Inv(RecvRetUnlink(c, u, status))
  {
    if c.connected && c.inHand.None? && u in c.unlinkRx {
      RemoveSorted(c.unlinkRx, u);
      FrameInv(c, RecvRetUnlink(c, u, status));
    }
  }

  lemma FinishUnlinkInv(c: Client)
    requires Inv(c)
    ensures Inv(FinishUnlink(c))
  {
    if c.inHand.Some? {
      var p := Pickup(c, c.targetOf[c.inHand.value.0], Cancelled(c.inHand.value.1));
      PickupInv(c, c.targetOf[c.inHand.value.0], Cancelled(c.inHand.value.1));
      FrameInv(p, FinishUnlink(c));
    }
  }

  lemma UnlistInv(c: Client)
    requires Inv(c) && c.unlinkRx != []
    ensures Inv(c.(unlinkRx := c.unlinkRx[1..]))
  {
    TailMembers(c.unlinkRx);
    FrameInv(c, c.(unlinkRx := c.unlinkRx[1..]));
  }

  lemma CleanupRxInv(c: Client)
    requires Inv(c)
    ensures Inv(CleanupRx(c))
  {
    if !c.connected && c.unlinkRx != [] {
      assert c.unlinkRx[0] in c.unlinkRx;
      PickupInv(c, c.targetOf[c.unlinkRx[0]], CleanedUp(ENODEV));
      UnlistInv(Pickup(c, c.targetOf[c.unlinkRx[0]], CleanedUp(ENODEV)));
    }
  }

  lemma GivebackInv(c: Client, s: nat)
    requires Inv(c)
    ensures Inv(Giveback(c, s))
  {
    assert forall x :: Giveback(c, s).Queued(x) <==> c.Queued(x);
  }

  lemma ElsewhereInv(c: Client, counter: nat, connected: bool)
    requires Inv(c) && counter >= c.counter
    ensures Inv(c.(counter := counter, connected := connected))
  {
    FrameInv(c, c.(counter := counter, connected := connected));
  }

  lemma CleanupTxInv(c: Client)
    requires Inv(c)
    ensures Inv(CleanupTx(c))
  {
    FrameInv(c, CleanupTx(c));
  }

  lemma DequeueInv(c: Client, urb: nat)
    requires Inv(c)
    ensures Inv(Dequeue(c, urb))
  {
    if urb in c.hcpriv && urb !in c.marked {
      if c.connected { OpenDequeueInv(c, urb); } else { ClosedDequeueInv(c, urb); }
    }
  }

  /** Steps that change no request. */
  lemma OutsideInv(c: Client, step: Step)
    requires Inv(c) && (step.OtherPort? || step.Disconnect? || step.Connect?)
    ensures Inv(Apply(c, step))
  {
    var d := Apply(c, step);
    ElsewhereInv(c, d.counter, d.connected);
  }

  lemma ApplyInv(c: Client, step: Step)
    requires Inv(c)
    ensures Inv(Apply(c, step))
  {
    match step
    case DoEnqueue(urb) => EnqueueInv(c, urb);
    case DoDequeue(urb) => DequeueInv(c, urb);
    case DoSendSubmit => SendSubmitInv(c);
    case DoSendUnlink => SendUnlinkInv(c);
    case DoRecvRetSubmit(s) => PickupInv(c, s, Completed);
    case DoRecvRetUnlink(u, status) => RecvUnlinkInv(c, u, status);
    case DoFinishUnlink => FinishUnlinkInv(c);
    case DoGiveback(s) => GivebackInv(c, s);
    case DoCleanupTx => CleanupTxInv(c);
    case DoCleanupRx => CleanupRxInv(c);
    case _ => OutsideInv(c, step);
  }

  lemma {:induction false} RunInv(c: Client, steps: seq<Step>)
    requires Inv(c)
    ensures Inv(Run(c, steps))
  {
    if steps != [] {
      RunInv(c, steps[..|steps| - 1]);
      ApplyInv(Run(c, steps[..|steps| - 1]), steps[|steps| - 1]);
    }
  }
}
