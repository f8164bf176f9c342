/** struct vhci_device and the code that works on its lists, proved against module Client. */
module VhciDevices {
  import opened Lists
  import opened Errno
  import C = Client
  import P = Protocol
  import opened Transmit
  import ClientTheorems

  class VhciDevice {
    var counter: nat
    var urbOf: map<nat, nat>
    var targetOf: map<nat, nat>
    var privTx: seq<nat>
    var privRx: seq<nat>
    var unlinkTx: seq<nat>
    var unlinkRx: seq<nat>
    var hcpriv: map<nat, nat>
    var marked: set<nat>
    var connected: bool
    var inHand: Option<(nat, int)>
    var held: set<nat>
    var given: seq<nat>
    var outcome: map<nat, C.Outcome>

    ghost function State(): C.Client
      reads this
    {
      C.Client(counter, urbOf, targetOf, privTx, privRx, unlinkTx, unlinkRx, hcpriv, marked, connected, inHand,
               held, given, outcome)
    }

    /**
     Every listed record exists: the part of Client.Inv that the code relies on.  Each method equals a
     step of module Client, and those keep all of Client.Inv.
     */
    ghost predicate Valid()
      reads this
    {
      && (forall s :: s in privTx || s in privRx ==> s in urbOf)
      && (forall u :: u in unlinkTx || u in unlinkRx ==> u in targetOf)
    }

    constructor ()
      ensures Valid() && State() == C.Initial
    {
      counter, urbOf, targetOf := 0, map[], map[];
      privTx, privRx, unlinkTx, unlinkRx := [], [], [], [];
      hcpriv, marked, connected, inHand := map[], {}, true, None;
      held, given, outcome := {}, [], map[];
    }

    /** vhci_tx_urb. */
    method TxUrb(urb: nat)
      requires Valid()
      modifies this
      ensures Valid() && State() == C.Enqueue(old(State()), urb)
    {
      if urb in hcpriv { return; }
      counter := counter + 1;
      urbOf := urbOf[counter := urb];
      hcpriv := hcpriv[urb := counter];
      marked := marked - {urb};
      privTx := privTx + [counter];
    }

    /** list_del of the record of s, from whichever list it is on. */
    method Unlist(s: nat)
      modifies this`privTx, this`privRx
      ensures privTx == Remove(old(privTx), s) && privRx == Remove(old(privRx), s)
    {
      privTx := Delete(privTx, s);
      privRx := Delete(privRx, s);
    }

    static method Delete(list: seq<nat>, s: nat) returns (r: seq<nat>)
      ensures r == Remove(list, s)
    {
      for i := 0 to |list|
        invariant s !in list[..i]
      {
        if list[i] == s {
          RemoveAt(list, i);
          return list[..i] + list[i + 1..];
        }
      }
      RemoveAbsent(list, s);
      return list;
    }

    /** vhci_urb_dequeue. */
    method UrbDequeue(urb: nat) returns (accepted: bool)
      requires Valid()
      modifies this
      ensures Valid() && State() == C.Dequeue(old(State()), urb)
      ensures accepted <==> urb in old(hcpriv) && urb !in old(marked)
    {
      accepted := urb in hcpriv && urb !in marked;
      if !accepted { return; }
      var s := hcpriv[urb];
      marked := marked + {urb};
      if !connected {
        RemoveSubset(privTx, s);
        RemoveSubset(privRx, s);
        Unlist(s);
        hcpriv := hcpriv - {urb};
        held := held + {s};
        outcome := outcome[s := C.Closed];
      } else {
        counter := counter + 1;
        targetOf := targetOf[counter := s];
        unlinkTx := unlinkTx + [counter];
      }
    }

    /** vhci_send_cmd_submit: drains priv_tx, one lock section per entry. */
    method SendCmdSubmit() returns (pdus: seq<P.Cmd>)
      modifies this`privTx, this`privRx
      ensures privTx == [] && privRx == old(privRx + privTx) && pdus == SubmitPdus(old(privTx))
    {
      pdus := [];
      while privTx != []
        invariant privRx + privTx == old(privRx + privTx)
        invariant pdus + SubmitPdus(privTx) == SubmitPdus(old(privTx))
        decreases |privTx|
      {
        var s := privTx[0];
        var pdu := P.CmdSubmit(s);
        assert pdus + ([pdu] + SubmitPdus(privTx[1..])) == pdus + [pdu] + SubmitPdus(privTx[1..]);
        assert privRx + [s] + privTx[1..] == privRx + privTx;
        privTx, privRx := privTx[1..], privRx + [s];
        pdus := pdus + [pdu];
      }
    }

    /** vhci_send_cmd_unlink. */
    method SendCmdUnlink() returns (pdus: seq<P.Cmd>)
      requires forall u :: u in unlinkTx ==> u in targetOf
      modifies this`unlinkTx, this`unlinkRx
      ensures unlinkTx == [] && unlinkRx == old(unlinkRx + unlinkTx) && pdus == UnlinkPdus(old(unlinkTx), targetOf)
    {
      pdus := [];
      while unlinkTx != []
        invariant unlinkRx + unlinkTx == old(unlinkRx + unlinkTx)
        invariant pdus + UnlinkPdus(unlinkTx, targetOf) == UnlinkPdus(old(unlinkTx), targetOf)
        invariant forall u :: u in unlinkTx ==> u in targetOf
        decreases |unlinkTx|
      {
        var u := unlinkTx[0];
        var pdu := P.CmdUnlink(u, targetOf[u]);
        assert pdus + ([pdu] + UnlinkPdus(unlinkTx[1..], targetOf)) == pdus + [pdu] + UnlinkPdus(unlinkTx[1..], targetOf);
        assert unlinkRx + [u] + unlinkTx[1..] == unlinkRx + unlinkTx;
        unlinkTx, unlinkRx := unlinkTx[1..], unlinkRx + [u];
        pdus := pdus + [pdu];
      }
    }

    /** One undisturbed round of vhci_tx_loop. */
    method TxPass() returns (pdus: seq<P.Cmd>)
      requires Valid()
      modifies this
      ensures State() == AfterPass(old(State())) && pdus == PassPdus(old(State()))
    {
      var a := SendCmdSubmit();
      var b := SendCmdUnlink();
      pdus := a + b;
    }

    /** pickup_urb_and_free_priv. */
    method PickupUrb(seqnum: nat, o: C.Outcome) returns (found: bool)
      requires Valid()
      modifies this
      ensures Valid() && State() == C.Pickup(old(State()), seqnum, o) && (found <==> seqnum in old(privRx))
    {
      for i := 0 to |privRx|
        invariant State() == old(State()) && seqnum !in privRx[..i]
      {
        if privRx[i] == seqnum {
          RemoveAt(privRx, i);
          assert seqnum in privRx && seqnum in urbOf;
          privRx := privRx[..i] + privRx[i + 1..];
          hcpriv := hcpriv - {urbOf[seqnum]};
          held := held + {seqnum};
          outcome := outcome[seqnum := o];
          return true;
        }
      }
      return false;
    }

    /** dequeue_pending_unlink: the record leaves unlink_rx for the receiver's hand. */
    method DequeuePendingUnlink(seqnum: nat, status: int) returns (found: bool)
      requires Valid() && connected && inHand.None?
      modifies this
      ensures Valid() && State() == C.RecvRetUnlink(old(State()), seqnum, status)
      ensures found <==> seqnum in old(unlinkRx)
    {
      for i := 0 to |unlinkRx|
        invariant State() == old(State()) && seqnum !in unlinkRx[..i]
      {
        if unlinkRx[i] == seqnum {
          RemoveAt(unlinkRx, i);
          assert seqnum in unlinkRx;
          unlinkRx := unlinkRx[..i] + unlinkRx[i + 1..];
          inHand := Some((seqnum, status));
          return true;
        }
      }
      return false;
    }

    /** usb_hcd_giveback_urb. */
    method GivebackUrb(s: nat)
      requires Valid()
      modifies this
      ensures Valid() && State() == C.Giveback(old(State()), s)
    {
      if s in held {
        held := held - {s};
        given := given + [s];
      }
    }

    /** vhci_recv_ret_submit; a false result is the "cannot find" branch. */
    method RecvRetSubmit(s: nat) returns (found: bool)
      requires Valid() && connected && inHand.None?
      modifies this
      ensures Valid() && State() == C.Giveback(C.RecvRetSubmit(old(State()), s), s) && (found <==> s in old(privRx))
    {
      found := PickupUrb(s, C.Completed);
      GivebackUrb(s);
    }

    /** vhci_recv_ret_unlink; a false result is the "cannot find" branch. */
    method RecvRetUnlink(u: nat, status: int) returns (found: bool)
      requires Valid() && connected && inHand.None?
      modifies this
      ensures Valid() && (found <==> u in old(unlinkRx))
      ensures !found ==> State() == old(State())
      ensures found ==> u in old(targetOf)
      ensures found ==>
                var t := old(targetOf)[u];
                var d := C.FinishUnlink(C.RecvRetUnlink(old(State()), u, status));
                State() == if t in old(privRx) then C.Giveback(d, t) else d
    {
      found := DequeuePendingUnlink(u, status);
      if found {
        var t := targetOf[u];
        var picked := PickupUrb(t, C.Cancelled(status));
        inHand := None;
        if picked {
          GivebackUrb(t);
        }
      }
    }

    /** One section of another thread, on a closed connection. */
    method Act(o: ClientTheorems.Other)
      requires Valid() && !connected
      modifies this
      ensures Valid() && State() == ClientTheorems.Acted(old(State()), o)
    {
      match o {
        case Submit(urb) => TxUrb(urb);
        case Unlink(urb) => var accepted := UrbDequeue(urb);
        case GiveBack(s) => GivebackUrb(s);
      }
    }

    /** What other threads do while cleanup has dropped its locks. */
    method Elsewhere(acts: seq<ClientTheorems.Other>)
      requires Valid() && !connected
      modifies this
      ensures Valid() && State() == ClientTheorems.AllActed(old(State()), acts)
    {
      for k := 0 to |acts|
        invariant Valid() && !connected
        invariant ClientTheorems.AllActed(State(), acts[k..]) == ClientTheorems.AllActed(old(State()), acts)
      {
        assert acts[k..][1..] == acts[k + 1..];
        Act(acts[k]);
      }
      assert acts[|acts|..] == [];
    }

    /**
     vhci_device_unlink_cleanup; others[k] is what happens elsewhere while the locks are dropped in round
     k.  It terminates, whatever that is, with both unlink lists empty.
     */
    method UnlinkCleanup(others: seq<seq<ClientTheorems.Other>>)
      requires Valid() && !connected
      modifies this
      ensures Valid() && State() == ClientTheorems.CleanupAmid(C.CleanupTx(old(State())), others)
      ensures unlinkTx == [] && unlinkRx == []
    {
      while unlinkTx != []
        invariant State() == old(State()).(unlinkTx := unlinkTx)
        decreases |unlinkTx|
      {
        unlinkTx := unlinkTx[1..];
      }
      var rest := others;
      while unlinkRx != []
        invariant Valid() && !connected && unlinkTx == []
        invariant ClientTheorems.CleanupAmid(State(), rest) == ClientTheorems.CleanupAmid(C.CleanupTx(old(State())), others)
        decreases |unlinkRx|
      {
        assert unlinkRx[0] in unlinkRx;
        CleanupEntry(targetOf[unlinkRx[0]]);
        if rest != [] {
          ClientTheorems.ActedFrame(State(), rest[0]);
          Elsewhere(rest[0]);
          rest := rest[1..];
        }
      }
    }

    /** The body of its second loop. */
    method CleanupEntry(t: nat)
      requires Valid() && !connected && unlinkRx != [] && unlinkRx[0] in targetOf && t == targetOf[unlinkRx[0]]
      modifies this
      ensures Valid() && State() == ClientTheorems.CleanupRound(old(State()))
    {
      var picked := PickupUrb(t, C.CleanedUp(ENODEV));
      unlinkRx := unlinkRx[1..];
      if picked {
        GivebackUrb(t);
      }
    }
  }
}
