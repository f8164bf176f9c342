/** What the two servers share: a list of held requests, searched by sequence number. */
module Servers {
  import P = Protocol

  /** The scan of a CMD_UNLINK: the first entry with this sequence number, or the end. */
  function Find(q: seq<P.Entry>, t: nat): (i: nat)
    ensures i <= |q| && (i < |q| ==> q[i].seqnum == t)
    ensures forall j :: 0 <= j < i ==> q[j].seqnum != t
  {
    if q == [] || q[0].seqnum == t then 0 else 1 + Find(q[1..], t)
  }

  ghost predicate Distinct(q: seq<P.Entry>) {
    forall i, j :: 0 <= i < j < |q| ==> q[i].seqnum != q[j].seqnum
  }

  lemma Dropped<T>(a: seq<T>, i: nat, x: T)
    requires i < |a| && forall j :: 0 <= j < |a| && j != i ==> a[j] != a[i]
    ensures x in a[..i] + a[i + 1..] <==> x in a && x != a[i]
  {
    if x in a && x != a[i] {
      var j :| 0 <= j < |a| && a[j] == x;
      assert j < i ==> a[..i][j] == x;
      assert j > i ==> a[i + 1..][j - i - 1] == x;
    }
  }

  lemma Replaced<T>(a: seq<T>, i: nat, y: T, x: T)
    requires i < |a| && forall j :: 0 <= j < |a| && j != i ==> a[j] != a[i]
    ensures x in a[i := y] <==> x == y || (x in a && x != a[i])
  {
    var b := a[i := y];
    assert b[i] == y;
    if x in a && x != a[i] {
      var j :| 0 <= j < |a| && a[j] == x;
      assert b[j] == x;
    }
  }

  /** Both servers do the same to that list. */
  function QueueAfter(q: seq<P.Entry>, cmd: P.Cmd): seq<P.Entry> {
    match cmd
    case CmdSubmit(s) => q + [P.Entry(s, false)]
    case CmdUnlink(u, t) => if Find(q, t) < |q| then q[Find(q, t) := P.Entry(u, true)] else q
  }

  /** An unlink whose target is not held is answered at once. */
  predicate Misses(q: seq<P.Entry>, cmd: P.Cmd) { cmd.CmdUnlink? && Find(q, cmd.target) == |q| }

  ghost predicate SameQueue(q: seq<P.Entry>, a: P.Sys) {
    Distinct(q) && forall e :: e in a.queue <==> e in q
  }

  /** What the scan finds is the live request, when the number belongs to a submission. */
  lemma FoundIsLive(q: seq<P.Entry>, a: P.Sys, t: nat)
    requires SameQueue(q, a) && P.Unlinks(a) && t !in a.c.targetOf
    ensures var i := Find(q, t);
            if i < |q| then q[i] == P.Entry(t, false) else P.Entry(t, false) !in a.queue
  {
    var i := Find(q, t);
    if i < |q| {
      assert q[i] in a.queue;
    }
  }

  lemma SubmitQueue(q: seq<P.Entry>, a: P.Sys, s: nat)
    requires SameQueue(q, a) && P.Submits(a) && P.Unlinks(a) && P.Names(a.c) && P.CmdSubmit(s) in a.up
    ensures SameQueue(q + [P.Entry(s, false)], a.(queue := a.queue + {P.Entry(s, false)}))
  {
    forall j | 0 <= j < |q| ensures q[j].seqnum != s {
      assert q[j] in a.queue;
    }
  }

  /** A matched request takes over the unlink's number. */
  lemma UnlinkQueue(q: seq<P.Entry>, a: P.Sys, u: nat, t: nat, i: nat)
    requires SameQueue(q, a) && P.Submits(a) && P.Unlinks(a) && P.Names(a.c) && P.CmdUnlink(u, t) in a.up
    requires i < |q| && q[i] == P.Entry(t, false)
    ensures SameQueue(q[i := P.Entry(u, true)], a.(queue := a.queue - {P.Entry(t, false)} + {P.Entry(u, true)}))
  {
    forall j | 0 <= j < |q| ensures q[j].seqnum != u {
      assert q[j] in a.queue;
    }
    forall e ensures e in q[i := P.Entry(u, true)] <==> e == P.Entry(u, true) || (e in q && e != P.Entry(t, false)) {
      Replaced(q, i, P.Entry(u, true), e);
    }
  }

  lemma RecvQueue(q: seq<P.Entry>, a: P.Sys, cmd: P.Cmd)
    requires SameQueue(q, a) && P.Submits(a) && P.Unlinks(a) && P.Names(a.c) && a.up != [] && a.up[0] == cmd
    ensures SameQueue(QueueAfter(q, cmd), P.DoServerRecv(a))
    ensures cmd.CmdUnlink? ==> (Misses(q, cmd) <==> P.Entry(cmd.target, false) !in a.queue)
  {
    assert cmd in a.up;
    match cmd
    case CmdSubmit(s) => SubmitQueue(q, a, s);
    case CmdUnlink(u, t) =>
      FoundIsLive(q, a, t);
      if Find(q, t) < |q| {
        UnlinkQueue(q, a, u, t, Find(q, t));
      }
  }

  lemma CompleteQueue(q: seq<P.Entry>, a: P.Sys, i: nat, status: int)
    requires SameQueue(q, a) && i < |q|
    ensures q[i] in a.queue && SameQueue(q[..i] + q[i + 1..], P.DoComplete(a, q[i], status))
  {
    forall e ensures e in q[..i] + q[i + 1..] <==> e in q && e != q[i] {
      Dropped(q, i, e);
    }
  }
}
