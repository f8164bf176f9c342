/** Facts about the kernel's linked lists, modelled as sequences. */
module Lists {

  datatype Option<+T> = None | Some(value: T)

  predicate NoDup<T(==)>(a: seq<T>) {
    forall i, j :: 0 <= i < j < |a| ==> a[i] != a[j]
  }

  /** Strictly increasing: the shape of every list keyed by sequence number. */
  predicate Sorted(a: seq<nat>) {
    forall i, j :: 0 <= i < j < |a| ==> a[i] < a[j]
  }

  predicate Below(a: seq<nat>, b: seq<nat>) {
    forall x, y :: x in a && y in b ==> x < y
  }

  /** list_del of the first entry that carries key x. */
  function Remove(a: seq<nat>, x: nat): seq<nat> {
    if a == [] then [] else if a[0] == x then a[1..] else [a[0]] + Remove(a[1..], x)
  }

  /** b has the members of a other than x. */
  ghost predicate Without(b: seq<nat>, a: seq<nat>, x: nat) {
    forall y :: y in b <==> y in a && y != x
  }

  lemma PrependSorted(x: nat, a: seq<nat>)
    requires Sorted(a) && forall y :: y in a ==> x < y
    ensures Sorted([x] + a)
  {
    var b := [x] + a;
    forall i, j | 0 <= i < j < |b| ensures b[i] < b[j] {
      assert b[j] == a[j - 1] && a[j - 1] in a;
    }
  }

  lemma AppendSorted(a: seq<nat>, x: nat)
    requires Sorted(a) && forall y :: y in a ==> y < x
    ensures Sorted(a + [x])
  {
    var b := a + [x];
    forall i, j | 0 <= i < j < |b| ensures b[i] < b[j] {
      assert b[i] == a[i] && a[i] in a;
    }
  }

  lemma {:induction false} RemoveSorted(a: seq<nat>, x: nat)
    requires Sorted(a)
    ensures Sorted(Remove(a, x))
    ensures Without(Remove(a, x), a, x)
  {
    if a != [] {
      var b := a[1..];
      assert a == [a[0]] + b;
      assert forall y :: y in b ==> a[0] < y;
      RemoveSorted(b, x);
      if a[0] != x {
        PrependSorted(a[0], Remove(b, x));
      }
    }
  }

  lemma {:induction false} RemoveAt(a: seq<nat>, i: nat)
    requires i < |a| && a[i] !in a[..i]
    ensures Remove(a, a[i]) == a[..i] + a[i + 1..]
  {
    if i > 0 {
      assert a[1..][i - 1] == a[i] && a[1..][..i - 1] == a[1..i];
      RemoveAt(a[1..], i - 1);
      assert a[..i] == [a[0]] + a[1..i];
    }
  }

  lemma {:induction false} RemoveSubset(a: seq<nat>, x: nat)
    ensures forall y :: y in Remove(a, x) ==> y in a
  {
    if a != [] {
      RemoveSubset(a[1..], x);
    }
  }

  lemma {:induction false} RemoveAbsent(a: seq<nat>, x: nat)
    requires x !in a
    ensures Remove(a, x) == a
  {
    if a != [] {
      RemoveAbsent(a[1..], x);
    }
  }

  /** Membership of a list whose head moved away. */
  lemma TailMembers<T>(a: seq<T>)
    requires NoDup(a) && a != []
    ensures NoDup(a[1..]) && a[0] !in a[1..]
    ensures forall x :: x in a <==> x == a[0] || x in a[1..]
  {
    assert a == [a[0]] + a[1..];
  }

  lemma HeadAndTail<T>(a: seq<T>)
    requires a != []
    ensures a == [a[0]] + a[1..]
    ensures forall x :: x in a <==> x == a[0] || x in a[1..]
  {
    assert a == [a[0]] + a[1..];
  }

  lemma SortedParts(a: seq<nat>, b: seq<nat>)
    ensures Sorted(a + b) <==> Sorted(a) && Sorted(b) && Below(a, b)
  {
    var c := a + b;
    if Sorted(c) {
      forall i, j | 0 <= i < j < |a| ensures a[i] < a[j] { assert c[i] < c[j]; }
      forall i, j | 0 <= i < j < |b| ensures b[i] < b[j] { assert c[|a| + i] < c[|a| + j]; }
      forall x, y | x in a && y in b ensures x < y {
        var i :| 0 <= i < |a| && a[i] == x;
        var j :| 0 <= j < |b| && b[j] == y;
        assert c[i] < c[|a| + j];
      }
    } else if Sorted(a) && Sorted(b) && Below(a, b) {
      forall i, j | 0 <= i < j < |c| ensures c[i] < c[j] {
        assert i < |a| ==> c[i] == a[i] && a[i] in a;
        assert j >= |a| ==> c[j] == b[j - |a|] && b[j - |a|] in b;
      }
    }
  }
}
