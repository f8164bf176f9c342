/** The index of USB names: chained hash tables that must agree with a plain map. */
module Names {
  import opened Lists

  const HASHSZ := 16

  // ---------------------------------------------------------------------------------------------
  // hashnum.
  // ---------------------------------------------------------------------------------------------

  /** The fold: each set bit from the top down to 0x10 flips the bit three places below it. */
  function Fold(num: bv32, mask1: bv32, mask2: bv32): bv32
    decreases mask1
  {
    if mask1 < 0x10 then num else
    Halves(mask1);
    Fold(if num & mask1 != 0 then num ^ mask2 else num, mask1 >> 1, mask2 >> 1)
  }

  lemma Halves(m: bv32)
    requires m != 0
    ensures m >> 1 < m
  {
  }

  lemma LowNibble(x: bv32)
    ensures (x & 0xF) as int < HASHSZ
  {
    assert x & 0xF < 16;
  }

  function Hash(num: bv32): (h: nat)
    ensures h < HASHSZ
  {
    LowNibble(Fold(num, 0x8000_0000, 0x1000_0000));
    (Fold(num, 0x8000_0000, 0x1000_0000) & 0xF) as nat
  }

  method HashNum(num: bv32) returns (h: nat)
    ensures h == Hash(num) && h < HASHSZ
  {
    var n, mask1, mask2: bv32 := num, 0x8000_0000, 0x1000_0000;
    while mask1 >= 0x10
      invariant Fold(n, mask1, mask2) == Fold(num, 0x8000_0000, 0x1000_0000)
      decreases mask1
    {
      if n & mask1 != 0 { n := n ^ mask2; }
      Halves(mask1);
      mask1, mask2 := mask1 >> 1, mask2 >> 1;
    }
    LowNibble(n);
    h := (n & 0xF) as nat;
  }

  // ---------------------------------------------------------------------------------------------
  // The five kinds of keys and how they are packed into a word.
  // ---------------------------------------------------------------------------------------------

  datatype Key =
    | Vendor(vendor: bv16)
    | Product(vendor: bv16, product: bv16)
    | Class(class_: bv8)
    | Subclass(class_: bv8, subclass: bv8)
    | Protocol(class_: bv8, subclass: bv8, protocol: bv8)

  function Pack(k: Key): bv32 {
    match k
    case Vendor(v) => v as bv32
    case Product(v, p) => (v as bv32 << 16) | p as bv32
    case Class(c) => c as bv32
    case Subclass(c, s) => (c as bv32 << 8) | s as bv32
    case Protocol(c, s, p) => (c as bv32 << 16) | (s as bv32 << 8) | p as bv32
  }

  function Bucket(k: Key): (h: nat)
    ensures h < HASHSZ
  {
    Hash(Pack(k))
  }

  // ---------------------------------------------------------------------------------------------
  // A table: sixteen chains, new nodes at the front.
  // ---------------------------------------------------------------------------------------------

  datatype Chain = Nil | Node(key: Key, name: string, next: Chain)

  type Table = t: seq<Chain> | |t| == HASHSZ witness seq(HASHSZ, _ => Nil)

  function Empty(): Table { seq(HASHSZ, _ => Nil) }

  function Find(c: Chain, k: Key): Option<string> {
    match c
    case Nil => None
    case Node(key, name, next) => if key == k then Some(name) else Find(next, k)
  }

  function Lookup(t: Table, k: Key): Option<string> { Find(t[Bucket(k)], k) }

  /** new_vendor and its four siblings; memory says whether the allocation succeeds. */
  function Insert(t: Table, k: Key, name: string, memory: bool): (Table, bool) {
    if Lookup(t, k).Some? || !memory then (t, false)
    else (t[Bucket(k) := Node(k, name, t[Bucket(k)])], true)
  }

  datatype Call = Call(key: Key, name: string, memory: bool)

  function After(calls: seq<Call>): Table {
    if calls == [] then Empty() else
    var c := calls[|calls| - 1];
    Insert(After(calls[..|calls| - 1]), c.key, c.name, c.memory).0
  }

  function Result(calls: seq<Call>, i: nat): bool
    requires i < |calls|
  {
    Insert(After(calls[..i]), calls[i].key, calls[i].name, calls[i].memory).1
  }

  /** What a plain map would hold: the first insertion of a key that found memory. */
  function First(calls: seq<Call>, k: Key): Option<string> {
    if calls == [] then None
    else if calls[0].key == k && calls[0].memory then Some(calls[0].name)
    else First(calls[1..], k)
  }

  lemma {:induction false} FirstOfMore(calls: seq<Call>, c: Call, k: Key)
    ensures First(calls + [c], k) ==
            if First(calls, k).Some? then First(calls, k)
            else if c.key == k && c.memory then Some(c.name) else None
  {
    if calls == [] {
      assert calls + [c] == [c] && [c][1..] == [];
    } else {
      FirstOfMore(calls[1..], c, k);
      assert (calls + [c])[1..] == calls[1..] + [c];
    }
  }

  /** After every sequence of insertions a lookup finds what the first one put there, and nothing else. */
  lemma {:induction false} LookupIsFirst(calls: seq<Call>, k: Key)
    ensures Lookup(After(calls), k) == First(calls, k)
  {
    if calls != [] {
      var front, c := calls[..|calls| - 1], calls[|calls| - 1];
      LookupIsFirst(front, k);
      LookupIsFirst(front, c.key);
      FirstOfMore(front, c, k);
      assert calls == front + [c];
    }
  }

  /** An insertion is refused exactly when its key is already there, or there is no memory. */
  lemma DuplicatesRefused(calls: seq<Call>, i: nat)
    requires i < |calls|
    ensures Result(calls, i) <==> First(calls[..i], calls[i].key).None? && calls[i].memory
  {
    LookupIsFirst(calls[..i], calls[i].key);
  }

  // ---------------------------------------------------------------------------------------------
  // The bucket arrays themselves.
  // ---------------------------------------------------------------------------------------------

  /** One bucket array; the source has one for each kind of key. */
  class NameIndex {
    const buckets: array<Chain>

    constructor ()
      ensures fresh(buckets) && buckets.Length == HASHSZ && buckets[..] == Empty()
    {
      buckets := new Chain[HASHSZ](_ => Nil);
      new;
      assert buckets[..] == Empty();
    }

    /** names_vendor and its siblings. */
    method Name(k: Key) returns (r: Option<string>)
      requires buckets.Length == HASHSZ
      ensures r == Lookup(buckets[..], k)
    {
      var h := HashNum(Pack(k));
      var c := buckets[h];
      while c.Node?
        invariant Find(c, k) == Lookup(buckets[..], k)
        decreases c
      {
        if c.key == k { return Some(c.name); }
        c := c.next;
      }
      r := None;
    }

    /** new_vendor and its siblings. */
    method New(k: Key, name: string, memory: bool) returns (ok: bool)
      requires buckets.Length == HASHSZ
      modifies buckets
      ensures (buckets[..], ok) == Insert(old(buckets[..]), k, name, memory)
    {
      var h := HashNum(Pack(k));
      var c := buckets[h];
      while c.Node?
        invariant Find(c, k) == Lookup(buckets[..], k) && buckets[..] == old(buckets[..])
        decreases c
      {
        if c.key == k { return false; }
        c := c.next;
      }
      if !memory { return false; }
      buckets[h] := Node(k, name, buckets[h]);
      ok := true;
    }
  }
}
