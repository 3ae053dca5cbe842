/** The tail of a child's error output, kept in one fixed buffer. */
module BoundedRing {

  function Last(s: seq<bv8>, n: nat): (r: seq<bv8>)
    ensures |r| == if |s| <= n then |s| else n
  {
    if |s| <= n then s else s[|s| - n..]
  }

  /** Dropping what no longer fits early changes nothing in the end. */
  lemma LastOfLast(a: seq<bv8>, b: seq<bv8>, n: nat)
    ensures Last(Last(a, n) + b, n) == Last(a + b, n)
  {
    if |a| > n {
      assert a + b == a[..|a| - n] + (a[|a| - n..] + b);
    }
  }

  lemma LastOfLong(a: seq<bv8>, b: seq<bv8>, n: nat)
    requires |b| >= n
    ensures Last(a + b, n) == b[|b| - n..]
  {
  }

  lemma LastOfBoth(a: seq<bv8>, b: seq<bv8>, n: nat)
    requires |b| <= n
    ensures Last(a + b, n) == (if |a| + |b| > n then a[|a| + |b| - n..] else a) + b
  {
  }

  class Ring {
    const data: array<bv8>
    var length: nat

    ghost predicate Valid()
      reads this
    {
      length <= data.Length
    }

    ghost function Contents(): (s: seq<bv8>)
      requires Valid()
      reads this, data
      ensures |s| == length
    {
      data[..length]
    }

    constructor (capacity: nat)
      ensures Valid() && fresh(data) && data.Length == capacity && Contents() == []
    {
      data := new bv8[capacity];
      length := 0;
    }

    /** Write: afterwards the buffer holds the last bytes of everything written. */
    method Write(input: seq<bv8>) returns (written: nat)
      requires Valid()
      modifies this`length, data
      ensures Valid() && written == |input|
      ensures Contents() == Last(old(Contents()) + input, data.Length)
    {
      hide Last;
      written := |input|;
      if |input| >= data.Length {
        LastOfLong(Contents(), input, data.Length);
        Put(input[|input| - data.Length..], 0);
        length := data.Length;
        return;
      }
      LastOfBoth(Contents(), input, data.Length);
      if length + |input| > data.Length {
        Shift(length + |input| - data.Length);
      }
      ghost var kept := Contents();
      Put(input, length);
      length := length + |input|;
      assert Contents() == kept + input;
    }

    /** The oldest bytes are dropped, and the others move to the front. */
    method Shift(overflow: nat)
      requires Valid() && overflow <= length
      modifies this`length, data
      ensures Valid() && Contents() == old(Contents())[overflow..]
    {
      ghost var before := data[..];
      var i := 0;
      while i < length - overflow
        invariant 0 <= i <= length - overflow && length == old(length)
        invariant forall k :: 0 <= k < i ==> data[k] == before[k + overflow]
        invariant forall k :: i <= k < data.Length ==> data[k] == before[k]
      {
        data[i] := data[i + overflow];
        i := i + 1;
      }
      length := length - overflow;
    }

    /** Copies the input into the buffer from `at` on. */
    method Put(input: seq<bv8>, at: nat)
      requires at + |input| <= data.Length
      modifies data
      ensures data[..at] == old(data[..at]) && data[at..at + |input|] == input
    {
      var i := 0;
      while i < |input|
        invariant 0 <= i <= |input|
        invariant data[..at] == old(data[..at]) && data[at..at + i] == input[..i]
      {
        data[at + i] := input[i];
        i := i + 1;
      }
    }
  }

  /** What a sequence of writes leaves, as one value. */
  function Kept(writes: seq<seq<bv8>>, n: nat): seq<bv8>
  {
    if writes == [] then [] else Last(Kept(writes[..|writes| - 1], n) + writes[|writes| - 1], n)
  }

  function All(writes: seq<seq<bv8>>): seq<bv8>
  {
    if writes == [] then [] else All(writes[..|writes| - 1]) + writes[|writes| - 1]
  }

  /** However the output was cut into writes, its last bytes are kept. */
  lemma {:induction false} KeepsTheTail(writes: seq<seq<bv8>>, n: nat)
    ensures Kept(writes, n) == Last(All(writes), n)
    decreases |writes|
  {
    if writes != [] {
      var most := writes[..|writes| - 1];
      KeepsTheTail(most, n);
      LastOfLast(All(most), writes[|writes| - 1], n);
    }
  }
}
