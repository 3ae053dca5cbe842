/**
 The bounded broadcast of a room's events.  Subscribers receive without the hub's lock; each
 receive is one step, and each turn of publish's loop over the subscribers is atomic.
 */
module EventHub {
  import opened Wrappers

  /** A broadcast and the length of its encoding. */
  datatype Entry<T> = Entry(item: T, size: nat)

  function Sum(s: seq<nat>): nat
  {
    if s == [] then 0 else s[0] + Sum(s[1..])
  }

  lemma {:induction false} SumSplit(s: seq<nat>, k: nat)
    requires k <= |s|
    ensures Sum(s) == Sum(s[..k]) + Sum(s[k..])
    decreases k
  {
    if k == 0 {
      assert s[..0] == [] && s[0..] == s;
    } else {
      SumSplit(s[1..], k - 1);
      assert s[..k][1..] == s[1..][..k - 1] && s[1..][k - 1..] == s[k..];
    }
  }

  lemma SumAppend(s: seq<nat>, x: nat)
    ensures Sum(s + [x]) == Sum(s) + x
  {
    SumSplit(s + [x], |s|);
    assert (s + [x])[..|s|] == s && (s + [x])[|s|..] == [x];
    assert Sum([x]) == x + Sum([]);
  }

  function Sizes<T>(entries: seq<Entry<T>>): (r: seq<nat>)
    ensures |r| == |entries| && forall i :: 0 <= i < |entries| ==> r[i] == entries[i].size
  {
    if entries == [] then [] else [entries[0].size] + Sizes(entries[1..])
  }

  lemma SizesAppend<T>(entries: seq<Entry<T>>, e: Entry<T>)
    ensures Sizes(entries + [e]) == Sizes(entries) + [e.size]
  {
  }

  /** `start` is the length of the broadcast stream when the subscription was made. */
  datatype Subscription<T> = Subscription(
    channel: seq<Entry<T>>,
    sizes: seq<nat>,
    bytes: int,
    closed: bool,
    start: nat,
    received: seq<Entry<T>>)

  class Hub<T> {
    const maxEvents: nat
    const maxBytes: nat
    var subs: map<nat, Subscription<T>>    // every subscription ever made
    var open: set<nat>                     // the hub's own table
    var stream: seq<Entry<T>>              // every broadcast so far; nobody reads it

    /** An open subscription has been given everything since it was made; a closed one, a beginning of it. */
    ghost predicate Faithful(s: Subscription<T>, stream: seq<Entry<T>>)
    {
      && s.start <= |stream|
      && (if s.closed then s.received + s.channel <= stream[s.start..] else s.received + s.channel == stream[s.start..])
    }

    /** The byte counter covers the unread entries, whose lengths are the last ones recorded. */
    ghost predicate Counted(s: Subscription<T>)
    {
      && |s.channel| <= maxEvents
      && Sum(Sizes(s.channel)) <= maxBytes
      && (s.closed ==> s.sizes == [] && s.bytes == 0)
      && (!s.closed ==>
            && |s.channel| <= |s.sizes| && s.sizes[|s.sizes| - |s.channel|..] == Sizes(s.channel)
            && s.bytes == Sum(s.sizes) <= maxBytes)
    }

    ghost predicate Valid()
      reads this
    {
      && open <= subs.Keys
      && (forall id :: id in subs ==> (id in open <==> !subs[id].closed))
      && (forall id :: id in subs ==> Faithful(subs[id], stream) && Counted(subs[id]))
    }

    /** NewHub: a limit out of range falls back to the largest one. */
    constructor (events: int, bytes: int)
      ensures Valid() && stream == [] && subs == map[]
      ensures 1 <= maxEvents <= 256 && (1 <= events <= 256 ==> maxEvents == events)
      ensures 1 <= maxBytes <= 16777216 && (1 <= bytes <= 16777216 ==> maxBytes == bytes)
    {
      maxEvents := if events <= 0 || events > 256 then 256 else events;
      maxBytes := if bytes <= 0 || bytes > 16777216 then 16777216 else bytes;
      subs, open, stream := map[], {}, [];
    }

    method Subscribe(id: nat)
      requires Valid() && id !in subs
      modifies this
      ensures Valid() && stream == old(stream)
      ensures subs == old(subs)[id := Subscription([], [], 0, false, |stream|, [])] && open == old(open) + {id}
    {
      subs := subs[id := Subscription([], [], 0, false, |stream|, [])];
      open := open + {id};
    }

    /** closeLocked; what is already in the channel can still be received. */
    method CloseLocked(id: nat)
      requires Valid() && id in subs
      modifies this
      ensures Valid() && stream == old(stream)
      ensures open == old(open) - {id}
      ensures subs == if old(subs[id]).closed then old(subs) else old(subs)[id := old(subs[id]).(closed := true, sizes := [], bytes := 0)]
    {
      var s := subs[id];
      if !s.closed {
        subs := subs[id := s.(closed := true, sizes := [], bytes := 0)];
        open := open - {id};
      }
    }

    /** The subscriber takes the oldest entry. */
    method Receive(id: nat) returns (e: Entry<T>)
      requires Valid() && id in subs && subs[id].channel != []
      modifies this`subs
      ensures Valid() && stream == old(stream) && open == old(open)
      ensures e == old(subs[id]).channel[0]
      ensures subs == old(subs)[id := old(subs[id]).(channel := old(subs[id]).channel[1..], received := old(subs[id]).received + [e])]
    {
      var s := subs[id];
      e := s.channel[0];
      ReceivedCounted(s);
      ReceivedFaithful(s, stream);
      hide Counted, Faithful;
      subs := subs[id := s.(channel := s.channel[1..], received := s.received + [e])];
    }

    lemma ReceivedFaithful(s: Subscription<T>, stream: seq<Entry<T>>)
      requires Faithful(s, stream) && s.channel != []
      ensures Faithful(s.(channel := s.channel[1..], received := s.received + [s.channel[0]]), stream)
    {
      assert s.received + [s.channel[0]] + s.channel[1..] == s.received + s.channel;
    }

    lemma ReceivedCounted(s: Subscription<T>)
      requires Counted(s) && s.channel != []
      ensures Counted(s.(channel := s.channel[1..], received := s.received + [s.channel[0]]))
    {
      var all := Sizes(s.channel);
      assert all[1..] == Sizes(s.channel[1..]);
      SumSplit(all, 1);
      if !s.closed {
        var k := |s.sizes| - |s.channel|;
        assert s.sizes[k + 1..] == s.sizes[k..][1..];
      }
    }

    /** What one turn of publish's loop makes of an open subscription. */
    ghost function Offered(s: Subscription<T>, e: Entry<T>): Subscription<T>
    {
      if |s.channel| >= maxEvents || Sum(Sizes(s.channel)) + e.size > maxBytes
      then s.(closed := true, sizes := [], bytes := 0)
      else s.(channel := s.channel + [e], sizes := Sizes(s.channel) + [e.size], bytes := Sum(Sizes(s.channel)) + e.size)
    }

    /** publish: a subscriber that cannot take the entry is closed, and every other one gets it. */
    method Publish(item: T, size: nat)
      requires Valid()
      modifies this
      ensures Valid() && stream == old(stream) + [Entry(item, size)]
      ensures subs.Keys == old(subs).Keys
      ensures forall id :: id in subs ==>
                             subs[id] == if id in old(open) then Offered(old(subs[id]), Entry(item, size)) else old(subs[id])
    {
      hide Counted, Offered, Faithful;
      var e := Entry(item, size);
      ghost var was, before := subs, stream;
      OfferAll(e);
      stream := stream + [e];
      forall id | id in subs
        ensures Faithful(subs[id], stream)
      {
        OfferedFaithful(was[id], before, e);
      }
    }

    /** publish's loop over the open subscriptions. */
    method OfferAll(e: Entry<T>)
      requires Valid()
      modifies this`subs, this`open
      ensures subs.Keys == old(subs).Keys && open <= subs.Keys
      ensures forall id :: id in subs ==> (id in open <==> !subs[id].closed) && Counted(subs[id])
      ensures forall id :: id in subs ==> subs[id] == if id in old(open) then Offered(old(subs[id]), e) else old(subs[id])
    {
      hide Counted, Offered, Faithful;
      ghost var was, table := subs, open;
      var rest := open;
      while rest != {}
        invariant rest <= open <= table
        invariant subs.Keys == was.Keys
        invariant forall id :: id in subs ==> (id in open <==> !subs[id].closed) && Counted(subs[id])
        invariant forall id :: id in subs ==> subs[id] == if id in table && id !in rest then Offered(was[id], e) else was[id]
        decreases |rest|
      {
        var id :| id in rest;
        Offer(id, e);
        rest := rest - {id};
      }
    }

    lemma OfferedFaithful(s: Subscription<T>, before: seq<Entry<T>>, e: Entry<T>)
      requires Faithful(s, before)
      ensures Faithful(if s.closed then s else Offered(s, e), before + [e])
    {
      assert (before + [e])[s.start..] == before[s.start..] + [e];
      assert s.received + (s.channel + [e]) == s.received + s.channel + [e];
    }

    lemma OfferedCounted(s: Subscription<T>, e: Entry<T>)
      requires Counted(s) && !s.closed
      ensures Counted(Offered(s, e))
    {
      SizesAppend(s.channel, e);
      SumAppend(Sizes(s.channel), e.size);
      var next := Offered(s, e);
      if !next.closed {
        assert next.sizes == Sizes(next.channel);
        assert next.sizes[|next.sizes| - |next.channel|..] == next.sizes;
      }
    }

    /** One turn of publish's loop. */
    method Offer(id: nat, e: Entry<T>)
      requires id in open && id in subs && !subs[id].closed && Counted(subs[id])
      modifies this`subs, this`open
      ensures subs == old(subs)[id := Offered(old(subs[id]), e)] && Counted(subs[id])
      ensures open == if subs[id].closed then old(open) - {id} else old(open)
    {
      hide Counted, Sum, Sizes;
      OfferedCounted(subs[id], e);
      var s := Trim(subs[id]);
      if |s.channel| >= maxEvents || s.bytes + e.size > maxBytes {
        subs := subs[id := s.(closed := true, sizes := [], bytes := 0)];
        open := open - {id};
        return;
      }
      subs := subs[id := s.(channel := s.channel + [e], sizes := s.sizes + [e.size], bytes := s.bytes + e.size)];
    }

    /** The lengths of entries received since the last broadcast leave the counter. */
    method Trim(s: Subscription<T>) returns (t: Subscription<T>)
      requires Counted(s) && !s.closed
      ensures t == s.(sizes := Sizes(s.channel), bytes := Sum(Sizes(s.channel)))
    {
      var consumed := |s.sizes| - |s.channel|;
      SumSplit(s.sizes, consumed);
      var bytes := s.bytes;
      var i := 0;
      while i < consumed
        invariant 0 <= i <= consumed && bytes == s.bytes - Sum(s.sizes[..i])
      {
        SumAppend(s.sizes[..i], s.sizes[i]);
        assert s.sizes[..i + 1] == s.sizes[..i] + [s.sizes[i]];
        bytes := bytes - s.sizes[i];
        i := i + 1;
      }
      t := s.(sizes := s.sizes[consumed..], bytes := bytes);
    }
  }
}
