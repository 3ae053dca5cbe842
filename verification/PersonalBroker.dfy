/**
 Requests that only the sender of the current turn may answer.  A request is found by a key that
 stands for the digest of its content within a turn; every block under the broker's lock is one method.
 */
module PersonalBroker {
  import opened Wrappers

  datatype Answer = Receipt(content: nat) | Refused | TurnOver | CallEnded

  /** `epoch` counts the bindings and invalidations before the request was made. */
  datatype Request = Request(
    key: nat, epoch: nat, uid: nat, client: nat,
    result: Option<Answer>,
    closed: nat,                // times the ready channel was closed
    claimants: set<nat>)        // every client instance the request was ever given to

  datatype Refusal = WrongTurn | Unavailable | TooMany | BadClient | NotYours | Malformed

  const MAX_REQUESTS: nat := 8

  ghost predicate RequestOk(r: Request)
  {
    && r.closed == (if r.result.Some? then 1 else 0)
    && r.claimants == (if r.client == 0 then {} else {r.client})
  }

  /** Results, once given, and claimants, once set, never change. */
  predicate Kept(before: seq<Request>, after: seq<Request>)
  {
    && |before| <= |after|
    && forall i :: 0 <= i < |before| ==>
                     && after[i].key == before[i].key && after[i].epoch == before[i].epoch && after[i].uid == before[i].uid
                     && (before[i].result.Some? ==> after[i].result == before[i].result)
                     && (before[i].client != 0 ==> after[i].client == before[i].client)
  }

  /** The turn is over for a request that had no answer. */
  function Closed(r: Request): Request
  {
    r.(result := Some(TurnOver), closed := r.closed + 1)
  }

  /** The unresolved requests whose keys are no longer in `rest` were closed, and nothing else changed. */
  predicate Over(was: seq<Request>, now: seq<Request>, rest: set<nat>)
  {
    && |now| == |was|
    && forall i :: 0 <= i < |was| ==> now[i] == if was[i].result.None? && was[i].key !in rest then Closed(was[i]) else was[i]
  }

  lemma NothingOver(was: seq<Request>, keys: set<nat>)
    requires forall i :: 0 <= i < |was| && was[i].result.None? ==> was[i].key in keys
    ensures Over(was, was, keys)
  {
  }

  lemma OverStep(was: seq<Request>, now: seq<Request>, rest: set<nat>, k: nat, i: nat)
    requires Over(was, now, rest) && k in rest && i < |was| && was[i].key == k
    requires forall j :: 0 <= j < |was| && was[j].result.None? && was[j].key == k ==> j == i
    ensures i < |now| && Over(was, if now[i].result.None? then now[i := Closed(now[i])] else now, rest - {k})
  {
  }

  class Broker {
    var personal: bool
    var capability: nat           // 0: none
    var actor: nat
    var epoch: nat
    var table: map<nat, nat>      // requests of the current epoch, by key
    var requests: seq<Request>    // every request ever made

    ghost predicate Valid()
      reads this
    {
      && (forall k :: k in table ==> table[k] < |requests| && Belongs(requests[table[k]], k))
      && (forall i :: 0 <= i < |requests| ==> RequestOk(requests[i]) && requests[i].epoch <= epoch)
      && (forall i :: 0 <= i < |requests| && requests[i].result.None? ==> Current(i))
    }

    predicate Belongs(r: Request, key: nat)
      reads this
    {
      r.key == key && r.epoch == epoch && r.uid == actor
    }

    /** The request belongs to the current turn, and its sender is the actor. */
    predicate Current(i: nat)
      requires i < |requests|
      reads this
    {
      requests[i].epoch == epoch && requests[i].uid == actor && requests[i].key in table && table[requests[i].key] == i
    }

    constructor ()
      ensures Valid() && requests == [] && !personal
    {
      personal, capability, actor, epoch, table, requests := false, 0, 0, 0, map[], [];
    }

    /** invalidateLocked: everything unresolved is resolved as over, and the table is emptied. */
    method Invalidate()
      requires Valid()
      modifies this
      ensures Valid() && Kept(old(requests), requests) && |requests| == |old(requests)|
      ensures table == map[] && capability == 0 && epoch == old(epoch) + 1
      ensures unchanged(`actor) && unchanged(`personal)
      ensures forall i :: 0 <= i < |requests| ==> requests[i].result.Some?
      ensures forall i :: 0 <= i < |requests| && old(requests)[i].result.None? ==> requests[i].result == Some(TurnOver)
    {
      ghost var was := requests;
      capability := 0;
      ResolveAll();
      table := map[];
      epoch := epoch + 1;
      forall i | 0 <= i < |requests|
        ensures RequestOk(requests[i]) && requests[i].result.Some?
      {
        assert RequestOk(was[i]);
      }
    }

    /** The loop of invalidateLocked. */
    method ResolveAll()
      requires Valid()
      modifies this`requests
      ensures Over(old(requests), requests, {})
    {
      hide RequestOk, Over;
      ghost var was := requests;
      NothingOver(was, table.Keys);
      var rest := table.Keys;
      while rest != {}
        invariant rest <= table.Keys && Over(was, requests, rest)
        decreases |rest|
      {
        var k :| k in rest;
        var i := table[k];
        OverStep(was, requests, rest, k, i);
        if requests[i].result.None? {
          requests := requests[i := Closed(requests[i])];
        }
        rest := rest - {k};
      }
    }

    /** Bind: a new turn; `nonce` becomes its secret. */
    method Bind(sender: nat, nonce: nat) returns (secret: nat)
      requires Valid() && nonce != 0
      modifies this
      ensures Valid() && Kept(old(requests), requests) && |requests| == |old(requests)|
      ensures table == map[] && actor == sender && personal == old(personal)
      ensures forall i :: 0 <= i < |requests| ==> requests[i].result.Some? && requests[i].epoch < epoch
      ensures secret == capability == (if personal then nonce else 0)
    {
      Invalidate();
      actor := sender;
      if !personal {
        return 0;
      }
      capability := nonce;
      return nonce;
    }

    /** SetMode and the end of ChangeMode. */
    method SetMode(mode: bool)
      requires Valid()
      modifies this
      ensures Valid() && Kept(old(requests), requests) && personal == mode
      ensures mode != old(personal) ==> table == map[] && forall i :: 0 <= i < |requests| ==> requests[i].result.Some?
    {
      if personal != mode {
        Invalidate();
        personal := mode;
      }
    }

    predicate Usable(checked: bool)
      reads this
    {
      personal && capability != 0 && checked
    }

    /** callTarget up to its wait: the request of this content, made once in a turn. */
    method Enter(secret: nat, key: nat, checked: bool) returns (r: Result<nat, Refusal>)
      requires Valid()
      modifies this`table, this`requests
      ensures Valid() && Kept(old(requests), requests)
      ensures r.Success? ==> r.value < |requests| && Current(r.value) && requests[r.value].key == key
      ensures r.Success? && key in old(table) ==> r.value == old(table)[key] && requests == old(requests)
      ensures r.Failure? ==> requests == old(requests) && table == old(table)
    {
      if secret == 0 || secret != capability {
        return Failure(WrongTurn);
      }
      if !Usable(checked) {
        return Failure(Unavailable);
      }
      if key in table {
        return Success(table[key]);
      }
      if |table| >= MAX_REQUESTS {
        return Failure(TooMany);
      }
      requests := requests + [Request(key, epoch, actor, 0, None, 0, {})];
      table := table[key := |requests| - 1];
      return Success(|requests| - 1);
    }

    /** The caller's context or its timer ends before an answer. */
    method Abandon(i: nat)
      requires Valid() && i < |requests|
      modifies this`requests
      ensures Valid() && Kept(old(requests), requests) && |requests| == |old(requests)|
      ensures requests[i].result.Some? && (old(requests)[i].result.None? ==> requests[i].result == Some(CallEnded))
    {
      if requests[i].result.None? {
        requests := requests[i := requests[i].(result := Some(CallEnded), closed := requests[i].closed + 1)];
      }
    }

    /** Next: one client instance claims a request for good; a second call finds its own claim first. */
    method Next(uid: nat, client: nat, checked: bool) returns (r: Result<Option<nat>, Refusal>)
      requires Valid()
      modifies this`requests
      ensures Valid() && Kept(old(requests), requests) && |requests| == |old(requests)|
      ensures r.Success? && r.value.Some? ==>
                var i := r.value.value;
                && i < |requests| && Current(i) && uid == actor && requests[i].result.None?
                && requests[i].client == client && requests[i].claimants == {client}
                && (old(requests)[i].client == 0 || old(requests)[i].client == client)
      ensures !(r.Success? && r.value.Some?) ==> requests == old(requests)
    {
      if client == 0 {
        return Failure(BadClient);
      }
      if !Usable(checked) || uid != actor {
        return Success(None);
      }
      var own := Search(uid, client, false);
      if own.Some? {
        return Success(own);
      }
      var open := Search(uid, client, true);
      if open.Some? {
        var i := open.value;
        requests := requests[i := requests[i].(client := client, claimants := requests[i].claimants + {client})];
      }
      return Success(open);
    }

    /** Next's loops: an unresolved request of the sender that this client holds, or may take. */
    method Search(uid: nat, client: nat, unclaimed: bool) returns (found: Option<nat>)
      requires Valid()
      ensures found.Some? ==>
                var i := found.value;
                && i < |requests| && Current(i) && requests[i].uid == uid && requests[i].result.None?
                && (requests[i].client == client || (unclaimed && requests[i].client == 0))
    {
      var rest := table.Keys;
      while rest != {}
        invariant rest <= table.Keys
        decreases |rest|
      {
        var k :| k in rest;
        rest := rest - {k};
        var p := requests[table[k]];
        if p.uid == uid && p.result.None? && (p.client == client || (unclaimed && p.client == 0)) {
          return Some(table[k]);
        }
      }
      return None;
    }

    /** Resolve: the claimant's answer, once; `answer` is None when the receipt does not fit the request. */
    method Resolve(uid: nat, client: nat, key: nat, answer: Option<Answer>, checked: bool) returns (e: Option<Refusal>)
      requires Valid() && (answer.Some? ==> answer.value.Receipt? || answer.value.Refused?)
      modifies this`requests
      ensures Valid() && Kept(old(requests), requests) && |requests| == |old(requests)|
      ensures e.None? ==>
                && key in table && requests[table[key]].result.Some?
                && requests[table[key]].uid == uid && requests[table[key]].client == client
      ensures e.None? && old(requests)[table[key]].result.None? ==> requests[table[key]].result == answer
      ensures e.Some? ==> requests == old(requests)
    {
      if !Usable(checked) {
        return Some(Unavailable);
      }
      if key !in table {
        return Some(NotYours);
      }
      var i := table[key];
      var p := requests[i];
      if p.uid != uid || p.client == 0 || p.client != client {
        return Some(NotYours);
      }
      if p.result.Some? {
        return None;
      }
      if answer.None? {
        return Some(Malformed);
      }
      requests := requests[i := p.(result := answer, closed := p.closed + 1)];
      return None;
    }
  }

  lemma {:induction false} KeptOverTime(a: seq<Request>, b: seq<Request>, c: seq<Request>)
    requires Kept(a, b) && Kept(b, c)
    ensures Kept(a, c)
  {
    forall i | 0 <= i < |a|
      ensures a[i].result.Some? ==> c[i].result == a[i].result
      ensures a[i].client != 0 ==> c[i].client == a[i].client
    {
      assert b[i].key == a[i].key;
    }
  }

  /**
   Hosts, senders and clients in any order: no request of an earlier turn waits for an answer,
   each was given to at most one client, and its channel closed exactly with its result.
   `middle` are the requests at any earlier moment: what was answered or claimed then still is.
   */
  method Interleave(steps: nat, moment: nat) returns (b: Broker, middle: seq<Request>)
    ensures fresh(b) && b.Valid()
    ensures Kept(middle, b.requests)
    ensures forall i :: 0 <= i < |b.requests| ==> b.requests[i].closed <= 1 && |b.requests[i].claimants| <= 1
    ensures forall i :: 0 <= i < |b.requests| && b.requests[i].epoch < b.epoch ==> b.requests[i].result.Some?
  {
    b := new Broker();
    middle := b.requests;
    var n := 0;
    while n < steps
      invariant fresh(b) && b.Valid() && Kept(middle, b.requests)
    {
      if n == moment {
        middle := b.requests;
      }
      ghost var before := b.requests;
      var choice: nat := *;
      var x: nat := *;
      var y: nat := *;
      var flag: bool := *;
      var given: bool := *;
      var answer: Answer := *;
      if choice == 0 && y != 0 {
        var _ := b.Bind(x, y);
      } else if choice == 1 {
        b.Invalidate();
      } else if choice == 2 {
        b.SetMode(flag);
      } else if choice == 3 {
        var _ := b.Enter(x, y, flag);
      } else if choice == 4 && x < |b.requests| {
        b.Abandon(x);
      } else if choice == 5 {
        var _ := b.Next(x, y, flag);
      } else if answer.Receipt? || answer.Refused? {
        var key: nat := *;
        var _ := b.Resolve(x, y, key, if given then Some(answer) else None, flag);
      }
      KeptOverTime(middle, before, b.requests);
      n := n + 1;
    }
    forall i | 0 <= i < |b.requests|
      ensures b.requests[i].closed <= 1 && |b.requests[i].claimants| <= 1
    {
      assert RequestOk(b.requests[i]);
    }
  }
}
