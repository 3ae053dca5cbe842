/**
 The host's bounded view of output that is still streaming.  Strings are byte strings; the
 order in which a snapshot lists its items carries no meaning and is left open.
 */
module LiveProjection {
  import opened Wrappers

  type Text = seq<bv8>

  datatype Key = Key(thread: Text, turn: Text, item: Text)

  datatype ProjectedItem = ProjectedItem(partial: Text, completed: bool)

  datatype LiveItem = LiveItem(key: Key, partial: Text)

  datatype Transient =
    | ItemDelta(revision: nat, key: Key, delta: Text)
    | ItemDone(revision: nat, key: Key)
    | ItemRemoved(revision: nat, key: Key)
    | ProjectionTruncated(revision: nat)
    | ProjectionReset(revision: nat)

  datatype HostState = HostState(revision: nat, items: map<Key, ProjectedItem>, used: int, truncated: bool)

  const BUDGET: int := 1048576

  /** LiveItemCost. */
  function ItemCost(k: Key, partial: Text): nat
  {
    256 + 6 * (|k.thread| + |k.turn| + |k.item| + |partial|)
  }

  // ---- Costs of whole maps -------------------------------------------------------------

  ghost function Total(m: map<Key, Text>): nat
  {
    if m == map[] then 0
    else
      var k :| k in m;
      ItemCost(k, m[k]) + Total(m - {k})
  }

  lemma {:induction false} TotalRemove(m: map<Key, Text>, k: Key)
    requires k in m
    ensures Total(m) == ItemCost(k, m[k]) + Total(m - {k})
    decreases |m|
  {
    var first :| first in m && Total(m) == ItemCost(first, m[first]) + Total(m - {first});
    if first != k {
      TotalRemove(m - {first}, k);
      TotalRemove(m - {k}, first);
      assert m - {first} - {k} == m - {k} - {first};
    }
  }

  lemma NothingCosts()
    ensures Total(Partials(map[])) == 0
  {
  }

  lemma TotalInsert(m: map<Key, Text>, k: Key, t: Text)
    ensures Total(m[k := t]) == Total(m - {k}) + ItemCost(k, t)
  {
    TotalRemove(m[k := t], k);
    assert m[k := t] - {k} == m - {k};
  }

  lemma {:induction false} TotalSub(m: map<Key, Text>, n: map<Key, Text>)
    requires forall k :: k in m ==> k in n && n[k] == m[k]
    ensures Total(m) <= Total(n)
    decreases |m|
  {
    if m != map[] {
      var k :| k in m;
      TotalRemove(m, k);
      TotalRemove(n, k);
      TotalSub(m - {k}, n - {k});
    }
  }

  // ---- States -------------------------------------------------------------------------

  function Partials(items: map<Key, ProjectedItem>): map<Key, Text>
  {
    map k | k in items :: items[k].partial
  }

  /** What a snapshot shows: the items with some output and no completion. */
  function Shown(h: HostState): map<Key, Text>
  {
    map k | k in h.items && h.items[k].partial != [] :: h.items[k].partial
  }

  function ShownAmong(items: map<Key, ProjectedItem>, visited: set<Key>): map<Key, Text>
  {
    map k | k in items && k in visited && items[k].partial != [] :: items[k].partial
  }

  /** The counter is exact and within the budget, and a completed item keeps no output. */
  ghost predicate Accounted(h: HostState)
  {
    && h.used == Total(Partials(h.items)) <= BUDGET
    && forall k :: k in h.items && h.items[k].completed ==> h.items[k].partial == []
  }

  /** Apply on an item-delta. */
  function OnDelta(h: HostState, k: Key, delta: Text): (r: (HostState, seq<Transient>))
  {
    if h.truncated || (k in h.items && h.items[k].completed) then (h, [])
    else
      var cost := 6 * |delta| + if k in h.items then 0 else ItemCost(k, []);
      if cost > BUDGET - h.used then
        (h.(truncated := true, revision := h.revision + 1), [ProjectionTruncated(h.revision + 1)])
      else
        var partial := (if k in h.items then h.items[k].partial else []) + delta;
        (h.(items := h.items[k := ProjectedItem(partial, false)], used := h.used + cost, revision := h.revision + 1),
         [ItemDelta(h.revision + 1, k, delta)])
  }

  /** Apply on an item-completed. */
  function OnCompleted(h: HostState, k: Key): (r: (HostState, seq<Transient>))
  {
    var used := h.used - if k in h.items then ItemCost(k, h.items[k].partial) else 0;
    var fits := !h.truncated && ItemCost(k, []) <= BUDGET - used;
    var next := h.(
                items := if fits then (h.items - {k})[k := ProjectedItem([], true)] else h.items - {k},
                used := if fits then used + ItemCost(k, []) else used,
                truncated := h.truncated || !fits,
                revision := h.revision + 1);
    (next, [if next.truncated && !h.truncated then ProjectionTruncated(h.revision + 1) else ItemDone(h.revision + 1, k)])
  }

  predicate Names(events: seq<Transient>, k: Key)
  {
    exists i :: 0 <= i < |events| && events[i].ItemRemoved? && events[i].key == k
  }

  /** One event for each shown item among `gone`, then a reset if output had been cut, numbered from `from` on. */
  ghost predicate Withdraws(h: HostState, gone: set<Key>, events: seq<Transient>)
  {
    && (forall i :: 0 <= i < |events| ==> events[i].revision == h.revision + 1 + i)
    && (forall i :: 0 <= i < |events| ==>
                      (events[i].ItemRemoved? && events[i].key in Shown(h) && events[i].key in gone)
                      || (events[i].ProjectionReset? && h.truncated && i == |events| - 1))
    && (forall k :: k in Shown(h) && k in gone ==> Names(events, k))
    && (h.truncated ==> events != [] && events[|events| - 1].ProjectionReset?)
  }

  function Keys(h: HostState, thread: Text, turn: Text): set<Key>
  {
    set k | k in h.items && k.thread == thread && k.turn == turn
  }

  /** The state once the items of `gone` are dropped and the cut is forgotten. */
  ghost function Without(h: HostState, gone: set<Key>, events: nat): HostState
  {
    HostState(h.revision + events, h.items - gone, Total(Partials(h.items - gone)), false)
  }

  lemma WithdrawsReset(h: HostState, gone: set<Key>, events: seq<Transient>)
    requires Withdraws(h.(truncated := false), gone, events)
    ensures Withdraws(h, gone, if h.truncated then events + [ProjectionReset(h.revision + |events| + 1)] else events)
  {
    var all := events + [ProjectionReset(h.revision + |events| + 1)];
    if h.truncated {
      assert Shown(h) == Shown(h.(truncated := false));
      forall k | k in Shown(h) && k in gone
        ensures Names(all, k)
      {
        var i :| 0 <= i < |events| && events[i].ItemRemoved? && events[i].key == k;
        assert all[i] == events[i];
      }
    } else {
      assert h.(truncated := false) == h;
    }
  }

  // ---- What the transitions keep -----------------------------------------------------------

  lemma TotalDrop(items: map<Key, ProjectedItem>, k: Key)
    requires k in items
    ensures Total(Partials(items - {k})) == Total(Partials(items)) - ItemCost(k, items[k].partial)
  {
    TotalRemove(Partials(items), k);
    assert Partials(items - {k}) == Partials(items) - {k};
  }

  lemma DeltaAccounted(h: HostState, k: Key, delta: Text)
    requires Accounted(h)
    ensures Accounted(OnDelta(h, k, delta).0)
  {
    var next := OnDelta(h, k, delta).0;
    if next.revision != h.revision && !next.truncated {
      var p := Partials(h.items);
      var partial := next.items[k].partial;
      assert Partials(next.items) == p[k := partial];
      TotalInsert(p, k, partial);
      if k in p {
        TotalRemove(p, k);
      } else {
        assert p - {k} == p;
      }
    }
  }

  lemma CompletedAccounted(h: HostState, k: Key)
    requires Accounted(h)
    ensures Accounted(OnCompleted(h, k).0)
  {
    var next := OnCompleted(h, k).0;
    var p := Partials(h.items);
    assert Partials(h.items - {k}) == p - {k};
    if k in p {
      TotalDrop(h.items, k);
    } else {
      assert p - {k} == p;
    }
    if k in next.items {
      assert Partials(next.items) == (p - {k})[k := []];
      TotalInsert(p - {k}, k, []);
      assert p - {k} - {k} == p - {k};
    } else {
      assert Partials(next.items) == p - {k};
    }
  }

  lemma WithoutAccounted(h: HostState, gone: set<Key>, events: nat)
    requires Accounted(h)
    ensures Accounted(Without(h, gone, events))
  {
    TotalSub(Partials(h.items - gone), Partials(h.items));
  }

  // ---- The projection ------------------------------------------------------------------------

  class Projection {
    var revision: nat
    var items: map<Key, ProjectedItem>
    var used: int
    var truncated: bool

    function State(): HostState
      reads this
    {
      HostState(revision, items, used, truncated)
    }

    ghost predicate Valid()
      reads this
    {
      Accounted(State())
    }

    constructor ()
      ensures Valid() && State() == HostState(0, map[], 0, false)
    {
      revision, items, used, truncated := 0, map[], 0, false;
    }

    /** Apply on an item-delta; each revision carries one transient event. */
    method ApplyDelta(key: Key, delta: Text) returns (update: Option<Transient>)
      requires Valid()
      modifies this
      ensures Valid()
      ensures State() == OnDelta(old(State()), key, delta).0
      ensures OnDelta(old(State()), key, delta).1 == if update.Some? then [update.value] else []
      ensures revision == old(revision) + if update.Some? then 1 else 0
    {
      DeltaAccounted(State(), key, delta);
      if truncated {
        return None;
      }
      var known := key in items;
      var current := if known then items[key] else ProjectedItem([], false);
      if current.completed {
        return None;
      }
      var cost := 6 * |delta|;
      if !known {
        cost := cost + ItemCost(key, []);
      }
      if cost > BUDGET - used {
        truncated := true;
        revision := revision + 1;
        return Some(ProjectionTruncated(revision));
      }
      used := used + cost;
      current := current.(partial := current.partial + delta);
      items := items[key := current];
      revision := revision + 1;
      return Some(ItemDelta(revision, key, delta));
    }

    /** Apply on an item-completed. */
    method ApplyCompleted(key: Key) returns (update: Transient)
      requires Valid()
      modifies this
      ensures Valid()
      ensures State() == OnCompleted(old(State()), key).0 && [update] == OnCompleted(old(State()), key).1
      ensures revision == old(revision) + 1 == update.revision
    {
      CompletedAccounted(State(), key);
      if key in items {
        used := used - ItemCost(key, items[key].partial);
        items := items - {key};
      }
      assert items == old(items) - {key};
      var cost := ItemCost(key, []);
      var wasTruncated := truncated;
      if !truncated && cost <= BUDGET - used {
        items := items[key := ProjectedItem([], true)];
        used := used + cost;
      } else {
        truncated := true;
      }
      revision := revision + 1;
      if truncated && !wasTruncated {
        return ProjectionTruncated(revision);
      }
      return ItemDone(revision, key);
    }

    /** Snapshot: every item with output, once. */
    method Snapshot() returns (rev: nat, shown: seq<LiveItem>)
      ensures rev == revision
      ensures Lists(shown, Shown(State()))
    {
      rev := revision;
      shown := [];
      var rest := items.Keys;
      ghost var visited: set<Key> := {};
      while rest != {}
        invariant visited + rest == items.Keys && visited !! rest
        invariant Lists(shown, ShownAmong(items, visited))
        decreases |rest|
      {
        var key :| key in rest;
        rest := rest - {key};
        if items[key].partial != [] {
          Listed(shown, ShownAmong(items, visited), key, items[key].partial);
          assert ShownAmong(items, visited + {key}) == ShownAmong(items, visited)[key := items[key].partial];
          shown := shown + [LiveItem(key, items[key].partial)];
        } else {
          assert ShownAmong(items, visited + {key}) == ShownAmong(items, visited);
        }
        visited := visited + {key};
      }
      assert Shown(State()) == ShownAmong(items, visited);
    }

    /** The removal events shared by reset and removeTurn. */
    method Withdraw(gone: set<Key>) returns (events: seq<Transient>)
      modifies this`revision
      ensures revision == old(revision) + |events|
      ensures Withdraws(old(State()).(truncated := false), gone, events)
    {
      ghost var h := State().(truncated := false);
      var _, shown := Snapshot();
      assert Shown(h) == Shown(State());
      events := [];
      var i := 0;
      while i < |shown|
        invariant 0 <= i <= |shown|
        invariant revision == old(revision) + |events|
        invariant forall j :: 0 <= j < |events| ==>
                    events[j].ItemRemoved? && events[j].revision == h.revision + 1 + j && events[j].key in Shown(h) && events[j].key in gone
        invariant forall j :: 0 <= j < i && shown[j].key in gone ==> Names(events, shown[j].key)
      {
        if shown[i].key in gone {
          ghost var past := events;
          revision := revision + 1;
          events := events + [ItemRemoved(revision, shown[i].key)];
          assert events[|past|].key == shown[i].key;
          forall j | 0 <= j < i && shown[j].key in gone
            ensures Names(events, shown[j].key)
          {
            var l :| 0 <= l < |past| && past[l].ItemRemoved? && past[l].key == shown[j].key;
            assert events[l] == past[l];
          }
        }
        i := i + 1;
      }
    }

    /** reset. */
    method Reset() returns (events: seq<Transient>)
      requires Valid()
      modifies this
      ensures Valid()
      ensures Withdraws(old(State()), old(items).Keys, events)
      ensures State() == Without(old(State()), old(items).Keys, |events|)
    {
      hide Withdraws, Total;
      assert items - items.Keys == map[];
      events := Withdraw(items.Keys);
      WithdrawsReset(old(State()), items.Keys, events);
      items := map[];
      used := 0;
      NothingCosts();
      if truncated {
        revision := revision + 1;
        events := events + [ProjectionReset(revision)];
      }
      truncated := false;
      WithoutAccounted(old(State()), old(items).Keys, |events|);
    }

    /** removeTurn. */
    method RemoveTurn(thread: Text, turn: Text) returns (events: seq<Transient>)
      requires Valid()
      modifies this
      ensures Valid()
      ensures Withdraws(old(State()), Keys(old(State()), thread, turn), events)
      ensures State() == Without(old(State()), Keys(old(State()), thread, turn), |events|)
    {
      hide Withdraws, Total;
      ghost var gone := Keys(State(), thread, turn);
      events := Withdraw(Keys(State(), thread, turn));
      WithdrawsReset(old(State()), gone, events);
      DropTurn(thread, turn);
      if truncated {
        revision := revision + 1;
        events := events + [ProjectionReset(revision)];
        truncated := false;
      }
      WithoutAccounted(old(State()), gone, |events|);
    }

    /** removeTurn's second loop: the turn's items go, and the counter follows. */
    method DropTurn(thread: Text, turn: Text)
      requires used == Total(Partials(items))
      modifies this`items, this`used
      ensures items == old(items) - Keys(old(State()), thread, turn)
      ensures used == Total(Partials(items))
    {
      hide Total, Partials, Left;
      ghost var all, gone := items, Keys(State(), thread, turn);
      LeftEnds(all, gone);
      ghost var visited: set<Key> := {};
      var rest := items.Keys;
      while rest != {}
        invariant visited + rest == all.Keys && visited !! rest
        invariant items == Left(all, gone, visited)
        invariant used == Total(Partials(items))
        decreases |rest|
      {
        var key :| key in rest;
        LeftStep(all, gone, visited, key);
        rest := rest - {key};
        if key.thread == thread && key.turn == turn {
          TotalDrop(items, key);
          used := used - ItemCost(key, items[key].partial);
          items := items - {key};
        }
        visited := visited + {key};
      }
    }
  }

  /** The entries left when those of `gone` that were visited are dropped. */
  function Left<T>(all: map<Key, T>, gone: set<Key>, visited: set<Key>): map<Key, T>
  {
    all - (gone * visited)
  }

  lemma LeftEnds<T>(all: map<Key, T>, gone: set<Key>)
    ensures Left(all, gone, {}) == all && Left(all, gone, all.Keys) == all - gone
  {
  }

  lemma LeftStep<T>(all: map<Key, T>, gone: set<Key>, visited: set<Key>, key: Key)
    requires key in all && key !in visited
    ensures var left := Left(all, gone, visited);
            && key in left && left[key] == all[key]
            && Left(all, gone, visited + {key}) == if key in gone then left - {key} else left
  {
  }

  /** The listing names each entry once. */
  ghost predicate Lists(shown: seq<LiveItem>, m: map<Key, Text>)
  {
    && (forall i :: 0 <= i < |shown| ==> shown[i].key in m && m[shown[i].key] == shown[i].partial)
    && (forall i, j :: 0 <= i < j < |shown| ==> shown[i].key != shown[j].key)
    && (forall k :: k in m ==> InList(shown, k))
  }

  predicate InList(shown: seq<LiveItem>, k: Key)
  {
    exists i :: 0 <= i < |shown| && shown[i].key == k
  }

  lemma Listed(shown: seq<LiveItem>, m: map<Key, Text>, k: Key, t: Text)
    requires Lists(shown, m) && k !in m
    ensures Lists(shown + [LiveItem(k, t)], m[k := t])
  {
    var next := shown + [LiveItem(k, t)];
    assert next[|shown|].key == k;
    forall q | InList(shown, q)
      ensures InList(next, q)
    {
      var i :| 0 <= i < |shown| && shown[i].key == q;
      assert next[i].key == q;
    }
  }
}
