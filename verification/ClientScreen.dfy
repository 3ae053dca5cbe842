/** The client's copy of the live output, rebuilt from snapshots, transient events and durable events. */
module ClientScreen {
  import opened Wrappers
  import opened LiveProjection

  /** What the client reads out of a durable event; the store writes the kinds of a turn's end. */
  datatype Record = TurnEnded(turn: Text) | ItemCompleted(key: Key) | OtherRecord

  datatype DurableEvent = DurableEvent(number: nat, record: Record)

  datatype RuntimeSnapshot = RuntimeSnapshot(revision: nat, watermark: nat, items: seq<LiveItem>, truncated: bool)

  datatype ClientView = ClientView(watermark: nat, revision: nat, partial: map<Key, Text>, used: int, truncated: bool)

  ghost predicate Tallied(v: ClientView)
  {
    v.used == Total(v.partial)
  }

  function WithoutItem(v: ClientView, k: Key): ClientView
  {
    if k in v.partial then v.(partial := v.partial - {k}, used := v.used - ItemCost(k, v.partial[k])) else v
  }

  /** transient. */
  function AfterTransient(v: ClientView, e: Transient): ClientView
  {
    if e.revision <= v.revision then v
    else
      var w := v.(revision := e.revision);
      match e
      case ProjectionTruncated(_) => w.(truncated := true)
      case ProjectionReset(_) => w.(truncated := false)
      case ItemDone(_, k) => WithoutItem(w, k)
      case ItemRemoved(_, k) => WithoutItem(w, k)
      case ItemDelta(_, k, delta) =>
        if w.truncated then w
        else
          var cost := 6 * |delta| + if k in w.partial then 0 else ItemCost(k, []);
          if cost > BUDGET - w.used then w.(truncated := true)
          else w.(used := w.used + cost, partial := w.partial[k := (if k in w.partial then w.partial[k] else []) + delta])
  }

  function OfTurn(partial: map<Key, Text>, turn: Text): set<Key>
  {
    set k | k in partial && k.turn == turn
  }

  /** durable, as far as the live output is concerned. */
  ghost function AfterDurable(v: ClientView, d: DurableEvent): ClientView
  {
    match d.record
    case TurnEnded(turn) =>
      if d.number <= v.watermark then v
      else
        var left := v.partial - OfTurn(v.partial, turn);
        v.(partial := left, used := Total(left), truncated := false)
    case ItemCompleted(k) => WithoutItem(v, k)
    case OtherRecord => v
  }

  /** snapshot's loop: it stops at the first item that no longer fits. */
  function Filled(v: ClientView, items: seq<LiveItem>): ClientView
    decreases |items|
  {
    if items == [] then v
    else if ItemCost(items[0].key, items[0].partial) > BUDGET - v.used then v.(truncated := true)
    else
      Filled(v.(partial := v.partial[items[0].key := items[0].partial],
                used := v.used + ItemCost(items[0].key, items[0].partial)), items[1..])
  }

  function AfterSnapshot(s: RuntimeSnapshot): ClientView
  {
    Filled(ClientView(s.watermark, s.revision, map[], 0, s.truncated), s.items)
  }

  // ---- Every transition keeps the tally -----------------------------------------------------

  lemma TransientTallied(v: ClientView, e: Transient)
    requires Tallied(v)
    ensures Tallied(AfterTransient(v, e))
  {
    if e.ItemDelta? {
      var k := e.key;
      var text := (if k in v.partial then v.partial[k] else []) + e.delta;
      TotalInsert(v.partial, k, text);
      if k in v.partial {
        TotalRemove(v.partial, k);
      } else {
        assert v.partial - {k} == v.partial;
      }
    } else if (e.ItemDone? || e.ItemRemoved?) && e.key in v.partial {
      TotalRemove(v.partial, e.key);
    }
  }

  lemma DurableTallied(v: ClientView, d: DurableEvent)
    requires Tallied(v)
    ensures Tallied(AfterDurable(v, d))
  {
    if d.record.ItemCompleted? && d.record.key in v.partial {
      TotalRemove(v.partial, d.record.key);
    }
  }

  /** A snapshot that lists a map within the budget is taken over whole. */
  lemma {:induction false} FilledWhole(v: ClientView, items: seq<LiveItem>, m: map<Key, Text>)
    requires Tallied(v) && Lists(items, m) && v.partial.Keys !! m.Keys
    requires Total(v.partial + m) <= BUDGET
    ensures Filled(v, items) == v.(partial := v.partial + m, used := Total(v.partial + m))
    decreases |items|
  {
    hide Total, Lists;
    if items == [] {
      ListsNothing(m);
      assert v.partial + m == v.partial;
    } else {
      var k, t := items[0].key, items[0].partial;
      var p := v.partial[k := t];
      RestLists(items, m);
      assert k !in v.partial;
      TotalInsert(v.partial, k, t);
      assert v.partial - {k} == v.partial;
      TotalSub(p, v.partial + m);
      assert p + (m - {k}) == v.partial + m;
      FilledWhole(v.(partial := p, used := v.used + ItemCost(k, t)), items[1..], m - {k});
    }
  }

  lemma ListsNothing(m: map<Key, Text>)
    requires Lists([], m)
    ensures m == map[]
  {
    assert forall k :: k in m ==> InList([], k);
  }

  lemma RestLists(items: seq<LiveItem>, m: map<Key, Text>)
    requires items != [] && Lists(items, m)
    ensures items[0].key in m && m[items[0].key] == items[0].partial
    ensures Lists(items[1..], m - {items[0].key})
  {
    var rest := items[1..];
    forall i | 0 <= i < |rest|
      ensures rest[i].key in m - {items[0].key} && m[rest[i].key] == rest[i].partial
    {
      assert rest[i] == items[i + 1];
    }
    forall k | k in m && k != items[0].key
      ensures InList(rest, k)
    {
      assert InList(items, k);
      var i :| 0 <= i < |items| && items[i].key == k;
      assert rest[i - 1] == items[i];
    }
  }

  lemma SnapshotWhole(s: RuntimeSnapshot, m: map<Key, Text>)
    requires Lists(s.items, m) && Total(m) <= BUDGET
    ensures AfterSnapshot(s) == ClientView(s.watermark, s.revision, m, Total(m), s.truncated)
  {
    var v := ClientView(s.watermark, s.revision, map[], 0, s.truncated);
    assert v.partial + m == m;
    FilledWhole(v, s.items, m);
  }

  // ---- The client's methods --------------------------------------------------------------------

  class Screen {
    var watermark: nat
    var revision: nat
    var partial: map<Key, Text>
    var used: int
    var truncated: bool

    function State(): ClientView
      reads this
    {
      ClientView(watermark, revision, partial, used, truncated)
    }

    ghost predicate Valid()
      reads this
    {
      Tallied(State())
    }

    constructor ()
      ensures Valid() && State() == ClientView(0, 0, map[], 0, false)
    {
      watermark, revision, partial, used, truncated := 0, 0, map[], 0, false;
    }

    method TakeSnapshot(s: RuntimeSnapshot)
      modifies this
      ensures State() == AfterSnapshot(s)
    {
      watermark, revision, partial, used, truncated := s.watermark, s.revision, map[], 0, s.truncated;
      var i := 0;
      while i < |s.items|
        invariant 0 <= i <= |s.items|
        invariant Filled(State(), s.items[i..]) == AfterSnapshot(s)
      {
        var v := s.items[i];
        var cost := ItemCost(v.key, v.partial);
        assert s.items[i..][0] == v && s.items[i..][1..] == s.items[i + 1..];
        if cost > BUDGET - used {
          truncated := true;
          return;
        }
        partial := partial[v.key := v.partial];
        used := used + cost;
        i := i + 1;
      }
    }

    method Remove(k: Key)
      modifies this`partial, this`used
      ensures State() == WithoutItem(old(State()), k)
    {
      if k in partial {
        used := used - ItemCost(k, partial[k]);
        partial := partial - {k};
      }
    }

    method TakeTransient(e: Transient)
      requires Valid()
      modifies this
      ensures Valid() && State() == AfterTransient(old(State()), e)
    {
      TransientTallied(State(), e);
      if e.revision <= revision {
        return;
      }
      revision := e.revision;
      match e {
        case ProjectionTruncated(_) =>
          truncated := true;
        case ProjectionReset(_) =>
          truncated := false;
        case ItemDone(_, k) =>
          Remove(k);
        case ItemRemoved(_, k) =>
          Remove(k);
        case ItemDelta(_, k, delta) =>
          if truncated {
            return;
          }
          var cost := 6 * |delta|;
          if k !in partial {
            cost := cost + ItemCost(k, []);
          }
          if cost > BUDGET - used {
            truncated := true;
            return;
          }
          used := used + cost;
          partial := partial[k := (if k in partial then partial[k] else []) + delta];
      }
    }

    method TakeDurable(d: DurableEvent)
      requires Valid()
      modifies this
      ensures Valid() && State() == AfterDurable(old(State()), d)
    {
      DurableTallied(State(), d);
      match d.record {
        case TurnEnded(turn) =>
          if d.number > watermark {
            EndTurn(turn);
            truncated := false;
          }
        case ItemCompleted(k) =>
          Remove(k);
        case OtherRecord =>
      }
    }

    method EndTurn(turn: Text)
      requires Valid()
      modifies this`partial, this`used
      ensures partial == old(partial) - OfTurn(old(partial), turn) && used == Total(partial)
    {
      hide Total, Left;
      ghost var all, gone := partial, OfTurn(partial, turn);
      LeftEnds(all, gone);
      ghost var visited: set<Key> := {};
      var rest := partial.Keys;
      while rest != {}
        invariant visited + rest == all.Keys && visited !! rest
        invariant partial == Left(all, gone, visited) && used == Total(partial)
        decreases |rest|
      {
        var k :| k in rest;
        LeftStep(all, gone, visited, k);
        rest := rest - {k};
        if k.turn == turn {
          TotalRemove(partial, k);
          Remove(k);
        }
        visited := visited + {k};
      }
    }
  }
}
