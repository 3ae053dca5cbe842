/** A client that has taken everything the host published shows what the host shows. */
module ProjectionMirror {
  import opened Wrappers
  import opened LiveProjection
  import opened ClientScreen

  ghost predicate Mirrors(v: ClientView, h: HostState)
  {
    v.revision == h.revision && v.partial == Shown(h) && v.truncated == h.truncated && Tallied(v)
  }

  /** Every open item has output, as when no delta is empty. */
  ghost predicate Substantial(h: HostState)
  {
    forall k :: k in h.items ==> h.items[k].completed || h.items[k].partial != []
  }

  ghost predicate OneThread(h: HostState, thread: Text)
  {
    forall k :: k in h.items ==> k.thread == thread
  }

  /** The client takes transient events one by one. */
  function Takes(v: ClientView, events: seq<Transient>): ClientView
  {
    if events == [] then v
    else AfterTransient(Takes(v, events[..|events| - 1]), events[|events| - 1])
  }

  lemma TakesOne(v: ClientView, e: Transient)
    ensures Takes(v, [e]) == AfterTransient(v, e)
  {
    assert [e][..0] == [];
  }

  // ---- One handler at a time -----------------------------------------------------------------

  /** The client never counts more than the host, so it never cuts its output before the host does. */
  lemma ClientCountsLess(v: ClientView, h: HostState)
    requires Mirrors(v, h) && Accounted(h)
    ensures v.used <= h.used <= BUDGET
  {
    TotalSub(Shown(h), Partials(h.items));
  }

  lemma MirrorDelta(v: ClientView, h: HostState, k: Key, delta: Text)
    requires Mirrors(v, h) && Accounted(h) && Substantial(h) && delta != []
    ensures var (next, events) := OnDelta(h, k, delta);
            Mirrors(Takes(v, events), next) && Substantial(next)
  {
    var (next, events) := OnDelta(h, k, delta);
    if events != [] {
      ClientCountsLess(v, h);
      TakesOne(v, events[0]);
      TransientTallied(v, events[0]);
      assert k in h.items ==> k in Shown(h);
      if events[0].ItemDelta? {
        assert AfterTransient(v, events[0]).partial == Shown(next);
      }
    }
  }

  /** The durable completion comes first; a client that knows it already skips it. */
  lemma MirrorCompleted(v: ClientView, h: HostState, k: Key, skipped: bool)
    requires Mirrors(v, h) && Substantial(h)
    requires skipped ==> k !in Shown(h)
    ensures var (next, events) := OnCompleted(h, k);
            Mirrors(Takes(if skipped then v else WithoutItem(v, k), events), next) && Substantial(next)
  {
    var (next, events) := OnCompleted(h, k);
    var w := if skipped then v else WithoutItem(v, k);
    if k in v.partial {
      TotalRemove(v.partial, k);
    }
    assert w.partial == Shown(h) - {k} && Tallied(w);
    TakesOne(w, events[0]);
    assert Shown(next) == Shown(h) - {k};
  }

  /** Removal events take away what they name; a reset lifts the cut. */
  lemma {:induction false} TakesRemovals(v: ClientView, events: seq<Transient>)
    requires Tallied(v)
    requires forall i :: 0 <= i < |events| ==> events[i].revision == v.revision + 1 + i
    requires forall i :: 0 <= i < |events| ==> events[i].ItemRemoved? || (events[i].ProjectionReset? && i == |events| - 1)
    ensures var w := Takes(v, events);
            && Tallied(w) && w.revision == v.revision + |events| && w.watermark == v.watermark
            && w.truncated == (v.truncated && !(events != [] && events[|events| - 1].ProjectionReset?))
            && w.partial.Keys <= v.partial.Keys
            && forall k :: k in v.partial ==> (k in w.partial <==> !Names(events, k)) && (k in w.partial ==> w.partial[k] == v.partial[k])
    decreases |events|
  {
    if events != [] {
      var n := |events| - 1;
      var most, e := events[..n], events[n];
      TakesRemovals(v, most);
      var w := Takes(v, most);
      TransientTallied(w, e);
      forall k
        ensures Names(events, k) <==> Names(most, k) || (e.ItemRemoved? && e.key == k)
      {
        NamesFront(events, k);
      }
    }
  }

  lemma NamesFront(events: seq<Transient>, k: Key)
    requires events != []
    ensures var n := |events| - 1; Names(events, k) <==> Names(events[..n], k) || (events[n].ItemRemoved? && events[n].key == k)
  {
    var n := |events| - 1;
    if Names(events[..n], k) {
      var i :| 0 <= i < n && events[..n][i].ItemRemoved? && events[..n][i].key == k;
      assert events[i] == events[..n][i];
    }
    if Names(events, k) {
      var i :| 0 <= i < |events| && events[i].ItemRemoved? && events[i].key == k;
      assert i < n ==> events[..n][i] == events[i];
    }
  }

  lemma WithdrawnNames(h: HostState, gone: set<Key>, events: seq<Transient>, k: Key)
    requires Withdraws(h, gone, events) && k in Shown(h)
    ensures Names(events, k) <==> k in gone
  {
    if Names(events, k) {
      var i :| 0 <= i < |events| && events[i].ItemRemoved? && events[i].key == k;
    }
  }

  /** The removal events of the host, for a client that may have dropped some of the items already. */
  lemma MirrorWithdrawn(v: ClientView, h: HostState, gone: set<Key>, events: seq<Transient>)
    requires Withdraws(h, gone, events) && Tallied(v) && v.revision == h.revision
    requires v.partial == Shown(h) || v.partial == Shown(h) - gone
    requires h.truncated || !v.truncated
    ensures Mirrors(Takes(v, events), Without(h, gone, |events|))
    ensures Takes(v, events).watermark == v.watermark
  {
    hide Takes, Total, Partials, Names;
    TakesRemovals(v, events);
    var w := Takes(v, events);
    forall k | k in Shown(h)
      ensures Names(events, k) <==> k in gone
    {
      WithdrawnNames(h, gone, events, k);
    }
    assert Shown(Without(h, gone, |events|)) == Shown(h) - gone;
    assert w.partial == Shown(h) - gone;
  }

  /** FinishTurn's event and then removeTurn's. */
  lemma MirrorTurnEnd(v: ClientView, h: HostState, thread: Text, turn: Text, d: DurableEvent, events: seq<Transient>)
    requires Mirrors(v, h) && OneThread(h, thread)
    requires d.record == TurnEnded(turn) && d.number > v.watermark
    requires Withdraws(h, Keys(h, thread, turn), events)
    ensures Mirrors(Takes(AfterDurable(v, d), events), Without(h, Keys(h, thread, turn), |events|))
    ensures Takes(AfterDurable(v, d), events).watermark == v.watermark
  {
    var w := AfterDurable(v, d);
    assert w.partial == Shown(h) - Keys(h, thread, turn);
    MirrorWithdrawn(w, h, Keys(h, thread, turn), events);
  }

  lemma MirrorReset(v: ClientView, h: HostState, events: seq<Transient>)
    requires Mirrors(v, h) && Withdraws(h, h.items.Keys, events)
    ensures Mirrors(Takes(v, events), Without(h, h.items.Keys, |events|))
    ensures Takes(v, events).watermark == v.watermark
  {
    MirrorWithdrawn(v, h, h.items.Keys, events);
  }

  /** A snapshot gives a new client everything the host shows. */
  lemma MirrorSnapshot(s: RuntimeSnapshot, h: HostState)
    requires Accounted(h) && Lists(s.items, Shown(h)) && s.revision == h.revision && s.truncated == h.truncated
    ensures Mirrors(AfterSnapshot(s), h) && AfterSnapshot(s).watermark == s.watermark
    ensures AfterSnapshot(s).partial == Shown(h) && AfterSnapshot(s).revision == h.revision && Tallied(AfterSnapshot(s))
  {
    TotalSub(Shown(h), Partials(h.items));
    SnapshotWhole(s, Shown(h));
  }

  // ---- Empty deltas ------------------------------------------------------------------------------

  /** What a client that followed every event holds: each open item, with or without output. */
  function Open(h: HostState): map<Key, Text>
  {
    map k | k in h.items && !h.items[k].completed :: h.items[k].partial
  }

  /**
   reset announces only items with output.  So a client that followed every event counts no
   more than the host afterwards exactly when no open item is without output, that is, when
   every first delta carried some text.
   */
  lemma ResetLeavesEmptyItems(v: ClientView, h: HostState, events: seq<Transient>)
    requires Accounted(h) && v.partial == Open(h) && Tallied(v) && v.revision == h.revision
    requires Withdraws(h, h.items.Keys, events)
    ensures Takes(v, events).used <= Without(h, h.items.Keys, |events|).used <==> Substantial(h)
  {
    TakesRemovals(v, events);
    var w := Takes(v, events);
    assert h.items - h.items.Keys == map[];
    NothingCosts();
    forall k | k in v.partial
      ensures Names(events, k) <==> k in Shown(h)
    {
      if Names(events, k) {
        var i :| 0 <= i < |events| && events[i].ItemRemoved? && events[i].key == k;
      }
    }
    if Substantial(h) {
      assert forall k :: k in v.partial ==> k in Shown(h);
      assert w.partial == map[];
    } else {
      var k :| k in h.items && !h.items[k].completed && h.items[k].partial == [];
      assert k in w.partial;
      TotalRemove(w.partial, k);
    }
  }

  /** One empty delta for any item that fits, and a reset: the host counts nothing, the client still counts the item. */
  lemma EmptyDeltaLeaks(k: Key) returns (h: HostState, v: ClientView)
    requires ItemCost(k, []) <= BUDGET
    ensures OnDelta(HostState(0, map[], 0, false), k, []) == (h, [ItemDelta(1, k, [])])
    ensures v == Takes(ClientView(0, 0, map[], 0, false), [ItemDelta(1, k, [])])
    ensures Withdraws(h, h.items.Keys, [])
    ensures forall events :: Withdraws(h, h.items.Keys, events) ==>
                               Takes(v, events).used > Without(h, h.items.Keys, |events|).used
  {
    var start := HostState(0, map[], 0, false);
    NothingCosts();
    DeltaAccounted(start, k, []);
    var sent := OnDelta(start, k, []).1;
    h := OnDelta(start, k, []).0;
    v := Takes(ClientView(0, 0, map[], 0, false), sent);
    TakesOne(ClientView(0, 0, map[], 0, false), sent[0]);
    TransientTallied(ClientView(0, 0, map[], 0, false), sent[0]);
    assert v.partial == Open(h);
    assert h.items[k].partial == [] && !h.items[k].completed;
    assert !Substantial(h);
    forall events | Withdraws(h, h.items.Keys, events)
      ensures Takes(v, events).used > Without(h, h.items.Keys, |events|).used
    {
      ResetLeavesEmptyItems(v, h, events);
    }
  }
}
