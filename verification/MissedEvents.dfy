/**
 What a connected client misses, exactly: an event that was stored although its writer saw an
 error is passed over when a later event is published before it.  A replay still delivers it as
 long as that has not happened.
 */
module MissedEvents {
  import opened Wrappers
  import opened LiveProjection
  import opened ClientScreen
  import opened EventFrames
  import opened Replication

  /** Everything on its way to the client. */
  function Pending(s: Session, outbox: seq<Frame>): seq<Frame>
  {
    s.wire + s.queue + outbox
  }

  /** An event past number `x` comes before any event `x`. */
  ghost predicate Overtaken(fs: seq<Frame>, x: nat)
  {
    exists j :: 0 <= j < |fs| && fs[j].Durable? && fs[j].event.number > x && Below(fs[..j], x)
  }

  /** Forwarding changes nothing about what the client will pass over, also when it drops a transient event. */
  lemma ForwardedSkips(n: nat, s: Session, outbox: seq<Frame>)
    requires s.phase.Forwarding? && s.queue != []
    ensures var before, after := Pending(s, outbox), Pending(Forwarded(s), outbox);
            Skipped(n, after) == Skipped(n, before) && Reached(n, after) == Reached(n, before)
  {
    hide Skipped, Reached;
    var e, rest := s.queue[0], s.queue[1..] + outbox;
    assert Pending(s, outbox) == s.wire + ([e] + rest);
    SkippedConcat(n, s.wire, [e] + rest);
    SkippedConcat(Reached(n, s.wire), [e], rest);
    SkippedConcat(n, s.wire, rest);
    SkippedOne(Reached(n, s.wire), e);
    SkippedConcat(n, s.wire + [e], rest);
    SkippedConcat(n, s.wire, [e]);
    assert Pending(Forwarded(s), outbox) == Forwarded(s).wire + rest;
  }

  /** The next frame, one step closer to the client. */
  method Hand(r: Replica)
    requires r.Valid() && Connected(r)
    requires r.session.value.wire != [] || r.session.value.queue != [] || r.outbox != []
    modifies r`session, r`outbox, r`published, r`latest, r`cursor, r`ready, r`probe, r`applied, r`missed, r.screen
    ensures r.Valid() && Connected(r)
    ensures Reached(r.cursor, Pending(r.session.value, r.outbox)) == old(Reached(r.cursor, Pending(r.session.value, r.outbox)))
    ensures r.missed + Skipped(r.cursor, Pending(r.session.value, r.outbox)) ==
            old(r.missed + Skipped(r.cursor, Pending(r.session.value, r.outbox)))
    ensures |r.session.value.wire| + 2 * |r.session.value.queue| + 3 * |r.outbox| <
            old(|r.session.value.wire| + 2 * |r.session.value.queue| + 3 * |r.outbox|)
  {
    hide SystemOk, Kept, Jumped, Take;
    ghost var s, out := r.session.value, r.outbox;
    if r.session.value.wire != [] {
      var _ := r.Consume();
      assert Pending(r.session.value, r.outbox) == Pending(s, out)[1..];
    } else if r.session.value.queue != [] {
      ForwardedSkips(r.cursor, s, out);
      r.Forward();
    } else {
      r.PublishNext(true);
      assert Pending(r.session.value, r.outbox) == Pending(s, out);
    }
  }

  /** The session serves the client live, and the client keeps what it is sent. */
  predicate Connected(r: Replica)
    reads r
  {
    r.session.Some? && r.session.value.phase.Forwarding? && r.session.value.open && !r.probe
  }

  /**
   A connected client takes everything on its way, in whatever state the session is.  It misses
   exactly the events that a later one overtakes.
   */
  method Drain(r: Replica)
    requires r.Valid() && Connected(r)
    modifies r`session, r`outbox, r`published, r`latest, r`cursor, r`ready, r`probe, r`applied, r`missed, r.screen
    ensures r.Valid() && r.session.Some? && CaughtUp(r.session.value, r.outbox) && !r.probe
    ensures r.cursor == Reached(old(r.cursor), old(Pending(r.session.value, r.outbox)))
    ensures r.missed == old(r.missed) + Skipped(old(r.cursor), old(Pending(r.session.value, r.outbox)))
    ensures forall x :: x in r.missed <==>
                          x in old(r.missed) || (old(r.cursor) < x && Overtaken(old(Pending(r.session.value, r.outbox)), x))
  {
    hide SystemOk, Overtaken;
    ghost var all := Pending(r.session.value, r.outbox);
    while r.session.value.wire != [] || r.session.value.queue != [] || r.outbox != []
      invariant r.Valid() && Connected(r)
      invariant Reached(r.cursor, Pending(r.session.value, r.outbox)) == Reached(old(r.cursor), all)
      invariant r.missed + Skipped(r.cursor, Pending(r.session.value, r.outbox)) == old(r.missed) + Skipped(old(r.cursor), all)
      decreases |r.session.value.wire| + 2 * |r.session.value.queue| + 3 * |r.outbox|
    {
      Hand(r);
    }
    forall x
      ensures x in Skipped(old(r.cursor), all) <==> old(r.cursor) < x && Overtaken(all, x)
    {
      SkippedExactly(old(r.cursor), all, x);
      OvertakenSays(all, x);
    }
  }

  lemma OvertakenSays(fs: seq<Frame>, x: nat)
    ensures Overtaken(fs, x) <==> exists j :: 0 <= j < |fs| && fs[j].Durable? && fs[j].event.number > x && Below(fs[..j], x)
  {
  }

  // ---- A series of writes, some of them unanswered ---------------------------------------------------

  datatype Write = Write(record: Record, answered: bool)

  function Records(ws: seq<Write>): (rs: seq<Record>)
    ensures |rs| == |ws| && forall i :: 0 <= i < |ws| ==> rs[i] == ws[i].record
  {
    seq(|ws|, i requires 0 <= i < |ws| => ws[i].record)
  }

  predicate AnsweredAfter(ws: seq<Write>, i: nat)
  {
    exists j :: i < j < |ws| && ws[j].answered
  }

  /** The newest event published, after writes to a log of `n` events. */
  function Newest(n: nat, ws: seq<Write>): (m: nat)
    ensures n <= m <= n + |ws|
  {
    if ws == [] then n else if ws[|ws| - 1].answered then n + |ws| else Newest(n, ws[..|ws| - 1])
  }

  function Overrun(n: nat, ws: seq<Write>): set<nat>
  {
    if ws == [] then {}
    else
      var most := ws[..|ws| - 1];
      Overrun(n, most) + if ws[|ws| - 1].answered then Between(Newest(n, most), n + |ws|) else {}
  }

  lemma {:induction false} NewestAfter(n: nat, ws: seq<Write>, i: nat)
    requires i < |ws|
    ensures Newest(n, ws) > n + i <==> ws[i].answered || AnsweredAfter(ws, i)
  {
    var m := |ws| - 1;
    if i < m {
      NewestAfter(n, ws[..m], i);
      AfterFront(ws, i);
    }
  }

  lemma AfterFront(ws: seq<Write>, i: nat)
    requires i < |ws| - 1
    ensures AnsweredAfter(ws, i) <==> AnsweredAfter(ws[..|ws| - 1], i) || ws[|ws| - 1].answered
  {
    var m := |ws| - 1;
    if AnsweredAfter(ws, i) && !ws[m].answered {
      var j :| i < j < |ws| && ws[j].answered;
      assert ws[..m][j].answered;
    }
    if AnsweredAfter(ws[..m], i) {
      var j :| i < j < m && ws[..m][j].answered;
      assert ws[j].answered;
    }
  }

  /** An unanswered write is overrun exactly when an answered one follows it. */
  lemma {:induction false} OverrunExactly(n: nat, ws: seq<Write>, x: nat)
    ensures x in Overrun(n, ws) <==> n < x <= n + |ws| && !ws[x - n - 1].answered && AnsweredAfter(ws, x - n - 1)
    decreases |ws|
  {
    if ws != [] {
      var m := |ws| - 1;
      OverrunExactly(n, ws[..m], x);
      if n < x <= n + m {
        NewestAfter(n, ws[..m], x - n - 1);
        AfterFront(ws, x - n - 1);
      }
    }
  }

  lemma OverrunSays(n: nat, ws: seq<Write>, before: set<nat>)
    ensures forall x :: x in before + Overrun(n, ws) <==>
                          x in before || (n < x <= n + |ws| && !ws[x - n - 1].answered && AnsweredAfter(ws, x - n - 1))
    ensures Overrun(n, ws) == {} <==> forall i, j :: 0 <= i < j < |ws| && ws[j].answered ==> ws[i].answered
  {
    forall x: nat
      ensures x in Overrun(n, ws) <==> n < x <= n + |ws| && !ws[x - n - 1].answered && AnsweredAfter(ws, x - n - 1)
    {
      OverrunExactly(n, ws, x);
    }
    forall i, j | 0 <= i < j < |ws| && ws[j].answered && !ws[i].answered
      ensures n + i + 1 in Overrun(n, ws)
    {
      OverrunExactly(n, ws, n + i + 1);
    }
  }

  /** One write of a handler: stored and published, or only stored. */
  method Store(r: Replica, ghost n: nat, ghost done: seq<Write>, w: Write)
    requires r.Valid() && (w.record.ItemCompleted? ==> w.record.key !in Shown(r.live.State()))
    requires |r.log| == n + |done| && Skipped(n, r.outbox) == Overrun(n, done) && Reached(n, r.outbox) == Newest(n, done)
    modifies r`outbox, r`log, r`unsent, r`exposed, r.live
    ensures r.Valid() && r.log == old(r.log) + [DurableEvent(|old(r.log)| + 1, w.record)]
    ensures Shown(r.live.State()).Keys <= old(Shown(r.live.State()).Keys)
    ensures Skipped(n, r.outbox) == Overrun(n, done + [w]) && Reached(n, r.outbox) == Newest(n, done + [w])
  {
    hide SystemOk, Shown, Skipped, Reached;
    ghost var out := r.outbox;
    ghost var d := DurableEvent(|r.log| + 1, w.record);
    if !w.answered {
      r.HostUnanswered(w.record);
    } else if w.record.TurnEnded? {
      ghost var events := r.HostTurnEnded(w.record.turn);
      SkippedConcat(n, out, Emission(Some(d), events));
      EmissionSkips(Reached(n, out), Some(d), events);
    } else {
      r.HostRecord(w.record);
      SkippedConcat(n, out, [Durable(d)]);
      SkippedOne(Reached(n, out), Durable(d));
    }
    assert (done + [w])[..|done|] == done;
  }

  /** The handlers' part: nothing of it has reached the session yet. */
  method StoreAll(r: Replica, ws: seq<Write>)
    requires r.Valid() && r.outbox == []
    requires forall i :: 0 <= i < |ws| && ws[i].record.ItemCompleted? ==> ws[i].record.key !in Shown(r.live.State())
    modifies r`outbox, r`log, r`unsent, r`exposed, r.live
    ensures r.Valid() && r.log == Appended(old(r.log), Records(ws))
    ensures var n := |old(r.log)|; Skipped(n, r.outbox) == Overrun(n, ws) && Reached(n, r.outbox) == Newest(n, ws)
  {
    hide SystemOk, Shown;
    ghost var n := |r.log|;
    var i := 0;
    while i < |ws|
      invariant 0 <= i <= |ws|
      invariant r.Valid() && r.log == Appended(old(r.log), Records(ws[..i]))
      invariant Shown(r.live.State()).Keys <= old(Shown(r.live.State()).Keys)
      invariant Skipped(n, r.outbox) == Overrun(n, ws[..i]) && Reached(n, r.outbox) == Newest(n, ws[..i])
    {
      Store(r, n, ws[..i], ws[i]);
      assert ws[..i + 1] == ws[..i] + [ws[i]];
      i := i + 1;
    }
    assert ws[..i] == ws;
  }

  /**
   A client that has everything stays connected while events are stored.  It misses exactly the
   unanswered writes that an answered one follows, so it has applied the log up to its cursor
   exactly if it had before and no answered write follows an unanswered one.
   */
  method FollowWrites(r: Replica, ws: seq<Write>)
    requires r.Valid() && r.session.Some? && CaughtUp(r.session.value, r.outbox) && !r.probe && r.cursor == |r.log|
    requires forall i :: 0 <= i < |ws| && ws[i].record.ItemCompleted? ==> ws[i].record.key !in Shown(r.live.State())
    modifies r`session, r`outbox, r`log, r`unsent, r`exposed, r`published, r`latest
    modifies r`cursor, r`ready, r`probe, r`applied, r`missed, r.live, r.screen
    ensures r.Valid() && r.session.Some? && CaughtUp(r.session.value, r.outbox) && !r.probe
    ensures r.log == Appended(old(r.log), Records(ws)) && r.cursor == Newest(|old(r.log)|, ws)
    ensures forall x :: x in r.missed <==>
                          var i := x - |old(r.log)| - 1;
                          x in old(r.missed) || (0 <= i < |ws| && !ws[i].answered && AnsweredAfter(ws, i))
    ensures r.applied == r.log[..r.cursor] <==>
            old(r.missed) == {} && forall i, j :: 0 <= i < j < |ws| && ws[j].answered ==> ws[i].answered
  {
    hide SystemOk, Shown, AnsweredAfter, Overtaken, Skipped, Reached, Kept, Appended;
    ghost var n := |r.log|;
    StoreAll(r, ws);
    assert Pending(r.session.value, r.outbox) == r.outbox;
    Drain(r);
    OverrunSays(n, ws, old(r.missed));
    r.NothingMissed();
  }

  /** A resend of the unanswered write is in time as long as nothing was published after it. */
  method ResentInTime(r: Replica, record: Record, next: Record)
    requires r.Valid() && Connected(r) && CaughtUp(r.session.value, r.outbox) && r.cursor == |r.log|
    requires record.OtherRecord? && next.OtherRecord?
    modifies r`session, r`outbox, r`log, r`unsent, r`exposed, r`published, r`latest
    modifies r`cursor, r`ready, r`probe, r`applied, r`missed, r.screen
    ensures r.Valid() && r.log == Appended(old(r.log), [record, next]) && r.cursor == |r.log| && r.missed == old(r.missed)
  {
    hide SystemOk, Overtaken, Kept;
    var n := |r.log|;
    r.HostUnanswered(record);
    r.HostRepeat(n);
    r.HostRecord(next);
    ghost var first, second := Durable(r.log[n]), Durable(r.log[n + 1]);
    assert Pending(r.session.value, r.outbox) == [first, second] == [first] + [second];
    SkippedConcat(n, [first], [second]);
    SkippedOne(n, first);
    SkippedOne(n + 1, second);
    Drain(r);
  }

  // ---- Replay --------------------------------------------------------------------------------------

  lemma {:induction false} KeptOnly(events: seq<DurableEvent>, missed: set<nat>, i: nat)
    requires i < |Kept(events, missed)|
    ensures Kept(events, missed)[i].number !in missed
    decreases |events|
  {
    var most := events[..|events| - 1];
    if i < |Kept(most, missed)| {
      KeptOnly(most, missed, i);
    }
  }

  /** Whatever happens afterwards, a missed event is never applied: no replay goes back behind the cursor. */
  method MissedForGood(r: Replica, x: nat, steps: nat)
    requires r.Valid() && x in r.missed
    modifies r, r.live, r.screen
    ensures r.Valid() && x in r.missed && x <= r.cursor
    ensures forall i :: 0 <= i < |r.applied| ==> r.applied[i].number != x
  {
    hide SystemOk;
    var done := 0;
    while done < steps
      invariant r.Valid() && x in r.missed && r.screen == old(r.screen) && (r.live == old(r.live) || fresh(r.live))
    {
      Step(r);
      done := done + 1;
    }
    r.CursorBound();
    forall i | 0 <= i < |r.applied|
      ensures r.applied[i].number != x
    {
      KeptOnly(r.log[..r.cursor], r.missed, i);
    }
  }

  /** The client takes what the session has sent; a replay passes over nothing. */
  method TakeReplay(r: Replica)
    requires r.Valid() && r.session.Some? && !r.probe && Window(r.session.value, r.unsent) == {}
    modifies r`session, r`cursor, r`ready, r`probe, r`applied, r`missed, r.screen
    ensures r.Valid() && r.session == Some(old(r.session.value).(wire := [])) && !r.probe && r.missed == old(r.missed)
  {
    hide SystemOk, Kept, Take, Jumped, Advanced;
    while r.session.value.wire != []
      invariant r.Valid() && r.session.Some? && !r.probe && r.missed == old(r.missed)
      invariant r.session == Some(old(r.session.value).(wire := r.session.value.wire))
      decreases |r.session.value.wire|
    {
      var _ := r.Consume();
    }
  }

  /** Page after page, up to the session's read of the log. */
  method ReplayAll(r: Replica)
    requires r.Valid() && r.session.Some? && r.session.value.phase.Replaying? && r.session.value.open
    modifies r`session
    ensures r.Valid() && r.session.Some? && r.session.value.phase == Replaying(old(r.session.value.phase.high), old(r.session.value.phase.high))
    ensures r.session.value.open && r.session.value.queue == old(r.session.value.queue)
  {
    hide SystemOk;
    r.ReplayAhead();
    while r.session.value.phase.last < r.session.value.phase.high
      invariant r.Valid() && r.session.Some? && r.session.value.phase.Replaying?
      invariant r.session.value.phase.last <= r.session.value.phase.high == old(r.session.value.phase.high)
      invariant r.session.value.open && r.session.value.queue == old(r.session.value.queue)
      decreases r.session.value.phase.high - r.session.value.phase.last
    {
      var _ := r.ReplayPage(128);
    }
  }

  /** A client that connects again gets everything that no published event has overtaken: the whole rest of the log. */
  method Reconnect(r: Replica)
    requires r.Valid() && r.outbox == [] && !r.probe
    modifies r`session, r`cursor, r`ready, r`probe, r`applied, r`missed, r.screen
    ensures r.Valid() && r.session.Some? && CaughtUp(r.session.value, r.outbox) && !r.probe
    ensures r.cursor == |r.log| && r.missed == old(r.missed) && r.applied == Kept(r.log, r.missed)
  {
    hide SystemOk, Kept, Take, Jumped, Advanced;
    r.Disconnect(false);
    r.Connect();
    var _ := r.ReadHighWater();
    r.CursorBound();
    ReplayAll(r);
    r.SendSnapshot();
    TakeReplay(r);
    r.ReplayDone();
    assert r.log[..|r.log|] == r.log;
  }
}
