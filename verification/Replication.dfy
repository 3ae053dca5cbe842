/**
 One client of a room across disconnects, slow-subscriber closure and host restarts: the
 store's log, the host's handlers and their publications, the session that replays and then
 forwards, and the client's cursor and screen.  Every method is one step; a caller may take
 them in any order.  A transaction whose answer is lost stores its event without publishing it.
 */
module Replication {
  import opened Wrappers
  import opened LiveProjection
  import opened ClientScreen
  import opened ProjectionMirror
  import opened EventFrames

  datatype Phase =
    | Subscribed(last: nat)                // before the high-water read
    | Replaying(last: nat, high: nat)
    | Forwarding(revision: nat, high: nat)

  /** `covered`: every event up to here was in the log at the high-water read, or was forwarded. */
  datatype Session = Session(queue: seq<Frame>, open: bool, phase: Phase, wire: seq<Frame>, covered: nat)

  function Appended(log: seq<DurableEvent>, records: seq<Record>): (next: seq<DurableEvent>)
    ensures log <= next && |next| == |log| + |records|
    ensures forall i :: 0 <= i < |records| ==> next[|log| + i] == DurableEvent(|log| + i + 1, records[i])
  {
    log + seq(|records|, i requires 0 <= i < |records| => DurableEvent(|log| + i + 1, records[i]))
  }

  ghost predicate LogOk(log: seq<DurableEvent>)
  {
    forall i :: 0 <= i < |log| ==> log[i].number == i + 1
  }

  lemma AppendedOk(log: seq<DurableEvent>, records: seq<Record>)
    requires LogOk(log)
    ensures LogOk(Appended(log, records))
  {
    forall i | 0 <= i < |Appended(log, records)|
      ensures Appended(log, records)[i].number == i + 1
    {
      assert i >= |log| ==> Appended(log, records)[i] == DurableEvent(i + 1, records[i - |log|]);
    }
  }

  /** Events `n + 1` to `m` were stored, but not published by this life of the host. */
  ghost predicate Hidden(unsent: set<nat>, n: nat, m: nat)
  {
    forall i :: n < i <= m ==> i in unsent
  }

  ghost function Since(unsent: set<nat>, n: nat): set<nat>
  {
    set i | i in unsent && i > n
  }

  /** What was stored without being published since the session read the log. */
  ghost function Window(s: Session, unsent: set<nat>): set<nat>
  {
    if s.phase.Subscribed? then {} else Since(unsent, s.phase.high)
  }

  ghost predicate HostOk(log: seq<DurableEvent>, h: HostState, thread: Text, published: nat, latest: nat, outbox: seq<Frame>,
                         unsent: set<nat>)
  {
    && LogOk(log) && Accounted(h) && Substantial(h) && OneThread(h, thread) && CompletedGone(log, Shown(h))
    && published <= |log| && latest <= |log|
    && Genuine(log, outbox) && Carried(outbox) && RevisionsUpTo(outbox, h.revision)
    && Skipped(published, outbox) <= unsent && Hidden(unsent, Reached(published, outbox), |log|)
    && (forall i :: i in unsent ==> 1 <= i <= |log|)
  }

  /** What is still on its way leads the client to the host's state. */
  ghost predicate PhaseOk(log: seq<DurableEvent>, h: HostState, outbox: seq<Frame>, c: Local, s: Session)
  {
    var x := TakeAll(c, s.wire);
    match s.phase
    case Subscribed(last) => !c.ready && s.wire == [] && last <= c.cursor
    case Replaying(last, high) =>
      && !x.ready && last <= x.cursor && last <= high && s.covered <= high <= |log|
      && (forall i :: 0 <= i < |s.wire| ==> s.wire[i].Welcome? || s.wire[i].Durable?)
    case Forwarding(r, high) =>
      && x.ready && r <= x.view.revision && s.covered <= x.cursor && high <= x.cursor
      && (s.open ==>
            var f := TakeAll(x, s.queue + outbox);
            Mirrors(f.view, h) && f.view.watermark <= |log|)
  }

  /** The frames on their way pass over nothing but what was stored without being published. */
  ghost predicate SessionOk(log: seq<DurableEvent>, h: HostState, latest: nat, outbox: seq<Frame>, unsent: set<nat>, c: Local, s: Session)
  {
    && s.covered <= |log|
    && Genuine(log, s.queue) && Genuine(log, s.wire) && Carried(s.queue)
    && NumbersUpTo(s.queue, latest) && RevisionsUpTo(s.queue, h.revision)
    && Skipped(s.covered, s.queue) <= unsent
    && (s.open ==> Skipped(s.covered, s.queue + outbox) <= unsent && Hidden(unsent, Reached(s.covered, s.queue + outbox), |log|))
    && (forall i :: 0 <= i < |s.wire| && s.wire[i].Snapshot? ==> Tallied(AfterSnapshot(s.wire[i].view)))
    && WelcomeFirst(c, s.wire) && Skipped(c.cursor, s.wire) <= Window(s, unsent) && !TakeAll(c, s.wire).broken
    && PhaseOk(log, h, outbox, c, s)
  }

  // ---- What a session keeps -----------------------------------------------------------------

  lemma GenuineExtends(log: seq<DurableEvent>, next: seq<DurableEvent>, fs: seq<Frame>)
    requires Genuine(log, fs) && log <= next
    ensures Genuine(next, fs)
  {
  }

  /** Where an open, forwarding session will have led its client. */
  lemma FinalLocal(log: seq<DurableEvent>, h: HostState, latest: nat, outbox: seq<Frame>, unsent: set<nat>, c: Local, s: Session)
    requires SessionOk(log, h, latest, outbox, unsent, c, s) && s.phase.Forwarding? && s.open
    requires c.cursor <= |log| && Genuine(log, outbox) && Carried(outbox)
    ensures var f := TakeAll(TakeAll(c, s.wire), s.queue + outbox);
            Mirrors(f.view, h) && f.view.watermark <= |log| && f.ready && !f.broken && f.cursor <= |log| && Hidden(unsent, f.cursor, |log|)
  {
    hide Mirrors;
    var x := TakeAll(c, s.wire);
    TakeAllCursor(c, s.wire);
    ReachedBound(c.cursor, s.wire, log);
    TakeAllCursor(x, s.queue + outbox);
    ReachedBound(x.cursor, s.queue + outbox, log);
    SkippedLater(s.covered, x.cursor, s.queue + outbox);
  }

  /** A handler's emission reaches the client of an open session after everything before it. */
  lemma EmitSession(log: seq<DurableEvent>, h: HostState, latest: nat, outbox: seq<Frame>, unsent: set<nat>, c: Local, s: Session,
                    log': seq<DurableEvent>, h': HostState, emitted: seq<Frame>)
    requires SessionOk(log, h, latest, outbox, unsent, c, s) && log <= log' && h.revision <= h'.revision
    requires s.open ==>
               var r := Reached(s.covered, s.queue + outbox);
               Skipped(r, emitted) <= unsent && Hidden(unsent, Reached(r, emitted), |log'|)
    requires s.phase.Forwarding? && s.open ==>
               var f := TakeAll(TakeAll(TakeAll(c, s.wire), s.queue + outbox), emitted);
               Mirrors(f.view, h') && f.view.watermark <= |log'|
    ensures SessionOk(log', h', latest, outbox + emitted, unsent, c, s)
  {
    hide Mirrors, Genuine;
    var all := s.queue + outbox;
    assert all + emitted == s.queue + (outbox + emitted);
    GenuineExtends(log, log', s.queue);
    GenuineExtends(log, log', s.wire);
    SkippedConcat(s.covered, all, emitted);
    if s.phase.Forwarding? && s.open {
      TakeAllConcat(TakeAll(c, s.wire), all, emitted);
    }
  }

  /** The host hands over its oldest emission; it joins the queue, or overflows it. */
  lemma PublishSession(log: seq<DurableEvent>, h: HostState, latest: nat, outbox: seq<Frame>, unsent: set<nat>, c: Local, s: Session, accepted: bool)
    requires SessionOk(log, h, latest, outbox, unsent, c, s) && s.open && outbox != [] && latest <= |log|
    requires Genuine(log, outbox) && Carried(outbox) && RevisionsUpTo(outbox, h.revision)
    ensures var next := if accepted then s.(queue := s.queue + [outbox[0]]) else s.(open := false);
            SessionOk(log, h, Advanced(latest, outbox[0]), outbox[1..], unsent, c, next)
  {
    hide Mirrors, WelcomeFirst, TakeAll, Genuine, Carried, NumbersUpTo, RevisionsUpTo;
    PublishFrames(log, h, latest, outbox, s.queue);
    if accepted {
      assert s.queue + [outbox[0]] + outbox[1..] == s.queue + outbox;
      SkippedConcat(s.covered, s.queue + [outbox[0]], outbox[1..]);
    }
  }

  lemma PublishFrames(log: seq<DurableEvent>, h: HostState, latest: nat, outbox: seq<Frame>, queue: seq<Frame>)
    requires Genuine(log, queue) && Carried(queue) && NumbersUpTo(queue, latest) && RevisionsUpTo(queue, h.revision)
    requires outbox != [] && Genuine(log, outbox) && Carried(outbox) && RevisionsUpTo(outbox, h.revision)
    ensures var next, later := queue + [outbox[0]], Advanced(latest, outbox[0]);
            && Genuine(log, next) && Carried(next) && NumbersUpTo(next, later) && RevisionsUpTo(next, h.revision)
            && NumbersUpTo(queue, later)
  {
  }

  lemma {:induction false} RecordedAt(log: seq<DurableEvent>, i: nat)
    requires LogOk(log) && i < |log|
    ensures Genuine(log, [Durable(log[i])])
  {
  }

  /** The next replayed event. */
  lemma ReplaySession(log: seq<DurableEvent>, h: HostState, latest: nat, outbox: seq<Frame>, unsent: set<nat>, c: Local, s: Session)
    requires SessionOk(log, h, latest, outbox, unsent, c, s) && LogOk(log)
    requires s.phase.Replaying? && s.phase.last < s.phase.high
    ensures SessionOk(log, h, latest, outbox, unsent, c,
                      s.(wire := s.wire + [Durable(log[s.phase.last])], phase := Replaying(s.phase.last + 1, s.phase.high)))
  {
    hide Mirrors, Tallied, AfterSnapshot, TakeAll;
    var e := Durable(log[s.phase.last]);
    var x := TakeAll(c, s.wire);
    TakeAllConcat(c, s.wire, [e]);
    TakeAllOne(x, e);
    TakeAllCursor(c, s.wire);
    SkippedConcat(c.cursor, s.wire, [e]);
    RecordedAt(log, s.phase.last);
    SkippedOne(x.cursor, e);
    assert forall i :: 0 <= i < |s.wire| ==> (s.wire + [e])[i] == s.wire[i];
  }

  lemma ReplayBound(log: seq<DurableEvent>, h: HostState, latest: nat, outbox: seq<Frame>, unsent: set<nat>, c: Local, s: Session)
    requires SessionOk(log, h, latest, outbox, unsent, c, s) && s.phase.Replaying?
    ensures s.phase.last <= s.phase.high <= |log|
  {
  }

  /** The snapshot after the replay, taken while no handler runs. */
  lemma SnapshotSession(log: seq<DurableEvent>, h: HostState, latest: nat, unsent: set<nat>, c: Local, s: Session, view: RuntimeSnapshot)
    requires SessionOk(log, h, latest, [], unsent, c, s) && latest <= |log| && Accounted(h) && CompletedGone(log, Shown(h))
    requires s.phase.Replaying? && s.phase.last == s.phase.high
    requires Lists(view.items, Shown(h)) && view.revision == h.revision && view.truncated == h.truncated && view.watermark == latest
    ensures SessionOk(log, h, latest, [], unsent, c, s.(wire := s.wire + [Snapshot(view)], phase := Forwarding(h.revision, s.phase.high)))
  {
    hide Mirrors, Tallied, Accounted, Lists, Shown, AfterSnapshot, CompletedGone, Reached, Skipped;
    var x := TakeAll(c, s.wire);
    var y := Take(x, Snapshot(view));
    TakeAllConcat(c, s.wire, [Snapshot(view)]);
    TakeAllOne(x, Snapshot(view));
    MirrorSnapshot(view, h);
    SkippedConcat(c.cursor, s.wire, [Snapshot(view)]);
    PassingSkipsNothing(Reached(c.cursor, s.wire), [Snapshot(view)]);
    assert s.queue + [] == s.queue;
    TakeAllOld(y, s.queue, log);
    assert forall i :: 0 <= i < |s.wire| ==> (s.wire + [Snapshot(view)])[i] == s.wire[i];
  }

  /** The session takes one broadcast from its queue and sends it, or drops a transient the snapshot covers. */
  lemma ForwardSession(log: seq<DurableEvent>, h: HostState, latest: nat, outbox: seq<Frame>, unsent: set<nat>, c: Local, s: Session)
    requires SessionOk(log, h, latest, outbox, unsent, c, s) && c.cursor <= |log|
    requires s.phase.Forwarding? && s.queue != []
    ensures SessionOk(log, h, latest, outbox, unsent, c, Forwarded(s))
  {
    hide Mirrors, Tallied, Genuine, NumbersUpTo, RevisionsUpTo, AfterSnapshot, PhaseOk, TakeAll;
    ForwardPhase(log, h, latest, outbox, unsent, c, s);
    assert s.queue + [] == s.queue && Forwarded(s).queue + [] == Forwarded(s).queue;
    ForwardSkips(unsent, c, s, []);
    if s.open {
      ForwardSkips(unsent, c, s, outbox);
    }
    ForwardFrames(log, h, latest, s);
  }

  lemma ForwardPhase(log: seq<DurableEvent>, h: HostState, latest: nat, outbox: seq<Frame>, unsent: set<nat>, c: Local, s: Session)
    requires SessionOk(log, h, latest, outbox, unsent, c, s) && s.phase.Forwarding? && s.queue != []
    ensures PhaseOk(log, h, outbox, c, Forwarded(s)) && !TakeAll(c, Forwarded(s).wire).broken
    ensures s.covered <= Reached(c.cursor, s.wire) && s.phase.high <= Reached(c.cursor, s.wire)
  {
    hide Mirrors, Tallied, Genuine, NumbersUpTo, RevisionsUpTo, AfterSnapshot, Skipped;
    var e := s.queue[0];
    var x := TakeAll(c, s.wire);
    TakeAllConcat(c, s.wire, [e]);
    TakeAllOne(x, e);
    TakeAllCursor(c, s.wire);
    assert (s.queue + outbox)[1..] == s.queue[1..] + outbox && (s.queue + outbox)[0] == e;
    ForwardView(x, e);
  }

  function Forwarded(s: Session): Session
    requires s.phase.Forwarding? && s.queue != []
  {
    var e := s.queue[0];
    if e.Passing? && e.update.revision <= s.phase.revision then s.(queue := s.queue[1..])
    else s.(queue := s.queue[1..], wire := s.wire + [e], covered := Advanced(s.covered, e))
  }

  lemma ForwardSkips(unsent: set<nat>, c: Local, s: Session, rest: seq<Frame>)
    requires s.phase.Forwarding? && s.queue != []
    requires Skipped(s.covered, s.queue + rest) <= unsent && Skipped(c.cursor, s.wire) <= Window(s, unsent)
    requires s.covered <= Reached(c.cursor, s.wire) && s.phase.high <= Reached(c.cursor, s.wire)
    ensures var n := Forwarded(s);
            && Skipped(n.covered, n.queue + rest) <= unsent && Reached(n.covered, n.queue + rest) == Reached(s.covered, s.queue + rest)
            && Skipped(c.cursor, n.wire) <= Window(n, unsent) && n.covered <= Reached(c.cursor, n.wire)
            && Reached(c.cursor, s.wire) <= Reached(c.cursor, n.wire)
  {
    var e := s.queue[0];
    var x := Reached(c.cursor, s.wire);
    assert s.queue + rest == [e] + (s.queue[1..] + rest);
    SkippedConcat(s.covered, [e], s.queue[1..] + rest);
    SkippedConcat(c.cursor, s.wire, [e]);
    SkippedOne(s.covered, e);
    SkippedOne(x, e);
    SkippedLater(s.covered, x, [e]);
  }

  lemma ForwardFrames(log: seq<DurableEvent>, h: HostState, latest: nat, s: Session)
    requires s.phase.Forwarding? && s.queue != []
    requires Genuine(log, s.queue) && Genuine(log, s.wire) && Carried(s.queue) && s.covered <= |log|
    requires NumbersUpTo(s.queue, latest) && RevisionsUpTo(s.queue, h.revision)
    ensures var n := Forwarded(s);
            && Genuine(log, n.queue) && Genuine(log, n.wire) && Carried(n.queue) && n.covered <= |log|
            && NumbersUpTo(n.queue, latest) && RevisionsUpTo(n.queue, h.revision)
  {
  }

  lemma ForwardView(x: Local, e: Frame)
    requires x.ready && (e.Durable? || e.Passing?)
    ensures Take(x, e).ready && Take(x, e).broken == x.broken
    ensures x.view.revision <= Take(x, e).view.revision
    ensures e.Passing? && e.update.revision <= x.view.revision ==> Take(x, e) == x
  {
  }

  /** The client takes the next frame. */
  lemma TakenSession(log: seq<DurableEvent>, h: HostState, latest: nat, outbox: seq<Frame>, unsent: set<nat>, c: Local, s: Session)
    requires SessionOk(log, h, latest, outbox, unsent, c, s) && s.wire != []
    ensures SessionOk(log, h, latest, outbox, unsent, Take(c, s.wire[0]), s.(wire := s.wire[1..]))
    ensures s.wire[0].Passing? ==> c.ready
    ensures s.wire[0].Snapshot? ==> Tallied(AfterSnapshot(s.wire[0].view))
    ensures s.wire[0].Welcome? ==> c.cursor <= s.wire[0].latest
    ensures s.wire[0].Durable? && s.wire[0].event.number > c.cursor ==>
              s.wire[0].event.number <= |log| && s.wire[0].event == log[s.wire[0].event.number - 1]
    ensures Jumped(c.cursor, s.wire[0]) <= Window(s, unsent)
  {
    hide Mirrors;
    var f := s.wire[0];
    var rest := s.wire[1..];
    assert forall i :: 0 <= i < |rest| ==> rest[i] == s.wire[i + 1];
    if f.Passing? && !c.ready {
      StaysBroken(Take(c, f), rest);
    }
  }

  lemma {:induction false} StaysBroken(c: Local, fs: seq<Frame>)
    requires c.broken
    ensures TakeAll(c, fs).broken
    decreases |fs|
  {
    if fs != [] {
      StaysBroken(Take(c, fs[0]), fs[1..]);
    }
  }

  // ---- Handlers --------------------------------------------------------------------------------

  /** One unit of a handler: its durable event, if any, then its transient ones, take a client from `h` to `next`. */
  ghost predicate Follows(h: HostState, watermark: nat, d: Option<DurableEvent>, isNew: bool, events: seq<Transient>, next: HostState)
  {
    && (isNew ==> d.Some?)
    && h.revision <= next.revision
    && (forall i :: 0 <= i < |events| ==> events[i].revision <= next.revision)
    && (forall v :: Mirrors(v, h) && v.watermark <= watermark ==>
                      var w := Takes(if isNew then AfterDurable(v, d.value) else v, events);
                      Mirrors(w, next) && w.watermark == v.watermark)
  }

  /** The log after a handler that wrote `d`, or published an event already written. */
  function Written(log: seq<DurableEvent>, d: Option<DurableEvent>, isNew: bool): seq<DurableEvent>
    requires isNew ==> d.Some?
  {
    if isNew then log + [d.value] else log
  }

  /** An event published again is one of the log, and without effect on live output. */
  ghost predicate Numbered(log: seq<DurableEvent>, h: HostState, d: Option<DurableEvent>, isNew: bool)
  {
    && (isNew ==> d.Some? && d.value.number == |log| + 1)
    && (d.Some? && !isNew ==> 1 <= d.value.number <= |log| && log[d.value.number - 1] == d.value && Harmless(d.value, h))
  }

  predicate Harmless(d: DurableEvent, h: HostState)
  {
    !d.record.TurnEnded? && (d.record.ItemCompleted? ==> d.record.key !in Shown(h))
  }

  lemma HarmlessChangesNothing(d: DurableEvent, h: HostState, v: ClientView)
    requires Harmless(d, h) && Mirrors(v, h)
    ensures AfterDurable(v, d) == v
  {
  }

  /** Whatever a cursor passes over when it takes the emission was stored without being published. */
  lemma EmissionReach(log: seq<DurableEvent>, h: HostState, unsent: set<nat>, n: nat, d: Option<DurableEvent>, isNew: bool, events: seq<Transient>)
    requires Numbered(log, h, d, isNew) && n <= |log| && Hidden(unsent, n, |log|)
    ensures Skipped(n, Emission(d, events)) <= unsent
    ensures Hidden(unsent, Reached(n, Emission(d, events)), |Written(log, d, isNew)|)
  {
    hide Harmless;
    EmissionSkips(n, d, events);
  }

  lemma {:induction false} TakesWatermark(v: ClientView, events: seq<Transient>)
    ensures Takes(v, events).watermark == v.watermark
    decreases |events|
  {
    if events != [] {
      TakesWatermark(v, events[..|events| - 1]);
    }
  }

  lemma FollowsRevision(h: HostState, watermark: nat, d: Option<DurableEvent>, isNew: bool, events: seq<Transient>, next: HostState)
    requires Follows(h, watermark, d, isNew, events, next)
    ensures h.revision <= next.revision
  {
  }

  lemma FollowsAt(h: HostState, watermark: nat, d: Option<DurableEvent>, isNew: bool, events: seq<Transient>, next: HostState, v: ClientView)
    requires Follows(h, watermark, d, isNew, events, next) && Mirrors(v, h) && v.watermark <= watermark
    ensures isNew ==> d.Some?
    ensures var w := Takes(if isNew then AfterDurable(v, d.value) else v, events);
            Mirrors(w, next) && w.watermark == v.watermark
  {
    hide Mirrors, Takes, AfterDurable;
  }

  lemma OpenReach(log: seq<DurableEvent>, h: HostState, latest: nat, outbox: seq<Frame>, unsent: set<nat>, c: Local, s: Session)
    requires SessionOk(log, h, latest, outbox, unsent, c, s) && s.open && Genuine(log, outbox)
    ensures var r := Reached(s.covered, s.queue + outbox); r <= |log| && Hidden(unsent, r, |log|)
  {
    ReachedBound(s.covered, s.queue + outbox, log);
  }

  lemma UnitSession(log: seq<DurableEvent>, h: HostState, latest: nat, outbox: seq<Frame>, unsent: set<nat>, c: Local, s: Session,
                    d: Option<DurableEvent>, isNew: bool, events: seq<Transient>, next: HostState)
    requires SessionOk(log, h, latest, outbox, unsent, c, s) && c.cursor <= |log| && Genuine(log, outbox) && Carried(outbox)
    requires Numbered(log, h, d, isNew) && Follows(h, |log|, d, isNew, events, next)
    ensures SessionOk(Written(log, d, isNew), next, latest, outbox + Emission(d, events), unsent, c, s)
  {
    hide Mirrors, SessionOk, Follows, Takes, AfterDurable, Genuine, Carried, Harmless, Hidden;
    FollowsRevision(h, |log|, d, isNew, events, next);
    if s.open {
      OpenReach(log, h, latest, outbox, unsent, c, s);
      EmissionReach(log, h, unsent, Reached(s.covered, s.queue + outbox), d, isNew, events);
    }
    if s.phase.Forwarding? && s.open {
      FinalLocal(log, h, latest, outbox, unsent, c, s);
      var f := TakeAll(TakeAll(c, s.wire), s.queue + outbox);
      TakeEmission(f, d, events);
      FollowsAt(h, |log|, d, isNew, events, next, f.view);
      if d.Some? && !isNew {
        HarmlessChangesNothing(d.value, h, f.view);
      }
    }
    EmitSession(log, h, latest, outbox, unsent, c, s, Written(log, d, isNew), next, Emission(d, events));
  }

  lemma UnitHost(log: seq<DurableEvent>, h: HostState, thread: Text, published: nat, latest: nat, outbox: seq<Frame>,
                 unsent: set<nat>, d: Option<DurableEvent>, isNew: bool, events: seq<Transient>, next: HostState)
    requires HostOk(log, h, thread, published, latest, outbox, unsent)
    requires Numbered(log, h, d, isNew) && Follows(h, |log|, d, isNew, events, next)
    requires Accounted(next) && Substantial(next) && OneThread(next, thread)
    requires CompletedGone(Written(log, d, isNew), Shown(next))
    ensures HostOk(Written(log, d, isNew), next, thread, published, latest, outbox + Emission(d, events), unsent)
  {
    hide Accounted, Substantial, OneThread, CompletedGone, Mirrors, Takes, AfterDurable, Skipped, Reached, Hidden, Harmless;
    ReachedBound(published, outbox, log);
    EmissionReach(log, h, unsent, Reached(published, outbox), d, isNew, events);
    var log' := Written(log, d, isNew);
    var out := Emission(d, events);
    SkippedConcat(published, outbox, out);
    assert Genuine(log', out) && Carried(out) && RevisionsUpTo(out, next.revision) by {
      EmissionFrames(d, events);
    }
    OutboxGrows(log, log', outbox, out, h.revision, next.revision);
  }

  lemma OutboxGrows(log: seq<DurableEvent>, log': seq<DurableEvent>, outbox: seq<Frame>, out: seq<Frame>, before: nat, after: nat)
    requires log <= log' && before <= after
    requires Genuine(log, outbox) && Carried(outbox) && RevisionsUpTo(outbox, before)
    requires Genuine(log', out) && Carried(out) && RevisionsUpTo(out, after)
    ensures Genuine(log', outbox + out) && Carried(outbox + out) && RevisionsUpTo(outbox + out, after)
  {
  }

  lemma EmissionFrames(d: Option<DurableEvent>, events: seq<Transient>)
    ensures var out := Emission(d, events);
            forall i :: 0 <= i < |out| ==>
                          (d.Some? && i == 0 && out[i] == Durable(d.value))
                          || (exists j :: 0 <= j < |events| && out[i] == Passing(events[j]))
  {
    var out := Emission(d, events);
    var k := if d.Some? then 1 else 0;
    forall i | k <= i < |out|
      ensures exists j :: 0 <= j < |events| && out[i] == Passing(events[j])
    {
      assert out[i] == Passings(events)[i - k];
    }
  }

  lemma DeltaFollows(h: HostState, watermark: nat, k: Key, delta: Text)
    requires Accounted(h) && Substantial(h) && delta != []
    ensures var (next, events) := OnDelta(h, k, delta);
            Follows(h, watermark, None, false, events, next) && Substantial(next)
  {
    var (next, events) := OnDelta(h, k, delta);
    forall v | Mirrors(v, h)
      ensures Mirrors(Takes(v, events), next) && Takes(v, events).watermark == v.watermark
    {
      MirrorDelta(v, h, k, delta);
      TakesWatermark(v, events);
    }
    StillSubstantial(h, k, delta);
  }

  lemma StillSubstantial(h: HostState, k: Key, delta: Text)
    requires Substantial(h) && delta != []
    ensures Substantial(OnDelta(h, k, delta).0)
  {
  }

  lemma CompletedFollows(h: HostState, watermark: nat, d: DurableEvent, k: Key, isNew: bool)
    requires Substantial(h) && d.record == ItemCompleted(k) && (!isNew ==> k !in Shown(h))
    ensures var (next, events) := OnCompleted(h, k);
            Follows(h, watermark, Some(d), isNew, events, next) && Substantial(next)
  {
    var (next, events) := OnCompleted(h, k);
    forall v | Mirrors(v, h)
      ensures var w := Takes(if isNew then AfterDurable(v, d) else v, events); Mirrors(w, next) && w.watermark == v.watermark
    {
      MirrorCompleted(v, h, k, !isNew);
      TakesWatermark(if isNew then AfterDurable(v, d) else v, events);
    }
  }

  lemma TurnEndFollows(h: HostState, watermark: nat, thread: Text, turn: Text, d: DurableEvent, events: seq<Transient>)
    requires OneThread(h, thread) && d.record == TurnEnded(turn) && d.number > watermark
    requires Withdraws(h, Keys(h, thread, turn), events)
    ensures Follows(h, watermark, Some(d), true, events, Without(h, Keys(h, thread, turn), |events|))
  {
    forall v | Mirrors(v, h) && v.watermark <= watermark
      ensures var w := Takes(AfterDurable(v, d), events);
              Mirrors(w, Without(h, Keys(h, thread, turn), |events|)) && w.watermark == v.watermark
    {
      MirrorTurnEnd(v, h, thread, turn, d, events);
    }
  }

  lemma ResetFollows(h: HostState, watermark: nat, events: seq<Transient>)
    requires Withdraws(h, h.items.Keys, events)
    ensures Follows(h, watermark, None, false, events, Without(h, h.items.Keys, |events|))
  {
    forall v | Mirrors(v, h)
      ensures var w := Takes(v, events); Mirrors(w, Without(h, h.items.Keys, |events|)) && w.watermark == v.watermark
    {
      MirrorReset(v, h, events);
    }
  }

  lemma RecordFollows(h: HostState, watermark: nat, d: DurableEvent, isNew: bool)
    requires d.record.TurnEnded? ==> !isNew
    requires d.record.ItemCompleted? ==> d.record.key !in Shown(h)
    ensures Follows(h, watermark, Some(d), isNew, [], h)
  {
  }

  // ---- The whole system as one value -----------------------------------------------------------

  ghost predicate SystemOk(log: seq<DurableEvent>, h: HostState, thread: Text, published: nat, latest: nat, outbox: seq<Frame>,
                           unsent: set<nat>, c: Local, session: Option<Session>)
  {
    && HostOk(log, h, thread, published, latest, outbox, unsent)
    && c.cursor <= |log|
    && (session.Some? ==> SessionOk(log, h, latest, outbox, unsent, c, session.value))
  }

  lemma HandlerOk(log: seq<DurableEvent>, h: HostState, thread: Text, published: nat, latest: nat, outbox: seq<Frame>,
                  unsent: set<nat>, c: Local, session: Option<Session>, d: Option<DurableEvent>, isNew: bool, events: seq<Transient>, next: HostState)
    requires SystemOk(log, h, thread, published, latest, outbox, unsent, c, session)
    requires Numbered(log, h, d, isNew) && Follows(h, |log|, d, isNew, events, next)
    requires Accounted(next) && Substantial(next) && OneThread(next, thread)
    requires CompletedGone(Written(log, d, isNew), Shown(next))
    ensures SystemOk(Written(log, d, isNew), next, thread, published, latest, outbox + Emission(d, events), unsent, c, session)
  {
    hide SessionOk, Follows;
    UnitHost(log, h, thread, published, latest, outbox, unsent, d, isNew, events, next);
    if session.Some? {
      UnitSession(log, h, latest, outbox, unsent, c, session.value, d, isNew, events, next);
    }
  }

  /** An event is stored and its writer sees an error: nothing is published. */
  lemma UnansweredOk(log: seq<DurableEvent>, h: HostState, thread: Text, published: nat, latest: nat, outbox: seq<Frame>,
                     unsent: set<nat>, c: Local, session: Option<Session>, d: DurableEvent)
    requires SystemOk(log, h, thread, published, latest, outbox, unsent, c, session)
    requires d.number == |log| + 1 && (d.record.ItemCompleted? ==> d.record.key !in Shown(h))
    ensures SystemOk(log + [d], h, thread, published, latest, outbox, unsent + {d.number}, c, session)
  {
    hide SessionOk, Accounted, Substantial, OneThread, CompletedGone, Skipped, Reached, Shown;
    GoneAppend(log, h, d);
    if session.Some? {
      UnansweredSession(log, h, latest, outbox, unsent, c, session.value, d);
    }
  }

  lemma UnansweredSession(log: seq<DurableEvent>, h: HostState, latest: nat, outbox: seq<Frame>, unsent: set<nat>, c: Local, s: Session,
                          d: DurableEvent)
    requires SessionOk(log, h, latest, outbox, unsent, c, s) && d.number == |log| + 1
    ensures SessionOk(log + [d], h, latest, outbox, unsent + {d.number}, c, s)
  {
    hide Skipped, Reached, TakeAll, Mirrors, Tallied, AfterSnapshot;
  }

  /** A recovery raises the newest number the host has seen to the end of the log. */
  lemma LoadedOk(log: seq<DurableEvent>, h: HostState, thread: Text, published: nat, latest: nat, outbox: seq<Frame>,
                 unsent: set<nat>, c: Local, session: Option<Session>)
    requires SystemOk(log, h, thread, published, latest, outbox, unsent, c, session)
    ensures SystemOk(log, h, thread, published, |log|, outbox, unsent, c, session)
  {
    hide Accounted, Substantial, OneThread, CompletedGone, Skipped, Reached, PhaseOk, TakeAll;
    if session.Some? {
      RaisedNumbers(session.value.queue, latest, |log|);
    }
  }

  lemma RaisedNumbers(fs: seq<Frame>, n: nat, m: nat)
    requires NumbersUpTo(fs, n) && n <= m
    ensures NumbersUpTo(fs, m)
  {
  }

  lemma ClosedSession(log: seq<DurableEvent>, h: HostState, latest: nat, outbox: seq<Frame>, unsent: set<nat>, c: Local, s: Session, later: nat, rest: seq<Frame>)
    requires SessionOk(log, h, latest, outbox, unsent, c, s) && !s.open && latest <= later
    ensures SessionOk(log, h, later, rest, unsent, c, s)
  {
  }

  lemma PublishOk(log: seq<DurableEvent>, h: HostState, thread: Text, published: nat, latest: nat, outbox: seq<Frame>,
                  unsent: set<nat>, c: Local, session: Option<Session>, accepted: bool)
    requires SystemOk(log, h, thread, published, latest, outbox, unsent, c, session) && outbox != []
    ensures SystemOk(log, h, thread, Advanced(published, outbox[0]), Advanced(latest, outbox[0]), outbox[1..], unsent, c,
                     match session case None => None case Some(s) => Some(Offered(s, outbox[0], accepted)))
  {
    hide SessionOk;
    if session.Some? {
      if session.value.open {
        PublishSession(log, h, latest, outbox, unsent, c, session.value, accepted);
      } else {
        ClosedSession(log, h, latest, outbox, unsent, c, session.value, Advanced(latest, outbox[0]), outbox[1..]);
      }
    }
  }

  /** publish on the client's subscription: the entry is queued, or the subscription is closed. */
  function Offered(s: Session, f: Frame, accepted: bool): Session
  {
    if !s.open then s else if accepted then s.(queue := s.queue + [f]) else s.(open := false)
  }

  lemma SubscribedOk(log: seq<DurableEvent>, h: HostState, thread: Text, published: nat, latest: nat, outbox: seq<Frame>, unsent: set<nat>,
                     c: Local, last: nat)
    requires HostOk(log, h, thread, published, latest, outbox, unsent) && !c.ready && !c.broken && last <= c.cursor <= |log|
    ensures SystemOk(log, h, thread, published, latest, outbox, unsent, c, Some(Session([], true, Subscribed(last), [], published)))
  {
    assert [] + outbox == outbox;
  }

  lemma HighReadOk(log: seq<DurableEvent>, h: HostState, latest: nat, outbox: seq<Frame>, unsent: set<nat>, c: Local, s: Session)
    requires SessionOk(log, h, latest, outbox, unsent, c, s) && s.phase.Subscribed? && c.cursor <= |log| && !c.broken
    ensures s.phase.last <= |log|
    ensures SessionOk(log, h, latest, outbox, unsent, c, s.(phase := Replaying(s.phase.last, |log|), wire := [Welcome(|log|)]))
  {
    TakeAllOne(c, Welcome(|log|));
    assert [Welcome(|log|)][1..] == [];
  }

  lemma QuietHost(log: seq<DurableEvent>, thread: Text, latest: nat)
    requires LogOk(log) && latest <= |log|
    ensures HostOk(log, HostState(0, map[], 0, false), thread, |log|, latest, [], {})
  {
    NothingCosts();
  }

  // ---- What handlers keep of the host --------------------------------------------------------------

  /** The agent sends nothing for an item it has completed. */
  predicate Completed(log: seq<DurableEvent>, k: Key)
  {
    exists i :: 0 <= i < |log| && log[i].record == ItemCompleted(k)
  }

  lemma DeltaKept(log: seq<DurableEvent>, h: HostState, thread: Text, k: Key, delta: Text)
    requires CompletedGone(log, Shown(h)) && OneThread(h, thread) && k.thread == thread && !Completed(log, k)
    ensures CompletedGone(log, Shown(OnDelta(h, k, delta).0)) && OneThread(OnDelta(h, k, delta).0, thread)
  {
  }

  lemma CompletedKept(log: seq<DurableEvent>, h: HostState, thread: Text, k: Key, d: DurableEvent, isNew: bool)
    requires CompletedGone(log, Shown(h)) && OneThread(h, thread) && k.thread == thread && d.record == ItemCompleted(k)
    ensures var next := OnCompleted(h, k).0;
            CompletedGone(Written(log, Some(d), isNew), Shown(next)) && OneThread(next, thread)
  {
  }

  lemma CompletedNotShown(log: seq<DurableEvent>, h: HostState, at: nat)
    requires CompletedGone(log, Shown(h)) && at < |log| && log[at].record.ItemCompleted?
    ensures log[at].record.key !in Shown(h)
  {
  }

  lemma GoneAppend(log: seq<DurableEvent>, h: HostState, d: DurableEvent)
    requires CompletedGone(log, Shown(h)) && (d.record.ItemCompleted? ==> d.record.key !in Shown(h))
    ensures CompletedGone(log + [d], Shown(h))
  {
  }

  lemma WithoutShows(h: HostState, gone: set<Key>, events: nat)
    ensures Shown(Without(h, gone, events)).Keys <= Shown(h).Keys
  {
  }

  lemma WithoutKept(log: seq<DurableEvent>, h: HostState, thread: Text, gone: set<Key>, events: nat)
    requires CompletedGone(log, Shown(h)) && OneThread(h, thread) && Substantial(h)
    ensures var next := Without(h, gone, events);
            CompletedGone(log, Shown(next)) && OneThread(next, thread) && Substantial(next)
  {
  }

  // ---- What the client has applied ------------------------------------------------------------------

  /** The events without those of some numbers, in order. */
  function Kept(events: seq<DurableEvent>, missed: set<nat>): seq<DurableEvent>
  {
    if events == [] then []
    else
      var last := events[|events| - 1];
      Kept(events[..|events| - 1], missed) + if last.number in missed then [] else [last]
  }

  lemma {:induction false} KeptSame(events: seq<DurableEvent>, missed: set<nat>, more: set<nat>)
    requires forall i :: 0 <= i < |events| ==> (events[i].number in missed <==> events[i].number in more)
    ensures Kept(events, missed) == Kept(events, more)
    decreases |events|
  {
    if events != [] {
      KeptSame(events[..|events| - 1], missed, more);
    }
  }

  /** Everything is kept exactly when nothing was missed. */
  lemma {:induction false} KeptWhole(log: seq<DurableEvent>, missed: set<nat>)
    requires LogOk(log) && forall i :: i in missed ==> 1 <= i <= |log|
    ensures |Kept(log, missed)| == |log| - |missed|
    ensures Kept(log, missed) == log <==> missed == {}
    decreases |log|
  {
    if log == [] {
      assert missed == {};
    } else {
      var n := |log| - 1;
      var less := missed - {n + 1};
      KeptSame(log[..n], missed, less);
      KeptWhole(log[..n], less);
      assert log == log[..n] + [log[n]];
      if n + 1 in missed {
        assert missed == less + {n + 1};
      } else {
        assert missed == less;
      }
    }
  }

  /** The client takes event `next`; the ones it passes over are missed. */
  lemma {:induction false} KeptJump(log: seq<DurableEvent>, missed: set<nat>, cursor: nat, next: nat)
    requires LogOk(log) && cursor < next <= |log| && forall i :: i in missed ==> i <= cursor
    ensures Kept(log[..next], missed + Between(cursor, next)) == Kept(log[..cursor], missed) + [log[next - 1]]
  {
    var now := missed + Between(cursor, next);
    KeptOver(log, missed, cursor, next - 1, next);
    assert log[..next][..next - 1] == log[..next - 1];
  }

  lemma {:induction false} KeptOver(log: seq<DurableEvent>, missed: set<nat>, cursor: nat, i: nat, next: nat)
    requires LogOk(log) && cursor <= i < next <= |log| && forall i :: i in missed ==> i <= cursor
    ensures Kept(log[..i], missed + Between(cursor, next)) == Kept(log[..cursor], missed)
    decreases i
  {
    var now := missed + Between(cursor, next);
    if i == cursor {
      KeptSame(log[..cursor], missed, now);
    } else {
      KeptOver(log, missed, cursor, i - 1, next);
      assert log[..i][..i - 1] == log[..i - 1] && log[..i][i - 1].number == i;
    }
  }

  /** Nothing is on its way to the client. */
  ghost predicate CaughtUp(s: Session, outbox: seq<Frame>)
  {
    s.open && s.phase.Forwarding? && s.wire == [] && s.queue == [] && outbox == []
  }

  class Replica {
    const thread: Text
    // The host; the log outlives its processes.
    var log: seq<DurableEvent>
    var live: Projection
    var published: nat
    var latest: nat
    var outbox: seq<Frame>        // what was written and still has to be published
    var session: Option<Session>
    ghost var unsent: set<nat>    // what this process stored without publishing it then
    ghost var exposed: set<nat>   // what was so stored while the client's session was past its read of the log
    // The client process.
    var cursor: nat
    var ready: bool
    var probe: bool
    var screen: Screen
    ghost var applied: seq<DurableEvent>
    ghost var missed: set<nat>    // what the cursor passed over

    function Now(): Local
      reads this, screen
    {
      Local(cursor, ready, false, screen.State())
    }

    ghost predicate Valid()
      reads this, live, screen
    {
      && SystemOk(log, live.State(), thread, published, latest, outbox, unsent, Now(), session)
      && screen.Valid()
      && applied == Kept(log[..cursor], missed)
      && (forall i :: i in missed ==> 1 <= i <= cursor) && missed <= exposed
      && (session.Some? ==> Window(session.value, unsent) <= exposed)
    }

    constructor (thread: Text)
      ensures Valid() && log == [] && applied == [] && missed == exposed == {} && session.None?
      ensures fresh(live) && fresh(screen)
    {
      this.thread := thread;
      log, applied, outbox, session := [], [], [], None;
      unsent, exposed, missed := {}, {}, {};
      published, latest, cursor, ready, probe := 0, 0, 0, false, false;
      live := new Projection();
      screen := new Screen();
      new;
      QuietHost([], thread, 0);
    }

    // ---- Handlers of the host ---------------------------------------------------------

    /** An item-delta of the active turn; deltas carry text, and none follows its item's completion. */
    method HostDelta(k: Key, delta: Text)
      requires Valid() && k.thread == thread && delta != [] && !Completed(log, k)
      modifies this`outbox, live
      ensures Valid() && live.State() == OnDelta(old(live.State()), k, delta).0 && old(outbox) <= outbox
    {
      hide SessionOk, Follows, Accounted, Substantial, OneThread, CompletedGone, Genuine, Carried, Shown, OnDelta;
      ghost var h := live.State();
      var update := live.ApplyDelta(k, delta);
      var events := if update.Some? then [update.value] else [];
      DeltaFollows(h, |log|, k, delta);
      DeltaKept(log, h, thread, k, delta);
      HandlerOk(log, h, thread, published, latest, outbox, unsent, Now(), session, None, false, events, live.State());
      outbox := outbox + Emission(None, events);
    }

    /** RecordCompletedItem finds the event of an item that the log already holds. */
    method Find(k: Key) returns (at: nat)
      ensures at <= |log| && (at < |log| <==> Completed(log, k))
      ensures at < |log| ==> log[at].record == ItemCompleted(k)
    {
      at := 0;
      while at < |log| && log[at].record != ItemCompleted(k)
        invariant 0 <= at <= |log| && forall i :: 0 <= i < at ==> log[i].record != ItemCompleted(k)
      {
        at := at + 1;
      }
    }

    /** A completed item: its event is stored, or found, and published; then the projection follows. */
    method HostCompleted(k: Key)
      requires Valid() && k.thread == thread
      modifies this`outbox, this`log, live
      ensures Valid() && live.State() == OnCompleted(old(live.State()), k).0 && old(outbox) <= outbox
      ensures log == if old(Completed(log, k)) then old(log) else old(log) + [DurableEvent(|old(log)| + 1, ItemCompleted(k))]
    {
      hide SessionOk, Follows, Accounted, Substantial, OneThread, CompletedGone, Genuine, Carried, Shown, OnCompleted, Completed;
      CursorBound();
      ghost var h := live.State();
      var at := Find(k);
      var isNew := at == |log|;
      var d := if isNew then DurableEvent(|log| + 1, ItemCompleted(k)) else log[at];
      if !isNew {
        CompletedNotShown(log, h, at);
      }
      var update := live.ApplyCompleted(k);
      CompletedFollows(h, |log|, d, k, isNew);
      CompletedKept(log, h, thread, k, d, isNew);
      HandlerOk(log, h, thread, published, latest, outbox, unsent, Now(), session, Some(d), isNew, [update], live.State());
      outbox := outbox + Emission(Some(d), [update]);
      log := Written(log, Some(d), isNew);
    }

    /** A durable event without effect on live output; recovery records old items only after a reset. */
    method HostRecord(record: Record)
      requires Valid() && !record.TurnEnded?
      requires record.ItemCompleted? ==> record.key !in Shown(live.State())
      modifies this`outbox, this`log
      ensures Valid() && log == old(log) + [DurableEvent(|old(log)| + 1, record)]
      ensures outbox == old(outbox) + [Durable(DurableEvent(|old(log)| + 1, record))]
    {
      hide SessionOk, Follows, Accounted, Substantial, OneThread, CompletedGone, Genuine, Carried, Shown;
      CursorBound();
      var d := DurableEvent(|log| + 1, record);
      GoneAppend(log, live.State(), d);
      RecordFollows(live.State(), |log|, d, true);
      HandlerOk(log, live.State(), thread, published, latest, outbox, unsent, Now(), session, Some(d), true, [], live.State());
      outbox := outbox + Emission(Some(d), []);
      log := Written(log, Some(d), true);
    }

    /**
     An event is stored although its writer sees an error, and the process goes on: nothing is
     published.  The errors after which output may still be shown for a completed item are fatal.
     */
    method HostUnanswered(record: Record)
      requires Valid()
      requires record.ItemCompleted? ==> record.key !in Shown(live.State())
      modifies this`log, this`unsent, this`exposed
      ensures Valid() && log == old(log) + [DurableEvent(|old(log)| + 1, record)]
      ensures unsent == old(unsent) + {|log|}
      ensures exposed == if session.Some? && !session.value.phase.Subscribed? then old(exposed) + {|log|} else old(exposed)
    {
      hide SystemOk;
      var d := DurableEvent(|log| + 1, record);
      CursorBound();
      UnansweredOk(log, live.State(), thread, published, latest, outbox, unsent, Now(), session, d);
      log := log + [d];
      unsent := unsent + {d.number};
      if session.Some? && !session.value.phase.Subscribed? {
        exposed := exposed + {d.number};
      }
    }

    lemma CursorBound()
      requires Valid()
      ensures cursor <= |log| && LogOk(log) && forall i :: i in unsent ==> 1 <= i <= |log|
      ensures forall d :: (log + [d])[..cursor] == log[..cursor]
    {
    }

    lemma ReplayAhead()
      requires Valid() && session.Some? && session.value.phase.Replaying?
      ensures session.value.phase.last <= session.value.phase.high <= |log|
    {
    }

    /** A client that has taken a whole replay has reached the session's read of the log. */
    lemma ReplayDone()
      requires Valid() && session.Some? && session.value.phase.Forwarding? && session.value.wire == []
      ensures session.value.phase.high <= cursor <= |log|
    {
    }

    /** The log was applied up to the cursor exactly when nothing was missed. */
    lemma NothingMissed()
      requires Valid()
      ensures applied == log[..cursor] <==> missed == {}
    {
      KeptWhole(log[..cursor], missed);
    }

    /** An event published again: a resent command, or an item that recovery finds recorded. */
    method HostRepeat(i: nat)
      requires Valid() && i < |log| && !log[i].record.TurnEnded?
      modifies this`outbox
      ensures Valid() && outbox == old(outbox) + [Durable(log[i])]
    {
      hide SessionOk;
      var d := log[i];
      RecordFollows(live.State(), |log|, d, false);
      HandlerOk(log, live.State(), thread, published, latest, outbox, unsent, Now(), session, Some(d), false, [], live.State());
      outbox := outbox + Emission(Some(d), []);
    }

    /** FinishTurn, then removeTurn. */
    method HostTurnEnded(turn: Text) returns (events: seq<Transient>)
      requires Valid()
      modifies this`outbox, this`log, live
      ensures Valid() && log == old(log) + [DurableEvent(|old(log)| + 1, TurnEnded(turn))]
      ensures outbox == old(outbox) + Emission(Some(DurableEvent(|log|, TurnEnded(turn))), events)
      ensures Shown(live.State()).Keys <= old(Shown(live.State()).Keys)
    {
      hide SessionOk, Follows, Accounted, Substantial, OneThread, CompletedGone, Genuine, Carried, Shown, Without, Withdraws, Keys;
      CursorBound();
      ghost var h := live.State();
      var d := DurableEvent(|log| + 1, TurnEnded(turn));
      events := live.RemoveTurn(thread, turn);
      TurnEndFollows(h, |log|, thread, turn, d, events);
      WithoutKept(log, h, thread, Keys(h, thread, turn), |events|);
      WithoutShows(h, Keys(h, thread, turn), |events|);
      GoneAppend(log, live.State(), d);
      HandlerOk(log, h, thread, published, latest, outbox, unsent, Now(), session, Some(d), true, events, live.State());
      outbox := outbox + Emission(Some(d), events);
      log := Written(log, Some(d), true);
    }

    /** resetProjection. */
    method HostReset()
      requires Valid()
      modifies this`outbox, live
      ensures Valid() && live.State().items == map[] && old(outbox) <= outbox
    {
      hide SessionOk, Follows, Accounted, Substantial, OneThread, CompletedGone, Genuine, Carried, Shown, Withdraws;
      ghost var h := live.State();
      var events := live.Reset();
      ResetFollows(h, |log|, events);
      WithoutKept(log, h, thread, h.items.Keys, |events|);
      HandlerOk(log, h, thread, published, latest, outbox, unsent, Now(), session, None, false, events, live.State());
      assert h.items - h.items.Keys == map[];
      outbox := outbox + Emission(None, events);
    }

    /** loadRecovery within one life: the newest number becomes that of the log. */
    method HostLoad()
      requires Valid()
      modifies this`latest
      ensures Valid() && latest == |log|
    {
      hide SystemOk;
      LoadedOk(log, live.State(), thread, published, latest, outbox, unsent, Now(), session);
      latest := |log|;
    }

    /** The handler's next broadcast; `accepted` is the hub's verdict on this subscriber. */
    method PublishNext(accepted: bool)
      requires Valid() && outbox != []
      modifies this`outbox, this`published, this`latest, this`session
      ensures Valid() && outbox == old(outbox)[1..]
      ensures session == match old(session) case None => None case Some(s) => Some(Offered(s, old(outbox)[0], accepted))
    {
      hide SessionOk;
      PublishOk(log, live.State(), thread, published, latest, outbox, unsent, Now(), session, accepted);
      var f := outbox[0];
      published, latest := Advanced(published, f), Advanced(latest, f);
      session := match session case None => None case Some(s) => Some(Offered(s, f, accepted));
      outbox := outbox[1..];
    }

    /**
     The host process dies and a new one serves the same log, with what the last one had stored
     at its end without learning of it.
     */
    method Restart(recovered: bool, unanswered: seq<Record>)
      requires Valid()
      modifies this`live, this`log, this`published, this`latest, this`outbox, this`session, this`unsent
      ensures Valid() && fresh(live) && log == Appended(old(log), unanswered) && session.None? && outbox == [] && unsent == {}
    {
      hide SessionOk, HostOk, Kept, Appended, LogOk;
      CursorBound();
      AppendedOk(log, unanswered);
      session, outbox, unsent := None, [], {};
      assert Appended(log, unanswered)[..cursor] == log[..cursor];
      log := Appended(log, unanswered);
      live := new Projection();
      published, latest := |log|, if recovered then |log| else 0;
      QuietHost(log, thread, latest);
    }

    // ---- The session -------------------------------------------------------------------------

    /** The client connects; the host subscribes before it reads anything. */
    method Connect()
      requires Valid() && session.None?
      modifies this`session, this`ready
      ensures Valid() && session.Some? && !ready
      ensures session.value.phase.Subscribed? && session.value.open && session.value.queue == []
    {
      hide SessionOk;
      ready := false;
      var last := if probe then 0 else cursor;
      SubscribedOk(log, live.State(), thread, published, latest, outbox, unsent, Now(), last);
      session := Some(Session([], true, Subscribed(last), [], published));
    }

    /** Either side drops the connection, with whatever was on the wire. */
    method Disconnect(refused: bool)
      requires Valid()
      modifies this`session, this`probe
      ensures Valid() && session.None? && (probe == old(probe) || (refused && !ready))
    {
      // Anything but a welcome makes the client ask with an empty cursor next time.
      probe := probe || (refused && !ready);
      session := None;
    }

    /** The high-water read and the welcome; the cursor is never ahead of the log. */
    method ReadHighWater() returns (ok: bool)
      requires Valid() && session.Some? && session.value.phase.Subscribed?
      modifies this`session
      ensures Valid() && ok && session.Some?
      ensures session.value.phase.Replaying? && session.value.phase.last <= session.value.phase.high == |log|
      ensures session.value.open == old(session).value.open && session.value.queue == old(session).value.queue
    {
      hide SessionOk;
      var s := session.value;
      HighReadOk(log, live.State(), latest, outbox, unsent, Now(), s);
      if s.phase.last > |log| {
        return false;
      }
      session := Some(s.(phase := Replaying(s.phase.last, |log|), wire := [Welcome(|log|)]));
      return true;
    }

    /** One page of replay, of at most `limit` events. */
    method ReplayPage(limit: nat) returns (ok: bool)
      requires Valid() && session.Some? && session.value.phase.Replaying? && limit > 0
      requires session.value.phase.last < session.value.phase.high
      modifies this`session
      ensures Valid() && session.Some? && session.value.queue == old(session).value.queue
      ensures session.value.phase.Replaying? && session.value.phase.high == old(session).value.phase.high
      ensures session.value.phase.last <= session.value.phase.high && session.value.open == old(session).value.open
      ensures ok <==> old(session).value.open
      ensures ok ==> session.value.phase.Replaying? && session.value.phase.last > old(session).value.phase.last
    {
      hide SessionOk;
      if !session.value.open {
        return false;
      }
      ghost var first := session.value.phase.last;
      var sent := 0;
      while sent < limit && session.value.phase.last < session.value.phase.high
        invariant session.Some? && session.value.phase.Replaying? && session.value.phase.last == first + sent <= session.value.phase.high
        invariant session.value.phase.high == old(session).value.phase.high
        invariant session.value.open == old(session).value.open && session.value.queue == old(session).value.queue
        invariant SystemOk(log, live.State(), thread, published, latest, outbox, unsent, Now(), session)
        invariant sent == 0 ==> session.value.phase.last < session.value.phase.high
        decreases limit - sent
      {
        var s := session.value;
        ReplaySession(log, live.State(), latest, outbox, unsent, Now(), s);
        ReplayBound(log, live.State(), latest, outbox, unsent, Now(), s);
        session := Some(s.(wire := s.wire + [Durable(log[s.phase.last])], phase := Replaying(s.phase.last + 1, s.phase.high)));
        sent := sent + 1;
      }
      ok := true;
    }

    /** The snapshot, served by the command loop between two handlers. */
    method SendSnapshot()
      requires Valid() && outbox == [] && session.Some?
      requires session.value.phase.Replaying? && session.value.phase.last == session.value.phase.high
      modifies this`session
      ensures Valid() && session.Some? && session.value.phase.Forwarding? && session.value.phase.high == old(session).value.phase.high
      ensures session.value.open == old(session).value.open && session.value.queue == old(session).value.queue
    {
      hide SessionOk;
      var s := session.value;
      var revision, items := live.Snapshot();
      var view := RuntimeSnapshot(revision, latest, items, live.truncated);
      SnapshotSession(log, live.State(), latest, unsent, Now(), s, view);
      session := Some(s.(wire := s.wire + [Snapshot(view)], phase := Forwarding(revision, s.phase.high)));
    }

    /** ServeMember's event branch. */
    method Forward()
      requires Valid() && session.Some? && session.value.phase.Forwarding? && session.value.queue != []
      modifies this`session
      ensures Valid() && session == Some(Forwarded(old(session).value))
    {
      hide SessionOk;
      ForwardSession(log, live.State(), latest, outbox, unsent, Now(), session.value);
      session := Some(Forwarded(session.value));
    }

    // ---- The client ------------------------------------------------------------------------------

    /** A durable event moves the cursor to itself, and is skipped behind it. */
    method TakeEvent(d: DurableEvent)
      requires LogOk(log) && cursor <= |log| && screen.Valid()
      requires d.number > cursor ==> d.number <= |log| && d == log[d.number - 1]
      requires applied == Kept(log[..cursor], missed) && forall i :: i in missed ==> 1 <= i <= cursor
      modifies this`cursor, this`applied, this`missed, screen
      ensures Now() == Take(old(Now()), Durable(d)) && screen.Valid()
      ensures applied == Kept(log[..cursor], missed) && forall i :: i in missed ==> 1 <= i <= cursor
      ensures missed == old(missed) + Jumped(old(cursor), Durable(d))
      ensures applied == if cursor == old(cursor) then old(applied) else old(applied) + [log[cursor - 1]]
    {
      hide Kept, AfterDurable, Tallied, LogOk;
      if d.number > cursor {
        KeptJump(log, missed, cursor, d.number);
        missed := missed + Between(cursor, d.number);
        applied := applied + [d];
        screen.TakeDurable(d);
        cursor := d.number;
      }
    }

    /**
     The client takes one frame.  A durable event past the cursor is taken, and what it passes over
     is missed: only events that were stored without being published since this session read the
     log.  No transient event precedes the snapshot, and the cursor never returns to zero.
     */
    method Consume() returns (ok: bool)
      requires Valid() && session.Some? && session.value.wire != []
      modifies this`session, this`cursor, this`ready, this`probe, this`applied, this`missed, screen
      ensures Valid() && cursor <= |log|
      ensures ok || (old(probe) && !probe && session.None? && applied == old(applied))
      ensures var f := old(session).value.wire[0];
              && cursor == Advanced(old(cursor), f)
              && missed == old(missed) + Jumped(old(cursor), f)
              && Jumped(old(cursor), f) <= Window(old(session).value, unsent)
              && applied == if cursor == old(cursor) then old(applied) else old(applied) + [log[cursor - 1]]
      ensures ok ==> Now() == Take(old(Now()), old(session).value.wire[0])
      ensures ok ==> session == Some(old(session).value.(wire := old(session).value.wire[1..])) && probe == old(probe)
    {
      hide SessionOk, HostOk, Kept, AfterDurable, AfterSnapshot, AfterTransient, Tallied, LogOk;
      CursorBound();
      var s := session.value;
      var f := s.wire[0];
      TakenSession(log, live.State(), latest, outbox, unsent, Now(), s);
      session := Some(s.(wire := s.wire[1..]));
      ok := true;
      match f {
        case Welcome(high) =>
          cursor := Welcomed(cursor, high);
          if probe {
            probe := false;
            session := None;
            ok := false;
          }
        case Snapshot(view) =>
          screen.TakeSnapshot(view);
          ready := true;
        case Durable(d) =>
          TakeEvent(d);
        case Passing(update) =>
          ok := ready;
          session := if ok then session else None;
          if ok {
            screen.TakeTransient(update);
          }
      }
    }

    /**
     A client that has taken everything shows what the host shows.  It has applied the log but for
     what it missed and a tail that was stored without being published.
     */
    lemma CaughtUpAgrees()
      requires Valid() && session.Some? && CaughtUp(session.value, outbox)
      ensures cursor <= |log| && Hidden(unsent, cursor, |log|) && missed <= exposed
      ensures applied == Kept(log[..cursor], missed)
      ensures applied == log <==> cursor == |log| && missed == {}
      ensures screen.partial == Shown(live.State()) && screen.truncated == live.truncated
      ensures screen.used <= live.used
    {
      var s := session.value;
      FinalLocal(log, live.State(), latest, outbox, unsent, Now(), s);
      assert TakeAll(TakeAll(Now(), s.wire), s.queue + outbox) == Now();
      ClientCountsLess(screen.State(), live.State());
      KeptWhole(log[..cursor], missed);
      if cursor == |log| {
        assert log[..cursor] == log;
      }
    }
  }

  /**
   Any life of a host and a client: the client has applied the log up to its cursor, once and in
   order, but for events stored without being published while its session was past the read of
   the log.  Nothing is missed when there is no such event.
   */
  method Live(thread: Text, steps: nat) returns (r: Replica)
    ensures r.Valid() && r.applied == Kept(r.log[..r.cursor], r.missed) && r.missed <= r.exposed
    ensures r.exposed == {} ==> r.applied == r.log[..r.cursor]
  {
    hide SystemOk;
    r := new Replica(thread);
    var done := 0;
    while done < steps
      invariant fresh(r) && fresh(r.live) && fresh(r.screen) && r.Valid()
    {
      Step(r);
      done := done + 1;
    }
    r.NothingMissed();
  }

  /** One step of anyone, with arbitrary input; what was missed stays so. */
  method Step(r: Replica)
    requires r.Valid()
    modifies r, r.live, r.screen
    ensures r.Valid() && r.screen == old(r.screen) && (r.live == old(r.live) || fresh(r.live))
    ensures old(r.missed) <= r.missed && old(r.exposed) <= r.exposed
  {
    hide SystemOk;
    var choice: nat := *;
    var k: Key := *;
    var text: Text := *;
    var number: nat := *;
    var verdict: bool := *;
    var records: seq<Record> := *;
    if choice < 7 {
      HandlerStep(r, choice, k, text, number);
    } else if choice == 7 && r.outbox != [] {
      r.PublishNext(verdict);
    } else if choice == 8 {
      r.Restart(verdict, records);
    } else if choice == 9 {
      r.Disconnect(verdict);
    } else if choice == 10 && r.session.None? {
      r.Connect();
    } else if r.session.Some? {
      SessionStep(r, choice, number);
    }
  }

  method HandlerStep(r: Replica, choice: nat, k: Key, text: Text, number: nat)
    requires r.Valid()
    modifies r`outbox, r`log, r`latest, r`unsent, r`exposed, r.live
    ensures r.Valid() && old(r.exposed) <= r.exposed
  {
    hide SystemOk;
    if choice == 0 && k.thread == r.thread && text != [] {
      var at := r.Find(k);
      if at == |r.log| {
        r.HostDelta(k, text);
      }
    } else if choice == 1 && k.thread == r.thread {
      r.HostCompleted(k);
    } else if choice == 2 {
      var at := r.Find(k);
      r.HostRecord(if at == |r.log| && k !in r.live.items then ItemCompleted(k) else OtherRecord);
    } else if choice == 3 && number < |r.log| && !r.log[number].record.TurnEnded? {
      r.HostRepeat(number);
    } else if choice == 4 {
      if number == 0 {
        r.HostLoad();
      } else {
        var _ := r.HostTurnEnded(text);
      }
    } else if choice == 5 {
      r.HostReset();
    } else if choice == 6 {
      var at := r.Find(k);
      r.HostUnanswered(if number == 0 then TurnEnded(text) else if at == |r.log| && k !in r.live.items then ItemCompleted(k) else OtherRecord);
    }
  }

  method SessionStep(r: Replica, choice: nat, limit: nat)
    requires r.Valid() && r.session.Some?
    modifies r`session, r`cursor, r`ready, r`probe, r`applied, r`missed, r.screen
    ensures r.Valid() && old(r.missed) <= r.missed
  {
    hide SystemOk;
    var s := r.session.value;
    if choice == 11 && s.wire != [] {
      var _ := r.Consume();
    } else if s.phase.Subscribed? {
      var _ := r.ReadHighWater();
    } else if s.phase.Replaying? {
      if s.phase.last < s.phase.high && limit > 0 {
        var _ := r.ReplayPage(limit);
      } else if s.phase.last == s.phase.high && r.outbox == [] {
        r.SendSnapshot();
      }
    } else if s.queue != [] {
      r.Forward();
    }
  }
}
