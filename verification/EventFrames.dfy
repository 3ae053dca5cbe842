/** Frames on their way from the host to one client, and what taking them does to the client. */
module EventFrames {
  import opened Wrappers
  import opened LiveProjection
  import opened ClientScreen
  import opened ProjectionMirror

  datatype Frame =
    | Welcome(latest: nat)
    | Snapshot(view: RuntimeSnapshot)
    | Durable(event: DurableEvent)
    | Passing(update: Transient)

  /** The client between two frames; `broken` records a transient event before the first snapshot. */
  datatype Local = Local(cursor: nat, ready: bool, broken: bool, view: ClientView)

  /** A cursor ahead of the host's log starts over. */
  function Welcomed(cursor: nat, latest: nat): nat
  {
    if cursor > latest then 0 else cursor
  }

  ghost function Take(c: Local, f: Frame): Local
  {
    match f
    case Welcome(latest) => c.(cursor := Welcomed(c.cursor, latest))
    case Snapshot(s) => c.(view := AfterSnapshot(s), ready := true)
    case Durable(d) => if d.number <= c.cursor then c else c.(view := AfterDurable(c.view, d), cursor := d.number)
    case Passing(t) => if c.ready then c.(view := AfterTransient(c.view, t)) else c.(broken := true)
  }

  ghost function TakeAll(c: Local, fs: seq<Frame>): Local
    decreases |fs|
  {
    if fs == [] then c else TakeAll(Take(c, fs[0]), fs[1..])
  }

  lemma {:induction false} TakeAllConcat(c: Local, fs: seq<Frame>, gs: seq<Frame>)
    ensures TakeAll(c, fs + gs) == TakeAll(TakeAll(c, fs), gs)
    decreases |fs|
  {
    if fs == [] {
      assert fs + gs == gs;
    } else {
      assert (fs + gs)[0] == fs[0] && (fs + gs)[1..] == fs[1..] + gs;
      TakeAllConcat(Take(c, fs[0]), fs[1..], gs);
    }
  }

  lemma TakeAllOne(c: Local, f: Frame)
    ensures TakeAll(c, [f]) == Take(c, f)
  {
    assert [f][1..] == [];
    assert TakeAll(Take(c, f), []) == Take(c, f);
  }

  // ---- Cursors --------------------------------------------------------------------------

  function Advanced(n: nat, f: Frame): nat
  {
    if f.Durable? && f.event.number > n then f.event.number else n
  }

  /** Where a cursor at `n` ends up. */
  function Reached(n: nat, fs: seq<Frame>): nat
    decreases |fs|
  {
    if fs == [] then n else Reached(Advanced(n, fs[0]), fs[1..])
  }

  function Between(n: nat, m: nat): (s: set<nat>)
    ensures forall i :: i in s <==> n < i < m
  {
    if m <= n + 1 then {} else Between(n, m - 1) + {m - 1}
  }

  /** The numbers a cursor at `n` passes over when it takes `f`. */
  function Jumped(n: nat, f: Frame): set<nat>
  {
    if f.Durable? then Between(n, f.event.number) else {}
  }

  /** The numbers a cursor at `n` passes over. */
  function Skipped(n: nat, fs: seq<Frame>): set<nat>
    decreases |fs|
  {
    if fs == [] then {} else Jumped(n, fs[0]) + Skipped(Advanced(n, fs[0]), fs[1..])
  }

  /** A number is passed over exactly when a larger one arrives before it. */
  lemma {:induction false} SkippedExactly(n: nat, fs: seq<Frame>, x: nat)
    ensures x in Skipped(n, fs) <==>
            n < x && exists j :: 0 <= j < |fs| && fs[j].Durable? && fs[j].event.number > x && Below(fs[..j], x)
    decreases |fs|
  {
    if fs != [] && n < x {
      var f, rest := fs[0], fs[1..];
      SkippedExactly(Advanced(n, f), rest, x);
      if f.Durable? && f.event.number > x {
        assert Below(fs[..0], x);
      } else if !f.Durable? || f.event.number < x {
        forall j | 0 <= j < |rest|
          ensures rest[j] == fs[j + 1] && (Below(rest[..j], x) <==> Below(fs[..j + 1], x))
        {
          BelowHead(fs[..j + 1], x);
          assert fs[..j + 1][1..] == rest[..j];
        }
        if j :| 0 <= j < |fs| && fs[j].Durable? && fs[j].event.number > x && Below(fs[..j], x) {
          assert rest[j - 1] == fs[j];
        }
      } else {
        forall j | 0 < j < |fs|
          ensures !Below(fs[..j], x)
        {
          assert fs[..j][0] == f;
        }
      }
    } else if fs != [] {
      SkippedLater(n, n, fs);
    }
  }

  /** Every event among these comes before number `x`. */
  predicate Below(fs: seq<Frame>, x: nat)
  {
    forall i :: 0 <= i < |fs| && fs[i].Durable? ==> fs[i].event.number < x
  }

  lemma BelowHead(fs: seq<Frame>, x: nat)
    requires fs != []
    ensures Below(fs, x) <==> (fs[0].Durable? ==> fs[0].event.number < x) && Below(fs[1..], x)
  {
    assert forall i :: 0 < i < |fs| ==> fs[i] == fs[1..][i - 1];
  }

  lemma {:induction false} SkippedConcat(n: nat, fs: seq<Frame>, gs: seq<Frame>)
    ensures Reached(n, fs + gs) == Reached(Reached(n, fs), gs)
    ensures Skipped(n, fs + gs) == Skipped(n, fs) + Skipped(Reached(n, fs), gs)
    decreases |fs|
  {
    if fs == [] {
      assert fs + gs == gs;
    } else {
      assert (fs + gs)[0] == fs[0] && (fs + gs)[1..] == fs[1..] + gs;
      SkippedConcat(Advanced(n, fs[0]), fs[1..], gs);
    }
  }

  lemma SkippedOne(n: nat, f: Frame)
    ensures Skipped(n, [f]) == Jumped(n, f) && Reached(n, [f]) == Advanced(n, f)
  {
    assert [f][1..] == [];
  }

  /** A cursor further along passes over nothing new, and over nothing behind it. */
  lemma {:induction false} SkippedLater(n: nat, m: nat, fs: seq<Frame>)
    requires n <= m
    ensures Skipped(m, fs) <= Skipped(n, fs) && forall x :: x in Skipped(m, fs) ==> x > m
    ensures Reached(m, fs) == (if Reached(n, fs) < m then m else Reached(n, fs))
    ensures n <= Reached(n, fs)
    decreases |fs|
  {
    if fs != [] {
      SkippedLater(Advanced(n, fs[0]), Advanced(m, fs[0]), fs[1..]);
    }
  }

  predicate Genuine(log: seq<DurableEvent>, fs: seq<Frame>)
  {
    forall i :: 0 <= i < |fs| && fs[i].Durable? ==> 1 <= fs[i].event.number <= |log| && log[fs[i].event.number - 1] == fs[i].event
  }

  predicate Carried(fs: seq<Frame>)
  {
    forall i :: 0 <= i < |fs| ==> fs[i].Durable? || fs[i].Passing?
  }

  predicate NumbersUpTo(fs: seq<Frame>, n: nat)
  {
    forall i :: 0 <= i < |fs| && fs[i].Durable? ==> fs[i].event.number <= n
  }

  predicate RevisionsUpTo(fs: seq<Frame>, r: nat)
  {
    forall i :: 0 <= i < |fs| && fs[i].Passing? ==> fs[i].update.revision <= r
  }

  /** A welcome can only come first, and then it does not move the cursor back. */
  predicate WelcomeFirst(c: Local, fs: seq<Frame>)
  {
    forall i :: 0 <= i < |fs| && fs[i].Welcome? ==> i == 0 && c.cursor <= fs[0].latest
  }

  lemma {:induction false} TakeAllCursor(c: Local, fs: seq<Frame>)
    requires WelcomeFirst(c, fs)
    ensures TakeAll(c, fs).cursor == Reached(c.cursor, fs)
    ensures c.ready ==> TakeAll(c, fs).ready && TakeAll(c, fs).broken == c.broken
    decreases |fs|
  {
    if fs != [] {
      TakeAllCursor(Take(c, fs[0]), fs[1..]);
    }
  }

  lemma {:induction false} ReachedBound(n: nat, fs: seq<Frame>, log: seq<DurableEvent>)
    requires n <= |log| && Genuine(log, fs)
    ensures Reached(n, fs) <= |log|
    decreases |fs|
  {
    if fs != [] {
      forall i | 0 <= i < |fs| - 1 && fs[1..][i].Durable?
        ensures 1 <= fs[1..][i].event.number <= |log| && log[fs[1..][i].event.number - 1] == fs[1..][i].event
      {
        assert fs[1..][i] == fs[i + 1];
      }
      ReachedBound(Advanced(n, fs[0]), fs[1..], log);
    }
  }

  // ---- Old events --------------------------------------------------------------------------

  /** No completed item of the log is still shown. */
  ghost predicate CompletedGone(log: seq<DurableEvent>, shown: map<Key, Text>)
  {
    forall i :: 0 <= i < |log| && log[i].record.ItemCompleted? ==> log[i].record.key !in shown
  }

  /** Events that a fresh snapshot already covers change nothing but the cursor. */
  lemma {:induction false} TakeAllOld(c: Local, fs: seq<Frame>, log: seq<DurableEvent>)
    requires c.ready && Carried(fs) && Genuine(log, fs)
    requires NumbersUpTo(fs, c.view.watermark) && RevisionsUpTo(fs, c.view.revision)
    requires CompletedGone(log, c.view.partial)
    ensures TakeAll(c, fs).view == c.view
    decreases |fs|
  {
    if fs != [] {
      var d := Take(c, fs[0]);
      assert d.view == c.view;
      forall i | 0 <= i < |fs| - 1
        ensures fs[1..][i] == fs[i + 1]
      {
      }
      TakeAllOld(d, fs[1..], log);
    }
  }

  // ---- Transient events -----------------------------------------------------------------------

  function Passings(events: seq<Transient>): (fs: seq<Frame>)
    ensures |fs| == |events| && forall i :: 0 <= i < |fs| ==> fs[i] == Passing(events[i])
  {
    if events == [] then [] else Passings(events[..|events| - 1]) + [Passing(events[|events| - 1])]
  }

  lemma {:induction false} TakeAllPassing(c: Local, events: seq<Transient>)
    requires c.ready
    ensures TakeAll(c, Passings(events)) == c.(view := Takes(c.view, events))
    decreases |events|
  {
    if events != [] {
      var most, e := events[..|events| - 1], events[|events| - 1];
      TakeAllPassing(c, most);
      TakeAllConcat(c, Passings(most), [Passing(e)]);
      TakeAllOne(TakeAll(c, Passings(most)), Passing(e));
    }
  }

  lemma {:induction false} PassingSkipsNothing(n: nat, fs: seq<Frame>)
    requires forall i :: 0 <= i < |fs| ==> !fs[i].Durable?
    ensures Skipped(n, fs) == {} && Reached(n, fs) == n
    decreases |fs|
  {
    if fs != [] {
      PassingSkipsNothing(n, fs[1..]);
    }
  }

  /** What one handler publishes: at most one durable event, then transient ones. */
  function Emission(d: Option<DurableEvent>, events: seq<Transient>): seq<Frame>
  {
    (if d.Some? then [Durable(d.value)] else []) + Passings(events)
  }

  lemma TakeEmission(c: Local, d: Option<DurableEvent>, events: seq<Transient>)
    requires c.ready
    ensures TakeAll(c, Emission(d, events)) ==
            var w := if d.Some? then Take(c, Durable(d.value)) else c; w.(view := Takes(w.view, events))
  {
    if d.Some? {
      TakeAllConcat(c, [Durable(d.value)], Passings(events));
      TakeAllOne(c, Durable(d.value));
      TakeAllPassing(Take(c, Durable(d.value)), events);
    } else {
      assert Emission(d, events) == Passings(events);
      TakeAllPassing(c, events);
    }
  }

  lemma EmissionSkips(n: nat, d: Option<DurableEvent>, events: seq<Transient>)
    ensures Skipped(n, Emission(d, events)) == if d.Some? then Jumped(n, Durable(d.value)) else {}
    ensures Reached(n, Emission(d, events)) == if d.Some? then Advanced(n, Durable(d.value)) else n
  {
    PassingSkipsNothing(n, Passings(events));
    if d.Some? {
      SkippedConcat(n, [Durable(d.value)], Passings(events));
      SkippedOne(n, Durable(d.value));
      PassingSkipsNothing(Advanced(n, Durable(d.value)), Passings(events));
    } else {
      assert Emission(d, events) == Passings(events);
    }
  }
}
