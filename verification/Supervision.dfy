/**
 One child process at a time: how it is stopped, and when the next one may start.  A checkpoint
 that reports an error may have been stored all the same.
 */
module Supervision {
  import opened Wrappers

  // ---- One child --------------------------------------------------------------------------

  datatype Signal = Terminate | Kill

  datatype StopError = ContextEnded | Observation | SignalFailed | ReapFailed | UnsafeIdentity

  /** ownedChildState: its observer and its stopper take the lock in turn. */
  class OwnedChild {
    var exited: bool             // the process, whether or not anyone has looked
    var reaped: bool
    var cleanupFailed: bool
    var done: bool
    var reaps: nat
    var signals: seq<Signal>
    ghost var reapedAt: nat      // signals sent before the reap

    ghost predicate Valid()
      reads this
    {
      && reaps == (if reaped then 1 else 0)
      && (reaped ==> exited && done && reapedAt == |signals|)
      && (cleanupFailed ==> reaped)
    }

    constructor ()
      ensures Valid() && !reaped && signals == []
    {
      exited, reaped, cleanupFailed, done, reaps, signals, reapedAt := false, false, false, false, 0, [], 0;
    }

    /** hooks.reap: the process leaves the table, once. */
    method Reap() returns (clean: bool)
      requires Valid() && exited && !reaped
      modifies this`reaps
      ensures reaps == old(reaps) + 1
    {
      reaps := reaps + 1;
      clean := *;
    }

    /** hooks.signalGroup: never for a child that was reaped, whose number may belong to another process. */
    method SendSignal(s: Signal) returns (ok: bool)
      requires Valid() && !reaped
      modifies this`signals, this`exited
      ensures Valid() && signals == old(signals) + [s]
    {
      signals := signals + [s];
      exited := *;
      ok := *;
    }

    /** hooks.observeExit; an exit is only reported when it happened. */
    method Observe() returns (ok: bool, seen: bool)
      requires Valid()
      modifies this`exited
      ensures Valid() && (old(exited) ==> exited) && (ok && seen ==> exited)
    {
      var now: bool := *;
      exited := exited || now;
      ok := *;
      seen := exited;
    }

    /** reapLocked. */
    method ReapLocked()
      requires Valid() && exited
      modifies this
      ensures Valid() && reaped && signals == old(signals)
      ensures old(reaped) ==> reaps == old(reaps) && cleanupFailed == old(cleanupFailed)
    {
      if reaped {
        return;
      }
      var clean := Reap();
      if !clean {
        cleanupFailed := true;
      }
      reapedAt := |signals|;
      reaped, done := true, true;
    }

    /** observeAndReap, after its blocking observation. */
    method ObserveAndReap()
      requires Valid()
      modifies this
      ensures Valid() && (old(reaped) ==> reaped) && signals == old(signals) && done
    {
      var ok, seen := Observe();
      if reaped {
        return;
      }
      if !ok || !seen {
        done := true;
        return;
      }
      ReapLocked();
    }

    /** signalOrReap. */
    method SignalOrReap(s: Signal) returns (e: Option<StopError>)
      requires Valid()
      modifies this
      ensures Valid() && (old(reaped) ==> reaped && signals == old(signals) && e.None?)
      ensures signals == old(signals) || (signals == old(signals) + [s] && !old(reaped))
    {
      if reaped {
        return None;
      }
      var ok, seen := Observe();
      if !ok {
        return Some(Observation);
      }
      if seen {
        ReapLocked();
        return None;
      }
      var sent := SendSignal(s);
      return if sent then None else Some(SignalFailed);
    }

    /** Time passes: the process may exit, and its observer may reap it. */
    method Meanwhile()
      requires Valid()
      modifies this
      ensures Valid() && (old(reaped) ==> reaped) && signals == old(signals)
    {
      var look: bool := *;
      if look {
        ObserveAndReap();
      }
    }

    /** stopOwnedChild: it reports success only for a child that was reaped cleanly. */
    method Stop(safe: bool) returns (e: Option<StopError>)
      requires Valid()
      modifies this
      ensures Valid() && (e.None? ==> reaped && !cleanupFailed)
      ensures old(reaped) ==> signals == old(signals) && reaps == 1
    {
      if reaped {
        return if cleanupFailed then Some(ReapFailed) else None;
      }
      if !safe {
        return Some(UnsafeIdentity);
      }
      e := Attempt(Terminate, true);
      if e.Some? || reaped {
        return if e.Some? then e else Outcome();
      }
      e := Attempt(Kill, false);
      if e.Some? || reaped {
        return if e.Some? then e else Outcome();
      }
      var polls: nat := *;
      while polls > 0
        invariant Valid()
      {
        Meanwhile();
        if reaped {
          return Outcome();
        }
        var ok, seen := Observe();
        if !ok {
          return Some(Observation);
        }
        if seen {
          ReapLocked();
          return Outcome();
        }
        polls := polls - 1;
      }
      return Some(ContextEnded);
    }

    /** reapResult. */
    function Outcome(): Option<StopError>
      reads this
    {
      if cleanupFailed then Some(ReapFailed) else None
    }

    /** Wait for the reap, then send the signal; before the first signal the wait follows the closing of stdin. */
    method Attempt(s: Signal, first: bool) returns (e: Option<StopError>)
      requires Valid()
      modifies this
      ensures Valid() && (old(reaped) ==> reaped)
    {
      Meanwhile();
      if reaped {
        return None;
      }
      var ended: bool := *;
      if ended {
        return Some(ContextEnded);
      }
      e := SignalOrReap(s);
    }
  }

  // ---- The succession of children ---------------------------------------------------------------

  /** The generation is the child's index. */
  datatype Checkpoint = Running(generation: nat) | Stopped(generation: nat)

  /** running(g), stopped(g), running(g'), stopped(g'), … with g < g'. */
  predicate Alternates(cs: seq<Checkpoint>)
  {
    && (forall i :: 0 <= i < |cs| ==> (cs[i].Running? <==> i % 2 == 0))
    && (forall i :: 0 < i < |cs| ==>
                      if cs[i].Stopped? then cs[i].generation == cs[i - 1].generation else cs[i].generation > cs[i - 1].generation)
  }

  /** Storing the row that is already there changes nothing. */
  function Stored(cs: seq<Checkpoint>, c: Checkpoint): seq<Checkpoint>
  {
    if cs != [] && cs[|cs| - 1] == c then cs else cs + [c]
  }

  predicate AllReaped(children: seq<OwnedChild>)
    reads children
  {
    forall i :: 0 <= i < |children| ==> children[i].reaped
  }

  ghost predicate Sound(children: seq<OwnedChild>)
    reads children
  {
    && (forall i :: 0 <= i < |children| ==> children[i].Valid())
    && (forall i, j :: 0 <= i < j < |children| ==> children[i] != children[j])
  }

  function NextBackoff(current: nat, maximum: nat): (d: nat)
    ensures d <= maximum && (current <= maximum ==> current <= d)
  {
    if current >= maximum || current > maximum / 2 then maximum else current * 2
  }

  datatype Cleanup = NotRun | Clean | Failed

  datatype Session = Session(child: nat, cleanup: Cleanup, persisted: bool)

  datatype StopOutcome = Done | CleanupFailed | NotPersisted

  datatype StartOutcome = Ready(session: Session) | TryAgain | GiveUp

  class Runtime {
    const initial: nat
    const maximum: nat
    var children: seq<OwnedChild>     // every child started
    var durable: seq<Checkpoint>      // every state of the stored checkpoint
    var delays: seq<nat>              // every restart delay slept

    ghost predicate Valid()
      reads this, children
    {
      && initial <= maximum
      && Sound(children)
      && Alternates(durable)
      && (forall i :: 0 <= i < |durable| ==> durable[i].generation < |children|)
      && (forall i :: 0 <= i < |delays| ==> delays[i] <= maximum)
    }

    /** No child is left, and the last stored checkpoint says so. */
    predicate Quiet()
      reads this, children
    {
      AllReaped(children) && |durable| % 2 == 0
    }

    /** The session's child is the only one left, and the last stored checkpoint names it. */
    predicate Serving(s: Session)
      reads this, children
    {
      && s.child + 1 == |children| && AllReaped(children[..s.child])
      && |durable| % 2 == 1 && durable[|durable| - 1] == Running(s.child)
    }

    /** What a session leaves behind: served, stopped, or half stopped. */
    predicate Held(s: Session)
      reads this, children
    {
      && s.child < |children|
      && match s.cleanup
      case NotRun => !s.persisted && Serving(s)
      case Clean => if s.persisted then Quiet() else (Serving(s) && children[s.child].reaped) || Recorded(s)
      case Failed => !s.persisted && Serving(s)
    }

    /** The stop was stored, whether or not anyone was told. */
    predicate Recorded(s: Session)
      reads this, children
    {
      Quiet() && durable != [] && durable[|durable| - 1] == Stopped(s.child)
    }

    constructor (initial: nat, maximum: nat)
      requires initial <= maximum
      ensures Valid() && Quiet() && children == []
    {
      this.initial, this.maximum := initial, maximum;
      children, durable, delays := [], [], [];
    }

    /** processes.Start: only with nothing left of any earlier child. */
    method Spawn() returns (ok: bool)
      requires Valid() && Quiet()
      modifies this`children
      ensures Valid() && AllReaped(old(children))
      ensures if ok then |children| == |old(children)| + 1 && children[..|old(children)|] == old(children) && fresh(children[|old(children)|])
              else children == old(children)
    {
      ok := *;
      if ok {
        var child := new OwnedChild();
        children := children + [child];
      }
    }

    /** StopCurrent. */
    method StopCurrent(child: nat) returns (ok: bool)
      requires Valid() && child < |children|
      modifies children[child]
      ensures Valid() && (ok ==> children[child].reaped && !children[child].cleanupFailed)
      ensures old(children[child].reaped) ==> children[child].reaped
    {
      var safe: bool := *;
      var e := children[child].Stop(safe);
      ok := e.None?;
    }

    /** The checkpoint is one row; a call that reports an error may have changed it. */
    method Store(c: Checkpoint) returns (ok: bool)
      requires Valid() && Alternates(Stored(durable, c)) && c.generation < |children|
      modifies this`durable
      ensures Valid() && (durable == Stored(old(durable), c) || (!ok && durable == old(durable)))
    {
      var committed: bool := *;
      var answered: bool := *;
      if committed {
        durable := Stored(durable, c);
      }
      ok := committed && answered;
    }

    method Sleep(delay: nat) returns (ok: bool)
      requires Valid() && delay <= maximum
      modifies this`delays
      ensures Valid() && delays == old(delays) + [delay]
    {
      delays := delays + [delay];
      ok := *;
    }

    /** Supervisor.Stop: the cleanup runs once, the checkpoint is retried until it is stored. */
    method Stop(s: Session) returns (next: Session, o: StopOutcome)
      requires Valid() && Held(s)
      modifies this`durable, children[s.child]
      ensures Valid() && Held(next) && next.child == s.child
      ensures o == Done ==> Quiet() && next.persisted
      ensures o == NotPersisted ==> next.cleanup == Clean && !next.persisted
    {
      hide Alternates, AllReaped, Sound;
      next := s;
      if s.cleanup == NotRun {
        next := Cleanup(s);
      }
      if next.cleanup == Failed {
        return next, CleanupFailed;
      }
      if next.persisted {
        return next, Done;
      }
      if Serving(s) {
        StoppedFollows(durable, s.child);
        OneLeft(children, s.child);
      }
      var stored := Store(Stopped(s.child));
      if !stored {
        return next, NotPersisted;
      }
      next := next.(persisted := true);
      return next, Done;
    }

    /** cleanupOnce. */
    method Cleanup(s: Session) returns (next: Session)
      requires Valid() && s.cleanup == NotRun && Held(s)
      modifies children[s.child]
      ensures Valid() && Held(next) && next == s.(cleanup := next.cleanup) && next.cleanup != NotRun
      ensures next.cleanup == Clean ==> Serving(s) && children[s.child].reaped
    {
      hide Alternates;
      var ok := StopCurrent(s.child);
      next := s.(cleanup := if ok then Clean else Failed);
    }

    /** Supervisor.Start. */
    method Start() returns (o: StartOutcome)
      requires Valid() && Quiet()
      modifies this`children, this`durable
      ensures Valid() && old(children) <= children && forall i :: |old(children)| <= i < |children| ==> fresh(children[i])
      ensures o.Ready? ==> Held(o.session) && o.session.cleanup == NotRun
      ensures o == TryAgain ==> Quiet()
    {
      hide Alternates;
      var spawned := Spawn();
      if !spawned {
        return TryAgain;
      }
      var child := |children| - 1;
      var recognized: bool := *;
      if !recognized {
        var stopped := StopCurrent(child);
        return if stopped then TryAgain else GiveUp;
      }
      RunningFollows(durable, child);
      var stored := Store(Running(child));
      if !stored {
        var _ := StopCurrent(child);
        return GiveUp;
      }
      var s := Session(child, NotRun, false);
      var initialized: bool := *;
      if initialized {
        return Ready(s);
      }
      var _, ended := Stop(s);
      return if ended == Done then TryAgain else GiveUp;
    }

    /** run: serve a session until it fails, stop it for good, and only then start the next one. */
    method Run(first: Session, rounds: nat) returns (alive: bool)
      requires Valid() && Held(first) && first.cleanup == NotRun
      modifies this, children
      ensures Valid() && old(delays) <= delays
      ensures old(children) <= children && forall i :: |old(children)| <= i < |children| ==> fresh(children[i])
      ensures Spaced(delays[|old(delays)|..], initial, maximum)
    {
      var session := first;
      var round := 0;
      var from := |delays|;
      while round < rounds
        invariant Valid() && Held(session) && session.cleanup == NotRun
        invariant old(children) <= children && forall i :: |old(children)| <= i < |children| ==> fresh(children[i])
        invariant from == |old(delays)| && old(delays) <= delays && Spaced(delays[from..], initial, maximum)
      {
        var drained: bool := *;
        if !drained {
          var _, _ := Stop(session);
          return false;
        }
        ghost var before := delays;
        var next, slept := Restore(session);
        assert delays[from..] == before[from..] + Slept(initial, maximum, 0, slept);
        SpacedOn(before[from..], initial, maximum, slept);
        if next.None? {
          return false;
        }
        session := next.value;
        round := round + 1;
      }
      return true;
    }

    /** One failure: the session is stopped for good and replaced, or nothing may be started any more. */
    method Restore(failed: Session) returns (session: Option<Session>, slept: nat)
      requires Valid() && Held(failed) && failed.cleanup == NotRun
      modifies this, children
      ensures old(children) <= children && forall i :: |old(children)| <= i < |children| ==> fresh(children[i])
      ensures Valid() && (session.Some? ==> Held(session.value) && session.value.cleanup == NotRun)
      ensures delays == old(delays) + Slept(initial, maximum, 0, slept)
    {
      hide Alternates, AllReaped, Sound, NextBackoff, Delay, Slept;
      FirstDelays(initial, maximum);
      var left, outcome := Stop(failed);
      slept := 0;
      if outcome == Done {
        var rested := Sleep(initial);
        slept := 1;
        if !rested {
          return None, slept;
        }
      } else {
        var rested;
        outcome, rested, slept := Persist(left, outcome);
        if !rested || outcome == NotPersisted {
          return None, slept;
        }
        if outcome != Done {
          var more := RestForever(Delay(initial, maximum, slept), slept);
          SleptOn(initial, maximum, 0, slept, more);
          return None, slept + more;
        }
      }
      var again;
      session, again := Replace(Delay(initial, maximum, slept - 1), slept);
      SleptOn(initial, maximum, 0, slept, again);
      slept := slept + again;
    }

    /** run's inner loop for a stop whose checkpoint could not be stored; it ends early when a sleep is cut short. */
    method Persist(s: Session, first: StopOutcome) returns (o: StopOutcome, rested: bool, slept: nat)
      requires Valid() && Held(s) && first != Done
      requires first == NotPersisted ==> s.cleanup == Clean && !s.persisted
      modifies this`durable, this`delays, children
      ensures Valid()
      ensures delays == old(delays) + Slept(initial, maximum, 0, slept)
      ensures o == Done ==> Quiet() && slept > 0
    {
      var delay: nat := initial;
      var session := s;
      var tries: nat := *;
      o, rested, slept := first, true, 0;
      while o == NotPersisted && tries > 0
        invariant Valid() && Held(session)
        invariant o == Done ==> Quiet() && slept > 0
        invariant o != Done ==> delay == Delay(initial, maximum, slept)
        invariant o == NotPersisted ==> session.cleanup == Clean && !session.persisted
        invariant delays == old(delays) + Slept(initial, maximum, 0, slept)
      {
        rested := Sleep(delay);
        slept := slept + 1;
        if !rested {
          return;
        }
        session, o := Stop(session);
        if o != Done {
          delay := NextBackoff(delay, maximum);
        }
        tries := tries - 1;
      }
    }

    /**
     run's last loop: a replacement, or the end when nothing may be started any more.  `before`
     sleeps have led to `start`, and the new ones go on from there.
     */
    method Replace(start: nat, before: nat) returns (session: Option<Session>, slept: nat)
      requires Valid() && Quiet() && before > 0 && start == Delay(initial, maximum, before - 1)
      modifies this, children
      ensures old(children) <= children && forall i :: |old(children)| <= i < |children| ==> fresh(children[i])
      ensures Valid() && (session.Some? ==> Held(session.value) && session.value.cleanup == NotRun)
      ensures delays == old(delays) + Slept(initial, maximum, before, slept)
    {
      hide Alternates, AllReaped, Sound, NextBackoff;
      var delay: nat := start;
      var tries: nat := *;
      slept := 0;
      while tries > 0
        invariant old(children) <= children && forall i :: |old(children)| <= i < |children| ==> fresh(children[i])
        invariant Valid() && Quiet() && delay == Delay(initial, maximum, before + slept - 1)
        invariant delays == old(delays) + Slept(initial, maximum, before, slept)
      {
        var o := Start();
        match o {
          case Ready(s) =>
            var installed: bool := *;
            if !installed {
              var _, _ := Stop(s);
              return None, slept;
            }
            return Some(s), slept;
          case GiveUp =>
            DelayNext(initial, maximum, before + slept);
            var more := RestForever(NextBackoff(delay, maximum), before + slept);
            SleptOn(initial, maximum, before, slept, more);
            return None, slept + more;
          case TryAgain =>
            DelayNext(initial, maximum, before + slept);
            delay := NextBackoff(delay, maximum);
            var rested := Sleep(delay);
            slept := slept + 1;
            if !rested {
              return None, slept;
            }
        }
        tries := tries - 1;
      }
      return None, slept;
    }

    /** recoverWithoutStartingAt: the owner keeps waiting and starts nothing. */
    method RestForever(start: nat, before: nat) returns (slept: nat)
      requires Valid() && start == Delay(initial, maximum, before)
      modifies this`delays
      ensures Valid() && delays == old(delays) + Slept(initial, maximum, before, slept)
    {
      var delay: nat := start;
      var tries: nat := *;
      slept := 0;
      while tries > 0
        invariant Valid() && delay == Delay(initial, maximum, before + slept)
        invariant delays == old(delays) + Slept(initial, maximum, before, slept)
      {
        var rested := Sleep(delay);
        slept := slept + 1;
        if !rested {
          return;
        }
        delay := NextBackoff(delay, maximum);
        tries := tries - 1;
      }
    }
  }

  lemma StoppedFollows(cs: seq<Checkpoint>, child: nat)
    requires Alternates(cs) && |cs| % 2 == 1 && cs[|cs| - 1] == Running(child)
    ensures Stored(cs, Stopped(child)) == cs + [Stopped(child)] && Alternates(cs + [Stopped(child)])
  {
  }

  lemma RunningFollows(cs: seq<Checkpoint>, child: nat)
    requires Alternates(cs) && |cs| % 2 == 0 && forall i :: 0 <= i < |cs| ==> cs[i].generation < child
    ensures Stored(cs, Running(child)) == cs + [Running(child)] && Alternates(cs + [Running(child)])
  {
  }

  lemma OneLeft(children: seq<OwnedChild>, child: nat)
    requires child + 1 == |children| && AllReaped(children[..child]) && children[child].reaped
    ensures AllReaped(children)
  {
    forall i | 0 <= i < |children|
      ensures children[i].reaped
    {
      assert i < child ==> children[..child][i] == children[i];
    }
  }

  // ---- The delays after a failure -------------------------------------------------------------------

  /** The delay after `n` earlier ones of the same failure. */
  function Delay(initial: nat, maximum: nat, n: nat): (d: nat)
    requires initial <= maximum
    ensures initial <= d <= maximum
  {
    if n == 0 then initial else NextBackoff(Delay(initial, maximum, n - 1), maximum)
  }

  lemma DelayNext(initial: nat, maximum: nat, n: nat)
    requires initial <= maximum && n > 0
    ensures Delay(initial, maximum, n) == NextBackoff(Delay(initial, maximum, n - 1), maximum)
  {
  }

  function Pow2(n: nat): nat { if n == 0 then 1 else 2 * Pow2(n - 1) }

  /** The delays double up to the maximum and stay there. */
  lemma {:induction false} DelayDoubles(initial: nat, maximum: nat, n: nat)
    requires initial <= maximum
    ensures Delay(initial, maximum, n) == if initial * Pow2(n) <= maximum then initial * Pow2(n) else maximum
  {
    if n > 0 {
      DelayDoubles(initial, maximum, n - 1);
      assert initial * Pow2(n) == 2 * (initial * Pow2(n - 1));
    }
  }

  /** `count` delays of one failure, after `before` earlier ones. */
  function Slept(initial: nat, maximum: nat, before: nat, count: nat): (ds: seq<nat>)
    requires initial <= maximum
    ensures |ds| == count
  {
    if count == 0 then [] else Slept(initial, maximum, before, count - 1) + [Delay(initial, maximum, before + count - 1)]
  }

  lemma FirstDelays(initial: nat, maximum: nat)
    requires initial <= maximum
    ensures Delay(initial, maximum, 0) == initial
    ensures Slept(initial, maximum, 0, 0) == [] && Slept(initial, maximum, 0, 1) == [initial]
  {
    assert Slept(initial, maximum, 0, 1) == Slept(initial, maximum, 0, 0) + [Delay(initial, maximum, 0)];
  }

  lemma {:induction false} SleptOn(initial: nat, maximum: nat, before: nat, count: nat, more: nat)
    requires initial <= maximum
    ensures Slept(initial, maximum, before, count) + Slept(initial, maximum, before + count, more) ==
            Slept(initial, maximum, before, count + more)
  {
    if more > 0 {
      SleptOn(initial, maximum, before, count, more - 1);
    }
  }

  /** Each failure's delays start over and double up to the maximum: the whole sequence is made of such runs. */
  ghost predicate Spaced(ds: seq<nat>, initial: nat, maximum: nat)
    requires initial <= maximum
    decreases |ds|
  {
    || ds == []
    || (exists count :: 0 < count <= |ds|
          && ds[|ds| - count..] == Slept(initial, maximum, 0, count) && Spaced(ds[..|ds| - count], initial, maximum))
  }

  lemma SpacedOn(ds: seq<nat>, initial: nat, maximum: nat, count: nat)
    requires initial <= maximum && Spaced(ds, initial, maximum)
    ensures Spaced(ds + Slept(initial, maximum, 0, count), initial, maximum)
  {
    var all := ds + Slept(initial, maximum, 0, count);
    if count == 0 {
      assert all == ds;
    } else {
      assert all[|all| - count..] == Slept(initial, maximum, 0, count);
      assert all[..|all| - count] == ds;
    }
  }
}
