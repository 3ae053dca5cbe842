/**
 The execution of a planned collaboration, one step at a time.  `order` lists authored step
 indices as the planner returned them; providers, the run journal and the event queue answer as
 the given worlds say.
 */
module Workgroup {
  import opened Wrappers
  import opened Planner

  datatype Receipt = Waiting | Underway | Completed | Failed | Unknown | Interrupted | Blocked

  datatype Item = StartNote(step: nat) | Output(step: nat) | Summary

  datatype TurnEvent = TurnCompleted | TurnFailed | TurnInterrupted | ProtocolError

  /** What the outside world sees: journal writes, emitted items, provider runs and the turn's end. */
  datatype Act = Journal(item: Item) | Emit(item: Item) | RunProvider(step: nat) | End(event: TurnEvent)

  datatype Answer = Result | Refused | DeliveryUnknown

  datatype Failure = NoFailure | Plain | Uncertain

  /** The acts of one step that succeeds; a step that stops shows a beginning of them. */
  function StepActs(i: nat): (r: seq<Act>)
    ensures |r| == 5
  {
    [Journal(StartNote(i)), Emit(StartNote(i)), RunProvider(i), Journal(Output(i)), Emit(Output(i))]
  }

  /** The acts of the first `n` steps of the order. */
  function Acts(order: seq<nat>, n: nat): seq<Act>
    requires n <= |order|
  {
    if n == 0 then [] else Acts(order, n - 1) + StepActs(order[n - 1])
  }

  /** Completed steps, then at most one that stopped the run, then blocked ones. */
  predicate Settled(receipts: seq<Receipt>, n: nat)
  {
    && n <= |receipts|
    && (forall k :: 0 <= k < n ==> receipts[k] == Completed)
    && (n < |receipts| ==> receipts[n] in {Failed, Unknown, Interrupted, Blocked})
    && (forall k :: n < k < |receipts| ==> receipts[k] == Blocked)
  }

  predicate Started(receipts: seq<Receipt>, n: nat)
  {
    && n <= |receipts|
    && (forall k :: 0 <= k < n ==> receipts[k] == Completed)
    && (n < |receipts| ==> receipts[n] in {Failed, Unknown, Interrupted, Waiting, Underway})
    && (forall k :: n < k < |receipts| ==> receipts[k] == Waiting)
  }

  predicate Prefix(a: seq<Act>, b: seq<Act>) { |a| <= |b| && a == b[..|a|] }

  /** `n` steps succeeded, `tail` is what the next one showed, and `closing` is the summary and the turn's end. */
  predicate Shape(order: seq<nat>, n: nat, tail: seq<Act>, closing: seq<Act>, trace: seq<Act>)
  {
    && n <= |order|
    && trace == Acts(order, n) + tail + closing
    && (if n < |order| then Prefix(tail, StepActs(order[n])) && |tail| < 5 else tail == [])
    && Closes(closing)
  }

  /** The summary as far as it got, then the end of the turn unless the runtime was shut down. */
  predicate Closes(closing: seq<Act>)
  {
    || Ends(closing)
    || (Ends(closing[1..]) && closing[0] == Journal(Summary))
    || (|closing| >= 2 && closing[..2] == [Journal(Summary), Emit(Summary)] && Ends(closing[2..]))
  }

  predicate Ends(closing: seq<Act>)
  {
    closing == [] || (|closing| == 1 && closing[0].End?)
  }

  // ---- What the world answers ---------------------------------------------------------------

  /** Everything one turn of the step loop asks: cancellation, journal writes, the event queue, the provider. */
  datatype World = World(
    cancelledBefore: bool, planStored: bool, noted: bool, noteEmitted: bool,
    answer: Answer, cancelledDuring: bool, timedOut: bool,
    journaled: bool, outputEmitted: bool, planStoredAfter: bool)

  /** And what the end of the turn asks. */
  datatype Ending = Ending(planStored: bool, journaled: bool, emitted: bool, down: bool, stored: bool)

  /** The step reaches its provider. */
  predicate Runs(w: World, explicit: bool)
  {
    !w.cancelledBefore && (explicit ==> w.planStored) && w.noted && w.noteEmitted
  }

  /** The step succeeds: its result is journaled and emitted. */
  predicate Succeeds(w: World, explicit: bool)
  {
    Runs(w, explicit) && w.answer == Result && !w.cancelledDuring && !w.timedOut && w.journaled && w.outputEmitted
  }

  predicate EndsWell(e: Ending, explicit: bool, any: bool)
  {
    (explicit && any ==> e.planStored && e.journaled && e.emitted) && !e.down && e.stored
  }

  /** The summary, the final state and the turn's end; nothing more is emitted once the runtime is shut down. */
  method Close(order: seq<nat>, explicit: bool, stopped: Failure, state: TurnEvent, e: Ending) returns (closing: seq<Act>)
    requires state != ProtocolError
    ensures Closes(closing)
    ensures closing != [] && closing[|closing| - 1] == End(state) <==>
              stopped != Uncertain && EndsWell(e, explicit, order != [])
    ensures closing != [] && closing[|closing| - 1].End? ==> closing[|closing| - 1] in {End(state), End(ProtocolError)}
    ensures !(explicit && order != []) ==> Ends(closing)
    ensures explicit && order != [] && closing != [] && closing[|closing| - 1] == End(state) ==>
              closing == [Journal(Summary), Emit(Summary), End(state)]
  {
    closing := [];
    var failure := stopped;
    if explicit && order != [] {
      if !e.planStored {
        failure := Uncertain;
      }
      if !e.journaled {
        failure := Uncertain;
      } else {
        closing := [Journal(Summary)];
        if !e.emitted {
          return;
        }
        closing := [Journal(Summary), Emit(Summary)];
      }
    }
    if e.down {
      return;
    }
    if failure != Uncertain && !e.stored {
      failure := Uncertain;
    }
    closing := closing + [End(if failure == Uncertain then ProtocolError else state)];
  }

  /** How one turn of the step loop ended; `shown` counts the acts of the step that the world saw. */
  datatype StepEnd =
    | Succeeded(planLost: bool)
    | Stopped(receipt: Receipt, failure: Failure, state: TurnEvent, shown: nat)
    | ShutDown(receipt: Receipt, shown: nat)

  /** One turn of execute's loop. */
  method RunStep(explicit: bool, w: World) returns (e: StepEnd)
    ensures e.Succeeded? <==> Succeeds(w, explicit)
    ensures e.Succeeded? ==> (e.planLost <==> explicit && !w.planStoredAfter)
    ensures e.Stopped? ==> e.shown < 5 && (e.shown >= 3 <==> Runs(w, explicit))
    ensures e.Stopped? ==> e.state != ProtocolError && (e.state == TurnCompleted ==> e.failure == Uncertain)
    ensures e.Stopped? ==> e.receipt in {Failed, Unknown, Interrupted, Waiting, Underway}
    ensures e.Stopped? && e.receipt == Unknown ==> e.failure == Uncertain && w.answer == DeliveryUnknown
    ensures e.Stopped? && Runs(w, explicit) && w.answer == DeliveryUnknown ==> e.receipt == Unknown
    ensures e.ShutDown? ==> e.receipt == Underway && e.shown < 5 && (!w.noteEmitted || !w.outputEmitted)
  {
    if w.cancelledBefore {
      return Stopped(Waiting, NoFailure, TurnInterrupted, 0);
    }
    if explicit && !w.planStored {
      return Stopped(Underway, Uncertain, TurnCompleted, 0);
    }
    if !w.noted {
      return Stopped(Underway, Uncertain, TurnCompleted, 0);
    }
    if !w.noteEmitted {
      return ShutDown(Underway, 1);
    }
    if w.answer != Result || w.cancelledDuring || w.timedOut {
      var receipt := if w.answer == DeliveryUnknown then Unknown else if w.cancelledDuring then Interrupted else Failed;
      var failure := if w.answer == DeliveryUnknown then Uncertain else Plain;
      return Stopped(receipt, failure, if w.cancelledDuring then TurnInterrupted else TurnFailed, 3);
    }
    if !w.journaled {
      return Stopped(Underway, Uncertain, TurnCompleted, 3);
    }
    if !w.outputEmitted {
      return ShutDown(Underway, 4);
    }
    return Succeeded(explicit && !w.planStoredAfter);
  }

  /** execute, from the step loop to the end of the turn. */
  method Execute(order: seq<nat>, explicit: bool, worlds: seq<World>, ending: Ending)
    returns (receipts: seq<Receipt>, completed: nat, trace: seq<Act>, ended: bool)
    requires |worlds| == |order|
    ensures exists tail, closing :: Shape(order, completed, tail, closing, trace)
    ensures |receipts| == |order| && (if ended && explicit then Settled(receipts, completed) else Started(receipts, completed))
    ensures forall k :: 0 <= k < completed ==> Succeeds(worlds[k], explicit)
    ensures completed < |order| ==> !Succeeds(worlds[completed], explicit) || (explicit && completed > 0 && !worlds[completed - 1].planStoredAfter)
    ensures trace != [] && trace[|trace| - 1] == End(TurnCompleted) <==>
              && completed == |order| && (forall k :: 0 <= k < |order| && explicit ==> worlds[k].planStoredAfter)
              && EndsWell(ending, explicit, order != [])
    ensures trace != [] && trace[|trace| - 1] == End(TurnCompleted) ==>
              trace == Acts(order, |order|) + (if explicit && order != [] then [Journal(Summary), Emit(Summary)] else []) + [End(TurnCompleted)]
  {
    hide StepActs, Acts, Succeeds, EndsWell, Closes;
    receipts := seq(|order|, _ => Waiting);
    var state, failure := TurnCompleted, NoFailure;
    completed, trace, ended := 0, [], false;
    NoActs(order);
    var tail: seq<Act> := [];
    while completed < |order|
      invariant completed <= |order| == |receipts| && !ended
      invariant Started(receipts, completed) && (completed < |order| ==> receipts[completed] == Waiting)
      invariant trace == Acts(order, completed) && tail == []
      invariant failure == NoFailure && state == TurnCompleted
      invariant forall k :: 0 <= k < completed ==> Succeeds(worlds[k], explicit) && (explicit ==> worlds[k].planStoredAfter)
      decreases |order| - completed
    {
      var i := completed;
      var e := RunStep(explicit, worlds[i]);
      match e {
        case Succeeded(planLost) =>
          OneMoreStep(order, i);
          trace := trace + StepActs(order[i]);
          receipts := receipts[i := Completed];
          completed := completed + 1;
          if planLost {
            failure := Uncertain;
            break;
          }
        case Stopped(receipt, f, s, shown) =>
          tail := StepActs(order[i])[..shown];
          receipts := receipts[i := receipt];
          failure, state := f, s;
          break;
        case ShutDown(receipt, shown) =>
          tail := StepActs(order[i])[..shown];
          receipts := receipts[i := receipt];
          trace := trace + tail;
          Unfinished(order, i, tail, trace);
          return;
      }
    }
    if explicit {
      receipts := Settle(receipts, completed);
    }
    var closing := Close(order, explicit, failure, state, ending);
    NoEnd(order, completed, tail);
    trace := Acts(order, completed) + tail + closing;
    ended := true;
    assert Shape(order, completed, tail, closing, trace);
    LastOf(Acts(order, completed) + tail, closing);
    assert closing != [] && closing[|closing| - 1] == End(TurnCompleted) ==> tail == [] && completed == |order|;
    assert tail == [] ==> Acts(order, completed) + tail == Acts(order, completed);
  }

  lemma LastOf(a: seq<Act>, b: seq<Act>)
    requires forall k :: 0 <= k < |a| ==> !a[k].End?
    ensures a + b != [] && (a + b)[|a + b| - 1].End? ==> b != [] && b[|b| - 1] == (a + b)[|a + b| - 1]
  {
  }

  lemma NoActs(order: seq<nat>)
    ensures Acts(order, 0) == []
  {
  }

  lemma OneMoreStep(order: seq<nat>, i: nat)
    requires i < |order|
    ensures Acts(order, i + 1) == Acts(order, i) + StepActs(order[i])
  {
  }

  /** A run cut short by a shutdown has no closing. */
  lemma Unfinished(order: seq<nat>, n: nat, tail: seq<Act>, trace: seq<Act>)
    requires n < |order| && Prefix(tail, StepActs(order[n])) && |tail| < 5 && trace == Acts(order, n) + tail
    ensures Shape(order, n, tail, [], trace)
    ensures trace == [] || !trace[|trace| - 1].End?
  {
    assert trace == Acts(order, n) + tail + [];
    NoEnd(order, n, tail);
  }

  lemma {:induction false} NoEnd(order: seq<nat>, n: nat, tail: seq<Act>)
    requires n <= |order| && (if n < |order| then Prefix(tail, StepActs(order[n])) else tail == [])
    ensures forall k :: 0 <= k < |Acts(order, n) + tail| ==> !(Acts(order, n) + tail)[k].End?
    decreases n
  {
    forall k | 0 <= k < |tail|
      ensures !tail[k].End?
    {
      assert tail[k] == StepActs(order[n])[k];
    }
    if n > 0 {
      NoEnd(order, n - 1, StepActs(order[n - 1]));
    }
  }

  /** The loop before the summary: what never ran is blocked, and what was cut off is unknown. */
  method Settle(receipts: seq<Receipt>, n: nat) returns (r: seq<Receipt>)
    requires Started(receipts, n)
    ensures |r| == |receipts| && Settled(r, n)
  {
    r := receipts;
    var i := 0;
    while i < |r|
      invariant 0 <= i <= |r| == |receipts|
      invariant forall k :: i <= k < |r| ==> r[k] == receipts[k]
      invariant forall k :: 0 <= k < i ==>
                  r[k] == if receipts[k] == Waiting then Blocked else if receipts[k] == Underway then Unknown else receipts[k]
    {
      if r[i] == Waiting {
        r := r[i := Blocked];
      } else if r[i] == Underway {
        r := r[i := Unknown];
      }
      i := i + 1;
    }
  }

  // ---- What the shape of a trace means ------------------------------------------------------

  lemma {:induction false} ActsAt(order: seq<nat>, n: nat, k: nat)
    requires k < n <= |order|
    ensures |Acts(order, n)| == 5 * n
    ensures Acts(order, n)[5 * k..5 * k + 5] == StepActs(order[k])
    decreases n
  {
    ActsLength(order, n);
    ActsLength(order, n - 1);
    if k < n - 1 {
      ActsAt(order, n - 1, k);
      assert Acts(order, n)[5 * k..5 * k + 5] == Acts(order, n - 1)[5 * k..5 * k + 5];
    }
  }

  lemma {:induction false} ActsLength(order: seq<nat>, n: nat)
    requires n <= |order|
    ensures |Acts(order, n)| == 5 * n
    decreases n
  {
    if n > 0 {
      ActsLength(order, n - 1);
    }
  }

  /** A provider runs only after every step it needs was run, journaled and emitted, each exactly once. */
  lemma RunsAfterDependencies(raw: seq<Step>, order: seq<nat>, n: nat, tail: seq<Act>, closing: seq<Act>, trace: seq<Act>, at: nat, dep: nat)
    requires InOrder(raw, order) && Shape(order, n, tail, closing, trace)
    requires at < |trace| && trace[at].RunProvider? && dep < |raw| && Needs(raw, trace[at].step, dep)
    ensures exists k: nat :: FinishedAt(trace, k, dep) && k + 5 <= at
  {
    var p := RunPosition(order, n, tail, closing, trace, at);
    assert Ready(raw, order[p], order[..p]);
    assert dep in order[..p];
    var q :| 0 <= q < p && order[..p][q] == dep;
    ActsAt(order, n, q);
    assert trace[5 * q..5 * q + 5] == Acts(order, n)[5 * q..5 * q + 5];
    assert FinishedAt(trace, 5 * q, dep);
  }

  /** The step was run, journaled and emitted, in that order, from `k` on. */
  predicate FinishedAt(trace: seq<Act>, k: nat, step: nat)
  {
    k + 5 <= |trace| && trace[k..k + 5] == StepActs(step)
  }

  lemma ClosingQuiet(closing: seq<Act>, k: nat)
    requires k < |closing|
    requires Closes(closing)
    ensures !closing[k].RunProvider?
  {
    if k == 0 {
    } else if k == 1 {
      assert closing[1..][0] == closing[1];
      assert |closing| >= 2 ==> closing[..2][1] == closing[1];
    } else {
      assert closing[2..][k - 2] == closing[k] && closing[1..][k - 1] == closing[k];
    }
  }

  /** The step of the order that a provider run belongs to: runs happen in order, one for each step. */
  lemma RunPosition(order: seq<nat>, n: nat, tail: seq<Act>, closing: seq<Act>, trace: seq<Act>, at: nat) returns (p: nat)
    requires Shape(order, n, tail, closing, trace) && at < |trace| && trace[at].RunProvider?
    ensures p <= n && p < |order| && at == 5 * p + 2 && trace[at] == RunProvider(order[p])
  {
    ActsLength(order, n);
    if at >= 5 * n + |tail| {
      ClosingQuiet(closing, at - 5 * n - |tail|);
    }
    if at < 5 * n {
      p := at / 5;
      ActsAt(order, n, p);
      assert trace[at] == Acts(order, n)[at] == Acts(order, n)[5 * p..5 * p + 5][at - 5 * p];
    } else {
      p := n;
      assert trace[at] == tail[at - 5 * n] == StepActs(order[n])[at - 5 * n];
    }
  }

  /** No step runs twice, and none runs after a step that did not finish. */
  lemma RunsOnceInOrder(order: seq<nat>, n: nat, tail: seq<Act>, closing: seq<Act>, trace: seq<Act>, a: nat, b: nat)
    requires Shape(order, n, tail, closing, trace)
    requires forall k, l :: 0 <= k < l < |order| ==> order[k] != order[l]
    requires a < b < |trace| && trace[a].RunProvider? && trace[b].RunProvider?
    ensures trace[a].step != trace[b].step
    ensures a + 5 <= b && trace[a + 1] == Journal(Output(trace[a].step)) && trace[a + 2] == Emit(Output(trace[a].step))
  {
    var p := RunPosition(order, n, tail, closing, trace, a);
    var q := RunPosition(order, n, tail, closing, trace, b);
    assert p < q;
    ActsLength(order, n);
    ActsAt(order, n, p);
    var acts := Acts(order, n)[5 * p..5 * p + 5];
    assert trace[a + 1] == Acts(order, n)[a + 1] == acts[3];
    assert trace[a + 2] == Acts(order, n)[a + 2] == acts[4];
  }
}
