/**
 Project tasks over message states: each message belongs to at most one task, a task has
 at most one unfinished run, and the runs of a completed task have all ended.
 */
module TaskRuns {
  import opened Wrappers
  import opened RoomStore
  import opened RoomStoreFacts
  import opened RoomTransitions

  ghost predicate OneOpenRun(ms: seq<Message>, runs: map<MessageId, TaskId>)
  {
    forall i, j :: 0 <= i < j < |ms| && ms[i].id in runs && ms[j].id in runs && Unfinished(ms[i].state) && Unfinished(ms[j].state) ==>
                     runs[ms[i].id] != runs[ms[j].id]
  }

  ghost predicate CompletedRunsEnded(ms: seq<Message>, runs: map<MessageId, TaskId>, tasks: seq<Task>)
  {
    forall i :: 0 <= i < |ms| && ms[i].id in runs ==>
                  1 <= runs[ms[i].id] <= |tasks| && (tasks[runs[ms[i].id] - 1].completed ==> Terminal(ms[i].state))
  }

  ghost predicate RunsStored(ms: seq<Message>, runs: map<MessageId, TaskId>)
  {
    forall id :: id in runs ==> Exists(ms, id)
  }

  /** A message is the source of at most one task, and a source that is a run belongs to its own task. */
  ghost predicate SourcesOnce(ms: seq<Message>, runs: map<MessageId, TaskId>, tasks: seq<Task>)
  {
    && (forall i, j :: 0 <= i < j < |tasks| ==> tasks[i].source != tasks[j].source)
    && (forall k :: 0 <= k < |tasks| ==> Exists(ms, tasks[k].source))
    && (forall k :: 0 <= k < |tasks| && tasks[k].source in runs ==> runs[tasks[k].source] == k + 1)
  }

  ghost predicate TasksSound(db: Database)
  {
    && OneOpenRun(db.messages, db.runs)
    && CompletedRunsEnded(db.messages, db.runs, db.tasks)
    && RunsStored(db.messages, db.runs)
    && SourcesOnce(db.messages, db.runs, db.tasks)
  }

  // ---- Terminal states are final ---------------------------------------------------

  /** No transaction moves a row out of a terminal state. */
  lemma TerminalIsFinal(db: Database, op: Op, k: int)
    requires WellFormed(db) && Step(db, op).Success? && 0 <= k < |db.messages| && Terminal(db.messages[k].state)
    ensures Step(db, op).value.messages[k].state == db.messages[k].state
  {
    StepRows(db, op);
    MovedFinal(db, op, k);
  }

  lemma MovedFinal(db: Database, op: Op, k: int)
    requires WellFormed(db) && Step(db, op).Success? && 0 <= k < |db.messages| && Terminal(db.messages[k].state)
    ensures Moved(db, op, db.messages[k]).state == db.messages[k].state
  {
    hide Step, WellFormed;
    assert IndexOf(db.messages, db.messages[k].id) == k by {
      WellFormedDistinct(db);
      IndexUnique(db.messages, k);
    }
    if op.FinishTurn? {
      FinishedRow(db, op);
    } else if op.ResolveReview? && !Exists(db.messages, op.id) {
      ResolvedTarget(db, op);
    } else if !op.ResolveReview? {
      RequiredRow(db, op);
    }
  }

  lemma WellFormedDistinct(db: Database)
    requires WellFormed(db)
    ensures Distinct(db.messages)
  {
  }

  lemma FinishedRow(db: Database, op: Op)
    requires WellFormed(db) && Step(db, op).Success? && op.FinishTurn?
    ensures BoundIndex(db.messages, op.turn) != -1
    ensures IndexOf(db.messages, db.messages[BoundIndex(db.messages, op.turn)].id) == BoundIndex(db.messages, op.turn)
  {
    IndexUnique(db.messages, BoundIndex(db.messages, op.turn));
  }

  lemma RequiredRow(db: Database, op: Op)
    requires Step(db, op).Success? && !op.FinishTurn? && !op.ResolveReview?
    ensures op.BeginDispatch? || op.FailDispatch? || op.BindRunningTurn? || op.FinishControl? || op.MarkNeedsReview? ==>
              Exists(db.messages, op.id) && !Terminal(Row(db.messages, op.id).state)
  {
  }

  // ---- The changes a transaction is made of -------------------------------------------

  lemma ExistsKept(ms: seq<Message>, ns: seq<Message>, id: MessageId)
    requires |ms| <= |ns| && (forall k :: 0 <= k < |ms| ==> ns[k].id == ms[k].id) && Exists(ms, id)
    ensures Exists(ns, id)
  {
    assert ns[IndexOf(ms, id)].id == id;
  }

  /** Rows end, and rows without a task appear. */
  lemma RowsSound(db: Database, next: Database)
    requires TasksSound(db) && next.runs == db.runs && next.tasks == db.tasks
    requires |db.messages| <= |next.messages|
    requires forall k :: 0 <= k < |db.messages| ==>
                           next.messages[k].id == db.messages[k].id
                           && (Terminal(db.messages[k].state) ==> Terminal(next.messages[k].state))
    requires forall k :: |db.messages| <= k < |next.messages| ==> !Exists(db.messages, next.messages[k].id)
    ensures TasksSound(next)
  {
    hide Exists;
    forall id | Exists(db.messages, id)
      ensures Exists(next.messages, id)
    {
      ExistsKept(db.messages, next.messages, id);
    }
    forall k | |db.messages| <= k < |next.messages|
      ensures next.messages[k].id !in db.runs
    {
    }
  }

  /** attachTaskMessage with the row it links. */
  lemma AttachSound(db: Database, next: Database, m: Message, t: TaskId)
    requires TasksSound(db) && !Exists(db.messages, m.id)
    requires next.messages == db.messages + [m] && next.tasks == db.tasks && next.runs == db.runs[m.id := t]
    requires IsTask(db, t) && !db.tasks[t - 1].completed && !HasUnfinishedRun(db, t)
    ensures TasksSound(next)
  {
    hide Exists, HasUnfinishedRun;
    forall id | Exists(db.messages, id)
      ensures Exists(next.messages, id)
    {
      ExistsKept(db.messages, next.messages, id);
    }
    StoredAt(next.messages, |db.messages|);
    forall k | 0 <= k < |db.messages|
      ensures db.messages[k].id != m.id && next.messages[k] == db.messages[k]
      ensures RunOf(db, k, t) ==> Terminal(db.messages[k].state)
    {
      StoredAt(db.messages, k);
      NoneUnfinished(db, t, k);
    }
  }

  lemma StoredAt(ms: seq<Message>, k: nat)
    requires k < |ms|
    ensures Exists(ms, ms[k].id)
  {
  }

  lemma NoneUnfinished(db: Database, t: TaskId, k: nat)
    requires k < |db.messages| && !HasUnfinishedRun(db, t)
    ensures RunOf(db, k, t) ==> Terminal(db.messages[k].state)
  {
    assert RunOf(db, k, t) && Unfinished(db.messages[k].state) ==> HasUnfinishedRun(db, t);
  }

  lemma ConvertSound(db: Database, op: Op)
    requires TasksSound(db) && WellFormed(db) && op.ConvertTask? && Step(db, op).Success?
    ensures TasksSound(Step(db, op).value)
  {
    hide TasksSound, HasTask;
    if !HasTask(db, op.source) {
      ConvertedSound(db, Step(db, op).value, IndexOf(db.messages, op.source));
    }
  }

  lemma ConvertedSound(db: Database, next: Database, i: int)
    requires TasksSound(db) && Distinct(db.messages) && 0 <= i < |db.messages|
    requires next.messages == db.messages && next.tasks == db.tasks + [Task(db.messages[i].id, false)]
    requires !HasTask(db, db.messages[i].id)
    requires next.runs == db.runs || next.runs == db.runs[db.messages[i].id := |db.tasks| + 1]
    ensures TasksSound(next)
  {
    hide Exists;
    StoredAt(db.messages, i);
  }

  lemma CompleteSound(db: Database, op: Op)
    requires TasksSound(db) && op.CompleteTask? && Step(db, op).Success?
    ensures TasksSound(Step(db, op).value)
  {
    hide Exists, TasksSound;
    MarkedSound(db, op.task, true);
  }

  /** Marking a task completed needs every run of it to have ended; reopening needs nothing. */
  lemma MarkedSound(db: Database, t: TaskId, done: bool)
    requires TasksSound(db) && IsTask(db, t) && (done ==> !HasUnfinishedRun(db, t))
    ensures TasksSound(db.(tasks := db.tasks[t - 1 := db.tasks[t - 1].(completed := done)]))
  {
    hide Exists, HasUnfinishedRun;
    if done {
      forall k | 0 <= k < |db.messages| && RunOf(db, k, t)
        ensures Terminal(db.messages[k].state)
      {
        NoneUnfinished(db, t, k);
      }
    }
  }

  lemma ReopenSound(db: Database, op: Op)
    requires TasksSound(db) && op.ReopenTask? && Step(db, op).Success?
    ensures TasksSound(Step(db, op).value)
  {
    hide Exists, TasksSound;
    MarkedSound(db, op.task, false);
  }

  lemma AcceptSound(db: Database, op: Op)
    requires TasksSound(db) && op.Accept? && Step(db, op).Success?
    ensures TasksSound(Step(db, op).value)
  {
    hide TasksSound, HasUnfinishedRun;
    var next := Step(db, op).value;
    if !Exists(db.messages, op.id) {
      var m := Message(op.id, op.kind, op.actor, op.body, InitialState(op.kind), db.nextSeq,
                       if IsControl(op.kind) then op.expected else 0, NoCode);
      if op.task == 0 {
        RowsSound(db, next);
      } else {
        AttachSound(db, next, m, op.task);
      }
    }
  }

  lemma DecisionSound(db: Database, op: Op)
    requires TasksSound(db) && WellFormed(db) && op.ResolveReview? && Step(db, op).Success?
    ensures TasksSound(Step(db, op).value)
  {
    if !Exists(db.messages, op.id) {
      var accepted := ReviewAccepted(db, op.actor, op.id, op.target, op.action, op.body);
      var i := IndexOf(db.messages, op.target);
      var decided := if op.action == Retry then RetryTx(accepted, i) else TerminalizeTx(accepted, i, op.action);
      DecidedSound(db, op, decided);
      if op.action == Continue {
        ReplacementFresh(db, accepted, i, op.id, op.replacement);
        ReplacementSound(decided, op.actor, op.replacement, op.body, op.target);
      }
    }
  }

  lemma DecidedSound(db: Database, op: Op, decided: Database)
    requires TasksSound(db) && op.ResolveReview? && Step(db, op).Success? && !Exists(db.messages, op.id)
    requires var accepted := ReviewAccepted(db, op.actor, op.id, op.target, op.action, op.body);
             var i := IndexOf(db.messages, op.target);
             i != -1 && decided == if op.action == Retry then RetryTx(accepted, i) else TerminalizeTx(accepted, i, op.action)
    ensures TasksSound(decided)
  {
    hide TasksSound;
    ResolvedTarget(db, op);
    RowsSound(db, decided);
  }

  lemma ReplacementSound(db: Database, actor: Uid, id: MessageId, body: nat, source: MessageId)
    requires TasksSound(db) && !Exists(db.messages, id) && InsertReplacement(db, actor, id, body, source).Success?
    ensures TasksSound(InsertReplacement(db, actor, id, body, source).value)
  {
    hide TasksSound, HasUnfinishedRun;
    var m := Message(id, RecoveryPrompt, actor, body, Queued, db.nextSeq, 0, NoCode);
    var next := InsertReplacement(db, actor, id, body, source).value;
    if source in db.runs {
      AttachSound(db, next, m, db.runs[source]);
    } else {
      RowsSound(db, next);
    }
  }

  lemma OtherSound(db: Database, op: Op)
    requires TasksSound(db) && WellFormed(db) && Step(db, op).Success?
    requires !op.Accept? && !op.ResolveReview? && !op.ConvertTask? && !op.CompleteTask? && !op.ReopenTask?
    ensures TasksSound(Step(db, op).value)
  {
    hide TasksSound;
    var next := Step(db, op).value;
    StepRows(db, op);
    StepKeeps(db, op);
    UntouchedTasks(db, op);
    forall k | 0 <= k < |db.messages|
      ensures next.messages[k].id == db.messages[k].id
      ensures Terminal(db.messages[k].state) ==> Terminal(next.messages[k].state)
    {
      assert SameIdentity(db.messages[k], next.messages[k]);
      if Terminal(db.messages[k].state) {
        TerminalIsFinal(db, op, k);
      }
    }
    RowsSound(db, next);
  }

  lemma UntouchedTasks(db: Database, op: Op)
    requires Step(db, op).Success?
    requires !op.Accept? && !op.ResolveReview? && !op.ConvertTask? && !op.CompleteTask? && !op.ReopenTask?
    ensures Step(db, op).value.runs == db.runs && Step(db, op).value.tasks == db.tasks
    ensures Inserted(db, op) == []
  {
  }

  /** Every transaction keeps the tasks sound. */
  lemma StepSound(db: Database, op: Op)
    requires TasksSound(db) && WellFormed(db) && Step(db, op).Success?
    ensures TasksSound(Step(db, op).value)
  {
    hide TasksSound, Step;
    match op
    case Accept(_, _, _, _, _, _) => AcceptSound(db, op);
    case ResolveReview(_, _, _, _, _, _) => DecisionSound(db, op);
    case ConvertTask(_, _) => ConvertSound(db, op);
    case CompleteTask(_, _) => CompleteSound(db, op);
    case ReopenTask(_, _) => ReopenSound(db, op);
    case _ => OtherSound(db, op);
  }

  lemma EmptySound(members: map<Uid, bool>)
    ensures TasksSound(Initial(members)) && WellFormed(Initial(members))
  {
    InitialWellFormed(members);
  }

  /** After any run of transactions from an empty room, refused ones included, the tasks are sound. */
  lemma TasksFromEmpty(members: map<Uid, bool>, ops: seq<Op>)
    ensures TasksSound(After(Initial(members), ops))
  {
    EmptySound(members);
    TasksOverRuns(Initial(members), ops);
  }

  /** Over any run from sound tables the tasks stay sound. */
  lemma {:induction false} TasksOverRuns(db: Database, ops: seq<Op>)
    requires TasksSound(db) && WellFormed(db)
    ensures TasksSound(After(db, ops))
    decreases |ops|
  {
    hide TasksSound;
    if ops != [] {
      var r := Step(db, ops[0]);
      if r.Success? {
        StepSound(db, ops[0]);
        StepKeeps(db, ops[0]);
        TasksOverRuns(r.value, ops[1..]);
      } else {
        TasksOverRuns(db, ops[1..]);
      }
    }
  }

  // ---- The state a member is shown --------------------------------------------------------

  datatype TaskState = Done | NeedsConfirmation | IsRunning | IsQueued | Review | Blocked | Todo

  /** taskState: one pass over the runs, newest first. */
  method ShownState(db: Database, t: TaskId) returns (s: TaskState)
    requires IsTask(db, t)
    ensures s == Done <==> db.tasks[t - 1].completed
    ensures s == Review || s == Todo <==> Completable(db, t)
    ensures s == NeedsConfirmation || s == IsRunning || s == IsQueued <==> !db.tasks[t - 1].completed && HasUnfinishedRun(db, t)
    ensures s == Todo ==> forall k :: 0 <= k < |db.messages| ==> !RunOf(db, k, t)
  {
    if db.tasks[t - 1].completed {
      return Done;
    }
    var latest: Option<State> := None;
    var running, queued, uncertain := false, false, false;
    var k := |db.messages|;
    while k > 0
      invariant 0 <= k <= |db.messages|
      invariant latest.None? ==> forall i :: k <= i < |db.messages| ==> !RunOf(db, i, t)
      invariant latest.None? ==> LatestRun(db, t, |db.messages|) == LatestRun(db, t, k)
      invariant latest.Some? ==> LatestRun(db, t, |db.messages|) >= k && db.messages[LatestRun(db, t, |db.messages|)].state == latest.value
      invariant running || queued || uncertain <==>
                exists i :: k <= i < |db.messages| && RunOf(db, i, t) && Unfinished(db.messages[i].state)
    {
      k := k - 1;
      if db.messages[k].id in db.runs && db.runs[db.messages[k].id] == t {
        var state := db.messages[k].state;
        assert RunOf(db, k, t);
        if latest.None? {
          latest := Some(state);
        }
        running := running || state == Running;
        queued := queued || state == Queued;
        uncertain := uncertain || state == Dispatching || state == State.NeedsReview;
      }
    }
    return if uncertain then NeedsConfirmation
           else if running then IsRunning
           else if queued then IsQueued
           else if latest == Some(Completed) then Review
           else if latest.Some? then Blocked
           else Todo;
  }
}
