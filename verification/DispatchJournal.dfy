/**
 A room's effects in the order they happened: each committed transaction and each
 call that reached the agent.  A process may die after any effect, so everything
 here is stated for every prefix of the journal.

 A commit may have happened although its caller saw an error, so each committed
 transaction says whether it was answered.
 */
module DispatchJournal {
  import opened Wrappers
  import opened RoomStore
  import opened RoomStoreFacts
  import opened RoomTransitions

  /** What StartTurn reported. */
  datatype StartOutcome = Started(turn: TurnId) | NotSent | Unknown

  datatype HistoryTurn = HistoryTurn(id: TurnId, state: State, items: seq<Item>)

  datatype History = History(id: ThreadId, cwd: nat, turns: seq<HistoryTurn>)

  function TurnIds(turns: seq<HistoryTurn>): set<TurnId>
  {
    set k | 0 <= k < |turns| :: turns[k].id
  }

  /** What a steer, an interrupt or a thread request reported. */
  datatype Delivery = Delivered | Unsent | Uncertain

  /**
   `answered` says whether the caller learned of the commit, and `created` is the turn
   the agent really began, whatever its caller was told.
   */
  datatype Effect =
    | Committed(op: Op, db: Database, answered: bool)
    | TurnStart(id: MessageId, outcome: StartOutcome, created: Option<TurnId>)
    | QuestionStart(outcome: StartOutcome, created: Option<TurnId>)
    | ThreadRead(history: History)
    | ThreadResumed(history: History)
    | ThreadStarted(history: History)
    | Controlled(turn: TurnId, delivery: Delivery)
    | ImageRead

  type Journal = seq<Effect>

  function Front(j: Journal): Journal
    requires j != []
  {
    j[..|j| - 1]
  }

  function Last(j: Journal): Effect
    requires j != []
  {
    j[|j| - 1]
  }

  /** The tables a process finds when it starts after these effects. */
  function Current(base: Database, j: Journal): Database
  {
    if j == [] then base
    else if Last(j).Committed? then Last(j).db
    else Current(base, Front(j))
  }

  function CreatedBy(e: Effect): set<TurnId>
  {
    if e.TurnStart? && e.created.Some? then {e.created.value}
    else if e.QuestionStart? && e.created.Some? then {e.created.value}
    else {}
  }

  /** Turns begun for prompts. */
  function OrdinaryTurns(j: Journal): set<TurnId>
  {
    if j == [] then {}
    else OrdinaryTurns(Front(j)) + if Last(j).TurnStart? then CreatedBy(Last(j)) else {}
  }

  /** Turns begun for private questions. */
  function QuestionTurns(j: Journal): set<TurnId>
  {
    if j == [] then {}
    else QuestionTurns(Front(j)) + if Last(j).QuestionStart? then CreatedBy(Last(j)) else {}
  }

  /** Every turn id seen so far. */
  function KnownTurns(j: Journal): set<TurnId>
  {
    if j == [] then {}
    else
      KnownTurns(Front(j)) + CreatedBy(Last(j)) +
      (if Last(j).ThreadRead? || Last(j).ThreadResumed? then TurnIds(Last(j).history.turns) else {})
  }

  // ---- What was answered ---------------------------------------------------------

  /** No commit's answer was lost. */
  predicate AllAnswered(j: Journal)
  {
    j == [] || (AllAnswered(Front(j)) && (Last(j).Committed? ==> Last(j).answered))
  }

  /** No frontier was stored without an answer. */
  predicate FrontiersAnswered(j: Journal)
  {
    j == [] || (FrontiersAnswered(Front(j)) && (Last(j).Committed? && Last(j).op.BeginPrivateTurn? ==> Last(j).answered))
  }

  /** The answer to the newest frontier was lost. */
  predicate Untold(j: Journal)
  {
    j != [] && if Last(j).Committed? && Last(j).op.BeginPrivateTurn? then !Last(j).answered else Untold(Front(j))
  }

  /** A frontier stands that its owner was told of. */
  predicate FrontierHeld(past: Journal, db: Database)
  {
    db.frontier.Some? && !Untold(past)
  }

  /** Prompts whose acceptance was committed, told or not. */
  function AcceptedPrompts(j: Journal): set<MessageId>
  {
    if j == [] then {}
    else
      AcceptedPrompts(Front(j)) +
      if Last(j).Committed? && Last(j).op.Accept? && Last(j).op.kind == Prompt then {Last(j).op.id} else {}
  }

  /** The prompt whose first acceptance is this effect, if its answer was lost. */
  function NewlyLost(past: Journal, e: Effect): set<MessageId>
  {
    if e.Committed? && e.op.Accept? && e.op.kind == Prompt && !e.answered && e.op.id !in AcceptedPrompts(past)
    then {e.op.id} else {}
  }

  /** Prompts that were stored without an answer. */
  function LostPrompts(j: Journal): set<MessageId>
  {
    if j == [] then {} else LostPrompts(Front(j)) + NewlyLost(Front(j), Last(j))
  }

  /** Those of them the coordinator cannot know of: no recovery image was read since. */
  function Overlooked(j: Journal): set<MessageId>
  {
    if j == [] || Last(j).ImageRead? then {} else Overlooked(Front(j)) + NewlyLost(Front(j), Last(j))
  }

  lemma {:induction false} LostAccepted(j: Journal)
    ensures Overlooked(j) <= LostPrompts(j) <= AcceptedPrompts(j)
    ensures AllAnswered(j) ==> LostPrompts(j) == {}
    decreases |j|
  {
    if j != [] {
      LostAccepted(Front(j));
    }
  }

  /** What was answered after the whole run was answered after every beginning of it. */
  lemma {:induction false} AnsweredBefore(j: Journal, k: nat)
    requires k <= |j|
    ensures AllAnswered(j) ==> AllAnswered(j[..k]) && FrontiersAnswered(j)
    ensures FrontiersAnswered(j) ==> FrontiersAnswered(j[..k]) && !Untold(j)
    decreases |j|
  {
    if k < |j| {
      assert Front(j)[..k] == j[..k];
      AnsweredBefore(Front(j), k);
    } else {
      assert j[..k] == j;
      if j != [] {
        AnsweredBefore(Front(j), k - 1);
      }
    }
  }

  // ---- What the environment and the coordinator may do next ---------------------

  /** The agent never reuses a turn id, and "not sent" means that nothing was begun. */
  predicate AgentRule(past: Journal, outcome: StartOutcome, created: Option<TurnId>)
  {
    && (outcome.Started? ==> created == Some(outcome.turn))
    && (outcome.NotSent? ==> created == None)
    && (created.Some? ==> created.value != 0 && created.value !in KnownTurns(past))
  }

  predicate NoReviewedControls(ms: seq<Message>)
  {
    forall k :: 0 <= k < |ms| ==> !(IsControl(ms[k].kind) && ms[k].state == NeedsReview)
  }

  predicate Quiet(db: Database)
  {
    Idle(db.messages) && NoControls(db.messages) && db.status == Ready && db.thread != 0 && db.frontier == None
  }

  /**
   The rule a dispatch of `id` must meet: an idle room that is ready and behind no known frontier,
   and the first queued prompt the coordinator can know of.
   */
  predicate DispatchAllowed(past: Journal, db: Database, id: MessageId)
  {
    && Idle(db.messages) && db.status == Ready && db.thread != 0 && !FrontierHeld(past, db)
    && QueueBut(db.messages, Overlooked(past)) != [] && QueueBut(db.messages, Overlooked(past))[0] == id
    && (AllAnswered(past) ==> Quiet(db))
  }

  /** Nothing is in the agent's hands or known to wait for it, and the frontier separates the prompts' turns from what follows. */
  predicate FrontierAllowed(past: Journal, db: Database, baseline: set<TurnId>)
  {
    && Idle(db.messages) && NoReviewedControls(db.messages) && db.status == Ready && db.thread != 0
    && QueueBut(db.messages, Overlooked(past)) == []
    && OrdinaryTurns(past) <= baseline <= KnownTurns(past)
    && (AllAnswered(past) ==> Quiet(db))
  }

  predicate HidingAllowed(past: Journal, db: Database, turns: set<TurnId>)
  {
    && turns <= KnownTurns(past)
    && QuestionTurns(past) <= db.hidden + turns
    && (FrontiersAnswered(past) ==> turns !! OrdinaryTurns(past))
  }

  /** What a coordinator asks of the tables when it issues a transaction that would succeed. */
  predicate Disciplined(past: Journal, db: Database, op: Op)
  {
    match op
    case FailDispatch(id, s, _) => s == Failed && past != [] && Last(past) == TurnStart(id, NotSent, None)
    case BindRunningTurn(id, turn) => past != [] && Last(past) == TurnStart(id, Started(turn), Some(turn))
    case BeginDispatch(id) => DispatchAllowed(past, db, id)
    case BeginPrivateTurn(baseline) => FrontierAllowed(past, db, baseline)
    case EndPrivateTurn(turns) => HidingAllowed(past, db, turns)
    case RecordCompletedItem(item) => item.turn in KnownTurns(past) && item.turn !in QuestionTurns(past)
    case MarkNeedsReview(_, _) => !FrontierHeld(past, db)
    case FinishControl(_, s, _) => s == NeedsReview ==> !FrontierHeld(past, db)
    case BindThread(_) => db.thread == 0
    case _ => true
  }

  /** The transaction was committed, and its caller was told. */
  predicate Answered(e: Effect, op: Op)
  {
    e.Committed? && e.op == op && e.answered
  }

  predicate JustAnswered(past: Journal, op: Op)
  {
    past != [] && Answered(Last(past), op)
  }

  predicate Allowed(base: Database, past: Journal, e: Effect)
  {
    match e
    case Committed(op, db, _) =>
      Step(Current(base, past), op) == Success(db) && Disciplined(past, Current(base, past), op)
    case TurnStart(id, outcome, created) =>
      JustAnswered(past, BeginDispatch(id)) && AgentRule(past, outcome, created)
    case QuestionStart(outcome, created) =>
      && past != [] && Last(past).Committed? && Last(past).op.BeginPrivateTurn? && Last(past).answered
      && AgentRule(past, outcome, created)
    case ThreadRead(h) => OrdinaryTurns(past) + QuestionTurns(past) <= TurnIds(h.turns)  // a read reflects every earlier request
    case ThreadResumed(_) => true
    case ThreadStarted(_) => true
    case Controlled(_, _) => true
    case ImageRead => true
  }

  ghost predicate Safe(base: Database, j: Journal)
  {
    j == [] || (Safe(base, Front(j)) && Allowed(base, Front(j), Last(j)))
  }

  lemma SafeExtend(base: Database, j: Journal, e: Effect)
    requires Safe(base, j) && Allowed(base, j, e)
    ensures Safe(base, j + [e]) && Front(j + [e]) == j && Last(j + [e]) == e
  {
    assert Front(j + [e]) == j;
  }

  /** A crash leaves a prefix, and every prefix of a safe journal is safe. */
  lemma {:induction false} CrashIsSafe(base: Database, j: Journal, k: nat)
    requires Safe(base, j) && k <= |j|
    ensures Safe(base, j[..k])
    decreases |j|
  {
    if k < |j| {
      assert Front(j)[..k] == j[..k];
      CrashIsSafe(base, Front(j), k);
    } else {
      assert j[..k] == j;
    }
  }

  /** The effect at a position was allowed after the prefix before it. */
  lemma {:induction false} AllowedAt(base: Database, j: Journal, k: nat)
    requires Safe(base, j) && k < |j|
    ensures Safe(base, j[..k]) && Allowed(base, j[..k], j[k])
  {
    CrashIsSafe(base, j, k + 1);
    CrashIsSafe(base, j, k);
    assert Front(j[..k + 1]) == j[..k];
  }

  lemma {:induction false} CurrentWellFormed(members: map<Uid, bool>, j: Journal)
    requires Safe(Initial(members), j)
    ensures WellFormed(Current(Initial(members), j))
    decreases |j|
  {
    if j != [] {
      CurrentWellFormed(members, Front(j));
      if Last(j).Committed? {
        StepKeeps(Current(Initial(members), Front(j)), Last(j).op);
      }
    } else {
      InitialWellFormed(members);
    }
  }

  // ---- At most one start for each decision ----------------------------------------

  function Begins(j: Journal, id: MessageId): nat
  {
    if j == [] then 0
    else Begins(Front(j), id) + if Last(j).Committed? && Last(j).op == BeginDispatch(id) then 1 else 0
  }

  /** Calls of StartTurn that carried the prompt. */
  function Starts(j: Journal, id: MessageId): nat
  {
    if j == [] then 0
    else Starts(Front(j), id) + if Last(j).TurnStart? && Last(j).id == id then 1 else 0
  }

  predicate IsPromptOf(db: Database, id: MessageId)
  {
    Exists(db.messages, id) && IsPrompt(Row(db.messages, id).kind)
  }

  /** An accepted decision to retry the prompt `id`; a replayed decision does not count again. */
  predicate RetryDecision(db: Database, op: Op, id: MessageId)
  {
    && op.ResolveReview? && op.action == Retry && op.target == id
    && !Exists(db.messages, op.id) && IsPromptOf(db, id)
  }

  function Retries(base: Database, j: Journal, id: MessageId): nat
  {
    if j == [] then 0
    else
      Retries(base, Front(j), id) +
      (if Last(j).Committed? && RetryDecision(Current(base, Front(j)), Last(j).op, id) then 1 else 0)
  }

  /** 1 when the prompt is stored and is not waiting in the queue. */
  function LeftQueue(db: Database, id: MessageId): nat
  {
    if IsPromptOf(db, id) && Row(db.messages, id).state != Queued then 1 else 0
  }

  function Delta(db: Database, op: Op, id: MessageId): int
  {
    (if op == BeginDispatch(id) then 1 else 0) - (if RetryDecision(db, op, id) then 1 else 0)
  }

  lemma CommitLedger(db: Database, op: Op, id: MessageId)
    requires WellFormed(db) && Step(db, op).Success?
    ensures LeftQueue(Step(db, op).value, id) == LeftQueue(db, id) + Delta(db, op, id)
  {
    StepRows(db, op);
    StepKeeps(db, op);
    var i := IndexOf(db.messages, id);
    if i != -1 {
      StoredLedger(db, op, i);
    } else {
      NewLedger(db, op, Step(db, op).value, id);
      AbsentTarget(db, op, id);
    }
  }

  lemma AbsentTarget(db: Database, op: Op, id: MessageId)
    requires Step(db, op).Success? && !Exists(db.messages, id)
    ensures Delta(db, op, id) == 0
  {
  }

  lemma NewLedger(db: Database, op: Op, next: Database, id: MessageId)
    requires RowsFollow(db, op, next) && !Exists(db.messages, id)
    requires Extends(db, next)
    ensures LeftQueue(next, id) == 0
  {
    var k := IndexOf(next.messages, id);
    if k != -1 {
      assert k < |db.messages| ==> SameIdentity(db.messages[k], next.messages[k]);
      InsertedQueued(db, op, k - |db.messages|);
    }
  }

  lemma StoredLedger(db: Database, op: Op, i: int)
    requires WellFormed(db) && Step(db, op).Success? && 0 <= i < |db.messages|
    requires RowsFollow(db, op, Step(db, op).value) && WellFormed(Step(db, op).value)
    ensures LeftQueue(Step(db, op).value, db.messages[i].id) ==
            LeftQueue(db, db.messages[i].id) + Delta(db, op, db.messages[i].id)
  {
    MovedClass(db, op, i);
    IndexUnique(db.messages, i);
    if IsPrompt(db.messages[i].kind) {
      RetriedRow(db, op, i);
    } else if op.BeginDispatch? {
      BegunTarget(db, op);
    }
    RowLedger(db, op, Step(db, op).value, i);
  }

  lemma RowLedger(db: Database, op: Op, next: Database, i: int)
    requires Distinct(db.messages) && Distinct(next.messages) && 0 <= i < |db.messages|
    requires RowsFollow(db, op, next) && ClassKept(op, db.messages[i], Moved(db, op, db.messages[i]))
    requires IsPrompt(db.messages[i].kind) ==> RetryFollows(db, op, db.messages[i])
    requires op == BeginDispatch(db.messages[i].id) ==> IsPrompt(db.messages[i].kind)
    ensures LeftQueue(next, db.messages[i].id) == LeftQueue(db, db.messages[i].id) + Delta(db, op, db.messages[i].id)
  {
    IndexUnique(db.messages, i);
    IndexUnique(next.messages, i);
  }

  /** Exactly a dispatch takes a prompt out of the queue, and exactly a fresh retry puts it back. */
  predicate RetryFollows(db: Database, op: Op, m: Message)
  {
    && (op == BeginDispatch(m.id) ==> m.state == Queued && Moved(db, op, m).state != Queued)
    && (RetryDecision(db, op, m.id) ==> m.state == NeedsReview)
    && (RetryDecision(db, op, m.id) <==> m.state != Queued && Moved(db, op, m).state == Queued)
  }

  lemma InsertedQueued(db: Database, op: Op, k: int)
    requires 0 <= k < |Inserted(db, op)|
    ensures IsPrompt(Inserted(db, op)[k].kind) ==> Inserted(db, op)[k].state == Queued
  {
  }

  lemma RetriedRow(db: Database, op: Op, i: int)
    requires WellFormed(db) && Step(db, op).Success? && 0 <= i < |db.messages|
    requires IsPrompt(db.messages[i].kind)
    ensures RetryFollows(db, op, db.messages[i])
  {
    IndexUnique(db.messages, i);
    MovedClass(db, op, i);
    if op.ResolveReview? && !Exists(db.messages, op.id) {
      ResolvedTarget(db, op);
    } else if op.BeginDispatch? {
      BegunTarget(db, op);
    }
  }

  /**
   The ledger of a prompt, after every effect: its dispatches are its accepted retry
   decisions, plus one when it is not in the queue.
   */
  lemma {:induction false} DispatchLedger(members: map<Uid, bool>, j: Journal, id: MessageId)
    requires Safe(Initial(members), j)
    ensures Begins(j, id) == Retries(Initial(members), j, id) + LeftQueue(Current(Initial(members), j), id)
    decreases |j|
  {
    if j != [] {
      var past := Front(j);
      DispatchLedger(members, past, id);
      CurrentWellFormed(members, past);
      if Last(j).Committed? {
        CommitLedger(Current(Initial(members), past), Last(j).op, id);
      }
    }
  }

  /** Every StartTurn call follows its own committed dispatch. */
  lemma {:induction false} StartsFollowBegins(base: Database, j: Journal, id: MessageId)
    requires Safe(base, j)
    ensures Starts(j, id) + (if j != [] && Last(j).Committed? && Last(j).op == BeginDispatch(id) then 1 else 0) <= Begins(j, id)
    decreases |j|
  {
    if j != [] {
      StartsFollowBegins(base, Front(j), id);
    }
  }

  /**
   After any run, with a crash after any effect, a prompt reached StartTurn at most once
   plus once for each accepted retry decision, and never while it waits for its first dispatch.
   Any answer may be lost on the way.
   */
  lemma StartedAtMostOnce(members: map<Uid, bool>, j: Journal, id: MessageId)
    requires Safe(Initial(members), j)
    ensures Starts(j, id) <= Retries(Initial(members), j, id) + LeftQueue(Current(Initial(members), j), id)
    ensures Starts(j, id) <= 1 + Retries(Initial(members), j, id)
  {
    DispatchLedger(members, j, id);
    StartsFollowBegins(Initial(members), j, id);
  }
}
