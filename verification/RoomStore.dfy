/**
 The durable side of a room: the tables as one value, and every repository
 transaction as a function from the tables before it to the tables after it.

 Identifiers are opaque numbers; 0 stands for the blank string (and for NULL in
 a column that allows it).  A message row and its turn binding row always carry
 the same state, since each transaction updates both, so they are one record here.
 */
module RoomStore {
  import opened Wrappers

  type MessageId = nat
  type ThreadId = nat
  type TurnId = nat
  type ItemId = nat
  type Uid = nat
  type TaskId = nat

  datatype Kind = Prompt | RecoveryPrompt | Note | Steer | Cancel | Recover

  datatype State = Queued | Dispatching | Running | Completed | Failed | Interrupted | NeedsReview

  datatype Status = Ready | Recovering | NeedsRepair

  datatype Code =
    | NoCode
    | StaleTurn
    | DeliveryNotSent
    | DeliveryUnknown
    | RecoverySkipped
    | RecoveryContinued
    | FaultCode
    | OtherCode

  datatype Action = Retry | Skip | Continue

  /** `body` stands for everything the canonical hash covers besides kind and actor. */
  datatype Message = Message(
    id: MessageId, kind: Kind, actor: Uid, body: nat, state: State,
    acceptedSeq: nat, turn: TurnId, code: Code)

  datatype Item = Item(thread: ThreadId, turn: TurnId, item: ItemId, payload: nat)

  datatype Event =
    | Accepted(id: MessageId, kind: Kind, body: nat, state: State)
    | StateChanged(id: MessageId, state: State, code: Code)
    | TurnRunning(id: MessageId, turn: TurnId)
    | TurnFinished(turn: TurnId, state: State, code: Code)
    | ItemCompleted(item: Item)
    | RecoveryAccepted(id: MessageId, target: MessageId, action: Action)
    | RecoveryDecided(target: MessageId, action: Action, state: State)
    | ThreadBound(previous: ThreadId, thread: ThreadId)
    | ThreadNeedsRepair(thread: ThreadId)
    | StatusChanged(before: Status, after: Status)

  /** The turns of the room's thread known before a private question started. */
  datatype Frontier = Frontier(baseline: set<TurnId>)

  datatype Task = Task(source: MessageId, completed: bool)

  datatype Database = Database(
    members: map<Uid, bool>,          // true when the member may write tasks
    messages: seq<Message>,           // in rowid order
    events: map<nat, Event>,
    nextSeq: nat,
    status: Status,
    thread: ThreadId,
    frontier: Option<Frontier>,
    hidden: set<TurnId>,              // private_turns
    tasks: seq<Task>,                 // task k+1 is tasks[k]
    runs: map<MessageId, TaskId>)     // task_messages

  datatype StoreError =
    | IdempotencyConflict
    | MemberNotFound
    | MessageNotFound
    | InvalidState
    | InvalidInput
    | StaleRecovery
    | TaskRefused
    | Unavailable

  datatype Op =
    | Accept(actor: Uid, id: MessageId, kind: Kind, body: nat, expected: TurnId, task: TaskId)
    | BeginDispatch(id: MessageId)
    | FailDispatch(id: MessageId, state: State, code: Code)
    | BindRunningTurn(id: MessageId, turn: TurnId)
    | FinishControl(id: MessageId, state: State, code: Code)
    | RecordCompletedItem(item: Item)
    | FinishTurn(turn: TurnId, state: State, code: Code)
    | MarkNeedsReview(id: MessageId, code: Code)
    | ResolveReview(actor: Uid, id: MessageId, target: MessageId, action: Action,
                    replacement: MessageId, body: nat)
    | BindThread(thread: ThreadId)
    | MarkThreadNeedsRepair
    | SetRoomStatus(status: Status)
    | BeginPrivateTurn(baseline: set<TurnId>)
    | EndPrivateTurn(turns: set<TurnId>)
    | ConvertTask(actor: Uid, source: MessageId)
    | CompleteTask(actor: Uid, task: TaskId)
    | ReopenTask(actor: Uid, task: TaskId)

  type Outcome = Result<Database, StoreError>

  // ---- Rows ------------------------------------------------------------

  predicate IsPrompt(k: Kind) { k == Prompt || k == RecoveryPrompt }

  predicate IsControl(k: Kind) { k == Steer || k == Cancel }

  predicate Terminal(s: State) { s == Completed || s == Failed || s == Interrupted }

  /** A prompt the agent may be working on. */
  predicate Active(m: Message)
  {
    IsPrompt(m.kind) && (m.state == Dispatching || m.state == Running || m.state == NeedsReview)
  }

  predicate QueuedPrompt(m: Message) { IsPrompt(m.kind) && m.state == Queued }

  predicate PendingControl(m: Message)
  {
    IsControl(m.kind) && (m.state == Dispatching || m.state == NeedsReview)
  }

  /** The row holding a client message id, or -1. */
  function IndexOf(ms: seq<Message>, id: MessageId): (r: int)
    ensures r == -1 <==> forall k :: 0 <= k < |ms| ==> ms[k].id != id
    ensures r != -1 ==> 0 <= r < |ms| && ms[r].id == id
  {
    if ms == [] then -1
    else if ms[|ms| - 1].id == id then |ms| - 1
    else IndexOf(ms[..|ms| - 1], id)
  }

  predicate Exists(ms: seq<Message>, id: MessageId) { IndexOf(ms, id) != -1 }

  function Row(ms: seq<Message>, id: MessageId): (m: Message)
    requires Exists(ms, id)
    ensures m in ms && m.id == id
  {
    ms[IndexOf(ms, id)]
  }

  predicate Awaits(m: Message, except: set<MessageId>) { QueuedPrompt(m) && m.id !in except }

  /** Client ids of the queued prompts in acceptance order, without the excepted ones. */
  function QueueBut(ms: seq<Message>, except: set<MessageId>): seq<MessageId>
  {
    if ms == [] then []
    else
      QueueBut(ms[..|ms| - 1], except) +
      (if Awaits(ms[|ms| - 1], except) then [ms[|ms| - 1].id] else [])
  }

  /** The recovery image's queue. */
  function Queue(ms: seq<Message>): seq<MessageId> { QueueBut(ms, {}) }

  /** The row the recovery image reports as active, or -1. */
  function ActiveIndex(ms: seq<Message>): (r: int)
    ensures r == -1 <==> forall k :: 0 <= k < |ms| ==> !Active(ms[k])
    ensures r != -1 ==> 0 <= r < |ms| && Active(ms[r]) && forall k :: 0 <= k < r ==> !Active(ms[k])
  {
    if ms == [] then -1
    else
      var r := ActiveIndex(ms[..|ms| - 1]);
      if r != -1 then r else if Active(ms[|ms| - 1]) then |ms| - 1 else -1
  }

  predicate Idle(ms: seq<Message>) { forall k :: 0 <= k < |ms| ==> !Active(ms[k]) }

  predicate NoControls(ms: seq<Message>) { forall k :: 0 <= k < |ms| ==> !PendingControl(ms[k]) }

  function PendingControls(ms: seq<Message>): seq<Message>
  {
    if ms == [] then []
    else
      PendingControls(ms[..|ms| - 1]) +
      (if PendingControl(ms[|ms| - 1]) then [ms[|ms| - 1]] else [])
  }

  function Revised(m: Message, s: State, turn: TurnId, code: Code): Message
  {
    m.(state := s, turn := turn, code := code)
  }

  // ---- Shared steps ----------------------------------------------------

  /** allocateSeq followed by insertEventAt. */
  function Append(db: Database, e: Event): Database
  {
    db.(events := db.events[db.nextSeq := e], nextSeq := db.nextSeq + 1)
  }

  function WithMessage(db: Database, m: Message): Database
  {
    db.(messages := db.messages + [m])
  }

  /** updateMessageAndBinding on one row, followed by its event. */
  function Transition(db: Database, i: int, s: State, turn: TurnId, code: Code, e: Event): Database
    requires 0 <= i < |db.messages|
  {
    Append(db.(messages := db.messages[i := Revised(db.messages[i], s, turn, code)]), e)
  }

  function InitialState(k: Kind): State
  {
    match k
    case Prompt => Queued
    case RecoveryPrompt => Queued
    case Steer => Dispatching
    case Cancel => Dispatching
    case Note => Completed
    case Recover => Completed
  }

  // ---- Tasks -----------------------------------------------------------

  predicate Unfinished(s: State) { !Terminal(s) }

  predicate RunOf(db: Database, k: int, t: TaskId)
    requires 0 <= k < |db.messages|
  {
    db.messages[k].id in db.runs && db.runs[db.messages[k].id] == t
  }

  predicate HasUnfinishedRun(db: Database, t: TaskId)
  {
    exists k :: 0 <= k < |db.messages| && RunOf(db, k, t) && Unfinished(db.messages[k].state)
  }

  /** The newest run of a task, or -1. */
  function LatestRun(db: Database, t: TaskId, n: nat): (r: int)
    requires n <= |db.messages|
    ensures r == -1 || (0 <= r < n && RunOf(db, r, t))
  {
    if n == 0 then -1
    else if RunOf(db, n - 1, t) then n - 1
    else LatestRun(db, t, n - 1)
  }

  predicate IsTask(db: Database, t: TaskId) { 1 <= t <= |db.tasks| }

  /** taskState is "review" or "todo": nothing unfinished, and the newest run, if any, completed. */
  predicate Completable(db: Database, t: TaskId)
    requires IsTask(db, t)
  {
    && !db.tasks[t - 1].completed
    && !HasUnfinishedRun(db, t)
    && var r := LatestRun(db, t, |db.messages|);
       r == -1 || db.messages[r].state == Completed
  }

  /** attachTaskMessage. */
  function Attach(db: Database, actor: Uid, t: TaskId, id: MessageId): Outcome
  {
    if actor !in db.members || !db.members[actor] then Failure(TaskRefused)
    else if !IsTask(db, t) || db.tasks[t - 1].completed || HasUnfinishedRun(db, t) then Failure(TaskRefused)
    else Success(db.(runs := db.runs[id := t]))
  }

  // ---- Transactions ----------------------------------------------------

  predicate SameCommand(m: Message, actor: Uid, kind: Kind, body: nat)
  {
    m.kind == kind && m.actor == actor && m.body == body
  }

  function AcceptTx(db: Database, actor: Uid, id: MessageId, kind: Kind, body: nat,
                    expected: TurnId, task: TaskId): Outcome
  {
    if kind == RecoveryPrompt || kind == Recover || (task != 0 && kind != Prompt) then Failure(InvalidInput)
    else if Exists(db.messages, id) then
      if SameCommand(Row(db.messages, id), actor, kind, body)
      then Success(db)
      else Failure(IdempotencyConflict)
    else if actor !in db.members then Failure(MemberNotFound)
    else
      var m := Message(id, kind, actor, body, InitialState(kind), db.nextSeq,
                       if IsControl(kind) then expected else 0, NoCode);
      var accepted := Append(db, Accepted(id, kind, body, InitialState(kind)));
      if task == 0 then Success(WithMessage(accepted, m))
      else
        match Attach(db, actor, task, id)
        case Failure(e) => Failure(e)
        case Success(linked) => Success(WithMessage(accepted, m).(runs := linked.runs))
  }

  /** requireMessageState. */
  function Require(db: Database, id: MessageId, controls: bool, s: State): (r: Result<int, StoreError>)
    ensures r.Success? ==> 0 <= r.value < |db.messages| && r.value == IndexOf(db.messages, id)
    ensures r.Success? ==>
              && db.messages[r.value].state == s
              && (if controls then IsControl(db.messages[r.value].kind) else IsPrompt(db.messages[r.value].kind))
  {
    var i := IndexOf(db.messages, id);
    if i == -1 then Failure(MessageNotFound)
    else if db.messages[i].state != s then Failure(InvalidState)
    else if controls && !IsControl(db.messages[i].kind) then Failure(InvalidState)
    else if !controls && !IsPrompt(db.messages[i].kind) then Failure(InvalidState)
    else Success(i)
  }

  /** validateTerminalOutcome. */
  predicate ValidOutcome(s: State, code: Code, controls: bool)
  {
    && (s == Failed || s == NeedsReview || (if controls then s == Completed else s == Interrupted))
    && (s == Completed <==> code == NoCode)
  }

  function BeginDispatchTx(db: Database, id: MessageId): Outcome
  {
    match Require(db, id, false, Queued)
    case Failure(e) => Failure(e)
    case Success(i) =>
      Success(db.(messages := db.messages[i := Revised(db.messages[i], Dispatching, db.messages[i].turn, NoCode)]))
  }

  function FailDispatchTx(db: Database, id: MessageId, s: State, code: Code): Outcome
  {
    if !ValidOutcome(s, code, false) then Failure(InvalidInput)
    else
      match Require(db, id, false, Dispatching)
      case Failure(e) => Failure(e)
      case Success(i) =>
        Success(Transition(db, i, s, db.messages[i].turn, code, StateChanged(id, s, code)))
  }

  function BindRunningTurnTx(db: Database, id: MessageId, turn: TurnId): Outcome
  {
    if turn == 0 then Failure(InvalidInput)
    else
      match Require(db, id, false, Dispatching)
      case Failure(e) => Failure(e)
      case Success(i) => Success(Transition(db, i, Running, turn, NoCode, TurnRunning(id, turn)))
  }

  function FinishControlTx(db: Database, id: MessageId, s: State, code: Code): Outcome
  {
    if !ValidOutcome(s, code, true) then Failure(InvalidInput)
    else
      match Require(db, id, true, Dispatching)
      case Failure(e) => Failure(e)
      case Success(i) =>
        Success(Transition(db, i, s, db.messages[i].turn, code, StateChanged(id, s, code)))
  }

  predicate SameSlot(e: Event, item: Item)
  {
    e.ItemCompleted? && e.item.thread == item.thread && e.item.turn == item.turn && e.item.item == item.item
  }

  function RecordCompletedItemTx(db: Database, item: Item): Outcome
  {
    if item.thread == 0 || item.turn == 0 || item.item == 0 then Failure(InvalidInput)
    else if db.thread != item.thread then Failure(InvalidState)
    else if exists s :: s in db.events && SameSlot(db.events[s], item) then
      if ItemCompleted(item) in db.events.Values then Success(db) else Failure(InvalidState)
    else Success(Append(db, ItemCompleted(item)))
  }

  /** The row FinishTurn selects: the prompt bound to the turn and still open, or -1. */
  function BoundIndex(ms: seq<Message>, turn: TurnId): (r: int)
    ensures r != -1 ==>
              && 0 <= r < |ms| && IsPrompt(ms[r].kind) && ms[r].turn == turn
              && (ms[r].state == Running || ms[r].state == NeedsReview)
    ensures r == -1 ==>
              forall k :: 0 <= k < |ms| && IsPrompt(ms[k].kind) && ms[k].turn == turn ==>
                            ms[k].state != Running && ms[k].state != NeedsReview
  {
    if ms == [] then -1
    else
      var m := ms[|ms| - 1];
      if IsPrompt(m.kind) && m.turn == turn && (m.state == Running || m.state == NeedsReview)
      then |ms| - 1
      else BoundIndex(ms[..|ms| - 1], turn)
  }

  function FinishTurnTx(db: Database, turn: TurnId, s: State, code: Code): Outcome
  {
    if turn == 0 || !Terminal(s) || (s == Completed) != (code == NoCode) then Failure(InvalidInput)
    else
      var i := BoundIndex(db.messages, turn);
      if i == -1 then Failure(InvalidState)
      else Success(Transition(db, i, s, turn, code, TurnFinished(turn, s, code)))
  }

  function MarkNeedsReviewTx(db: Database, id: MessageId, code: Code): Outcome
  {
    var i := IndexOf(db.messages, id);
    if code == NoCode then Failure(InvalidInput)
    else if i == -1 then Failure(MessageNotFound)
    else
      var m := db.messages[i];
      if m.state != Dispatching && m.state != Running then Failure(InvalidState)
      else if m.kind == Note || m.kind == Recover then Failure(InvalidState)
      else Success(Transition(db, i, NeedsReview, m.turn, code, StateChanged(id, NeedsReview, code)))
  }

  function RecoverRow(db: Database, actor: Uid, id: MessageId, body: nat): Message
  {
    Message(id, Recover, actor, body, Completed, db.nextSeq, 0, NoCode)
  }

  /** The command row and its event, common to the three decisions. */
  function ReviewAccepted(db: Database, actor: Uid, id: MessageId, target: MessageId, action: Action, body: nat): Database
  {
    Append(WithMessage(db, RecoverRow(db, actor, id, body)), RecoveryAccepted(id, target, action))
  }

  function RetryTx(db: Database, i: int): Database
    requires 0 <= i < |db.messages|
  {
    var m := db.messages[i];
    if IsPrompt(m.kind)
    then Transition(db, i, Queued, 0, NoCode, RecoveryDecided(m.id, Retry, Queued))
    else Transition(db, i, Dispatching, m.turn, NoCode, RecoveryDecided(m.id, Retry, Dispatching))
  }

  function TerminalizeTx(db: Database, i: int, action: Action): Database
    requires 0 <= i < |db.messages|
  {
    var m := db.messages[i];
    var code := if action == Skip then RecoverySkipped else RecoveryContinued;
    Transition(db, i, Failed, m.turn, code, RecoveryDecided(m.id, action, Failed))
  }

  /** insertRecoveryPrompt: the replacement inherits the target's task. */
  function InsertReplacement(db: Database, actor: Uid, id: MessageId, body: nat, source: MessageId): Outcome
  {
    var m := Message(id, RecoveryPrompt, actor, body, Queued, db.nextSeq, 0, NoCode);
    var inserted := Append(WithMessage(db, m), Accepted(id, RecoveryPrompt, body, Queued));
    if source !in db.runs then Success(inserted)
    else
      match Attach(db, actor, db.runs[source], id)
      case Failure(e) => Failure(e)
      case Success(linked) => Success(inserted.(runs := linked.runs))
  }

  function ResolveReviewTx(db: Database, actor: Uid, id: MessageId, target: MessageId, action: Action,
                           replacement: MessageId, body: nat): Outcome
  {
    if (action == Continue) != (replacement != 0) || (action == Continue && (replacement == id || replacement == target))
    then Failure(InvalidInput)
    else if Exists(db.messages, id) then
      if SameCommand(Row(db.messages, id), actor, Recover, body)
      then Success(db)
      else Failure(IdempotencyConflict)
    else if actor !in db.members then Failure(MemberNotFound)
    else
      var i := IndexOf(db.messages, target);
      if i == -1 then Failure(MessageNotFound)
      else if db.messages[i].state != NeedsReview || db.messages[i].kind == Note || db.messages[i].kind == Recover
      then Failure(StaleRecovery)
      else if action == Continue && Exists(db.messages, replacement) then Failure(IdempotencyConflict)
      else
        var accepted := ReviewAccepted(db, actor, id, target, action, body);
        match action
        case Retry => Success(RetryTx(accepted, i))
        case Skip => Success(TerminalizeTx(accepted, i, Skip))
        case Continue => InsertReplacement(TerminalizeTx(accepted, i, Continue), actor, replacement, body, target)
  }

  function BindThreadTx(db: Database, thread: ThreadId): Outcome
  {
    if thread == 0 then Failure(InvalidInput)
    else Success(Append(db.(thread := thread), ThreadBound(db.thread, thread)))
  }

  function MarkThreadNeedsRepairTx(db: Database): Outcome
  {
    if db.status == NeedsRepair then Failure(InvalidState)
    else Success(Append(db.(status := NeedsRepair), ThreadNeedsRepair(db.thread)))
  }

  function SetRoomStatusTx(db: Database, s: Status): Outcome
  {
    if db.status == s then Success(db)
    else Success(Append(db.(status := s), StatusChanged(db.status, s)))
  }

  /** The frontier table has one row per room. */
  function BeginPrivateTurnTx(db: Database, baseline: set<TurnId>): Outcome
  {
    if db.frontier.Some? then Failure(InvalidState)
    else Success(db.(frontier := Some(Frontier(baseline))))
  }

  function EndPrivateTurnTx(db: Database, turns: set<TurnId>): Outcome
  {
    Success(db.(hidden := db.hidden + turns, frontier := None))
  }

  predicate TaskWriter(db: Database, actor: Uid) { actor in db.members && db.members[actor] }

  predicate HasTask(db: Database, source: MessageId)
  {
    source in db.runs || exists k :: 0 <= k < |db.tasks| && db.tasks[k].source == source
  }

  function ConvertTaskTx(db: Database, actor: Uid, source: MessageId): Outcome
  {
    if !TaskWriter(db, actor) then Failure(TaskRefused)
    else
      var i := IndexOf(db.messages, source);
      if i == -1 || IsControl(db.messages[i].kind) || db.messages[i].kind == Recover then Failure(TaskRefused)
      else if HasTask(db, source) then Success(db)
      else
        var t := |db.tasks| + 1;
        Success(db.(
                tasks := db.tasks + [Task(source, false)],
                runs := if db.messages[i].kind == Note then db.runs else db.runs[source := t]))
  }

  function CompleteTaskTx(db: Database, actor: Uid, t: TaskId): Outcome
  {
    if !TaskWriter(db, actor) || !IsTask(db, t) || !Completable(db, t) then Failure(TaskRefused)
    else Success(db.(tasks := db.tasks[t - 1 := db.tasks[t - 1].(completed := true)]))
  }

  function ReopenTaskTx(db: Database, actor: Uid, t: TaskId): Outcome
  {
    if !TaskWriter(db, actor) || !IsTask(db, t) || !db.tasks[t - 1].completed then Failure(TaskRefused)
    else Success(db.(tasks := db.tasks[t - 1 := db.tasks[t - 1].(completed := false)]))
  }

  /** One repository transaction: the committed tables, or the error that rolled it back. */
  function Step(db: Database, op: Op): Outcome
  {
    match op
    case Accept(actor, id, kind, body, expected, task) => AcceptTx(db, actor, id, kind, body, expected, task)
    case BeginDispatch(id) => BeginDispatchTx(db, id)
    case FailDispatch(id, s, code) => FailDispatchTx(db, id, s, code)
    case BindRunningTurn(id, turn) => BindRunningTurnTx(db, id, turn)
    case FinishControl(id, s, code) => FinishControlTx(db, id, s, code)
    case RecordCompletedItem(item) => RecordCompletedItemTx(db, item)
    case FinishTurn(turn, s, code) => FinishTurnTx(db, turn, s, code)
    case MarkNeedsReview(id, code) => MarkNeedsReviewTx(db, id, code)
    case ResolveReview(actor, id, target, action, replacement, body) =>
      ResolveReviewTx(db, actor, id, target, action, replacement, body)
    case BindThread(thread) => BindThreadTx(db, thread)
    case MarkThreadNeedsRepair => MarkThreadNeedsRepairTx(db)
    case SetRoomStatus(s) => SetRoomStatusTx(db, s)
    case BeginPrivateTurn(baseline) => BeginPrivateTurnTx(db, baseline)
    case EndPrivateTurn(turns) => EndPrivateTurnTx(db, turns)
    case ConvertTask(actor, source) => ConvertTaskTx(db, actor, source)
    case CompleteTask(actor, t) => CompleteTaskTx(db, actor, t)
    case ReopenTask(actor, t) => ReopenTaskTx(db, actor, t)
  }

  /** InitializeRoom: an empty room with its members. */
  function Initial(members: map<Uid, bool>): Database
  {
    Database(members, [], map[], 1, Ready, 0, None, {}, [], map[])
  }
}
