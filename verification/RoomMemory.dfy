/**
 The coordinator's volatile state and how it stands to the tables between two handler
 calls, in a process that has loaded the recovery image once.
 */
module RoomMemory {
  import opened Wrappers
  import opened RoomStore
  import opened RoomStoreFacts
  import opened RoomTransitions
  import opened DispatchJournal
  import opened RoomSafety

  datatype Binding = Binding(id: MessageId, turn: TurnId, state: State)

  /** coordinatorState without latestSeq; a status of None is the blank status of a process that has not recovered. */
  datatype Memory = Memory(
    status: Option<Status>, thread: ThreadId, active: Option<Binding>,
    controls: seq<Binding>, queue: seq<MessageId>)

  predicate IsReady(m: Memory) { m.status == Some(Ready) }

  predicate Holds(m: Memory, id: MessageId)
  {
    exists k :: 0 <= k < |m.controls| && m.controls[k].id == id
  }

  /** The binding is the stored row. */
  predicate Matches(b: Binding, ms: seq<Message>)
  {
    && Exists(ms, b.id)
    && IsPrompt(Row(ms, b.id).kind)
    && Row(ms, b.id).state == b.state
    && Row(ms, b.id).turn == b.turn
  }

  /** The in-memory queue is the stored one; a prompt whose start is not settled may still head it. */
  predicate QueueMatches(m: Memory, ms: seq<Message>)
  {
    || m.queue == Queue(ms)
    || (m.active.Some? && m.active.value.turn == 0 && m.queue == [m.active.value.id] + Queue(ms))
  }

  /** Every pending control of the store is known to the coordinator. */
  ghost predicate ControlsHeld(m: Memory, ms: seq<Message>)
  {
    forall k :: 0 <= k < |ms| && PendingControl(ms[k]) ==> Holds(m, ms[k].id)
  }

  ghost predicate ActiveMatches(m: Memory, ms: seq<Message>)
  {
    if m.active == None then Idle(ms) else Matches(m.active.value, ms)
  }

  /** A binding the coordinator believes to be dispatching or running is stored as such. */
  ghost predicate BeliefHolds(m: Memory, ms: seq<Message>)
  {
    m.active.Some? ==>
      var b := m.active.value;
      if b.state == NeedsReview
      then Exists(ms, b.id) && IsPrompt(Row(ms, b.id).kind) && Row(ms, b.id).state != Dispatching && Row(ms, b.id).state != Running
      else (b.state == Dispatching || b.state == Running) && Matches(b, ms) && (m.controls == [] ==> QueueMatches(m, ms))
  }

  /** The states from which the coordinator may return to dispatching without reloading. */
  predicate Armed(m: Memory, fault: bool)
  {
    IsReady(m) || (fault && m.active.Some?)
  }

  ghost predicate InStep(m: Memory, loaded: bool, fault: bool, db: Database)
  {
    if !loaded then m.active == None && !IsReady(m)
    else
      && m.thread == db.thread
      && ControlsHeld(m, db.messages)
      && BeliefHolds(m, db.messages)
      && (Armed(m, fault) ==> ActiveMatches(m, db.messages) && (m.controls == [] ==> QueueMatches(m, db.messages)))
      && (IsReady(m) ==> db.status == Ready && db.thread != 0)
  }

  /** What a recovery image of these tables yields. */
  function Loaded(db: Database): Memory
  {
    var i := ActiveIndex(db.messages);
    Memory(
      Some(Recovering), db.thread,
      if i == -1 then None else Some(BindingOf(db.messages[i])),
      Bindings(PendingControls(db.messages)), Queue(db.messages))
  }

  function BindingOf(m: Message): Binding { Binding(m.id, m.turn, m.state) }

  function Bindings(ms: seq<Message>): (bs: seq<Binding>)
    ensures |bs| == |ms| && forall k :: 0 <= k < |ms| ==> bs[k] == BindingOf(ms[k])
  {
    seq(|ms|, k requires 0 <= k < |ms| => BindingOf(ms[k]))
  }

  // ---- Loading --------------------------------------------------------------------

  lemma {:induction false} PendingControlsAll(ms: seq<Message>, k: int) returns (p: int)
    requires 0 <= k < |ms| && PendingControl(ms[k])
    ensures 0 <= p < |PendingControls(ms)| && PendingControls(ms)[p] == ms[k]
    decreases |ms|
  {
    if k == |ms| - 1 {
      p := |PendingControls(ms)| - 1;
    } else {
      p := PendingControlsAll(ms[..|ms| - 1], k);
    }
  }

  /** A freshly loaded image agrees with the tables exactly. */
  lemma LoadedInStep(db: Database, fault: bool)
    requires WellFormed(db)
    ensures InStep(Loaded(db), true, fault, db)
    ensures ActiveMatches(Loaded(db), db.messages)
    ensures Loaded(db).queue == Queue(db.messages)
    ensures Loaded(db).controls == [] <==> NoControls(db.messages)
  {
    var m := Loaded(db);
    forall k | 0 <= k < |db.messages| && PendingControl(db.messages[k])
      ensures Holds(m, db.messages[k].id)
    {
      var p := PendingControlsAll(db.messages, k);
      assert m.controls[p].id == db.messages[k].id;
    }
    var i := ActiveIndex(db.messages);
    if i != -1 {
      IndexUnique(db.messages, i);
    }
    LoadedControls(db.messages);
  }

  lemma {:induction false} LoadedControls(ms: seq<Message>)
    ensures PendingControls(ms) == [] <==> NoControls(ms)
    decreases |ms|
  {
    if ms != [] {
      LoadedControls(ms[..|ms| - 1]);
      assert forall k :: 0 <= k < |ms| - 1 ==> ms[..|ms| - 1][k] == ms[k];
    }
  }

  // ---- Transactions that leave the rows alone, and room status -------------------------

  lemma UnchangedRows(m: Memory, loaded: bool, fault: bool, db: Database, next: Database)
    requires InStep(m, loaded, fault, db)
    requires next.messages == db.messages && next.thread == db.thread && next.status == db.status
    ensures InStep(m, loaded, fault, next)
  {
  }

  /** Giving up readiness asks nothing of the tables. */
  lemma Frozen(m: Memory, loaded: bool, fault: bool, db: Database, s: Option<Status>)
    requires InStep(m, loaded, fault, db) && s != Some(Ready)
    ensures InStep(m.(status := s), loaded, fault, db)
  {
  }

  // ---- Accepting commands ---------------------------------------------------------------

  /** A new row of another id leaves every binding as it was. */
  lemma AppendedRow(ms: seq<Message>, r: Message, id: MessageId)
    requires Exists(ms, id) && r.id != id
    ensures IndexOf(ms + [r], id) == IndexOf(ms, id)
    ensures Row(ms + [r], id) == Row(ms, id)
  {
    assert (ms + [r])[..|ms + [r]| - 1] == ms;
  }

  /** Accepting a command: a prompt joins both queues, a control joins the pending ones. */
  lemma AcceptedInStep(m: Memory, loaded: bool, fault: bool, db: Database, next: Database, r: Message, m': Memory)
    requires InStep(m, loaded, fault, db) && !Exists(db.messages, r.id)
    requires next.messages == db.messages + [r] && next.thread == db.thread && next.status == db.status
    requires !Active(r)
    requires m' == (if QueuedPrompt(r) then m.(queue := m.queue + [r.id])
                    else if PendingControl(r) then m.(controls := m.controls + [Binding(r.id, r.turn, r.state)]) else m)
    ensures InStep(m', loaded, fault, next)
  {
    hide QueueBut, ControlsHeld, Holds, IndexOf;
    if loaded {
      var ms := db.messages;
      QueueAppend(ms, r, {});
      AcceptedHeld(m, ms, r, m');
      if m.active.Some? && Exists(ms, m.active.value.id) {
        AppendedRow(ms, r, m.active.value.id);
      }
      if m.active.Some? && m.queue == [m.active.value.id] + Queue(ms) {
        assert m.queue + [r.id] == [m.active.value.id] + (Queue(ms) + [r.id]);
      }
    }
  }

  lemma AcceptedHeld(m: Memory, ms: seq<Message>, r: Message, m': Memory)
    requires ControlsHeld(m, ms)
    requires m.controls <= m'.controls
    requires PendingControl(r) ==> m'.controls == m.controls + [Binding(r.id, r.turn, r.state)]
    ensures ControlsHeld(m', ms + [r])
  {
    forall k | 0 <= k < |ms| + 1 && PendingControl((ms + [r])[k])
      ensures Holds(m', (ms + [r])[k].id)
    {
      if k == |ms| {
        assert m'.controls[|m.controls|].id == r.id;
      } else {
        assert Holds(m, ms[k].id);
        var p :| 0 <= p < |m.controls| && m.controls[p].id == ms[k].id;
        assert m'.controls[p].id == ms[k].id;
      }
    }
  }

  // ---- One row changes ----------------------------------------------------------------------

  /** The row of `id` moved to another state; every other row is unchanged. */
  ghost predicate OneRow(ms: seq<Message>, ns: seq<Message>, id: MessageId)
  {
    && |ns| == |ms| && Distinct(ms)
    && Exists(ms, id)
    && (forall k :: 0 <= k < |ms| && ms[k].id != id ==> ns[k] == ms[k])
    && SameIdentity(ms[IndexOf(ms, id)], ns[IndexOf(ms, id)])
  }

  lemma OneRowIndex(ms: seq<Message>, ns: seq<Message>, id: MessageId, other: MessageId)
    requires OneRow(ms, ns, id)
    ensures IndexOf(ns, other) == IndexOf(ms, other)
    ensures Distinct(ns)
  {
    forall k | 0 <= k < |ms|
      ensures ns[k].id == ms[k].id
    {
      if ms[k].id == id {
        IndexUnique(ms, k);
      }
    }
    var i := IndexOf(ms, other);
    if i != -1 {
      IndexUnique(ns, i);
    }
  }

  lemma MovedOneRow(db: Database, op: Op, id: MessageId)
    requires WellFormed(db) && Step(db, op).Success? && Exists(db.messages, id)
    requires op == BeginDispatch(id) || (op.FailDispatch? && op.id == id) || (op.BindRunningTurn? && op.id == id)
             || (op.FinishControl? && op.id == id) || (op.MarkNeedsReview? && op.id == id)
    ensures OneRow(db.messages, Step(db, op).value.messages, id)
    ensures Row(Step(db, op).value.messages, id) == Moved(db, op, Row(db.messages, id))
  {
    StepRows(db, op);
    var next := Step(db, op).value;
    forall k | 0 <= k < |db.messages| && db.messages[k].id != id
      ensures next.messages[k] == db.messages[k]
    {
    }
    MovedClass(db, op, IndexOf(db.messages, id));
    OneRowIndex(db.messages, next.messages, id, id);
  }

  lemma FinishedOneRow(db: Database, op: Op, i: int)
    requires WellFormed(db) && Step(db, op).Success? && op.FinishTurn? && i == BoundIndex(db.messages, op.turn) && i != -1
    ensures OneRow(db.messages, Step(db, op).value.messages, db.messages[i].id)
    ensures Row(Step(db, op).value.messages, db.messages[i].id) == Revised(db.messages[i], op.state, op.turn, op.code)
  {
    StepRows(db, op);
    var next := Step(db, op).value;
    IndexUnique(db.messages, i);
    forall k | 0 <= k < |db.messages| && db.messages[k].id != db.messages[i].id
      ensures next.messages[k] == db.messages[k]
    {
    }
    MovedClass(db, op, i);
    OneRowIndex(db.messages, next.messages, db.messages[i].id, db.messages[i].id);
  }

  /** A change of one row that leaves it out of the queue, before and after, leaves the queue. */
  lemma OneRowQueue(ms: seq<Message>, ns: seq<Message>, id: MessageId)
    requires OneRow(ms, ns, id) && !QueuedPrompt(Row(ms, id)) && !QueuedPrompt(Row(ns, id))
    ensures Queue(ns) == Queue(ms)
  {
    OneRowIndex(ms, ns, id, id);
    forall k | 0 <= k < |ms|
      ensures ms[k].id == ns[k].id && QueuedPrompt(ms[k]) == QueuedPrompt(ns[k])
    {
      if ms[k].id == id {
        IndexUnique(ms, k);
      }
    }
    QueueSame(ms, ns, {}, {});
  }

  /** The only active row, once it is no longer active, leaves the room idle. */
  lemma OneRowIdle(ms: seq<Message>, ns: seq<Message>, id: MessageId)
    requires OneRow(ms, ns, id) && OneActive(ms) && Active(Row(ms, id)) && !Active(Row(ns, id))
    ensures Idle(ns)
  {
    OneRowIndex(ms, ns, id, id);
    forall k | 0 <= k < |ns|
      ensures !Active(ns[k])
    {
      if ms[k].id == id {
        IndexUnique(ms, k);
      } else {
        assert k != IndexOf(ms, id);
      }
    }
  }

  /** A row that is not a pending control afterwards needs no holder. */
  lemma OneRowHeld(m: Memory, ms: seq<Message>, ns: seq<Message>, id: MessageId)
    requires OneRow(ms, ns, id) && ControlsHeld(m, ms)
    requires PendingControl(Row(ns, id)) ==> Holds(m, id)
    ensures ControlsHeld(m, ns)
  {
    OneRowIndex(ms, ns, id, id);
    forall k | 0 <= k < |ns| && PendingControl(ns[k])
      ensures Holds(m, ns[k].id)
    {
      if ms[k].id == id {
        IndexUnique(ms, k);
      }
    }
  }

  // ---- Dispatching ------------------------------------------------------------------------

  /** From a ready, idle coordinator the head of the in-memory queue is the prompt the rules require. */
  lemma ReadyDispatch(m: Memory, fault: bool, db: Database)
    requires InStep(m, true, fault, db) && IsReady(m) && m.active == None && m.controls == [] && m.queue != []
    requires db.frontier == None
    ensures Quiet(db)
    ensures m.queue == Queue(db.messages)
  {
    forall k | 0 <= k < |db.messages|
      ensures !PendingControl(db.messages[k])
    {
      assert !Holds(m, db.messages[k].id);
    }
  }

  lemma BegunInStep(m: Memory, fault: bool, db: Database, j: Journal)
    requires InStep(m, true, fault, db) && Durable(db, j) && IsReady(m) && m.active == None && m.controls == [] && m.queue != []
    requires db.frontier == None && Step(db, BeginDispatch(m.queue[0])).Success?
    ensures var next := Step(db, BeginDispatch(m.queue[0])).value;
            var m' := m.(active := Some(Binding(m.queue[0], 0, Dispatching)));
            InStep(m', true, fault, next) && m.queue == [m.queue[0]] + Queue(next.messages)
  {
    hide LogPublic, HidesQuestions, ShowsPrompts, Orderly, PromptsStored, QueueBut, Step;
    var id := m.queue[0];
    var op := BeginDispatch(id);
    var next := Step(db, op).value;
    ReadyDispatch(m, fault, db);
    BegunTarget(db, op);
    MovedOneRow(db, op, id);
    StepColumns(db, op);
    var h := QueueHead(db.messages, {});
    IndexUnique(db.messages, h);
    assert Bound(db.messages[h], OrdinaryTurns(j));
    OneRowUpdate(db.messages, next.messages, id, h);
    QueuePop(db.messages, h, next.messages[h], {});
    OneRowHeld(m, db.messages, next.messages, id);
  }

  lemma OneRowUpdate(ms: seq<Message>, ns: seq<Message>, id: MessageId, h: int)
    requires OneRow(ms, ns, id) && 0 <= h < |ms| && ms[h].id == id
    ensures ns == ms[h := ns[h]] && Row(ns, id) == ns[h]
  {
    OneRowIndex(ms, ns, id, id);
    IndexUnique(ms, h);
    forall k | 0 <= k < |ms| && k != h
      ensures ns[k] == ms[k]
    {
      if ms[k].id == id {
        IndexUnique(ms, k);
      }
    }
  }

  /** The dispatched prompt failed unsent: it leaves both queues and the room is idle again. */
  lemma FailedInStep(m: Memory, fault: bool, db: Database, j: Journal, op: Op)
    requires InStep(m, true, fault, db) && Durable(db, j) && m.active.Some? && m.active.value.state == Dispatching
    requires m.queue == [m.active.value.id] + Queue(db.messages)
    requires op.FailDispatch? && op.id == m.active.value.id && op.state == Failed && Step(db, op).Success?
    ensures InStep(m.(active := None, queue := m.queue[1..]), true, fault, Step(db, op).value)
  {
    hide LogPublic, HidesQuestions, ShowsPrompts, Orderly, PromptsStored;
    var next := Step(db, op).value;
    MovedOneRow(db, op, op.id);
    StepColumns(db, op);
    OneRowQueue(db.messages, next.messages, op.id);
    OneRowIdle(db.messages, next.messages, op.id);
    OneRowHeld(m, db.messages, next.messages, op.id);
    assert forall k :: Holds(m, k) == Holds(m.(active := None, queue := m.queue[1..]), k);
  }

  /** A prompt in the agent's hands goes into review; the coordinator must no longer be ready. */
  lemma ReviewedInStep(m: Memory, fault: bool, fault': bool, db: Database, op: Op, queue': seq<MessageId>)
    requires InStep(m, true, fault, db) && WellFormed(db) && m.active.Some? && m.active.value.state != NeedsReview
    requires !IsReady(m)
    requires op.MarkNeedsReview? && op.id == m.active.value.id && Step(db, op).Success?
    requires queue' == m.queue || queue' == Queue(db.messages)
    ensures InStep(m.(active := Some(m.active.value.(state := NeedsReview)), queue := queue'), true, fault', Step(db, op).value)
  {
    var next := Step(db, op).value;
    var m' := m.(active := Some(m.active.value.(state := NeedsReview)), queue := queue');
    MovedOneRow(db, op, op.id);
    StepColumns(db, op);
    OneRowQueue(db.messages, next.messages, op.id);
    OneRowHeld(m, db.messages, next.messages, op.id);
    assert forall k :: Holds(m, k) == Holds(m', k);
  }

  /** Nobody knows whether the start was delivered: the coordinator freezes and the prompt goes into review. */
  lemma UncertainInStep(m: Memory, fault: bool, db: Database, op: Op)
    requires InStep(m, true, fault, db) && WellFormed(db) && !IsReady(m)
    requires m.active.Some? && m.active.value.state == Dispatching && m.queue == [m.active.value.id] + Queue(db.messages)
    requires op.MarkNeedsReview? && op.id == m.active.value.id && Step(db, op).Success?
    ensures InStep(m.(active := Some(m.active.value.(state := NeedsReview)), queue := m.queue[1..]), true, fault, Step(db, op).value)
  {
    MovedOneRow(db, op, op.id);
    OneRowQueue(db.messages, Step(db, op).value.messages, op.id);
    ReviewedInStep(m, fault, fault, db, op, m.queue[1..]);
  }

  lemma RunningInStep(m: Memory, fault: bool, db: Database, op: Op)
    requires InStep(m, true, fault, db) && WellFormed(db) && m.active.Some? && m.active.value.state == Dispatching
    requires m.queue == [m.active.value.id] + Queue(db.messages)
    requires op.BindRunningTurn? && op.id == m.active.value.id && Step(db, op).Success?
    ensures InStep(m.(active := Some(Binding(op.id, op.turn, Running)), queue := m.queue[1..]), true, fault, Step(db, op).value)
  {
    var next := Step(db, op).value;
    var m' := m.(active := Some(Binding(op.id, op.turn, Running)), queue := m.queue[1..]);
    MovedOneRow(db, op, op.id);
    StepColumns(db, op);
    OneRowQueue(db.messages, next.messages, op.id);
    OneRowHeld(m, db.messages, next.messages, op.id);
    assert forall k :: Holds(m, k) == Holds(m', k);
  }

  /** The turn of the active prompt ended: both sides are idle, and the queues agree. */
  lemma FinishedInStep(m: Memory, fault: bool, db: Database, j: Journal, op: Op)
    requires InStep(m, true, fault, db) && Durable(db, j) && m.active.Some?
    requires Matches(m.active.value, db.messages) && Active(Row(db.messages, m.active.value.id))
    requires m.controls == [] ==> QueueMatches(m, db.messages)
    requires op.FinishTurn? && op.turn == m.active.value.turn && Step(db, op).Success?
    ensures InStep(m.(active := None), true, fault, Step(db, op).value)
    ensures Idle(Step(db, op).value.messages)
    ensures m.controls == [] ==> m.queue == Queue(Step(db, op).value.messages)
    ensures Queue(Step(db, op).value.messages) == Queue(db.messages)
  {
    hide LogPublic, HidesQuestions, ShowsPrompts, Orderly, PromptsStored;
    var next := Step(db, op).value;
    var m' := m.(active := None);
    FinishedTurn(db, op);
    FinishStates(db, op);
    var i := BoundIndex(db.messages, op.turn);
    var k := IndexOf(db.messages, m.active.value.id);
    assert i == k;
    FinishedOneRow(db, op, i);
    StepColumns(db, op);
    OneRowQueue(db.messages, next.messages, db.messages[i].id);
    OneRowIdle(db.messages, next.messages, db.messages[i].id);
    OneRowHeld(m, db.messages, next.messages, db.messages[i].id);
    assert forall k :: Holds(m, k) == Holds(m', k);
  }

  // ---- Room status -----------------------------------------------------------------------------

  /** The room may become ready once memory and store agree. */
  lemma StatusInStep(m: Memory, fault: bool, db: Database, s: Status, next: Database)
    requires InStep(m, true, fault, db)
    requires next.messages == db.messages && next.thread == db.thread && next.status == s
    requires s == Ready ==>
               db.thread != 0 && ActiveMatches(m, db.messages) && (m.controls == [] ==> QueueMatches(m, db.messages))
    ensures InStep(m.(status := Some(s)), true, fault, next)
  {
  }

  /** A status the store keeps but the coordinator does not claim. */
  lemma StoredStatus(m: Memory, loaded: bool, fault: bool, db: Database, next: Database)
    requires InStep(m, loaded, fault, db) && !IsReady(m)
    requires next.messages == db.messages && next.thread == db.thread
    ensures InStep(m, loaded, fault, next)
  {
  }

  // ---- Controls --------------------------------------------------------------------------------

  /** Whether the queues must agree: the coordinator may dispatch, or still believes in an open prompt. */
  predicate Relies(m: Memory, fault: bool)
  {
    Armed(m, fault) || (m.active.Some? && m.active.value.state != NeedsReview)
  }

  /** finishControl: the control's row ended or went into review, and its entry was dropped or marked. */
  lemma ControlInStep(m: Memory, loaded: bool, fault: bool, db: Database, op: Op, controls': seq<Binding>)
    requires InStep(m, loaded, fault, db) && WellFormed(db)
    requires op.FinishControl? && Step(db, op).Success?
    requires forall id :: id != op.id && Holds(m, id) ==> Holds(m.(controls := controls'), id)
    requires op.state == NeedsReview ==> Holds(m.(controls := controls'), op.id) || !loaded
    requires controls' == [] ==> |m.controls| <= 1
    requires loaded && |m.controls| <= 1 && Relies(m, fault) ==> QueueMatches(m, db.messages)
    ensures InStep(m.(controls := controls'), loaded, fault, Step(db, op).value)
  {
    if loaded {
      var next := Step(db, op).value;
      ControlTarget(db, op);
      MovedOneRow(db, op, op.id);
      StepColumns(db, op);
      OutcomeStates(db, op);
      FinishedControl(m, fault, db, next, op.id, op.state, controls');
    }
  }

  lemma FinishedControl(m: Memory, fault: bool, db: Database, next: Database, id: MessageId, s: State, controls': seq<Binding>)
    requires InStep(m, true, fault, db) && OneRow(db.messages, next.messages, id)
    requires next.thread == db.thread && next.status == db.status
    requires Exists(next.messages, id) && IsControl(Row(db.messages, id).kind) && Row(next.messages, id).state == s && s != Dispatching
    requires forall i :: i != id && Holds(m, i) ==> Holds(m.(controls := controls'), i)
    requires s == NeedsReview ==> Holds(m.(controls := controls'), id)
    requires controls' == [] ==> |m.controls| <= 1
    requires |m.controls| <= 1 && Relies(m, fault) ==> QueueMatches(m, db.messages)
    ensures InStep(m.(controls := controls'), true, fault, next)
  {
    hide Queue, ControlsHeld, Holds;
    var m' := m.(controls := controls');
    OneRowQueue(db.messages, next.messages, id);
    SettledHeld(m, db.messages, next.messages, id, m');
    if m.active.Some? && Exists(db.messages, m.active.value.id) {
      OneRowIndex(db.messages, next.messages, id, m.active.value.id);
    }
    ControlIdle(db.messages, next.messages, id);
  }

  lemma SettledHeld(m: Memory, ms: seq<Message>, ns: seq<Message>, id: MessageId, m': Memory)
    requires ControlsHeld(m, ms) && OneRow(ms, ns, id)
    requires forall i :: i != id && Holds(m, i) ==> Holds(m', i)
    requires Exists(ns, id) && (PendingControl(Row(ns, id)) ==> Holds(m', id))
    ensures ControlsHeld(m', ns)
  {
    OneRowIndex(ms, ns, id, id);
    forall k | 0 <= k < |ns| && PendingControl(ns[k])
      ensures Holds(m', ns[k].id)
    {
      if ms[k].id == id {
        IndexUnique(ms, k);
      } else {
        assert Holds(m, ms[k].id);
      }
    }
  }

  lemma OutcomeStates(db: Database, op: Op)
    requires Step(db, op).Success? && op.FinishControl?
    ensures op.state != Dispatching
    ensures Exists(db.messages, op.id) && Moved(db, op, Row(db.messages, op.id)).state == op.state
  {
  }

  lemma ControlIdle(ms: seq<Message>, ns: seq<Message>, id: MessageId)
    requires OneRow(ms, ns, id) && IsControl(Row(ms, id).kind)
    ensures Idle(ms) <==> Idle(ns)
  {
    forall k | 0 <= k < |ms|
      ensures Active(ms[k]) == Active(ns[k])
    {
      if ms[k].id == id {
        IndexUnique(ms, k);
      }
    }
  }

  /** Recovery puts a control into review: both sides keep it pending. */
  lemma ControlReviewed(m: Memory, fault: bool, db: Database, op: Op)
    requires InStep(m, true, fault, db) && WellFormed(db) && !IsReady(m)
    requires op.MarkNeedsReview? && Step(db, op).Success? && Exists(db.messages, op.id) && IsControl(Row(db.messages, op.id).kind)
    requires Holds(m, op.id)
    ensures InStep(m, true, fault, Step(db, op).value)
    ensures Fresh(m, db) ==> Fresh(m, Step(db, op).value)
  {
    var next := Step(db, op).value;
    MovedOneRow(db, op, op.id);
    StepColumns(db, op);
    OneRowQueue(db.messages, next.messages, op.id);
    OneRowHeld(m, db.messages, next.messages, op.id);
    if m.active.Some? && Exists(db.messages, m.active.value.id) {
      OneRowIndex(db.messages, next.messages, op.id, m.active.value.id);
    }
    ControlIdle(db.messages, next.messages, op.id);
  }

  // ---- Review decisions ---------------------------------------------------------------------------

  /** A decision leaves an unready coordinator in step, though its image of the target may be stale. */
  lemma ResolvedInStep(m: Memory, loaded: bool, db: Database, op: Op, j: Journal)
    requires InStep(m, loaded, false, db) && Durable(db, j) && !IsReady(m)
    requires op.ResolveReview? && Step(db, op).Success? && !Exists(db.messages, op.id)
    ensures InStep(m, loaded, false, Step(db, op).value)
  {
    if loaded {
      StepColumns(db, op);
      ResolvedHeld(m, db, op);
      if m.active.Some? {
        ResolvedBelief(m, db, op, j);
      }
    }
  }

  lemma ResolvedHeld(m: Memory, db: Database, op: Op)
    requires ControlsHeld(m, db.messages) && WellFormed(db)
    requires op.ResolveReview? && Step(db, op).Success? && !Exists(db.messages, op.id)
    ensures ControlsHeld(m, Step(db, op).value.messages)
  {
    StepRows(db, op);
    forall k | 0 <= k < |db.messages| && PendingControl(Moved(db, op, db.messages[k]))
      ensures PendingControl(db.messages[k]) && Moved(db, op, db.messages[k]).id == db.messages[k].id
    {
      TargetControl(db, op, k);
    }
    HeldFollow(m, db, op, Step(db, op).value);
  }

  lemma HeldFollow(m: Memory, db: Database, op: Op, next: Database)
    requires ControlsHeld(m, db.messages) && RowsFollow(db, op, next) && op.ResolveReview?
    requires forall k :: 0 <= k < |db.messages| && PendingControl(Moved(db, op, db.messages[k])) ==>
                           PendingControl(db.messages[k]) && Moved(db, op, db.messages[k]).id == db.messages[k].id
    ensures ControlsHeld(m, next.messages)
  {
    forall k | |db.messages| <= k < |next.messages|
      ensures !PendingControl(next.messages[k])
    {
      InsertedNoControl(db, op, k - |db.messages|);
      assert next.messages[|db.messages| + (k - |db.messages|)] == Inserted(db, op)[k - |db.messages|];
    }
  }

  lemma InsertedNoControl(db: Database, op: Op, k: int)
    requires op.ResolveReview? && 0 <= k < |Inserted(db, op)|
    ensures !IsControl(Inserted(db, op)[k].kind)
  {
  }

  lemma TargetControl(db: Database, op: Op, k: int)
    requires WellFormed(db) && op.ResolveReview? && Step(db, op).Success? && !Exists(db.messages, op.id)
    requires 0 <= k < |db.messages| && PendingControl(Moved(db, op, db.messages[k]))
    ensures PendingControl(db.messages[k]) && Moved(db, op, db.messages[k]).id == db.messages[k].id
  {
    ResolvedTarget(db, op);
    if db.messages[k].id == op.target {
      IndexUnique(db.messages, k);
    }
  }

  lemma ResolvedBelief(m: Memory, db: Database, op: Op, j: Journal)
    requires InStep(m, true, false, db) && Durable(db, j) && m.active.Some?
    requires op.ResolveReview? && Step(db, op).Success? && !Exists(db.messages, op.id)
    ensures BeliefHolds(m, Step(db, op).value.messages)
  {
    hide Step, Queue, QueueBut, LogPublic, HidesQuestions, ShowsPrompts, AllBound, RowLogged, Orderly, PromptsStored;
    var b := m.active.value;
    var next := Step(db, op).value;
    var k := IndexOf(db.messages, b.id);
    var t := IndexOf(db.messages, op.target);
    StepRows(db, op);
    StepKeeps(db, op);
    MovedClass(db, op, k);
    IndexUnique(next.messages, k);
    ResolvedTarget(db, op);
    ReviewableTarget(db, op);
    if b.state != NeedsReview {
      assert k != t;
      assert !Active(db.messages[t]);
      assert PendingControl(db.messages[t]);
      assert Holds(m, db.messages[t].id);
    }
  }

  lemma ReviewableTarget(db: Database, op: Op)
    requires Step(db, op).Success? && op.ResolveReview? && !Exists(db.messages, op.id)
    ensures Exists(db.messages, op.target)
    ensures IsPrompt(Row(db.messages, op.target).kind) || IsControl(Row(db.messages, op.target).kind)
    ensures Row(db.messages, op.target).state == NeedsReview
  {
  }

  // ---- Binding the thread --------------------------------------------------------------------------

  lemma ThreadInStep(m: Memory, fault: bool, db: Database, next: Database)
    requires InStep(m, true, fault, db) && !IsReady(m)
    requires next.messages == db.messages && next.status == db.status
    ensures InStep(m.(thread := next.thread), true, fault, next)
  {
    assert forall k :: Holds(m, k) == Holds(m.(thread := next.thread), k);
  }

  // ---- Consequences the handlers use ------------------------------------------------------------------

  /** A freshly loaded memory, as recovery keeps it while it reconciles. */
  ghost predicate Fresh(m: Memory, db: Database)
  {
    ActiveMatches(m, db.messages) && m.queue == Queue(db.messages)
  }

  /** The room's own columns are unchanged. */
  ghost predicate RoomRowKept(db: Database, next: Database)
  {
    next.thread == db.thread && next.status == db.status && next.frontier == db.frontier && next.hidden == db.hidden
  }

  lemma ReviewedFresh(m: Memory, db: Database, op: Op)
    requires Fresh(m, db) && WellFormed(db) && m.active.Some?
    requires op.MarkNeedsReview? && op.id == m.active.value.id && Step(db, op).Success?
    ensures Fresh(m.(active := Some(m.active.value.(state := NeedsReview))), Step(db, op).value)
  {
    MovedOneRow(db, op, op.id);
    OneRowQueue(db.messages, Step(db, op).value.messages, op.id);
  }

  lemma ActiveBelief(m: Memory, fault: bool, db: Database)
    requires InStep(m, true, fault, db) && Fresh(m, db) && m.active.Some?
    ensures Matches(m.active.value, db.messages) && QueueMatches(m, db.messages)
    ensures m.active.value.state == Running || m.active.value.state == NeedsReview || m.active.value.state == Dispatching
  {
  }

  /** Once the active prompt is in review, only a control can still be marked. */
  lemma MarkedControl(m: Memory, db: Database, j: Journal, op: Op)
    requires Durable(db, j) && Fresh(m, db) && (m.active.Some? ==> m.active.value.state == NeedsReview)
    requires op.MarkNeedsReview? && Step(db, op).Success?
    ensures Exists(db.messages, op.id) && IsControl(Row(db.messages, op.id).kind)
  {
    MarkedTarget(db, op);
    var k := IndexOf(db.messages, op.id);
    if m.active.Some? {
      var a := IndexOf(db.messages, m.active.value.id);
      assert Active(db.messages[a]);
    }
    assert !Active(db.messages[k]);
    assert RowLogged(db.messages[k], db.events);
  }

  lemma RenamedControl(m: Memory, k: int, b: Binding, loaded: bool, fault: bool, db: Database)
    requires InStep(m, loaded, fault, db) && 0 <= k < |m.controls| && b.id == m.controls[k].id
    ensures InStep(m.(controls := m.controls[k := b]), loaded, fault, db)
    ensures Fresh(m, db) ==> Fresh(m.(controls := m.controls[k := b]), db)
  {
    var m' := m.(controls := m.controls[k := b]);
    forall id | Holds(m, id)
      ensures Holds(m', id)
    {
      var i :| 0 <= i < |m.controls| && m.controls[i].id == id;
      assert m'.controls[i].id == id;
    }
  }

  lemma FreshStatus(m: Memory, m': Memory, db: Database, next: Database)
    requires Fresh(m, db) && next.messages == db.messages
    requires m'.active == m.active && m'.queue == m.queue
    ensures Fresh(m', next)
  {
  }

  lemma FreshParts(m: Memory, db: Database)
    requires Fresh(m, db)
    ensures ActiveMatches(m, db.messages) && m.queue == Queue(db.messages) && QueueMatches(m, db.messages)
  {
  }

  /** A control the store can still finish is held by a coordinator that knows every pending one. */
  lemma FinishedHeld(m: Memory, db: Database, op: Op)
    requires ControlsHeld(m, db.messages) && op.FinishControl? && Step(db, op).Success?
    ensures Holds(m, op.id)
  {
    var k := IndexOf(db.messages, op.id);
    assert PendingControl(db.messages[k]);
  }

  lemma ReplayedDecision(db: Database, op: Op)
    requires op.ResolveReview? && Exists(db.messages, op.id) && Step(db, op).Success?
    ensures Step(db, op).value == db
  {
  }

  lemma ReviewColumns(db: Database, op: Op)
    requires op.MarkNeedsReview? && Step(db, op).Success?
    ensures RoomRowKept(db, Step(db, op).value)
  {
  }

  lemma SetStatusStep(db: Database, s: Status)
    requires Step(db, SetRoomStatus(s)).Success?
    ensures var next := Step(db, SetRoomStatus(s)).value;
            && next.messages == db.messages && next.thread == db.thread && next.status == s
            && next.frontier == db.frontier && next.hidden == db.hidden
  {
  }

  lemma RepairStep(db: Database)
    requires Step(db, MarkThreadNeedsRepair).Success?
    ensures var next := Step(db, MarkThreadNeedsRepair).value;
            && next.messages == db.messages && next.thread == db.thread && next.status == NeedsRepair
            && next.frontier == db.frontier && next.hidden == db.hidden
  {
  }

  lemma ItemStep(db: Database, item: Item)
    requires Step(db, RecordCompletedItem(item)).Success?
    ensures var next := Step(db, RecordCompletedItem(item)).value;
            next.messages == db.messages && RoomRowKept(db, next)
    ensures item.turn != 0
  {
  }

  lemma FrontierRows(db: Database, op: Op)
    requires (op.BeginPrivateTurn? || op.EndPrivateTurn?) && Step(db, op).Success?
    ensures var next := Step(db, op).value;
            next.messages == db.messages && next.thread == db.thread && next.status == db.status
  {
  }

  lemma BindThreadStep(db: Database, thread: ThreadId)
    requires Step(db, BindThread(thread)).Success?
    ensures var next := Step(db, BindThread(thread)).value;
            && next.messages == db.messages && next.status == db.status && next.thread == thread && thread != 0
            && next.frontier == db.frontier && next.hidden == db.hidden
  {
  }

  lemma AcceptStep(db: Database, op: Op)
    requires WellFormed(db) && op.Accept? && Step(db, op).Success?
    ensures RoomRowKept(db, Step(db, op).value)
    ensures Exists(db.messages, op.id) ==> Step(db, op).value == db
    ensures !Exists(db.messages, op.id) ==> Step(db, op).value.messages == db.messages + Inserted(db, op)
  {
    StepRows(db, op);
    StepColumns(db, op);
  }

  /** The first pending control finds the queues in agreement, if the coordinator relies on them at all. */
  lemma FirstControl(m: Memory, loaded: bool, fault: bool, db: Database, next: Database, r: Message, b: Binding)
    requires InStep(m, loaded, fault, db) && !QueuedPrompt(r) && next.messages == db.messages + [r]
    ensures var m' := m.(controls := m.controls + [b]);
            loaded && |m'.controls| <= 1 && Relies(m', fault) ==> QueueMatches(m', next.messages)
  {
    QueueAppend(db.messages, r, {});
  }

  /** A fault flag without an active prompt promises nothing. */
  lemma FaultIrrelevant(m: Memory, loaded: bool, fault: bool, fault': bool, db: Database)
    requires InStep(m, loaded, fault, db) && (m.active == None || !fault')
    ensures InStep(m, loaded, fault', db)
  {
  }

  /** A prompt that can still be marked for review is open, so no known frontier stands. */
  lemma ReviewAllowed(db: Database, j: Journal, id: MessageId, code: Code)
    requires Durable(db, j) && IsPromptOf(db, id) && Step(db, MarkNeedsReview(id, code)).Success?
    ensures !FrontierHeld(j, db)
  {
    MarkedTarget(db, MarkNeedsReview(id, code));
    assert Active(db.messages[IndexOf(db.messages, id)]);
  }

  /** In step, such a prompt is held open by both sides. */
  lemma ReviewMatches(m: Memory, fault: bool, db: Database, code: Code)
    requires InStep(m, true, fault, db) && m.active.Some?
    requires Step(db, MarkNeedsReview(m.active.value.id, code)).Success?
    ensures m.active.value.state != NeedsReview && Matches(m.active.value, db.messages)
  {
    MarkedTarget(db, MarkNeedsReview(m.active.value.id, code));
  }

  lemma MarkedTarget(db: Database, op: Op)
    requires op.MarkNeedsReview? && Step(db, op).Success?
    ensures Exists(db.messages, op.id)
    ensures Row(db.messages, op.id).state == Dispatching || Row(db.messages, op.id).state == Running
  {
  }

  /** A prompt whose turn can still end is open: no known frontier stands, and the room has a thread. */
  lemma FinishAllowed(db: Database, j: Journal, op: Op)
    requires Durable(db, j) && op.FinishTurn? && Step(db, op).Success?
    ensures !FrontierHeld(j, db) && db.thread != 0
    ensures Idle(Step(db, op).value.messages)
  {
    hide LogPublic, HidesQuestions, ShowsPrompts, Orderly, PromptsStored;
    FinishedTurn(db, op);
    FinishStates(db, op);
    var i := BoundIndex(db.messages, op.turn);
    assert Active(db.messages[i]);
    FinishedOneRow(db, op, i);
    IndexUnique(db.messages, i);
    OneRowIdle(db.messages, Step(db, op).value.messages, db.messages[i].id);
  }

  /** A prompt the handlers treat as running is held by both sides. */
  lemma RunningHeld(m: Memory, fault: bool, db: Database)
    requires InStep(m, true, fault, db) && m.active.Some?
    requires m.active.value.state == Running || (fault && m.active.value.state == NeedsReview)
    ensures Matches(m.active.value, db.messages)
    ensures m.controls == [] ==> QueueMatches(m, db.messages)
  {
  }

  /** A ready coordinator with nothing in hand faces a quiet store. */
  lemma ReadyQuiet(m: Memory, loaded: bool, fault: bool, db: Database)
    requires InStep(m, loaded, fault, db) && IsReady(m) && m.active == None && m.controls == [] && m.queue == []
    requires db.frontier == None
    ensures Quiet(db) && Queue(db.messages) == []
  {
    forall k | 0 <= k < |db.messages|
      ensures !PendingControl(db.messages[k])
    {
      assert !Holds(m, db.messages[k].id);
    }
  }

  /** While a known frontier stands nothing can be decided. */
  lemma DecidedWithoutFrontier(db: Database, j: Journal, op: Op)
    requires Durable(db, j) && op.ResolveReview? && Step(db, op).Success? && !Exists(db.messages, op.id)
    ensures !FrontierHeld(j, db)
  {
    ReviewableTarget(db, op);
    var k := IndexOf(db.messages, op.target);
    assert IsControl(db.messages[k].kind) || Active(db.messages[k]);
  }

  /** Dropping or marking one held control keeps every other one. */
  lemma OneControl(m: Memory, i: int, controls': seq<Binding>)
    requires 0 <= i < |m.controls|
    requires controls' == m.controls[..i] + m.controls[i + 1..]
             || (exists b: Binding :: b.id == m.controls[i].id && controls' == m.controls[i := b])
    ensures forall id :: id != m.controls[i].id && Holds(m, id) ==> Holds(m.(controls := controls'), id)
    ensures controls' == [] ==> |m.controls| <= 1
    ensures |controls'| == |m.controls| ==> Holds(m.(controls := controls'), m.controls[i].id)
  {
    var m' := m.(controls := controls');
    forall id | id != m.controls[i].id && Holds(m, id)
      ensures Holds(m', id)
    {
      var k :| 0 <= k < |m.controls| && m.controls[k].id == id;
      var p := if |controls'| == |m.controls| || k < i then k else k - 1;
      assert m'.controls[p].id == id;
    }
    if |controls'| == |m.controls| {
      assert m'.controls[i].id == m.controls[i].id;
    }
  }
}
