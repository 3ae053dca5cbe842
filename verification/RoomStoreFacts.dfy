/** What every transaction keeps: the event log, the rows, and the runs of each task. */
module RoomStoreFacts {
  import opened Wrappers
  import opened RoomStore

  // ---- Shape of the tables ----------------------------------------------

  ghost predicate Gapless(events: map<nat, Event>, nextSeq: nat)
  {
    nextSeq >= 1 && forall s :: s in events <==> 1 <= s < nextSeq
  }

  /** The event a row was accepted with. */
  ghost predicate AcceptedBy(m: Message, e: Event)
  {
    if m.kind == Recover then e.RecoveryAccepted? && e.id == m.id
    else e == Accepted(m.id, m.kind, m.body, InitialState(m.kind))
  }

  /** A row was accepted with its event; notes and recovery commands are born finished. */
  ghost predicate RowLogged(m: Message, events: map<nat, Event>)
  {
    && m.acceptedSeq in events
    && AcceptedBy(m, events[m.acceptedSeq])
    && (m.kind == Note || m.kind == Recover ==> m.state == Completed)
  }

  ghost predicate Distinct(ms: seq<Message>)
  {
    forall i, j :: 0 <= i < j < |ms| ==> ms[i].id != ms[j].id
  }

  ghost predicate Ascending(ms: seq<Message>)
  {
    forall i, j :: 0 <= i < j < |ms| ==> ms[i].acceptedSeq < ms[j].acceptedSeq
  }

  ghost predicate RowsLogged(ms: seq<Message>, events: map<nat, Event>)
  {
    forall i :: 0 <= i < |ms| ==> RowLogged(ms[i], events)
  }

  ghost predicate ItemsUnique(events: map<nat, Event>)
  {
    forall s, t :: s in events && t in events && events[s].ItemCompleted? && SameSlot(events[t], events[s].item) ==>
                     s == t
  }

  /** The log and the rows agree, and the log has neither gaps nor a second completion of an item. */
  ghost predicate WellFormed(db: Database)
  {
    && Gapless(db.events, db.nextSeq)
    && Distinct(db.messages)
    && Ascending(db.messages)
    && RowsLogged(db.messages, db.events)
    && ItemsUnique(db.events)
  }

  ghost predicate SameIdentity(a: Message, b: Message)
  {
    a.id == b.id && a.kind == b.kind && a.actor == b.actor && a.body == b.body && a.acceptedSeq == b.acceptedSeq
  }

  /** Rows keep their identity and events are never rewritten. */
  ghost predicate Extends(db: Database, next: Database)
  {
    && |db.messages| <= |next.messages|
    && db.nextSeq <= next.nextSeq
    && (forall k :: 0 <= k < |db.messages| ==> SameIdentity(db.messages[k], next.messages[k]))
    && (forall s :: s in db.events ==> s in next.events && next.events[s] == db.events[s])
  }

  lemma ExtendsTransitive(a: Database, b: Database, c: Database)
    requires Extends(a, b) && Extends(b, c)
    ensures Extends(a, c)
  {
    forall k | 0 <= k < |a.messages|
      ensures SameIdentity(a.messages[k], c.messages[k])
    {
      assert SameIdentity(b.messages[k], c.messages[k]);
    }
  }

  lemma IndexUnique(ms: seq<Message>, k: int)
    requires 0 <= k < |ms| && Distinct(ms)
    ensures IndexOf(ms, ms[k].id) == k
  {
    var r := IndexOf(ms, ms[k].id);
    assert r < k || k < r || r == k;
  }

  // ---- The changes a transaction is made of ---------------------------------

  lemma AppendKeeps(db: Database, e: Event)
    requires WellFormed(db)
    requires e.ItemCompleted? ==> forall s :: s in db.events ==> !SameSlot(db.events[s], e.item)
    ensures WellFormed(Append(db, e)) && Extends(db, Append(db, e))
  {
    var next := Append(db, e);
    assert db.nextSeq !in db.events;
    forall i | 0 <= i < |db.messages|
      ensures RowLogged(next.messages[i], next.events)
    {
      assert RowLogged(db.messages[i], db.events);
    }
    forall s, t | s in next.events && t in next.events && next.events[s].ItemCompleted? && SameSlot(next.events[t], next.events[s].item)
      ensures s == t
    {
      assert s in db.events ==> !e.ItemCompleted? || !SameSlot(db.events[s], e.item);
    }
  }

  lemma RevisionKeeps(db: Database, i: int, s: State, turn: TurnId, code: Code)
    requires WellFormed(db) && 0 <= i < |db.messages|
    requires db.messages[i].kind != Note && db.messages[i].kind != Recover
    ensures var next := db.(messages := db.messages[i := Revised(db.messages[i], s, turn, code)]);
            WellFormed(next) && Extends(db, next)
  {
    var next := db.(messages := db.messages[i := Revised(db.messages[i], s, turn, code)]);
    forall k | 0 <= k < |db.messages|
      ensures SameIdentity(db.messages[k], next.messages[k]) && RowLogged(next.messages[k], next.events)
    {
      assert RowLogged(db.messages[k], db.events);
    }
    assert forall k :: 0 <= k < |db.messages| ==> next.messages[k].id == db.messages[k].id;
    assert forall k :: 0 <= k < |db.messages| ==> next.messages[k].acceptedSeq == db.messages[k].acceptedSeq;
  }

  lemma TransitionKeeps(db: Database, i: int, s: State, turn: TurnId, code: Code, e: Event)
    requires WellFormed(db) && 0 <= i < |db.messages| && !e.ItemCompleted?
    requires db.messages[i].kind != Note && db.messages[i].kind != Recover
    ensures WellFormed(Transition(db, i, s, turn, code, e))
    ensures Extends(db, Transition(db, i, s, turn, code, e))
  {
    var revised := db.(messages := db.messages[i := Revised(db.messages[i], s, turn, code)]);
    RevisionKeeps(db, i, s, turn, code);
    AppendKeeps(revised, e);
    ExtendsTransitive(db, revised, Append(revised, e));
  }

  /** A row and its accepting event, written in one transaction. */
  lemma InsertKeeps(db: Database, m: Message, e: Event)
    requires WellFormed(db) && !Exists(db.messages, m.id)
    requires m.acceptedSeq == db.nextSeq && AcceptedBy(m, e) && m.state == InitialState(m.kind)
    ensures WellFormed(Append(WithMessage(db, m), e)) && Extends(db, Append(WithMessage(db, m), e))
  {
    var next := Append(WithMessage(db, m), e);
    var logged := Append(db, e);
    AppendKeeps(db, e);
    assert next.events == logged.events;
    forall i | 0 <= i < |db.messages|
      ensures db.messages[i].acceptedSeq < m.acceptedSeq && db.messages[i].id != m.id
    {
      assert RowLogged(db.messages[i], db.events);
    }
    forall i | 0 <= i < |next.messages|
      ensures RowLogged(next.messages[i], next.events)
    {
      assert i < |db.messages| ==> RowLogged(logged.messages[i], logged.events);
    }
  }

  // ---- Every transaction ------------------------------------------------------

  lemma AcceptKeeps(db: Database, actor: Uid, id: MessageId, kind: Kind, body: nat, expected: TurnId, task: TaskId)
    requires WellFormed(db)
    ensures var r := AcceptTx(db, actor, id, kind, body, expected, task);
            r.Success? ==> WellFormed(r.value) && Extends(db, r.value)
  {
    var r := AcceptTx(db, actor, id, kind, body, expected, task);
    if r.Success? && !Exists(db.messages, id) {
      var m := Message(id, kind, actor, body, InitialState(kind), db.nextSeq,
                       if IsControl(kind) then expected else 0, NoCode);
      InsertKeeps(db, m, Accepted(id, kind, body, InitialState(kind)));
    }
  }

  lemma RecordKeeps(db: Database, item: Item)
    requires WellFormed(db)
    ensures var r := RecordCompletedItemTx(db, item);
            r.Success? ==> WellFormed(r.value) && Extends(db, r.value)
  {
    if !(exists s :: s in db.events && SameSlot(db.events[s], item)) {
      AppendKeeps(db, ItemCompleted(item));
    }
  }

  lemma ReviewAcceptedKeeps(db: Database, actor: Uid, id: MessageId, target: MessageId, action: Action, body: nat)
    requires WellFormed(db) && !Exists(db.messages, id)
    ensures var accepted := ReviewAccepted(db, actor, id, target, action, body);
            && WellFormed(accepted) && Extends(db, accepted)
            && forall k :: 0 <= k < |db.messages| ==> accepted.messages[k] == db.messages[k]
  {
    InsertKeeps(db, RecoverRow(db, actor, id, body), RecoveryAccepted(id, target, action));
  }

  lemma RetryKeeps(db: Database, i: int)
    requires WellFormed(db) && 0 <= i < |db.messages|
    requires db.messages[i].kind != Note && db.messages[i].kind != Recover
    ensures WellFormed(RetryTx(db, i)) && Extends(db, RetryTx(db, i))
  {
    var m := db.messages[i];
    if IsPrompt(m.kind) {
      TransitionKeeps(db, i, Queued, 0, NoCode, RecoveryDecided(m.id, Retry, Queued));
    } else {
      TransitionKeeps(db, i, Dispatching, m.turn, NoCode, RecoveryDecided(m.id, Retry, Dispatching));
    }
  }

  lemma TerminalizeKeeps(db: Database, i: int, action: Action)
    requires WellFormed(db) && 0 <= i < |db.messages|
    requires db.messages[i].kind != Note && db.messages[i].kind != Recover
    ensures WellFormed(TerminalizeTx(db, i, action)) && Extends(db, TerminalizeTx(db, i, action))
  {
    var m := db.messages[i];
    var code := if action == Skip then RecoverySkipped else RecoveryContinued;
    TransitionKeeps(db, i, Failed, m.turn, code, RecoveryDecided(m.id, action, Failed));
  }

  lemma ReplacementKeeps(db: Database, actor: Uid, id: MessageId, body: nat, source: MessageId)
    requires WellFormed(db) && !Exists(db.messages, id)
    ensures var r := InsertReplacement(db, actor, id, body, source);
            r.Success? ==> WellFormed(r.value) && Extends(db, r.value)
  {
    var m := Message(id, RecoveryPrompt, actor, body, Queued, db.nextSeq, 0, NoCode);
    InsertKeeps(db, m, Accepted(id, RecoveryPrompt, body, Queued));
  }

  /** The replacement id is still unused once the command row and the decision are written. */
  lemma ReplacementFresh(db: Database, accepted: Database, i: int, id: MessageId, replacement: MessageId)
    requires 0 <= i < |db.messages| && !Exists(db.messages, replacement) && replacement != id
    requires |accepted.messages| == |db.messages| + 1 && accepted.messages[|db.messages|].id == id
    requires forall k :: 0 <= k < |db.messages| ==> accepted.messages[k] == db.messages[k]
    ensures !Exists(TerminalizeTx(accepted, i, Continue).messages, replacement)
  {
    var done := TerminalizeTx(accepted, i, Continue);
    forall k | 0 <= k < |done.messages|
      ensures done.messages[k].id != replacement
    {
      assert k < |db.messages| ==> done.messages[k].id == db.messages[k].id;
    }
  }

  lemma ResolveKeeps(db: Database, actor: Uid, id: MessageId, target: MessageId, action: Action, replacement: MessageId, body: nat)
    requires WellFormed(db)
    ensures var r := ResolveReviewTx(db, actor, id, target, action, replacement, body);
            r.Success? ==> WellFormed(r.value) && Extends(db, r.value)
  {
    var r := ResolveReviewTx(db, actor, id, target, action, replacement, body);
    if r.Success? && !Exists(db.messages, id) {
      var i := IndexOf(db.messages, target);
      var accepted := ReviewAccepted(db, actor, id, target, action, body);
      ReviewAcceptedKeeps(db, actor, id, target, action, body);
      match action {
        case Retry =>
          RetryKeeps(accepted, i);
          ExtendsTransitive(db, accepted, r.value);
        case Skip =>
          TerminalizeKeeps(accepted, i, Skip);
          ExtendsTransitive(db, accepted, r.value);
        case Continue =>
          TerminalizeKeeps(accepted, i, Continue);
          var done := TerminalizeTx(accepted, i, Continue);
          ReplacementFresh(db, accepted, i, id, replacement);
          ReplacementKeeps(done, actor, replacement, body, target);
          ExtendsTransitive(db, accepted, done);
          ExtendsTransitive(db, done, r.value);
      }
    }
  }

  lemma BeginDispatchKeeps(db: Database, id: MessageId)
    requires WellFormed(db)
    ensures var r := BeginDispatchTx(db, id); r.Success? ==> WellFormed(r.value) && Extends(db, r.value)
  {
    if BeginDispatchTx(db, id).Success? {
      var i := IndexOf(db.messages, id);
      RevisionKeeps(db, i, Dispatching, db.messages[i].turn, NoCode);
    }
  }

  lemma FailDispatchKeeps(db: Database, id: MessageId, s: State, code: Code)
    requires WellFormed(db)
    ensures var r := FailDispatchTx(db, id, s, code); r.Success? ==> WellFormed(r.value) && Extends(db, r.value)
  {
    if FailDispatchTx(db, id, s, code).Success? {
      var i := IndexOf(db.messages, id);
      TransitionKeeps(db, i, s, db.messages[i].turn, code, StateChanged(id, s, code));
    }
  }

  lemma BindRunningTurnKeeps(db: Database, id: MessageId, turn: TurnId)
    requires WellFormed(db)
    ensures var r := BindRunningTurnTx(db, id, turn); r.Success? ==> WellFormed(r.value) && Extends(db, r.value)
  {
    if BindRunningTurnTx(db, id, turn).Success? {
      TransitionKeeps(db, IndexOf(db.messages, id), Running, turn, NoCode, TurnRunning(id, turn));
    }
  }

  lemma FinishControlKeeps(db: Database, id: MessageId, s: State, code: Code)
    requires WellFormed(db)
    ensures var r := FinishControlTx(db, id, s, code); r.Success? ==> WellFormed(r.value) && Extends(db, r.value)
  {
    if FinishControlTx(db, id, s, code).Success? {
      var i := IndexOf(db.messages, id);
      TransitionKeeps(db, i, s, db.messages[i].turn, code, StateChanged(id, s, code));
    }
  }

  lemma FinishTurnKeeps(db: Database, turn: TurnId, s: State, code: Code)
    requires WellFormed(db)
    ensures var r := FinishTurnTx(db, turn, s, code); r.Success? ==> WellFormed(r.value) && Extends(db, r.value)
  {
    if FinishTurnTx(db, turn, s, code).Success? {
      TransitionKeeps(db, BoundIndex(db.messages, turn), s, turn, code, TurnFinished(turn, s, code));
    }
  }

  lemma MarkNeedsReviewKeeps(db: Database, id: MessageId, code: Code)
    requires WellFormed(db)
    ensures var r := MarkNeedsReviewTx(db, id, code); r.Success? ==> WellFormed(r.value) && Extends(db, r.value)
  {
    if MarkNeedsReviewTx(db, id, code).Success? {
      var i := IndexOf(db.messages, id);
      TransitionKeeps(db, i, NeedsReview, db.messages[i].turn, code, StateChanged(id, NeedsReview, code));
    }
  }

  lemma RoomRowKeeps(db: Database, status: Status, thread: ThreadId, e: Event)
    requires WellFormed(db) && !e.ItemCompleted?
    ensures var next := Append(db.(status := status, thread := thread), e);
            WellFormed(next) && Extends(db, next)
  {
    AppendKeeps(db.(status := status, thread := thread), e);
  }

  /** Tables with the same rows and the same log. */
  lemma SameLogKeeps(db: Database, next: Database)
    requires WellFormed(db)
    requires next.messages == db.messages && next.events == db.events && next.nextSeq == db.nextSeq
    ensures WellFormed(next) && Extends(db, next)
  {
  }

  lemma RoomOpKeeps(db: Database, op: Op)
    requires WellFormed(db)
    requires op.BindThread? || op.MarkThreadNeedsRepair? || op.SetRoomStatus? || op.BeginPrivateTurn? || op.EndPrivateTurn?
             || op.ConvertTask? || op.CompleteTask? || op.ReopenTask?
    ensures Step(db, op).Success? ==> WellFormed(Step(db, op).value) && Extends(db, Step(db, op).value)
  {
    hide WellFormed, Extends, AcceptTx, ResolveReviewTx, RecordCompletedItemTx, HasUnfinishedRun, LatestRun;
    SameLogKeeps(db, db);
    if op.BindThread? {
      RoomRowKeeps(db, db.status, op.thread, ThreadBound(db.thread, op.thread));
    } else if op.MarkThreadNeedsRepair? {
      RoomRowKeeps(db, NeedsRepair, db.thread, ThreadNeedsRepair(db.thread));
    } else if op.SetRoomStatus? {
      RoomRowKeeps(db, op.status, db.thread, StatusChanged(db.status, op.status));
    } else if Step(db, op).Success? {
      SameLogKeeps(db, Step(db, op).value);
    }
  }

  /** Every transaction keeps the tables well formed, and only extends the log and the rows. */
  lemma StepKeeps(db: Database, op: Op)
    requires WellFormed(db)
    ensures Step(db, op).Success? ==> WellFormed(Step(db, op).value) && Extends(db, Step(db, op).value)
  {
    match op
    case Accept(actor, id, kind, body, expected, task) => AcceptKeeps(db, actor, id, kind, body, expected, task);
    case BeginDispatch(id) => BeginDispatchKeeps(db, id);
    case FailDispatch(id, s, code) => FailDispatchKeeps(db, id, s, code);
    case BindRunningTurn(id, turn) => BindRunningTurnKeeps(db, id, turn);
    case FinishControl(id, s, code) => FinishControlKeeps(db, id, s, code);
    case RecordCompletedItem(item) => RecordKeeps(db, item);
    case FinishTurn(turn, s, code) => FinishTurnKeeps(db, turn, s, code);
    case MarkNeedsReview(id, code) => MarkNeedsReviewKeeps(db, id, code);
    case ResolveReview(actor, id, target, action, replacement, body) =>
      ResolveKeeps(db, actor, id, target, action, replacement, body);
    case _ => RoomOpKeeps(db, op);
  }

  lemma InitialWellFormed(members: map<Uid, bool>)
    ensures WellFormed(Initial(members))
  {
  }

  // ---- Idempotent commands ------------------------------------------------------

  /** What a client is told about a stored command. */
  ghost predicate AcceptedAs(db: Database, id: MessageId, kind: Kind, actor: Uid, body: nat, at: nat, e: Event)
  {
    && Exists(db.messages, id)
    && SameCommand(Row(db.messages, id), actor, kind, body)
    && Row(db.messages, id).acceptedSeq == at
    && at in db.events && db.events[at] == e
  }

  /** A first acceptance takes the next sequence number and stores the event under it. */
  lemma AcceptanceRecorded(db: Database, actor: Uid, id: MessageId, kind: Kind, body: nat, expected: TurnId, task: TaskId)
    requires WellFormed(db) && !Exists(db.messages, id)
    requires AcceptTx(db, actor, id, kind, body, expected, task).Success?
    ensures var next := AcceptTx(db, actor, id, kind, body, expected, task).value;
            AcceptedAs(next, id, kind, actor, body, db.nextSeq, Accepted(id, kind, body, InitialState(kind)))
  {
    AcceptKeeps(db, actor, id, kind, body, expected, task);
    var next := AcceptTx(db, actor, id, kind, body, expected, task).value;
    assert next.messages[|db.messages|].id == id;
    IndexUnique(next.messages, |db.messages|);
  }

  lemma AcceptanceStable(db: Database, op: Op, id: MessageId, kind: Kind, actor: Uid, body: nat, at: nat, e: Event)
    requires WellFormed(db) && AcceptedAs(db, id, kind, actor, body, at, e)
    requires Step(db, op).Success?
    ensures AcceptedAs(Step(db, op).value, id, kind, actor, body, at, e)
  {
    StepKeeps(db, op);
    var next := Step(db, op).value;
    var k := IndexOf(db.messages, id);
    assert SameIdentity(db.messages[k], next.messages[k]);
    IndexUnique(next.messages, k);
  }

  /** The tables after a run of transactions, each of which may have been refused. */
  function After(db: Database, ops: seq<Op>): Database
    decreases |ops|
  {
    if ops == [] then db
    else
      var r := Step(db, ops[0]);
      After(if r.Success? then r.value else db, ops[1..])
  }

  /** What a client was told about its command stays true over any run of other transactions. */
  lemma {:induction false} AcceptanceOverRuns(db: Database, ops: seq<Op>, id: MessageId, kind: Kind, actor: Uid,
                                              body: nat, at: nat, e: Event)
    requires WellFormed(db) && AcceptedAs(db, id, kind, actor, body, at, e)
    ensures AcceptedAs(After(db, ops), id, kind, actor, body, at, e)
    decreases |ops|
  {
    if ops != [] {
      var r := Step(db, ops[0]);
      StepKeeps(db, ops[0]);
      if r.Success? {
        AcceptanceStable(db, ops[0], id, kind, actor, body, at, e);
        AcceptanceOverRuns(r.value, ops[1..], id, kind, actor, body, at, e);
      } else {
        AcceptanceOverRuns(db, ops[1..], id, kind, actor, body, at, e);
      }
    }
  }

  /**
   Resending a command after any run of other transactions changes nothing and finds
   the sequence number and the event of the first acceptance.
   */
  lemma ResendTakesEffectOnce(db: Database, ops: seq<Op>, actor: Uid, id: MessageId, kind: Kind,
                              body: nat, expected: TurnId, task: TaskId, at: nat, e: Event)
    requires WellFormed(db) && AcceptedAs(db, id, kind, actor, body, at, e)
    requires (kind == Prompt || kind == Note || IsControl(kind)) && (task == 0 || kind == Prompt)
    ensures var later := After(db, ops);
            && AcceptTx(later, actor, id, kind, body, expected, task) == Success(later)
            && AcceptedAs(later, id, kind, actor, body, at, e)
  {
    AcceptanceOverRuns(db, ops, id, kind, actor, body, at, e);
  }

  /** The same for a review decision: it is recorded with its own event, and a resend decides nothing again. */
  lemma DecisionTakesEffectOnce(db: Database, first: Op, ops: seq<Op>)
    requires WellFormed(db) && first.ResolveReview? && !Exists(db.messages, first.id) && Step(db, first).Success?
    ensures var later := After(Step(db, first).value, ops);
            && Step(later, first) == Success(later)
            && AcceptedAs(later, first.id, Recover, first.actor, first.body, db.nextSeq,
                          RecoveryAccepted(first.id, first.target, first.action))
  {
    StepKeeps(db, first);
    DecisionRecorded(db, first);
    AcceptanceOverRuns(Step(db, first).value, ops, first.id, Recover, first.actor, first.body, db.nextSeq,
                       RecoveryAccepted(first.id, first.target, first.action));
    ValidDecision(db, first);
  }

  lemma ValidDecision(db: Database, op: Op)
    requires op.ResolveReview? && Step(db, op).Success?
    ensures (op.action == Continue) == (op.replacement != 0)
    ensures op.action == Continue ==> op.replacement != op.id && op.replacement != op.target
  {
  }

  lemma DecisionRecorded(db: Database, op: Op)
    requires WellFormed(db) && op.ResolveReview? && !Exists(db.messages, op.id) && Step(db, op).Success?
    ensures AcceptedAs(Step(db, op).value, op.id, Recover, op.actor, op.body, db.nextSeq,
                       RecoveryAccepted(op.id, op.target, op.action))
  {
    StepKeeps(db, op);
    var accepted := ReviewAccepted(db, op.actor, op.id, op.target, op.action, op.body);
    var next := Step(db, op).value;
    var n := |db.messages|;
    var i := IndexOf(db.messages, op.target);
    assert accepted.messages[n].id == op.id && i < n;
    ReviewAcceptedKeeps(db, op.actor, op.id, op.target, op.action, op.body);
    assert next.messages[n] == accepted.messages[n];
    assert next.events[db.nextSeq] == RecoveryAccepted(op.id, op.target, op.action);
    IndexUnique(next.messages, n);
  }

  /** A recorded item stays recorded: the same content changes nothing later, and other content is refused. */
  lemma ItemRecordedOnce(db: Database, item: Item, later: Database, again: Item)
    requires WellFormed(db) && RecordCompletedItemTx(db, item).Success?
    requires WellFormed(later) && Extends(RecordCompletedItemTx(db, item).value, later) && later.thread == item.thread
    requires again.thread == item.thread && again.turn == item.turn && again.item == item.item
    ensures RecordCompletedItemTx(later, again) == if again == item then Success(later) else Failure(InvalidState)
  {
    var next := RecordCompletedItemTx(db, item).value;
    var at: nat;
    if exists s :: s in db.events && SameSlot(db.events[s], item) {
      at :| at in db.events && db.events[at] == ItemCompleted(item);
    } else {
      at := db.nextSeq;
    }
    assert at in next.events && next.events[at] == ItemCompleted(item);
    assert at in later.events && later.events[at] == ItemCompleted(item);
    assert SameSlot(later.events[at], again);
    forall s | s in later.events && later.events[s].ItemCompleted? && SameSlot(later.events[s], again)
      ensures s == at
    {
      assert SameSlot(later.events[at], later.events[s].item);
    }
    assert later.events[at] in later.events.Values;
  }

  /** The log over any run: gapless, append-only, and one completion for each item. */
  lemma {:induction false} LogOverRuns(db: Database, ops: seq<Op>)
    requires WellFormed(db)
    ensures WellFormed(After(db, ops)) && Extends(db, After(db, ops))
    decreases |ops|
  {
    if ops != [] {
      StepKeeps(db, ops[0]);
      var r := Step(db, ops[0]);
      var next := if r.Success? then r.value else db;
      LogOverRuns(next, ops[1..]);
      ExtendsTransitive(db, next, After(next, ops[1..]));
    }
  }
}
