/**
 What holds in the tables after every effect of a run, so a process that dies there
 leaves it behind; and what follows about order, failures, reviews and private questions.
 Any commit may have lost its answer; where a result needs answers, it says which.
 */
module RoomSafety {
  import opened Wrappers
  import opened RoomStore
  import opened RoomStoreFacts
  import opened RoomTransitions
  import opened DispatchJournal

  // ---- The durable invariant -------------------------------------------------------

  /** Only turns begun for prompts are bound to prompts, and exactly the open states know their turn. */
  ghost predicate Bound(m: Message, ordinary: set<TurnId>)
  {
    IsPrompt(m.kind) ==>
      && (m.turn != 0 ==> m.turn in ordinary)
      && (m.state == Running ==> m.turn != 0)
      && (m.state == Queued || m.state == Dispatching ==> m.turn == 0)
  }

  ghost predicate AllBound(ms: seq<Message>, ordinary: set<TurnId>)
  {
    forall k :: 0 <= k < |ms| ==> Bound(ms[k], ordinary)
  }

  /** At most one prompt is in the agent's hands. */
  ghost predicate OneActive(ms: seq<Message>)
  {
    forall a, b :: 0 <= a < |ms| && 0 <= b < |ms| && a != b && Active(ms[a]) ==> !Active(ms[b])
  }

  /** While a frontier its owner knows of stands, nothing is in the agent's hands and nothing awaits review. */
  ghost predicate FrontierQuiet(db: Database, j: Journal)
  {
    && (FrontierHeld(j, db) ==> Idle(db.messages) && NoReviewedControls(db.messages))
    && (db.frontier.Some? || !Idle(db.messages) ==> db.thread != 0)
  }

  /** The log holds no item of a private question turn. */
  ghost predicate LogPublic(events: map<nat, Event>, known: set<TurnId>, questions: set<TurnId>)
  {
    forall s :: s in events && events[s].ItemCompleted? ==> events[s].item.turn in known && events[s].item.turn !in questions
  }

  /** Recovery will hide every turn begun for a private question. */
  ghost predicate HidesQuestions(db: Database, j: Journal)
  {
    && db.hidden <= KnownTurns(j)
    && OrdinaryTurns(j) !! QuestionTurns(j)
    && OrdinaryTurns(j) <= KnownTurns(j)
    && QuestionTurns(j) <= KnownTurns(j)
    && (forall q :: q in QuestionTurns(j) ==>
                      q in db.hidden || (db.frontier.Some? && q !in db.frontier.value.baseline))
    && (db.frontier.Some? ==> db.frontier.value.baseline <= KnownTurns(j))
  }

  /** Recovery will hide no turn begun for a prompt. */
  ghost predicate ShowsPrompts(db: Database, j: Journal)
  {
    && db.hidden !! OrdinaryTurns(j)
    && (db.frontier.Some? ==> OrdinaryTurns(j) <= db.frontier.value.baseline)
  }

  /** The prompts submitted so far are exactly the stored rows of that kind. */
  ghost predicate PromptsStored(ms: seq<Message>, accepted: set<MessageId>)
  {
    && (forall k :: 0 <= k < |ms| && ms[k].kind == Prompt ==> ms[k].id in accepted)
    && (forall id :: id in accepted ==> Exists(ms, id) && Row(ms, id).kind == Prompt)
  }

  /** What every effect keeps; only the last part asks for answers. */
  ghost predicate Durable(db: Database, j: Journal)
  {
    && WellFormed(db)
    && OneActive(db.messages)
    && AllBound(db.messages, OrdinaryTurns(j))
    && FrontierQuiet(db, j)
    && LogPublic(db.events, KnownTurns(j), QuestionTurns(j))
    && HidesQuestions(db, j)
    && PromptsStored(db.messages, AcceptedPrompts(j))
    && Orderly(db.messages, LostPrompts(j))
    && (FrontiersAnswered(j) ==> ShowsPrompts(db, j))
  }

  // ---- Columns other than the rows ------------------------------------------------

  /** What a transaction does to the room row, the frontier and the hidden turns. */
  ghost predicate ColumnsFollow(db: Database, op: Op, next: Database)
  {
    && next.thread == (if op.BindThread? then op.thread else db.thread)
    && next.hidden == (if op.EndPrivateTurn? then db.hidden + op.turns else db.hidden)
    && next.frontier == (if op.EndPrivateTurn? then None
                         else if op.BeginPrivateTurn? then Some(Frontier(op.baseline)) else db.frontier)
    && next.status == (if op.SetRoomStatus? then op.status
                       else if op.MarkThreadNeedsRepair? then NeedsRepair else db.status)
    && (op.BindThread? ==> op.thread != 0)
    && (op.BindRunningTurn? ==> op.turn != 0)
  }

  lemma StepColumns(db: Database, op: Op)
    requires Step(db, op).Success?
    ensures ColumnsFollow(db, op, Step(db, op).value)
  {
    match op
    case ResolveReview(_, _, _, _, _, _) => ResolveColumns(db, op);
    case Accept(_, _, _, _, _, _) => AcceptColumns(db, op);
    case _ =>
  }

  lemma AcceptColumns(db: Database, op: Op)
    requires Step(db, op).Success? && op.Accept?
    ensures ColumnsFollow(db, op, Step(db, op).value)
  {
  }

  lemma ResolveColumns(db: Database, op: Op)
    requires Step(db, op).Success? && op.ResolveReview?
    ensures ColumnsFollow(db, op, Step(db, op).value)
  {
  }

  /** Only RecordCompletedItem writes item completions. */
  ghost predicate ItemsFollow(db: Database, op: Op, next: Database)
  {
    forall s :: s in next.events && next.events[s].ItemCompleted? ==>
                  || (s in db.events && db.events[s] == next.events[s])
                  || op == RecordCompletedItem(next.events[s].item)
  }

  lemma StepItems(db: Database, op: Op)
    requires Step(db, op).Success?
    ensures ItemsFollow(db, op, Step(db, op).value)
  {
    match op
    case ResolveReview(_, _, _, _, _, _) => ResolveItems(db, op);
    case Accept(_, _, _, _, _, _) => AcceptItems(db, op);
    case _ =>
  }

  lemma AcceptItems(db: Database, op: Op)
    requires Step(db, op).Success? && op.Accept?
    ensures ItemsFollow(db, op, Step(db, op).value)
  {
  }

  lemma ResolveItems(db: Database, op: Op)
    requires Step(db, op).Success? && op.ResolveReview?
    ensures ItemsFollow(db, op, Step(db, op).value)
  {
  }

  // ---- Preservation --------------------------------------------------------------------

  lemma BindingsStep(db: Database, op: Op, j: Journal)
    requires WellFormed(db) && AllBound(db.messages, OrdinaryTurns(j)) && Step(db, op).Success?
    requires op.BindRunningTurn? ==> op.turn in OrdinaryTurns(j)
    requires op.FailDispatch? ==> op.state == Failed
    ensures AllBound(Step(db, op).value.messages, OrdinaryTurns(j))
  {
    StepRows(db, op);
    var next := Step(db, op).value;
    StepColumns(db, op);
    forall k | 0 <= k < |db.messages|
      ensures Bound(Moved(db, op, db.messages[k]), OrdinaryTurns(j))
    {
      BindingStep(db, op, k, OrdinaryTurns(j));
    }
    forall k | 0 <= k < |Inserted(db, op)|
      ensures Bound(Inserted(db, op)[k], OrdinaryTurns(j))
    {
      InsertedBound(db, op, k, OrdinaryTurns(j));
    }
    BoundFollow(db, op, next, OrdinaryTurns(j));
  }

  lemma BoundFollow(db: Database, op: Op, next: Database, ordinary: set<TurnId>)
    requires RowsFollow(db, op, next)
    requires forall k :: 0 <= k < |db.messages| ==> Bound(Moved(db, op, db.messages[k]), ordinary)
    requires forall k :: 0 <= k < |Inserted(db, op)| ==> Bound(Inserted(db, op)[k], ordinary)
    ensures AllBound(next.messages, ordinary)
  {
    forall k | 0 <= k < |next.messages|
      ensures Bound(next.messages[k], ordinary)
    {
      assert k >= |db.messages| ==> next.messages[|db.messages| + (k - |db.messages|)] == Inserted(db, op)[k - |db.messages|];
    }
  }

  lemma InsertedBound(db: Database, op: Op, k: int, ordinary: set<TurnId>)
    requires 0 <= k < |Inserted(db, op)|
    ensures Bound(Inserted(db, op)[k], ordinary)
  {
  }

  lemma BindingStep(db: Database, op: Op, k: int, ordinary: set<TurnId>)
    requires Distinct(db.messages) && Step(db, op).Success? && 0 <= k < |db.messages|
    requires Bound(db.messages[k], ordinary)
    requires op.BindRunningTurn? ==> op.turn in ordinary
    requires op.FailDispatch? ==> op.state == Failed
    ensures Bound(Moved(db, op, db.messages[k]), ordinary)
  {
    IndexUnique(db.messages, k);
    match op
    case BeginDispatch(_) => BegunTarget(db, op);
    case BindRunningTurn(_, _) => StepColumns(db, op);
    case FinishTurn(turn, s, _) => FinishStates(db, op);
    case FinishControl(id, _, _) => ControlTarget(db, op);
    case _ =>
  }

  lemma FinishStates(db: Database, op: Op)
    requires Step(db, op).Success? && op.FinishTurn?
    ensures Terminal(op.state)
  {
  }

  /** Nothing enters the agent's hands, and no control starts awaiting review, behind a known frontier. */
  lemma FrontierStep(db: Database, op: Op, j: Journal, e: Effect)
    requires WellFormed(db) && FrontierQuiet(db, j) && Step(db, op).Success? && Disciplined(j, db, op)
    requires e.Committed? && e.op == op
    ensures FrontierQuiet(Step(db, op).value, j + [e])
  {
    RowClasses(db, op);
    StepColumns(db, op);
    assert Front(j + [e]) == j;
    FrontierFollow(db, op, Step(db, op).value, j, e);
  }

  lemma RowClasses(db: Database, op: Op)
    requires WellFormed(db) && Step(db, op).Success?
    ensures RowsFollow(db, op, Step(db, op).value)
    ensures forall k :: 0 <= k < |db.messages| ==> ClassKept(op, db.messages[k], Moved(db, op, db.messages[k]))
    ensures forall k :: 0 <= k < |db.messages| ==> ReviewKept(op, db.messages[k], Moved(db, op, db.messages[k]))
  {
    StepRows(db, op);
    forall k | 0 <= k < |db.messages|
      ensures ClassKept(op, db.messages[k], Moved(db, op, db.messages[k]))
      ensures ReviewKept(op, db.messages[k], Moved(db, op, db.messages[k]))
    {
      MovedClass(db, op, k);
      MovedReview(db, op, k);
    }
  }

  /** Only MarkNeedsReview and FinishControl put a control into review. */
  ghost predicate ReviewKept(op: Op, m: Message, n: Message)
  {
    IsControl(n.kind) && n.state == NeedsReview && m.state != NeedsReview ==>
      && (op.MarkNeedsReview? || (op.FinishControl? && op.state == NeedsReview))
      && op.id == m.id
  }

  lemma MovedReview(db: Database, op: Op, k: int)
    requires WellFormed(db) && Step(db, op).Success? && 0 <= k < |db.messages|
    ensures ReviewKept(op, db.messages[k], Moved(db, op, db.messages[k]))
  {
    if op.FailDispatch? {
      FailedTarget(db, op);
      IndexUnique(db.messages, k);
    } else if op.FinishTurn? {
      FinishStates(db, op);
    }
  }

  lemma FailedTarget(db: Database, op: Op)
    requires Step(db, op).Success? && op.FailDispatch?
    ensures Exists(db.messages, op.id) && IsPrompt(Row(db.messages, op.id).kind)
  {
  }

  lemma FrontierFollow(db: Database, op: Op, next: Database, j: Journal, e: Effect)
    requires FrontierQuiet(db, j) && Disciplined(j, db, op)
    requires e.Committed? && e.op == op && Front(j + [e]) == j
    requires RowsFollow(db, op, next) && ColumnsFollow(db, op, next)
    requires forall k :: 0 <= k < |db.messages| ==> ClassKept(op, db.messages[k], Moved(db, op, db.messages[k]))
    requires forall k :: 0 <= k < |db.messages| ==> ReviewKept(op, db.messages[k], Moved(db, op, db.messages[k]))
    ensures FrontierQuiet(next, j + [e])
  {
    hide Quiet, Overlooked, QueueBut, AllAnswered;
    forall k | 0 <= k < |next.messages|
      ensures Active(next.messages[k]) ==> !Idle(db.messages) || op.BeginDispatch?
      ensures IsControl(next.messages[k].kind) && next.messages[k].state == NeedsReview ==>
                !NoReviewedControls(db.messages) || op.MarkNeedsReview? || (op.FinishControl? && op.state == NeedsReview)
    {
      if k >= |db.messages| {
        InsertedClass(db, op, k - |db.messages|);
        InsertedNotReviewed(db, op, k - |db.messages|);
        assert next.messages[|db.messages| + (k - |db.messages|)] == Inserted(db, op)[k - |db.messages|];
      } else {
        assert ClassKept(op, db.messages[k], Moved(db, op, db.messages[k]));
        assert ReviewKept(op, db.messages[k], Moved(db, op, db.messages[k]));
      }
    }
    assert Last(j + [e]) == e;
    assert Untold(j + [e]) == if op.BeginPrivateTurn? then !e.answered else Untold(j);
  }

  lemma InsertedNotReviewed(db: Database, op: Op, k: int)
    requires 0 <= k < |Inserted(db, op)|
    ensures Inserted(db, op)[k].state != NeedsReview
  {
  }

  /** Every transaction a disciplined coordinator issues keeps the durable invariant, answered or not. */
  lemma DurableCommit(db: Database, op: Op, j: Journal, e: Effect)
    requires Durable(db, j) && Step(db, op).Success? && Disciplined(j, db, op)
    requires op.BindRunningTurn? ==> op.turn in OrdinaryTurns(j)
    requires e.Committed? && e.op == op
    ensures Durable(Step(db, op).value, j + [e])
  {
    hide Step, WellFormed, AllBound, LogPublic, HidesQuestions, ShowsPrompts, FrontierQuiet, OneActive, Orderly, PromptsStored;
    assert Front(j + [e]) == j;
    CommitKeepsTurns(j, e);
    StepKeeps(db, op);
    OrderStep(db, op, j, e);
    PromptsStep(db, op, AcceptedPrompts(j));
    BindingsStep(db, op, j);
    FrontierStep(db, op, j, e);
    PrivacyStep(db, op, j, e);
  }

  /** The head of what the coordinator can know of comes before every prompt it was told of. */
  lemma OrderStep(db: Database, op: Op, j: Journal, e: Effect)
    requires WellFormed(db) && Orderly(db.messages, LostPrompts(j)) && Step(db, op).Success? && Disciplined(j, db, op)
    requires e.Committed? && e.op == op
    ensures Orderly(Step(db, op).value.messages, LostPrompts(j + [e]))
    ensures OneActive(Step(db, op).value.messages)
  {
    hide Step, WellFormed, Quiet;
    assert Front(j + [e]) == j;
    LostAccepted(j);
    if op.BeginDispatch? {
      HeadMayDispatch(db, Overlooked(j), LostPrompts(j));
    }
    OrderlyStep(db, op, LostPrompts(j));
    MoreExcepted(Step(db, op).value.messages, LostPrompts(j), LostPrompts(j + [e]));
  }

  lemma MoreExcepted(ms: seq<Message>, some: set<MessageId>, more: set<MessageId>)
    requires Orderly(ms, some) && some <= more
    ensures Orderly(ms, more) && OneActive(ms)
  {
  }

  lemma PromptsStep(db: Database, op: Op, accepted: set<MessageId>)
    requires WellFormed(db) && PromptsStored(db.messages, accepted) && Step(db, op).Success?
    ensures PromptsStored(Step(db, op).value.messages,
                          accepted + if op.Accept? && op.kind == Prompt then {op.id} else {})
  {
    hide Step, WellFormed;
    var next := Step(db, op).value;
    StepRows(db, op);
    StepKeeps(db, op);
    forall k | |db.messages| <= k < |next.messages| && next.messages[k].kind == Prompt
      ensures op.Accept? && op.kind == Prompt && next.messages[k].id == op.id
    {
      InsertedPrompt(db, op, k - |db.messages|);
      assert next.messages[|db.messages| + (k - |db.messages|)] == Inserted(db, op)[k - |db.messages|];
    }
    forall id | id in accepted
      ensures Exists(next.messages, id) && Row(next.messages, id).kind == Prompt
    {
      KindKept(db, next, id);
    }
    if op.Accept? && op.kind == Prompt {
      SubmittedRow(db, op);
    }
  }

  lemma KindKept(db: Database, next: Database, id: MessageId)
    requires Extends(db, next) && WellFormed(next) && Exists(db.messages, id)
    ensures Exists(next.messages, id) && Row(next.messages, id).kind == Row(db.messages, id).kind
  {
    var k := IndexOf(db.messages, id);
    assert SameIdentity(db.messages[k], next.messages[k]);
    IndexUnique(next.messages, k);
  }

  /** A submitted prompt is stored, by this transaction or by the first one with its id. */
  lemma SubmittedRow(db: Database, op: Op)
    requires WellFormed(db) && op.Accept? && Step(db, op).Success?
    ensures Exists(Step(db, op).value.messages, op.id) && Row(Step(db, op).value.messages, op.id).kind == op.kind
  {
    hide Step;
    if Exists(db.messages, op.id) {
      ReplayedKind(db, op);
    } else {
      StepRows(db, op);
      StepKeeps(db, op);
      var next := Step(db, op).value;
      assert next.messages[|db.messages| + 0] == Inserted(db, op)[0];
      IndexUnique(next.messages, |db.messages|);
    }
  }

  lemma InsertedPrompt(db: Database, op: Op, k: int)
    requires 0 <= k < |Inserted(db, op)| && Inserted(db, op)[k].kind == Prompt
    ensures op.Accept? && op.kind == Prompt && Inserted(db, op)[k].id == op.id
  {
  }

  /** A command sent again finds its own row. */
  lemma ReplayedKind(db: Database, op: Op)
    requires op.Accept? && Exists(db.messages, op.id) && Step(db, op).Success?
    ensures Row(db.messages, op.id).kind == op.kind && Step(db, op).value == db
  {
  }

  /** A commit begins no turn. */
  lemma CommitKeepsTurns(j: Journal, e: Effect)
    requires e.Committed?
    ensures OrdinaryTurns(j + [e]) == OrdinaryTurns(j)
    ensures QuestionTurns(j + [e]) == QuestionTurns(j)
    ensures KnownTurns(j + [e]) == KnownTurns(j)
    ensures AcceptedPrompts(j + [e]) == AcceptedPrompts(j) + if e.op.Accept? && e.op.kind == Prompt then {e.op.id} else {}
    ensures LostPrompts(j + [e]) == LostPrompts(j) + NewlyLost(j, e)
    ensures Overlooked(j + [e]) == Overlooked(j) + NewlyLost(j, e)
  {
    assert Front(j + [e]) == j;
  }

  lemma PrivacyStep(db: Database, op: Op, j: Journal, e: Effect)
    requires Step(db, op).Success? && Disciplined(j, db, op)
    requires e.Committed? && e.op == op
    requires LogPublic(db.events, KnownTurns(j), QuestionTurns(j)) && HidesQuestions(db, j)
    requires FrontiersAnswered(j) ==> ShowsPrompts(db, j)
    ensures LogPublic(Step(db, op).value.events, KnownTurns(j + [e]), QuestionTurns(j + [e]))
    ensures HidesQuestions(Step(db, op).value, j + [e])
    ensures FrontiersAnswered(j + [e]) ==> ShowsPrompts(Step(db, op).value, j + [e])
  {
    StepColumns(db, op);
    StepItems(db, op);
    CommitKeepsTurns(j, e);
    assert Front(j + [e]) == j;
    FrontierTaken(db, op);
    PrivacyFollow(db, op, Step(db, op).value, j);
  }

  lemma FrontierTaken(db: Database, op: Op)
    requires Step(db, op).Success?
    ensures op.BeginPrivateTurn? ==> db.frontier == None
  {
  }

  lemma PrivacyFollow(db: Database, op: Op, next: Database, j: Journal)
    requires ColumnsFollow(db, op, next) && ItemsFollow(db, op, next) && Disciplined(j, db, op)
    requires op.BeginPrivateTurn? ==> db.frontier == None
    requires LogPublic(db.events, KnownTurns(j), QuestionTurns(j)) && HidesQuestions(db, j)
    ensures LogPublic(next.events, KnownTurns(j), QuestionTurns(j))
    ensures HidesQuestions(next, j)
    ensures FrontiersAnswered(j) && ShowsPrompts(db, j) ==> ShowsPrompts(next, j)
  {
    hide DispatchAllowed, AllAnswered, Quiet;
  }

  /** A call of the agent, or a read of its history, keeps it too. */
  lemma DurableCall(base: Database, j: Journal)
    requires j != [] && !Last(j).Committed? && Allowed(base, Front(j), Last(j))
    requires Durable(Current(base, Front(j)), Front(j))
    requires Last(j).QuestionStart? ==> Current(base, Front(j)).frontier.Some?
    requires Last(j).TurnStart? ==> !FrontierHeld(Front(j), Current(base, Front(j)))
    ensures Durable(Current(base, j), j)
  {
    hide WellFormed, OneActive, Orderly, PromptsStored;
    var db := Current(base, j);
    forall k | 0 <= k < |db.messages|
      ensures Bound(db.messages[k], OrdinaryTurns(j))
    {
      assert Bound(db.messages[k], OrdinaryTurns(Front(j)));
    }
    AnsweredBefore(Front(j), |j| - 1);
    assert AcceptedPrompts(j) == AcceptedPrompts(Front(j)) && LostPrompts(j) == LostPrompts(Front(j));
  }

  /** Before a turn may start no known frontier stands; before a question may start one does. */
  lemma CallContext(members: map<Uid, bool>, j: Journal)
    requires Safe(Initial(members), j) && j != []
    ensures Last(j).TurnStart? ==> !FrontierHeld(Front(j), Current(Initial(members), Front(j)))
    ensures Last(j).QuestionStart? ==> Current(Initial(members), Front(j)).frontier.Some?
  {
    var past := Front(j);
    if Last(j).TurnStart? || Last(j).QuestionStart? {
      assert Allowed(Initial(members), Front(past), Last(past));
      StepColumns(Current(Initial(members), Front(past)), Last(past).op);
    }
  }

  /** The turn of a running prompt was begun for a prompt. */
  lemma BoundTurnCreated(members: map<Uid, bool>, j: Journal)
    requires Safe(Initial(members), j) && j != []
    requires Last(j).Committed? && Last(j).op.BindRunningTurn?
    ensures Last(j).op.turn in OrdinaryTurns(Front(j))
  {
  }

  /** After every effect of every run, with any number of restarts, the durable invariant holds. */
  lemma {:induction false} SafeIsDurable(members: map<Uid, bool>, j: Journal)
    requires Safe(Initial(members), j)
    ensures Durable(Current(Initial(members), j), j)
    decreases |j|
  {
    hide Step, Disciplined, WellFormed, AllBound, LogPublic, HidesQuestions, ShowsPrompts, FrontierQuiet, OneActive, Orderly, PromptsStored;
    if j == [] {
      EmptyRoom(members);
    } else {
      SafeIsDurable(members, Front(j));
      if Last(j).Committed? {
        var db := Current(Initial(members), Front(j));
        if Last(j).op.BindRunningTurn? {
          BoundTurnCreated(members, j);
        }
        DurableCommit(db, Last(j).op, Front(j), Last(j));
        assert Front(j) + [Last(j)] == j;
      } else {
        CallContext(members, j);
        DurableCall(Initial(members), j);
      }
    }
  }

  lemma EmptyRoom(members: map<Uid, bool>)
    ensures Durable(Initial(members), [])
  {
    InitialWellFormed(members);
  }

  // ---- What follows for every run ---------------------------------------------------------

  /**
   A dispatch takes the least queued prompt the coordinator can know of, from a ready room with
   nothing in the agent's hands.  Every prompt accepted before it has ended, or was stored without
   an answer and overlooked since; every prompt accepted after it has ended or waits.
   */
  lemma DispatchInOrder(members: map<Uid, bool>, j: Journal, k: nat, i: int)
    requires Safe(Initial(members), j) && k < |j|
    requires j[k].Committed? && j[k].op.BeginDispatch?
    requires 0 <= i < |Current(Initial(members), j[..k]).messages|
    requires IsPrompt(Current(Initial(members), j[..k]).messages[i].kind)
    ensures var db := Current(Initial(members), j[..k]);
            && db.status == Ready && db.thread != 0 && (FrontiersAnswered(j[..k]) ==> db.frontier == None)
            && Exists(db.messages, j[k].op.id) && QueuedPrompt(Row(db.messages, j[k].op.id))
            && j[k].op.id !in Overlooked(j[..k])
            && (db.messages[i].acceptedSeq < Row(db.messages, j[k].op.id).acceptedSeq ==>
                  || Terminal(db.messages[i].state)
                  || (db.messages[i].state == Queued && db.messages[i].id in Overlooked(j[..k])))
            && (db.messages[i].acceptedSeq > Row(db.messages, j[k].op.id).acceptedSeq ==>
                  Terminal(db.messages[i].state) || db.messages[i].state == Queued)
  {
    AllowedAt(Initial(members), j, k);
    SafeIsDurable(members, j[..k]);
    AnsweredBefore(j[..k], k);
    var db := Current(Initial(members), j[..k]);
    BegunTarget(db, j[k].op);
    var h := QueueHead(db.messages, Overlooked(j[..k]));
    IndexUnique(db.messages, h);
    assert Ascending(db.messages);
    assert i == h || i < h || h < i;
  }

  /**
   At every moment at most one prompt is unfinished beyond the queue, and it was accepted before
   every queued prompt whose acceptance was answered.
   */
  lemma OnePromptAtATime(members: map<Uid, bool>, j: Journal, a: int, b: int)
    requires Safe(Initial(members), j)
    requires 0 <= a < |Current(Initial(members), j).messages| && 0 <= b < |Current(Initial(members), j).messages| && a != b
    requires Active(Current(Initial(members), j).messages[a])
    ensures var ms := Current(Initial(members), j).messages;
            && !Active(ms[b])
            && (QueuedPrompt(ms[b]) && ms[b].id !in LostPrompts(j) ==> ms[a].acceptedSeq < ms[b].acceptedSeq)
  {
    SafeIsDurable(members, j);
    var ms := Current(Initial(members), j).messages;
    assert Ascending(ms);
  }

  /** The prompt is stored with this state. */
  predicate PromptIn(db: Database, id: MessageId, s: State)
  {
    IsPromptOf(db, id) && Row(db.messages, id).state == s
  }

  /** Only FailDispatch takes a prompt from dispatching to failed. */
  lemma FailingOp(db: Database, op: Op, id: MessageId, ordinary: set<TurnId>)
    requires WellFormed(db) && AllBound(db.messages, ordinary) && Step(db, op).Success?
    requires PromptIn(db, id, Dispatching) && PromptIn(Step(db, op).value, id, Failed)
    ensures op.FailDispatch? && op.id == id
  {
    StepKeeps(db, op);
    StepRows(db, op);
    var k := IndexOf(db.messages, id);
    IndexUnique(db.messages, k);
    IndexUnique(Step(db, op).value.messages, k);
    assert Bound(db.messages[k], ordinary);
    FailingMoved(db, op, k);
  }

  lemma FailingMoved(db: Database, op: Op, k: int)
    requires Distinct(db.messages) && Step(db, op).Success? && 0 <= k < |db.messages| && IndexOf(db.messages, db.messages[k].id) == k
    requires IsPrompt(db.messages[k].kind) && db.messages[k].state == Dispatching && db.messages[k].turn == 0
    requires Moved(db, op, db.messages[k]).state == Failed
    ensures op.FailDispatch? && op.id == db.messages[k].id
  {
    if op.FinishTurn? {
      FinishedTurn(db, op);
    } else if op.FinishControl? {
      ControlTarget(db, op);
    } else if op.ResolveReview? && !Exists(db.messages, op.id) {
      ResolvedTarget(db, op);
    }
  }

  /**
   A prompt goes from dispatching to failed only right after the agent answered its start
   with "not sent", whichever effect moved it.
   */
  lemma FailedOnlyIfUnsent(members: map<Uid, bool>, j: Journal, k: nat, id: MessageId)
    requires Safe(Initial(members), j) && k < |j|
    requires PromptIn(Current(Initial(members), j[..k]), id, Dispatching)
    requires PromptIn(Current(Initial(members), j[..k + 1]), id, Failed)
    ensures k > 0 && j[k - 1] == TurnStart(id, NotSent, None)
  {
    var past := j[..k];
    AllowedAt(Initial(members), j, k);
    SafeIsDurable(members, past);
    assert Front(j[..k + 1]) == past && Last(j[..k + 1]) == j[k];
    FailingOp(Current(Initial(members), past), j[k].op, id, OrdinaryTurns(past));
    assert Last(past) == j[k - 1];
  }

  /** Whatever a run stored is still there later. */
  lemma {:induction false} RunExtends(members: map<Uid, bool>, j: Journal, k: nat)
    requires Safe(Initial(members), j) && k <= |j|
    ensures Extends(Current(Initial(members), j[..k]), Current(Initial(members), j))
    decreases |j|
  {
    hide Step, WellFormed, Extends, Disciplined;
    if k < |j| {
      var past := Front(j);
      assert past[..k] == j[..k];
      RunExtends(members, past, k);
      if Last(j).Committed? {
        CurrentWellFormed(members, past);
        StepKeeps(Current(Initial(members), past), Last(j).op);
        ExtendsTransitive(Current(Initial(members), j[..k]), Current(Initial(members), past), Current(Initial(members), j));
      }
    } else {
      assert j[..k] == j;
      CurrentWellFormed(members, j);
      SameLogKeeps(Current(Initial(members), j), Current(Initial(members), j));
    }
  }

  /** A decision about one prompt: the only effect that lets the room past an uncertain start. */
  predicate Decides(e: Effect, id: MessageId)
  {
    e.Committed? && e.op.ResolveReview? && e.op.target == id
  }

  /** The prompt's start is uncertain: it is in the agent's hands with no known turn. */
  ghost predicate Uncertain(db: Database, id: MessageId)
  {
    && Exists(db.messages, id)
    && IsPrompt(Row(db.messages, id).kind)
    && (Row(db.messages, id).state == Dispatching || Row(db.messages, id).state == NeedsReview)
    && Row(db.messages, id).turn == 0
  }

  lemma UncertainStep(db: Database, op: Op, id: MessageId)
    requires WellFormed(db) && Step(db, op).Success? && Uncertain(db, id)
    requires !(op.ResolveReview? && op.target == id)
    requires !(op.FailDispatch? && op.id == id) && !(op.BindRunningTurn? && op.id == id)
    ensures Uncertain(Step(db, op).value, id)
  {
    StepKeeps(db, op);
    StepRows(db, op);
    var k := IndexOf(db.messages, id);
    IndexUnique(Step(db, op).value.messages, k);
    IndexUnique(db.messages, k);
    UncertainMoved(db, op, k);
  }

  lemma UncertainMoved(db: Database, op: Op, k: int)
    requires Distinct(db.messages) && Step(db, op).Success? && 0 <= k < |db.messages|
    requires Uncertain(db, db.messages[k].id) && IndexOf(db.messages, db.messages[k].id) == k
    requires !(op.ResolveReview? && op.target == db.messages[k].id)
    requires !(op.FailDispatch? && op.id == db.messages[k].id) && !(op.BindRunningTurn? && op.id == db.messages[k].id)
    ensures var m := Moved(db, op, db.messages[k]);
            m.id == db.messages[k].id && IsPrompt(m.kind) && (m.state == Dispatching || m.state == NeedsReview) && m.turn == 0
  {
    if op.FinishTurn? {
      FinishedTurn(db, op);
    } else if op.BeginDispatch? {
      BegunTarget(db, op);
    } else if op.FinishControl? {
      ControlTarget(db, op);
    }
  }

  /** Right after StartTurn answered "unknown", only its own bookkeeping can touch the prompt. */
  lemma {:induction false} UncertainUntilDecided(members: map<Uid, bool>, j: Journal, k: nat, id: MessageId)
    requires Safe(Initial(members), j) && k < |j|
    requires j[k].TurnStart? && j[k].id == id && j[k].outcome == Unknown
    requires forall l :: k < l < |j| ==> !Decides(j[l], id)
    ensures Uncertain(Current(Initial(members), j), id)
    decreases |j|
  {
    var past := Front(j);
    SafeIsDurable(members, past);
    if k == |j| - 1 {
      assert Allowed(Initial(members), Front(past), Last(past));
      SafeIsDurable(members, Front(past));
      DispatchedRow(Current(Initial(members), Front(past)), id);
    } else {
      forall l | k < l < |past|
        ensures !Decides(past[l], id)
      {
        assert past[l] == j[l];
      }
      assert past[k] == j[k];
      UncertainUntilDecided(members, past, k, id);
      if Last(j).Committed? {
        assert !Decides(j[|j| - 1], id);
        NotItsAnswer(members, j, k, id);
        UncertainStep(Current(Initial(members), past), Last(j).op, id);
      }
    }
  }

  lemma DispatchedRow(db: Database, id: MessageId)
    requires WellFormed(db) && BeginDispatchTx(db, id).Success?
    requires exists ordinary :: AllBound(db.messages, ordinary)
    ensures Uncertain(BeginDispatchTx(db, id).value, id)
  {
    var next := BeginDispatchTx(db, id).value;
    var i := IndexOf(db.messages, id);
    BeginDispatchKeeps(db, id);
    var ordinary :| AllBound(db.messages, ordinary);
    assert Bound(db.messages[i], ordinary);
    IndexUnique(next.messages, i);
  }

  /** No later answer can fail or bind the prompt: each needs its own dispatch, which an open prompt cannot get. */
  lemma NotItsAnswer(members: map<Uid, bool>, j: Journal, k: nat, id: MessageId)
    requires Safe(Initial(members), j) && k < |j| - 1
    requires j[k].TurnStart? && j[k].id == id && j[k].outcome == Unknown
    requires forall l :: k < l < |j| ==> !Decides(j[l], id)
    requires Last(j).Committed?
    ensures !(Last(j).op.FailDispatch? && Last(j).op.id == id)
    ensures !(Last(j).op.BindRunningTurn? && Last(j).op.id == id)
    decreases |j|, 0
  {
    if (Last(j).op.FailDispatch? || Last(j).op.BindRunningTurn?) && Last(j).op.id == id {
      var begun := j[..|j| - 3];
      AnsweredDispatch(members, j);
      forall l | k < l < |begun|
        ensures !Decides(begun[l], id)
      {
        assert begun[l] == j[l];
      }
      assert begun[k] == j[k];
      UncertainUntilDecided(members, begun, k, id);
      BegunTarget(Current(Initial(members), begun), BeginDispatch(id));
      assert false;
    }
  }

  /** An answer to turn/start is stored right after its start, which came right after its dispatch. */
  lemma AnsweredDispatch(members: map<Uid, bool>, j: Journal)
    requires Safe(Initial(members), j) && j != []
    requires Last(j).Committed? && (Last(j).op.FailDispatch? || Last(j).op.BindRunningTurn?)
    ensures |j| >= 3 && j[|j| - 2].TurnStart? && j[|j| - 2].id == Last(j).op.id && j[|j| - 2].outcome != Unknown
    ensures j[|j| - 3].Committed? && j[|j| - 3].op == BeginDispatch(Last(j).op.id)
    ensures Safe(Initial(members), j[..|j| - 3])
    ensures Step(Current(Initial(members), j[..|j| - 3]), BeginDispatch(Last(j).op.id)).Success?
  {
    hide Step, Current;
    AllowedAt(Initial(members), j, |j| - 1);
    assert Last(j[..|j| - 1]) == j[|j| - 2];
    AllowedAt(Initial(members), j, |j| - 2);
    assert Last(j[..|j| - 2]) == j[|j| - 3];
    AllowedAt(Initial(members), j, |j| - 3);
  }

  /** After an uncertain start nothing else is dispatched before a decision about that prompt. */
  lemma FrozenUntilDecided(members: map<Uid, bool>, j: Journal, k: nat, l: nat)
    requires Safe(Initial(members), j) && k < l < |j|
    requires j[k].TurnStart? && j[k].outcome == Unknown
    requires j[l].Committed? && j[l].op.BeginDispatch?
    ensures exists d :: k < d < l && Decides(j[d], j[k].id)
  {
    if !(exists d :: k < d < l && Decides(j[d], j[k].id)) {
      var past := j[..l];
      AllowedAt(Initial(members), j, l);
      forall d | k < d < |past|
        ensures !Decides(past[d], j[k].id)
      {
        assert past[d] == j[d];
      }
      var i := IndexOf(Current(Initial(members), past).messages, j[k].id);
      UncertainUntilDecided(members, past, k, j[k].id);
      assert false;
    }
  }

  /** No item of a private question ever reaches the log, whenever the process dies. */
  lemma QuestionsStayPrivate(members: map<Uid, bool>, j: Journal, n: nat)
    requires Safe(Initial(members), j)
    requires n in Current(Initial(members), j).events && Current(Initial(members), j).events[n].ItemCompleted?
    ensures Current(Initial(members), j).events[n].item.turn !in QuestionTurns(j)
  {
    SafeIsDurable(members, j);
  }

  /** Recovery hides a turn when it is listed, or when a frontier stands and the turn lies outside it. */
  predicate HiddenOnRecovery(db: Database, turn: TurnId)
  {
    turn in db.hidden || (db.frontier.Some? && turn !in db.frontier.value.baseline)
  }

  /**
   Recovery hides every turn begun for a question, whatever the run; it hides none begun
   for a prompt if every stored frontier was answered, whatever other answers were lost.
   */
  lemma RecoveryHidesExactly(members: map<Uid, bool>, j: Journal, turn: TurnId)
    requires Safe(Initial(members), j)
    ensures turn in QuestionTurns(j) ==> HiddenOnRecovery(Current(Initial(members), j), turn)
    ensures FrontiersAnswered(j) && turn in OrdinaryTurns(j) ==> !HiddenOnRecovery(Current(Initial(members), j), turn)
  {
    SafeIsDurable(members, j);
  }

  /** No prompt is started while a frontier stands that its owner was told of. */
  lemma NoStartBehindFrontier(members: map<Uid, bool>, j: Journal, k: nat)
    requires Safe(Initial(members), j) && k < |j| && j[k].TurnStart?
    ensures !FrontierHeld(j[..k], Current(Initial(members), j[..k]))
    ensures FrontiersAnswered(j[..k]) ==> Current(Initial(members), j[..k]).frontier == None
  {
    CrashIsSafe(Initial(members), j, k + 1);
    assert Front(j[..k + 1]) == j[..k];
    CallContext(members, j[..k + 1]);
    AnsweredBefore(j[..k], k);
  }
}
