/**
 How the coordinator's memory stands to the tables on every run, whatever answers of the store
 were lost: what it may rely on (`InTouch`), and which prompts its queue holds (`Aligned`).  As
 long as no answer was lost the two are also in step (`RoomMemory.InStep`).
 */
module RoomCoherence {
  import opened Wrappers
  import opened RoomStore
  import opened RoomStoreFacts
  import opened RoomTransitions
  import opened DispatchJournal
  import opened RoomSafety
  import opened RoomMemory

  // ---- Whatever was answered ---------------------------------------------------------------------------

  /** The prompt the coordinator has in hand: the active one, or the next to dispatch. */
  predicate AtHand(m: Memory, id: MessageId)
  {
    if m.active.Some? then m.active.value.id == id else m.queue != [] && m.queue[0] == id
  }

  /** Whatever the agent may be working on is in hand. */
  ghost predicate ActiveKnown(m: Memory, ms: seq<Message>)
  {
    forall k :: 0 <= k < |ms| && Active(ms[k]) ==> AtHand(m, ms[k].id)
  }

  ghost predicate ReviewedHeld(m: Memory, ms: seq<Message>)
  {
    forall k :: 0 <= k < |ms| && IsControl(ms[k].kind) && ms[k].state == NeedsReview ==> Holds(m, ms[k].id)
  }

  /** The active binding names a stored prompt, and a turn that was begun for one. */
  ghost predicate BindingSound(m: Memory, db: Database, ordinary: set<TurnId>)
  {
    m.active.Some? ==>
      && IsPromptOf(db, m.active.value.id)
      && (m.active.value.turn != 0 ==> m.active.value.turn in ordinary)
  }

  /** What the coordinator may rely on even after answers of the store were lost. */
  ghost predicate InTouch(m: Memory, loaded: bool, db: Database, ordinary: set<TurnId>)
  {
    if !loaded then m.active == None && !IsReady(m)
    else
      && ActiveKnown(m, db.messages)
      && ReviewedHeld(m, db.messages)
      && BindingSound(m, db, ordinary)
      && (IsReady(m) ==> db.thread != 0)
  }

  /** Memory and tables: in touch and aligned on every run, and in step as long as no answer was lost. */
  ghost predicate Agrees(m: Memory, loaded: bool, fault: bool, db: Database, j: Journal)
  {
    && InTouch(m, loaded, db, OrdinaryTurns(j))
    && Aligned(m, loaded, db, Overlooked(j))
    && (AllAnswered(j) ==> InStep(m, loaded, fault, db))
  }

  /**
   A transaction that dispatches or reviews concerns something the coordinator holds, and one that
   makes the stored room unready, or a prompt one to review, is issued only when it is not ready itself.
   */
  predicate InHand(m: Memory, db: Database, op: Op)
  {
    && (op.BeginDispatch? ==> m.active.None? && m.queue != [] && m.queue[0] == op.id)
    && (op.MarkNeedsReview? || op.MarkThreadNeedsRepair? || (op.SetRoomStatus? && op.status != Ready) ==> !IsReady(m))
    && (op.FailDispatch? ==> op.state == Failed)
    && (op.MarkNeedsReview? || (op.FinishControl? && op.state == NeedsReview) ==>
          Exists(db.messages, op.id) && IsControl(Row(db.messages, op.id).kind) ==> Holds(m, op.id))
  }

  /** The private question in progress owns the frontier, and a ready room without one knows of none. */
  ghost predicate FrontierOwned(m: Memory, loaded: bool, question: Option<TurnId>, db: Database, j: Journal)
  {
    && (IsReady(m) && question.None? ==> !FrontierHeld(j, db))
    && (question.Some? ==>
          && loaded && m.active.None? && FrontierHeld(j, db)
          && question.value in KnownTurns(j)
          && question.value !in OrdinaryTurns(j)
          && QuestionTurns(j) <= db.hidden + {question.value})
  }

  /** A committed transaction and the journal after its answer. */
  ghost predicate Answers(db: Database, j: Journal, op: Op, next: Database, now: Journal)
  {
    Step(db, op) == Success(next) && now == j + [Committed(op, next, true)]
  }

  /** What a transaction does to the turns and the frontier, whatever its answer. */
  ghost predicate TurnsKept(db: Database, j: Journal, op: Op, next: Database, now: Journal)
  {
    && OrdinaryTurns(now) == OrdinaryTurns(j)
    && QuestionTurns(now) == QuestionTurns(j)
    && KnownTurns(now) == KnownTurns(j)
    && (!op.BindThread? ==> next.thread == db.thread)
    && (db.thread != 0 ==> next.thread != 0)
    && (!op.Accept? ==> Overlooked(now) == Overlooked(j))
    && (!op.BeginPrivateTurn? && !op.EndPrivateTurn? ==>
          next.frontier == db.frontier && next.hidden == db.hidden && FrontierHeld(now, next) == FrontierHeld(j, db))
  }

  lemma CommitColumns(db: Database, j: Journal, op: Op, next: Database, e: Effect)
    requires Step(db, op) == Success(next) && e.Committed? && e.op == op
    ensures TurnsKept(db, j, op, next, j + [e])
    ensures op.BeginPrivateTurn? && !e.answered ==> !FrontierHeld(j + [e], next)
    ensures op.BeginPrivateTurn? && e.answered ==> FrontierHeld(j + [e], next)
    ensures op.EndPrivateTurn? ==> next.frontier.None? && next.hidden == db.hidden + op.turns
  {
    StepColumns(db, op);
    CommitKeepsTurns(j, e);
    assert Front(j + [e]) == j && Last(j + [e]) == e;
  }

  lemma TouchRow(m: Memory, db: Database, op: Op, next: Database, k: int)
    requires ActiveKnown(m, db.messages) && ReviewedHeld(m, db.messages) && InHand(m, db, op)
    requires Distinct(db.messages) && RowsFollow(db, op, next) && 0 <= k < |next.messages|
    requires k < |db.messages| ==> ClassKept(op, db.messages[k], Moved(db, op, db.messages[k]))
    requires k < |db.messages| ==> ReviewKept(op, db.messages[k], Moved(db, op, db.messages[k]))
    ensures Active(next.messages[k]) ==> AtHand(m, next.messages[k].id)
    ensures IsControl(next.messages[k].kind) && next.messages[k].state == NeedsReview ==> Holds(m, next.messages[k].id)
  {
    hide Holds, Step;
    if k >= |db.messages| {
      InsertedClass(db, op, k - |db.messages|);
      InsertedNotReviewed(db, op, k - |db.messages|);
      assert next.messages[|db.messages| + (k - |db.messages|)] == Inserted(db, op)[k - |db.messages|];
    } else {
      IndexUnique(db.messages, k);
    }
  }

  /** Any transaction on something in hand leaves the memory in touch, whether or not it was answered. */
  lemma TouchKept(m: Memory, loaded: bool, db: Database, op: Op, ordinary: set<TurnId>)
    requires InTouch(m, loaded, db, ordinary) && WellFormed(db) && Step(db, op).Success? && InHand(m, db, op)
    ensures InTouch(m, loaded, Step(db, op).value, ordinary)
  {
    hide Step, AtHand, Holds, InHand;
    if loaded {
      var next := Step(db, op).value;
      RowClasses(db, op);
      StepColumns(db, op);
      StepKeeps(db, op);
      forall k | 0 <= k < |next.messages|
        ensures Active(next.messages[k]) ==> AtHand(m, next.messages[k].id)
        ensures IsControl(next.messages[k].kind) && next.messages[k].state == NeedsReview ==> Holds(m, next.messages[k].id)
      {
        TouchRow(m, db, op, next, k);
      }
      if m.active.Some? {
        PromptKept(db, next, m.active.value.id);
      }
    }
  }

  lemma PromptKept(db: Database, next: Database, id: MessageId)
    requires IsPromptOf(db, id) && Extends(db, next) && WellFormed(next)
    ensures IsPromptOf(next, id)
  {
    var k := IndexOf(db.messages, id);
    assert SameIdentity(db.messages[k], next.messages[k]);
    IndexUnique(next.messages, k);
  }

  // ---- The queue in memory -------------------------------------------------------------------------------

  ghost predicate NoReviewedPrompts(ms: seq<Message>)
  {
    forall k :: 0 <= k < |ms| ==> !(IsPrompt(ms[k].kind) && ms[k].state == NeedsReview)
  }

  /** The stored prompt is in the agent's hands. */
  predicate OpenRow(ms: seq<Message>, id: MessageId) { Exists(ms, id) && Active(Row(ms, id)) }

  /** A coordinator that is ready, or works on an open prompt. */
  predicate Relying(m: Memory, ms: seq<Message>)
  {
    IsReady(m) || (m.active.Some? && OpenRow(ms, m.active.value.id))
  }

  predicate NotQueued(ms: seq<Message>, id: MessageId) { Exists(ms, id) && !QueuedPrompt(Row(ms, id)) }

  /**
   The queue in memory is the stored one without the overlooked prompts.  A head whose dispatch is
   stored may still stand before it.
   */
  ghost predicate QueueKnown(m: Memory, ms: seq<Message>, lost: set<MessageId>)
  {
    || m.queue == QueueBut(ms, lost)
    || (m.queue != [] && m.queue[1..] == QueueBut(ms, lost) && NotQueued(ms, m.queue[0]))
  }

  /** A ready room is stored as ready with nothing in review, and a queue it relies on is known. */
  ghost predicate Aligned(m: Memory, loaded: bool, db: Database, lost: set<MessageId>)
  {
    loaded ==>
      && (IsReady(m) ==> db.status == Ready && NoReviewedPrompts(db.messages))
      && (m.controls == [] && Relying(m, db.messages) ==> QueueKnown(m, db.messages, lost))
  }

  /** The prompt a transaction stores for the first time. */
  function FreshPrompt(db: Database, op: Op): set<MessageId>
  {
    if op.Accept? && op.kind == Prompt && !Exists(db.messages, op.id) then {op.id} else {}
  }

  /** Only MarkNeedsReview and FailDispatch put a prompt into review. */
  ghost predicate PromptReviewKept(op: Op, m: Message, n: Message)
  {
    IsPrompt(n.kind) && n.state == NeedsReview && m.state != NeedsReview ==>
      op.MarkNeedsReview? || (op.FailDispatch? && op.state == NeedsReview)
  }

  lemma MovedPromptReview(db: Database, op: Op, k: int)
    requires WellFormed(db) && Step(db, op).Success? && 0 <= k < |db.messages|
    ensures PromptReviewKept(op, db.messages[k], Moved(db, op, db.messages[k]))
  {
    if op.FinishControl? {
      ControlTarget(db, op);
      IndexUnique(db.messages, k);
    } else if op.FinishTurn? {
      FinishStates(db, op);
    }
  }

  lemma PromptReviewsStep(db: Database, op: Op)
    requires WellFormed(db) && Step(db, op).Success? && NoReviewedPrompts(db.messages)
    requires !op.MarkNeedsReview? && (op.FailDispatch? ==> op.state != NeedsReview)
    ensures NoReviewedPrompts(Step(db, op).value.messages)
  {
    hide Step;
    var next := Step(db, op).value;
    StepRows(db, op);
    StepKeeps(db, op);
    forall k | 0 <= k < |next.messages|
      ensures !(IsPrompt(next.messages[k].kind) && next.messages[k].state == NeedsReview)
    {
      if k >= |db.messages| {
        InsertedNotReviewed(db, op, k - |db.messages|);
        assert next.messages[|db.messages| + (k - |db.messages|)] == Inserted(db, op)[k - |db.messages|];
      } else {
        assert SameIdentity(db.messages[k], next.messages[k]);
        MovedPromptReview(db, op, k);
      }
    }
  }

  // ---- What a transaction does to the known queue

  lemma InsertedAwaits(db: Database, op: Op, k: int, lost: set<MessageId>)
    requires 0 <= k < |Inserted(db, op)| && !op.ResolveReview? && Step(db, op).Success?
    ensures !Awaits(Inserted(db, op)[k], lost + FreshPrompt(db, op))
  {
  }

  /** Apart from a dispatch and a fresh decision, nothing changes the queue but a prompt that is then overlooked. */
  lemma QueueStep(db: Database, op: Op, lost: set<MessageId>)
    requires WellFormed(db) && Step(db, op).Success? && !op.BeginDispatch?
    requires op.ResolveReview? ==> Exists(db.messages, op.id)
    ensures QueueBut(Step(db, op).value.messages, lost + FreshPrompt(db, op)) == QueueBut(db.messages, lost)
  {
    hide Step, QueueBut, WellFormed, Moved, Inserted;
    var next := Step(db, op).value;
    var n := |db.messages|;
    var more := lost + FreshPrompt(db, op);
    StepRows(db, op);
    forall k | 0 <= k < n
      ensures db.messages[k].id == next.messages[k].id && Awaits(db.messages[k], lost) == Awaits(next.messages[k], more)
    {
      WaitingRow(db, op, k, lost);
    }
    QueueSame(db.messages, next.messages[..n], lost, more);
    forall k | n <= k < |next.messages|
      ensures !Awaits(next.messages[k], more)
    {
      NothingInserted(db, op);
      InsertedAwaits(db, op, k - n, lost);
      assert next.messages[n + (k - n)] == Inserted(db, op)[k - n];
    }
    QueueEmpty(next.messages[n..], more);
    assert next.messages == next.messages[..n] + next.messages[n..];
    QueueConcat(next.messages[..n], next.messages[n..], more);
  }

  lemma WaitingRow(db: Database, op: Op, k: int, lost: set<MessageId>)
    requires WellFormed(db) && Step(db, op).Success? && !op.BeginDispatch? && 0 <= k < |db.messages|
    requires op.ResolveReview? ==> Exists(db.messages, op.id)
    ensures Moved(db, op, db.messages[k]).id == db.messages[k].id
    ensures Awaits(db.messages[k], lost) == Awaits(Moved(db, op, db.messages[k]), lost + FreshPrompt(db, op))
  {
    hide Step, Moved;
    MovedClass(db, op, k);
    RepeatedDecision(db, op, k);
    IndexUnique(db.messages, k);
  }

  /** A decision sent again changes nothing. */
  lemma RepeatedDecision(db: Database, op: Op, k: int)
    requires 0 <= k < |db.messages| && (op.ResolveReview? ==> Exists(db.messages, op.id))
    ensures op.ResolveReview? ==> Moved(db, op, db.messages[k]) == db.messages[k]
  {
  }

  lemma NothingInserted(db: Database, op: Op)
    requires op.ResolveReview? ==> Exists(db.messages, op.id)
    ensures op.ResolveReview? ==> Inserted(db, op) == []
  {
  }

  /** A stored row is found again, moved as the transaction says. */
  lemma RowStays(db: Database, op: Op, id: MessageId)
    requires WellFormed(db) && Step(db, op).Success? && Exists(db.messages, id)
    ensures var next := Step(db, op).value;
            && Exists(next.messages, id) && Row(next.messages, id) == Moved(db, op, Row(db.messages, id))
            && ClassKept(op, Row(db.messages, id), Row(next.messages, id))
  {
    hide Step;
    var k := IndexOf(db.messages, id);
    StepRows(db, op);
    StepKeeps(db, op);
    MovedClass(db, op, k);
    IndexUnique(Step(db, op).value.messages, k);
  }

  lemma StillOpen(db: Database, op: Op, id: MessageId)
    requires WellFormed(db) && Step(db, op).Success? && !op.BeginDispatch? && Exists(db.messages, id)
    requires OpenRow(Step(db, op).value.messages, id)
    ensures OpenRow(db.messages, id)
  {
    hide Step;
    RowStays(db, op, id);
  }

  lemma StillNotQueued(db: Database, op: Op, id: MessageId)
    requires WellFormed(db) && Step(db, op).Success? && NotQueued(db.messages, id)
    requires op.ResolveReview? ==> Exists(db.messages, op.id)
    ensures NotQueued(Step(db, op).value.messages, id)
  {
    hide Step;
    RowStays(db, op, id);
    RepeatedDecision(db, op, IndexOf(db.messages, id));
  }

  /** The dispatch of the head takes it out of the stored queue; in memory it still stands first. */
  lemma HeadTaken(m: Memory, db: Database, lost: set<MessageId>)
    requires WellFormed(db) && m.queue != [] && Step(db, BeginDispatch(m.queue[0])).Success? && QueueKnown(m, db.messages, lost)
    ensures m.queue == QueueBut(db.messages, lost)
    ensures QueueKnown(m, Step(db, BeginDispatch(m.queue[0])).value.messages, lost)
  {
    hide QueueBut;
    var op := BeginDispatch(m.queue[0]);
    var next := Step(db, op).value;
    BegunTarget(db, op);
    RowStays(db, op, op.id);
    var h := QueueHead(db.messages, lost);
    IndexUnique(db.messages, h);
    MovedOneRow(db, op, op.id);
    OneRowUpdate(db.messages, next.messages, op.id, h);
    QueuePop(db.messages, h, next.messages[h], lost);
  }

  /** A head that is no longer queued is not in the known queue. */
  lemma HeadDropped(m: Memory, ms: seq<Message>, lost: set<MessageId>)
    requires Distinct(ms) && m.queue != [] && QueueKnown(m, ms, lost) && NotQueued(ms, m.queue[0])
    ensures m.queue[1..] == QueueBut(ms, lost)
  {
    hide QueueBut;
    if m.queue == QueueBut(ms, lost) {
      var h := QueueHead(ms, lost);
      IndexUnique(ms, h);
    }
  }

  // ---- Alignment through transactions, answered or not

  /** A fresh decision concerns the open prompt or a held control, so nothing relies on the queue afterwards. */
  lemma DecisionAligned(m: Memory, db: Database, op: Op, lost: set<MessageId>)
    requires WellFormed(db) && OneActive(db.messages) && ReviewedHeld(m, db.messages)
    requires Aligned(m, true, db, lost) && Step(db, op).Success? && op.ResolveReview? && !Exists(db.messages, op.id)
    requires m.active.Some? ==> Exists(db.messages, m.active.value.id)
    ensures m.controls == [] ==> !Relying(m, Step(db, op).value.messages)
  {
    hide Step, QueueBut;
    ReviewableTarget(db, op);
    var t := IndexOf(db.messages, op.target);
    if m.controls == [] {
      assert !Holds(m, op.target);
      assert Active(db.messages[t]);
      if m.active.Some? {
        var a := IndexOf(db.messages, m.active.value.id);
        RowStays(db, op, m.active.value.id);
        if a == t {
          DecidedRow(db, op);
        } else {
          assert !Active(db.messages[a]);
        }
      }
    }
  }

  lemma DecidedRow(db: Database, op: Op)
    requires op.ResolveReview? && !Exists(db.messages, op.id) && Exists(db.messages, op.target)
    requires IsPrompt(Row(db.messages, op.target).kind)
    ensures !Active(Moved(db, op, Row(db.messages, op.target)))
  {
  }

  /**
   Any transaction on something in hand leaves the queue in memory the stored one but for the
   overlooked prompts; a prompt it accepts is overlooked until its acceptance is answered.
   */
  lemma AlignKept(m: Memory, loaded: bool, db: Database, op: Op, ordinary: set<TurnId>, lost: set<MessageId>)
    requires InTouch(m, loaded, db, ordinary) && Aligned(m, loaded, db, lost) && WellFormed(db) && OneActive(db.messages)
    requires Step(db, op).Success? && InHand(m, db, op)
    ensures Aligned(m, loaded, Step(db, op).value, lost + FreshPrompt(db, op))
  {
    hide Step, QueueBut, ActiveKnown, WellFormed, OneActive, NoReviewedPrompts;
    if loaded {
      var next := Step(db, op).value;
      StatusAligned(m, db, op);
      if m.controls == [] && Relying(m, next.messages) {
        assert lost + {} == lost;
        if op.ResolveReview? && !Exists(db.messages, op.id) {
          DecisionAligned(m, db, op, lost);
        } else if op.BeginDispatch? {
          HeadTaken(m, db, lost);
        } else {
          if m.active.Some? && OpenRow(next.messages, m.active.value.id) {
            StillOpen(db, op, m.active.value.id);
          }
          QueueStep(db, op, lost);
          if m.queue != [] && NotQueued(db.messages, m.queue[0]) {
            StillNotQueued(db, op, m.queue[0]);
          }
        }
      }
    }
  }

  lemma StatusAligned(m: Memory, db: Database, op: Op)
    requires WellFormed(db) && Step(db, op).Success? && InHand(m, db, op)
    requires IsReady(m) ==> db.status == Ready && NoReviewedPrompts(db.messages)
    ensures IsReady(m) ==> Step(db, op).value.status == Ready && NoReviewedPrompts(Step(db, op).value.messages)
  {
    hide Step, NoReviewedPrompts, WellFormed;
    if IsReady(m) {
      StepColumns(db, op);
      PromptReviewsStep(db, op);
    }
  }

  // ---- Commits, answered or not ----------------------------------------------------------------------

  lemma DurableParts(db: Database, j: Journal)
    requires Durable(db, j)
    ensures WellFormed(db) && OneActive(db.messages) && PromptsStored(db.messages, AcceptedPrompts(j))
  {
  }

  /** The only prompt a lost answer can hide is the one stored for the first time. */
  lemma LostIsFresh(db: Database, j: Journal, op: Op, next: Database)
    requires PromptsStored(db.messages, AcceptedPrompts(j)) && Step(db, op) == Success(next)
    ensures NewlyLost(j, Committed(op, next, false)) == FreshPrompt(db, op)
  {
    hide Step;
    if op.Accept? && Exists(db.messages, op.id) {
      ReplayedKind(db, op);
    }
  }

  /** A commit whose answer was lost leaves the coordinator in touch, and the prompt it stored overlooked. */
  lemma LostAgrees(m: Memory, loaded: bool, fault: bool, db: Database, j: Journal, op: Op, next: Database, now: Journal)
    requires Agrees(m, loaded, fault, db, j) && Durable(db, j) && InHand(m, db, op)
    requires Step(db, op) == Success(next) && now == j + [Committed(op, next, false)]
    ensures Agrees(m, loaded, fault, next, now)
  {
    hide InTouch, InStep, Step, InHand, Aligned, Durable, WellFormed, OneActive, PromptsStored;
    DurableParts(db, j);
    TouchKept(m, loaded, db, op, OrdinaryTurns(j));
    AlignKept(m, loaded, db, op, OrdinaryTurns(j), Overlooked(j));
    LostIsFresh(db, j, op, next);
    CommitKeepsTurns(j, Committed(op, next, false));
    assert !AllAnswered(now) by {
      assert Last(now) == Committed(op, next, false);
    }
  }

  /** An answered transaction keeps an unchanged memory in touch; a new prompt still has to join its queue. */
  lemma AnsweredTouch(m: Memory, loaded: bool, db: Database, j: Journal, op: Op, next: Database, now: Journal)
    requires InTouch(m, loaded, db, OrdinaryTurns(j)) && Aligned(m, loaded, db, Overlooked(j))
    requires Durable(db, j) && InHand(m, db, op) && Answers(db, j, op, next, now)
    ensures InTouch(m, loaded, next, OrdinaryTurns(now))
    ensures Overlooked(now) == Overlooked(j)
    ensures FreshPrompt(db, op) == {} ==> Aligned(m, loaded, next, Overlooked(now))
    ensures Aligned(m, loaded, next, Overlooked(now) + FreshPrompt(db, op))
    ensures AllAnswered(now) ==> AllAnswered(j)
    ensures WellFormed(db) && WellFormed(next)
  {
    hide InTouch, Step, InHand, Aligned, Durable, WellFormed, OneActive, PromptsStored;
    DurableParts(db, j);
    StepKeeps(db, op);
    TouchKept(m, loaded, db, op, OrdinaryTurns(j));
    AlignKept(m, loaded, db, op, OrdinaryTurns(j), Overlooked(j));
    CommitKeepsTurns(j, Committed(op, next, true));
    assert Front(now) == j;
    assert Overlooked(j) + {} == Overlooked(j);
  }

  // ---- Changes of memory alone ------------------------------------------------------------------------

  lemma FrozenAgrees(m: Memory, loaded: bool, fault: bool, db: Database, j: Journal, s: Option<Status>)
    requires Agrees(m, loaded, fault, db, j) && s != Some(Ready)
    ensures Agrees(m.(status := s), loaded, fault, db, j)
  {
    hide QueueBut, NoReviewedPrompts;
    if AllAnswered(j) {
      Frozen(m, loaded, fault, db, s);
    }
    SameHands(m, m.(status := s));
  }

  /** Memories with the same bindings have the same things in hand. */
  lemma SameHands(m: Memory, m': Memory)
    requires m'.controls == m.controls
    ensures forall id :: Holds(m, id) == Holds(m', id)
    ensures m'.active == m.active && m'.queue == m.queue ==> forall id :: AtHand(m, id) == AtHand(m', id)
  {
  }

  lemma FaultAgrees(m: Memory, loaded: bool, fault: bool, fault': bool, db: Database, j: Journal)
    requires Agrees(m, loaded, fault, db, j) && (m.active == None || !fault')
    ensures Agrees(m, loaded, fault', db, j)
  {
    hide InTouch, Aligned;
    if AllAnswered(j) {
      FaultIrrelevant(m, loaded, fault, fault', db);
    }
  }

  /** Right after the image was read nothing is overlooked, and memory holds exactly what is stored. */
  lemma LoadedAgrees(db: Database, fault: bool, j: Journal)
    requires Durable(db, j) && Overlooked(j) == {}
    ensures Agrees(Loaded(db), true, fault, db, j)
    ensures Fresh(Loaded(db), db)
    ensures Loaded(db).controls == [] <==> NoControls(db.messages)
    ensures ControlsHeld(Loaded(db), db.messages)
  {
    hide InStep, AllBound, LogPublic, HidesQuestions, ShowsPrompts, Orderly, PromptsStored, Aligned, InTouch;
    LoadedInStep(db, fault);
    LoadedTouch(db, OrdinaryTurns(j));
    LoadedAligned(db);
  }

  lemma LoadedAligned(db: Database)
    ensures Aligned(Loaded(db), true, db, {})
  {
    hide QueueBut;
  }

  lemma LoadedTouch(db: Database, ordinary: set<TurnId>)
    requires WellFormed(db) && OneActive(db.messages) && AllBound(db.messages, ordinary)
    requires ControlsHeld(Loaded(db), db.messages)
    ensures InTouch(Loaded(db), true, db, ordinary)
  {
    hide WellFormed;
    var m := Loaded(db);
    var i := ActiveIndex(db.messages);
    if i != -1 {
      IndexUnique(db.messages, i) by {
        assert Distinct(db.messages) by { DistinctRows(db); }
      }
      assert Bound(db.messages[i], ordinary);
    }
    assert ActiveKnown(m, db.messages);
    forall k | 0 <= k < |db.messages| && IsControl(db.messages[k].kind) && db.messages[k].state == NeedsReview
      ensures Holds(m, db.messages[k].id)
    {
      assert PendingControl(db.messages[k]);
    }
  }

  lemma DistinctRows(db: Database)
    requires WellFormed(db)
    ensures Distinct(db.messages)
  {
  }

  lemma RenamedAgrees(m: Memory, k: int, b: Binding, loaded: bool, fault: bool, db: Database, j: Journal)
    requires Agrees(m, loaded, fault, db, j) && 0 <= k < |m.controls| && b.id == m.controls[k].id
    ensures Agrees(m.(controls := m.controls[k := b]), loaded, fault, db, j)
  {
    hide QueueBut, NoReviewedPrompts, InStep;
    var m' := m.(controls := m.controls[k := b]);
    if AllAnswered(j) {
      RenamedControl(m, k, b, loaded, fault, db);
    }
    forall id | Holds(m, id)
      ensures Holds(m', id)
    {
      var i :| 0 <= i < |m.controls| && m.controls[i].id == id;
      assert m'.controls[i].id == id;
    }
    assert forall id :: AtHand(m, id) == AtHand(m', id);
  }

  // ---- Answered transactions, and the memory after them -------------------------------------------------

  /** The rows, the thread and the status stay: nothing changes for the coordinator. */
  lemma RowsKeptAgree(m: Memory, loaded: bool, fault: bool, db: Database, j: Journal, op: Op, next: Database, now: Journal)
    requires Agrees(m, loaded, fault, db, j) && Durable(db, j) && InHand(m, db, op) && Answers(db, j, op, next, now)
    requires next.messages == db.messages && next.thread == db.thread && (next.status == db.status || !IsReady(m))
    requires op.Accept? ==> Exists(db.messages, op.id)
    ensures Agrees(m, loaded, fault, next, now)
  {
    hide InTouch, InStep, Step, Aligned, Durable;
    AnsweredTouch(m, loaded, db, j, op, next, now);
    if AllAnswered(now) {
      if next.status == db.status {
        UnchangedRows(m, loaded, fault, db, next);
      } else {
        StoredStatus(m, loaded, fault, db, next);
      }
    }
  }

  /** The room's status is stored and taken over. */
  lemma StatusAgrees(m: Memory, fault: bool, db: Database, j: Journal, s: Status, next: Database, now: Journal)
    requires Agrees(m, true, fault, db, j) && Durable(db, j) && Answers(db, j, SetRoomStatus(s), next, now)
    requires s == Ready || !IsReady(m)
    requires s == Ready ==>
               && db.thread != 0 && NoReviewedPrompts(db.messages)
               && (m.controls == [] ==> QueueKnown(m, db.messages, Overlooked(j)))
    requires AllAnswered(j) && s == Ready ==>
               ActiveMatches(m, db.messages) && (m.controls == [] ==> QueueMatches(m, db.messages))
    ensures Agrees(m.(status := Some(s)), true, fault, next, now)
  {
    hide InStep, Step, ActiveMatches, QueueMatches, Durable, QueueBut, NoReviewedPrompts;
    SetStatusStep(db, s);
    AnsweredTouch(m, true, db, j, SetRoomStatus(s), next, now);
    if AllAnswered(now) {
      StatusInStep(m, fault, db, s, next);
    }
    SameHands(m, m.(status := Some(s)));
  }

  /** Taking the head of the queue for the active prompt, once it is stored as such. */
  lemma BegunAgrees(m: Memory, fault: bool, db: Database, j: Journal, next: Database, now: Journal)
    requires Agrees(m, true, fault, db, j) && Durable(db, j)
    requires IsReady(m) && m.active == None && m.controls == [] && m.queue != []
    requires Answers(db, j, BeginDispatch(m.queue[0]), next, now) && !FrontierHeld(j, db)
    ensures Agrees(m.(active := Some(Binding(m.queue[0], 0, Dispatching))), true, fault, next, now)
    ensures AllAnswered(now) ==> m.queue == [m.queue[0]] + Queue(next.messages)
  {
    hide InStep, Step, Queue, QueueBut, Durable, NoReviewedPrompts;
    var op := BeginDispatch(m.queue[0]);
    var m' := m.(active := Some(Binding(m.queue[0], 0, Dispatching)));
    AnsweredTouch(m, true, db, j, op, next, now);
    if AllAnswered(now) {
      AnsweredBefore(j, |j|);
      BegunInStep(m, fault, db, j);
    }
    SameHands(m, m');
    BegunPrompt(db, op, next);
  }

  lemma BegunPrompt(db: Database, op: Op, next: Database)
    requires WellFormed(db) && op.BeginDispatch? && Step(db, op) == Success(next)
    ensures IsPromptOf(next, op.id)
  {
    BegunTarget(db, op);
    StepKeeps(db, op);
    PromptKept(db, next, op.id);
  }

  /** The active prompt changes its state; whatever is in hand stays in hand. */
  lemma ActiveTouch(m: Memory, db: Database, ordinary: set<TurnId>, b: Binding, queue': seq<MessageId>)
    requires InTouch(m, true, db, ordinary) && m.active.Some? && b.id == m.active.value.id
    requires b.turn == m.active.value.turn || b.turn in ordinary
    ensures InTouch(m.(active := Some(b), queue := queue'), true, db, ordinary)
  {
    var m' := m.(active := Some(b), queue := queue');
    SameHands(m, m');
    assert forall id :: AtHand(m, id) == AtHand(m', id);
  }

  /** The active prompt changes its state, and leaves the queue if it still headed it. */
  lemma ActiveAligned(m: Memory, db: Database, lost: set<MessageId>, b: Binding, queue': seq<MessageId>)
    requires Aligned(m, true, db, lost) && m.active.Some? && b.id == m.active.value.id
    requires queue' == m.queue
             || (m.queue != [] && queue' == m.queue[1..] && Distinct(db.messages) && NotQueued(db.messages, m.queue[0]))
    ensures Aligned(m.(active := Some(b), queue := queue'), true, db, lost)
  {
    hide QueueBut, NoReviewedPrompts;
    if m.controls == [] && Relying(m, db.messages) && queue' != m.queue {
      HeadDropped(m, db.messages, lost);
    }
  }

  lemma IdleTouch(m: Memory, db: Database, ordinary: set<TurnId>, queue': seq<MessageId>)
    requires InTouch(m, true, db, ordinary) && Idle(db.messages)
    ensures InTouch(m.(active := None, queue := queue'), true, db, ordinary)
  {
    SameHands(m, m.(active := None, queue := queue'));
  }

  lemma IdleAligned(m: Memory, db: Database, lost: set<MessageId>, queue': seq<MessageId>)
    requires Aligned(m, true, db, lost)
    requires queue' == m.queue
             || (m.queue != [] && queue' == m.queue[1..] && Distinct(db.messages) && NotQueued(db.messages, m.queue[0]))
    ensures Aligned(m.(active := None, queue := queue'), true, db, lost)
  {
    hide QueueBut, NoReviewedPrompts;
    if m.controls == [] && Relying(m, db.messages) && queue' != m.queue {
      HeadDropped(m, db.messages, lost);
    }
  }

  /** After its own transaction the dispatched prompt is no longer queued. */
  lemma SettledHead(db: Database, op: Op, next: Database)
    requires WellFormed(db) && Step(db, op) == Success(next)
    requires op.FailDispatch? || op.BindRunningTurn? || (op.MarkNeedsReview? && Exists(db.messages, op.id))
    ensures NotQueued(next.messages, op.id)
  {
    hide Step;
    AnsweredTarget(db, op);
    RowStays(db, op, op.id);
  }

  lemma AnsweredTarget(db: Database, op: Op)
    requires Step(db, op).Success? && (op.FailDispatch? || op.BindRunningTurn? || op.MarkNeedsReview?)
    ensures Exists(db.messages, op.id) && !QueuedPrompt(Row(db.messages, op.id))
    ensures op.FailDispatch? ==> op.state != Queued
  {
  }

  lemma FailedAgrees(m: Memory, fault: bool, db: Database, j: Journal, op: Op, next: Database, now: Journal)
    requires Agrees(m, true, fault, db, j) && Durable(db, j) && m.active.Some? && m.active.value.state == Dispatching
    requires AllAnswered(j) ==> m.queue == [m.active.value.id] + Queue(db.messages)
    requires op.FailDispatch? && op.id == m.active.value.id && op.state == Failed && Answers(db, j, op, next, now)
    requires m.queue != [] && m.queue[0] == op.id
    ensures Agrees(m.(active := None, queue := m.queue[1..]), true, fault, next, now)
  {
    hide InTouch, InStep, Step, Queue, Aligned, Durable, WellFormed, OneActive, PromptsStored;
    DurableParts(db, j);
    AnsweredTouch(m, true, db, j, op, next, now);
    FailedIdle(db, op);
    SettledHead(db, op, next);
    DistinctRows(next);
    IdleTouch(m, next, OrdinaryTurns(now), m.queue[1..]);
    IdleAligned(m, next, Overlooked(now), m.queue[1..]);
    if AllAnswered(now) {
      FailedInStep(m, fault, db, j, op);
    }
  }

  lemma FailedIdle(db: Database, op: Op)
    requires WellFormed(db) && OneActive(db.messages) && op.FailDispatch? && op.state == Failed && Step(db, op).Success?
    ensures Idle(Step(db, op).value.messages)
  {
    FailedTarget(db, op);
    MovedOneRow(db, op, op.id);
    FailedRow(db, op);
    OneRowIdle(db.messages, Step(db, op).value.messages, op.id);
  }

  lemma FailedRow(db: Database, op: Op)
    requires op.FailDispatch? && Step(db, op).Success?
    ensures Exists(db.messages, op.id) && Active(Row(db.messages, op.id))
  {
  }

  lemma UncertainAgrees(m: Memory, fault: bool, db: Database, j: Journal, op: Op, next: Database, now: Journal)
    requires Agrees(m, true, fault, db, j) && Durable(db, j) && !IsReady(m)
    requires m.active.Some? && m.active.value.state == Dispatching && m.queue != [] && m.queue[0] == m.active.value.id
    requires AllAnswered(j) ==> m.queue == [m.active.value.id] + Queue(db.messages)
    requires op.MarkNeedsReview? && op.id == m.active.value.id && Answers(db, j, op, next, now) && IsPromptOf(db, op.id)
    ensures Agrees(m.(active := Some(m.active.value.(state := NeedsReview)), queue := m.queue[1..]), true, fault, next, now)
  {
    hide InTouch, InStep, Step, Queue, Aligned, Durable, WellFormed, OneActive, PromptsStored;
    AnsweredTouch(m, true, db, j, op, next, now);
    SettledHead(db, op, next);
    DistinctRows(next);
    ActiveTouch(m, next, OrdinaryTurns(now), m.active.value.(state := NeedsReview), m.queue[1..]);
    ActiveAligned(m, next, Overlooked(now), m.active.value.(state := NeedsReview), m.queue[1..]);
    if AllAnswered(now) {
      UncertainInStep(m, fault, db, op);
    }
  }

  lemma RunningAgrees(m: Memory, fault: bool, db: Database, j: Journal, op: Op, next: Database, now: Journal)
    requires Agrees(m, true, fault, db, j) && Durable(db, j)
    requires m.active.Some? && m.active.value.state == Dispatching && m.queue != [] && m.queue[0] == m.active.value.id
    requires AllAnswered(j) ==> m.queue == [m.active.value.id] + Queue(db.messages)
    requires op.BindRunningTurn? && op.id == m.active.value.id && Answers(db, j, op, next, now) && op.turn in OrdinaryTurns(j)
    ensures Agrees(m.(active := Some(Binding(op.id, op.turn, Running)), queue := m.queue[1..]), true, fault, next, now)
  {
    hide InTouch, InStep, Step, Queue, Aligned, Durable, WellFormed, OneActive, PromptsStored;
    AnsweredTouch(m, true, db, j, op, next, now);
    CommitKeepsTurns(j, Committed(op, next, true));
    SettledHead(db, op, next);
    DistinctRows(next);
    ActiveTouch(m, next, OrdinaryTurns(now), Binding(op.id, op.turn, Running), m.queue[1..]);
    ActiveAligned(m, next, Overlooked(now), Binding(op.id, op.turn, Running), m.queue[1..]);
    if AllAnswered(now) {
      RunningInStep(m, fault, db, op);
    }
  }

  /** The active turn's end: both sides are idle, and what memory holds as its queue is the known one. */
  lemma FinishedAgrees(m: Memory, fault: bool, db: Database, j: Journal, op: Op, next: Database, now: Journal)
    requires Agrees(m, true, fault, db, j) && Durable(db, j) && m.active.Some?
    requires AllAnswered(j) ==> Matches(m.active.value, db.messages) && Active(Row(db.messages, m.active.value.id))
                                && (m.controls == [] ==> QueueMatches(m, db.messages))
    requires op.FinishTurn? && op.turn == m.active.value.turn && Answers(db, j, op, next, now)
    ensures Agrees(m.(active := None), true, fault, next, now)
    ensures Idle(next.messages) && !FrontierHeld(now, next) && next.thread != 0
    ensures m.controls == [] ==> QueueKnown(m.(active := None), next.messages, Overlooked(now))
    ensures AllAnswered(now) && m.controls == [] ==> m.queue == Queue(next.messages)
    ensures Fresh(m, db) ==> Fresh(m.(active := None), next)
  {
    hide InTouch, InStep, Step, Queue, QueueBut, Aligned, Durable, QueueMatches, WellFormed, OneActive, PromptsStored, Fresh;
    DurableParts(db, j);
    AnsweredTouch(m, true, db, j, op, next, now);
    CommitColumns(db, j, op, next, Committed(op, next, true));
    FinishAllowed(db, j, op);
    IdleTouch(m, next, OrdinaryTurns(now), m.queue);
    IdleAligned(m, next, Overlooked(now), m.queue);
    FinishedQueue(m, db, OrdinaryTurns(j), op, next, Overlooked(j));
    if AllAnswered(now) {
      FinishedInStep(m, fault, db, j, op);
    }
    if Fresh(m, db) {
      FinishedFresh(m, db, op, next);
    }
  }

  lemma FinishedFresh(m: Memory, db: Database, op: Op, next: Database)
    requires Fresh(m, db) && WellFormed(db) && op.FinishTurn? && Step(db, op) == Success(next) && Idle(next.messages)
    ensures Fresh(m.(active := None), next)
  {
    hide Step, QueueBut;
    QueueStep(db, op, {});
    assert {} + FreshPrompt(db, op) == {};
  }

  /** The turn that ended was the active prompt's, so its coordinator relied on the queue. */
  lemma FinishedQueue(m: Memory, db: Database, ordinary: set<TurnId>, op: Op, next: Database, lost: set<MessageId>)
    requires InTouch(m, true, db, ordinary) && Aligned(m, true, db, lost) && WellFormed(db) && m.active.Some?
    requires op.FinishTurn? && Step(db, op) == Success(next)
    ensures m.controls == [] ==> QueueKnown(m.(active := None), next.messages, lost)
  {
    hide Step, QueueBut, NoReviewedPrompts, ReviewedHeld, BindingSound, WellFormed;
    FinishedTurn(db, op);
    var i := BoundIndex(db.messages, op.turn);
    assert AtHand(m, db.messages[i].id);
    DistinctRows(db);
    IndexUnique(db.messages, i);
    if m.controls == [] {
      QueueStep(db, op, lost);
      assert lost + FreshPrompt(db, op) == lost;
      if m.queue != [] && NotQueued(db.messages, m.queue[0]) {
        StillNotQueued(db, op, m.queue[0]);
      }
    }
  }

  /** The active prompt goes into review. */
  lemma ReviewedAgrees(m: Memory, fault: bool, fault': bool, db: Database, j: Journal, op: Op, next: Database, now: Journal)
    requires Agrees(m, true, fault, db, j) && Durable(db, j) && m.active.Some? && !IsReady(m)
    requires op.MarkNeedsReview? && op.id == m.active.value.id && Answers(db, j, op, next, now) && IsPromptOf(db, op.id)
    ensures Agrees(m.(active := Some(m.active.value.(state := NeedsReview))), true, fault', next, now)
    ensures Fresh(m, db) ==> Fresh(m.(active := Some(m.active.value.(state := NeedsReview))), next)
  {
    hide InTouch, InStep, Step, Queue, Fresh, Aligned, Durable, WellFormed, OneActive, PromptsStored;
    AnsweredTouch(m, true, db, j, op, next, now);
    ActiveTouch(m, next, OrdinaryTurns(now), m.active.value.(state := NeedsReview), m.queue);
    ActiveAligned(m, next, Overlooked(now), m.active.value.(state := NeedsReview), m.queue);
    if AllAnswered(now) {
      ReviewMatches(m, fault, db, op.code);
      ReviewedInStep(m, fault, fault', db, op, m.queue);
    }
    if Fresh(m, db) {
      ReviewedFresh(m, db, op);
    }
  }

  /** A command is accepted: a new row, and its place in memory. */
  lemma AcceptedAgrees(m: Memory, loaded: bool, fault: bool, db: Database, j: Journal, op: Op, next: Database, now: Journal, m': Memory)
    requires Agrees(m, loaded, fault, db, j) && Durable(db, j) && Answers(db, j, op, next, now)
    requires op.Accept? && !Exists(db.messages, op.id)
    requires m' == (if op.kind == Prompt then m.(queue := m.queue + [op.id])
                    else if IsControl(op.kind) then m.(controls := m.controls + [Binding(op.id, op.expected, Dispatching)]) else m)
    ensures Agrees(m', loaded, fault, next, now)
    ensures IsControl(op.kind) && loaded && |m'.controls| <= 1 && AllAnswered(now) && Relies(m', fault) ==>
              QueueMatches(m', next.messages)
    ensures IsControl(op.kind) && loaded && |m'.controls| <= 1 && Relying(m', next.messages) ==>
              QueueKnown(m', next.messages, Overlooked(now))
  {
    hide InStep, Step, Queue, QueueBut, Relies, QueueMatches, Durable, WellFormed, OneActive, PromptsStored, Aligned, InTouch;
    AnsweredTouch(m, loaded, db, j, op, next, now);
    MoreTouch(m, m', loaded, next, OrdinaryTurns(now));
    AcceptStep(db, op);
    AcceptedKind(db, op);
    var row := Inserted(db, op)[0];
    assert next.messages == db.messages + [row];
    AcceptedAligned(m, m', loaded, db, j, op, next, row, Overlooked(now));
    if AllAnswered(now) {
      AcceptedInStep(m, loaded, fault, db, next, row, m');
      if IsControl(op.kind) {
        FirstControl(m, loaded, fault, db, next, row, Binding(op.id, op.expected, Dispatching));
      }
    }
  }

  lemma MoreTouch(m: Memory, m': Memory, loaded: bool, db: Database, ordinary: set<TurnId>)
    requires InTouch(m, loaded, db, ordinary)
    requires m'.active == m.active && m'.status == m.status && m.queue <= m'.queue && m.controls <= m'.controls
    ensures InTouch(m', loaded, db, ordinary)
  {
    MoreInHand(m, m');
  }

  /** What the coordinator was told of joins its queue; a control leaves the queue as it is. */
  lemma AcceptedAligned(m: Memory, m': Memory, loaded: bool, db: Database, j: Journal, op: Op, next: Database, row: Message,
                        lost: set<MessageId>)
    requires Aligned(m, loaded, next, lost + FreshPrompt(db, op)) && Durable(db, j) && lost == Overlooked(j)
    requires op.Accept? && !Exists(db.messages, op.id) && (op.kind == Prompt || op.kind == Note || IsControl(op.kind))
    requires next.messages == db.messages + [row] && [row] == Inserted(db, op)
    requires m' == (if op.kind == Prompt then m.(queue := m.queue + [op.id])
                    else if IsControl(op.kind) then m.(controls := m.controls + [Binding(op.id, op.expected, Dispatching)]) else m)
    ensures Aligned(m', loaded, next, lost)
    ensures IsControl(op.kind) && loaded && |m'.controls| <= 1 && Relying(m', next.messages) ==>
              QueueKnown(m', next.messages, lost)
  {
    hide QueueBut, Durable, NoReviewedPrompts, Exists, WellFormed;
    if op.kind == Prompt {
      JoinedQueue(db, j, row, lost);
      assert FreshPrompt(db, op) == {op.id};
      OpenBefore(next.messages, m, m');
    } else {
      assert lost + {} == lost;
    }
  }

  lemma OpenBefore(ms: seq<Message>, m: Memory, m': Memory)
    requires m'.active == m.active && m'.status == m.status
    ensures Relying(m', ms) == Relying(m, ms)
  {
  }

  /** A new prompt is last in the queue, once it is not overlooked. */
  lemma JoinedQueue(db: Database, j: Journal, row: Message, lost: set<MessageId>)
    requires Durable(db, j) && lost == Overlooked(j) && !Exists(db.messages, row.id) && QueuedPrompt(row)
    ensures QueueBut(db.messages + [row], lost) == QueueBut(db.messages + [row], lost + {row.id}) + [row.id]
  {
    hide QueueBut, Durable, WellFormed;
    LostAccepted(j);
    DurableParts(db, j);
    assert row.id !in lost;
    QueueAppend(db.messages, row, lost);
    QueueAppend(db.messages, row, lost + {row.id});
    QueueSame(db.messages, db.messages, lost, lost + {row.id});
  }

  lemma AcceptedKind(db: Database, op: Op)
    requires op.Accept? && !Exists(db.messages, op.id) && Step(db, op).Success?
    ensures op.kind == Prompt || op.kind == Note || IsControl(op.kind)
    ensures |Inserted(db, op)| == 1
  {
  }

  lemma MoreInHand(m: Memory, m': Memory)
    requires m'.active == m.active && m.queue <= m'.queue && m.controls <= m'.controls
    ensures forall id :: AtHand(m, id) ==> AtHand(m', id)
    ensures forall id :: Holds(m, id) ==> Holds(m', id)
  {
    forall id | Holds(m, id)
      ensures Holds(m', id)
    {
      var i :| 0 <= i < |m.controls| && m.controls[i].id == id;
      assert m'.controls[i].id == id;
    }
  }

  /** A control ended or went into review, and its entry was dropped or marked. */
  lemma ControlAgrees(m: Memory, loaded: bool, fault: bool, db: Database, j: Journal, op: Op, next: Database, now: Journal,
                      controls': seq<Binding>)
    requires Agrees(m, loaded, fault, db, j) && Durable(db, j) && InHand(m, db, op)
    requires op.FinishControl? && Answers(db, j, op, next, now)
    requires forall id :: id != op.id && Holds(m, id) ==> Holds(m.(controls := controls'), id)
    requires op.state == NeedsReview ==> Holds(m.(controls := controls'), op.id) || !loaded
    requires controls' == [] ==> |m.controls| <= 1
    requires AllAnswered(j) && loaded && |m.controls| <= 1 && Relies(m, fault) ==> QueueMatches(m, db.messages)
    requires loaded && |m.controls| <= 1 && Relying(m, db.messages) ==> QueueKnown(m, db.messages, Overlooked(j))
    ensures Agrees(m.(controls := controls'), loaded, fault, next, now)
  {
    hide InStep, Step, Queue, QueueBut, Relies, QueueMatches, InHand, Holds, Durable, WellFormed, OneActive, PromptsStored, Aligned, InTouch;
    DurableParts(db, j);
    AnsweredTouch(m, loaded, db, j, op, next, now);
    if loaded {
      ControlTouch(m, db, op, next, controls', OrdinaryTurns(now));
      if m.active.Some? {
        BoundPrompt(m, db, OrdinaryTurns(j));
      }
      ControlAligned(m, db, op, next, controls', Overlooked(j));
    }
    if AllAnswered(now) {
      ControlInStep(m, loaded, fault, db, op, controls');
    }
    UntouchedUnloaded(m, m.(controls := controls'), loaded, next, OrdinaryTurns(now), Overlooked(now));
  }

  lemma BoundPrompt(m: Memory, db: Database, ordinary: set<TurnId>)
    requires InTouch(m, true, db, ordinary) && m.active.Some?
    ensures IsPromptOf(db, m.active.value.id)
  {
  }

  lemma UntouchedUnloaded(m: Memory, m': Memory, loaded: bool, db: Database, ordinary: set<TurnId>, lost: set<MessageId>)
    requires InTouch(m, loaded, db, ordinary) && m'.active == m.active && m'.status == m.status
    ensures !loaded ==> InTouch(m', loaded, db, ordinary) && Aligned(m', loaded, db, lost)
  {
  }

  lemma ControlAligned(m: Memory, db: Database, op: Op, next: Database, controls': seq<Binding>, lost: set<MessageId>)
    requires WellFormed(db) && op.FinishControl? && Step(db, op) == Success(next)
    requires Aligned(m, true, next, lost) && (controls' == [] ==> |m.controls| <= 1)
    requires |m.controls| <= 1 && Relying(m, db.messages) ==> QueueKnown(m, db.messages, lost)
    requires m.active.Some? ==> Exists(db.messages, m.active.value.id)
    ensures Aligned(m.(controls := controls'), true, next, lost)
  {
    hide Step, QueueBut, NoReviewedPrompts, InTouch, WellFormed;
    if controls' == [] && Relying(m, next.messages) {
      if m.active.Some? && OpenRow(next.messages, m.active.value.id) {
        StillOpen(db, op, m.active.value.id);
      }
      QueueStep(db, op, lost);
      assert lost + FreshPrompt(db, op) == lost;
      if m.queue != [] && NotQueued(db.messages, m.queue[0]) {
        StillNotQueued(db, op, m.queue[0]);
      }
    }
  }

  lemma ControlTouch(m: Memory, db: Database, op: Op, next: Database, controls': seq<Binding>, ordinary: set<TurnId>)
    requires WellFormed(db) && op.FinishControl? && Step(db, op) == Success(next) && InTouch(m, true, next, ordinary)
    requires forall id :: id != op.id && Holds(m, id) ==> Holds(m.(controls := controls'), id)
    requires op.state == NeedsReview ==> Holds(m.(controls := controls'), op.id)
    ensures InTouch(m.(controls := controls'), true, next, ordinary)
  {
    hide Step, Holds;
    ControlTarget(db, op);
    OutcomeStates(db, op);
    MovedOneRow(db, op, op.id);
    OneRowIndex(db.messages, next.messages, op.id, op.id);
    forall k | 0 <= k < |next.messages| && IsControl(next.messages[k].kind) && next.messages[k].state == NeedsReview
      ensures Holds(m.(controls := controls'), next.messages[k].id)
    {
      IndexUnique(next.messages, k);
    }
    assert forall id :: AtHand(m, id) == AtHand(m.(controls := controls'), id);
  }

  /** Recovery puts a control it holds into review. */
  lemma ControlReviewedAgrees(m: Memory, fault: bool, db: Database, j: Journal, op: Op, next: Database, now: Journal)
    requires Agrees(m, true, fault, db, j) && Durable(db, j) && !IsReady(m) && Fresh(m, db)
    requires m.active.Some? ==> m.active.value.state == NeedsReview
    requires op.MarkNeedsReview? && Holds(m, op.id) && Answers(db, j, op, next, now)
    ensures Agrees(m, true, fault, next, now)
    ensures Fresh(m, next)
  {
    hide InTouch, InStep, Step, Queue, Fresh, Aligned, Durable, WellFormed, OneActive, PromptsStored;
    AnsweredTouch(m, true, db, j, op, next, now);
    MarkedControl(m, db, j, op);
    ControlFresh(m, db, op, next);
    if AllAnswered(now) {
      ControlReviewed(m, fault, db, op);
    }
  }

  lemma ControlFresh(m: Memory, db: Database, op: Op, next: Database)
    requires Fresh(m, db) && WellFormed(db) && op.MarkNeedsReview? && Step(db, op) == Success(next)
    requires Exists(db.messages, op.id) && IsControl(Row(db.messages, op.id).kind)
    ensures Fresh(m, next)
  {
    hide Step;
    MovedOneRow(db, op, op.id);
    OneRowQueue(db.messages, next.messages, op.id);
    if m.active.Some? && Exists(db.messages, m.active.value.id) {
      OneRowIndex(db.messages, next.messages, op.id, m.active.value.id);
    }
    ControlIdle(db.messages, next.messages, op.id);
  }

  /** A fresh decision leaves a frozen coordinator in touch and in step. */
  lemma ResolvedAgrees(m: Memory, loaded: bool, db: Database, j: Journal, op: Op, next: Database, now: Journal)
    requires Agrees(m, loaded, false, db, j) && Durable(db, j) && !IsReady(m)
    requires op.ResolveReview? && !Exists(db.messages, op.id) && Answers(db, j, op, next, now)
    ensures Agrees(m, loaded, false, next, now)
  {
    hide InTouch, InStep, Step, Aligned, Durable;
    AnsweredTouch(m, loaded, db, j, op, next, now);
    if AllAnswered(now) {
      ResolvedInStep(m, loaded, db, op, j);
    }
  }

  lemma ThreadBoundAgrees(m: Memory, fault: bool, db: Database, j: Journal, op: Op, next: Database, now: Journal)
    requires Agrees(m, true, fault, db, j) && Durable(db, j) && !IsReady(m)
    requires op.BindThread? && Answers(db, j, op, next, now)
    ensures Agrees(m.(thread := op.thread), true, fault, next, now)
  {
    hide InStep, Step, Durable, QueueBut, NoReviewedPrompts;
    AnsweredTouch(m, true, db, j, op, next, now);
    BindThreadStep(db, op.thread);
    if AllAnswered(now) {
      ThreadInStep(m, fault, db, next);
    }
    SameHands(m, m.(thread := op.thread));
  }

  /** A call of the agent, or a read of its history, leaves memory and tables as they stand to each other. */
  lemma CallAgrees(m: Memory, loaded: bool, fault: bool, question: Option<TurnId>, db: Database, j: Journal, e: Effect)
    requires Agrees(m, loaded, fault, db, j) && FrontierOwned(m, loaded, question, db, j)
    requires !e.Committed? && !e.ImageRead? && (question.Some? ==> !e.TurnStart? && !e.QuestionStart?)
    ensures Agrees(m, loaded, fault, db, j + [e]) && FrontierOwned(m, loaded, question, db, j + [e])
    ensures FrontierHeld(j + [e], db) == FrontierHeld(j, db)
    ensures KnownTurns(j) <= KnownTurns(j + [e])
    ensures !e.TurnStart? ==> OrdinaryTurns(j + [e]) == OrdinaryTurns(j)
    ensures !e.QuestionStart? ==> QuestionTurns(j + [e]) == QuestionTurns(j)
    ensures Overlooked(j + [e]) == Overlooked(j)
  {
    hide InStep, ActiveKnown, ReviewedHeld, Aligned;
    assert Front(j + [e]) == j && Last(j + [e]) == e;
    assert OrdinaryTurns(j) <= OrdinaryTurns(j + [e]);
    assert Overlooked(j + [e]) == Overlooked(j);
  }

  // ---- What a handler may send next -----------------------------------------------------------------------

  lemma BeginAllowed(m: Memory, loaded: bool, fault: bool, db: Database, j: Journal)
    requires Agrees(m, loaded, fault, db, j) && WellFormed(db) && !FrontierHeld(j, db)
    requires IsReady(m) && m.active == None && m.controls == [] && m.queue != []
    ensures loaded && db.thread != 0 && InHand(m, db, BeginDispatch(m.queue[0]))
    ensures Step(db, BeginDispatch(m.queue[0])).Success? ==> Disciplined(j, db, BeginDispatch(m.queue[0]))
  {
    hide InStep, Step, Quiet, QueueBut, NoReviewedPrompts;
    var op := BeginDispatch(m.queue[0]);
    if Step(db, op).Success? {
      BegunTarget(db, op);
      HeadTaken(m, db, Overlooked(j));
      forall k | 0 <= k < |db.messages|
        ensures !Active(db.messages[k])
      {
        IndexUnique(db.messages, k);
      }
      if AllAnswered(j) {
        AnsweredBefore(j, |j|);
        ReadyDispatch(m, fault, db);
      }
    }
  }

  lemma AskAllowed(m: Memory, loaded: bool, fault: bool, db: Database, j: Journal, baseline: set<TurnId>)
    requires Agrees(m, loaded, fault, db, j) && WellFormed(db) && !FrontierHeld(j, db)
    requires IsReady(m) && m.active == None && m.controls == [] && m.queue == []
    requires OrdinaryTurns(j) <= baseline <= KnownTurns(j)
    ensures loaded && db.thread != 0
    ensures Disciplined(j, db, BeginPrivateTurn(baseline))
  {
    hide InStep, Step, Quiet, QueueBut, NoReviewedPrompts;
    forall k | 0 <= k < |db.messages|
      ensures !Active(db.messages[k]) && !(IsControl(db.messages[k].kind) && db.messages[k].state == NeedsReview)
    {
      assert !AtHand(m, db.messages[k].id) && !Holds(m, db.messages[k].id);
    }
    if AllAnswered(j) {
      AnsweredBefore(j, |j|);
      ReadyQuiet(m, loaded, fault, db);
    }
  }

  /** The active prompt may be marked for review whenever the store would do it, once the room is frozen. */
  lemma MarkAllowed(m: Memory, fault: bool, db: Database, j: Journal, code: Code)
    requires Agrees(m, true, fault, db, j) && Durable(db, j) && m.active.Some? && !IsReady(m)
    ensures IsPromptOf(db, m.active.value.id)
    ensures var op := MarkNeedsReview(m.active.value.id, code);
            InHand(m, db, op) && (Step(db, op).Success? ==> Disciplined(j, db, op))
  {
    hide InStep, Step, Durable, Aligned;
    if Step(db, MarkNeedsReview(m.active.value.id, code)).Success? {
      ReviewAllowed(db, j, m.active.value.id, code);
    }
  }

  /** A turn the coordinator has in hand belongs to a prompt, so what it says may be stored. */
  lemma RecordAllowed(m: Memory, fault: bool, db: Database, j: Journal, item: Item)
    requires Agrees(m, true, fault, db, j) && Durable(db, j) && m.active.Some? && m.active.value.turn == item.turn
    ensures InHand(m, db, RecordCompletedItem(item))
    ensures Step(db, RecordCompletedItem(item)).Success? ==> Disciplined(j, db, RecordCompletedItem(item))
  {
    hide InStep, Step, Aligned, WellFormed, OneActive, Orderly, AllBound, LogPublic, PromptsStored, ShowsPrompts;
    if Step(db, RecordCompletedItem(item)).Success? {
      ItemStep(db, item);
    }
  }

  /** Memory as a recovery image left it, with nothing overlooked since. */
  ghost predicate Refreshed(m: Memory, db: Database, j: Journal) { Fresh(m, db) && Overlooked(j) == {} }

  lemma RefreshedQueue(m: Memory, db: Database, j: Journal)
    requires Refreshed(m, db, j)
    ensures QueueKnown(m, db.messages, Overlooked(j)) && QueueMatches(m, db.messages)
  {
    hide QueueBut, Overlooked;
  }

  /** A settled image may become ready: nothing is in review, and its queue is the stored one. */
  lemma SettledRoom(m: Memory, db: Database, lost: set<MessageId>)
    requires Fresh(m, db) && OneActive(db.messages) && lost == {}
    requires m.active.None? || m.active.value.state == Running
    ensures NoReviewedPrompts(db.messages) && QueueKnown(m, db.messages, lost)
  {
    hide QueueBut;
    if m.active.Some? {
      var a := IndexOf(db.messages, m.active.value.id);
      assert Active(db.messages[a]);
    }
    forall k | 0 <= k < |db.messages|
      ensures !(IsPrompt(db.messages[k].kind) && db.messages[k].state == NeedsReview)
    {
      assert m.active.None? ==> !Active(db.messages[k]);
    }
  }

  /** A coordinator that freezes relies on no more than before. */
  lemma FrozenQueue(m: Memory, s: Option<Status>, ms: seq<Message>, lost: set<MessageId>)
    requires s != Some(Ready)
    ensures Relying(m.(status := s), ms) ==> Relying(m, ms)
    ensures QueueKnown(m.(status := s), ms, lost) == QueueKnown(m, ms, lost)
  {
  }

  lemma IdleReviewed(ms: seq<Message>)
    requires Idle(ms)
    ensures NoReviewedPrompts(ms)
  {
  }

  /** A control the coordinator holds may be marked for review while no known frontier stands and the room is frozen. */
  lemma HeldOp(m: Memory, db: Database, j: Journal, op: Op)
    requires op.MarkNeedsReview? && Holds(m, op.id) && !FrontierHeld(j, db) && !IsReady(m)
    ensures InHand(m, db, op) && Disciplined(j, db, op)
  {
  }

  /** What recovery takes for hidden, given every turn the agent knows: all questions, and no prompt if frontiers were answered. */
  function HiddenTurns(db: Database, ids: set<TurnId>): set<TurnId>
  {
    db.hidden + if db.frontier.Some? then ids - db.frontier.value.baseline else {}
  }

  lemma HiddenAllowed(m: Memory, db: Database, j: Journal, ids: set<TurnId>)
    requires Durable(db, j) && OrdinaryTurns(j) + QuestionTurns(j) <= ids <= KnownTurns(j)
    ensures QuestionTurns(j) <= HiddenTurns(db, ids)
    ensures FrontiersAnswered(j) ==> OrdinaryTurns(j) !! HiddenTurns(db, ids)
    ensures forall t :: t in ids ==> (t in HiddenTurns(db, ids) <==> HiddenOnRecovery(db, t))
    ensures db.frontier.Some? ==>
              var op := EndPrivateTurn(ids - db.frontier.value.baseline); InHand(m, db, op) && Disciplined(j, db, op)
  {
    hide WellFormed, OneActive, Orderly, AllBound, LogPublic, PromptsStored;
  }

  /** A turn that is neither hidden nor unknown may be recorded. */
  lemma VisibleOp(m: Memory, db: Database, j: Journal, op: Op)
    requires op.RecordCompletedItem? && op.item.turn in KnownTurns(j) && op.item.turn !in QuestionTurns(j)
    ensures InHand(m, db, op) && Disciplined(j, db, op)
  {
  }

  /** A room without a thread has neither a frontier nor a prompt in the agent's hands. */
  lemma NoThread(db: Database, j: Journal)
    requires Durable(db, j) && db.thread == 0
    ensures db.frontier.None? && Idle(db.messages)
  {
  }

  // ---- The log -------------------------------------------------------------------------------------------

  predicate Logged(db: Database, item: Item) { ItemCompleted(item) in db.events.Values }

  ghost predicate LogGrew(db: Database, next: Database)
  {
    forall item :: Logged(db, item) ==> Logged(next, item)
  }

  lemma ExtendsLog(db: Database, next: Database)
    requires Extends(db, next)
    ensures LogGrew(db, next)
  {
    forall item | Logged(db, item)
      ensures Logged(next, item)
    {
      var s :| s in db.events && db.events[s] == ItemCompleted(item);
      assert next.events[s] == ItemCompleted(item);
    }
  }

  lemma ItemLogged(db: Database, item: Item)
    requires Step(db, RecordCompletedItem(item)).Success?
    ensures Logged(Step(db, RecordCompletedItem(item)).value, item)
  {
    var next := Step(db, RecordCompletedItem(item)).value;
    if !(exists s :: s in db.events && SameSlot(db.events[s], item)) {
      assert next.events[db.nextSeq] == ItemCompleted(item);
    }
  }

  /** These transactions ask nothing of the tables. */
  lemma FreeOp(m: Memory, db: Database, j: Journal, op: Op)
    requires op.Accept? || op.FinishTurn? || op.ResolveReview? || op.SetRoomStatus? || op.MarkThreadNeedsRepair?
             || op.ConvertTask? || op.CompleteTask? || op.ReopenTask?
    requires op.MarkThreadNeedsRepair? || (op.SetRoomStatus? && op.status != Ready) ==> !IsReady(m)
    ensures InHand(m, db, op) && Disciplined(j, db, op)
  {
  }

  lemma ControlOp(m: Memory, db: Database, j: Journal, op: Op)
    requires op.FinishControl? && (op.state == NeedsReview ==> !FrontierHeld(j, db) && Holds(m, op.id))
    ensures InHand(m, db, op) && Disciplined(j, db, op)
  {
  }

  /** What turn/start answered may be stored right after it. */
  lemma AnswerOp(m: Memory, db: Database, j: Journal, op: Op)
    requires j != []
    requires || (op.FailDispatch? && op.state == Failed && Last(j) == TurnStart(op.id, NotSent, None))
             || (op.BindRunningTurn? && Last(j) == TurnStart(op.id, Started(op.turn), Some(op.turn)))
    ensures InHand(m, db, op) && Disciplined(j, db, op)
  {
  }

  /** A process that has not loaded anything claims nothing. */
  lemma UnloadedAgrees(m: Memory, fault: bool, db: Database, j: Journal)
    requires m.active == None && !IsReady(m)
    ensures Agrees(m, false, fault, db, j)
  {
  }

  lemma ReadyHolds(m: Memory, loaded: bool, fault: bool, db: Database, j: Journal)
    requires Agrees(m, loaded, fault, db, j)
    ensures IsReady(m) || m.active.Some? ==> loaded
    ensures IsReady(m) ==> db.thread != 0
  {
  }

  lemma InStepNow(m: Memory, loaded: bool, fault: bool, db: Database, j: Journal)
    requires Agrees(m, loaded, fault, db, j) && AllAnswered(j)
    ensures InStep(m, loaded, fault, db)
  {
  }
}
