/**
 What a lost answer costs.  If the answer to a stored frontier is lost, the room stays ready and
 recovery can hide a turn that was begun for a prompt; if the answer to an acceptance is lost,
 prompts submitted later can overtake the stored one.  Both happen exactly then: no other lost
 answer hides a prompt or changes the order.
 */
module LostAnswers {
  import opened Wrappers
  import opened RoomStore
  import opened RoomStoreFacts
  import opened RoomTransitions
  import opened DispatchJournal
  import opened RoomSafety
  import opened RoomEnvironment
  import opened RoomMemory
  import opened RoomCoherence
  import opened RoomCoordinator

  // ---- Runs that go on with every answer given -------------------------------------

  /** `k` is a run that begins with `j` and loses no answer after it. */
  ghost predicate Continues(members: map<Uid, bool>, j: Journal, k: Journal)
  {
    && Safe(Initial(members), k) && j <= k
    && forall i :: |j| <= i < |k| && k[i].Committed? ==> k[i].answered
  }

  lemma Continue(members: map<Uid, bool>, j: Journal, k: Journal, e: Effect)
    requires Continues(members, j, k) && Allowed(Initial(members), k, e) && !e.ImageRead? && (e.Committed? ==> e.answered)
    ensures Continues(members, j, k + [e]) && Front(k + [e]) == k && Last(k + [e]) == e
    ensures Current(Initial(members), k + [e]) == if e.Committed? then e.db else Current(Initial(members), k)
    ensures e.Committed? ==> KnownTurns(k + [e]) == KnownTurns(k)
    ensures e.Committed? && !e.op.BeginPrivateTurn? ==> Untold(k + [e]) == Untold(k)
    ensures !AllAnswered(k) ==> !AllAnswered(k + [e])
    ensures Overlooked(k + [e]) == Overlooked(k)
  {
    SafeExtend(Initial(members), k, e);
    assert NewlyLost(k, e) == {};
    assert Overlooked(k + [e]) == Overlooked(k) + {};
  }

  lemma {:induction false} FreshId(ms: seq<Message>) returns (id: MessageId)
    ensures forall k :: 0 <= k < |ms| ==> ms[k].id < id
  {
    id := 1;
    if ms != [] {
      var rest := FreshId(ms[1..]);
      id := if ms[0].id < rest then rest else ms[0].id + 1;
      assert forall k :: 1 <= k < |ms| ==> ms[k] == ms[1..][k - 1];
    }
  }

  lemma {:induction false} FreshTurn(turns: set<TurnId>) returns (turn: TurnId)
    ensures turn != 0 && forall t :: t in turns ==> t < turn
    decreases |turns|
  {
    turn := 1;
    if turns != {} {
      var t :| t in turns;
      var rest := FreshTurn(turns - {t});
      turn := if t < rest then rest else t + 1;
      assert turns == (turns - {t}) + {t};
    }
  }

  lemma {:induction false} MembersKept(members: map<Uid, bool>, j: Journal)
    requires Safe(Initial(members), j)
    ensures Current(Initial(members), j).members == members
    decreases |j|
  {
    if j != [] {
      MembersKept(members, Front(j));
      if Last(j).Committed? {
        StepMembers(Current(Initial(members), Front(j)), Last(j).op);
      }
    }
  }

  lemma StepMembers(db: Database, op: Op)
    requires Step(db, op).Success?
    ensures Step(db, op).value.members == db.members
  {
    match op
    case ResolveReview(_, _, _, _, _, _) => ResolveMembers(db, op);
    case _ =>
  }

  lemma ResolveMembers(db: Database, op: Op)
    requires op.ResolveReview? && Step(db, op).Success?
    ensures Step(db, op).value.members == db.members
  {
  }

  /** The tables after a member's new prompt, and after its dispatch. */
  function Submitted(db: Database, actor: Uid, id: MessageId): Database
  {
    WithMessage(Append(db, Accepted(id, Prompt, 0, Queued)), Message(id, Prompt, actor, 0, Queued, db.nextSeq, 0, NoCode))
  }

  function Begun(db: Database, actor: Uid, id: MessageId): Database
  {
    var next := Submitted(db, actor, id);
    next.(messages := db.messages + [Message(id, Prompt, actor, 0, Dispatching, db.nextSeq, 0, NoCode)])
  }

  lemma SubmittedSteps(db: Database, actor: Uid, id: MessageId, lost: set<MessageId>)
    requires actor in db.members && !Exists(db.messages, id) && QueueBut(db.messages, lost) == [] && id !in lost
    ensures Step(db, Accept(actor, id, Prompt, 0, 0, 0)) == Success(Submitted(db, actor, id))
    ensures Step(Submitted(db, actor, id), BeginDispatch(id)) == Success(Begun(db, actor, id))
    ensures Idle(db.messages) ==> Idle(Submitted(db, actor, id).messages)
    ensures QueueBut(Submitted(db, actor, id).messages, lost) == [id]
  {
    hide QueueBut;
    var ms := Submitted(db, actor, id).messages;
    assert ms[|ms| - 1].id == id && IndexOf(ms, id) == |ms| - 1;
    assert ms[|ms| - 1 := Revised(ms[|ms| - 1], Dispatching, 0, NoCode)] == Begun(db, actor, id).messages;
    QueueAppend(db.messages, ms[|ms| - 1], lost);
  }

  /** An idle, ready room with a thread and behind no known frontier. */
  predicate Calm(j: Journal, db: Database)
  {
    Idle(db.messages) && db.status == Ready && db.thread != 0 && !FrontierHeld(j, db)
  }

  /** After some lost answer, a calm room in which no prompt is known to wait may start one submitted now. */
  lemma StartsNewPrompt(members: map<Uid, bool>, j: Journal, actor: Uid) returns (k: Journal, id: MessageId, turn: TurnId)
    requires Safe(Initial(members), j) && actor in members && !AllAnswered(j)
    requires var db := Current(Initial(members), j); Calm(j, db) && QueueBut(db.messages, Overlooked(j)) == []
    ensures var db := Current(Initial(members), j);
            && Continues(members, j, k) && |k| == |j| + 3
            && !Exists(db.messages, id) && turn !in KnownTurns(j)
            && k[|j|] == Committed(Accept(actor, id, Prompt, 0, 0, 0), Submitted(db, actor, id), true)
            && k[|j| + 1] == Committed(BeginDispatch(id), Begun(db, actor, id), true)
            && k[|j| + 2] == TurnStart(id, Started(turn), Some(turn))
            && turn in OrdinaryTurns(k)
            && Current(Initial(members), k) == Begun(db, actor, id)
  {
    hide Step, QueueBut;
    var db := Current(Initial(members), j);
    id := FreshId(db.messages);
    turn := FreshTurn(KnownTurns(j));
    MembersKept(members, j);
    StoredOverlooked(members, j);
    SubmittedSteps(db, actor, id, Overlooked(j));
    var accepted := Committed(Accept(actor, id, Prompt, 0, 0, 0), Submitted(db, actor, id), true);
    var begun := Committed(BeginDispatch(id), Begun(db, actor, id), true);
    Continue(members, j, j, accepted);
    Continue(members, j, j + [accepted], begun);
    Continue(members, j, j + [accepted] + [begun], TurnStart(id, Started(turn), Some(turn)));
    k := j + [accepted] + [begun] + [TurnStart(id, Started(turn), Some(turn))];
  }

  /** An overlooked prompt is stored. */
  lemma StoredOverlooked(members: map<Uid, bool>, j: Journal)
    requires Safe(Initial(members), j)
    ensures forall id :: id in Overlooked(j) ==> Exists(Current(Initial(members), j).messages, id)
  {
    SafeIsDurable(members, j);
    DurableParts(Current(Initial(members), j), j);
    LostAccepted(j);
  }

  // ---- Hiding ------------------------------------------------------------------------

  predicate HidesNoPrompt(members: map<Uid, bool>, j: Journal)
  {
    forall turn :: turn in OrdinaryTurns(j) ==> !HiddenOnRecovery(Current(Initial(members), j), turn)
  }

  predicate EndsWithFrontier(j: Journal)
  {
    j != [] && Last(j).Committed? && Last(j).op.BeginPrivateTurn?
  }

  /** What a stored frontier leaves: a room in which nothing is known to wait, and a baseline of known turns. */
  lemma FrontierStored(members: map<Uid, bool>, j: Journal)
    requires Safe(Initial(members), j) && EndsWithFrontier(j)
    ensures var db := Current(Initial(members), j);
            && Idle(db.messages) && db.status == Ready && db.thread != 0 && db.frontier.Some?
            && db.frontier.value.baseline <= KnownTurns(j)
            && QueueBut(db.messages, Overlooked(j)) == []
            && db.messages == Current(Initial(members), Front(j)).messages
  {
    hide QueueBut, Quiet;
    var was := Current(Initial(members), Front(j));
    StepColumns(was, Last(j).op);
    FrontierRows(was, Last(j).op);
    assert Overlooked(j) == Overlooked(Front(j));
  }

  /** Right after a frontier whose answer was lost, the next prompt may be started and recovery then hides it. */
  lemma LostFrontierHidesAPrompt(members: map<Uid, bool>, j: Journal, actor: Uid) returns (k: Journal)
    requires Safe(Initial(members), j) && actor in members
    requires EndsWithFrontier(j) && !Last(j).answered
    ensures Continues(members, j, k) && !HidesNoPrompt(members, k)
  {
    hide Step, QueueBut;
    FrontierStored(members, j);
    var id, turn;
    k, id, turn := StartsNewPrompt(members, j, actor);
    assert HiddenOnRecovery(Current(Initial(members), k), turn);
  }

  /** Nothing after `j` stores a frontier without an answer. */
  lemma {:induction false} FrontiersAnsweredOn(members: map<Uid, bool>, j: Journal, k: Journal)
    requires Continues(members, j, k) && FrontiersAnswered(j)
    ensures FrontiersAnswered(k)
    decreases |k|
  {
    if |k| > |j| {
      assert j <= Front(k);
      FrontiersAnsweredOn(members, j, Front(k));
      assert Last(k) == k[|k| - 1];
    } else {
      assert k == j;
    }
  }

  /**
   The exact condition: a stored frontier was answered if and only if recovery hides no
   prompt's turn in any run that goes on from there with every answer given.
   */
  lemma HidesNoPromptExactlyIfAnswered(members: map<Uid, bool>, j: Journal, actor: Uid)
    requires Safe(Initial(members), j) && actor in members
    requires EndsWithFrontier(j) && FrontiersAnswered(Front(j))
    ensures Last(j).answered <==> forall k :: Continues(members, j, k) ==> HidesNoPrompt(members, k)
  {
    if Last(j).answered {
      forall k | Continues(members, j, k)
        ensures HidesNoPrompt(members, k)
      {
        FrontiersAnsweredOn(members, j, k);
        forall turn | turn in OrdinaryTurns(k)
          ensures !HiddenOnRecovery(Current(Initial(members), k), turn)
        {
          RecoveryHidesExactly(members, k, turn);
        }
      }
    } else {
      var k := LostFrontierHidesAPrompt(members, j, actor);
    }
  }

  // ---- Order ----------------------------------------------------------------------------

  /** The effect at position i dispatches a prompt accepted after `id`, which still waits. */
  predicate OvertakenAt(members: map<Uid, bool>, k: Journal, i: nat, id: MessageId)
  {
    && i < |k| && k[i].Committed? && k[i].op.BeginDispatch?
    && var db := Current(Initial(members), k[..i]);
    && PromptIn(db, id, Queued) && Exists(db.messages, k[i].op.id)
    && Row(db.messages, id).acceptedSeq < Row(db.messages, k[i].op.id).acceptedSeq
  }

  predicate NeverOvertaken(members: map<Uid, bool>, k: Journal, n: nat, id: MessageId)
  {
    forall i :: n <= i < |k| ==> !OvertakenAt(members, k, i, id)
  }

  /** The last effect stores a prompt for the first time. */
  predicate EndsWithPrompt(j: Journal)
  {
    && j != [] && Last(j).Committed? && Last(j).op.Accept? && Last(j).op.kind == Prompt
    && Last(j).op.id !in AcceptedPrompts(Front(j))
  }

  /** A prompt whose acceptance was answered is never overlooked. */
  lemma {:induction false} ToldStays(j: Journal, k: Journal, id: MessageId)
    requires j <= k && id in AcceptedPrompts(j) && id !in Overlooked(j)
    ensures id in AcceptedPrompts(k) && id !in Overlooked(k)
    decreases |k|
  {
    if |k| > |j| {
      ToldStays(j, Front(k), id);
    } else {
      assert k == j;
    }
  }

  lemma AnsweredIsTold(j: Journal)
    requires EndsWithPrompt(j) && Last(j).answered
    ensures Last(j).op.id in AcceptedPrompts(j) && Last(j).op.id !in Overlooked(j)
  {
    LostAccepted(Front(j));
  }

  /** A prompt stored for the first time waits. */
  lemma PromptWaits(members: map<Uid, bool>, j: Journal)
    requires Safe(Initial(members), j) && EndsWithPrompt(j)
    ensures PromptIn(Current(Initial(members), j), Last(j).op.id, Queued)
  {
    hide Step, QueueBut, Durable;
    var was := Current(Initial(members), Front(j));
    var op := Last(j).op;
    SafeIsDurable(members, Front(j));
    DurableParts(was, Front(j));
    if Exists(was.messages, op.id) {
      ReplayedKind(was, op);
      assert false;
    }
    FirstRow(was, op, Current(Initial(members), j));
  }

  lemma FirstRow(db: Database, op: Op, next: Database)
    requires WellFormed(db) && op.Accept? && op.kind == Prompt && !Exists(db.messages, op.id) && Step(db, op) == Success(next)
    ensures PromptIn(next, op.id, Queued)
  {
    hide Step;
    AcceptStep(db, op);
    StepKeeps(db, op);
    assert next.messages[|db.messages|] == Inserted(db, op)[0];
    IndexUnique(next.messages, |db.messages|);
  }

  /** The exact condition for a prompt: its acceptance was answered if and only if no later one overtakes it. */
  lemma OvertakenExactlyIfLost(members: map<Uid, bool>, j: Journal, actor: Uid)
    requires Safe(Initial(members), j) && actor in members && EndsWithPrompt(j)
    ensures Last(j).answered <==>
            forall k :: Continues(members, j, k) ==> NeverOvertaken(members, k, |j|, Last(j).op.id)
  {
    if Last(j).answered {
      forall k | Continues(members, j, k)
        ensures NeverOvertaken(members, k, |j|, Last(j).op.id)
      {
        ToldIsNeverOvertaken(members, j, k);
      }
    } else {
      LostAcceptanceIsOvertaken(members, j, actor);
    }
  }

  /** A prompt whose acceptance was answered is overtaken in no run, whatever answers are lost later. */
  lemma ToldIsNeverOvertaken(members: map<Uid, bool>, j: Journal, k: Journal)
    requires Safe(Initial(members), k) && j <= k && EndsWithPrompt(j) && Last(j).answered
    ensures NeverOvertaken(members, k, |j|, Last(j).op.id)
  {
    hide Overlooked, AcceptedPrompts, Current;
    var id := Last(j).op.id;
    AnsweredIsTold(j);
    forall i | |j| <= i < |k|
      ensures !OvertakenAt(members, k, i, id)
    {
      if OvertakenAt(members, k, i, id) {
        ToldStays(j, k[..i], id);
        DispatchInOrder(members, k, i, IndexOf(Current(Initial(members), k[..i]).messages, id));
      }
    }
  }

  // ---- How a lost acceptance is overtaken

  /** The prompt waits overlooked while the run goes on with every answer given. */
  ghost predicate WaitsOn(members: map<Uid, bool>, j: Journal, k: Journal, id: MessageId)
  {
    Continues(members, j, k) && !AllAnswered(k) && id in Overlooked(k) && PromptIn(Current(Initial(members), k), id, Queued)
  }

  lemma StillWaits(db: Database, op: Op, id: MessageId)
    requires WellFormed(db) && Step(db, op).Success? && PromptIn(db, id, Queued) && op != BeginDispatch(id)
    ensures PromptIn(Step(db, op).value, id, Queued)
  {
    hide Step;
    RowStays(db, op, id);
  }

  lemma WaitsThrough(members: map<Uid, bool>, j: Journal, k: Journal, id: MessageId, op: Op) returns (l: Journal)
    requires WaitsOn(members, j, k, id)
    requires var db := Current(Initial(members), k);
             Step(db, op).Success? && Disciplined(k, db, op) && op != BeginDispatch(id)
    ensures WaitsOn(members, j, l, id) && Overlooked(l) == Overlooked(k) && Last(l).Committed? && Last(l).answered && Last(l).op == op
    ensures Current(Initial(members), l) == Step(Current(Initial(members), k), op).value
    ensures |l| > 0
    ensures !op.BeginPrivateTurn? ==> Untold(l) == Untold(k)
  {
    hide Step, Disciplined, QueueBut;
    var db := Current(Initial(members), k);
    CurrentWellFormed(members, k);
    StillWaits(db, op, id);
    Continue(members, j, k, Committed(op, Step(db, op).value, true));
    l := k + [Committed(op, Step(db, op).value, true)];
  }

  /** A frontier can always be settled by hiding the questions. */
  lemma WithoutFrontier(members: map<Uid, bool>, j: Journal, k: Journal, id: MessageId) returns (l: Journal)
    requires WaitsOn(members, j, k, id)
    ensures WaitsOn(members, j, l, id) && Overlooked(l) == Overlooked(k)
    ensures Current(Initial(members), l).frontier.None?
  {
    hide Step, QueueBut;
    var db := Current(Initial(members), k);
    SafeIsDurable(members, k);
    l := k;
    if db.frontier.Some? {
      var op := EndPrivateTurn(QuestionTurns(k));
      EndingHidden(db, k, op);
      l := WaitsThrough(members, j, k, id, op);
      StepColumns(db, op);
    }
  }

  lemma EndingHidden(db: Database, j: Journal, op: Op)
    requires Durable(db, j) && op == EndPrivateTurn(QuestionTurns(j))
    ensures Step(db, op).Success? && Disciplined(j, db, op)
  {
    hide WellFormed, OneActive, Orderly, AllBound, LogPublic, PromptsStored;
  }

  /** A room without a thread can be given one. */
  lemma WithThread(members: map<Uid, bool>, j: Journal, k: Journal, id: MessageId) returns (l: Journal)
    requires WaitsOn(members, j, k, id) && Current(Initial(members), k).frontier.None?
    ensures WaitsOn(members, j, l, id) && Overlooked(l) == Overlooked(k)
    ensures Current(Initial(members), l).frontier.None? && Current(Initial(members), l).thread != 0
  {
    hide QueueBut;
    var db := Current(Initial(members), k);
    l := k;
    if db.thread == 0 {
      l := WaitsThrough(members, j, k, id, BindThread(1));
      StepColumns(db, BindThread(1));
    }
  }

  /** The prompt in the agent's hands can be put into review, and given up by a member. */
  lemma WithNothingActive(members: map<Uid, bool>, j: Journal, k: Journal, id: MessageId, actor: Uid) returns (l: Journal)
    requires WaitsOn(members, j, k, id) && actor in members
    requires Current(Initial(members), k).frontier.None? && Current(Initial(members), k).thread != 0
    ensures WaitsOn(members, j, l, id) && Overlooked(l) == Overlooked(k)
    ensures var db := Current(Initial(members), l); Idle(db.messages) && db.frontier.None? && db.thread != 0
  {
    hide Step, QueueBut, WaitsOn;
    l := k;
    var a := ActiveIndex(Current(Initial(members), k).messages);
    if a != -1 {
      var target := Current(Initial(members), k).messages[a].id;
      l := InReview(members, j, k, id, target);
      l := GivenUp(members, j, l, id, actor, target);
    }
  }

  lemma GivenUp(members: map<Uid, bool>, j: Journal, k: Journal, id: MessageId, actor: Uid, target: MessageId) returns (l: Journal)
    requires WaitsOn(members, j, k, id) && actor in members
    requires var db := Current(Initial(members), k);
             db.frontier.None? && db.thread != 0 && PromptIn(db, target, NeedsReview)
    ensures WaitsOn(members, j, l, id) && Overlooked(l) == Overlooked(k)
    ensures var db := Current(Initial(members), l); Idle(db.messages) && db.frontier.None? && db.thread != 0
  {
    hide Step, QueueBut, WellFormed, OneActive, PromptsStored, Durable, Overlooked, AllAnswered;
    var db := Current(Initial(members), k);
    SafeIsDurable(members, k);
    DurableParts(db, k);
    MembersKept(members, k);
    var unused := FreshId(db.messages);
    var op := ResolveReview(actor, unused, target, Skip, 0, 0);
    SkipSteps(db, op);
    l := WaitsThrough(members, j, k, id, op);
    StepColumns(db, op);
  }

  lemma InReview(members: map<Uid, bool>, j: Journal, k: Journal, id: MessageId, target: MessageId) returns (l: Journal)
    requires WaitsOn(members, j, k, id)
    requires var db := Current(Initial(members), k);
             && db.frontier.None? && db.thread != 0
             && exists a :: 0 <= a < |db.messages| && Active(db.messages[a]) && db.messages[a].id == target
    ensures WaitsOn(members, j, l, id) && Overlooked(l) == Overlooked(k)
    ensures var db := Current(Initial(members), l);
            db.frontier.None? && db.thread != 0 && PromptIn(db, target, NeedsReview)
  {
    hide Step, QueueBut, Durable, PromptsStored, Overlooked, AllAnswered, WaitsOn;
    StillSafe(members, j, k, id);
    var db := Current(Initial(members), k);
    CurrentWellFormed(members, k);
    var a :| 0 <= a < |db.messages| && Active(db.messages[a]) && db.messages[a].id == target;
    IndexUnique(db.messages, a);
    l := k;
    if db.messages[a].state != NeedsReview {
      var op := MarkNeedsReview(target, OtherCode);
      MarkSteps(db, op);
      l := WaitsThrough(members, j, k, id, op);
      MarkedPrompt(db, op, Current(Initial(members), l));
      StepColumns(db, op);
    }
  }

  lemma StillSafe(members: map<Uid, bool>, j: Journal, k: Journal, id: MessageId)
    requires WaitsOn(members, j, k, id)
    ensures Safe(Initial(members), k)
  {
  }

  lemma MarkSteps(db: Database, op: Op)
    requires op.MarkNeedsReview? && op.code != NoCode && IsPromptOf(db, op.id)
    requires Row(db.messages, op.id).state == Dispatching || Row(db.messages, op.id).state == Running
    ensures Step(db, op).Success?
  {
  }

  /** Giving up the prompt in review leaves the room idle. */
  lemma SkipSteps(db: Database, op: Op)
    requires WellFormed(db) && OneActive(db.messages) && op.ResolveReview? && op.action == Skip && op.replacement == 0
    requires op.actor in db.members && !Exists(db.messages, op.id) && PromptIn(db, op.target, NeedsReview)
    ensures Step(db, op).Success? && Idle(Step(db, op).value.messages)
  {
    SkipSucceeds(db, op);
    SkipIdles(db, op);
  }

  lemma SkipSucceeds(db: Database, op: Op)
    requires op.ResolveReview? && op.action == Skip && op.replacement == 0
    requires op.actor in db.members && !Exists(db.messages, op.id) && PromptIn(db, op.target, NeedsReview)
    ensures Step(db, op).Success?
  {
  }

  lemma SkipIdles(db: Database, op: Op)
    requires WellFormed(db) && OneActive(db.messages) && op.ResolveReview? && op.action == Skip
    requires !Exists(db.messages, op.id) && PromptIn(db, op.target, NeedsReview) && Step(db, op).Success?
    ensures Idle(Step(db, op).value.messages)
  {
    hide Step, WellFormed;
    var next := Step(db, op).value;
    var t := IndexOf(db.messages, op.target);
    RowClasses(db, op);
    forall k | 0 <= k < |next.messages|
      ensures !Active(next.messages[k])
    {
      if k >= |db.messages| {
        InsertedClass(db, op, k - |db.messages|);
        assert next.messages[|db.messages| + (k - |db.messages|)] == Inserted(db, op)[k - |db.messages|];
      } else if k == t {
        DecidedRow(db, op);
      } else {
        assert !Active(db.messages[k]);
        assert ClassKept(op, db.messages[k], Moved(db, op, db.messages[k]));
      }
    }
  }

  /** From any run, the room can be calmed with every answer given while the prompt waits. */
  lemma Calmed(members: map<Uid, bool>, j: Journal, k: Journal, id: MessageId, actor: Uid) returns (l: Journal)
    requires WaitsOn(members, j, k, id) && actor in members
    ensures WaitsOn(members, j, l, id) && Calm(l, Current(Initial(members), l))
  {
    hide Step, QueueBut;
    l := WithoutFrontier(members, j, k, id);
    l := WithThread(members, j, l, id);
    l := WithNothingActive(members, j, l, id, actor);
    var db := Current(Initial(members), l);
    if db.status != Ready {
      StatusSteps(db, Ready);
      l := WaitsThrough(members, j, l, id, SetRoomStatus(Ready));
      SetStatusStep(db, Ready);
    }
  }

  lemma StatusSteps(db: Database, s: Status)
    ensures Step(db, SetRoomStatus(s)).Success?
  {
  }

  /** Every prompt that is known to wait can be tried and fail unsent, one after the other. */
  lemma {:induction false} Drained(members: map<Uid, bool>, j: Journal, k: Journal, id: MessageId) returns (l: Journal)
    requires WaitsOn(members, j, k, id) && Calm(k, Current(Initial(members), k))
    ensures WaitsOn(members, j, l, id) && Calm(l, Current(Initial(members), l))
    ensures QueueBut(Current(Initial(members), l).messages, Overlooked(l)) == []
    decreases |QueueBut(Current(Initial(members), k).messages, Overlooked(k))|
  {
    hide Step, QueueBut, WellFormed;
    l := k;
    var queue := QueueBut(Current(Initial(members), k).messages, Overlooked(k));
    if queue != [] {
      l := HeadFails(members, j, k, id);
      l := Drained(members, j, l, id);
    }
  }

  lemma HeadFails(members: map<Uid, bool>, j: Journal, k: Journal, id: MessageId) returns (l: Journal)
    requires WaitsOn(members, j, k, id) && Calm(k, Current(Initial(members), k))
    requires QueueBut(Current(Initial(members), k).messages, Overlooked(k)) != []
    ensures WaitsOn(members, j, l, id) && Calm(l, Current(Initial(members), l))
    ensures QueueBut(Current(Initial(members), l).messages, Overlooked(l)) ==
            QueueBut(Current(Initial(members), k).messages, Overlooked(k))[1..]
  {
    hide Step, QueueBut, WellFormed, Overlooked, Disciplined, Quiet;
    var db := Current(Initial(members), k);
    var lost := Overlooked(k);
    var queue := QueueBut(db.messages, lost);
    var head := queue[0];
    CurrentWellFormed(members, k);
    HeadBegins(k, db, id, lost);
    l := WaitsThrough(members, j, k, id, BeginDispatch(head));
    var begun := Current(Initial(members), l);
    StepColumns(db, BeginDispatch(head));
    var e := TurnStart(head, NotSent, None);
    Continue(members, j, l, e);
    l := l + [e];
    var op := FailDispatch(head, Failed, Code.DeliveryNotSent);
    SafeIsDurable(members, l);
    DurableParts(begun, l);
    DispatchedHead(db, head, begun, lost);
    FailSteps(begun, op);
    AnswerOp(Memory(None, 0, None, [], []), begun, l, op);
    var failed := WaitsThrough(members, j, l, id, op);
    FailedIdle(begun, op);
    StepColumns(begun, op);
    QueueStep(begun, op, lost);
    assert lost + FreshPrompt(begun, op) == lost;
    l := failed;
  }

  lemma HeadBegins(k: Journal, db: Database, id: MessageId, lost: set<MessageId>)
    requires WellFormed(db) && Calm(k, db) && !AllAnswered(k) && lost == Overlooked(k) && id in lost
    requires QueueBut(db.messages, lost) != []
    ensures var op := BeginDispatch(QueueBut(db.messages, lost)[0]);
            Step(db, op).Success? && Disciplined(k, db, op) && op.id != id
  {
    hide QueueBut, Quiet;
    var h := QueueHead(db.messages, lost);
    IndexUnique(db.messages, h);
  }

  lemma DispatchedHead(db: Database, head: MessageId, begun: Database, lost: set<MessageId>)
    requires WellFormed(db) && QueueBut(db.messages, lost) != [] && QueueBut(db.messages, lost)[0] == head
    requires Step(db, BeginDispatch(head)) == Success(begun)
    ensures PromptIn(begun, head, Dispatching)
    ensures QueueBut(begun.messages, lost) == QueueBut(db.messages, lost)[1..]
  {
    hide QueueBut, Step;
    BegunTarget(db, BeginDispatch(head));
    RowStays(db, BeginDispatch(head), head);
    StepKeeps(db, BeginDispatch(head));
    var m := Memory(None, 0, None, [], QueueBut(db.messages, lost));
    HeadTaken(m, db, lost);
    HeadDropped(m, begun.messages, lost);
  }

  lemma FailSteps(db: Database, op: Op)
    requires op.FailDispatch? && op == FailDispatch(op.id, Failed, Code.DeliveryNotSent) && PromptIn(db, op.id, Dispatching)
    ensures Step(db, op).Success?
  {
  }

  /** After any run that ends with an unanswered acceptance of a prompt, a prompt submitted later may be dispatched first. */
  lemma LostAcceptanceIsOvertaken(members: map<Uid, bool>, j: Journal, actor: Uid)
    requires Safe(Initial(members), j) && actor in members && EndsWithPrompt(j) && !Last(j).answered
    ensures exists k :: Continues(members, j, k) && !NeverOvertaken(members, k, |j|, Last(j).op.id)
  {
    hide Safe, OvertakenAt, Continues;
    var k, i := OvertakingRun(members, j, actor);
    assert !NeverOvertaken(members, k, |j|, Last(j).op.id) by {
      OvertakenInside(members, k, i, Last(j).op.id);
    }
  }

  lemma OvertakenInside(members: map<Uid, bool>, k: Journal, i: nat, id: MessageId)
    requires OvertakenAt(members, k, i, id)
    ensures i < |k|
  {
  }

  lemma OvertakingRun(members: map<Uid, bool>, j: Journal, actor: Uid) returns (k: Journal, i: nat)
    requires Safe(Initial(members), j) && actor in members && EndsWithPrompt(j) && !Last(j).answered
    ensures Continues(members, j, k) && |j| <= i && OvertakenAt(members, k, i, Last(j).op.id)
  {
    hide Step, QueueBut, Calm;
    var id := Last(j).op.id;
    PromptWaits(members, j);
    var l := Calmed(members, j, j, id, actor);
    l := Drained(members, j, l, id);
    var later, turn;
    k, later, turn := StartsNewPrompt(members, l, actor) by {
      assert Calm(l, Current(Initial(members), l));
    }
    i := |l| + 1;
    ContinuesOn(members, j, l, k);
    OvertakenNow(members, l, k, actor, later, id);
  }

  lemma ContinuesOn(members: map<Uid, bool>, j: Journal, l: Journal, k: Journal)
    requires Continues(members, j, l) && Continues(members, l, k)
    ensures Continues(members, j, k)
  {
    forall i | |j| <= i < |k| && k[i].Committed?
      ensures k[i].answered
    {
      assert i < |l| ==> k[i] == l[i];
    }
  }

  lemma OvertakenNow(members: map<Uid, bool>, l: Journal, k: Journal, actor: Uid, later: MessageId, id: MessageId)
    requires Safe(Initial(members), l) && PromptIn(Current(Initial(members), l), id, Queued)
    requires var db := Current(Initial(members), l);
             && l <= k && |k| == |l| + 3 && !Exists(db.messages, later)
             && k[|l|] == Committed(Accept(actor, later, Prompt, 0, 0, 0), Submitted(db, actor, later), true)
             && k[|l| + 1].Committed? && k[|l| + 1].op == BeginDispatch(later)
    ensures OvertakenAt(members, k, |l| + 1, id)
  {
    var db := Current(Initial(members), l);
    var next := Submitted(db, actor, later);
    var past := k[..|l| + 1];
    assert Last(past) == k[|l|];
    CurrentWellFormed(members, l);
    var row := IndexOf(db.messages, id);
    assert RowLogged(db.messages[row], db.events);
    AppendedRow(db.messages, next.messages[|db.messages|], id);
    assert next.messages[|next.messages| - 1].id == later;
  }

  // ---- A run that loses one answer -------------------------------------------------------

  const MEMBERS: map<Uid, bool> := map[1 := true]

  function Bound(): Database { Initial(MEMBERS).(thread := 7, events := map[1 := ThreadBound(0, 7)], nextSeq := 2) }

  const BIND: Effect := Committed(BindThread(7), Bound(), true)
  const ASK: Effect := Committed(BeginPrivateTurn({}), Bound().(frontier := Some(Frontier({}))), false)

  lemma FrontierLost()
    ensures Safe(Initial(MEMBERS), [BIND] + [ASK]) && Current(Initial(MEMBERS), [BIND] + [ASK]) == ASK.db
  {
    var none: Journal := [];
    SafeExtend(Initial(MEMBERS), none, BIND);
    SafeExtend(Initial(MEMBERS), [BIND], ASK);
  }

  /** A run in which only the answer to a frontier is lost, and after which recovery hides a prompt's turn. */
  lemma LostAnswerHidesAPrompt() returns (k: Journal)
    ensures Safe(Initial(MEMBERS), k) && !HidesNoPrompt(MEMBERS, k)
    ensures forall i :: 0 <= i < |k| && k[i].Committed? ==> (k[i].answered <==> !k[i].op.BeginPrivateTurn?)
  {
    FrontierLost();
    var j := [BIND] + [ASK];
    FrontierStored(MEMBERS, j);
    var id, turn;
    k, id, turn := StartsNewPrompt(MEMBERS, j, 1);
    assert HiddenOnRecovery(Current(Initial(MEMBERS), k), turn);
    assert k[0] == BIND && k[1] == ASK;
  }

  // ---- The coordinator ---------------------------------------------------------------------

  lemma {:induction false} KnownBefore(j: Journal, n: nat)
    requires n <= |j|
    ensures KnownTurns(j[..n]) <= KnownTurns(j)
    decreases |j|
  {
    if n < |j| {
      assert Front(j)[..n] == j[..n];
      KnownBefore(Front(j), n);
    } else {
      assert j[..n] == j;
    }
  }

  predicate MovesFrontier(e: Effect)
  {
    e.Committed? && (e.op.BeginPrivateTurn? || e.op.EndPrivateTurn?)
  }

  lemma {:induction false} FrontierStays(members: map<Uid, bool>, j: Journal, n: nat)
    requires Safe(Initial(members), j) && n <= |j|
    requires forall i :: n <= i < |j| ==> !MovesFrontier(j[i])
    ensures Current(Initial(members), j).frontier == Current(Initial(members), j[..n]).frontier
    decreases |j|
  {
    if n < |j| {
      var past := Front(j);
      assert past[..n] == j[..n] && j[|j| - 1] == Last(j);
      forall i | n <= i < |past|
        ensures !MovesFrontier(past[i])
      {
        assert past[i] == j[i];
      }
      FrontierStays(members, past, n);
      if Last(j).Committed? {
        StepColumns(Current(Initial(members), past), Last(j).op);
      }
    } else {
      assert j[..n] == j;
    }
  }

  /** A prompt's turn begun while a frontier stands, and goes on standing, is hidden by recovery. */
  lemma StartedBehindFrontier(members: map<Uid, bool>, j: Journal, n: nat, i: nat)
    requires Safe(Initial(members), j) && n <= i < |j|
    requires Current(Initial(members), j[..n]).frontier.Some?
    requires j[i].TurnStart? && j[i].created.Some?
    requires forall k :: n <= k < |j| ==> !MovesFrontier(j[k])
    ensures HiddenOnRecovery(Current(Initial(members), j), j[i].created.value)
  {
    FrontierStays(members, j, n);
    CrashIsSafe(Initial(members), j, n);
    SafeIsDurable(members, j[..n]);
    AllowedAt(Initial(members), j, i);
    assert j[..i][..n] == j[..n];
    KnownBefore(j[..i], n);
  }

  /**
   A question is asked of an idle room and, if only the answer to its frontier was lost, a
   prompt is submitted next: should it start, recovery would hide its turn.
   */
  method SubmitAfterLostFrontier(c: Coordinator, actor: Uid, id: MessageId, body: nat) returns (lost: bool, e: Fault)
    requires c.Valid() && !c.fatal && !c.Busy() && !Exists(c.env.db.messages, id)
    modifies c, c.env
    ensures c.Valid()
    ensures lost ==>
              && |c.env.journal| > |old(c.env.journal)| + 1 && var b := c.env.journal[|old(c.env.journal)| + 1];
              && b.Committed? && b.op.BeginPrivateTurn? && !b.answered
              && (e != StoreFault ==> |c.env.journal| > |old(c.env.journal)| + 2)
    ensures lost && e == NoFault ==>
              && c.state.active.Some? && c.state.active.value.state == Running && c.state.active.value.id == id
              && HiddenOnRecovery(c.env.db, c.state.active.value.turn)
  {
    hide Safe, Step, Agrees, Current, AllAnswered, Durable, FrontierHeld, ValidThread, Asked;
    var n := |c.env.journal|;
    e := c.HandleQuestion();
    lost := e == StoreFault && |c.env.journal| == n + 2;
    if !lost {
      return;
    }
    ghost var asked := c.env.journal;
    FrontierTold(c.env.members, asked);
    e := c.HandleSubmit(actor, id, body, 0, false);
    if e == NoFault {
      ghost var j := c.env.journal;
      assert j[..n + 2] == asked;
      StartMadeIt(c.env.members, j, n + 4);
      StartedBehindFrontier(c.env.members, j, n + 2, n + 4);
    }
  }

  lemma FrontierTold(members: map<Uid, bool>, j: Journal)
    requires Safe(Initial(members), j) && EndsWithFrontier(j)
    ensures Current(Initial(members), j).frontier.Some?
    ensures Current(Initial(members), j).messages == Current(Initial(members), Front(j)).messages
  {
    FrontierStored(members, j);
  }

  /** An answered start began the turn it names. */
  lemma StartMadeIt(members: map<Uid, bool>, j: Journal, i: nat)
    requires Safe(Initial(members), j) && i < |j| && j[i].TurnStart? && j[i].outcome.Started?
    ensures j[i].created == Some(j[i].outcome.turn)
  {
    AllowedAt(Initial(members), j, i);
  }

  lemma {:induction false} WaitsInRun(members: map<Uid, bool>, j: Journal, n: nat, id: MessageId)
    requires Safe(Initial(members), j) && n <= |j| && PromptIn(Current(Initial(members), j[..n]), id, Queued)
    requires forall i :: n <= i < |j| && j[i].Committed? ==> j[i].op != BeginDispatch(id)
    ensures PromptIn(Current(Initial(members), j), id, Queued)
    decreases |j|
  {
    hide Step, PromptIn;
    if n < |j| {
      var past := Front(j);
      assert past[..n] == j[..n] && j[|j| - 1] == Last(j);
      forall i | n <= i < |past| && past[i].Committed?
        ensures past[i].op != BeginDispatch(id)
      {
        assert past[i] == j[i];
      }
      WaitsInRun(members, past, n, id);
      if Last(j).Committed? {
        CurrentWellFormed(members, past);
        StillWaits(Current(Initial(members), past), Last(j).op, id);
      }
    } else {
      assert j[..n] == j;
    }
  }

  /** A row stored later has a later sequence number. */
  lemma LaterRow(db: Database, next: Database, first: MessageId, second: MessageId)
    requires WellFormed(next) && Extends(db, next)
    requires Exists(db.messages, first) && !Exists(db.messages, second) && Exists(next.messages, second)
    ensures Exists(next.messages, first) && Row(next.messages, first).acceptedSeq < Row(next.messages, second).acceptedSeq
  {
    var a, b := IndexOf(db.messages, first), IndexOf(next.messages, second);
    assert SameIdentity(db.messages[a], next.messages[a]);
    IndexUnique(next.messages, a);
    forall k | 0 <= k < |db.messages|
      ensures next.messages[k].id != second
    {
      assert SameIdentity(db.messages[k], next.messages[k]);
    }
  }

  /** The room after one more prompt of a given id. */
  lemma OneMorePrompt(members: map<Uid, bool>, j: Journal, other: MessageId)
    requires Safe(Initial(members), j) && j != [] && Last(j).Committed? && Last(j).op.Accept? && Last(j).op.kind == Prompt
    requires !Exists(Current(Initial(members), Front(j)).messages, Last(j).op.id)
    requires other != Last(j).op.id && !Exists(Current(Initial(members), Front(j)).messages, other)
    ensures PromptIn(Current(Initial(members), j), Last(j).op.id, Queued) && !Exists(Current(Initial(members), j).messages, other)
  {
    hide Step;
    var was, op := Current(Initial(members), Front(j)), Last(j).op;
    CurrentWellFormed(members, Front(j));
    FirstRow(was, op, Last(j).db);
    AcceptStep(was, op);
    AcceptedKind(was, op);
    AppendedAbsent(was.messages, Inserted(was, op)[0], other);
  }

  lemma AppendedAbsent(ms: seq<Message>, r: Message, id: MessageId)
    requires !Exists(ms, id) && r.id != id
    ensures !Exists(ms + [r], id)
  {
    assert forall k :: 0 <= k < |ms + [r]| ==> (ms + [r])[k].id != id;
  }

  /**
   Two prompts are submitted to an idle room and, if only the answer to the first acceptance was
   lost, the second one is dispatched: should it start, the first still waits.
   */
  method SubmitAfterLostAcceptance(c: Coordinator, actor: Uid, first: MessageId, second: MessageId, body: nat)
    returns (lost: bool, e: Fault)
    requires c.Valid() && !c.fatal && c.MayStart() && c.state.queue == [] && first != second
    requires !Exists(c.env.db.messages, first) && !Exists(c.env.db.messages, second)
    modifies c, c.env
    ensures c.Valid()
    ensures lost ==>
              && |c.env.journal| > |old(c.env.journal)| && var a := c.env.journal[|old(c.env.journal)|];
              && a.Committed? && a.op == Accept(actor, first, Prompt, body, 0, 0) && !a.answered
    ensures lost && e == NoFault ==>
              && c.state.active.Some? && c.state.active.value.state == Running && c.state.active.value.id == second
              && PromptIn(c.env.db, first, Queued) && Exists(c.env.db.messages, second)
              && Row(c.env.db.messages, first).acceptedSeq < Row(c.env.db.messages, second).acceptedSeq
  {
    hide Safe, Step, Agrees, Current, AllAnswered, Durable, FrontierHeld, PromptIn, Overlooked, QueueBut, WellFormed, Extends;
    var n := |c.env.journal|;
    ghost var past := c.env.journal;
    e := c.HandleSubmit(actor, first, body, 0, false);
    lost := e == StoreFault && |c.env.journal| == n + 1 && !c.env.journal[n].answered;
    if !lost {
      return;
    }
    ghost var stored, db := c.env.journal, c.env.db;
    StoredUntold(c.env.members, past, stored, first, second);
    e := c.HandleSubmit(actor, second, body, 0, false);
    if e == NoFault {
      SecondStarted(c.env.members, stored, c.env.journal, first, second);
    }
  }

  lemma StoredUntold(members: map<Uid, bool>, past: Journal, j: Journal, first: MessageId, second: MessageId)
    requires Safe(Initial(members), j) && past <= j && |j| == |past| + 1
    requires Last(j).Committed? && Last(j).op.Accept? && Last(j).op.kind == Prompt && Last(j).op.id == first && first != second
    requires !Exists(Current(Initial(members), past).messages, first) && !Exists(Current(Initial(members), past).messages, second)
    ensures PromptIn(Current(Initial(members), j), first, Queued) && !Exists(Current(Initial(members), j).messages, second)
  {
    assert Front(j) == past;
    OneMorePrompt(members, j, second);
  }

  lemma SecondStarted(members: map<Uid, bool>, stored: Journal, j: Journal, first: MessageId, second: MessageId)
    requires Safe(Initial(members), j) && stored <= j && first != second && |stored| > 0
    requires PromptIn(Current(Initial(members), stored), first, Queued) && !Exists(Current(Initial(members), stored).messages, second)
    requires |j| == |stored| + 4 && j[|stored|].Committed? && j[|stored|].op.Accept? && j[|stored|].op.kind == Prompt
    requires j[|stored|].op.id == second
    requires j[|stored| + 2].TurnStart? && j[|stored| + 3].Committed?
    requires Dispatched(j, |stored| + 1, second, j[|stored| + 2].outcome, j[|stored| + 3].op) && j[|stored| + 3].op.BindRunningTurn?
    ensures var db := Current(Initial(members), j);
            && PromptIn(db, first, Queued) && Exists(db.messages, second)
            && Row(db.messages, first).acceptedSeq < Row(db.messages, second).acceptedSeq
  {
    hide Step, WellFormed, Extends, Durable, PromptIn, Overlooked;
    var n := |stored|;
    assert j[..n] == stored;
    WaitsInRun(members, j, n, first);
    RunExtends(members, j, n);
    SafeIsDurable(members, j);
    DurableParts(Current(Initial(members), j), j);
    AcceptedIn(j, n);
    PromptExists(Current(Initial(members), stored), first);
    LaterRow(Current(Initial(members), stored), Current(Initial(members), j), first, second);
  }

  lemma PromptExists(db: Database, id: MessageId)
    requires PromptIn(db, id, Queued)
    ensures Exists(db.messages, id)
  {
  }

  lemma {:induction false} AcceptedIn(j: Journal, n: nat)
    requires n < |j| && j[n].Committed? && j[n].op.Accept? && j[n].op.kind == Prompt
    ensures j[n].op.id in AcceptedPrompts(j)
    decreases |j|
  {
    if n < |j| - 1 {
      assert Front(j)[n] == j[n];
      AcceptedIn(Front(j), n);
    }
  }
}
