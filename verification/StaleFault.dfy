/**
 What a fault that outlives a recovery costs.  While the flag stands, the end of whatever
 prompt is active is stored as failed.  The flag belongs to the active prompt until a
 recovery image is loaded; after that it may belong to one that has long been settled.

 A loss of the runtime clears the flag, so this takes a recovery without one: an explicit
 Recover command, or a loss of which the coordinator was not told.
 */
module StaleFault {
  import opened Wrappers
  import opened RoomStore
  import opened RoomStoreFacts
  import opened RoomTransitions
  import opened DispatchJournal
  import opened RoomSafety
  import opened RoomEnvironment
  import opened RoomMemory
  import opened RoomCoherence
  import opened RoomCoordinator
  import LostAnswers

  // ---- Every turn's end ------------------------------------------------------------------

  /** The end of the active turn is stored as the agent reported it if and only if no fault stands. */
  method EndIsStored(c: Coordinator, thread: ThreadId, turn: TurnId, outcome: State)
    requires c.Valid() && !c.fatal && Terminal(outcome) && c.Ends(thread, turn)
    modifies c, c.env
    ensures c.Valid()
    ensures !c.fatal ==>
              var n := |old(c.env.journal)|;
              && |c.env.journal| > n && c.env.journal[n].Committed? && c.env.journal[n].op.FinishTurn? && c.env.journal[n].op.turn == turn
              && (Answered(c.env.journal[n], Ending(turn, outcome, false)) <==> !old(c.activeFault))
    ensures old(c.activeFault && !c.reloaded) ==> old(c.state.active.Some? && c.state.active.value.id == c.faulty)
  {
    hide Safe, Step, Agrees, Current, AllAnswered, Durable, FrontierHeld;
    c.HandleTurnEnded(thread, turn, outcome);
  }

  // ---- A fault that outlives its prompt -----------------------------------------------------

  /**
   A running prompt is blamed for a protocol error, and a recovery settles it from the agent's
   history.  The flag stays: if the next prompt starts, its regular completion is stored as failed.
   `reached` says that nothing on the way failed; the start and the end are effects n and k.
   */
  method FaultOutlivesRecovery(c: Coordinator, actor: Uid, id: MessageId, body: nat)
    returns (reached: bool, n: nat, k: nat, turn: TurnId)
    requires c.Valid() && !c.fatal && c.Blamed(0, 0) && c.state.active.value.id != id
    modifies c, c.env
    ensures c.Valid()
    ensures reached ==>
              && !c.fatal && |old(c.env.journal)| < n < k < |c.env.journal|
              && c.env.journal[n].TurnStart? && c.env.journal[n].id == id && c.env.journal[n].outcome == Started(turn)
              && Answered(c.env.journal[k], FinishTurn(turn, Failed, FaultCode))
  {
    hide Safe, Step, Agrees, Current, AllAnswered, Durable, FrontierHeld, FrontierOwned, Grew, Reconciled;
    reached, n, k, turn := false, 0, 0, 0;
    GrewSame(c.env.journal);
    c.HandleProtocolError(0, 0);
    if c.fatal {
      return;
    }
    ghost var before := c.env.journal;
    var e := c.HandleRecover();
    GrewLength(old(c.env.journal), before, c.env.journal);
    if e != NoFault || !c.MayStart() || Exists(c.env.db.messages, id) {
      return;
    }
    reached, n, k, turn := CompletionUnderFault(c, actor, id, body);
  }

  /** From any ready and idle room that carries the flag, the next prompt's completion is stored as failed. */
  method CompletionUnderFault(c: Coordinator, actor: Uid, id: MessageId, body: nat)
    returns (reached: bool, n: nat, k: nat, turn: TurnId)
    requires c.Valid() && !c.fatal && c.MayStart() && c.state.queue == [] && c.activeFault && !Exists(c.env.db.messages, id)
    modifies c, c.env
    ensures c.Valid()
    ensures reached ==>
              && !c.fatal && n == |old(c.env.journal)| + 2 < k < |c.env.journal|
              && c.env.journal[n].TurnStart? && c.env.journal[n].id == id && c.env.journal[n].outcome == Started(turn)
              && Answered(c.env.journal[k], FinishTurn(turn, Failed, FaultCode))
  {
    hide Safe, Step, Agrees, Current, AllAnswered, Durable, FrontierHeld, FrontierOwned;
    reached, n, k, turn := false, |c.env.journal| + 2, 0, 0;
    var e := c.HandleSubmit(actor, id, body, 0, false);
    if e != NoFault {
      return;
    }
    turn, k := c.state.active.value.turn, |c.env.journal|;
    ghost var before := c.env.journal;
    c.HandleTurnEnded(0, turn, Completed);
    assert c.env.journal[n] == before[n];
    reached := !c.fatal;
  }

  lemma GrewLength(a: Journal, b: Journal, c: Journal)
    requires Grew(a, b) && Grew(b, c)
    ensures |a| <= |b| <= |c|
  {
  }

  // ---- Such a state ---------------------------------------------------------------------------

  const MEMBERS: map<Uid, bool> := map[1 := true]

  function Base(): Database { Initial(MEMBERS) }

  function Prompted(id: MessageId, s: State, turn: TurnId, code: Code, at: nat): Message
  {
    Message(id, Prompt, 1, 0, s, at, turn, code)
  }

  /** The last row of the tables in another state, with the event about it. */
  function LastAs(db: Database, s: State, turn: TurnId, code: Code, e: Event): Database
    requires db.messages != []
  {
    Transition(db, |db.messages| - 1, s, turn, code, e)
  }

  ghost predicate Run(j: Journal, db: Database)
  {
    Safe(Base(), j) && AllAnswered(j) && Current(Base(), j) == db && db.members == MEMBERS
  }

  lemma Took(j: Journal, db: Database, op: Op, next: Database) returns (k: Journal)
    requires Run(j, db) && Step(db, op) == Success(next) && Disciplined(j, db, op)
    ensures k == j + [Committed(op, next, true)] && Run(k, next) && Last(k) == Committed(op, next, true)
    ensures KnownTurns(k) == KnownTurns(j) && OrdinaryTurns(k) == OrdinaryTurns(j) && QuestionTurns(k) == QuestionTurns(j)
    ensures Untold(j) ==> op.BeginPrivateTurn? || Untold(k)
    ensures !op.BeginPrivateTurn? ==> Untold(k) == Untold(j)
  {
    k := j + [Committed(op, next, true)];
    SafeExtend(Base(), j, Committed(op, next, true));
    CommitKeepsTurns(j, Committed(op, next, true));
    LostAnswers.StepMembers(db, op);
  }

  /** A prompt is accepted and dispatched from a quiet room whose rows have all ended. */
  lemma Dispatches(j: Journal, db: Database, id: MessageId) returns (k: Journal, begun: Database)
    requires Run(j, db) && Quiet(db) && (forall i :: 0 <= i < |db.messages| ==> Terminal(db.messages[i].state) && db.messages[i].id != id)
    ensures Run(k, begun) && j <= k && forall i :: |j| <= i < |k| && k[i].Committed? ==> !k[i].op.MarkNeedsReview?
    ensures begun == Append(db, Accepted(id, Prompt, 0, Queued)).(messages := db.messages + [Prompted(id, Dispatching, 0, NoCode, db.nextSeq)])
    ensures k != [] && Last(k).Committed? && Last(k).op == BeginDispatch(id)
    ensures KnownTurns(k) == KnownTurns(j) && OrdinaryTurns(k) == OrdinaryTurns(j) && QuestionTurns(k) == QuestionTurns(j)
  {
    hide Step, Quiet;
    var accepted := WithMessage(Append(db, Accepted(id, Prompt, 0, Queued)), Prompted(id, Queued, 0, NoCode, db.nextSeq));
    AcceptSteps(db, id);
    k := Took(j, db, Accept(1, id, Prompt, 0, 0, 0), accepted);
    begun := accepted.(messages := db.messages + [Prompted(id, Dispatching, 0, NoCode, db.nextSeq)]);
    BeginSteps(db, id, accepted, begun);
    LostAccepted(k);
    assert Overlooked(k) == {};
    k := Took(k, accepted, BeginDispatch(id), begun);
  }

  /** And its turn is started. */
  lemma Starts(j: Journal, db: Database, id: MessageId, turn: TurnId) returns (k: Journal, next: Database)
    requires Run(j, db) && Quiet(db) && (forall i :: 0 <= i < |db.messages| ==> Terminal(db.messages[i].state) && db.messages[i].id != id)
    requires Distinct(db.messages) && turn != 0 && turn !in KnownTurns(j)
    ensures Run(k, next) && j <= k && forall i :: |j| <= i < |k| && k[i].Committed? ==> !k[i].op.MarkNeedsReview?
    ensures next.messages == db.messages + [Prompted(id, Running, turn, NoCode, db.nextSeq)]
    ensures next.status == Ready && next.thread == db.thread && next.frontier == None
    ensures KnownTurns(k) == KnownTurns(j) + {turn} && OrdinaryTurns(k) == OrdinaryTurns(j) + {turn} && QuestionTurns(k) == QuestionTurns(j)
  {
    hide Step;
    var past, begun := Dispatches(j, db, id);
    var e := TurnStart(id, Started(turn), Some(turn));
    SafeExtend(Base(), past, e);
    k := past + [e];
    assert Front(k) == past && Last(k) == e;
    next := LastAs(begun, Running, turn, NoCode, TurnRunning(id, turn));
    BindSteps(begun, id, turn);
    k := Took(k, begun, BindRunningTurn(id, turn), next);
  }

  lemma AcceptSteps(db: Database, id: MessageId)
    requires db.members == MEMBERS && forall i :: 0 <= i < |db.messages| ==> db.messages[i].id != id
    ensures Step(db, Accept(1, id, Prompt, 0, 0, 0)) ==
            Success(WithMessage(Append(db, Accepted(id, Prompt, 0, Queued)), Prompted(id, Queued, 0, NoCode, db.nextSeq)))
  {
  }

  lemma BeginSteps(db: Database, id: MessageId, accepted: Database, begun: Database)
    requires Quiet(db) && (forall i :: 0 <= i < |db.messages| ==> Terminal(db.messages[i].state) && db.messages[i].id != id)
    requires accepted == WithMessage(Append(db, Accepted(id, Prompt, 0, Queued)), Prompted(id, Queued, 0, NoCode, db.nextSeq))
    requires begun == accepted.(messages := db.messages + [Prompted(id, Dispatching, 0, NoCode, db.nextSeq)])
    ensures Step(accepted, BeginDispatch(id)) == Success(begun)
    ensures Quiet(accepted) && Idle(accepted.messages) && accepted.status == Ready && QueueBut(accepted.messages, {}) == [id]
    ensures begun.status == Ready && begun.thread == accepted.thread == db.thread != 0 && begun.frontier == accepted.frontier == None
  {
    var ms := accepted.messages;
    assert ms[|ms| - 1].id == id && IndexOf(ms, id) == |ms| - 1;
    assert ms[|ms| - 1 := Revised(ms[|ms| - 1], Dispatching, 0, NoCode)] == begun.messages;
    QueueEmpty(db.messages, {});
    QueueAppend(db.messages, Prompted(id, Queued, 0, NoCode, db.nextSeq), {});
  }

  lemma BindSteps(db: Database, id: MessageId, turn: TurnId)
    requires db.messages != [] && turn != 0
    requires var m := db.messages[|db.messages| - 1]; m.id == id && m.kind == Prompt && m.state == Dispatching
    ensures Step(db, BindRunningTurn(id, turn)) == Success(LastAs(db, Running, turn, NoCode, TurnRunning(id, turn)))
  {
    assert IndexOf(db.messages, id) == |db.messages| - 1;
  }

  /** The only row, running, is marked as faulty, or ends. */
  lemma OneRowSteps(db: Database, m: Message)
    requires db.messages == [m] && m.kind == Prompt && m.turn != 0
    ensures m.state == Running ==>
              Step(db, MarkNeedsReview(m.id, FaultCode)) == Success(LastAs(db, NeedsReview, m.turn, FaultCode, StateChanged(m.id, NeedsReview, FaultCode)))
    ensures m.state == NeedsReview ==>
              Step(db, FinishTurn(m.turn, Completed, NoCode)) == Success(LastAs(db, Completed, m.turn, NoCode, TurnFinished(m.turn, Completed, NoCode)))
  {
    assert IndexOf([m], m.id) == 0;
  }

  /** The only prompt ever blamed is 5. */
  ghost predicate OnlyBlamed(j: Journal)
  {
    && (exists k :: 0 <= k < |j| && Answered(j[k], MarkNeedsReview(5, FaultCode)))
    && (forall k :: 0 <= k < |j| && j[k].Committed? && j[k].op.MarkNeedsReview? ==> j[k].op.id == 5)
  }

  lemma StillBlamed(j: Journal, k: Journal)
    requires OnlyBlamed(j) && j <= k
    requires forall i :: |j| <= i < |k| && k[i].Committed? ==> !k[i].op.MarkNeedsReview?
    ensures OnlyBlamed(k)
  {
    var i :| 0 <= i < |j| && Answered(j[i], MarkNeedsReview(5, FaultCode));
    assert Answered(k[i], MarkNeedsReview(5, FaultCode));
    forall i | 0 <= i < |k| && k[i].Committed? && k[i].op.MarkNeedsReview?
      ensures k[i].op.id == 5
    {
      assert k[i] == j[i];
    }
  }

  /** Prompt 5 runs. */
  lemma Running5() returns (j: Journal, db: Database)
    ensures Run(j, db) && db.messages == [Prompted(5, Running, 9, NoCode, 2)]
    ensures db.status == Ready && db.thread == 7 && db.frontier == None
    ensures KnownTurns(j) == {9} && OrdinaryTurns(j) == {9} && QuestionTurns(j) == {}
    ensures forall i :: 0 <= i < |j| && j[i].Committed? ==> !j[i].op.MarkNeedsReview?
  {
    hide Step, Run, Quiet;
    var bound := Append(Base().(thread := 7), ThreadBound(0, 7));
    EmptyRun();
    BoundSteps(bound);
    var first := Took([], Base(), BindThread(7), bound);
    j, db := Starts(first, bound, 5, 9);
    assert first[0].op.BindThread?;
    assert db.messages == [Prompted(5, Running, 9, NoCode, 2)];
  }

  /** It is blamed for a fault; the room freezes. */
  lemma Blamed() returns (j: Journal, db: Database)
    ensures Run(j, db) && db.messages == [Prompted(5, NeedsReview, 9, FaultCode, 2)] && OnlyBlamed(j)
    ensures db.status == Recovering && db.thread == 7 && db.frontier == None
    ensures KnownTurns(j) == {9} && OrdinaryTurns(j) == {9} && QuestionTurns(j) == {}
  {
    hide Step, Run;
    var before, running := Running5();
    OneRowSteps(running, running.messages[0]);
    var marked := LastAs(running, NeedsReview, 9, FaultCode, StateChanged(5, NeedsReview, FaultCode));
    var blamed := Took(before, running, MarkNeedsReview(5, FaultCode), marked);
    assert Answered(blamed[|blamed| - 1], MarkNeedsReview(5, FaultCode));
    assert OnlyBlamed(blamed);
    StatusSteps(marked, Recovering);
    db := StatusAs(marked, Recovering);
    j := Took(blamed, marked, SetRoomStatus(Recovering), db);
    StillBlamed(blamed, j);
  }

  lemma EmptyRun()
    ensures Run([], Base()) && KnownTurns([]) == OrdinaryTurns([]) == QuestionTurns([]) == {} && !Untold([])
  {
  }

  /** Recovery settles prompt 5 from a history that shows it completed, and the room is ready again. */
  lemma FaultSettled() returns (j: Journal, db: Database)
    ensures Run(j, db) && db.messages == [Prompted(5, Completed, 9, NoCode, 2)] && OnlyBlamed(j)
    ensures db.status == Ready && db.thread == 7 && db.frontier == None
    ensures KnownTurns(j) == {9} && OrdinaryTurns(j) == {9} && QuestionTurns(j) == {}
  {
    hide Step, Run, OnlyBlamed;
    var frozen;
    j, frozen := Blamed();
    var past := j;
    var history := History(7, 0, [HistoryTurn(9, Completed, [])]);
    assert history.turns[0].id in TurnIds(history.turns);
    assert TurnIds(history.turns) == {9};
    HistoryRead(past, frozen, history);
    j := past + [ThreadRead(history)];
    OneRowSteps(frozen, frozen.messages[0]);
    var ended := LastAs(frozen, Completed, 9, NoCode, TurnFinished(9, Completed, NoCode));
    j := Took(j, frozen, FinishTurn(9, Completed, NoCode), ended);
    StatusSteps(ended, Ready);
    db := StatusAs(ended, Ready);
    j := Took(j, ended, SetRoomStatus(Ready), db);
    StillBlamed(past, j);
  }

  /** The room in another status, with the event about it. */
  function StatusAs(db: Database, s: Status): Database
  {
    Append(db.(status := s), StatusChanged(db.status, s))
  }

  lemma StatusSteps(db: Database, s: Status)
    requires db.status != s
    ensures Step(db, SetRoomStatus(s)) == Success(StatusAs(db, s))
  {
  }

  lemma BoundSteps(bound: Database)
    requires bound == Append(Base().(thread := 7), ThreadBound(0, 7))
    ensures Step(Base(), BindThread(7)) == Success(bound)
    ensures Quiet(bound) && KnownTurns([]) == {} && bound.nextSeq == 2
  {
  }

  lemma HistoryRead(j: Journal, db: Database, h: History)
    requires Run(j, db) && OrdinaryTurns(j) + QuestionTurns(j) <= TurnIds(h.turns) == KnownTurns(j)
    ensures Run(j + [ThreadRead(h)], db)
    ensures OrdinaryTurns(j + [ThreadRead(h)]) == OrdinaryTurns(j) && QuestionTurns(j + [ThreadRead(h)]) == QuestionTurns(j)
    ensures KnownTurns(j + [ThreadRead(h)]) == KnownTurns(j)
  {
    SafeExtend(Base(), j, ThreadRead(h));
  }

  /**
   A run in which only prompt 5 was ever blamed and has completed, and a memory that agrees with
   its tables, carries the flag, and works on prompt 6: its completion is stored as failed.
   */
  lemma SoundTurnStoredFailed() returns (j: Journal, m: Memory)
    ensures Safe(Base(), j) && AllAnswered(j)
    ensures OnlyBlamed(j)
    ensures var db := Current(Base(), j);
            && Agrees(m, true, true, db, j) && FrontierOwned(m, true, None, db, j)
            && IsReady(m) && m.active == Some(Binding(6, 10, Running))
            && PromptIn(db, 5, Completed) && PromptIn(db, 6, Running)
            && Step(db, Ending(10, Completed, true)).Success?
            && PromptIn(Step(db, Ending(10, Completed, true)).value, 6, Failed)
  {
    hide Step, OnlyBlamed;
    var settled;
    j, settled := FaultSettled();
    var before := j;
    SettledQuiet(settled);
    var db;
    j, db := Starts(before, settled, 6, 10);
    StillBlamed(before, j);
    m := Memory(Some(Ready), 7, Some(Binding(6, 10, Running)), [], []);
    LostAccepted(j);
    WorkingOn(m, db, j);
    WorkingEnds(db);
  }

  lemma SettledQuiet(db: Database)
    requires db.messages == [Prompted(5, Completed, 9, NoCode, 2)] && db.status == Ready && db.thread == 7 && db.frontier == None
    ensures Quiet(db)
  {
  }

  lemma TwoRows(db: Database)
    requires |db.messages| == 2 && db.messages[0].id == 5 && db.messages[1].id == 6
    ensures Distinct(db.messages) && IndexOf(db.messages, 5) == 0 && IndexOf(db.messages, 6) == 1
  {
    IndexUnique(db.messages, 0);
    IndexUnique(db.messages, 1);
  }

  lemma WorkingOn(m: Memory, db: Database, j: Journal)
    requires |db.messages| == 2 && db.messages[0] == Prompted(5, Completed, 9, NoCode, 2)
    requires db.messages[1].id == 6 && db.messages[1].kind == Prompt && db.messages[1].state == Running && db.messages[1].turn == 10
    requires db.status == Ready && db.thread == 7 && db.frontier == None && 10 in OrdinaryTurns(j)
    requires m == Memory(Some(Ready), 7, Some(Binding(6, 10, Running)), [], []) && Overlooked(j) == {}
    ensures Agrees(m, true, true, db, j) && FrontierOwned(m, true, None, db, j)
    ensures PromptIn(db, 5, Completed) && PromptIn(db, 6, Running)
  {
    TwoRows(db);
    QueueEmpty(db.messages, {});
    assert Matches(m.active.value, db.messages);
    assert InStep(m, true, true, db);
    assert InTouch(m, true, db, OrdinaryTurns(j));
  }

  lemma WorkingEnds(db: Database)
    requires |db.messages| == 2 && db.messages[0] == Prompted(5, Completed, 9, NoCode, 2)
    requires db.messages[1].id == 6 && db.messages[1].kind == Prompt && db.messages[1].state == Running && db.messages[1].turn == 10
    ensures Step(db, Ending(10, Completed, true)).Success?
    ensures PromptIn(Step(db, Ending(10, Completed, true)).value, 6, Failed)
  {
    assert BoundIndex(db.messages, 10) == 1;
    TwoRows(Step(db, Ending(10, Completed, true)).value);
  }
}
