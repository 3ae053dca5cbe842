/** Whole runs of a room: any sequence of commands and agent events, with a crash after any effect. */
module RoomRuns {
  import opened Wrappers
  import opened RoomStore
  import opened RoomStoreFacts
  import opened DispatchJournal
  import opened RoomSafety
  import opened RoomEnvironment
  import opened RoomMemory
  import opened RoomCoherence
  import opened RoomCoordinator

  /** One turn of the command loop, with arbitrary input. */
  method Serve(c: Coordinator)
    requires c.Valid() && !c.fatal
    modifies c, c.env
    ensures c.Valid()
  {
    hide Safe, Agrees, AllAnswered, Durable, FrontierHeld, Resumed, Asked, Dispatched;
    var choice: nat := *;
    var actor: Uid := *;
    var id: MessageId := *;
    var body: nat := *;
    var task: TaskId := *;
    var turn: TurnId := *;
    var note: bool := *;
    if choice == 0 {
      var _ := c.HandleSubmit(actor, id, body, task, note);
    } else if choice == 1 {
      var _ := c.HandleControl(actor, id, if note then Steer else Cancel, turn, body);
    } else if choice == 2 {
      var event: AgentEvent := *;
      if event.TurnEnded? && !Terminal(event.state) {
        return;
      }
      c.HandleAgentEvent(event);
    } else if choice == 3 {
      var _ := c.HandleRecover();
    } else if choice == 4 {
      var target: MessageId := *;
      var action: Action := *;
      var replacement: MessageId := *;
      var _ := c.HandleResolve(actor, id, target, action, replacement, body);
    } else if choice == 5 {
      var _ := c.HandleQuestion();
    } else {
      ChangeTask(c, if choice == 6 then ConvertTask(actor, id) else if choice == 7 then CompleteTask(actor, task) else ReopenTask(actor, task));
    }
  }

  /** A task change by another connection: it writes only tables of project tasks. */
  method ChangeTask(c: Coordinator, op: Op)
    requires c.Valid() && !c.fatal && (op.ConvertTask? || op.CompleteTask? || op.ReopenTask?)
    modifies c.env
    ensures c.Valid()
  {
    hide Safe, Agrees, Current, AllAnswered, Untold, Durable, FrontierHeld, InHand, Disciplined, WellFormed;
    ghost var was, past := c.env.db, c.env.journal;
    FreeOp(c.state, was, past, op);
    c.env.DurableNow();
    var r := c.env.Transact(op);
    if c.env.journal != past {
      CommitColumns(was, past, op, c.env.db, Committed(op, c.env.db, r.Success?));
      if r.Success? {
        RowsKeptAgree(c.state, c.loaded, c.activeFault, was, past, op, c.env.db, c.env.journal);
      } else {
        LostAgrees(c.state, c.loaded, c.activeFault, was, past, op, c.env.db, c.env.journal);
      }
    }
  }

  /**
   A room's life: processes start, serve, and die.  Each dies after an arbitrary effect,
   even in the middle of a handler, and the next one starts from the tables left behind.
   Any answer of the store may be lost on the way.
   */
  method Live(members: map<Uid, bool>, projectRoot: nat, lives: nat) returns (env: Environment)
    ensures env.members == members
    ensures env.Valid()
    ensures forall id :: Starts(env.journal, id) <= 1 + Retries(Initial(members), env.journal, id)
    ensures Durable(env.db, env.journal)
  {
    hide Safe, Durable;
    env := new Environment(members);
    var life := 0;
    while life < lives
      invariant fresh(env) && env.members == members
      invariant env.Valid() && env.db.nextSeq > 0 && env.high + 1 == env.db.nextSeq
    {
      var c := new Coordinator(env, projectRoot);
      var served: nat := *;
      while served > 0 && !c.fatal
        invariant c.env == env && fresh(c) && c.Valid()
      {
        Serve(c);
        served := served - 1;
      }
      var kept: int := *;
      env.Crash(if 0 <= kept <= |env.journal| then kept else |env.journal|);
      life := life + 1;
    }
    forall id
      ensures Starts(env.journal, id) <= 1 + Retries(Initial(members), env.journal, id)
    {
      StartedAtMostOnce(members, env.journal, id);
    }
    env.DurableNow();
  }
}
