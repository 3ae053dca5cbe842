/**
 The coordinator: one command loop over volatile state, a durable store and an agent.
 Publishing to subscribers is reduced to event numbers; the live projection and the text
 of answers are modelled elsewhere or left out.

 The contracts name effects by their position in the journal: the effects of a call begin
 at the length the journal had before it.
 */
module RoomCoordinator {
  import opened Wrappers
  import opened RoomStore
  import opened RoomStoreFacts
  import opened RoomTransitions
  import opened DispatchJournal
  import opened RoomSafety
  import opened RoomEnvironment
  import opened RoomMemory
  import opened RoomCoherence

  datatype Fault = NoFault | StaleTurnFault | NotSentFault | UnknownFault | StoreFault | Refused

  datatype AgentEvent =
    | ItemDelta(thread: ThreadId, turn: TurnId)
    | ItemDone(item: Item)
    | TurnEnded(thread: ThreadId, turn: TurnId, state: State)
    | ProtocolError(thread: ThreadId, turn: TurnId)
    | RuntimeUnavailable
    | RuntimeReady

  predicate ValidTurn(t: HistoryTurn, id: ThreadId)
  {
    && t.id != 0
    && (t.state == Running || Terminal(t.state))
    && (forall k :: 0 <= k < |t.items| ==> t.items[k].thread == id && t.items[k].turn == t.id && t.items[k].item != 0)
    && (forall k, l :: 0 <= k < l < |t.items| ==> t.items[k].item != t.items[l].item)
  }

  /** validThread. */
  predicate ValidThread(h: History, id: ThreadId, projectRoot: nat)
  {
    && id != 0 && h.id == id && h.cwd == projectRoot
    && (forall k :: 0 <= k < |h.turns| ==> ValidTurn(h.turns[k], id))
    && (forall k, l :: 0 <= k < l < |h.turns| ==> h.turns[k].id != h.turns[l].id)
  }

  // ---- What the contracts say about effects --------------------------------------------------

  /** From position n: the prompt's dispatch, its start with this outcome, and what was stored about it. */
  predicate Dispatched(j: Journal, n: nat, id: MessageId, outcome: StartOutcome, op: Op)
  {
    AnsweredAt(j, n, BeginDispatch(id)) && StartedAt(j, n + 1, id, outcome, op)
  }

  /** From position n: the prompt's start with this outcome, and what was stored about it. */
  predicate StartedAt(j: Journal, n: nat, id: MessageId, outcome: StartOutcome, op: Op)
  {
    && |j| > n + 1 && j[n].TurnStart? && j[n].id == id && j[n].outcome == outcome
    && Answered(j[n + 1], op)
  }

  /** The effect at position n is this transaction, and its caller was told. */
  predicate AnsweredAt(j: Journal, n: nat, op: Op) { |j| > n && Answered(j[n], op) }

  /** The pending controls once the first entry of a control was dropped, or marked for review. */
  function Settled(cs: seq<Binding>, id: MessageId, s: State): seq<Binding>
  {
    if cs == [] then []
    else if cs[0].id != id then [cs[0]] + Settled(cs[1..], id, s)
    else Marked(cs[0], s) + cs[1..]
  }

  function Marked(b: Binding, s: State): seq<Binding>
  {
    if s == NeedsReview then [b.(state := NeedsReview)] else []
  }

  /** How a delivery is stored and answered. */
  function DeliveryState(d: Delivery): State
  {
    match d
    case Delivered => Completed
    case Unsent => Failed
    case Uncertain => NeedsReview
  }

  function DeliveryCode(d: Delivery): Code
  {
    match d
    case Delivered => NoCode
    case Unsent => Code.DeliveryNotSent
    case Uncertain => Code.DeliveryUnknown
  }

  function DeliveryFault(d: Delivery): Fault
  {
    match d
    case Delivered => NoFault
    case Unsent => NotSentFault
    case Uncertain => UnknownFault
  }

  /** From position n: the control was sent to this turn, and its outcome was stored and answered. */
  predicate ControlledAt(j: Journal, n: nat, turn: TurnId, id: MessageId, e: Fault)
  {
    && |j| > n + 1 && j[n].Controlled? && j[n].turn == turn
    && Answered(j[n + 1], FinishControl(id, DeliveryState(j[n].delivery), DeliveryCode(j[n].delivery)))
    && e == DeliveryFault(j[n].delivery)
  }

  /** The end of a turn as it is stored: while a fault stands it has failed, whatever the agent says. */
  function Ending(turn: TurnId, outcome: State, fault: bool): Op
  {
    if fault then FinishTurn(turn, Failed, FaultCode)
    else FinishTurn(turn, outcome, if outcome == Completed then NoCode else OtherCode)
  }

  /** The same for an end that recovery found in the agent's history. */
  function EndingFound(turn: TurnId, outcome: State): Op { Ending(turn, outcome, false) }

  predicate TurnLogged(db: Database, t: HistoryTurn)
  {
    forall k :: 0 <= k < |t.items| ==> Logged(db, t.items[k])
  }

  /** Every item of the first n turns is in the log, unless its turn is hidden. */
  predicate VisibleLogged(db: Database, turns: seq<HistoryTurn>, hidden: set<TurnId>, n: nat)
    requires n <= |turns|
  {
    forall k :: 0 <= k < n && turns[k].id !in hidden ==> TurnLogged(db, turns[k])
  }

  /** The history shows that the turn has ended so. */
  predicate EndedAs(t: HistoryTurn, hidden: set<TurnId>, turn: TurnId)
  {
    t.id == turn && t.id !in hidden && Terminal(t.state)
  }

  /** All of the first n turns agree on the turn's end, which is `end`, or none shows one. */
  predicate EndOf(turns: seq<HistoryTurn>, hidden: set<TurnId>, turn: TurnId, n: nat, end: Option<State>)
    requires n <= |turns|
  {
    && (forall k :: 0 <= k < n && EndedAs(turns[k], hidden, turn) ==> end == Some(turns[k].state))
    && (end.Some? ==> exists k :: 0 <= k < n && EndedAs(turns[k], hidden, turn) && turns[k].state == end.value)
  }

  /** The histories disagree about the turn's end. */
  predicate EndsDiffer(turns: seq<HistoryTurn>, hidden: set<TurnId>, turn: TurnId)
  {
    exists k, l :: 0 <= k < |turns| && 0 <= l < |turns| && EndedAs(turns[k], hidden, turn) && EndedAs(turns[l], hidden, turn)
                   && turns[k].state != turns[l].state
  }

  /**
   What reconciling leaves: every visible turn is logged, and the active prompt was finished
   as its history shows, or awaits review.
   */
  predicate Reconciled(turns: seq<HistoryTurn>, before: Database, active: Option<Binding>, db: Database, j: Journal, left: Option<Binding>)
  {
    var hidden := HiddenTurns(before, TurnIds(turns));
    && VisibleLogged(db, turns, hidden, |turns|)
    && (active.None? ==> left.None?)
    && (active.Some? ==>
          && (forall k :: 0 <= k < |turns| && EndedAs(turns[k], hidden, active.value.turn) ==>
                            left.None? && j != [] && Answered(Last(j), EndingFound(active.value.turn, turns[k].state)))
          && ((forall k :: 0 <= k < |turns| ==> !EndedAs(turns[k], hidden, active.value.turn)) ==>
                left == Some(active.value.(state := NeedsReview))))
    && (left.Some? ==> left.value.state == NeedsReview)
  }

  /**
   From position n: the agent's history cannot be used.  It does not check, before or after the
   thread was resumed, or it disagrees with itself about the end of the active turn.
   */
  predicate Unusable(j: Journal, n: nat, m: Memory, db: Database, projectRoot: nat)
  {
    if m.thread == 0 then |j| > n && j[n].ThreadStarted? && !ValidThread(j[n].history, j[n].history.id, projectRoot)
    else
      && |j| > n && j[n].ThreadRead?
      && (|| !ValidThread(j[n].history, m.thread, projectRoot)
          || (&& |j| > n + 1 && j[n + 1].ThreadResumed?
              && (|| !ValidThread(j[n + 1].history, m.thread, projectRoot)
                  || (m.active.Some? && DisagreeOn(j[n].history.turns + j[n + 1].history.turns, db, m.active.value.turn)))))
  }

  predicate DisagreeOn(turns: seq<HistoryTurn>, db: Database, turn: TurnId)
  {
    EndsDiffer(turns, HiddenTurns(db, TurnIds(turns)), turn)
  }

  /** At or after position n this transaction was committed, and its caller was told. */
  predicate AnsweredFrom(j: Journal, n: nat, op: Op)
  {
    exists i :: n <= i < |j| && Answered(j[i], op)
  }

  /**
   What a successful recovery of an existing thread did, from position n: the room was frozen in the
   store, the history was read, the thread resumed, everything visible is in the log, and the active
   prompt was finished as the history shows, or awaits review.
   */
  predicate RecoveredAt(j: Journal, n: nat, image: Memory, before: Database, db: Database, left: Option<Binding>, projectRoot: nat)
  {
    && AnsweredAt(j, n, SetRoomStatus(Recovering))
    && |j| > n + 2 && j[n + 1].ThreadRead? && j[n + 2].ThreadResumed?
    && ValidThread(j[n + 1].history, image.thread, projectRoot) && ValidThread(j[n + 2].history, image.thread, projectRoot)
    && var turns := j[n + 1].history.turns + j[n + 2].history.turns;
       HistoryTaken(turns, HiddenTurns(before, TurnIds(turns)), image.active, db, j, n + 3, left)
  }

  predicate HistoryTaken(turns: seq<HistoryTurn>, hidden: set<TurnId>, active: Option<Binding>, db: Database, j: Journal, n: nat,
                         left: Option<Binding>)
  {
    && VisibleLogged(db, turns, hidden, |turns|)
    && (active.Some? ==>
          && (forall k :: 0 <= k < |turns| && EndedAs(turns[k], hidden, active.value.turn) ==>
                            AnsweredFrom(j, n, EndingFound(active.value.turn, turns[k].state)))
          && ((forall k :: 0 <= k < |turns| ==> !EndedAs(turns[k], hidden, active.value.turn)) ==>
                left == Some(active.value.(state := NeedsReview))))
  }

  /** Whether a retry of this control would reach the agent. */
  predicate Hears(m: Memory, expected: TurnId)
  {
    m.active.Some? && m.active.value.state == Running && m.active.value.turn == expected && m.thread != 0
  }

  predicate RetriesControl(db: Database, action: Action, target: MessageId)
  {
    action == Retry && Exists(db.messages, target) && IsControl(Row(db.messages, target).kind)
  }

  /** The turn the target was meant for. */
  function ExpectedTurn(db: Database, target: MessageId): TurnId
  {
    if Exists(db.messages, target) then Row(db.messages, target).turn else 0
  }

  /** From position n: the retried control was sent to its turn, or failed as stale. */
  predicate RetriedAt(j: Journal, n: nat, heard: bool, target: MessageId, expected: TurnId, e: Fault)
  {
    if heard then ControlledAt(j, n, expected, target, e)
    else AnsweredAt(j, n, FinishControl(target, Failed, StaleTurn)) && e == StaleTurnFault
  }

  /** A memory whose room is settled: it may become ready. */
  predicate Settleable(m: Memory)
  {
    m.controls == [] && (m.active.None? || m.active.value.state == Running)
  }

  /** From position n: a settleable room became ready, and dispatched the head of its queue if idle. */
  predicate ReadiedAt(j: Journal, n: nat, image: Memory)
  {
    && AnsweredAt(j, n, SetRoomStatus(Ready))
    && (image.active.None? && image.queue != [] ==> AnsweredAt(j, n + 1, BeginDispatch(image.queue[0])))
  }

  /**
   What a fresh decision leads to, from position n, given the image read after it: a room that
   needs repair stays so; a retried control is sent again first; a settled room becomes ready.
   */
  predicate Resumed(image: Memory, repair: bool, retried: bool, target: MessageId, expected: TurnId,
                    j: Journal, n: nat, after: Memory, e: Fault)
  {
    && |j| > n && j[n].ImageRead?
    && if repair then e == UnknownFault && after == image.(status := Some(NeedsRepair)) && |j| == n + 1
       else if !retried then Readied(image, j, n + 1, NoFault, after, e)
       else
         var heard := Hears(image, expected);
         var k := if heard then n + 3 else n + 2;
         && |j| > k && RetriedAt(j, n + 1, heard, target, expected, RetryAnswer(j, n + 1, heard))
         && j[k - 1].Committed? && j[k].ImageRead?
         && Readied(Loaded(j[k - 1].db), j, k + 1, RetryAnswer(j, n + 1, heard), after, e)
  }

  /** What the caller of a retried control is told, if nothing else went wrong. */
  function RetryAnswer(j: Journal, n: nat, heard: bool): Fault
  {
    if heard && n < |j| && j[n].Controlled? then DeliveryFault(j[n].delivery) else StaleTurnFault
  }

  /** From position n: a settleable room became ready and went on; any other one keeps its image and the answer. */
  predicate Readied(image: Memory, j: Journal, n: nat, answer: Fault, after: Memory, e: Fault)
  {
    if !Settleable(image) then e == answer && after == image && |j| == n
    else
      && ReadiedAt(j, n, image)
      && (image.active.Some? || image.queue == [] ==> e == answer && after == image.(status := Some(Ready)) && |j| == n + 1)
  }

  predicate StillRunning(h: History)
  {
    exists k :: 0 <= k < |h.turns| && h.turns[k].state == Running
  }

  /** At position n the question was started; what was answered says what followed. */
  predicate AskedAt(j: Journal, n: nat, question: Option<TurnId>, e: Fault)
  {
    && |j| > n && j[n].QuestionStart?
    && (e == NoFault || e == NotSentFault || e == UnknownFault)
    && (e == NoFault ==> question.Some? && j[n] == QuestionStart(Started(question.value), Some(question.value)) && |j| == n + 1)
    && (e == NotSentFault ==>
          question.None? && j[n] == QuestionStart(NotSent, None) && AnsweredAt(j, n + 1, EndPrivateTurn({})) && |j| == n + 2)
    && (e == UnknownFault ==> question.None? && j[n].outcome == Unknown && |j| == n + 1)
  }

  /** The frontier was stored at position n, right before the question was started. */
  predicate Asked(j: Journal, n: nat, baseline: set<TurnId>, question: Option<TurnId>, e: Fault)
  {
    AnsweredAt(j, n, BeginPrivateTurn(baseline)) && AskedAt(j, n + 1, question, e)
  }

  class Coordinator {
    const env: Environment
    const projectRoot: nat
    var state: Memory
    var latestSeq: nat
    var question: Option<TurnId>  // the turn of the private question in progress
    var threadCreationUncertain: bool
    var runtimeReadySeen: bool
    var threadReady: bool
    var activeFault: bool
    var fatal: bool
    ghost var loaded: bool        // a recovery image was loaded by this process
    ghost var faulty: MessageId   // the prompt the newest fault was reported for
    ghost var reloaded: bool      // a recovery image was loaded since then

    /** Every committed event has been handed to the sink, in order. */
    ghost predicate Published()
      reads this, env
    {
      env.high + 1 == env.db.nextSeq && latestSeq < env.db.nextSeq && (loaded ==> latestSeq + 1 == env.db.nextSeq)
    }

    /** Until an image is loaded, the fault belongs to the active prompt, and the room is frozen. */
    ghost predicate FaultOwned()
      reads this
    {
      activeFault && !reloaded ==> !IsReady(state) && (state.active.Some? ==> state.active.value.id == faulty)
    }

    /** With at most one pending control, a queue the coordinator relies on is the stored one. */
    ghost predicate QueueTrusted()
      reads this, env
    {
      loaded && |state.controls| <= 1 ==>
        && (env.Told() && Relies(state, activeFault) ==> QueueMatches(state, env.db.messages))
        && (Relying(state, env.db.messages) ==> QueueKnown(state, env.db.messages, Overlooked(env.journal)))
    }

    /** The flags stand to memory and tables as the handlers assume. */
    ghost predicate FlagsHold()
      reads this, env
    {
      && FrontierOwned(state, loaded, question, env.db, env.journal)
      && (threadReady ==> loaded && env.db.thread != 0)
      && FaultOwned()
    }

    /** Memory agrees with the store as far as this process relies on it. */
    ghost predicate Coherent()
      reads this, env
    {
      && Agrees(state, loaded, activeFault, env.db, env.journal)
      && FlagsHold()
      && (env.Told() ==> Published())
    }

    ghost predicate Valid()
      reads this, env
    {
      env.Valid() && (!fatal ==> Coherent())
    }

    /** A new process: nothing is remembered. */
    constructor (env: Environment, projectRoot: nat)
      requires env.Valid() && env.high + 1 == env.db.nextSeq && env.db.nextSeq > 0
      ensures Valid() && !fatal && this.env == env
    {
      this.env := env;
      this.projectRoot := projectRoot;
      state := Memory(None, 0, None, [], []);
      latestSeq := 0;
      question := None;
      threadCreationUncertain, runtimeReadySeen, threadReady, activeFault, fatal := false, false, false, false, false;
      loaded, faulty, reloaded := false, 0, false;
      new;
      hide Safe, Current, AllAnswered, Agrees, FrontierHeld, Overlooked, QueueBut, QueueKnown, NoReviewedPrompts, Relying;
      UnloadedAgrees(state, activeFault, env.db, env.journal);
    }

    // ---- Committing and publishing -------------------------------------------------------

    /** publish. */
    method Publish(n: nat)
      requires env.Told() ==> n <= env.high + 1
      modifies this`latestSeq, env`high
      ensures env.high == if n > old(env.high) then n else old(env.high)
      ensures latestSeq == if n > old(latestSeq) then n else old(latestSeq)
    {
      if n > latestSeq {
        latestSeq := n;
      }
      env.Publish(n);
    }

    /** A transaction, and the publication of the events it wrote. */
    method Commit(op: Op) returns (r: Result<bool, StoreError>)
      requires env.Valid() && (env.Told() ==> Published())
      requires Agrees(state, loaded, activeFault, env.db, env.journal)
      requires Step(env.db, op).Success? ==> InHand(state, env.db, op) && Disciplined(env.journal, env.db, op)
      modifies this`latestSeq, env`db, env`journal, env`high, env`storeErrors
      ensures env.Valid() && (env.Told() ==> Published()) && Grew(old(env.journal), env.journal)
      ensures r.Success? ==> Answers(old(env.db), old(env.journal), op, env.db, env.journal) && env.storeErrors == old(env.storeErrors)
      ensures r.Success? ==> AnsweredAt(env.journal, |old(env.journal)|, op) && |env.journal| == |old(env.journal)| + 1
      ensures r.Failure? ==> Agrees(state, loaded, activeFault, env.db, env.journal) && env.storeErrors == old(env.storeErrors) + 1
      ensures r.Failure? && env.journal != old(env.journal) ==>
                Step(old(env.db), op) == Success(env.db) && env.journal == old(env.journal) + [Committed(op, env.db, false)]
      ensures r.Failure? && env.journal == old(env.journal) ==> env.db == old(env.db)
      ensures Step(old(env.db), op).Failure? ==> r.Failure? && env.journal == old(env.journal)
      ensures TurnsKept(old(env.db), old(env.journal), op, env.db, env.journal)
      ensures env.journal == old(env.journal) ==> FrontierHeld(env.journal, env.db) == old(FrontierHeld(env.journal, env.db))
      ensures env.journal != old(env.journal) && op.BeginPrivateTurn? ==> FrontierHeld(env.journal, env.db) == r.Success?
      ensures env.journal != old(env.journal) && op.EndPrivateTurn? ==>
                env.db.frontier.None? && env.db.hidden == old(env.db.hidden) + op.turns
      ensures Durable(old(env.db), old(env.journal)) && WellFormed(old(env.db)) && Extends(old(env.db), env.db)
    {
      hide Safe, Step, Agrees, Current, AllAnswered, Untold, InHand, Disciplined, Durable, FrontierHeld, TurnsKept, WellFormed, Extends, OrdinaryTurns, QuestionTurns, KnownTurns, AgentRule, Queue, Overlooked, QueueBut, QueueKnown, NoReviewedPrompts, Relying;
      var from := env.db.nextSeq;
      ghost var was, past := env.db, env.journal;
      env.DurableNow();
      CurrentWellFormed(env.members, env.journal);
      StepKeeps(was, op);
      SameLogKeeps(was, was);
      NothingStored(was, past, op);
      r := env.Transact(op);
      if env.journal != past {
        CommitColumns(was, past, op, env.db, Committed(op, env.db, r.Success?));
        if r.Failure? {
          LostAgrees(state, loaded, activeFault, was, past, op, env.db, env.journal);
        }
      }
      if r.Success? {
        GrewOne(past, Committed(op, env.db, true));
        ghost var now, db := env.journal, env.db;
        var n := from;
        while n < env.db.nextSeq
          invariant from <= n <= env.db.nextSeq
          invariant env.Told() ==> env.high + 1 == n && latestSeq < n && (loaded ==> latestSeq + 1 == n)
          invariant env.db == db && env.journal == now && env.Valid() && env.storeErrors == old(env.storeErrors)
        {
          Publish(n);
          n := n + 1;
        }
      }
    }

    // ---- Dispatching ------------------------------------------------------------------------

    predicate Eligible()
      reads this
    {
      MayStart() && state.queue != []
    }

    /** Ready and idle: only a prompt is missing. */
    predicate MayStart()
      reads this
    {
      question.None? && IsReady(state) && state.active.None? && state.controls == []
    }

    /** The first half of dispatchNext: the head of the queue is committed as dispatching. */
    method BeginNext() returns (ok: bool)
      requires Valid() && !fatal && Eligible()
      modifies this`state, this`latestSeq, env
      ensures Valid() && Grew(old(env.journal), env.journal)
      ensures env.agentErrors == old(env.agentErrors)
      ensures !ok ==> state == old(state) && env.storeErrors > old(env.storeErrors)
      ensures ok ==>
                && state == old(state).(active := Some(Binding(old(state).queue[0], 0, Dispatching)))
                && env.journal == old(env.journal) + [Committed(BeginDispatch(old(state).queue[0]), env.db, true)]
                && env.storeErrors == old(env.storeErrors)
                && loaded && !FrontierHeld(env.journal, env.db)
                && (env.Told() ==> state.queue == [state.queue[0]] + Queue(env.db.messages))
    {
      hide Safe, Step, Agrees, Current, AllAnswered, Untold, InHand, Disciplined, Durable, FrontierHeld, WellFormed, Extends, OrdinaryTurns, QuestionTurns, KnownTurns, AgentRule, Queue, Overlooked, QueueBut, QueueKnown, NoReviewedPrompts, Relying;
      ghost var was, past := env.db, env.journal;
      env.DurableNow();
      CurrentWellFormed(env.members, env.journal);
      BeginAllowed(state, loaded, activeFault, was, past);
      var begun := Commit(BeginDispatch(state.queue[0]));
      if begun.Failure? {
        return false;
      }
      BegunAgrees(state, activeFault, was, past, env.db, env.journal);
      state := state.(active := Some(Binding(state.queue[0], 0, Dispatching)));
      return true;
    }

    /** dispatchNext. */
    method DispatchNext() returns (e: Fault)
      requires Valid() && !fatal
      modifies this`state, this`latestSeq, env
      ensures Valid() && Grew(old(env.journal), env.journal)
      ensures !old(Eligible()) ==>
                && e == NoFault && state == old(state) && env.journal == old(env.journal) && env.db == old(env.db)
                && env.storeErrors == old(env.storeErrors) && env.agentErrors == old(env.agentErrors)
      ensures old(Eligible()) && e == NoFault ==>
                var id, n := old(state).queue[0], |old(env.journal)|;
                && state.active.Some? && var t := state.active.value.turn;
                && state == old(state).(active := Some(Binding(id, t, Running)), queue := old(state).queue[1..])
                && Dispatched(env.journal, n, id, Started(t), BindRunningTurn(id, t)) && |env.journal| == n + 3
      ensures e == NotSentFault ==>
                && old(Eligible()) && env.agentErrors > old(env.agentErrors)
                && var id := old(state).queue[0];
                   Dispatched(env.journal, |old(env.journal)|, id, NotSent, FailDispatch(id, Failed, Code.DeliveryNotSent))
      ensures e == UnknownFault ==>
                && old(Eligible()) && env.agentErrors > old(env.agentErrors)
                && var id := old(state).queue[0];
                && Dispatched(env.journal, |old(env.journal)|, id, Unknown, MarkNeedsReview(id, Code.DeliveryUnknown))
                && state.status == Some(Recovering) && state.active == Some(Binding(id, 0, NeedsReview))
                && PromptIn(env.db, id, NeedsReview) && env.db.status == Recovering
      ensures e == StoreFault ==> old(Eligible()) && env.storeErrors > old(env.storeErrors)
      ensures old(Eligible()) && e != StoreFault ==> AnsweredAt(env.journal, |old(env.journal)|, BeginDispatch(old(state).queue[0]))
      ensures e != StaleTurnFault && e != Refused
      ensures env.agentErrors >= old(env.agentErrors)
      decreases |state.queue|, 2
    {
      hide Safe, Agrees, Current, AllAnswered, Untold, Durable, FrontierHeld, PromptIn, Disciplined, InHand, WellFormed, Extends, OrdinaryTurns, QuestionTurns, KnownTurns, AgentRule, Queue, FrontierOwned, Step, Overlooked, QueueBut, QueueKnown, NoReviewedPrompts, Relying;
      if !Eligible() {
        return NoFault;
      }
      var id := state.queue[0];
      var begun := BeginNext();
      if !begun {
        return StoreFault;
      }
      e := StartNext(id);
    }

    /** The second half of dispatchNext: the turn is started, and its answer decides. */
    method StartNext(id: MessageId) returns (e: Fault)
      requires Valid() && !fatal && loaded && question.None? && IsReady(state) && state.controls == []
      requires state.active == Some(Binding(id, 0, Dispatching)) && state.queue != [] && state.queue[0] == id
      requires env.Told() ==> state.queue == [id] + Queue(env.db.messages)
      requires JustAnswered(env.journal, BeginDispatch(id))
      modifies this`state, this`latestSeq, env
      ensures Valid() && Grew(old(env.journal), env.journal)
      ensures e == NoFault ==>
                var n := |old(env.journal)|;
                && state.active.Some? && var t := state.active.value.turn;
                && state == old(state).(active := Some(Binding(id, t, Running)), queue := old(state).queue[1..])
                && StartedAt(env.journal, n, id, Started(t), BindRunningTurn(id, t)) && |env.journal| == n + 2
      ensures e == NotSentFault ==>
                && env.agentErrors > old(env.agentErrors)
                && StartedAt(env.journal, |old(env.journal)|, id, NotSent, FailDispatch(id, Failed, Code.DeliveryNotSent))
      ensures e == UnknownFault ==>
                && env.agentErrors > old(env.agentErrors)
                && StartedAt(env.journal, |old(env.journal)|, id, Unknown, MarkNeedsReview(id, Code.DeliveryUnknown))
                && state.status == Some(Recovering) && state.active == Some(Binding(id, 0, NeedsReview))
                && PromptIn(env.db, id, NeedsReview) && env.db.status == Recovering
      ensures e == StoreFault ==> env.storeErrors > old(env.storeErrors)
      ensures e != StaleTurnFault && e != Refused
      ensures env.agentErrors >= old(env.agentErrors)
      decreases |state.queue|, 1
    {
      hide Safe, Agrees, Current, AllAnswered, Untold, Durable, FrontierHeld, PromptIn, Disciplined, InHand, WellFormed, Extends, OrdinaryTurns, QuestionTurns, KnownTurns, AgentRule, Queue, Step, Overlooked, QueueBut, QueueKnown, NoReviewedPrompts, Relying;
      ghost var past := env.journal;
      var outcome := env.StartTurn(id);
      CallAgrees(state, loaded, activeFault, question, env.db, past, Last(env.journal));
      match outcome {
        case NotSent =>
          e := DispatchFailed(id);
        case Unknown =>
          e := DispatchUncertain(id);
        case Started(turn) =>
          e := DispatchStarted(id, turn);
      }
    }

    /** The turn is certainly not running: the prompt fails and the next one is tried. */
    method DispatchFailed(id: MessageId) returns (e: Fault)
      requires Valid() && !fatal && loaded && question.None? && IsReady(state) && state.controls == []
      requires state.active == Some(Binding(id, 0, Dispatching)) && state.queue != [] && state.queue[0] == id
      requires env.Told() ==> state.queue == [id] + Queue(env.db.messages)
      requires env.journal != [] && Last(env.journal) == TurnStart(id, NotSent, None)
      modifies this`state, this`latestSeq, env
      ensures Valid() && Grew(old(env.journal), env.journal)
      ensures e == NotSentFault || e == StoreFault
      ensures e == StoreFault ==> state == old(state) && env.storeErrors > old(env.storeErrors)
      ensures e == NotSentFault ==>
                && AnsweredAt(env.journal, |old(env.journal)|, FailDispatch(id, Failed, Code.DeliveryNotSent))
                && (|old(state).queue| > 1 ==>
                      || env.storeErrors > old(env.storeErrors)
                      || AnsweredAt(env.journal, |old(env.journal)| + 1, BeginDispatch(old(state).queue[1])))
      ensures env.agentErrors >= old(env.agentErrors)
      decreases |state.queue|, 0
    {
      hide Safe, Step, Agrees, Current, AllAnswered, Untold, Durable, FrontierHeld, Disciplined, InHand, WellFormed, Extends, OrdinaryTurns, QuestionTurns, KnownTurns, AgentRule, Queue, Dispatched, Overlooked, QueueBut, QueueKnown, NoReviewedPrompts, Relying;
      ghost var was, past := env.db, env.journal;
      var op := FailDispatch(id, Failed, Code.DeliveryNotSent);
      AnswerOp(state, was, past, op);
      env.DurableNow();
      var r := Commit(op);
      if r.Failure? {
        return StoreFault;
      }
      FailedAgrees(state, activeFault, was, past, op, env.db, env.journal);
      state := state.(active := None, queue := state.queue[1..]);
      var _ := DispatchNext();
      return NotSentFault;
    }

    /** Nobody knows whether the turn is running: the room freezes and the prompt awaits review. */
    method DispatchUncertain(id: MessageId) returns (e: Fault)
      requires Valid() && !fatal && loaded && question.None? && state.controls == []
      requires state.active == Some(Binding(id, 0, Dispatching)) && state.queue != [] && state.queue[0] == id
      requires env.Told() ==> state.queue == [id] + Queue(env.db.messages)
      modifies this`state, this`latestSeq, env
      ensures Valid() && Grew(old(env.journal), env.journal)
      ensures e == UnknownFault || e == StoreFault
      ensures state.status == Some(Recovering)
      ensures e == UnknownFault ==>
                && state == old(state).(status := Some(Recovering), active := Some(Binding(id, 0, NeedsReview)), queue := old(state).queue[1..])
                && AnsweredAt(env.journal, |old(env.journal)|, MarkNeedsReview(id, Code.DeliveryUnknown))
                && AnsweredAt(env.journal, |old(env.journal)| + 1, SetRoomStatus(Recovering))
                && PromptIn(env.db, id, NeedsReview) && env.db.status == Recovering
      ensures e == StoreFault ==> env.storeErrors > old(env.storeErrors)
      ensures env.agentErrors == old(env.agentErrors)
    {
      hide Safe, Step, Agrees, Current, AllAnswered, Untold, Durable, FrontierHeld, InHand, Disciplined, PromptIn, WellFormed, Extends, OrdinaryTurns, QuestionTurns, KnownTurns, AgentRule, Queue, Overlooked, QueueBut, QueueKnown, NoReviewedPrompts, Relying;
      FrozenAgrees(state, loaded, activeFault, env.db, env.journal, Some(Recovering));
      state := state.(status := Some(Recovering));
      var reviewed := ReviewDispatched(id);
      if !reviewed {
        return StoreFault;
      }
      ghost var marked := env.db;
      var s := StoreRecovering();
      if s {
        SamePrompt(marked, env.db, id, NeedsReview);
      }
      return if s then UnknownFault else StoreFault;
    }

    /** MarkNeedsReview on a prompt whose start is uncertain; it leaves the queue. */
    method ReviewDispatched(id: MessageId) returns (ok: bool)
      requires Valid() && !fatal && loaded && question.None? && !IsReady(state)
      requires state.active == Some(Binding(id, 0, Dispatching)) && state.queue != [] && state.queue[0] == id
      requires env.Told() ==> state.queue == [id] + Queue(env.db.messages)
      modifies this`state, this`latestSeq, env
      ensures Valid() && Grew(old(env.journal), env.journal)
      ensures !ok ==> state == old(state) && env.storeErrors > old(env.storeErrors)
      ensures ok ==>
                && state == old(state).(active := Some(Binding(id, 0, NeedsReview)), queue := old(state).queue[1..])
                && env.journal == old(env.journal) + [Committed(MarkNeedsReview(id, Code.DeliveryUnknown), env.db, true)]
                && PromptIn(env.db, id, NeedsReview) && env.storeErrors == old(env.storeErrors)
      ensures env.agentErrors == old(env.agentErrors)
    {
      hide Safe, Step, Agrees, Current, AllAnswered, Untold, Durable, FrontierHeld, InHand, Disciplined, PromptIn, WellFormed, Extends, OrdinaryTurns, QuestionTurns, KnownTurns, AgentRule, Queue, Overlooked, QueueBut, QueueKnown, NoReviewedPrompts, Relying;
      ghost var was, past := env.db, env.journal;
      var op := MarkNeedsReview(id, Code.DeliveryUnknown);
      env.DurableNow();
      MarkAllowed(state, activeFault, was, past, Code.DeliveryUnknown);
      var r := Commit(op);
      if r.Failure? {
        return false;
      }
      UncertainAgrees(state, activeFault, was, past, op, env.db, env.journal);
      MarkedPrompt(was, op, env.db);
      state := state.(active := Some(Binding(id, 0, NeedsReview)), queue := state.queue[1..]);
      return true;
    }

    /** turn/start has run: a lost answer from the store freezes the room. */
    method DispatchStarted(id: MessageId, turn: TurnId) returns (e: Fault)
      requires Valid() && !fatal && loaded && question.None? && turn != 0
      requires state.active == Some(Binding(id, 0, Dispatching)) && state.queue != [] && state.queue[0] == id
      requires env.Told() ==> state.queue == [id] + Queue(env.db.messages)
      requires env.journal != [] && Last(env.journal) == TurnStart(id, Started(turn), Some(turn))
      modifies this`state, this`latestSeq, env
      ensures Valid() && Grew(old(env.journal), env.journal)
      ensures e == NoFault || e == StoreFault
      ensures e == NoFault ==>
                && state == old(state).(active := Some(Binding(id, turn, Running)), queue := old(state).queue[1..])
                && env.journal == old(env.journal) + [Committed(BindRunningTurn(id, turn), env.db, true)]
      ensures e == StoreFault ==> state == old(state).(status := Some(Recovering)) && env.storeErrors > old(env.storeErrors)
      ensures env.agentErrors == old(env.agentErrors)
    {
      hide Safe, Step, Agrees, Current, AllAnswered, Untold, Durable, FrontierHeld, Disciplined, InHand, WellFormed, Extends, OrdinaryTurns, QuestionTurns, KnownTurns, AgentRule, Queue, Overlooked, QueueBut, QueueKnown, NoReviewedPrompts, Relying;
      ghost var was, past := env.db, env.journal;
      var op := BindRunningTurn(id, turn);
      AnswerOp(state, was, past, op);
      var r := Commit(op);
      if r.Failure? {
        FrozenAgrees(state, loaded, activeFault, env.db, env.journal, Some(Recovering));
        state := state.(status := Some(Recovering));
        return StoreFault;
      }
      StartedTurn(past);
      RunningAgrees(state, activeFault, was, past, op, env.db, env.journal);
      state := state.(active := Some(Binding(id, turn, Running)), queue := state.queue[1..]);
      return NoFault;
    }

    /** SetRoomStatus(recovering) by a coordinator that is already frozen. */
    method StoreRecovering() returns (ok: bool)
      requires Valid() && !fatal && !IsReady(state)
      modifies this`latestSeq, env
      ensures Valid() && Grew(old(env.journal), env.journal)
      ensures ok ==>
                && AnsweredAt(env.journal, |old(env.journal)|, SetRoomStatus(Recovering)) && |env.journal| == |old(env.journal)| + 1
                && env.db.messages == old(env.db.messages) && env.db.status == Recovering
                && env.storeErrors == old(env.storeErrors)
      ensures !ok ==> env.storeErrors > old(env.storeErrors)
      ensures env.agentErrors == old(env.agentErrors)
    {
      hide Safe, Step, Agrees, Current, AllAnswered, Untold, Durable, FrontierHeld, Disciplined, InHand, WellFormed, Extends, OrdinaryTurns, QuestionTurns, KnownTurns, AgentRule, Queue, Overlooked, QueueBut, QueueKnown, NoReviewedPrompts, Relying;
      ghost var was, past := env.db, env.journal;
      FreeOp(state, was, past, SetRoomStatus(Recovering));
      var r := Commit(SetRoomStatus(Recovering));
      if r.Success? {
        SetStatusStep(was, Recovering);
        RowsKeptAgree(state, loaded, activeFault, was, past, SetRoomStatus(Recovering), env.db, env.journal);
      }
      return r.Success?;
    }

    /** failPersistence: the durable transition failed, and the command loop ends. */
    method FailPersistence()
      requires env.Valid()
      modifies this`state, this`fatal
      ensures Valid() && fatal && state == old(state).(status := Some(Recovering))
    {
      state := state.(status := Some(Recovering));
      fatal := true;
    }

    // ---- Commands ---------------------------------------------------------------------------

    /** handleSubmit, for prompts and notes. */
    method HandleSubmit(actor: Uid, id: MessageId, body: nat, task: TaskId, note: bool) returns (e: Fault)
      requires Valid() && !fatal
      modifies this`state, this`latestSeq, env
      ensures Valid() && Grew(old(env.journal), env.journal)
      ensures e == StoreFault ==> env.storeErrors > old(env.storeErrors)
      ensures e != StoreFault ==>
                AnsweredAt(env.journal, |old(env.journal)|, Accept(actor, id, if note then Note else Prompt, body, 0, task))
      ensures old(Exists(env.db.messages, id)) || note ==>
                state == old(state) && (e == NoFault || e == StoreFault) && |env.journal| <= |old(env.journal)| + 1
      ensures e == NoFault && !note && !old(Exists(env.db.messages, id)) ==>
                var queue, n := old(state).queue + [id], |old(env.journal)| + 1;
                if old(MayStart()) then
                  && state.active.Some? && var t := state.active.value.turn;
                  && state == old(state).(active := Some(Binding(queue[0], t, Running)), queue := queue[1..])
                  && Dispatched(env.journal, n, queue[0], Started(t), BindRunningTurn(queue[0], t)) && |env.journal| == n + 3
                else state == old(state).(queue := queue) && |env.journal| == n
      ensures e == NotSentFault || e == UnknownFault ==>
                && old(MayStart()) && env.agentErrors > old(env.agentErrors)
                && AnsweredAt(env.journal, |old(env.journal)| + 1, BeginDispatch((old(state).queue + [id])[0]))
      ensures e == StoreFault && !AnsweredAt(env.journal, |old(env.journal)|, Accept(actor, id, if note then Note else Prompt, body, 0, task)) ==>
                && state == old(state)
                && (env.journal != old(env.journal) ==>
                      env.journal == old(env.journal) + [Committed(Accept(actor, id, if note then Note else Prompt, body, 0, task), env.db, false)])
      ensures e != StaleTurnFault && e != Refused
    {
      hide Safe, Step, Agrees, Current, AllAnswered, Untold, Durable, FrontierHeld, Disciplined, InHand, WellFormed, Extends, OrdinaryTurns, QuestionTurns, KnownTurns, AgentRule, Queue, Overlooked, QueueBut, QueueKnown, NoReviewedPrompts, Relying;
      var op := Accept(actor, id, if note then Note else Prompt, body, 0, task);
      ghost var was, past := env.db, env.journal;
      var duplicate := Exists(env.db.messages, id);
      FreeOp(state, was, past, op);
      var r := Commit(op);
      if r.Failure? {
        return StoreFault;
      }
      AcceptStep(was, op);
      if duplicate {
        RowsKeptAgree(state, loaded, activeFault, was, past, op, env.db, env.journal);
      } else {
        AcceptedAgrees(state, loaded, activeFault, was, past, op, env.db, env.journal,
                       if note then state else state.(queue := state.queue + [id]));
      }
      if duplicate || note {
        return NoFault;
      }
      state := state.(queue := state.queue + [id]);
      e := DispatchNext();
    }

    /** finishControl. */
    method FinishControlOf(id: MessageId, s: State, code: Code, answer: Fault) returns (e: Fault)
      requires Valid() && !fatal && answer != StoreFault
      requires s == NeedsReview ==> !FrontierHeld(env.journal, env.db) && Holds(state, id)
      requires QueueTrusted()
      modifies this`state, this`latestSeq, env
      ensures Valid() && Grew(old(env.journal), env.journal)
      ensures e == answer || e == StoreFault
      ensures e == answer ==>
                && state == old(state).(controls := Settled(old(state).controls, id, s))
                && env.journal == old(env.journal) + [Committed(FinishControl(id, s, code), env.db, true)]
                && env.storeErrors == old(env.storeErrors)
      ensures e == StoreFault ==> state == old(state).(status := Some(Recovering)) && env.storeErrors > old(env.storeErrors)
      ensures env.agentErrors == old(env.agentErrors)
    {
      hide Safe, Step, Agrees, Current, AllAnswered, Untold, Durable, FrontierHeld, Relies, QueueMatches, Disciplined, InHand, WellFormed, Extends, OrdinaryTurns, QuestionTurns, KnownTurns, AgentRule, Queue, Settled, Holds, Overlooked, QueueBut, QueueKnown, NoReviewedPrompts, Relying;
      var op := FinishControl(id, s, code);
      ghost var was, past := env.db, env.journal;
      ControlOp(state, was, past, op);
      var r := Commit(op);
      if r.Failure? {
        FrozenAgrees(state, loaded, activeFault, env.db, env.journal, Some(Recovering));
        state := state.(status := Some(Recovering));
        return StoreFault;
      }
      var controls := SettleEntry(id, s);
      SettledHolds(state, id, s);
      ControlAgrees(state, loaded, activeFault, was, past, op, env.db, env.journal, controls);
      state := state.(controls := controls);
      return answer;
    }

    /** The loop of finishControl over the pending entries. */
    method SettleEntry(id: MessageId, s: State) returns (controls: seq<Binding>)
      ensures controls == Settled(state.controls, id, s)
    {
      hide Settled, Marked, Overlooked, QueueBut, QueueKnown, NoReviewedPrompts, Relying;
      var i := 0;
      while i < |state.controls| && state.controls[i].id != id
        invariant 0 <= i <= |state.controls|
        invariant forall k :: 0 <= k < i ==> state.controls[k].id != id
      {
        i := i + 1;
      }
      ghost var first := SettledAt(state.controls, id, s);
      assert i == first;
      controls := state.controls;
      if i < |state.controls| {
        MarkedEntry(state.controls, i, s);
        controls := if s == NeedsReview then controls[i := controls[i].(state := NeedsReview)] else controls[..i] + controls[i + 1..];
      }
    }

    /** The first half of handleControl: the control is stored and held as pending. */
    method AcceptControl(actor: Uid, id: MessageId, kind: Kind, expected: TurnId, body: nat) returns (r: Result<bool, StoreError>)
      requires Valid() && !fatal && IsControl(kind) && !Exists(env.db.messages, id)
      modifies this`state, this`latestSeq, env
      ensures Valid() && Grew(old(env.journal), env.journal)
      ensures r.Failure? ==> state == old(state) && env.storeErrors > old(env.storeErrors)
      ensures r.Success? ==>
                && state == old(state).(controls := old(state).controls + [Binding(id, expected, Dispatching)])
                && env.journal == old(env.journal) + [Committed(Accept(actor, id, kind, body, expected, 0), env.db, true)]
                && env.storeErrors == old(env.storeErrors)
                && Holds(state, id)
                && QueueTrusted()
      ensures env.agentErrors == old(env.agentErrors)
    {
      hide Safe, Step, Agrees, Current, AllAnswered, Untold, Durable, FrontierHeld, Relies, QueueMatches, Disciplined, InHand, WellFormed, Extends, OrdinaryTurns, QuestionTurns, KnownTurns, AgentRule, Queue, Overlooked, QueueBut, QueueKnown, NoReviewedPrompts, Relying;
      var op := Accept(actor, id, kind, body, expected, 0);
      ghost var was, past, m := env.db, env.journal, state;
      FreeOp(state, was, past, op);
      r := Commit(op);
      if r.Failure? {
        return;
      }
      state := state.(controls := state.controls + [Binding(id, expected, Dispatching)]);
      assert state.controls[|state.controls| - 1].id == id;
      AcceptedAgrees(m, loaded, activeFault, was, past, op, env.db, env.journal, state);
    }

    /** A stored control is answered from its row. */
    method RepeatControl(actor: Uid, id: MessageId, kind: Kind, expected: TurnId, body: nat) returns (e: Fault)
      requires Valid() && !fatal && IsControl(kind) && Exists(env.db.messages, id)
      modifies this`latestSeq, env
      ensures Valid() && Grew(old(env.journal), env.journal)
      ensures e == StoreFault ==> env.storeErrors > old(env.storeErrors)
      ensures e != StoreFault ==>
                && AnsweredAt(env.journal, |old(env.journal)|, Accept(actor, id, kind, body, expected, 0))
                && var row := old(Row(env.db.messages, id));
                && (e == StaleTurnFault <==> row.code == StaleTurn)
                && (e == UnknownFault <==> row.code != StaleTurn && row.state == NeedsReview)
                && (e == NotSentFault <==> row.code != StaleTurn && row.state == Failed)
                && e != Refused
      ensures |env.journal| <= |old(env.journal)| + 1
    {
      hide Safe, Step, Agrees, Current, AllAnswered, Untold, Durable, FrontierHeld, Disciplined, InHand, WellFormed, Extends, OrdinaryTurns, QuestionTurns, KnownTurns, AgentRule, Queue, Overlooked, QueueBut, QueueKnown, NoReviewedPrompts, Relying;
      var op := Accept(actor, id, kind, body, expected, 0);
      ghost var was, past := env.db, env.journal;
      FreeOp(state, was, past, op);
      var r := Commit(op);
      if r.Failure? {
        return StoreFault;
      }
      AcceptStep(was, op);
      RowsKeptAgree(state, loaded, activeFault, was, past, op, env.db, env.journal);
      var row := Row(env.db.messages, id);
      return if row.code == StaleTurn then StaleTurnFault
             else if row.state == NeedsReview then UnknownFault
             else if row.state == Failed then NotSentFault
             else NoFault;
    }

    /** Whether a control of this turn would reach the agent. */
    predicate Listening(expected: TurnId)
      reads this
    {
      IsReady(state) && state.active.Some? && state.active.value.state == Running && state.active.value.turn == expected
    }

    /** handleControl. */
    method HandleControl(actor: Uid, id: MessageId, kind: Kind, expected: TurnId, body: nat) returns (e: Fault)
      requires Valid() && !fatal && IsControl(kind)
      modifies this`state, this`latestSeq, env
      ensures Valid() && Grew(old(env.journal), env.journal)
      ensures e == StoreFault ==> env.storeErrors > old(env.storeErrors)
      ensures e != StoreFault ==> AnsweredAt(env.journal, |old(env.journal)|, Accept(actor, id, kind, body, expected, 0))
      ensures old(Exists(env.db.messages, id)) ==> state == old(state) && |env.journal| <= |old(env.journal)| + 1
      ensures old(Exists(env.db.messages, id)) && e != StoreFault ==>
                var row := old(Row(env.db.messages, id));
                && (e == StaleTurnFault <==> row.code == StaleTurn)
                && (e == UnknownFault <==> row.code != StaleTurn && row.state == NeedsReview)
                && (e == NotSentFault <==> row.code != StaleTurn && row.state == Failed)
      ensures !old(Exists(env.db.messages, id)) && e != StoreFault ==>
                var n := |old(env.journal)| + 1;
                var held := old(state).controls + [Binding(id, expected, Dispatching)];
                if !old(Listening(expected)) then
                  && e == StaleTurnFault && |env.journal| == n + 1
                  && AnsweredAt(env.journal, n, FinishControl(id, Failed, StaleTurn))
                  && state == old(state).(controls := Settled(held, id, Failed))
                else
                  && ControlledAt(env.journal, n, expected, id, e)
                  && state.controls == Settled(held, id, DeliveryState(env.journal[n].delivery))
                  && state.active == old(state).active && state.queue == old(state).queue
                  && (e != UnknownFault ==> IsReady(state) && |env.journal| == n + 2)
                  && (e == UnknownFault ==> !IsReady(state) && env.db.status == Recovering)
    {
      hide Safe, Step, Agrees, Current, AllAnswered, Untold, Durable, FrontierHeld, Relies, QueueMatches, Holds, Settled, FrontierOwned, Disciplined, InHand, WellFormed, Extends, OrdinaryTurns, QuestionTurns, KnownTurns, AgentRule, Queue, Overlooked, QueueBut, QueueKnown, NoReviewedPrompts, Relying;
      if Exists(env.db.messages, id) {
        e := RepeatControl(actor, id, kind, expected, body);
        return;
      }
      var r := AcceptControl(actor, id, kind, expected, body);
      if r.Failure? {
        return StoreFault;
      }
      if !Listening(expected) {
        e := FinishControlOf(id, Failed, StaleTurn, StaleTurnFault);
        return;
      }
      e := SendControl(id, expected);
    }

    /** The control goes to the agent, and its outcome is stored. */
    method SendControl(id: MessageId, expected: TurnId) returns (e: Fault)
      requires Valid() && !fatal && IsReady(state) && Holds(state, id) && state.active.Some?
      requires QueueTrusted()
      modifies this`state, this`latestSeq, env
      ensures Valid() && Grew(old(env.journal), env.journal)
      ensures e == StoreFault ==> env.storeErrors > old(env.storeErrors)
      ensures e != StoreFault ==>
                var n := |old(env.journal)|;
                && ControlledAt(env.journal, n, expected, id, e)
                && state == old(state).(controls := Settled(old(state).controls, id, DeliveryState(env.journal[n].delivery)), status := state.status)
                && (e != UnknownFault ==> IsReady(state) && |env.journal| == n + 2)
                && (e == UnknownFault ==> !IsReady(state) && env.db.status == Recovering)
    {
      hide Safe, Step, Agrees, Current, AllAnswered, Untold, Durable, FrontierHeld, Relies, QueueMatches, Holds, Settled, Disciplined, InHand, WellFormed, Extends, OrdinaryTurns, QuestionTurns, KnownTurns, AgentRule, Queue, Overlooked, QueueBut, QueueKnown, NoReviewedPrompts, Relying;
      ghost var past := env.journal;
      var d := env.Control(expected);
      CallAgrees(state, loaded, activeFault, question, env.db, past, Controlled(expected, d));
      if d.Uncertain? {
        e := ControlUncertain(id);
      } else {
        e := FinishControlOf(id, DeliveryState(d), DeliveryCode(d), DeliveryFault(d));
      }
    }

    /** The control may or may not have reached the agent: the room freezes and the control awaits review. */
    method ControlUncertain(id: MessageId) returns (e: Fault)
      requires Valid() && !fatal && IsReady(state) && Holds(state, id) && state.active.Some?
      requires QueueTrusted()
      modifies this`state, this`latestSeq, env
      ensures Valid() && Grew(old(env.journal), env.journal)
      ensures !IsReady(state)
      ensures e == UnknownFault || e == StoreFault
      ensures e == StoreFault ==> env.storeErrors > old(env.storeErrors)
      ensures e == UnknownFault ==>
                && state == old(state).(status := Some(Recovering), controls := Settled(old(state).controls, id, NeedsReview))
                && AnsweredAt(env.journal, |old(env.journal)|, FinishControl(id, NeedsReview, Code.DeliveryUnknown))
                && env.db.status == Recovering
    {
      hide Safe, Step, Agrees, Current, AllAnswered, Untold, Durable, FrontierHeld, QueueMatches, Holds, Disciplined, InHand, WellFormed, Extends, OrdinaryTurns, QuestionTurns, KnownTurns, AgentRule, Queue, Overlooked, QueueBut, QueueKnown, NoReviewedPrompts, Relying;
      FrozenAgrees(state, loaded, activeFault, env.db, env.journal, Some(Recovering));
      SameHands(state, state.(status := Some(Recovering)));
      SameQueues(state, state.(status := Some(Recovering)), env.db.messages);
      FrozenQueue(state, Some(Recovering), env.db.messages, Overlooked(env.journal));
      state := state.(status := Some(Recovering));
      e := FinishControlOf(id, NeedsReview, Code.DeliveryUnknown, UnknownFault);
      if e != UnknownFault {
        return StoreFault;
      }
      var s := StoreRecovering();
      return if s then UnknownFault else StoreFault;
    }

    // ---- Agent events ---------------------------------------------------------------------------

    /** Whether an item or turn event of this turn concerns the active prompt. */
    predicate Concerns(turn: TurnId)
      reads this
    {
      && state.active.Some?
      && (state.active.value.state == Running || (activeFault && state.active.value.state == NeedsReview))
      && state.active.value.turn == turn
    }

    method HandleItemDone(item: Item)
      requires Valid() && !fatal
      modifies this`state, this`fatal, this`latestSeq, env
      ensures Valid() && Grew(old(env.journal), env.journal)
      ensures !(old(Concerns(item.turn)) && item.thread == old(state).thread) ==>
                state == old(state) && env.db == old(env.db) && env.journal == old(env.journal) && !fatal
      ensures old(Concerns(item.turn)) && item.thread == old(state).thread && !fatal ==>
                state == old(state) && env.journal == old(env.journal) + [Committed(RecordCompletedItem(item), env.db, true)]
      ensures fatal ==> env.storeErrors > old(env.storeErrors)
    {
      hide Safe, Step, Agrees, Current, AllAnswered, Untold, Durable, FrontierHeld, Disciplined, InHand, WellFormed, Extends, OrdinaryTurns, QuestionTurns, KnownTurns, AgentRule, Queue, Overlooked, QueueBut, QueueKnown, NoReviewedPrompts, Relying;
      if !Concerns(item.turn) || item.thread != state.thread {
        return;
      }
      ghost var was, past := env.db, env.journal;
      var op := RecordCompletedItem(item);
      env.DurableNow();
      ReadyHolds(state, loaded, activeFault, was, past);
      RecordAllowed(state, activeFault, was, past, item);
      var r := Commit(op);
      if r.Failure? {
        FailPersistence();
        return;
      }
      ItemStep(was, item);
      RowsKeptAgree(state, loaded, activeFault, was, past, op, env.db, env.journal);
    }

    /** FinishTurn on the active prompt's turn. */
    method FinishActive(outcome: State, code: Code) returns (ok: bool)
      requires Valid() && !fatal && state.active.Some?
      requires env.Told() ==>
                 && Matches(state.active.value, env.db.messages) && Active(Row(env.db.messages, state.active.value.id))
                 && (state.controls == [] ==> QueueMatches(state, env.db.messages))
      modifies this`state, this`latestSeq, env
      ensures Valid() && Grew(old(env.journal), env.journal)
      ensures env.agentErrors == old(env.agentErrors)
      ensures !ok ==> state == old(state) && env.storeErrors > old(env.storeErrors)
      ensures ok ==>
                && state == old(state).(active := None)
                && env.journal == old(env.journal) + [Committed(FinishTurn(old(state).active.value.turn, outcome, code), env.db, true)]
                && loaded && question.None? && !FrontierHeld(env.journal, env.db) && env.db.thread != 0
                && env.storeErrors == old(env.storeErrors)
      ensures ok ==>
                && Idle(env.db.messages) && Overlooked(env.journal) == old(Overlooked(env.journal))
                && (state.controls == [] ==> QueueKnown(state, env.db.messages, Overlooked(env.journal)))
                && (env.Told() && state.controls == [] ==> state.queue == Queue(env.db.messages))
                && (old(Fresh(state, env.db)) ==> Fresh(state, env.db))
      ensures env.db.thread == old(env.db.thread) && env.db.frontier == old(env.db.frontier)
      ensures Extends(old(env.db), env.db)
    {
      hide Safe, Step, Agrees, Current, AllAnswered, Untold, Durable, FrontierHeld, Matches, QueueMatches, Extends, Queue, Disciplined, InHand, WellFormed, OrdinaryTurns, QuestionTurns, KnownTurns, AgentRule, Overlooked, QueueBut, QueueKnown, NoReviewedPrompts, Relying;
      var op := FinishTurn(state.active.value.turn, outcome, code);
      ghost var was, past := env.db, env.journal;
      env.DurableNow();
      ReadyHolds(state, loaded, activeFault, was, past);
      FreeOp(state, was, past, op);
      var r := Commit(op);
      if r.Failure? {
        return false;
      }
      FinishedAgrees(state, activeFault, was, past, op, env.db, env.journal);
      state := state.(active := None);
      return true;
    }

    /** Whether the end of a turn is taken. */
    predicate Ends(thread: ThreadId, turn: TurnId)
      reads this
    {
      Concerns(turn) && (thread == 0 || thread == state.thread)
    }

    method HandleTurnEnded(thread: ThreadId, turn: TurnId, outcome: State)
      requires Valid() && !fatal && Terminal(outcome)
      modifies this`state, this`fatal, this`activeFault, this`latestSeq, env
      ensures Valid() && Grew(old(env.journal), env.journal)
      ensures !old(Ends(thread, turn)) ==>
                && state == old(state) && env.db == old(env.db) && env.journal == old(env.journal)
                && !fatal && activeFault == old(activeFault)
      ensures old(Ends(thread, turn)) && !fatal ==>
                var n := |old(env.journal)|;
                var k := if old(activeFault) then n + 2 else n + 1;
                && AnsweredAt(env.journal, n, Ending(turn, outcome, old(activeFault)))
                && (old(activeFault) ==> AnsweredAt(env.journal, n + 1, SetRoomStatus(Ready)))
                && !activeFault
                && (if (old(activeFault) || old(IsReady(state))) && old(state).controls == [] && old(state).queue != []
                    then AnsweredAt(env.journal, k, BeginDispatch(old(state).queue[0]))
                    else |env.journal| == k && state == old(state).(active := None, status := if old(activeFault) then Some(Ready) else old(state).status))
      ensures fatal ==> env.storeErrors > old(env.storeErrors)
    {
      hide Safe, Step, Agrees, Current, AllAnswered, Untold, Durable, FrontierHeld, QueueMatches, Queue, InStep, Extends, Fresh, Disciplined, InHand, WellFormed, OrdinaryTurns, QuestionTurns, KnownTurns, AgentRule, Dispatched, Overlooked, QueueBut, QueueKnown, NoReviewedPrompts, Relying;
      if !Ends(thread, turn) {
        return;
      }
      EndActive(outcome);
      if fatal {
        return;
      }
      var e := DispatchNext();
      if e == StoreFault {
        FailPersistence();
      }
    }

    /** The active turn's end is stored, and a fault is over with it. */
    method EndActive(outcome: State)
      requires Valid() && !fatal && Terminal(outcome) && state.active.Some? && Concerns(state.active.value.turn)
      modifies this`state, this`fatal, this`activeFault, this`latestSeq, env
      ensures Valid() && Grew(old(env.journal), env.journal)
      ensures fatal ==> env.storeErrors > old(env.storeErrors)
      ensures !fatal ==>
                var n := |old(env.journal)|;
                && AnsweredAt(env.journal, n, Ending(old(state).active.value.turn, outcome, old(activeFault)))
                && (old(activeFault) ==> AnsweredAt(env.journal, n + 1, SetRoomStatus(Ready)))
                && |env.journal| == (if old(activeFault) then n + 2 else n + 1)
                && state == old(state).(active := None, status := if old(activeFault) then Some(Ready) else old(state).status)
                && !activeFault && question.None? && env.storeErrors == old(env.storeErrors)
    {
      hide Safe, Step, Agrees, Current, AllAnswered, Untold, Durable, FrontierHeld, QueueMatches, Queue, InStep, Extends, Fresh, WellFormed, RoomRowKept, OrdinaryTurns, QuestionTurns, KnownTurns, AgentRule, Overlooked, QueueBut, QueueKnown, NoReviewedPrompts, Relying;
      if env.Told() {
        ReadyHolds(state, loaded, activeFault, env.db, env.journal);
        InStepNow(state, loaded, activeFault, env.db, env.journal);
        RunningHeld(state, activeFault, env.db);
      }
      var fault := activeFault;
      var finished;
      if fault {
        finished := FinishActive(Failed, FaultCode);
      } else {
        finished := FinishActive(outcome, if outcome == Completed then NoCode else OtherCode);
      }
      if !finished {
        FailPersistence();
      } else if fault {
        ClearFault();
      }
    }

    /** The faulty turn has provably ended: the room becomes ready again. */
    method ClearFault()
      requires Valid() && !fatal && activeFault && state.active.None? && question.None? && loaded
      requires !FrontierHeld(env.journal, env.db) && env.db.thread != 0
      requires Idle(env.db.messages)
      requires state.controls == [] ==>
                 && QueueKnown(state, env.db.messages, Overlooked(env.journal))
                 && (env.Told() ==> state.queue == Queue(env.db.messages))
      modifies this`state, this`fatal, this`activeFault, this`latestSeq, env
      ensures Valid() && Grew(old(env.journal), env.journal)
      ensures !fatal ==>
                && state == old(state).(status := Some(Ready)) && !activeFault
                && env.journal == old(env.journal) + [Committed(SetRoomStatus(Ready), env.db, true)]
                && env.storeErrors == old(env.storeErrors)
      ensures fatal ==> env.storeErrors > old(env.storeErrors)
    {
      hide Safe, Step, Agrees, Current, AllAnswered, Untold, Durable, FrontierHeld, Queue, Disciplined, InHand, WellFormed, Extends, OrdinaryTurns, QuestionTurns, KnownTurns, AgentRule, Overlooked, QueueBut, QueueKnown, NoReviewedPrompts, Relying;
      ghost var was, past := env.db, env.journal;
      FaultAgrees(state, loaded, activeFault, false, was, past);
      IdleReviewed(was.messages);
      activeFault := false;
      FreeOp(state, was, past, SetRoomStatus(Ready));
      var r := Commit(SetRoomStatus(Ready));
      if r.Failure? {
        FailPersistence();
        return;
      }
      StatusAgrees(state, activeFault, was, past, Ready, env.db, env.journal);
      state := state.(status := Some(Ready));
    }

    /** Whether a protocol error is blamed on the active turn. */
    predicate Blamed(thread: ThreadId, turn: TurnId)
      reads this
    {
      && state.active.Some? && !activeFault
      && (thread == 0 || thread == state.thread) && (turn == 0 || turn == state.active.value.turn)
    }

    /** An unsupported request or a protocol error: the active turn must be proven over before anything else runs. */
    method HandleProtocolError(thread: ThreadId, turn: TurnId)
      requires Valid() && !fatal
      modifies this`state, this`fatal, this`activeFault, this`faulty, this`reloaded, this`latestSeq, env
      ensures Valid() && Grew(old(env.journal), env.journal)
      ensures old(state.active.None?) ==> fatal && env.journal == old(env.journal)
      ensures old(state.active.Some? && !Blamed(thread, turn)) ==>
                state == old(state) && env.journal == old(env.journal) && !fatal && activeFault == old(activeFault)
      ensures old(Blamed(thread, turn)) ==>
                var b, n := old(state).active.value, |old(env.journal)|;
                && activeFault && faulty == b.id && !reloaded && !IsReady(state)
                && (fatal ==> env.storeErrors > old(env.storeErrors))
                && (!fatal ==>
                      && state == old(state).(status := Some(Recovering), active := Some(b.(state := NeedsReview)))
                      && AnsweredAt(env.journal, n, MarkNeedsReview(b.id, FaultCode))
                      && AnsweredAt(env.journal, n + 1, SetRoomStatus(Recovering))
                      && |env.journal| == n + 3 && env.journal[n + 2].Controlled? && env.journal[n + 2].turn == b.turn)
    {
      hide Safe, Step, Agrees, Current, AllAnswered, Untold, Durable, FrontierHeld, Disciplined, InHand, WellFormed, Extends, OrdinaryTurns, QuestionTurns, KnownTurns, AgentRule, Queue, Overlooked, QueueBut, QueueKnown, NoReviewedPrompts, Relying;
      if state.active.None? {
        FailPersistence();
        return;
      }
      var b := state.active.value;
      if !Blamed(thread, turn) {
        return;
      }
      BlameActive();
      if fatal {
        return;
      }
      var s := StoreRecovering();
      if !s {
        FailPersistence();
        return;
      }
      ghost var past := env.journal;
      var d := env.Control(b.turn);
      CallAgrees(state, loaded, activeFault, question, env.db, past, Controlled(b.turn, d));
    }

    /** The room freezes, and the active prompt goes into review as the faulty one. */
    method BlameActive()
      requires Valid() && !fatal && state.active.Some? && !activeFault
      modifies this`state, this`fatal, this`activeFault, this`faulty, this`reloaded, this`latestSeq, env
      ensures Valid() && Grew(old(env.journal), env.journal)
      ensures activeFault && faulty == old(state).active.value.id && !reloaded && !IsReady(state)
      ensures fatal ==> env.storeErrors > old(env.storeErrors)
      ensures !fatal ==>
                var b := old(state).active.value;
                && state == old(state).(status := Some(Recovering), active := Some(b.(state := NeedsReview)))
                && env.journal == old(env.journal) + [Committed(MarkNeedsReview(b.id, FaultCode), env.db, true)]
                && env.storeErrors == old(env.storeErrors)
    {
      hide Safe, Step, Agrees, Current, AllAnswered, Untold, Durable, FrontierHeld, Disciplined, InHand, WellFormed, Extends, Fresh, OrdinaryTurns, QuestionTurns, KnownTurns, AgentRule, Queue, Overlooked, QueueBut, QueueKnown, NoReviewedPrompts, Relying;
      var b := state.active.value;
      ghost var was, past := env.db, env.journal;
      var op := MarkNeedsReview(b.id, FaultCode);
      env.DurableNow();
      ReadyHolds(state, loaded, activeFault, was, past);
      FrozenAgrees(state, loaded, activeFault, was, past, Some(Recovering));
      state := state.(status := Some(Recovering));
      MarkAllowed(state, activeFault, was, past, FaultCode);
      var r := Commit(op);
      activeFault, faulty, reloaded := true, b.id, false;
      if r.Failure? {
        FailPersistence();
        return;
      }
      ReviewedAgrees(state, false, true, was, past, op, env.db, env.journal);
      state := state.(active := Some(b.(state := NeedsReview)));
    }

    method HandleRuntimeUnavailable()
      requires Valid() && !fatal
      modifies this`state, this`question, this`activeFault, this`threadReady, this`runtimeReadySeen, this`latestSeq, env
      ensures Valid() && Grew(old(env.journal), env.journal)
      ensures state.status == Some(Recovering) && question.None? && !threadReady && !activeFault
      ensures old(state.status) == Some(Recovering) ==> state == old(state) && env.journal == old(env.journal)
      ensures old(state.status) != Some(Recovering) ==>
                var failed := if AnsweredAt(env.journal, |old(env.journal)|, SetRoomStatus(Recovering)) then 0 else 1;
                && env.storeErrors >= old(env.storeErrors) + failed
                && (if old(state.active.Some? && state.active.value.state != NeedsReview)
                    then || (state.active == Some(old(state).active.value.(state := NeedsReview))
                             && PromptIn(env.db, state.active.value.id, NeedsReview))
                         || (state.active == old(state).active && env.storeErrors > old(env.storeErrors) + failed)
                    else state.active == old(state).active)
    {
      hide Safe, Step, Agrees, Current, AllAnswered, Untold, Durable, FrontierHeld, PromptIn, Fresh, Extends, Disciplined, InHand, WellFormed, OrdinaryTurns, QuestionTurns, KnownTurns, AgentRule, Queue, Overlooked, QueueBut, QueueKnown, NoReviewedPrompts, Relying;
      FaultAgrees(state, loaded, activeFault, false, env.db, env.journal);
      FrozenAgrees(state, loaded, false, env.db, env.journal, Some(Recovering));
      var frozen := state.status == Some(Recovering);
      question := None;
      activeFault, threadReady, runtimeReadySeen := false, false, false;
      state := state.(status := Some(Recovering));
      if frozen {
        return;
      }
      var _ := StoreRecovering();
      if state.active.None? || state.active.value.state == NeedsReview {
        return;
      }
      var _ := ReviewActive(OtherCode);
    }

    /** MarkNeedsReview on the active prompt; an error leaves it as it was. */
    method ReviewActive(code: Code) returns (ok: bool)
      requires Valid() && !fatal && !IsReady(state) && question.None? && code != NoCode
      requires state.active.Some? && state.active.value.state != NeedsReview
      modifies this`state, this`latestSeq, env
      ensures Valid() && Grew(old(env.journal), env.journal)
      ensures env.agentErrors == old(env.agentErrors)
      ensures !ok ==> state == old(state) && env.storeErrors > old(env.storeErrors)
      ensures ok ==>
                && state == old(state).(active := Some(old(state).active.value.(state := NeedsReview)))
                && env.journal == old(env.journal) + [Committed(MarkNeedsReview(old(state).active.value.id, code), env.db, true)]
                && PromptIn(env.db, state.active.value.id, NeedsReview)
                && env.storeErrors == old(env.storeErrors)
      ensures ok && old(Fresh(state, env.db)) ==> Fresh(state, env.db)
      ensures Overlooked(env.journal) == old(Overlooked(env.journal))
      ensures env.db.status == old(env.db.status) && env.db.thread == old(env.db.thread) && env.db.frontier == old(env.db.frontier)
      ensures Extends(old(env.db), env.db)
    {
      hide Safe, Step, Agrees, Current, AllAnswered, Untold, Durable, FrontierHeld, Disciplined, InHand, Fresh, PromptIn, Extends, WellFormed, OrdinaryTurns, QuestionTurns, KnownTurns, AgentRule, Queue, Overlooked, QueueBut, QueueKnown, NoReviewedPrompts, Relying;
      var b := state.active.value;
      ghost var was, past := env.db, env.journal;
      var op := MarkNeedsReview(b.id, code);
      env.DurableNow();
      ReadyHolds(state, loaded, activeFault, was, past);
      MarkAllowed(state, activeFault, was, past, code);
      if Step(was, op).Success? {
        ReviewColumns(was, op);
      }
      var r := Commit(op);
      if r.Failure? {
        return false;
      }
      ReviewedAgrees(state, activeFault, activeFault, was, past, op, env.db, env.journal);
      MarkedPrompt(was, op, env.db);
      state := state.(active := Some(b.(state := NeedsReview)));
      return true;
    }

    // ---- Recovery --------------------------------------------------------------------------------

    /** loadRecovery; the reads may fail. */
    method LoadRecovery() returns (ok: bool)
      requires Valid() && !fatal && question.None? && !IsReady(state)
      modifies this`state, this`latestSeq, this`loaded, this`reloaded, env`journal, env`storeErrors
      ensures Valid() && Grew(old(env.journal), env.journal)
      ensures FrontierHeld(env.journal, env.db) == old(FrontierHeld(env.journal, env.db))
      ensures !ok ==>
                && state == old(state) && loaded == old(loaded) && env.journal == old(env.journal)
                && env.storeErrors > old(env.storeErrors)
      ensures ok ==>
                && env.journal == old(env.journal) + [ImageRead] && env.storeErrors == old(env.storeErrors)
                && state == Loaded(env.db) && loaded && reloaded
                && Refreshed(state, env.db, env.journal) && ControlsHeld(state, env.db.messages)
                && (state.controls == [] <==> NoControls(env.db.messages))
    {
      hide Safe, Step, Agrees, Current, AllAnswered, Untold, Durable, FrontierHeld, WellFormed, Fresh, ControlsHeld, OrdinaryTurns, QuestionTurns, KnownTurns, AgentRule, Queue, Overlooked, QueueBut, QueueKnown, NoReviewedPrompts, Relying;
      ghost var past := env.journal;
      ok := env.ReadImage();
      if !ok {
        return;
      }
      env.DurableNow();
      ImageFresh(past);
      LoadedAgrees(env.db, activeFault, env.journal);
      state := Loaded(env.db);
      latestSeq := if env.db.nextSeq - 1 < latestSeq then latestSeq else env.db.nextSeq - 1;
      loaded, reloaded := true, true;
    }

    /** setStatus. */
    method SetStatus(s: Status) returns (ok: bool)
      requires Valid() && !fatal && loaded && question.None? && !IsReady(state)
      requires s == Ready ==>
                 && env.db.thread != 0 && !FrontierHeld(env.journal, env.db) && (reloaded || !activeFault)
                 && NoReviewedPrompts(env.db.messages)
                 && (state.controls == [] ==> QueueKnown(state, env.db.messages, Overlooked(env.journal)))
      requires env.Told() && s == Ready ==>
                 ActiveMatches(state, env.db.messages) && (state.controls == [] ==> QueueMatches(state, env.db.messages))
      modifies this`state, this`latestSeq, env
      ensures Valid() && Grew(old(env.journal), env.journal)
      ensures env.agentErrors == old(env.agentErrors)
      ensures !ok ==> state == old(state) && env.storeErrors > old(env.storeErrors)
      ensures ok ==>
                && state == old(state).(status := Some(s))
                && env.journal == old(env.journal) + [Committed(SetRoomStatus(s), env.db, true)]
                && env.db.messages == old(env.db.messages) && env.storeErrors == old(env.storeErrors)
      ensures env.db.thread == old(env.db.thread) && env.db.frontier == old(env.db.frontier) && env.db.hidden == old(env.db.hidden)
      ensures FrontierHeld(env.journal, env.db) == old(FrontierHeld(env.journal, env.db))
      ensures Overlooked(env.journal) == old(Overlooked(env.journal))
    {
      hide Safe, Step, Agrees, Current, AllAnswered, Untold, Durable, FrontierHeld, Disciplined, InHand, WellFormed, Extends, ActiveMatches, QueueMatches, OrdinaryTurns, QuestionTurns, KnownTurns, AgentRule, Queue, Overlooked, QueueBut, QueueKnown, NoReviewedPrompts, Relying;
      ghost var was, past := env.db, env.journal;
      FreeOp(state, was, past, SetRoomStatus(s));
      var r := Commit(SetRoomStatus(s));
      if r.Failure? {
        return false;
      }
      SetStatusStep(was, s);
      StatusAgrees(state, activeFault, was, past, s, env.db, env.journal);
      state := state.(status := Some(s));
      return true;
    }

    /** markThreadRepair. */
    method MarkThreadRepair()
      requires Valid() && !fatal
      modifies this`state, this`threadCreationUncertain, this`latestSeq, env
      ensures Valid() && Grew(old(env.journal), env.journal)
      ensures threadCreationUncertain && state == old(state).(status := Some(NeedsRepair))
      ensures env.db.status == NeedsRepair || env.storeErrors > old(env.storeErrors)
      ensures env.agentErrors == old(env.agentErrors) && env.storeErrors >= old(env.storeErrors)
    {
      hide Safe, Step, Agrees, Current, AllAnswered, Untold, Durable, FrontierHeld, Disciplined, InHand, WellFormed, Extends, OrdinaryTurns, QuestionTurns, KnownTurns, AgentRule, Queue, Overlooked, QueueBut, QueueKnown, NoReviewedPrompts, Relying;
      threadCreationUncertain := true;
      FrozenAgrees(state, loaded, activeFault, env.db, env.journal, Some(NeedsRepair));
      state := state.(status := Some(NeedsRepair));
      ghost var was, past := env.db, env.journal;
      FreeOp(state, was, past, MarkThreadNeedsRepair);
      var r := Commit(MarkThreadNeedsRepair);
      if r.Success? {
        RepairStep(was);
        RowsKeptAgree(state, loaded, activeFault, was, past, MarkThreadNeedsRepair, env.db, env.journal);
      }
    }

    /** PrivateTurns: what recovery must hide; a standing frontier is settled on the way. */
    method PrivateTurns(turns: seq<HistoryTurn>) returns (r: Result<set<TurnId>, StoreError>)
      requires Valid() && !fatal && loaded && question.None? && !IsReady(state)
      requires OrdinaryTurns(env.journal) + QuestionTurns(env.journal) <= TurnIds(turns) <= KnownTurns(env.journal)
      modifies this`latestSeq, env
      ensures Valid() && Grew(old(env.journal), env.journal)
      ensures env.agentErrors == old(env.agentErrors)
      ensures r.Failure? ==> env.storeErrors > old(env.storeErrors)
      ensures r.Success? ==>
                && env.db == old(env.db).(hidden := env.db.hidden, frontier := None) && env.storeErrors == old(env.storeErrors)
                && r.value == old(HiddenTurns(env.db, TurnIds(turns)))
                && (old(env.db.frontier.Some?) ==>
                      env.journal == old(env.journal) + [Committed(EndPrivateTurn(TurnIds(turns) - old(env.db).frontier.value.baseline), env.db, true)])
                && (old(env.db.frontier.None?) ==> env.journal == old(env.journal))
                && QuestionTurns(env.journal) <= r.value
                && (FrontiersAnswered(old(env.journal)) ==> OrdinaryTurns(env.journal) !! r.value)
                && KnownTurns(env.journal) == old(KnownTurns(env.journal))
                && Overlooked(env.journal) == old(Overlooked(env.journal))
    {
      hide Safe, Step, Agrees, Current, AllAnswered, FrontiersAnswered, Untold, Durable, FrontierHeld, Disciplined, InHand, WellFormed, Extends, OrdinaryTurns, QuestionTurns, KnownTurns, AgentRule, Queue, Overlooked, QueueBut, QueueKnown, NoReviewedPrompts, Relying;
      env.DurableNow();
      HiddenAllowed(state, env.db, env.journal, TurnIds(turns));
      var readable := env.ReadPrivateTurns();
      if !readable {
        return Failure(Unavailable);
      }
      var hidden := env.db.hidden;
      if env.db.frontier.None? {
        return Success(hidden);
      }
      var before := env.db.frontier.value.baseline;
      var added := {};
      var k := 0;
      while k < |turns|
        invariant 0 <= k <= |turns|
        invariant added == set i | 0 <= i < k && turns[i].id !in before :: turns[i].id
        invariant hidden == env.db.hidden + added
      {
        if turns[k].id !in before {
          hidden := hidden + {turns[k].id};
          added := added + {turns[k].id};
          if turns[k].state == Running {
            env.RefusePrivateTurns(turns, k);
            return Failure(InvalidState);
          }
        }
        k := k + 1;
      }
      assert added == TurnIds(turns) - before;
      ghost var was, past := env.db, env.journal;
      var op := EndPrivateTurn(added);
      var c := Commit(op);
      if c.Failure? {
        return Failure(c.error);
      }
      PrivateEnded(was, op, env.db);
      RowsKeptAgree(state, loaded, activeFault, was, past, op, env.db, env.journal);
      return Success(hidden);
    }

    /** One history turn goes into the log, item by item. */
    method RecordTurn(t: HistoryTurn) returns (ok: bool)
      requires Valid() && !fatal && ValidTurn(t, state.thread) && loaded && question.None? && !IsReady(state)
      requires t.id in KnownTurns(env.journal) && t.id !in QuestionTurns(env.journal)
      modifies this`latestSeq, env
      ensures Valid() && Grew(old(env.journal), env.journal)
      ensures env.agentErrors == old(env.agentErrors) && env.storeErrors >= old(env.storeErrors)
      ensures !ok ==> env.storeErrors > old(env.storeErrors)
      ensures ok ==>
                && TurnLogged(env.db, t) && LogGrew(old(env.db), env.db)
                && env.db.messages == old(env.db.messages) && RoomRowKept(old(env.db), env.db)
      ensures KnownTurns(env.journal) == old(KnownTurns(env.journal)) && QuestionTurns(env.journal) == old(QuestionTurns(env.journal))
      ensures Overlooked(env.journal) == old(Overlooked(env.journal))
    {
      hide Safe, Agrees, Current, AllAnswered, Untold, Durable, FrontierHeld, FrontierOwned, Logged, Grew, OrdinaryTurns, QuestionTurns, KnownTurns, AgentRule, Queue, Overlooked, QueueBut, QueueKnown, NoReviewedPrompts, Relying;
      GrewSame(env.journal);
      var k := 0;
      while k < |t.items|
        invariant 0 <= k <= |t.items|
        invariant Valid() && Grew(old(env.journal), env.journal)
        invariant env.agentErrors == old(env.agentErrors) && env.storeErrors >= old(env.storeErrors)
        invariant env.db.messages == old(env.db.messages) && RoomRowKept(old(env.db), env.db)
        invariant LogGrew(old(env.db), env.db) && forall i :: 0 <= i < k ==> Logged(env.db, t.items[i])
        invariant KnownTurns(env.journal) == old(KnownTurns(env.journal)) && QuestionTurns(env.journal) == old(QuestionTurns(env.journal))
        invariant Overlooked(env.journal) == old(Overlooked(env.journal))
      {
        ghost var before := env.journal;
        ok := RecordItem(t.items[k]);
        GrewOn(old(env.journal), before, env.journal);
        if !ok {
          return false;
        }
        k := k + 1;
      }
      return true;
    }

    method RecordItem(item: Item) returns (ok: bool)
      requires Valid() && !fatal && loaded && question.None? && !IsReady(state)
      requires item.turn in KnownTurns(env.journal) && item.turn !in QuestionTurns(env.journal)
      modifies this`latestSeq, env
      ensures Valid() && Grew(old(env.journal), env.journal)
      ensures env.agentErrors == old(env.agentErrors) && env.storeErrors >= old(env.storeErrors)
      ensures !ok ==> env.storeErrors > old(env.storeErrors)
      ensures ok ==>
                && env.journal == old(env.journal) + [Committed(RecordCompletedItem(item), env.db, true)]
                && Logged(env.db, item) && LogGrew(old(env.db), env.db)
                && env.db.messages == old(env.db.messages) && RoomRowKept(old(env.db), env.db)
      ensures KnownTurns(env.journal) == old(KnownTurns(env.journal)) && QuestionTurns(env.journal) == old(QuestionTurns(env.journal))
      ensures Overlooked(env.journal) == old(Overlooked(env.journal))
    {
      hide Safe, Step, Agrees, Current, AllAnswered, Untold, Durable, FrontierHeld, Disciplined, InHand, WellFormed, Extends, Logged, OrdinaryTurns, QuestionTurns, KnownTurns, AgentRule, Queue, Overlooked, QueueBut, QueueKnown, NoReviewedPrompts, Relying;
      ghost var was, past := env.db, env.journal;
      var op := RecordCompletedItem(item);
      VisibleOp(state, was, past, op);
      var r := Commit(op);
      if r.Success? {
        ItemStep(was, item);
        ItemLogged(was, item);
        ExtendsLog(was, env.db);
        RowsKeptAgree(state, loaded, activeFault, was, past, op, env.db, env.journal);
      }
      return r.Success?;
    }

    /**
     The loop of reconcileHistory: every turn that is not hidden goes into the log, and the
     ends it reports for the active turn must agree.
     */
    method RecordVisible(turns: seq<HistoryTurn>, hidden: set<TurnId>) returns (r: Result<Option<State>, Fault>)
      requires Valid() && !fatal && loaded && question.None? && !IsReady(state)
      requires forall k :: 0 <= k < |turns| ==> ValidTurn(turns[k], state.thread)
      requires TurnIds(turns) <= KnownTurns(env.journal) && QuestionTurns(env.journal) <= hidden
      modifies this`latestSeq, env
      ensures Valid() && Grew(old(env.journal), env.journal)
      ensures env.agentErrors == old(env.agentErrors) && env.storeErrors >= old(env.storeErrors)
      ensures r.Failure? ==> r.error == StoreFault || r.error == UnknownFault
      ensures r == Failure(StoreFault) ==> env.storeErrors > old(env.storeErrors)
      ensures r == Failure(UnknownFault) ==> state.active.Some? && EndsDiffer(turns, hidden, state.active.value.turn)
      ensures Overlooked(env.journal) == old(Overlooked(env.journal))
      ensures r.Success? ==>
                && VisibleLogged(env.db, turns, hidden, |turns|) && LogGrew(old(env.db), env.db)
                && env.db.messages == old(env.db.messages) && RoomRowKept(old(env.db), env.db)
                && (state.active.Some? ==> EndOf(turns, hidden, state.active.value.turn, |turns|, r.value))
    {
      hide Safe, Agrees, Current, AllAnswered, Untold, Durable, FrontierHeld, FrontierOwned, TurnLogged, ValidTurn, Grew, OrdinaryTurns, QuestionTurns, KnownTurns, AgentRule, Queue, Overlooked, QueueBut, QueueKnown, NoReviewedPrompts, Relying;
      var terminal: Option<State> := None;
      GrewSame(env.journal);
      var k := 0;
      while k < |turns|
        invariant 0 <= k <= |turns|
        invariant Valid() && Grew(old(env.journal), env.journal)
        invariant env.agentErrors == old(env.agentErrors) && env.storeErrors >= old(env.storeErrors)
        invariant env.db.messages == old(env.db.messages) && RoomRowKept(old(env.db), env.db) && LogGrew(old(env.db), env.db)
        invariant KnownTurns(env.journal) == old(KnownTurns(env.journal)) && QuestionTurns(env.journal) == old(QuestionTurns(env.journal))
        invariant Overlooked(env.journal) == old(Overlooked(env.journal))
        invariant VisibleLogged(env.db, turns, hidden, k)
        invariant state.active.Some? ==> EndOf(turns, hidden, state.active.value.turn, k, terminal)
      {
        var turn := turns[k];
        if turn.id !in hidden {
          assert turn.id in TurnIds(turns);
          ghost var was, before := env.db, env.journal;
          var ok := RecordTurn(turn);
          GrewOn(old(env.journal), before, env.journal);
          if !ok {
            return Failure(StoreFault);
          }
          StaysLogged(was, env.db, turns, hidden, k);
          if state.active.Some? && state.active.value.turn == turn.id && Terminal(turn.state) {
            if terminal.Some? && terminal.value != turn.state {
              return Failure(UnknownFault);
            }
            terminal := Some(turn.state);
          }
        }
        k := k + 1;
      }
      return Success(terminal);
    }

    /** The first half of reconcileHistory: what is private is settled, and everything else is recorded. */
    method RecordHistory(turns: seq<HistoryTurn>) returns (r: Result<Option<State>, Fault>)
      requires Valid() && !fatal && loaded && question.None? && !IsReady(state)
      requires forall k :: 0 <= k < |turns| ==> ValidTurn(turns[k], state.thread)
      requires OrdinaryTurns(env.journal) + QuestionTurns(env.journal) <= TurnIds(turns) <= KnownTurns(env.journal)
      requires Refreshed(state, env.db, env.journal)
      modifies this`latestSeq, env
      ensures Valid() && Grew(old(env.journal), env.journal)
      ensures env.agentErrors == old(env.agentErrors) && env.storeErrors >= old(env.storeErrors)
      ensures r.Failure? ==> r.error == StoreFault || r.error == UnknownFault
      ensures r == Failure(StoreFault) ==> env.storeErrors > old(env.storeErrors)
      ensures r == Failure(UnknownFault) ==>
                state.active.Some? && EndsDiffer(turns, old(HiddenTurns(env.db, TurnIds(turns))), state.active.value.turn)
      ensures r.Success? ==>
                var hidden := old(HiddenTurns(env.db, TurnIds(turns)));
                && VisibleLogged(env.db, turns, hidden, |turns|)
                && env.db.frontier.None? && env.db.thread == old(env.db.thread)
                && (state.active.Some? ==> EndOf(turns, hidden, state.active.value.turn, |turns|, r.value))
                && Refreshed(state, env.db, env.journal)
    {
      hide Safe, Step, Agrees, Current, AllAnswered, Untold, Durable, FrontierHeld, FrontierOwned, Fresh, VisibleLogged, EndsDiffer, ValidTurn, LogGrew, EndOf, HiddenTurns, OrdinaryTurns, QuestionTurns, KnownTurns, AgentRule, Queue, Overlooked, QueueBut, QueueKnown, NoReviewedPrompts, Relying;
      ghost var image := env.db;
      var p := PrivateTurns(turns);
      if p.Failure? {
        return Failure(StoreFault);
      }
      FreshRows(state, image, env.db);
      ghost var settled := env.db;
      r := RecordVisible(turns, p.value);
      if r.Success? {
        FreshRows(state, settled, env.db);
      }
    }

    /** reconcileHistory over the turns of both histories; the visible ones are recorded and the active one is settled. */
    method Reconcile(thread: History, resumed: History) returns (e: Fault)
      requires Valid() && !fatal && loaded && question.None? && !IsReady(state)
      requires ValidThread(thread, state.thread, projectRoot) && ValidThread(resumed, state.thread, projectRoot)
      requires TurnIds(thread.turns) + TurnIds(resumed.turns) <= KnownTurns(env.journal)
      requires OrdinaryTurns(env.journal) + QuestionTurns(env.journal) <= TurnIds(thread.turns)
      requires Refreshed(state, env.db, env.journal)
      modifies this`state, this`threadCreationUncertain, this`latestSeq, env
      ensures Valid() && Grew(old(env.journal), env.journal) && !IsReady(state)
      ensures env.agentErrors == old(env.agentErrors) && env.storeErrors >= old(env.storeErrors)
      ensures e == NoFault || e == StoreFault || e == UnknownFault
      ensures e == StoreFault ==> env.storeErrors > old(env.storeErrors) && state == old(state)
      ensures e == UnknownFault ==>
                && state == old(state).(status := Some(NeedsRepair)) && threadCreationUncertain && state.active.Some?
                && DisagreeOn(thread.turns + resumed.turns, old(env.db), state.active.value.turn)
      ensures e == NoFault ==>
                && state == old(state).(active := state.active) && threadCreationUncertain == old(threadCreationUncertain)
                && Reconciled(thread.turns + resumed.turns, old(env.db), old(state).active, env.db, env.journal, state.active)
                && env.db.frontier.None? && env.db.thread == old(env.db.thread)
                && Refreshed(state, env.db, env.journal)
    {
      hide Safe, Step, Agrees, Current, AllAnswered, Untold, Durable, FrontierHeld, FrontierOwned, Fresh, VisibleLogged, EndsDiffer, ValidThread, ValidTurn, LogGrew, HiddenTurns, Grew, EndOf, Reconciled, OrdinaryTurns, QuestionTurns, KnownTurns, AgentRule, Queue, Overlooked, QueueBut, QueueKnown, NoReviewedPrompts, Relying;
      var turns := thread.turns + resumed.turns;
      JoinedTurns(thread.turns, resumed.turns);
      JoinedValid(thread, resumed, state.thread, projectRoot);
      ghost var past := env.journal;
      var recorded := RecordHistory(turns);
      ghost var before, logged := env.journal, env.db;
      GrewSame(before);
      if recorded.Failure? {
        if recorded.error == UnknownFault {
          MarkThreadRepair();
        }
        e := recorded.error;
      } else if state.active.None? {
        e := NoFault;
      } else {
        e := SettleActive(recorded.value);
      }
      if e == NoFault {
        SameLog(env.db);
        ReconciledNow(turns, old(env.db), old(state).active, logged, recorded.value, env.db, env.journal, state.active);
      }
      GrewOn(past, before, env.journal);
    }

    /** The end of reconcileHistory: the active prompt ended in the history, or goes into review. */
    method SettleActive(terminal: Option<State>) returns (e: Fault)
      requires Valid() && !fatal && state.active.Some? && loaded && question.None? && !IsReady(state)
      requires env.db.frontier.None? && Refreshed(state, env.db, env.journal)
      modifies this`state, this`latestSeq, env
      ensures Valid() && Grew(old(env.journal), env.journal)
      ensures env.agentErrors == old(env.agentErrors)
      ensures e == NoFault || e == StoreFault
      ensures env.storeErrors >= old(env.storeErrors)
      ensures e == StoreFault ==> state == old(state) && env.storeErrors > old(env.storeErrors)
      ensures e == NoFault ==>
                && state == old(state).(active := if terminal.Some? then None else Some(old(state).active.value.(state := NeedsReview)))
                && (terminal.Some? ==> env.journal != [] && Answered(Last(env.journal), EndingFound(old(state).active.value.turn, terminal.value)))
                && (terminal.None? && old(state).active.value.state != NeedsReview ==> PromptIn(env.db, state.active.value.id, NeedsReview))
      ensures env.db.thread == old(env.db.thread) && env.db.frontier.None?
      ensures LogGrew(old(env.db), env.db)
      ensures e == NoFault ==> Refreshed(state, env.db, env.journal)
    {
      hide Safe, Step, Agrees, Current, AllAnswered, Untold, Durable, FrontierHeld, FrontierOwned, Extends, Fresh, PromptIn, LogGrew, Matches, QueueMatches, OrdinaryTurns, QuestionTurns, KnownTurns, AgentRule, Queue, Overlooked, QueueBut, QueueKnown, NoReviewedPrompts, Relying;
      ghost var was := env.db;
      if terminal.Some? {
        if env.Told() {
          InStepNow(state, loaded, activeFault, env.db, env.journal);
          ActiveBelief(state, activeFault, env.db);
        }
        var done := FinishActive(terminal.value, if terminal.value == Completed then NoCode else OtherCode);
        ExtendsLog(was, env.db);
        return if done then NoFault else StoreFault;
      }
      if state.active.value.state == NeedsReview {
        SameLog(was);
        return NoFault;
      }
      var ok := ReviewActive(OtherCode);
      ExtendsLog(was, env.db);
      return if ok then NoFault else StoreFault;
    }

    /** Every control of the image whose delivery is unproven goes into review. */
    method ReviewControls() returns (ok: bool)
      requires Valid() && !fatal && loaded && question.None? && !IsReady(state)
      requires state.active.Some? ==> state.active.value.state == NeedsReview
      requires env.db.frontier.None? && Refreshed(state, env.db, env.journal)
      modifies this`state, this`latestSeq, env
      ensures Valid() && Grew(old(env.journal), env.journal)
      ensures env.agentErrors == old(env.agentErrors)
      ensures state == old(state).(controls := state.controls) && |state.controls| == |old(state).controls|
      ensures ok ==> forall k :: 0 <= k < |state.controls| ==>
                                   state.controls[k] == old(state).controls[k].(state := NeedsReview)
      ensures !ok ==> env.storeErrors > old(env.storeErrors)
      ensures old(state).controls == [] ==> ok && env.journal == old(env.journal) && env.db == old(env.db)
      ensures env.storeErrors >= old(env.storeErrors)
      ensures env.db.frontier.None? && env.db.thread == old(env.db.thread)
      ensures ok ==> Refreshed(state, env.db, env.journal)
    {
      hide Safe, Step, Agrees, Current, AllAnswered, Untold, Durable, FrontierHeld, FrontierOwned, Fresh, Grew, OrdinaryTurns, QuestionTurns, KnownTurns, AgentRule, Queue, Overlooked, QueueBut, QueueKnown, NoReviewedPrompts, Relying;
      GrewSame(env.journal);
      var k := 0;
      while k < |state.controls|
        invariant 0 <= k <= |state.controls| == |old(state).controls|
        invariant Valid() && Grew(old(env.journal), env.journal)
        invariant env.agentErrors == old(env.agentErrors) && env.storeErrors >= old(env.storeErrors)
        invariant state == old(state).(controls := state.controls)
        invariant forall i :: 0 <= i < k ==> state.controls[i] == old(state).controls[i].(state := NeedsReview)
        invariant forall i :: k <= i < |state.controls| ==> state.controls[i] == old(state).controls[i]
        invariant old(state).controls == [] ==> env.journal == old(env.journal) && env.db == old(env.db)
        invariant env.db.frontier.None? && env.db.thread == old(env.db.thread)
        invariant Refreshed(state, env.db, env.journal)
      {
        if state.controls[k].state != NeedsReview {
          ghost var before := env.journal;
          ok := ReviewControl(k);
          GrewOn(old(env.journal), before, env.journal);
          if !ok {
            return false;
          }
        }
        k := k + 1;
      }
      return true;
    }

    method ReviewControl(k: int) returns (ok: bool)
      requires Valid() && !fatal && 0 <= k < |state.controls| && loaded && question.None? && !IsReady(state)
      requires state.active.Some? ==> state.active.value.state == NeedsReview
      requires env.db.frontier.None? && Refreshed(state, env.db, env.journal)
      modifies this`state, this`latestSeq, env
      ensures Valid() && Grew(old(env.journal), env.journal)
      ensures env.agentErrors == old(env.agentErrors)
      ensures !ok ==> state == old(state) && env.storeErrors > old(env.storeErrors)
      ensures ok ==>
                var c := old(state).controls[k];
                && state == old(state).(controls := old(state).controls[k := c.(state := NeedsReview)])
                && env.journal == old(env.journal) + [Committed(MarkNeedsReview(c.id, Code.DeliveryUnknown), env.db, true)]
                && env.storeErrors == old(env.storeErrors)
      ensures env.db.frontier.None? && env.db.thread == old(env.db.thread)
      ensures ok ==> Refreshed(state, env.db, env.journal)
    {
      hide Safe, Step, Agrees, Current, AllAnswered, Untold, Durable, Disciplined, InHand, WellFormed, Extends, Fresh, OrdinaryTurns, QuestionTurns, KnownTurns, AgentRule, Queue, Overlooked, QueueBut, QueueKnown, NoReviewedPrompts, Relying;
      var c := state.controls[k];
      var op := MarkNeedsReview(c.id, Code.DeliveryUnknown);
      ghost var was, past := env.db, env.journal;
      env.DurableNow();
      assert Holds(state, c.id);
      HeldOp(state, was, past, op);
      var r := Commit(op);
      if r.Failure? {
        return false;
      }
      ControlReviewedAgrees(state, activeFault, was, past, op, env.db, env.journal);
      RenamedAgrees(state, k, c.(state := NeedsReview), loaded, activeFault, env.db, env.journal);
      ghost var m := state;
      state := state.(controls := state.controls[k := c.(state := NeedsReview)]);
      FreshStatus(m, state, env.db, env.db);
      return true;
    }

    /** A history read, or the resumption of the thread. */
    method ReadHistory(resume: bool) returns (r: Result<History, Delivery>)
      requires Valid() && !fatal
      modifies env`journal, env`agentErrors
      ensures Valid() && Grew(old(env.journal), env.journal)
      ensures r.Success? ==> env.journal == old(env.journal) + [if resume then ThreadResumed(r.value) else ThreadRead(r.value)]
      ensures r.Success? ==> env.agentErrors == old(env.agentErrors)
      ensures r.Failure? ==> env.journal == old(env.journal) && env.agentErrors > old(env.agentErrors)
      ensures OrdinaryTurns(env.journal) == old(OrdinaryTurns(env.journal)) && QuestionTurns(env.journal) == old(QuestionTurns(env.journal))
      ensures Overlooked(env.journal) == old(Overlooked(env.journal))
      ensures old(KnownTurns(env.journal)) <= KnownTurns(env.journal)
      ensures r.Success? ==> TurnIds(r.value.turns) <= KnownTurns(env.journal)
      ensures r.Success? && !resume ==> OrdinaryTurns(env.journal) + QuestionTurns(env.journal) <= TurnIds(r.value.turns)
      ensures FrontierHeld(env.journal, env.db) == old(FrontierHeld(env.journal, env.db))
    {
      hide Safe, Step, Agrees, Current, AllAnswered, Untold, FrontierHeld, FrontierOwned, Overlooked, QueueBut, QueueKnown, NoReviewedPrompts, Relying;
      if resume {
        r := env.ResumeThread();
      } else {
        r := env.ReadThread();
      }
      if r.Success? {
        assert Front(env.journal) == old(env.journal);
        CallAgrees(state, loaded, activeFault, question, env.db, old(env.journal), Last(env.journal));
      }
    }

    /** The branch of recover for a room whose thread exists: read, check, resume, reconcile. */
    method RecoverThread() returns (e: Fault)
      requires Valid() && !fatal && loaded && question.None? && !IsReady(state) && state.thread != 0
      requires Refreshed(state, env.db, env.journal)
      modifies this`state, this`threadCreationUncertain, this`latestSeq, env
      ensures Valid() && Grew(old(env.journal), env.journal) && !IsReady(state)
      ensures e == StoreFault ==> env.storeErrors > old(env.storeErrors)
      ensures e == NotSentFault ==> env.agentErrors > old(env.agentErrors)
      ensures e == UnknownFault ==>
                || env.agentErrors > old(env.agentErrors)
                || (state.status == Some(NeedsRepair) && threadCreationUncertain
                    && Unusable(env.journal, |old(env.journal)|, old(state), old(env.db), projectRoot))
      ensures e == NoFault || e == StoreFault || e == NotSentFault || e == UnknownFault
      ensures env.storeErrors >= old(env.storeErrors) && env.agentErrors >= old(env.agentErrors)
      ensures e == NoFault ==>
                var n := |old(env.journal)|;
                && |env.journal| >= n + 2 && env.journal[n].ThreadRead? && env.journal[n + 1].ThreadResumed?
                && ValidThread(env.journal[n].history, state.thread, projectRoot)
                && ValidThread(env.journal[n + 1].history, state.thread, projectRoot)
                && state == old(state).(active := state.active) && threadCreationUncertain == old(threadCreationUncertain)
                && Reconciled(env.journal[n].history.turns + env.journal[n + 1].history.turns, old(env.db), old(state).active,
                              env.db, env.journal, state.active)
                && (state.active.Some? ==> state.active.value.state == NeedsReview)
                && env.db.frontier.None? && env.db.thread == old(env.db.thread)
                && Refreshed(state, env.db, env.journal)
    {
      hide Safe, Step, Agrees, Current, AllAnswered, Untold, Durable, FrontierHeld, FrontierOwned, Fresh, ValidThread, Reconciled, OrdinaryTurns, QuestionTurns, KnownTurns, AgentRule, Queue, Overlooked, QueueBut, QueueKnown, NoReviewedPrompts, Relying;
      var h := ReadHistory(false);
      if h.Failure? {
        MarkThreadRepair();
        return if h.error.Unsent? then NotSentFault else UnknownFault;
      }
      if !ValidThread(h.value, state.thread, projectRoot) {
        MarkThreadRepair();
        return UnknownFault;
      }
      var resumed := ReadHistory(true);
      if resumed.Failure? {
        return if resumed.error.Unsent? then NotSentFault else UnknownFault;
      }
      if !ValidThread(resumed.value, state.thread, projectRoot) {
        MarkThreadRepair();
        return UnknownFault;
      }
      ghost var image, active := env.db, state.active;
      e := Reconcile(h.value, resumed.value);
      if e == NoFault {
        SettledActive(h.value.turns + resumed.value.turns, image, active, env.db, env.journal, state.active);
      }
    }

    /** The branch of recover for a room without a thread: start one and bind it. */
    method BindNewThread() returns (e: Fault)
      requires Valid() && !fatal && loaded && question.None? && !IsReady(state)
      requires state.thread == 0 && env.db.thread == 0 && state.active.None?
      requires Refreshed(state, env.db, env.journal)
      modifies this`state, this`threadCreationUncertain, this`latestSeq, env
      ensures Valid() && Grew(old(env.journal), env.journal) && !IsReady(state)
      ensures e == NoFault || e == NotSentFault || e == UnknownFault
      ensures env.storeErrors >= old(env.storeErrors) && env.agentErrors >= old(env.agentErrors)
      ensures e == NotSentFault ==>
                && env.agentErrors > old(env.agentErrors) && state == old(state).(status := Some(Recovering))
                && threadCreationUncertain == old(threadCreationUncertain)
                && (AnsweredAt(env.journal, |old(env.journal)|, SetRoomStatus(Ready)) || env.storeErrors > old(env.storeErrors))
      ensures e == UnknownFault ==>
                var n := |old(env.journal)|;
                && state == old(state).(status := Some(NeedsRepair)) && threadCreationUncertain
                && (env.db.status == NeedsRepair || env.storeErrors > old(env.storeErrors))
                && (env.agentErrors > old(env.agentErrors)
                    || (|env.journal| > n && env.journal[n].ThreadStarted?
                        && (!ValidThread(env.journal[n].history, env.journal[n].history.id, projectRoot)
                            || env.storeErrors > old(env.storeErrors))))
      ensures e == NoFault ==>
                var n := |old(env.journal)|;
                && |env.journal| == n + 2 && env.journal[n].ThreadStarted? && var h := env.journal[n].history;
                && ValidThread(h, h.id, projectRoot) && Answered(env.journal[n + 1], BindThread(h.id))
                && state == old(state).(thread := h.id) && env.db.thread == h.id != 0
                && threadCreationUncertain == old(threadCreationUncertain)
                && env.db.frontier.None? && Refreshed(state, env.db, env.journal)
    {
      hide Safe, Step, Agrees, Current, AllAnswered, Untold, Durable, FrontierHeld, FrontierOwned, Fresh, ValidThread, OrdinaryTurns, QuestionTurns, KnownTurns, AgentRule, Queue, Overlooked, QueueBut, QueueKnown, NoReviewedPrompts, Relying;
      ghost var past := env.journal;
      env.DurableNow();
      NoThread(env.db, past);
      var t := env.StartThread();
      if t.Failure? {
        if t.error.Unsent? {
          ReadyForRetry();
          return NotSentFault;
        }
        MarkThreadRepair();
        return UnknownFault;
      }
      CallAgrees(state, loaded, activeFault, question, env.db, past, ThreadStarted(t.value));
      if !ValidThread(t.value, t.value.id, projectRoot) {
        MarkThreadRepair();
        return UnknownFault;
      }
      var bound := BindStarted(t.value.id);
      if !bound {
        MarkThreadRepair();
        return UnknownFault;
      }
      return NoFault;
    }

    /** BindThread, and the coordinator takes the thread over. */
    method BindStarted(thread: ThreadId) returns (ok: bool)
      requires Valid() && !fatal && loaded && question.None? && !IsReady(state)
      requires env.db.thread == 0 && env.db.frontier.None? && Refreshed(state, env.db, env.journal)
      modifies this`state, this`latestSeq, env
      ensures Valid() && Grew(old(env.journal), env.journal)
      ensures env.agentErrors == old(env.agentErrors)
      ensures !ok ==> state == old(state) && env.storeErrors > old(env.storeErrors)
      ensures ok ==>
                && state == old(state).(thread := thread) && env.db.thread == thread != 0
                && env.journal == old(env.journal) + [Committed(BindThread(thread), env.db, true)]
                && env.db.frontier.None? && Refreshed(state, env.db, env.journal)
                && env.storeErrors == old(env.storeErrors)
    {
      hide Safe, Step, Agrees, Current, AllAnswered, Untold, Durable, FrontierHeld, FrontierOwned, Disciplined, InHand, WellFormed, Extends, Fresh, OrdinaryTurns, QuestionTurns, KnownTurns, AgentRule, Queue, Overlooked, QueueBut, QueueKnown, NoReviewedPrompts, Relying;
      ghost var was, past, m := env.db, env.journal, state;
      var op := BindThread(thread);
      UnboundOp(state, was, past, op);
      var r := Commit(op);
      if r.Failure? {
        OwnedStill(question, state, loaded, was, past, env.db, env.journal);
        return false;
      }
      BindThreadStep(was, thread);
      ThreadBoundAgrees(state, activeFault, was, past, op, env.db, env.journal);
      state := state.(thread := thread);
      OwnedStill(question, state, loaded, was, past, env.db, env.journal);
      FreshStatus(m, state, was, env.db);
      return true;
    }

    /** Nothing was sent: the stored status returns to ready, while this process stays frozen. */
    method ReadyForRetry()
      requires Valid() && !fatal && !IsReady(state)
      modifies this`state, this`latestSeq, env
      ensures Valid() && Grew(old(env.journal), env.journal)
      ensures state == old(state).(status := Some(Recovering))
      ensures AnsweredAt(env.journal, |old(env.journal)|, SetRoomStatus(Ready)) || env.storeErrors > old(env.storeErrors)
      ensures env.agentErrors == old(env.agentErrors) && env.storeErrors >= old(env.storeErrors)
    {
      hide Safe, Step, Agrees, Current, AllAnswered, Untold, Durable, FrontierHeld, Disciplined, InHand, WellFormed, Extends, OrdinaryTurns, QuestionTurns, KnownTurns, AgentRule, Queue, Overlooked, QueueBut, QueueKnown, NoReviewedPrompts, Relying;
      ghost var was, past := env.db, env.journal;
      FreeOp(state, was, past, SetRoomStatus(Ready));
      var r := Commit(SetRoomStatus(Ready));
      if r.Success? {
        SetStatusStep(was, Ready);
        RowsKeptAgree(state, loaded, activeFault, was, past, SetRoomStatus(Ready), env.db, env.journal);
      }
      FrozenAgrees(state, loaded, activeFault, env.db, env.journal, Some(Recovering));
      state := state.(status := Some(Recovering));
    }

    /** After a recovery something awaits a decision, or the room works on whatever it has. */
    predicate Settles()
      reads this
    {
      if (state.active.Some? && state.active.value.state == NeedsReview) || state.controls != [] then !IsReady(state)
      else IsReady(state) && (state.active.Some? ==> state.active.value.state == Running) && (state.active.None? ==> state.queue == [])
    }

    /** recover. */
    method HandleRecover() returns (e: Fault)
      requires Valid() && !fatal
      modifies this`state, this`threadCreationUncertain, this`threadReady, this`latestSeq, this`loaded, this`reloaded, env
      ensures Valid() && Grew(old(env.journal), env.journal)
      ensures old(question.Some?) ==> e == Refused && state == old(state) && env.db == old(env.db) && env.journal == old(env.journal)
      ensures old(question.None?) && old(threadCreationUncertain) ==>
                e == UnknownFault && state == old(state).(status := Some(NeedsRepair)) && env.journal == old(env.journal)
      ensures old(question.None?) ==> e != Refused && e != StaleTurnFault
      ensures e == StoreFault ==> env.storeErrors > old(env.storeErrors)
      ensures e == NotSentFault ==> env.agentErrors > old(env.agentErrors)
      ensures e == UnknownFault && old(question.None?) && !old(threadCreationUncertain) ==>
                var image := Loaded(old(env.db));
                || env.agentErrors > old(env.agentErrors)
                || (state.status == Some(NeedsRepair)
                    && (|| env.storeErrors > old(env.storeErrors)
                        || old(env.db).status == NeedsRepair
                        || (image.thread == 0 && (old(env.db).status == Recovering || image.active.Some? || image.controls != []))
                        || Unusable(env.journal, |old(env.journal)| + 2, image, old(env.db), projectRoot)))
      ensures e == NoFault ==> threadReady && Settles() && reloaded
      ensures e == NoFault && old(env.db.thread) != 0 ==>
                RecoveredAt(env.journal, |old(env.journal)| + 1, Loaded(old(env.db)), old(env.db), env.db, state.active, projectRoot)
    {
      hide Safe, Step, Agrees, Current, AllAnswered, Untold, Durable, FrontierHeld, Fresh, ControlsHeld, OrdinaryTurns, QuestionTurns, KnownTurns, AgentRule, Queue, Unusable, FrontierOwned, Loaded, Overlooked, QueueBut, QueueKnown, NoReviewedPrompts, Relying, RecoveredAt, Reconciled, ValidThread;
      if question.Some? {
        return Refused;
      }
      threadReady := false;
      if threadCreationUncertain {
        FrozenAgrees(state, loaded, activeFault, env.db, env.journal, Some(NeedsRepair));
        state := state.(status := Some(NeedsRepair));
        OwnedStill(question, state, loaded, env.db, env.journal, env.db, env.journal);
        return UnknownFault;
      }
      FrozenAgrees(state, loaded, activeFault, env.db, env.journal, Some(Recovering));
      state := state.(status := Some(Recovering));
      OwnedStill(question, state, loaded, env.db, env.journal, env.db, env.journal);
      var ok := LoadRecovery();
      if !ok {
        return StoreFault;
      }
      ThreadLoaded(env.db);
      e := RecoverLoaded();
    }

    /** The rest of recover, once the image is loaded. */
    method RecoverLoaded() returns (e: Fault)
      requires Valid() && !fatal && question.None? && !threadReady && loaded && reloaded && state == Loaded(env.db)
      requires Refreshed(state, env.db, env.journal)
      modifies this`state, this`threadCreationUncertain, this`threadReady, this`latestSeq, env
      ensures Valid() && Grew(old(env.journal), env.journal)
      ensures e == StoreFault ==> env.storeErrors > old(env.storeErrors)
      ensures e == NotSentFault ==> env.agentErrors > old(env.agentErrors)
      ensures e == UnknownFault ==>
                || env.agentErrors > old(env.agentErrors)
                || (state.status == Some(NeedsRepair)
                    && (|| env.storeErrors > old(env.storeErrors)
                        || old(env.db).status == NeedsRepair
                        || (old(state).thread == 0 && (old(env.db).status == Recovering || old(state).active.Some? || old(state).controls != []))
                        || Unusable(env.journal, |old(env.journal)| + 1, old(state), old(env.db), projectRoot)))
      ensures e != Refused && e != StaleTurnFault
      ensures e == NoFault ==> threadReady && Settles()
      ensures old(env.db.status) == NeedsRepair ==>
                e == UnknownFault && state == old(state).(status := Some(NeedsRepair)) && env.journal == old(env.journal)
      ensures old(env.db.status) == Recovering && old(state).thread == 0 ==>
                e == UnknownFault && state == old(state).(status := Some(NeedsRepair)) && threadCreationUncertain
      ensures e == NoFault && old(state).thread != 0 ==>
                RecoveredAt(env.journal, |old(env.journal)|, old(state), old(env.db), env.db, state.active, projectRoot)
    {
      hide Safe, Step, Agrees, Current, AllAnswered, Untold, Durable, FrontierHeld, Fresh, ControlsHeld, OrdinaryTurns, QuestionTurns, KnownTurns, AgentRule, Queue, Unusable, FrontierOwned, Loaded, Overlooked, QueueBut, QueueKnown, NoReviewedPrompts, Relying, RecoveredAt, Reconciled, ValidThread;
      if env.db.status == NeedsRepair {
        FrozenAgrees(state, loaded, activeFault, env.db, env.journal, Some(NeedsRepair));
        state := state.(status := Some(NeedsRepair));
        OwnedStill(question, state, loaded, env.db, env.journal, env.db, env.journal);
        return UnknownFault;
      }
      if state.thread == 0 && (env.db.status == Recovering || state.active.Some? || state.controls != []) {
        MarkThreadRepair();
        return UnknownFault;
      }
      ThreadLoaded(env.db);
      ghost var image, was, first := state, env.db, env.journal;
      e := FreezeAndReach();
      if e == NoFault {
        ghost var reached, past, left := env.db, env.journal, state.active;
        e := Resume();
        if e == NoFault && image.thread != 0 {
          RunExtends(env.members, env.journal, |past|);
          assert env.journal[..|past|] == past;
          ExtendsLog(reached, env.db);
          StillRecovered(past, env.journal, |first|, image, was, reached, env.db, left, state.active, projectRoot);
        }
      }
    }

    /** The recovering status is stored before the thread is touched. */
    method FreezeAndReach() returns (e: Fault)
      requires Valid() && !fatal && loaded && question.None? && !IsReady(state)
      requires state.thread == env.db.thread && (state.thread == 0 ==> state.active.None?)
      requires Refreshed(state, env.db, env.journal)
      modifies this`state, this`threadCreationUncertain, this`latestSeq, env
      ensures Valid() && Grew(old(env.journal), env.journal) && !IsReady(state)
      ensures env.storeErrors >= old(env.storeErrors) && env.agentErrors >= old(env.agentErrors)
      ensures e == StoreFault ==> env.storeErrors > old(env.storeErrors)
      ensures e == NotSentFault ==> env.agentErrors > old(env.agentErrors)
      ensures e == UnknownFault ==>
                || env.agentErrors > old(env.agentErrors)
                || (state.status == Some(NeedsRepair)
                    && (env.storeErrors > old(env.storeErrors)
                        || Unusable(env.journal, |old(env.journal)| + 1, old(state), old(env.db), projectRoot)))
      ensures e == NoFault || e == StoreFault || e == NotSentFault || e == UnknownFault
      ensures e != StoreFault ==> AnsweredAt(env.journal, |old(env.journal)|, SetRoomStatus(Recovering))
      ensures e == NoFault ==>
                && (state.active.Some? ==> state.active.value.state == NeedsReview)
                && env.db.frontier.None? && env.db.thread != 0 && Refreshed(state, env.db, env.journal)
      ensures e == NoFault && old(state).thread != 0 ==>
                RecoveredAt(env.journal, |old(env.journal)|, old(state), old(env.db), env.db, state.active, projectRoot)
    {
      hide Safe, Step, Agrees, Current, AllAnswered, Untold, Durable, FrontierHeld, FrontierOwned, Fresh, Unusable, OrdinaryTurns, QuestionTurns, KnownTurns, Overlooked, QueueBut, QueueKnown, NoReviewedPrompts, Relying, RecoveredAt, Reconciled, ValidThread;
      ghost var image, was := state, env.db;
      var frozen := SetStatus(Recovering);
      if !frozen {
        return StoreFault;
      }
      FreshStatus(image, state, was, env.db);
      SameHistory(image, state, was, env.db, projectRoot);
      ghost var frozenDb, past := env.db, env.journal;
      e := ReachThread();
      if e == NoFault && image.thread != 0 {
        HistoryReached(past, env.journal, image, was, frozenDb, env.db, state.active, projectRoot);
      }
    }

    /** The thread is started, or read and reconciled. */
    method ReachThread() returns (e: Fault)
      requires Valid() && !fatal && loaded && question.None? && !IsReady(state)
      requires state.thread == env.db.thread && (state.thread == 0 ==> state.active.None?)
      requires Refreshed(state, env.db, env.journal)
      modifies this`state, this`threadCreationUncertain, this`latestSeq, env
      ensures Valid() && Grew(old(env.journal), env.journal) && !IsReady(state)
      ensures env.storeErrors >= old(env.storeErrors) && env.agentErrors >= old(env.agentErrors)
      ensures e == StoreFault ==> env.storeErrors > old(env.storeErrors)
      ensures e == NotSentFault ==> env.agentErrors > old(env.agentErrors)
      ensures e == UnknownFault ==>
                || env.agentErrors > old(env.agentErrors)
                || (state.status == Some(NeedsRepair)
                    && (env.storeErrors > old(env.storeErrors)
                        || Unusable(env.journal, |old(env.journal)|, old(state), old(env.db), projectRoot)))
      ensures e == NoFault || e == StoreFault || e == NotSentFault || e == UnknownFault
      ensures e == NoFault ==>
                && (state.active.Some? ==> state.active.value.state == NeedsReview)
                && env.db.frontier.None? && env.db.thread != 0 && Refreshed(state, env.db, env.journal)
                && state.controls == old(state).controls
      ensures e == NoFault && old(state).thread != 0 ==>
                var n := |old(env.journal)|;
                && |env.journal| > n + 1 && env.journal[n].ThreadRead? && env.journal[n + 1].ThreadResumed?
                && ValidThread(env.journal[n].history, old(state).thread, projectRoot)
                && ValidThread(env.journal[n + 1].history, old(state).thread, projectRoot)
                && Reconciled(env.journal[n].history.turns + env.journal[n + 1].history.turns, old(env.db), old(state).active,
                              env.db, env.journal, state.active)
    {
      hide Safe, Step, Agrees, Current, AllAnswered, Untold, Durable, FrontierHeld, FrontierOwned, Fresh, ValidThread, Reconciled, OrdinaryTurns, QuestionTurns, KnownTurns, AgentRule, Queue, Overlooked, QueueBut, QueueKnown, NoReviewedPrompts, Relying;
      if state.thread == 0 {
        e := BindNewThread();
      } else {
        e := RecoverThread();
      }
    }

    /** The end of recover: unproven controls go into review, and an idle room becomes ready. */
    method Resume() returns (e: Fault)
      requires Valid() && !fatal && question.None? && loaded && reloaded && !IsReady(state)
      requires state.active.Some? ==> state.active.value.state == NeedsReview
      requires env.db.frontier.None? && env.db.thread != 0 && Refreshed(state, env.db, env.journal)
      modifies this`state, this`threadReady, this`latestSeq, env
      ensures Valid() && Grew(old(env.journal), env.journal)
      ensures e == NoFault ==> threadReady && Settles()
      ensures e == StoreFault ==> env.storeErrors > old(env.storeErrors)
      ensures e == NotSentFault || e == UnknownFault ==> env.agentErrors > old(env.agentErrors)
      ensures e != Refused && e != StaleTurnFault
      ensures e != StoreFault ==>
                var n := |old(env.journal)|;
                if old(state).active.Some? || old(state).controls != [] then
                  && e == NoFault && state == old(state).(controls := state.controls) && |state.controls| == |old(state).controls|
                  && forall k :: 0 <= k < |state.controls| ==> state.controls[k].state == NeedsReview
                else
                  && AnsweredAt(env.journal, n, SetRoomStatus(Ready))
                  && (old(state).queue != [] ==> AnsweredAt(env.journal, n + 1, BeginDispatch(old(state).queue[0])))
    {
      hide Safe, Step, Agrees, Current, AllAnswered, Untold, Durable, Fresh, QueueMatches, ActiveMatches, OrdinaryTurns, QuestionTurns, KnownTurns, AgentRule, Queue, Dispatched, Overlooked, QueueBut, QueueKnown, NoReviewedPrompts, Relying;
      var reviewed := ReviewControls();
      if !reviewed {
        return StoreFault;
      }
      threadReady := true;
      if state.active.Some? || state.controls != [] {
        return NoFault;
      }
      e := ReadyAgain(NoFault);
    }

    // ---- Review decisions --------------------------------------------------------------------------

    /** resolve. */
    method HandleResolve(actor: Uid, id: MessageId, target: MessageId, action: Action, replacement: MessageId, body: nat)
      returns (e: Fault)
      requires Valid() && !fatal
      modifies this`state, this`latestSeq, this`loaded, this`reloaded, env
      ensures Valid() && Grew(old(env.journal), env.journal)
      ensures old(activeFault) ==> e == UnknownFault && state == old(state) && env.db == old(env.db) && env.journal == old(env.journal)
      ensures e == StoreFault ==> env.storeErrors > old(env.storeErrors)
      ensures e != StoreFault && !old(activeFault) ==>
                AnsweredAt(env.journal, |old(env.journal)|, ResolveReview(actor, id, target, action, replacement, body))
      ensures e != StoreFault && !old(activeFault) && old(Exists(env.db.messages, id)) ==>
                e == NoFault && state == old(state) && |env.journal| == |old(env.journal)| + 1
      ensures e != StoreFault && !old(activeFault || Exists(env.db.messages, id)) && !threadReady ==>
                e == UnknownFault && state == old(state).(status := Some(Recovering)) && |env.journal| == |old(env.journal)| + 1
      ensures e != StoreFault && !old(activeFault || Exists(env.db.messages, id)) && threadReady ==>
                var n := |old(env.journal)|;
                && Step(old(env.db), ResolveReview(actor, id, target, action, replacement, body)) == Success(env.journal[n].db)
                && Resumed(Loaded(env.journal[n].db), env.journal[n].db.status == NeedsRepair || threadCreationUncertain,
                           RetriesControl(old(env.db), action, target), target, ExpectedTurn(old(env.db), target),
                           env.journal, n + 1, state, e)
    {
      hide Safe, Step, Agrees, Current, AllAnswered, Untold, Durable, FrontierHeld, Disciplined, InHand, WellFormed, Extends, Resumed, OrdinaryTurns, QuestionTurns, KnownTurns, AgentRule, Queue, Overlooked, QueueBut, QueueKnown, NoReviewedPrompts, Relying;
      if activeFault {
        return UnknownFault;
      }
      var op := ResolveReview(actor, id, target, action, replacement, body);
      var duplicate := Exists(env.db.messages, id);
      var retried := RetriesControl(env.db, action, target);
      var expected := ExpectedTurn(env.db, target);
      var decided := Decide(op);
      if !decided {
        return StoreFault;
      }
      if duplicate {
        return NoFault;
      }
      if !threadReady {
        return UnknownFault;
      }
      e := ResumeAfterDecision(target, retried, expected);
    }

    /** The decision is stored; a fresh one freezes the room. */
    method Decide(op: Op) returns (ok: bool)
      requires Valid() && !fatal && !activeFault && op.ResolveReview?
      modifies this`state, this`latestSeq, env
      ensures Valid() && Grew(old(env.journal), env.journal)
      ensures !ok ==> env.storeErrors > old(env.storeErrors)
      ensures ok ==> Answers(old(env.db), old(env.journal), op, env.db, env.journal) && env.storeErrors == old(env.storeErrors)
      ensures ok && old(Exists(env.db.messages, op.id)) ==> state == old(state)
      ensures ok && !old(Exists(env.db.messages, op.id)) ==>
                && state == old(state).(status := Some(Recovering)) && question.None? && !FrontierHeld(env.journal, env.db)
    {
      hide Safe, Step, Agrees, Current, AllAnswered, Untold, Durable, FrontierHeld, Disciplined, InHand, WellFormed, Extends, OrdinaryTurns, QuestionTurns, KnownTurns, AgentRule, Queue, Overlooked, QueueBut, QueueKnown, NoReviewedPrompts, Relying;
      ghost var was, past := env.db, env.journal;
      var duplicate := Exists(env.db.messages, op.id);
      env.DurableNow();
      FrozenAgrees(state, loaded, activeFault, was, past, Some(Recovering));
      FreeOp(state, was, past, op);
      var r := Commit(op);
      if r.Failure? {
        return false;
      }
      if duplicate {
        ReplayedDecision(was, op);
        RowsKeptAgree(state, loaded, activeFault, was, past, op, env.db, env.journal);
      } else {
        ResolvedAgrees(state.(status := Some(Recovering)), loaded, was, past, op, env.db, env.journal);
        DecidedWithoutFrontier(was, past, op);
        state := state.(status := Some(Recovering));
      }
      return true;
    }

    /** The rest of resolve: the retried control is sent again, and a settled room becomes ready. */
    method ResumeAfterDecision(target: MessageId, retried: bool, expected: TurnId) returns (e: Fault)
      requires Valid() && !fatal && threadReady && !activeFault && !IsReady(state)
      requires question.None? && !FrontierHeld(env.journal, env.db)
      modifies this`state, this`latestSeq, this`loaded, this`reloaded, env
      ensures Valid() && Grew(old(env.journal), env.journal)
      ensures e == StoreFault ==> env.storeErrors > old(env.storeErrors)
      ensures e != StoreFault ==>
                Resumed(Loaded(old(env.db)), old(env.db).status == NeedsRepair || threadCreationUncertain, retried, target, expected,
                        env.journal, |old(env.journal)|, state, e)
    {
      hide Safe, Step, Agrees, Current, AllAnswered, Untold, Durable, FrontierHeld, Fresh, ControlsHeld, QueueMatches, ActiveMatches, Readied, RetriedAt, OrdinaryTurns, QuestionTurns, KnownTurns, AgentRule, Queue, Overlooked, QueueBut, QueueKnown, NoReviewedPrompts, Relying;
      var ok := LoadRecovery();
      if !ok {
        return StoreFault;
      }
      if env.db.status == NeedsRepair || threadCreationUncertain {
        FrozenAgrees(state, loaded, activeFault, env.db, env.journal, Some(NeedsRepair));
        state := state.(status := Some(NeedsRepair));
        return UnknownFault;
      }
      var answer := NoFault;
      if retried {
        answer := RetryControl(target, expected);
        if answer == StoreFault {
          return StoreFault;
        }
      }
      ghost var past, image := env.journal, state;
      e := ReadyAgain(answer);
      if e != StoreFault && retried {
        RetriedThen(Loaded(old(env.db)), target, expected, |old(env.journal)|, past, env.journal, image, answer, state, e);
      }
    }

    /** The end of resolve: a settled room becomes ready and dispatches; otherwise the answer stands. */
    method ReadyAgain(answer: Fault) returns (e: Fault)
      requires Valid() && !fatal && threadReady && (reloaded || !activeFault) && !IsReady(state) && loaded && answer != StoreFault
      requires question.None? && !FrontierHeld(env.journal, env.db) && Refreshed(state, env.db, env.journal)
      modifies this`state, this`latestSeq, env
      ensures Valid() && Grew(old(env.journal), env.journal)
      ensures e == StoreFault ==> env.storeErrors > old(env.storeErrors)
      ensures e != StoreFault ==>
                Readied(old(state), env.journal, |old(env.journal)|, answer, state, e)
      ensures e == NoFault && Settleable(old(state)) ==> Settles()
      ensures e != answer && e != StoreFault ==> (e == NotSentFault || e == UnknownFault) && env.agentErrors > old(env.agentErrors)
    {
      hide Safe, Step, Agrees, Current, AllAnswered, Untold, Durable, FrontierHeld, Fresh, QueueMatches, ActiveMatches, OrdinaryTurns, QuestionTurns, KnownTurns, AgentRule, Queue, Dispatched, Overlooked, QueueBut, QueueKnown, NoReviewedPrompts, Relying;
      if Settleable(state) {
        var ready := BecomeReady();
        if !ready {
          return StoreFault;
        }
        e := DispatchNext();
        if e != NoFault {
          return;
        }
      }
      return answer;
    }

    /** A settled image becomes ready. */
    method BecomeReady() returns (ok: bool)
      requires Valid() && !fatal && threadReady && (reloaded || !activeFault) && !IsReady(state) && loaded && Settleable(state)
      requires question.None? && !FrontierHeld(env.journal, env.db) && Refreshed(state, env.db, env.journal)
      modifies this`state, this`latestSeq, env
      ensures Valid() && Grew(old(env.journal), env.journal)
      ensures env.agentErrors == old(env.agentErrors)
      ensures !ok ==> env.storeErrors > old(env.storeErrors)
      ensures ok ==>
                && state == old(state).(status := Some(Ready)) && env.storeErrors == old(env.storeErrors)
                && env.journal == old(env.journal) + [Committed(SetRoomStatus(Ready), env.db, true)]
    {
      hide Safe, Step, Agrees, Current, AllAnswered, Untold, Durable, FrontierHeld, QueueMatches, ActiveMatches, OneActive, WellFormed, PromptsStored, Overlooked, QueueBut, QueueKnown, NoReviewedPrompts, Queue;
      env.DurableNow();
      DurableParts(env.db, env.journal);
      SettledRoom(state, env.db, Overlooked(env.journal));
      FreshParts(state, env.db);
      ok := SetStatus(Ready);
    }

    /** The retried control goes to the agent again, and the image is read once more. */
    method RetryControl(target: MessageId, expected: TurnId) returns (e: Fault)
      requires Valid() && !fatal && !activeFault && !IsReady(state) && loaded
      requires question.None? && !FrontierHeld(env.journal, env.db)
      requires Refreshed(state, env.db, env.journal) && ControlsHeld(state, env.db.messages)
      modifies this`state, this`latestSeq, this`loaded, this`reloaded, env
      ensures Valid() && Grew(old(env.journal), env.journal) && !IsReady(state) && loaded
      ensures !FrontierHeld(env.journal, env.db)
      ensures env.storeErrors >= old(env.storeErrors)
      ensures e == StoreFault ==> env.storeErrors > old(env.storeErrors)
      ensures e != StoreFault ==>
                && state == Loaded(env.db) && Refreshed(state, env.db, env.journal)
                && RetriedAt(env.journal, |old(env.journal)|, old(Hears(state, expected)), target, expected, e)
                && |env.journal| == |old(env.journal)| + (if old(Hears(state, expected)) then 3 else 2)
                && env.journal[|env.journal| - 2].Committed? && env.journal[|env.journal| - 2].db == env.db
                && Last(env.journal).ImageRead?
      ensures e != Refused
    {
      hide Safe, Step, Agrees, Current, AllAnswered, Untold, Durable, FrontierHeld, Disciplined, InHand, WellFormed, Extends, Fresh, ControlsHeld, Holds, Relies, QueueMatches, ActiveMatches, OrdinaryTurns, QuestionTurns, KnownTurns, AgentRule, Queue, Overlooked, QueueBut, QueueKnown, NoReviewedPrompts, Relying;
      var s, code := Failed, StaleTurn;
      e := StaleTurnFault;
      ghost var past := env.journal;
      RefreshedQueue(state, env.db, env.journal);
      if Hears(state, expected) {
        var d := env.Control(expected);
        CallAgrees(state, loaded, activeFault, question, env.db, past, Controlled(expected, d));
        s, code, e := DeliveryState(d), DeliveryCode(d), DeliveryFault(d);
      }
      var finished := FinishRetried(target, s, code);
      if !finished {
        return StoreFault;
      }
      var ok := LoadRecovery();
      if !ok {
        return StoreFault;
      }
    }

    /** FinishControl on the retried control, which the image still lists. */
    method FinishRetried(target: MessageId, s: State, code: Code) returns (ok: bool)
      requires Valid() && !fatal && !IsReady(state) && loaded && question.None?
      requires !FrontierHeld(env.journal, env.db) && ControlsHeld(state, env.db.messages)
      requires QueueMatches(state, env.db.messages) && QueueKnown(state, env.db.messages, Overlooked(env.journal))
      modifies this`latestSeq, env
      ensures Valid() && Grew(old(env.journal), env.journal) && !FrontierHeld(env.journal, env.db)
      ensures env.agentErrors == old(env.agentErrors)
      ensures !ok ==> env.storeErrors > old(env.storeErrors)
      ensures ok ==>
                && env.journal == old(env.journal) + [Committed(FinishControl(target, s, code), env.db, true)]
                && env.storeErrors == old(env.storeErrors)
    {
      hide Safe, Step, Agrees, Current, AllAnswered, Untold, Durable, FrontierHeld, Disciplined, InHand, WellFormed, Extends, ControlsHeld, Holds, Relies, QueueMatches, OrdinaryTurns, QuestionTurns, KnownTurns, AgentRule, Queue, Overlooked, QueueBut, QueueKnown, NoReviewedPrompts, Relying;
      ghost var was, past := env.db, env.journal;
      var op := FinishControl(target, s, code);
      if Step(was, op).Success? {
        FinishedHeld(state, was, op);
        ControlOp(state, was, past, op);
      }
      var r := Commit(op);
      if r.Failure? {
        return false;
      }
      ControlAgrees(state, loaded, activeFault, was, past, op, env.db, env.journal, state.controls);
      return true;
    }

    // ---- Private questions -----------------------------------------------------------------------------

    /** Whether a private question is refused at once. */
    predicate Busy()
      reads this
    {
      question.Some? || state.active.Some? || state.queue != [] || state.controls != [] || !IsReady(state) || !threadReady
    }

    /** startQuestion: the frontier is stored before the turn is started. */
    method HandleQuestion() returns (e: Fault)
      requires Valid() && !fatal
      modifies this`state, this`question, this`latestSeq, env
      ensures Valid() && Grew(old(env.journal), env.journal)
      ensures old(Busy()) ==>
                e == Refused && question == old(question) && state == old(state) && env.db == old(env.db) && env.journal == old(env.journal)
      ensures !old(Busy()) && e == Refused ==>
                && question.None? && state == old(state) && env.db == old(env.db)
                && (env.agentErrors > old(env.agentErrors)
                    || (env.journal != [] && Last(env.journal).ThreadRead?
                        && (!ValidThread(Last(env.journal).history, state.thread, projectRoot) || StillRunning(Last(env.journal).history))))
      ensures !old(Busy()) && e != Refused ==>
                var n := |old(env.journal)|;
                && |env.journal| > n && env.journal[n].ThreadRead? && var h := env.journal[n].history;
                && ValidThread(h, old(state).thread, projectRoot) && !StillRunning(h)
                && (e == StoreFault ==> env.storeErrors > old(env.storeErrors))
                && (e != StoreFault ==> Asked(env.journal, n + 1, TurnIds(h.turns), question, e))
                && (e == UnknownFault ==> !IsReady(state))
                && (|env.journal| == n + 2 ==>
                      && e == StoreFault && state == old(state) && question.None? && env.db.messages == old(env.db.messages)
                      && env.journal[n + 1] == Committed(BeginPrivateTurn(TurnIds(h.turns)), env.db, false))
    {
      hide Safe, Step, Agrees, Current, AllAnswered, Untold, FrontierHeld, Asked, ValidThread, OrdinaryTurns, QuestionTurns, KnownTurns, AgentRule, Queue, Overlooked, QueueBut, QueueKnown, NoReviewedPrompts, Relying;
      if Busy() {
        return Refused;
      }
      var h := ReadHistory(false);
      if h.Failure? || !ValidThread(h.value, state.thread, projectRoot) {
        return Refused;
      }
      var baseline := {};
      var k := 0;
      while k < |h.value.turns|
        invariant 0 <= k <= |h.value.turns|
        invariant baseline == set i | 0 <= i < k :: h.value.turns[i].id
        invariant forall i :: 0 <= i < k ==> h.value.turns[i].state != Running
      {
        if h.value.turns[k].state == Running {
          return Refused;
        }
        baseline := baseline + {h.value.turns[k].id};
        k := k + 1;
      }
      assert baseline == TurnIds(h.value.turns);
      e := AskBehindFrontier(baseline);
    }

    method AskBehindFrontier(baseline: set<TurnId>) returns (e: Fault)
      requires Valid() && !fatal && question.None? && IsReady(state) && threadReady
      requires state.active.None? && state.queue == [] && state.controls == []
      requires OrdinaryTurns(env.journal) + QuestionTurns(env.journal) <= baseline <= KnownTurns(env.journal)
      modifies this`state, this`question, this`latestSeq, env
      ensures Valid() && Grew(old(env.journal), env.journal)
      ensures e != Refused && e != StaleTurnFault
      ensures e == StoreFault ==> env.storeErrors > old(env.storeErrors) && question.None?
      ensures e != StoreFault ==> Asked(env.journal, |old(env.journal)|, baseline, question, e)
      ensures e == NoFault || e == NotSentFault ==> state == old(state)
      ensures e == UnknownFault ==> state == old(state).(status := Some(Recovering))
      ensures |env.journal| <= |old(env.journal)| + 1 ==>
                && e == StoreFault && state == old(state)
                && (env.journal != old(env.journal) ==>
                      env.journal == old(env.journal) + [Committed(BeginPrivateTurn(baseline), env.db, false)]
                      && env.db.messages == old(env.db.messages))
    {
      hide Safe, Step, Agrees, Current, AllAnswered, Untold, Durable, FrontierHeld, Disciplined, InHand, WellFormed, Extends, OrdinaryTurns, QuestionTurns, KnownTurns, AgentRule, Queue, Overlooked, QueueBut, QueueKnown, NoReviewedPrompts, Relying;
      ghost var was, past := env.db, env.journal;
      var op := BeginPrivateTurn(baseline);
      env.DurableNow();
      CurrentWellFormed(env.members, past);
      AskAllowed(state, loaded, activeFault, was, past, baseline);
      HeldNothing(state, was, op);
      if Step(was, op).Success? {
        FrontierRows(was, op);
      }
      var r := Commit(op);
      if r.Failure? {
        return StoreFault;
      }
      RowsKeptAgree(state, loaded, activeFault, was, past, op, env.db, env.journal);
      QuestionsHidden(env.db, was, past, op);
      e := StartQuestion();
    }

    /** The question goes to the agent behind the frontier that was just stored. */
    method StartQuestion() returns (e: Fault)
      requires env.Valid() && !fatal && question.None? && IsReady(state) && state.active.None? && threadReady && loaded && env.db.thread != 0
      requires Agrees(state, loaded, activeFault, env.db, env.journal) && FaultOwned() && (env.Told() ==> Published())
      requires FrontierHeld(env.journal, env.db) && QuestionTurns(env.journal) <= env.db.hidden
      requires env.journal != [] && Last(env.journal).Committed? && Last(env.journal).op.BeginPrivateTurn? && Last(env.journal).answered
      modifies this`state, this`question, this`latestSeq, env
      ensures Valid() && Grew(old(env.journal), env.journal)
      ensures e != Refused && e != StaleTurnFault
      ensures |env.journal| > |old(env.journal)| && env.journal[|old(env.journal)|].QuestionStart?
      ensures e == StoreFault ==> env.storeErrors > old(env.storeErrors) && question.None?
      ensures e != StoreFault ==> AskedAt(env.journal, |old(env.journal)|, question, e)
      ensures e == NoFault || e == NotSentFault ==> state == old(state)
      ensures e == UnknownFault ==> state == old(state).(status := Some(Recovering))
    {
      hide Safe, Step, Agrees, Current, AllAnswered, Untold, Durable, FrontierHeld, InStep, OrdinaryTurns, QuestionTurns, KnownTurns, AgentRule, Queue, Overlooked, QueueBut, QueueKnown, NoReviewedPrompts, Relying;
      ghost var past := env.journal;
      var outcome := env.StartReadOnlyTurn();
      env.DurableNow();
      QuestionCalled(state, loaded, activeFault, env.db, past, Last(env.journal));
      match outcome {
        case NotSent =>
          e := DropFrontier();
        case Unknown =>
          FrozenAgrees(state, loaded, activeFault, env.db, env.journal, Some(Recovering));
          state := state.(status := Some(Recovering));
          return UnknownFault;
        case Started(turn) =>
          question := Some(turn);
          return NoFault;
      }
    }

    /** The question was certainly not sent: its frontier is removed, or the room freezes. */
    method DropFrontier() returns (e: Fault)
      requires env.Valid() && !fatal && question.None? && threadReady && loaded && env.db.thread != 0
      requires Agrees(state, loaded, activeFault, env.db, env.journal) && FaultOwned() && (env.Told() ==> Published())
      requires QuestionTurns(env.journal) <= env.db.hidden
      modifies this`state, this`latestSeq, env
      ensures Valid() && Grew(old(env.journal), env.journal)
      ensures e == NotSentFault || e == StoreFault
      ensures e == NotSentFault ==>
                state == old(state) && env.journal == old(env.journal) + [Committed(EndPrivateTurn({}), env.db, true)]
      ensures e == StoreFault ==> state == old(state).(status := Some(Recovering)) && env.storeErrors > old(env.storeErrors)
    {
      hide Safe, Step, Agrees, Current, AllAnswered, Untold, Durable, WellFormed, Extends, InHand, Disciplined, OrdinaryTurns, QuestionTurns, KnownTurns, AgentRule, Queue, Overlooked, QueueBut, QueueKnown, NoReviewedPrompts, Relying;
      ghost var was, past := env.db, env.journal;
      var op := EndPrivateTurn({});
      HideOp(state, was, past, op);
      var r := Commit(op);
      if r.Failure? {
        FrozenAgrees(state, loaded, activeFault, env.db, env.journal, Some(Recovering));
        state := state.(status := Some(Recovering));
        return StoreFault;
      }
      FrontierRows(was, op);
      RowsKeptAgree(state, loaded, activeFault, was, past, op, env.db, env.journal);
      return NotSentFault;
    }

    /** The question's turn ended: it joins the hidden turns and its frontier goes, or the room freezes. */
    method HandleQuestionEnded()
      requires Valid() && !fatal && question.Some?
      modifies this`state, this`question, this`fatal, this`latestSeq, env
      ensures Valid() && Grew(old(env.journal), env.journal)
      ensures question.None?
      ensures fatal ==> env.storeErrors > old(env.storeErrors)
      ensures !fatal ==>
                var n := |old(env.journal)|;
                || (env.storeErrors > old(env.storeErrors) && state == old(state).(status := Some(Recovering)))
                || (&& AnsweredAt(env.journal, n, EndPrivateTurn({old(question).value}))
                    && (if old(IsReady(state)) && old(state).controls == [] && old(state).queue != []
                        then AnsweredAt(env.journal, n + 1, BeginDispatch(old(state).queue[0]))
                        else state == old(state) && |env.journal| == n + 1))
    {
      hide Safe, Step, Agrees, Current, AllAnswered, Untold, Durable, FrontierHeld, WellFormed, Extends, InHand, Disciplined, OrdinaryTurns, QuestionTurns, KnownTurns, AgentRule, Queue, Dispatched, Overlooked, QueueBut, QueueKnown, NoReviewedPrompts, Relying;
      EndQuestion();
      var e := DispatchNext();
      if e == StoreFault {
        FailPersistence();
      }
    }

    /** EndPrivateTurn for the question in progress. */
    method EndQuestion()
      requires Valid() && !fatal && question.Some?
      modifies this`state, this`question, this`latestSeq, env
      ensures Valid() && Grew(old(env.journal), env.journal)
      ensures question.None?
      ensures || (env.storeErrors > old(env.storeErrors) && state == old(state).(status := Some(Recovering)))
              || (state == old(state) && env.storeErrors == old(env.storeErrors)
                  && env.journal == old(env.journal) + [Committed(EndPrivateTurn({old(question).value}), env.db, true)])
    {
      hide Safe, Step, Agrees, Current, AllAnswered, Untold, Durable, WellFormed, Extends, InHand, Disciplined, OrdinaryTurns, QuestionTurns, KnownTurns, AgentRule, Queue, Overlooked, QueueBut, QueueKnown, NoReviewedPrompts, Relying;
      ghost var was, past := env.db, env.journal;
      var op := EndPrivateTurn({question.value});
      HideOp(state, was, past, op);
      var r := Commit(op);
      question := None;
      if r.Failure? {
        FrozenAgrees(state, loaded, activeFault, env.db, env.journal, Some(Recovering));
        state := state.(status := Some(Recovering));
      } else {
        FrontierRows(was, op);
        RowsKeptAgree(state, loaded, activeFault, was, past, op, env.db, env.journal);
      }
    }

    /** Whether questionEvent takes the event for the private question. */
    predicate OfQuestion(thread: ThreadId, turn: TurnId)
      reads this
    {
      question.Some? && (thread == 0 || thread == state.thread) && (turn == 0 || turn == question.value)
    }

    /** handleAgentEvent, with questionEvent in front of it. */
    method HandleAgentEvent(event: AgentEvent)
      requires Valid() && !fatal && (event.TurnEnded? ==> Terminal(event.state))
      modifies this, env
      ensures Valid() && Grew(old(env.journal), env.journal)
      ensures event.ItemDelta? ==> state == old(state) && env.journal == old(env.journal) && !fatal
      ensures event.ItemDone? && old(OfQuestion(event.item.thread, event.item.turn)) ==>
                state == old(state) && env.journal == old(env.journal) && !fatal
      ensures event.TurnEnded? && old(OfQuestion(event.thread, event.turn)) ==> question.None?
      ensures event.RuntimeUnavailable? ==> state.status == Some(Recovering) && question.None? && !threadReady && !activeFault
    {
      hide Safe, Step, Agrees, Current, AllAnswered, Untold, FrontierHeld, Reconciled, Dispatched, OrdinaryTurns, QuestionTurns, KnownTurns, AgentRule, Queue, Overlooked, QueueBut, QueueKnown, NoReviewedPrompts, Relying;
      match event {
        case ItemDelta(_, _) =>
        case ItemDone(item) =>
          if !OfQuestion(item.thread, item.turn) {
            HandleItemDone(item);
          }
        case TurnEnded(thread, turn, s) =>
          if OfQuestion(thread, turn) {
            HandleQuestionEnded();
          } else {
            HandleTurnEnded(thread, turn, s);
          }
        case ProtocolError(thread, turn) =>
          if OfQuestion(thread, turn) {
            ghost var past := env.journal;
            var d := env.Control(question.value);
            CallAgrees(state, loaded, activeFault, question, env.db, past, Controlled(question.value, d));
          } else {
            HandleProtocolError(thread, turn);
          }
        case RuntimeUnavailable =>
          HandleRuntimeUnavailable();
        case RuntimeReady =>
          if question.None? && !IsReady(state) && !runtimeReadySeen {
            runtimeReadySeen := true;
            var _ := HandleRecover();
          }
      }
    }
  }

  // ---- Small facts the handlers use -------------------------------------------------------------------

  lemma NothingStored(db: Database, j: Journal, op: Op)
    ensures TurnsKept(db, j, op, db, j)
  {
  }

  lemma StartedTurn(j: Journal)
    requires j != [] && Last(j).TurnStart? && Last(j).created.Some?
    ensures Last(j).created.value in OrdinaryTurns(j)
  {
  }

  lemma MarkedPrompt(db: Database, op: Op, next: Database)
    requires WellFormed(db) && op.MarkNeedsReview? && IsPromptOf(db, op.id) && Step(db, op) == Success(next)
    ensures PromptIn(next, op.id, NeedsReview)
  {
    MarkedTarget(db, op);
    MovedOneRow(db, op, op.id);
    OneRowIndex(db.messages, next.messages, op.id, op.id);
  }

  lemma SamePrompt(db: Database, next: Database, id: MessageId, s: State)
    requires PromptIn(db, id, s) && next.messages == db.messages
    ensures PromptIn(next, id, s)
  {
  }

  lemma SameQueues(m: Memory, m': Memory, ms: seq<Message>)
    requires m'.active == m.active && m'.queue == m.queue
    ensures QueueMatches(m', ms) == QueueMatches(m, ms)
  {
  }

  lemma MarkedEntry(cs: seq<Binding>, i: nat, s: State)
    requires i < |cs|
    ensures cs[..i] + Marked(cs[i], s) + cs[i + 1..] ==
            if s == NeedsReview then cs[i := cs[i].(state := NeedsReview)] else cs[..i] + cs[i + 1..]
  {
  }

  /** Settling an entry keeps every other one, and the marked one too. */
  lemma SettledHolds(m: Memory, id: MessageId, s: State)
    ensures var cs := Settled(m.controls, id, s);
            && (forall other :: other != id && Holds(m, other) ==> Holds(m.(controls := cs), other))
            && (s == NeedsReview && Holds(m, id) ==> Holds(m.(controls := cs), id))
            && (cs == [] ==> |m.controls| <= 1)
  {
    var i := SettledAt(m.controls, id, s);
    if i < |m.controls| {
      MarkedEntry(m.controls, i, s);
      OneControl(m, i, Settled(m.controls, id, s));
    }
  }

  lemma {:induction false} SettledAt(cs: seq<Binding>, id: MessageId, s: State) returns (i: nat)
    ensures i <= |cs| && (forall k :: 0 <= k < i ==> cs[k].id != id) && (i < |cs| ==> cs[i].id == id)
    ensures i == |cs| ==> Settled(cs, id, s) == cs
    ensures i < |cs| ==> Settled(cs, id, s) == cs[..i] + Marked(cs[i], s) + cs[i + 1..]
    decreases |cs|
  {
    hide Marked;
    i := 0;
    if cs != [] && cs[0].id != id {
      var tail := cs[1..];
      var rest := SettledAt(tail, id, s);
      i := rest + 1;
      assert forall k :: 1 <= k < i ==> cs[k] == tail[k - 1];
      if i < |cs| {
        SettledStep(cs, tail, rest, Marked(cs[i], s));
      }
    }
  }

  lemma SettledStep(cs: seq<Binding>, tail: seq<Binding>, i: nat, middle: seq<Binding>)
    requires cs != [] && tail == cs[1..] && i < |tail|
    ensures [cs[0]] + (tail[..i] + middle + tail[i + 1..]) == cs[..i + 1] + middle + cs[i + 2..]
  {
    assert cs[..i + 1] == [cs[0]] + tail[..i];
  }

  /** Whether a history is usable depends on the thread, the active prompt and what is private. */
  lemma SameHistory(m: Memory, m': Memory, db: Database, next: Database, projectRoot: nat)
    requires m'.thread == m.thread && m'.active == m.active && next.hidden == db.hidden && next.frontier == db.frontier
    ensures forall j, n :: Unusable(j, n, m', next, projectRoot) == Unusable(j, n, m, db, projectRoot)
  {
    forall turns, turn
      ensures DisagreeOn(turns, next, turn) == DisagreeOn(turns, db, turn)
    {
      assert HiddenTurns(next, TurnIds(turns)) == HiddenTurns(db, TurnIds(turns));
    }
  }

  /** The history of a reconciled thread, seen from before the room was frozen. */
  lemma HistoryReached(past: Journal, now: Journal, image: Memory, was: Database, frozen: Database, db: Database,
                       left: Option<Binding>, projectRoot: nat)
    requires past != [] && Answered(Last(past), SetRoomStatus(Recovering)) && past <= now
    requires |now| > |past| + 1 && now[|past|].ThreadRead? && now[|past| + 1].ThreadResumed?
    requires ValidThread(now[|past|].history, image.thread, projectRoot) && ValidThread(now[|past| + 1].history, image.thread, projectRoot)
    requires frozen.hidden == was.hidden && frozen.frontier == was.frontier
    requires Reconciled(now[|past|].history.turns + now[|past| + 1].history.turns, frozen, image.active, db, now, left)
    ensures RecoveredAt(now, |past| - 1, image, was, db, left, projectRoot)
  {
    hide ValidThread, VisibleLogged;
    var turns := now[|past|].history.turns + now[|past| + 1].history.turns;
    var hidden := HiddenTurns(was, TurnIds(turns));
    assert HiddenTurns(frozen, TurnIds(turns)) == hidden;
    assert now[|past| - 1] == Last(past);
    if image.active.Some? {
      forall k | 0 <= k < |turns| && EndedAs(turns[k], hidden, image.active.value.turn)
        ensures AnsweredFrom(now, |past| + 2, EndingFound(image.active.value.turn, turns[k].state))
      {
        EndIsLast(now, |past| + 2, EndingFound(image.active.value.turn, turns[k].state));
      }
    }
  }

  /** A finished turn comes after the two reads. */
  lemma EndIsLast(j: Journal, n: nat, op: Op)
    requires |j| >= n > 1 && j[n - 1].ThreadResumed? && Answered(Last(j), op)
    ensures AnsweredFrom(j, n, op)
  {
    assert j[|j| - 1] == Last(j);
  }

  /** What a recovery did stays done while the room resumes. */
  lemma StillRecovered(past: Journal, now: Journal, n: nat, image: Memory, before: Database, reached: Database, db: Database,
                       left: Option<Binding>, after: Option<Binding>, projectRoot: nat)
    requires RecoveredAt(past, n, image, before, reached, left, projectRoot) && past <= now && LogGrew(reached, db)
    requires left.Some? ==> after == left
    ensures RecoveredAt(now, n, image, before, db, after, projectRoot)
  {
    hide ValidThread, HiddenTurns, LogGrew, VisibleLogged, Answered;
    var turns := past[n + 1].history.turns + past[n + 2].history.turns;
    var hidden := HiddenTurns(before, TurnIds(turns));
    StaysLogged(reached, db, turns, hidden, |turns|);
    if image.active.Some? {
      forall k | 0 <= k < |turns| && EndedAs(turns[k], hidden, image.active.value.turn)
        ensures AnsweredFrom(now, n + 3, EndingFound(image.active.value.turn, turns[k].state))
      {
        var i :| n + 3 <= i < |past| && Answered(past[i], EndingFound(image.active.value.turn, turns[k].state));
        assert Answered(now[i], EndingFound(image.active.value.turn, turns[k].state));
      }
    }
  }

  lemma ThreadLoaded(db: Database)
    ensures Loaded(db).thread == db.thread && !IsReady(Loaded(db))
  {
  }

  lemma PrivateEnded(db: Database, op: Op, next: Database)
    requires op.EndPrivateTurn? && Step(db, op) == Success(next)
    ensures next == db.(hidden := next.hidden, frontier := None)
  {
  }

  /** A thread may be bound only to a room without one. */
  lemma UnboundOp(m: Memory, db: Database, j: Journal, op: Op)
    requires op.BindThread? && db.thread == 0
    ensures InHand(m, db, op) && Disciplined(j, db, op)
  {
  }

  /** Without a frontier or a question, a coordinator that is not ready owns what it must. */
  lemma OwnedStill(question: Option<TurnId>, m: Memory, loaded: bool, db: Database, j: Journal, next: Database, now: Journal)
    requires question.None? && !IsReady(m)
    ensures FrontierOwned(m, loaded, question, next, now)
  {
  }

  lemma FreshRows(m: Memory, db: Database, next: Database)
    requires next.messages == db.messages
    ensures Fresh(m, db) == Fresh(m, next)
  {
  }

  lemma GrewSame(j: Journal)
    ensures Grew(j, j)
  {
  }

  lemma GrewOn(a: Journal, b: Journal, c: Journal)
    requires Grew(a, b) && Grew(b, c)
    ensures Grew(a, c)
  {
  }

  lemma SameLog(db: Database)
    ensures LogGrew(db, db)
  {
  }

  lemma StaysLogged(db: Database, next: Database, turns: seq<HistoryTurn>, hidden: set<TurnId>, n: nat)
    requires n <= |turns| && VisibleLogged(db, turns, hidden, n) && LogGrew(db, next)
    ensures VisibleLogged(next, turns, hidden, n)
  {
  }

  /** Recording the visible turns and settling the active prompt by the end they agree on is what reconciling means. */
  lemma ReconciledNow(turns: seq<HistoryTurn>, before: Database, active: Option<Binding>, logged: Database, end: Option<State>,
                      db: Database, j: Journal, left: Option<Binding>)
    requires VisibleLogged(logged, turns, HiddenTurns(before, TurnIds(turns)), |turns|) && LogGrew(logged, db)
    requires active.Some? ==> EndOf(turns, HiddenTurns(before, TurnIds(turns)), active.value.turn, |turns|, end)
    requires left == if active.Some? && end.None? then Some(active.value.(state := NeedsReview)) else None
    requires active.Some? && end.Some? ==> j != [] && Answered(Last(j), EndingFound(active.value.turn, end.value))
    ensures Reconciled(turns, before, active, db, j, left)
  {
    hide HiddenTurns, Logged;
    StaysLogged(logged, db, turns, HiddenTurns(before, TurnIds(turns)), |turns|);
  }

  lemma JoinedValid(a: History, b: History, id: ThreadId, projectRoot: nat)
    requires ValidThread(a, id, projectRoot) && ValidThread(b, id, projectRoot)
    ensures forall k :: 0 <= k < |a.turns + b.turns| ==> ValidTurn((a.turns + b.turns)[k], id)
  {
  }

  /** After reconciling, an active prompt awaits review. */
  lemma SettledActive(turns: seq<HistoryTurn>, before: Database, active: Option<Binding>, db: Database, j: Journal, left: Option<Binding>)
    requires Reconciled(turns, before, active, db, j, left)
    ensures left.Some? ==> left.value.state == NeedsReview
  {
  }

  lemma JoinedTurns(a: seq<HistoryTurn>, b: seq<HistoryTurn>)
    ensures TurnIds(a + b) == TurnIds(a) + TurnIds(b)
  {
    forall k | 0 <= k < |b|
      ensures b[k].id in TurnIds(a + b)
    {
      assert (a + b)[|a| + k] == b[k];
    }
    forall k | 0 <= k < |a|
      ensures a[k].id in TurnIds(a + b)
    {
      assert (a + b)[k] == a[k];
    }
  }

  lemma HeldNothing(m: Memory, db: Database, op: Op)
    requires op.BeginPrivateTurn?
    ensures InHand(m, db, op)
  {
  }

  /** When a frontier can be stored, every earlier question is hidden. */
  lemma QuestionsHidden(next: Database, db: Database, j: Journal, op: Op)
    requires Durable(db, j) && op.BeginPrivateTurn? && Step(db, op) == Success(next)
    ensures QuestionTurns(j) <= next.hidden
  {
    FrontierTaken(db, op);
    StepColumns(db, op);
  }

  /** The turns an end of a private turn hides must be known, and none of them a prompt's. */
  lemma HideOp(m: Memory, db: Database, j: Journal, op: Op)
    requires op.EndPrivateTurn? && op.turns <= KnownTurns(j) && op.turns !! OrdinaryTurns(j)
    requires QuestionTurns(j) <= db.hidden + op.turns
    ensures InHand(m, db, op) && Disciplined(j, db, op)
  {
  }

  /** A question's turn is new: it is known from now on, and no prompt's. */
  lemma QuestionCalled(m: Memory, loaded: bool, fault: bool, db: Database, j: Journal, e: Effect)
    requires Agrees(m, loaded, fault, db, j) && e.QuestionStart? && Durable(db, j + [e])
    ensures Agrees(m, loaded, fault, db, j + [e])
    ensures FrontierHeld(j + [e], db) == FrontierHeld(j, db)
    ensures QuestionTurns(j + [e]) == QuestionTurns(j) + CreatedBy(e)
    ensures forall q :: q in CreatedBy(e) ==> q in KnownTurns(j + [e]) && q !in OrdinaryTurns(j + [e])
  {
    hide InTouch, InStep, Aligned;
    assert Front(j + [e]) == j && Last(j + [e]) == e;
    assert OrdinaryTurns(j + [e]) == OrdinaryTurns(j);
    assert Overlooked(j + [e]) == Overlooked(j);
  }

  /** A retried control and what followed it, seen from the end. */
  lemma RetriedThen(image: Memory, target: MessageId, expected: TurnId, n: nat, past: Journal, now: Journal,
                    again: Memory, answer: Fault, after: Memory, e: Fault)
    requires past <= now && n < |past| && past[n].ImageRead?
    requires RetriedAt(past, n + 1, Hears(image, expected), target, expected, answer)
    requires |past| == n + (if Hears(image, expected) then 4 else 3)
    requires past[|past| - 2].Committed? && again == Loaded(past[|past| - 2].db) && past[|past| - 1].ImageRead?
    requires Readied(again, now, |past|, answer, after, e)
    ensures Resumed(image, false, true, target, expected, now, n, after, e)
  {
    hide Readied, Hears, Loaded;
  }

  /** Nothing is overlooked once the image was read. */
  lemma ImageFresh(j: Journal)
    ensures Overlooked(j + [ImageRead]) == {}
    ensures OrdinaryTurns(j + [ImageRead]) == OrdinaryTurns(j) && QuestionTurns(j + [ImageRead]) == QuestionTurns(j)
    ensures KnownTurns(j + [ImageRead]) == KnownTurns(j)
    ensures forall db :: FrontierHeld(j + [ImageRead], db) == FrontierHeld(j, db)
  {
    assert Front(j + [ImageRead]) == j && Last(j + [ImageRead]) == ImageRead;
  }
}
