/** The store and the agent as a coordinator sees them: every call may fail, and every effect is journaled. */
module RoomEnvironment {
  import opened Wrappers
  import opened RoomStore
  import opened RoomStoreFacts
  import opened DispatchJournal
  import opened RoomSafety

  /** The journal only grows, and what was answered so far stays so. */
  ghost predicate Grew(before: Journal, now: Journal)
  {
    before <= now && (AllAnswered(now) ==> AllAnswered(before))
  }

  lemma GrewOne(j: Journal, e: Effect)
    ensures Grew(j, j + [e]) && Front(j + [e]) == j && Last(j + [e]) == e
    ensures AllAnswered(j + [e]) <==> AllAnswered(j) && (e.Committed? ==> e.answered)
  {
    assert Front(j + [e]) == j;
  }

  class Environment {
    const members: map<Uid, bool>
    var db: Database
    var journal: Journal             // no call looks at it, except to answer as the agent's contract says
    ghost var storeErrors: nat       // calls of the store that reported an error
    ghost var agentErrors: nat       // calls of the agent that reported an error
    ghost var high: nat              // the newest event number handed to the sink

    ghost predicate Valid()
      reads this
    {
      && Safe(Initial(members), journal)
      && db == Current(Initial(members), journal)
    }

    /** No answer of the store was lost so far. */
    ghost predicate Told()
      reads this`journal
    {
      AllAnswered(journal)
    }

    constructor (members: map<Uid, bool>)
      ensures Valid() && journal == [] && db == Initial(members) && high == 0
      ensures this.members == members
    {
      this.members := members;
      db := Initial(members);
      journal := [];
      storeErrors, agentErrors, high := 0, 0, 0;
    }

    lemma DurableNow()
      requires Valid()
      ensures Durable(db, journal)
    {
      SafeIsDurable(members, journal);
    }

    /** One store transaction.  An error leaves no trace, unless the store lost its answer. */
    method Transact(op: Op) returns (r: Result<bool, StoreError>)
      requires Valid()
      requires Step(db, op).Success? ==> Disciplined(journal, db, op)
      modifies this`db, this`journal, this`storeErrors
      ensures Valid() && Grew(old(journal), journal)
      ensures r.Success? ==>
                && Step(old(db), op) == Success(db) && journal == old(journal) + [Committed(op, db, true)]
                && storeErrors == old(storeErrors)
      ensures r.Failure? ==> storeErrors == old(storeErrors) + 1
      ensures r.Failure? && journal != old(journal) ==>
                Step(old(db), op) == Success(db) && journal == old(journal) + [Committed(op, db, false)] && !Told()
      ensures r.Failure? && journal == old(journal) ==> db == old(db)
      ensures Step(old(db), op).Failure? ==> r == Failure(Step(old(db), op).error) && journal == old(journal)
    {
      match Step(db, op) {
        case Failure(e) =>
          r := Failure(e);
        case Success(next) =>
          var landed: bool := *;
          var answered: bool := *;
          if landed {
            SafeExtend(Initial(members), journal, Committed(op, next, answered));
            GrewOne(journal, Committed(op, next, answered));
            db := next;
            journal := journal + [Committed(op, next, answered)];
          }
          r := if landed && answered then Success(true) else Failure(Unavailable);
      }
      if r.Failure? {
        storeErrors := storeErrors + 1;
      }
    }

    /** A read of the private turns may fail; otherwise it shows them as they are. */
    method ReadPrivateTurns() returns (ok: bool)
      modifies this`storeErrors
      ensures storeErrors == old(storeErrors) + if ok then 0 else 1
    {
      ok := *;
      if !ok {
        storeErrors := storeErrors + 1;
      }
    }

    /** The store refuses to settle a frontier while a turn outside it runs. */
    method RefusePrivateTurns(turns: seq<HistoryTurn>, k: nat)
      requires db.frontier.Some? && k < |turns| && turns[k].state == Running && turns[k].id !in db.frontier.value.baseline
      modifies this`storeErrors
      ensures storeErrors == old(storeErrors) + 1
    {
      storeErrors := storeErrors + 1;
    }

    /** A read of the recovery image may fail; otherwise it shows the tables as they are. */
    method ReadImage() returns (ok: bool)
      requires Valid()
      modifies this`journal, this`storeErrors
      ensures Valid() && Grew(old(journal), journal)
      ensures ok ==> journal == old(journal) + [ImageRead] && storeErrors == old(storeErrors)
      ensures !ok ==> journal == old(journal) && storeErrors == old(storeErrors) + 1
    {
      ok := *;
      if ok {
        SafeExtend(Initial(members), journal, ImageRead);
        GrewOne(journal, ImageRead);
        journal := journal + [ImageRead];
      } else {
        storeErrors := storeErrors + 1;
      }
    }

    method Publish(n: nat)
      requires Told() ==> n <= high + 1
      modifies this`high
      ensures high == if n > old(high) then n else old(high)
    {
      high := if n > high then n else high;
    }

    /** An arbitrary answer to turn/start that respects the agent's contract. */
    method BeginTurn() returns (outcome: StartOutcome, created: Option<TurnId>)
      requires Valid()
      ensures AgentRule(journal, outcome, created)
    {
      var turn: nat := *;
      var delivery: Delivery := *;
      if delivery.Unsent? || turn == 0 || turn in KnownTurns(journal) {
        outcome, created := if delivery.Unsent? then NotSent else Unknown, None;
      } else {
        outcome, created := if delivery.Delivered? then Started(turn) else Unknown, Some(turn);
      }
    }

    method StartTurn(id: MessageId) returns (outcome: StartOutcome)
      requires Valid() && JustAnswered(journal, BeginDispatch(id))
      modifies this`journal, this`agentErrors
      ensures Valid() && Grew(old(journal), journal) && journal != []
      ensures Last(journal).TurnStart?
      ensures journal == old(journal) + [TurnStart(id, outcome, Last(journal).created)]
      ensures AgentRule(old(journal), outcome, Last(journal).created)
      ensures outcome.Started? ==> Last(journal).created == Some(outcome.turn) && outcome.turn != 0
      ensures outcome.NotSent? ==> Last(journal).created == None
      ensures agentErrors == old(agentErrors) + if outcome.Started? then 0 else 1
    {
      var created;
      outcome, created := BeginTurn();
      if !outcome.Started? {
        agentErrors := agentErrors + 1;
      }
      SafeExtend(Initial(members), journal, TurnStart(id, outcome, created));
      GrewOne(journal, TurnStart(id, outcome, created));
      journal := journal + [TurnStart(id, outcome, created)];
    }

    method StartReadOnlyTurn() returns (outcome: StartOutcome)
      requires Valid()
      requires journal != [] && Last(journal).Committed? && Last(journal).op.BeginPrivateTurn? && Last(journal).answered
      modifies this`journal, this`agentErrors
      ensures Valid() && Grew(old(journal), journal) && journal != []
      ensures Last(journal).QuestionStart?
      ensures journal == old(journal) + [QuestionStart(outcome, Last(journal).created)]
      ensures AgentRule(old(journal), outcome, Last(journal).created)
      ensures outcome.Started? ==> Last(journal).created == Some(outcome.turn)
      ensures outcome.NotSent? ==> Last(journal).created == None
      ensures agentErrors == old(agentErrors) + if outcome.Started? then 0 else 1
    {
      var created;
      outcome, created := BeginTurn();
      if !outcome.Started? {
        agentErrors := agentErrors + 1;
      }
      SafeExtend(Initial(members), journal, QuestionStart(outcome, created));
      GrewOne(journal, QuestionStart(outcome, created));
      journal := journal + [QuestionStart(outcome, created)];
    }

    /** A history read names every turn begun so far. */
    method ReadThread() returns (r: Result<History, Delivery>)
      requires Valid()
      modifies this`journal, this`agentErrors
      ensures Valid() && Grew(old(journal), journal)
      ensures r.Success? ==>
                && journal == old(journal) + [ThreadRead(r.value)]
                && OrdinaryTurns(old(journal)) + QuestionTurns(old(journal)) <= TurnIds(r.value.turns)
      ensures r.Failure? ==> journal == old(journal)
      ensures agentErrors == old(agentErrors) + if r.Failure? then 1 else 0
    {
      var h: History := *;
      var ok: bool := *;
      if ok && OrdinaryTurns(journal) + QuestionTurns(journal) <= TurnIds(h.turns) {
        SafeExtend(Initial(members), journal, ThreadRead(h));
        GrewOne(journal, ThreadRead(h));
        journal := journal + [ThreadRead(h)];
        r := Success(h);
      } else {
        var d: Delivery := *;
        agentErrors := agentErrors + 1;
        r := Failure(d);
      }
    }

    method ResumeThread() returns (r: Result<History, Delivery>)
      requires Valid()
      modifies this`journal, this`agentErrors
      ensures Valid() && Grew(old(journal), journal)
      ensures r.Success? ==> journal == old(journal) + [ThreadResumed(r.value)]
      ensures r.Failure? ==> journal == old(journal)
      ensures agentErrors == old(agentErrors) + if r.Failure? then 1 else 0
    {
      var h: History := *;
      var ok: bool := *;
      if ok {
        SafeExtend(Initial(members), journal, ThreadResumed(h));
        GrewOne(journal, ThreadResumed(h));
        journal := journal + [ThreadResumed(h)];
        r := Success(h);
      } else {
        var d: Delivery := *;
        agentErrors := agentErrors + 1;
        r := Failure(d);
      }
    }

    method StartThread() returns (r: Result<History, Delivery>)
      requires Valid()
      modifies this`journal, this`agentErrors
      ensures Valid() && Grew(old(journal), journal)
      ensures r.Success? ==> journal == old(journal) + [ThreadStarted(r.value)]
      ensures r.Failure? ==> journal == old(journal)
      ensures agentErrors == old(agentErrors) + if r.Failure? then 1 else 0
    {
      var h: History := *;
      var ok: bool := *;
      if ok {
        SafeExtend(Initial(members), journal, ThreadStarted(h));
        GrewOne(journal, ThreadStarted(h));
        journal := journal + [ThreadStarted(h)];
        r := Success(h);
      } else {
        var d: Delivery := *;
        agentErrors := agentErrors + 1;
        r := Failure(d);
      }
    }

    /** SteerTurn and InterruptTurn: the answer says only whether the request was delivered. */
    method Control(turn: TurnId) returns (d: Delivery)
      requires Valid()
      modifies this`journal, this`agentErrors
      ensures Valid() && Grew(old(journal), journal)
      ensures journal == old(journal) + [Controlled(turn, d)]
      ensures agentErrors == old(agentErrors) + if d.Delivered? then 0 else 1
    {
      d := *;
      if !d.Delivered? {
        agentErrors := agentErrors + 1;
      }
      SafeExtend(Initial(members), journal, Controlled(turn, d));
      GrewOne(journal, Controlled(turn, d));
      journal := journal + [Controlled(turn, d)];
    }

    /** The process dies after some effect: only the effects up to it happened, and a new process finds their tables. */
    method Crash(kept: nat)
      requires Valid() && kept <= |journal|
      modifies this
      ensures Valid() && journal == old(journal)[..kept]
      ensures db.nextSeq > 0 && high + 1 == db.nextSeq
    {
      CrashIsSafe(Initial(members), journal, kept);
      CurrentWellFormed(members, journal[..kept]);
      journal := journal[..kept];
      db := Current(Initial(members), journal);
      high := db.nextSeq - 1;
    }
  }
}
