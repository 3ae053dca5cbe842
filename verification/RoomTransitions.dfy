/** What a transaction does to each row, to the queue, and to the order of unfinished prompts. */
module RoomTransitions {
  import opened Wrappers
  import opened RoomStore
  import opened RoomStoreFacts

  /** A command already stored under its id changes no row. */
  predicate Replayed(db: Database, op: Op)
  {
    (op.Accept? || op.ResolveReview?) && Exists(db.messages, op.id)
  }

  function Decided(m: Message, action: Action): Message
  {
    match action
    case Retry => if IsPrompt(m.kind) then Revised(m, Queued, 0, NoCode) else Revised(m, Dispatching, m.turn, NoCode)
    case Skip => Revised(m, Failed, m.turn, RecoverySkipped)
    case Continue => Revised(m, Failed, m.turn, RecoveryContinued)
  }

  // ---- Where a transaction finds its row --------------------------------------

  lemma ResolvedTarget(db: Database, op: Op)
    requires Step(db, op).Success? && op.ResolveReview? && !Exists(db.messages, op.id)
    ensures Exists(db.messages, op.target) && Row(db.messages, op.target).state == NeedsReview
  {
  }

  lemma BegunTarget(db: Database, op: Op)
    requires Step(db, op).Success? && op.BeginDispatch?
    ensures Exists(db.messages, op.id) && QueuedPrompt(Row(db.messages, op.id))
  {
  }

  lemma FinishedTurn(db: Database, op: Op)
    requires Step(db, op).Success? && op.FinishTurn?
    ensures op.turn != 0 && BoundIndex(db.messages, op.turn) != -1
  {
  }

  lemma ControlTarget(db: Database, op: Op)
    requires Step(db, op).Success? && op.FinishControl?
    ensures Exists(db.messages, op.id) && IsControl(Row(db.messages, op.id).kind)
  {
  }

  // ---- How rows move ------------------------------------------------------------

  /** What a successful transaction makes of a row that was already there. */
  function Moved(db: Database, op: Op, m: Message): Message
  {
    match op
    case BeginDispatch(id) => if m.id == id then Revised(m, Dispatching, m.turn, NoCode) else m
    case FailDispatch(id, s, code) => if m.id == id then Revised(m, s, m.turn, code) else m
    case BindRunningTurn(id, turn) => if m.id == id then Revised(m, Running, turn, NoCode) else m
    case FinishControl(id, s, code) => if m.id == id then Revised(m, s, m.turn, code) else m
    case FinishTurn(turn, s, code) =>
      var i := BoundIndex(db.messages, turn);
      if i != -1 && m.id == db.messages[i].id then Revised(m, s, m.turn, code) else m
    case MarkNeedsReview(id, code) => if m.id == id then Revised(m, NeedsReview, m.turn, code) else m
    case ResolveReview(_, id, target, action, _, _) =>
      if !Exists(db.messages, id) && m.id == target then Decided(m, action) else m
    case _ => m
  }

  /** The rows a successful transaction adds. */
  function Inserted(db: Database, op: Op): seq<Message>
  {
    if Replayed(db, op) then []
    else
      match op
      case Accept(actor, id, kind, body, expected, _) =>
        [Message(id, kind, actor, body, InitialState(kind), db.nextSeq, if IsControl(kind) then expected else 0, NoCode)]
      case ResolveReview(actor, id, _, action, replacement, body) =>
        [RecoverRow(db, actor, id, body)] +
        (if action == Continue
         then [Message(replacement, RecoveryPrompt, actor, body, Queued, db.nextSeq + 2, 0, NoCode)]
         else [])
      case _ => []
  }

  ghost predicate RowsFollow(db: Database, op: Op, next: Database)
  {
    && |next.messages| == |db.messages| + |Inserted(db, op)|
    && (forall k :: 0 <= k < |db.messages| ==> next.messages[k] == Moved(db, op, db.messages[k]))
    && (forall k :: 0 <= k < |Inserted(db, op)| ==> next.messages[|db.messages| + k] == Inserted(db, op)[k])
  }

  lemma RevisedRow(ms: seq<Message>, i: int, m: Message)
    requires Distinct(ms) && 0 <= i < |ms| && m.id == ms[i].id
    ensures forall k :: 0 <= k < |ms| ==> ms[i := m][k] == if ms[k].id == ms[i].id then m else ms[k]
  {
    forall k | 0 <= k < |ms|
      ensures ms[k].id == ms[i].id <==> k == i
    {
      assert k < i || i < k || k == i;
    }
  }

  lemma DispatchRows(db: Database, op: Op)
    requires WellFormed(db) && Step(db, op).Success?
    requires op.BeginDispatch? || op.FailDispatch? || op.BindRunningTurn?
    ensures RowsFollow(db, op, Step(db, op).value)
  {
    match op
    case BeginDispatch(id) =>
      var i := IndexOf(db.messages, id);
      RevisedRow(db.messages, i, Revised(db.messages[i], Dispatching, db.messages[i].turn, NoCode));
    case FailDispatch(id, s, code) =>
      var i := IndexOf(db.messages, id);
      RevisedRow(db.messages, i, Revised(db.messages[i], s, db.messages[i].turn, code));
    case BindRunningTurn(id, turn) =>
      var i := IndexOf(db.messages, id);
      RevisedRow(db.messages, i, Revised(db.messages[i], Running, turn, NoCode));
  }

  lemma FinishRows(db: Database, op: Op)
    requires WellFormed(db) && Step(db, op).Success?
    requires op.FinishControl? || op.FinishTurn? || op.MarkNeedsReview?
    ensures RowsFollow(db, op, Step(db, op).value)
  {
    match op
    case FinishControl(id, s, code) =>
      var i := IndexOf(db.messages, id);
      RevisedRow(db.messages, i, Revised(db.messages[i], s, db.messages[i].turn, code));
    case FinishTurn(turn, s, code) =>
      var i := BoundIndex(db.messages, turn);
      RevisedRow(db.messages, i, Revised(db.messages[i], s, turn, code));
    case MarkNeedsReview(id, code) =>
      var i := IndexOf(db.messages, id);
      RevisedRow(db.messages, i, Revised(db.messages[i], NeedsReview, db.messages[i].turn, code));
  }

  /** The rows once the command row is stored and the decision is written to the target. */
  lemma DecisionRows(db: Database, op: Op, decided: Database)
    requires WellFormed(db) && op.ResolveReview? && !Exists(db.messages, op.id)
    requires Exists(db.messages, op.target)
    requires var accepted := ReviewAccepted(db, op.actor, op.id, op.target, op.action, op.body);
             decided == if op.action == Retry then RetryTx(accepted, IndexOf(db.messages, op.target))
                        else TerminalizeTx(accepted, IndexOf(db.messages, op.target), op.action)
    ensures |decided.messages| == |db.messages| + 1 && decided.nextSeq == db.nextSeq + 2
    ensures forall k :: 0 <= k < |db.messages| ==> decided.messages[k] == Moved(db, op, db.messages[k])
    ensures decided.messages[|db.messages|] == RecoverRow(db, op.actor, op.id, op.body)
  {
    var accepted := ReviewAccepted(db, op.actor, op.id, op.target, op.action, op.body);
    ReviewAcceptedKeeps(db, op.actor, op.id, op.target, op.action, op.body);
    var i := IndexOf(db.messages, op.target);
    RevisedRow(accepted.messages, i, Decided(accepted.messages[i], op.action));
    assert op.id != op.target;
  }

  lemma ResolveRows(db: Database, op: Op)
    requires WellFormed(db) && Step(db, op).Success? && op.ResolveReview?
    ensures RowsFollow(db, op, Step(db, op).value)
  {
    hide WellFormed, LatestRun, HasUnfinishedRun, Moved;
    if Exists(db.messages, op.id) {
      ReplayedRows(db, op);
    } else {
      var accepted := ReviewAccepted(db, op.actor, op.id, op.target, op.action, op.body);
      var i := IndexOf(db.messages, op.target);
      var decided := if op.action == Retry then RetryTx(accepted, i) else TerminalizeTx(accepted, i, op.action);
      DecisionRows(db, op, decided);
      DecidedRows(db, op, decided, Step(db, op).value);
    }
  }

  lemma ReplayedRows(db: Database, op: Op)
    requires Step(db, op).Success? && op.ResolveReview? && Exists(db.messages, op.id)
    ensures RowsFollow(db, op, Step(db, op).value)
  {
  }

  /** After the decision is written, only the replacement may still be added. */
  lemma DecidedRows(db: Database, op: Op, decided: Database, next: Database)
    requires op.ResolveReview? && !Exists(db.messages, op.id)
    requires next.messages == decided.messages +
                              if op.action == Continue
                              then [Message(op.replacement, RecoveryPrompt, op.actor, op.body, Queued, db.nextSeq + 2, 0, NoCode)]
                              else []
    requires |decided.messages| == |db.messages| + 1
    requires forall k :: 0 <= k < |db.messages| ==> decided.messages[k] == Moved(db, op, db.messages[k])
    requires decided.messages[|db.messages|] == RecoverRow(db, op.actor, op.id, op.body)
    ensures RowsFollow(db, op, next)
  {
    hide Moved;
  }

  /** Every transaction moves the old rows one by one and appends the new ones. */
  lemma StepRows(db: Database, op: Op)
    requires WellFormed(db) && Step(db, op).Success?
    ensures RowsFollow(db, op, Step(db, op).value)
  {
    match op
    case Accept(_, _, _, _, _, _) => AcceptRows(db, op);
    case BeginDispatch(_) => DispatchRows(db, op);
    case FailDispatch(_, _, _) => DispatchRows(db, op);
    case BindRunningTurn(_, _) => DispatchRows(db, op);
    case FinishControl(_, _, _) => FinishRows(db, op);
    case FinishTurn(_, _, _) => FinishRows(db, op);
    case MarkNeedsReview(_, _) => FinishRows(db, op);
    case ResolveReview(_, _, _, _, _, _) => ResolveRows(db, op);
    case _ => OtherRows(db, op);
  }

  lemma AcceptRows(db: Database, op: Op)
    requires WellFormed(db) && Step(db, op).Success? && op.Accept?
    ensures RowsFollow(db, op, Step(db, op).value)
  {
  }

  lemma OtherRows(db: Database, op: Op)
    requires Step(db, op).Success?
    requires !(op.Accept? || op.BeginDispatch? || op.FailDispatch? || op.BindRunningTurn? || op.FinishControl?
               || op.FinishTurn? || op.MarkNeedsReview? || op.ResolveReview?)
    ensures RowsFollow(db, op, Step(db, op).value)
  {
  }

  // ---- The queue --------------------------------------------------------------

  lemma {:induction false} QueueConcat(a: seq<Message>, b: seq<Message>, except: set<MessageId>)
    ensures QueueBut(a + b, except) == QueueBut(a, except) + QueueBut(b, except)
    decreases |b|
  {
    if b == [] {
      assert a + b == a;
    } else {
      assert (a + b)[..|a + b| - 1] == a + b[..|b| - 1];
      QueueConcat(a, b[..|b| - 1], except);
    }
  }

  lemma {:induction false} QueueSame(a: seq<Message>, b: seq<Message>, x: set<MessageId>, y: set<MessageId>)
    requires |a| == |b|
    requires forall k :: 0 <= k < |a| ==> a[k].id == b[k].id && Awaits(a[k], x) == Awaits(b[k], y)
    ensures QueueBut(a, x) == QueueBut(b, y)
    decreases |a|
  {
    if a != [] {
      QueueSame(a[..|a| - 1], b[..|b| - 1], x, y);
    }
  }

  lemma {:induction false} QueueEmpty(a: seq<Message>, except: set<MessageId>)
    ensures QueueBut(a, except) == [] <==> forall k :: 0 <= k < |a| ==> !Awaits(a[k], except)
  {
    if a != [] {
      QueueEmpty(a[..|a| - 1], except);
      assert forall k :: 0 <= k < |a| - 1 ==> a[..|a| - 1][k] == a[k];
    }
  }

  /** The head of the queue is the first queued row that is not excepted. */
  lemma {:induction false} QueueHead(a: seq<Message>, except: set<MessageId>) returns (i: int)
    requires QueueBut(a, except) != []
    ensures 0 <= i < |a| && Awaits(a[i], except) && a[i].id == QueueBut(a, except)[0]
    ensures forall k :: 0 <= k < i ==> !Awaits(a[k], except)
    decreases |a|
  {
    var front := a[..|a| - 1];
    if QueueBut(front, except) != [] {
      i := QueueHead(front, except);
      assert forall k :: 0 <= k <= i ==> front[k] == a[k];
    } else {
      QueueEmpty(front, except);
      i := |a| - 1;
      assert forall k :: 0 <= k < i ==> front[k] == a[k];
    }
  }

  /** Taking the first queued row out of the queue drops exactly its head. */
  lemma QueuePop(a: seq<Message>, i: int, m: Message, except: set<MessageId>)
    requires 0 <= i < |a| && Awaits(a[i], except) && !QueuedPrompt(m)
    requires forall k :: 0 <= k < i ==> !Awaits(a[k], except)
    ensures QueueBut(a, except) == [a[i].id] + QueueBut(a[i := m], except)
  {
    var b := a[i := m];
    assert a == a[..i] + ([a[i]] + a[i + 1..]);
    assert b == a[..i] + ([m] + a[i + 1..]);
    QueueConcat(a[..i], [a[i]] + a[i + 1..], except);
    QueueConcat(a[..i], [m] + a[i + 1..], except);
    QueueConcat([a[i]], a[i + 1..], except);
    QueueConcat([m], a[i + 1..], except);
    QueueEmpty(a[..i], except);
    assert QueueBut([], except) == [];
    assert [a[i]][..0] == [] && [m][..0] == [];
  }

  lemma QueueAppend(ms: seq<Message>, r: Message, except: set<MessageId>)
    ensures QueueBut(ms + [r], except) == QueueBut(ms, except) + if Awaits(r, except) then [r.id] else []
  {
    assert (ms + [r])[..|ms + [r]| - 1] == ms;
  }

  // ---- Exclusive, ordered execution ----------------------------------------------

  /**
   At most one prompt is in the agent's hands, and it was accepted before every queued prompt
   that is not excepted.
   */
  ghost predicate Orderly(ms: seq<Message>, except: set<MessageId>)
  {
    forall i, j :: 0 <= i < |ms| && 0 <= j < |ms| && i != j && Active(ms[i]) ==>
                     !Active(ms[j]) && (Awaits(ms[j], except) ==> i < j)
  }

  /** A dispatch may start only from an idle room, with a prompt before every other queued one that is not excepted. */
  ghost predicate MayDispatch(db: Database, id: MessageId, except: set<MessageId>)
  {
    && Idle(db.messages)
    && forall k :: 0 <= k < |db.messages| && Awaits(db.messages[k], except) ==> IndexOf(db.messages, id) <= k
  }

  /** The head of the queue comes first, also among fewer prompts. */
  lemma HeadMayDispatch(db: Database, some: set<MessageId>, more: set<MessageId>)
    requires WellFormed(db) && Idle(db.messages) && some <= more && QueueBut(db.messages, some) != []
    ensures MayDispatch(db, QueueBut(db.messages, some)[0], more)
  {
    var h := QueueHead(db.messages, some);
    IndexUnique(db.messages, h);
    forall k | 0 <= k < |db.messages| && Awaits(db.messages[k], more)
      ensures h <= k
    {
      assert Awaits(db.messages[k], some);
    }
  }

  /** How a transaction may change whether a row is queued or in the agent's hands. */
  ghost predicate ClassKept(op: Op, m: Message, n: Message)
  {
    && SameIdentity(m, n)
    && (QueuedPrompt(n) && !QueuedPrompt(m) ==> Active(m) && m.state == NeedsReview && op.ResolveReview? && op.target == m.id)
    && (Active(n) && !Active(m) ==> op == BeginDispatch(m.id) && QueuedPrompt(m))
    && (QueuedPrompt(m) && !QueuedPrompt(n) ==> op == BeginDispatch(m.id))
  }

  lemma DispatchClass(db: Database, op: Op, k: int)
    requires WellFormed(db) && Step(db, op).Success? && 0 <= k < |db.messages|
    requires op.BeginDispatch? || op.FailDispatch? || op.BindRunningTurn?
    ensures ClassKept(op, db.messages[k], Moved(db, op, db.messages[k]))
  {
    IndexUnique(db.messages, k);
  }

  lemma FinishClass(db: Database, op: Op, k: int)
    requires WellFormed(db) && Step(db, op).Success? && 0 <= k < |db.messages|
    requires op.FinishControl? || op.FinishTurn? || op.MarkNeedsReview?
    ensures ClassKept(op, db.messages[k], Moved(db, op, db.messages[k]))
  {
    IndexUnique(db.messages, k);
    if op.FinishTurn? {
      IndexUnique(db.messages, BoundIndex(db.messages, op.turn));
    }
  }

  lemma ResolveClass(db: Database, op: Op, k: int)
    requires WellFormed(db) && Step(db, op).Success? && 0 <= k < |db.messages|
    requires op.ResolveReview?
    ensures ClassKept(op, db.messages[k], Moved(db, op, db.messages[k]))
  {
    IndexUnique(db.messages, k);
  }

  /** Apart from dispatch and retry, no transaction puts a prompt into the agent's hands or back in the queue. */
  lemma MovedClass(db: Database, op: Op, k: int)
    requires WellFormed(db) && Step(db, op).Success? && 0 <= k < |db.messages|
    ensures ClassKept(op, db.messages[k], Moved(db, op, db.messages[k]))
  {
    match op
    case BeginDispatch(_) => DispatchClass(db, op, k);
    case FailDispatch(_, _, _) => DispatchClass(db, op, k);
    case BindRunningTurn(_, _) => DispatchClass(db, op, k);
    case FinishControl(_, _, _) => FinishClass(db, op, k);
    case FinishTurn(_, _, _) => FinishClass(db, op, k);
    case MarkNeedsReview(_, _) => FinishClass(db, op, k);
    case ResolveReview(_, _, _, _, _, _) => ResolveClass(db, op, k);
    case _ =>
  }

  lemma InsertedClass(db: Database, op: Op, k: int)
    requires 0 <= k < |Inserted(db, op)|
    ensures !Active(Inserted(db, op)[k])
  {
  }

  lemma OrderlyPair(db: Database, op: Op, i: int, j: int, except: set<MessageId>)
    requires Distinct(db.messages) && Orderly(db.messages, except)
    requires op.BeginDispatch? ==> MayDispatch(db, op.id, except)
    requires 0 <= i < |db.messages| && 0 <= j < |db.messages| && i != j
    requires ClassKept(op, db.messages[i], Moved(db, op, db.messages[i]))
    requires ClassKept(op, db.messages[j], Moved(db, op, db.messages[j]))
    requires Active(Moved(db, op, db.messages[i]))
    ensures !Active(Moved(db, op, db.messages[j]))
    ensures Awaits(Moved(db, op, db.messages[j]), except) ==> i < j
  {
    var a, b := db.messages[i], db.messages[j];
    assert a.id != b.id by {
      assert i < j || j < i;
    }
    if !Active(a) {
      IndexUnique(db.messages, i);
    }
  }

  /** Every transaction the coordinator may issue keeps execution exclusive and in order. */
  lemma OrderlyStep(db: Database, op: Op, except: set<MessageId>)
    requires WellFormed(db) && Orderly(db.messages, except) && Step(db, op).Success?
    requires op.BeginDispatch? ==> MayDispatch(db, op.id, except)
    ensures Orderly(Step(db, op).value.messages, except)
  {
    StepRows(db, op);
    var now := Step(db, op).value.messages;
    forall k | 0 <= k < |db.messages|
      ensures ClassKept(op, db.messages[k], Moved(db, op, db.messages[k]))
    {
      MovedClass(db, op, k);
    }
    OrderlyFollow(db, op, Step(db, op).value, except);
  }

  lemma OrderlyFollow(db: Database, op: Op, next: Database, except: set<MessageId>)
    requires Distinct(db.messages) && Orderly(db.messages, except) && RowsFollow(db, op, next)
    requires op.BeginDispatch? ==> MayDispatch(db, op.id, except)
    requires forall k :: 0 <= k < |db.messages| ==> ClassKept(op, db.messages[k], Moved(db, op, db.messages[k]))
    ensures Orderly(next.messages, except)
  {
    var n := |db.messages|;
    forall i, j | 0 <= i < |next.messages| && 0 <= j < |next.messages| && i != j && Active(next.messages[i])
      ensures !Active(next.messages[j]) && (Awaits(next.messages[j], except) ==> i < j)
    {
      if i >= n {
        InsertedClass(db, op, i - n);
      }
      if j >= n {
        InsertedClass(db, op, j - n);
      }
      if i < n && j < n {
        OrderlyPair(db, op, i, j, except);
      }
    }
  }
}
