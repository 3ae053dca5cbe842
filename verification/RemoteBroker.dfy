/**
 Remote workers on a lease and the jobs the host hands them.  Each block under the broker's
 lock is one method; `Run` is cut at its unlocked points; time only moves forward.
 */
module RemoteBroker {
  import opened Wrappers

  /** `terms` stands for the name, provider, mode and scope an invitation fixes. */
  datatype Worker = Worker(
    uid: nat, invitation: nat, terms: nat, lease: nat, healthy: bool, healthyUntil: nat, job: Option<nat>)

  datatype Outcome = Delivered | Cancelled | Disconnected | DeliveryUnknown

  /** How far Run has come with a job; Leaving is past its decision and before its deferred cleanup. */
  datatype Stage = Waiting | Cancelling | Leaving(outcome: Outcome) | Ended(outcome: Outcome)

  datatype Job = Job(
    worker: nat, claimed: bool, cancel: bool, received: bool, failed: bool,
    done: seq<bool>,          // the result channel, capacity one
    taken: bool,              // Run has read the result
    handed: nat,              // polls that carried the assignment
    accepted: nat,            // results acknowledged to the worker
    stage: Stage)

  datatype Refusal =
    | InvalidInvitation | Conflict | Unconfirmed | RoomFull
    | NotOwned | LeaseExpired | UnknownReceipt | AlreadyReceived | InvalidResult

  datatype PollReply = PollReply(state: PollState, assignment: Option<nat>, cancel: bool)

  datatype PollState = Idle | Checking | Working | Finishing

  const LEASE: nat := 90
  const HEALTH: nat := 1800
  const MAX_WORKERS: nat := 32

  /** An ended job is explained: its delivery is unknown, or a result came, or the assignment never left the host. */
  predicate Explained(j: Job, o: Outcome)
  {
    && (o == Delivered ==> j.received)
    && (o == Cancelled ==> j.received || j.handed == 0)
    && (o == Disconnected ==> j.handed == 0)
  }

  predicate JobOk(j: Job, w: Worker, id: nat, now: nat)
  {
    && (w.job == Some(id) <==> !j.stage.Ended?)
    && j.handed == (if j.claimed then 1 else 0)
    && j.accepted == (if j.received then 1 else 0)
    && |j.done| + (if j.taken then 1 else 0) == j.accepted
    && match j.stage
       case Waiting => !j.taken
       case Cancelling => !j.taken && j.cancel && j.claimed
       case Leaving(o) =>
         && Explained(j, o)
         && (o == Cancelled && !j.received ==> j.cancel)
         && (o == Disconnected ==> now > w.lease)
       case Ended(o) => Explained(j, o)
  }

  ghost predicate WorkersOk(workers: seq<Worker>, jobs: seq<Job>)
  {
    forall p :: 0 <= p < |workers| && workers[p].job.Some? ==>
                  workers[p].job.value < |jobs| && jobs[workers[p].job.value].worker == p
  }

  ghost predicate JobsOk(workers: seq<Worker>, jobs: seq<Job>, now: nat)
  {
    forall j :: 0 <= j < |jobs| ==> jobs[j].worker < |workers| && JobOk(jobs[j], workers[jobs[j].worker], j, now)
  }

  ghost predicate TableOk(table: map<nat, nat>, workers: seq<Worker>)
  {
    && (forall id :: id in table ==> table[id] < |workers|)
    && (forall p, q :: p in table && q in table && p != q ==> table[p] != table[q])
  }

  ghost predicate Sound(table: map<nat, nat>, workers: seq<Worker>, jobs: seq<Job>, now: nat)
  {
    now > 0 && TableOk(table, workers) && WorkersOk(workers, jobs) && JobsOk(workers, jobs, now)
  }

  lemma Later(table: map<nat, nat>, workers: seq<Worker>, jobs: seq<Job>, now: nat, later: nat)
    requires Sound(table, workers, jobs, now) && now <= later
    ensures Sound(table, workers, jobs, later)
  {
    forall j | 0 <= j < |jobs|
      ensures JobOk(jobs[j], workers[jobs[j].worker], j, later)
    {
      assert JobOk(jobs[j], workers[jobs[j].worker], j, now);
    }
  }

  /** A worker's own data changes; a job that waits for its lease to stay expired must not see it renewed. */
  lemma WorkerChanges(table: map<nat, nat>, workers: seq<Worker>, jobs: seq<Job>, now: nat, p: nat, w: Worker)
    requires Sound(table, workers, jobs, now) && p < |workers| && w.job == workers[p].job
    requires w.job.Some? && now > workers[p].lease ==> now > w.lease
    ensures Sound(table, workers[p := w], jobs, now)
  {
    forall j | 0 <= j < |jobs|
      ensures JobOk(jobs[j], workers[p := w][jobs[j].worker], j, now)
    {
      assert JobOk(jobs[j], workers[jobs[j].worker], j, now);
    }
  }

  lemma JobChanges(table: map<nat, nat>, workers: seq<Worker>, jobs: seq<Job>, now: nat, j: nat, job: Job)
    requires Sound(table, workers, jobs, now) && j < |jobs| && job.worker == jobs[j].worker
    requires JobOk(job, workers[job.worker], j, now)
    ensures Sound(table, workers, jobs[j := job], now)
  {
    var next := jobs[j := job];
    forall i | 0 <= i < |jobs|
      ensures next[i].worker < |workers| && JobOk(next[i], workers[next[i].worker], i, now)
    {
      assert i != j ==> JobOk(jobs[i], workers[jobs[i].worker], i, now);
    }
  }

  /** What a worker's current job looks like to the broker. */
  lemma CurrentJob(table: map<nat, nat>, workers: seq<Worker>, jobs: seq<Job>, now: nat, p: nat)
    requires Sound(table, workers, jobs, now) && p < |workers| && workers[p].job.Some?
    ensures var j := workers[p].job.value;
            j < |jobs| && jobs[j].worker == p && JobOk(jobs[j], workers[p], j, now) && !jobs[j].stage.Ended?
  {
    var j := workers[p].job.value;
    assert JobOk(jobs[j], workers[jobs[j].worker], j, now);
  }

  class Broker {
    var now: nat
    var table: map<nat, nat>      // member id to worker
    var workers: seq<Worker>      // every worker ever invited
    var jobs: seq<Job>            // every job ever installed

    ghost predicate Valid()
      reads this
    {
      Sound(table, workers, jobs, now)
    }

    constructor ()
      ensures Valid() && jobs == [] && workers == []
    {
      now, table, workers, jobs := 1, map[], [], [];
    }

    method Pass(d: nat)
      requires Valid()
      modifies this`now
      ensures Valid() && now == old(now) + d
    {
      Later(table, workers, jobs, now, now + d);
      now := now + d;
    }

    // ---- Requests of a worker's owner ------------------------------------------------------

    /** Expired workers without a job leave the table. */
    method Sweep()
      requires Valid()
      modifies this`table
      ensures Valid()
      ensures forall id :: id in table ==> id in old(table) && table[id] == old(table)[id]
      ensures forall id :: id in old(table) ==>
                             (id in table <==> now <= workers[old(table)[id]].lease || workers[old(table)[id]].job.Some?)
    {
      hide JobsOk, WorkersOk;
      var rest := table.Keys;
      while rest != {}
        invariant rest <= table.Keys <= old(table).Keys
        invariant forall id :: id in table ==> table[id] == old(table)[id]
        invariant forall id :: id in old(table) && id !in rest ==>
                    (id in table <==> now <= workers[old(table)[id]].lease || workers[old(table)[id]].job.Some?)
        decreases |rest|
      {
        var id :| id in rest;
        rest := rest - {id};
        var w := workers[table[id]];
        if now > w.lease && w.job.None? {
          table := table - {id};
        }
      }
    }

    /** invite: a new worker, or a renewal on the same terms; an expired worker with a job cannot come back. */
    method Invite(id: nat, uid: nat, invitation: nat, terms: nat, valid: bool) returns (e: Option<Refusal>)
      requires Valid()
      modifies this`table, this`workers
      ensures Valid()
      ensures e.None? ==> id in table && workers[table[id]].lease == now + LEASE && workers[table[id]].uid == uid
      ensures forall p :: 0 <= p < |old(workers)| && old(workers)[p].job.Some? && now > old(workers)[p].lease ==>
                            p < |workers| && workers[p] == old(workers)[p]
    {
      hide Sound;
      if !valid || uid == 0 {
        return Some(InvalidInvitation);
      }
      TableFacts();
      if id in table {
        var p := table[id];
        var w := workers[p];
        if w.uid != uid || w.invitation != invitation || w.terms != terms {
          return Some(Conflict);
        }
        if now > w.lease && w.job.Some? {
          return Some(Unconfirmed);
        }
        var renewed := w.(lease := now + LEASE, healthy := now <= w.lease && w.healthy);
        WorkerChanges(table, workers, jobs, now, p, renewed);
        workers := workers[p := renewed];
        return None;
      }
      Sweep();
      if |table| >= MAX_WORKERS {
        return Some(RoomFull);
      }
      var w := Worker(uid, invitation, terms, now + LEASE, false, 0, None);
      Invited(table, workers, jobs, now, id, w);
      workers := workers + [w];
      table := table[id := |workers| - 1];
      return None;
    }

    lemma TableFacts()
      requires Valid()
      ensures TableOk(table, workers)
    {
    }

    /** Every other request: its worker belongs to the sender, and leaving aside, its lease still runs and is renewed. */
    method Admit(id: nat, uid: nat) returns (r: Result<nat, Refusal>)
      requires Valid()
      modifies this`workers
      ensures Valid()
      ensures r.Success? <==> id in table && old(workers)[table[id]].uid == uid && now <= old(workers)[table[id]].lease
      ensures |workers| == |old(workers)|
      ensures r.Success? ==> r.value == table[id] < |workers| && workers == old(workers)[table[id] := old(workers)[table[id]].(lease := now + LEASE)]
      ensures r.Failure? ==> workers == old(workers)
    {
      hide Sound;
      TableFacts();
      if id !in table || workers[table[id]].uid != uid {
        return Failure(NotOwned);
      }
      var p := table[id];
      if now > workers[p].lease {
        return Failure(LeaseExpired);
      }
      var renewed := workers[p].(lease := now + LEASE);
      WorkerChanges(table, workers, jobs, now, p, renewed);
      workers := workers[p := renewed];
      return Success(p);
    }

    /** leave: the lease ends at once, and a job is told to stop. */
    method Leave(id: nat, uid: nat) returns (e: Option<Refusal>)
      requires Valid()
      modifies this`workers, this`jobs
      ensures Valid()
      ensures e.None? ==> id in table && now > workers[table[id]].lease && !workers[table[id]].healthy
      ensures forall j :: 0 <= j < |jobs| ==> j < |old(jobs)| && jobs[j].handed == old(jobs)[j].handed
    {
      hide Sound;
      TableFacts();
      if id !in table || workers[table[id]].uid != uid {
        return Some(NotOwned);
      }
      var p := table[id];
      var w := workers[p].(healthy := false, lease := 0);
      NowPositive();
      WorkerChanges(table, workers, jobs, now, p, w);
      workers := workers[p := w];
      if w.job.Some? {
        CurrentJob(table, workers, jobs, now, p);
        var j := w.job.value;
        JobChanges(table, workers, jobs, now, j, jobs[j].(cancel := true));
        jobs := jobs[j := jobs[j].(cancel := true)];
      }
      return None;
    }

    lemma NowPositive()
      requires Valid()
      ensures now > 0
    {
    }

    /** health: a worker with a job only reports that it is busy. */
    method Health(id: nat, uid: nat, healthy: bool) returns (e: Option<Refusal>)
      requires Valid()
      modifies this`workers
      ensures Valid()
      ensures e.None? ==> id in table && (workers[table[id]].job.None? ==> workers[table[id]].healthy == healthy)
    {
      hide Sound;
      var r := Admit(id, uid);
      if r.Failure? {
        return Some(r.error);
      }
      var p := r.value;
      if workers[p].job.None? {
        var w := workers[p].(healthy := healthy, healthyUntil := now + HEALTH);
        WorkerChanges(table, workers, jobs, now, p, w);
        workers := workers[p := w];
      }
      return None;
    }

    /** result: the first one for the worker's current job is received, and no other. */
    method Deliver(id: nat, uid: nat, job: nat, failed: bool, allowed: bool, valid: bool) returns (e: Option<Refusal>)
      requires Valid()
      modifies this`workers, this`jobs
      ensures Valid() && |jobs| == |old(jobs)|
      ensures e.None? ==> job < |jobs| && !old(jobs)[job].received && jobs[job].received && jobs[job].accepted == 1
      ensures e.Some? ==> jobs == old(jobs)
      ensures forall j :: 0 <= j < |jobs| && j != job ==> jobs[j] == old(jobs)[j]
      ensures forall j :: 0 <= j < |jobs| && old(jobs)[j].received ==> jobs[j] == old(jobs)[j]
    {
      hide Sound;
      var r := Admit(id, uid);
      if r.Failure? {
        return Some(r.error);
      }
      var p := r.value;
      if !allowed {
        return Some(InvalidResult);
      }
      if workers[p].job != Some(job) {
        return Some(UnknownReceipt);
      }
      CurrentJob(table, workers, jobs, now, p);
      var j := jobs[job];
      if j.received {
        return Some(AlreadyReceived);
      }
      if !valid {
        return Some(InvalidResult);
      }
      if j.done != [] {
        return Some(AlreadyReceived);
      }
      var next := j.(done := [failed], failed := failed, received := true, accepted := j.accepted + 1);
      JobChanges(table, workers, jobs, now, job, next);
      jobs := jobs[job := next];
      var w := workers[p].(healthy := !failed, healthyUntil := now + HEALTH);
      WorkerChanges(table, workers, jobs, now, p, w);
      workers := workers[p := w];
      return None;
    }

    /** poll: the assignment travels in at most one reply, and never after a cancellation. */
    method Poll(id: nat, uid: nat) returns (r: Result<PollReply, Refusal>)
      requires Valid()
      modifies this`workers, this`jobs
      ensures Valid() && |jobs| == |old(jobs)|
      ensures r.Success? && r.value.assignment.Some? ==>
                var j := r.value.assignment.value;
                j < |jobs| && old(jobs)[j].handed == 0 && jobs[j].handed == 1 && !jobs[j].cancel && !jobs[j].stage.Ended?
      ensures forall j :: 0 <= j < |jobs| && !(r.Success? && r.value.assignment == Some(j)) ==> jobs[j] == old(jobs)[j]
    {
      hide Sound;
      var a := Admit(id, uid);
      if a.Failure? {
        return Failure(a.error);
      }
      var p := a.value;
      var idle := if workers[p].healthy then Idle else Checking;
      if workers[p].job.None? {
        return Success(PollReply(idle, None, false));
      }
      CurrentJob(table, workers, jobs, now, p);
      var current := workers[p].job.value;
      var j := jobs[current];
      if j.received {
        return Success(PollReply(Finishing, None, false));
      }
      if j.claimed || j.cancel {
        return Success(PollReply(Working, None, j.cancel));
      }
      assert workers[p].lease == now + LEASE;
      LiveLease(p);
      var next := j.(claimed := true, handed := j.handed + 1);
      JobChanges(table, workers, jobs, now, current, next);
      jobs := jobs[current := next];
      return Success(PollReply(Working, Some(current), false));
    }

    /** While the lease runs, Run has not concluded that the worker is gone. */
    lemma LiveLease(p: nat)
      requires Valid() && p < |workers| && workers[p].job.Some? && now <= workers[p].lease
      ensures var j := workers[p].job.value; j < |jobs| && !(jobs[j].stage == Leaving(Disconnected))
    {
      CurrentJob(table, workers, jobs, now, p);
    }

    // ---- Run ---------------------------------------------------------------------------------

    /** Run's entry check, and the same check before it installs the job. */
    predicate Available(id: nat)
      reads this
      requires id in table ==> table[id] < |workers|
    {
      id in table && workers[table[id]].healthy && now <= workers[table[id]].healthyUntil && now <= workers[table[id]].lease
      && workers[table[id]].job.None?
    }

    /** The second critical section: the worker found at the first check is still there and free. */
    method Install(id: nat, p: nat) returns (job: Option<nat>)
      requires Valid()
      modifies this`workers, this`jobs
      ensures Valid()
      ensures job.None? ==> jobs == old(jobs) && workers == old(workers)
      ensures job.Some? ==> jobs == old(jobs) + [Job(p, false, false, false, false, [], false, 0, 0, Waiting)] && job.value == |old(jobs)|
    {
      TableFacts();
      if id !in table || table[id] != p || !Available(id) {
        return None;
      }
      var j := Job(p, false, false, false, false, [], false, 0, 0, Waiting);
      Installed(table, workers, jobs, now, p, j);
      job := Some(|jobs|);
      workers := workers[p := workers[p].(job := job)];
      jobs := jobs + [j];
    }

    /** Run sees the result. */
    method TakeResult(job: nat)
      requires Valid() && job < |jobs| && jobs[job].stage.Waiting? && jobs[job].done != []
      modifies this`jobs
      ensures Valid()
      ensures jobs == old(jobs)[job := old(jobs)[job].(done := [], taken := true, stage := Leaving(Delivered))]
    {
      hide Sound;
      Decide(job, Leaving(Delivered), true);
    }

    /** Run's context ends: the job is cancelled, and whether a poll has carried it is read in the same step. */
    method ContextDone(job: nat)
      requires Valid() && job < |jobs| && jobs[job].stage.Waiting?
      modifies this`jobs
      ensures Valid() && |jobs| == |old(jobs)|
      ensures jobs[job].cancel && jobs[job].stage == if old(jobs)[job].claimed then Cancelling else Leaving(Cancelled)
    {
      hide Sound;
      JobFacts(job);
      var j := jobs[job];
      var next := j.(cancel := true, stage := if j.claimed then Cancelling else Leaving(Cancelled));
      JobChanges(table, workers, jobs, now, job, next);
      jobs := jobs[job := next];
    }

    /** The claimed job's result arrives after all, or ten seconds are over first. */
    method CancelEnds(job: nat, late: bool)
      requires Valid() && job < |jobs| && jobs[job].stage.Cancelling?
      modifies this`jobs
      ensures Valid() && |jobs| == |old(jobs)|
      ensures jobs[job].stage == Leaving(if old(jobs)[job].done != [] && !late then Cancelled else DeliveryUnknown)
    {
      hide Sound;
      if jobs[job].done != [] && !late {
        Decide(job, Leaving(Cancelled), true);
      } else {
        Decide(job, Leaving(DeliveryUnknown), false);
      }
    }

    /** Run's ticker finds the lease expired, or goes on. */
    method Tick(job: nat)
      requires Valid() && job < |jobs| && jobs[job].stage.Waiting? && jobs[job].worker < |workers|
      modifies this`jobs
      ensures Valid() && |jobs| == |old(jobs)|
      ensures jobs[job].stage == if now <= workers[jobs[job].worker].lease then Waiting
                                 else Leaving(if old(jobs)[job].claimed then DeliveryUnknown else Disconnected)
    {
      hide Sound;
      JobFacts(job);
      if now > workers[jobs[job].worker].lease {
        Decide(job, Leaving(if jobs[job].claimed then DeliveryUnknown else Disconnected), false);
      }
    }

    /** The deferred cleanup. */
    method Return(job: nat) returns (o: Outcome)
      requires Valid() && job < |jobs| && jobs[job].stage.Leaving?
      modifies this`jobs, this`workers
      ensures Valid() && |jobs| == |old(jobs)| && jobs[job].stage == Ended(o) && Leaving(o) == old(jobs)[job].stage
      ensures Explained(jobs[job], o)
    {
      JobFacts(job);
      var j := jobs[job];
      o := j.stage.outcome;
      Released(table, workers, jobs, now, job);
      if workers[j.worker].job == Some(job) {
        workers := workers[j.worker := workers[j.worker].(job := None)];
      }
      jobs := jobs[job := j.(stage := Ended(o))];
    }

    lemma JobFacts(job: nat)
      requires Valid() && job < |jobs|
      ensures jobs[job].worker < |workers| && JobOk(jobs[job], workers[jobs[job].worker], job, now)
    {
    }

    method Decide(job: nat, stage: Stage, take: bool)
      requires Valid() && job < |jobs| && !jobs[job].stage.Ended? && !jobs[job].stage.Leaving? && stage.Leaving?
      requires take ==> jobs[job].done != []
      requires stage.outcome == Delivered ==> take
      requires stage.outcome == Cancelled ==> take
      requires stage.outcome == Disconnected ==>
                 !jobs[job].claimed && jobs[job].worker < |workers| && now > workers[jobs[job].worker].lease
      modifies this`jobs
      ensures Valid()
      ensures jobs == old(jobs)[job := if take then old(jobs)[job].(done := [], taken := true, stage := stage) else old(jobs)[job].(stage := stage)]
    {
      hide Sound;
      JobFacts(job);
      var j := jobs[job];
      var next := if take then j.(done := j.done[1..], taken := true, stage := stage) else j.(stage := stage);
      JobChanges(table, workers, jobs, now, job, next);
      jobs := jobs[job := next];
    }
  }

  lemma Invited(table: map<nat, nat>, workers: seq<Worker>, jobs: seq<Job>, now: nat, id: nat, w: Worker)
    requires Sound(table, workers, jobs, now) && id !in table && w.job.None?
    ensures Sound(table[id := |workers|], workers + [w], jobs, now)
  {
    forall j | 0 <= j < |jobs|
      ensures JobOk(jobs[j], (workers + [w])[jobs[j].worker], j, now)
    {
      assert JobOk(jobs[j], workers[jobs[j].worker], j, now);
    }
  }

  lemma Installed(table: map<nat, nat>, workers: seq<Worker>, jobs: seq<Job>, now: nat, p: nat, j: Job)
    requires Sound(table, workers, jobs, now) && p < |workers| && workers[p].job.None?
    requires j == Job(p, false, false, false, false, [], false, 0, 0, Waiting)
    ensures Sound(table, workers[p := workers[p].(job := Some(|jobs|))], jobs + [j], now)
  {
    var next := workers[p := workers[p].(job := Some(|jobs|))];
    forall i | 0 <= i < |jobs| + 1
      ensures (jobs + [j])[i].worker < |next| && JobOk((jobs + [j])[i], next[(jobs + [j])[i].worker], i, now)
    {
      if i < |jobs| {
        assert JobOk(jobs[i], workers[jobs[i].worker], i, now);
      }
    }
  }

  lemma Released(table: map<nat, nat>, workers: seq<Worker>, jobs: seq<Job>, now: nat, job: nat)
    requires Sound(table, workers, jobs, now) && job < |jobs| && jobs[job].stage.Leaving?
    ensures var j := jobs[job];
            && workers[j.worker].job == Some(job)
            && Sound(table, workers[j.worker := workers[j.worker].(job := None)], jobs[job := j.(stage := Ended(j.stage.outcome))], now)
  {
    var j := jobs[job];
    assert JobOk(j, workers[j.worker], job, now);
    var free := workers[j.worker := workers[j.worker].(job := None)];
    var rest := jobs[job := j.(stage := Ended(j.stage.outcome))];
    forall i | 0 <= i < |jobs|
      ensures JobOk(rest[i], free[rest[i].worker], i, now)
    {
      assert JobOk(jobs[i], workers[jobs[i].worker], i, now);
    }
    forall p | 0 <= p < |free| && free[p].job.Some?
      ensures free[p].job.value < |rest| && rest[free[p].job.value].worker == p
    {
      assert free[p] == workers[p];
    }
  }

  /**
   However leases, departures, invitations, polls, results and cancellations interleave: an
   ended job whose delivery is not reported as unknown was never handed out, or its result came.
   */
  lemma EndedIsExplained(broker: Broker, job: nat)
    requires broker.Valid() && job < |broker.jobs| && broker.jobs[job].stage.Ended?
    ensures var j := broker.jobs[job];
            && j.handed <= 1 && j.accepted <= 1
            && (j.stage.outcome != DeliveryUnknown ==> j.handed == 0 || j.accepted == 1)
            && (forall p :: 0 <= p < |broker.workers| ==> broker.workers[p].job != Some(job))
  {
    assert JobOk(broker.jobs[job], broker.workers[broker.jobs[job].worker], job, broker.now);
  }

  /** Owners, workers, Run and time in any order; a select with several open cases may take any of them. */
  method Interleave(steps: nat) returns (b: Broker)
    ensures fresh(b) && b.Valid()
    ensures forall j :: 0 <= j < |b.jobs| && b.jobs[j].stage.Ended? && b.jobs[j].stage.outcome != DeliveryUnknown ==>
                          b.jobs[j].handed == 0 || b.jobs[j].accepted == 1
  {
    hide Sound;
    b := new Broker();
    var n := 0;
    while n < steps
      invariant fresh(b) && b.Valid()
    {
      var choice: nat := *;
      var id: nat := *;
      var uid: nat := *;
      var x: nat := *;
      var y: nat := *;
      var flag: bool := *;
      var valid: bool := *;
      if choice == 0 {
        b.Pass(x);
      } else if choice == 1 {
        var _ := b.Invite(id, uid, x, y, valid);
      } else if choice == 2 {
        var _ := b.Leave(id, uid);
      } else if choice == 3 {
        var _ := b.Health(id, uid, flag);
      } else if choice == 4 {
        var _ := b.Deliver(id, uid, x, flag, y == 0, valid);
      } else if choice == 5 {
        var _ := b.Poll(id, uid);
      } else if choice == 6 {
        var _ := b.Install(id, x);
      } else if x < |b.jobs| {
        RunStep(b, x, flag, valid);
      }
      n := n + 1;
    }
    forall j | 0 <= j < |b.jobs| && b.jobs[j].stage.Ended? && b.jobs[j].stage.outcome != DeliveryUnknown
      ensures b.jobs[j].handed == 0 || b.jobs[j].accepted == 1
    {
      EndedIsExplained(b, j);
    }
  }

  method RunStep(b: Broker, job: nat, first: bool, second: bool)
    requires b.Valid() && job < |b.jobs|
    modifies b`jobs, b`workers
    ensures b.Valid()
  {
    hide Sound;
    match b.jobs[job].stage {
      case Waiting =>
        b.JobFacts(job);
        if first {
          b.ContextDone(job);
        } else if second && b.jobs[job].done != [] {
          b.TakeResult(job);
        } else {
          b.Tick(job);
        }
      case Cancelling =>
        b.CancelEnds(job, first);
      case Leaving(_) =>
        var _ := b.Return(job);
      case Ended(_) =>
    }
  }
}
