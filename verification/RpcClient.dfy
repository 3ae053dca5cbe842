/**
 The pending calls of the App Server client.  Callers, the reader and the failure path run
 concurrently; each block that holds the state lock is one method here, each channel send
 happens after its lock is released, and `Interleave` runs the methods in any order.
 */
module RpcClient {
  import opened Wrappers

  type CallId = nat

  datatype Error =
    | Eof | ResultDecode | InvalidWireMessage | InvalidWireId | LineTooLong | EmptyLine | TruncatedLine
    | UnknownResponseId | DuplicateServerRequest | RpcFailure
    | ContextDone | Closed | MessageTooLarge | ShortWrite | NoProgress | TransportFailure | ServerRequestBusy

  datatype Phase = PreWrite | InWrite | WriteDone | Rejected

  /** What travels through a call's channel: a response, or the error that ended the call. */
  datatype Reply = Answer(decodes: bool) | Refusal | Broken(error: Error)

  datatype Outcome = Returned(written: nat) | CallError(written: nat, error: Error)

  /** How far the calling goroutine has come. */
  datatype Stage =
    | Registered
    | Writing(total: nat, length: nat)
    | Wrote(written: nat, error: Option<Error>)
    | Recorded(written: nat, error: Option<Error>)
    | Waiting(written: nat)
    | Finished(outcome: Outcome)

  datatype Party = Reader | Writer | FailurePath | Caller

  datatype PendingCall = PendingCall(
    phase: Phase,
    bytesWritten: nat,
    quarantined: Option<Reply>,
    channel: seq<Reply>,          // capacity one
    owed: Option<Reply>,          // a send promised by whoever removed the call
    received: bool,
    remover: Option<Party>,       // who took the call out of the pending map
    acknowledged: nat,            // bytes of the request the writer took
    stage: Stage)

  const MAX_ID: nat := 0x7fff_ffff_ffff_ffff

  /** isPreWriteContextError, certainNotSentError and mutationError. */
  predicate CertainNotSent(e: Error)
  {
    !(e.RpcFailure? || e.Eof? || e.ResultDecode? || e.InvalidWireMessage? || e.InvalidWireId? || e.LineTooLong?
      || e.EmptyLine? || e.TruncatedLine? || e.UnknownResponseId? || e.DuplicateServerRequest?)
  }

  datatype Certainty = NotSent | Unknown

  function MutationCertainty(o: Outcome): Certainty
    requires o.CallError?
  {
    if o.written == 0 && CertainNotSent(o.error) then NotSent else Unknown
  }

  /** decodeCallResult. */
  function Decode(written: nat, r: Reply): Outcome
  {
    match r
    case Broken(e) => CallError(written, e)
    case Refusal => CallError(written, RpcFailure)
    case Answer(decodes) => if decodes then Returned(written) else CallError(written, ResultDecode)
  }

  /** Bytes the caller knows to have been taken by the writer. */
  function Known(s: Stage): nat
  {
    match s
    case Registered => 0
    case Writing(total, _) => total
    case Wrote(written, _) => written
    case Recorded(written, _) => written
    case Waiting(written) => written
    case Finished(o) => o.written
  }

  function Sends(c: PendingCall): nat
  {
    |c.channel| + (if c.owed.Some? then 1 else 0) + (if c.received then 1 else 0)
  }

  /** A response, as opposed to an error, is on its way to the caller. */
  predicate ResponseOnWay(c: PendingCall)
  {
    (c.owed.Some? && !c.owed.value.Broken?) || (exists k :: 0 <= k < |c.channel| && !c.channel[k].Broken?)
  }

  /** One party removes the call, exactly the removers other than the caller send, and the channel never fills twice. */
  predicate SentOnce(c: PendingCall, pending: bool)
  {
    && (pending <==> c.remover.None?)
    && Sends(c) == (if c.remover.Some? && c.remover != Some(Caller) then 1 else 0)
    && (c.received || c.remover == Some(Caller) <==> c.stage.Finished?)
    && (c.stage.Waiting? ==> !pending)
  }

  /** Phase, stage and byte count of a call move together. */
  predicate PhaseAgrees(c: PendingCall, pending: bool)
  {
    && c.acknowledged == Known(c.stage)
    && (c.stage.Registered? ==> c.phase == PreWrite || c.phase == Rejected)
    && (c.stage.Writing? ==> c.phase == InWrite && c.stage.total < c.stage.length)
    && (c.phase == PreWrite || c.phase == Rejected ==> c.acknowledged == 0)
    && (c.stage.Wrote? ==> c.phase != WriteDone)
    && (pending && c.stage.Recorded? ==> c.phase == WriteDone && c.bytesWritten == c.stage.written)
    && (pending ==> c.phase != Rejected)
    && (pending && c.phase == WriteDone ==> c.stage.Recorded?)
    && (c.quarantined.Some? && pending ==> c.phase == InWrite && !c.quarantined.value.Broken?)
    && (c.phase == WriteDone ==> c.bytesWritten == c.acknowledged && !c.stage.Registered? && !c.stage.Writing?)
  }

  /** A response reaches the caller only after its write returned with at least one byte. */
  predicate ResponseAfterWrite(c: PendingCall)
  {
    && (ResponseOnWay(c) ==> c.phase == WriteDone && c.acknowledged >= 1)
    && (c.stage.Finished? && (c.stage.outcome.Returned? || c.stage.outcome.error == RpcFailure || c.stage.outcome.error == ResultDecode) ==>
          c.phase == WriteDone && c.acknowledged >= 1)
  }

  /** Failures a transport or a context can cause; responses to a caller are not among them. */
  predicate TransportError(e: Error) { !e.RpcFailure? && !e.ResultDecode? }

  predicate Truthful(r: Reply) { r.Broken? ==> TransportError(r.error) }

  predicate CallSound(c: PendingCall, pending: bool)
  {
    && SentOnce(c, pending) && PhaseAgrees(c, pending) && ResponseAfterWrite(c)
    && (c.owed.Some? ==> Truthful(c.owed.value))
    && ((c.stage.Wrote? || c.stage.Recorded?) && c.stage.error.Some? ==> TransportError(c.stage.error.value))
    && (forall k :: 0 <= k < |c.channel| ==> Truthful(c.channel[k]))
  }

  /** A pending call may be removed by a party that owes it an error, or a response once its write took a byte. */
  lemma RemovedSound(c: PendingCall, phase: Phase, party: Party, r: Reply)
    requires CallSound(c, true) && Truthful(r) && party != Caller
    requires phase == c.phase || (c.phase == PreWrite && phase == Rejected)
    requires !r.Broken? ==> c.phase == WriteDone && c.acknowledged >= 1
    ensures CallSound(c.(phase := phase, remover := Some(party), owed := Some(r)), false)
  {
  }

  lemma GivenUpSound(c: PendingCall, e: Error)
    requires CallSound(c, true) && TransportError(e) && (c.stage.Registered? || c.stage.Recorded?)
    ensures CallSound(c.(stage := Finished(CallError(Known(c.stage), e)), remover := Some(Caller)), false)
  {
  }

  lemma ParkedSound(c: PendingCall)
    requires CallSound(c, false) && (c.stage.Registered? || c.stage.Recorded?)
    ensures CallSound(c.(stage := Waiting(Known(c.stage))), false)
  {
  }

  lemma RefusedSound(c: PendingCall, pending: bool, e: Error)
    requires CallSound(c, pending) && c.stage.Registered? && TransportError(e)
    ensures CallSound(c.(stage := Wrote(0, Some(e))), pending)
  {
  }

  lemma BegunSound(c: PendingCall, length: nat)
    requires CallSound(c, true) && c.stage.Registered? && length > 0
    ensures c.phase == PreWrite && CallSound(c.(phase := InWrite, stage := Writing(0, length)), true)
  {
  }

  lemma WritingSound(c: PendingCall, pending: bool, stage: Stage)
    requires CallSound(c, pending) && c.stage.Writing?
    requires (stage.Writing? && stage.length == c.stage.length && stage.total < stage.length) || stage.Wrote?
    requires stage.Wrote? && stage.error.Some? ==> TransportError(stage.error.value)
    ensures c.stage.total < c.stage.length && CallSound(c.(stage := stage, acknowledged := Known(stage)), pending)
  {
  }

  lemma RecordedSound(c: PendingCall)
    requires CallSound(c, false) && c.stage.Wrote?
    ensures CallSound(c.(stage := Recorded(c.stage.written, c.stage.error)), false)
  {
  }

  /** What recordWriteOutcome makes of a call it still finds pending. */
  function Noted(c: PendingCall): PendingCall
    requires c.stage.Wrote?
  {
    c.(stage := Recorded(c.stage.written, c.stage.error), phase := WriteDone, bytesWritten := c.stage.written, quarantined := None)
  }

  lemma NotedSound(c: PendingCall)
    requires CallSound(c, true) && c.stage.Wrote?
    ensures CallSound(Noted(c), true) && Noted(c).acknowledged == c.stage.written
    ensures c.quarantined.Some? ==> !c.quarantined.value.Broken?
  {
  }

  lemma SentSound(c: PendingCall, pending: bool)
    requires CallSound(c, pending) && c.owed.Some?
    ensures c.channel == [] && CallSound(c.(channel := [c.owed.value], owed := None), pending)
  {
    var d := c.(channel := [c.owed.value], owed := None);
    assert ResponseOnWay(d) ==> !d.channel[0].Broken?;
  }

  lemma QuarantinedSound(c: PendingCall, r: Reply)
    requires CallSound(c, true) && c.phase == InWrite && !r.Broken?
    ensures CallSound(c.(quarantined := Some(r)), true)
  {
  }

  lemma PendingFacts(c: PendingCall)
    requires CallSound(c, true)
    ensures c.phase != Rejected && (c.phase == WriteDone ==> c.bytesWritten == c.acknowledged)
  {
  }

  lemma ReceivedSound(c: PendingCall)
    requires CallSound(c, false) && c.channel != []
    requires c.stage.Waiting? || c.stage.Recorded?
    ensures var o := Decode(Known(c.stage), c.channel[0]);
            CallSound(c.(channel := c.channel[1..], received := true, stage := Finished(o)), false)
  {
    assert !c.channel[0].Broken? ==> ResponseOnWay(c);
  }

  class Client {
    var nextId: nat
    var pending: set<CallId>
    var calls: map<CallId, PendingCall>
    var terminal: Option<Error>
    var serverActive: set<nat>
    var serverSlots: nat

    ghost predicate Valid()
      reads this
    {
      && (forall id :: id in calls <==> 1 <= id <= nextId)
      && nextId <= MAX_ID
      && pending <= calls.Keys
      && (forall id :: id in calls ==> CallSound(calls[id], id in pending))
      && (terminal.Some? ==> pending == {} && TransportError(terminal.value))
      && |serverActive| == serverSlots <= 1
    }

    constructor ()
      ensures Valid() && calls == map[] && terminal.None?
    {
      nextId, pending, calls, terminal := 0, {}, map[], None;
      serverActive, serverSlots := {}, 0;
    }

    /** Only the call `id` changes, and the lock's other data stays. */
    twostate predicate OnlyCall(id: CallId)
      reads this
    {
      && nextId == old(nextId) && terminal == old(terminal)
      && serverActive == old(serverActive) && serverSlots == old(serverSlots)
      && calls.Keys == old(calls.Keys)
      && (forall i :: i in calls && i != id ==> calls[i] == old(calls[i]) && (i in pending <==> i in old(pending)))
    }

    // ---- The calling goroutine -----------------------------------------------------------

    /** registerPending. */
    method RegisterPending() returns (r: Result<CallId, Error>)
      requires Valid()
      modifies this`nextId, this`pending, this`calls
      ensures Valid()
      ensures r.Failure? <==> terminal.Some? || old(nextId) == MAX_ID
      ensures r.Failure? ==> calls == old(calls) && pending == old(pending) && nextId == old(nextId)
      ensures r.Success? ==> r.value !in old(calls) && pending == old(pending) + {r.value} && calls.Keys == old(calls.Keys) + {r.value}
      ensures r.Success? ==> forall i :: i in old(calls) ==> calls[i] == old(calls[i])
      ensures r.Success? ==> calls[r.value] == PendingCall(PreWrite, 0, None, [], None, false, None, 0, Registered)
    {
      if terminal.Some? {
        return Failure(terminal.value);
      }
      if nextId == MAX_ID {
        return Failure(InvalidWireId);
      }
      nextId := nextId + 1;
      calls := calls[nextId := PendingCall(PreWrite, 0, None, [], None, false, None, 0, Registered)];
      pending := pending + {nextId};
      return Success(nextId);
    }

    /** removePending, by the caller: it finishes with `e`, or must wait for the result another party owes it. */
    method RemovePending(id: CallId, e: Error) returns (removed: bool)
      requires Valid() && id in calls && TransportError(e)
      requires calls[id].stage.Registered? || calls[id].stage.Recorded?
      modifies this`pending, this`calls
      ensures Valid() && OnlyCall(id)
      ensures removed <==> id in old(pending)
      ensures id !in pending
      ensures removed ==> calls[id].stage == Finished(CallError(Known(old(calls[id].stage)), e)) && calls[id].remover == Some(Caller)
      ensures !removed ==> calls[id] == old(calls[id]).(stage := Waiting(Known(old(calls[id].stage))))
    {
      hide CallSound;
      var c := calls[id];
      removed := id in pending;
      if removed {
        GivenUpSound(c, e);
        pending := pending - {id};
        calls := calls[id := c.(stage := Finished(CallError(Known(c.stage), e)), remover := Some(Caller))];
      } else {
        ParkedSound(c);
        calls := calls[id := c.(stage := Waiting(Known(c.stage)))];
      }
    }

    /** writeJSONL gives up before its first write. */
    method WriteRefused(id: CallId, e: Error)
      requires Valid() && id in calls && calls[id].stage.Registered? && TransportError(e)
      modifies this`calls
      ensures Valid() && OnlyCall(id) && pending == old(pending)
      ensures calls[id] == old(calls[id]).(stage := Wrote(0, Some(e)))
    {
      hide CallSound;
      RefusedSound(calls[id], id in pending, e);
      calls := calls[id := calls[id].(stage := Wrote(0, Some(e)))];
    }

    /** beginPendingWrite: whoever takes the lock first decides whether a response is fatal or quarantined. */
    method BeginPendingWrite(id: CallId, length: nat) returns (e: Option<Error>)
      requires Valid() && id in calls && calls[id].stage.Registered? && length > 0
      modifies this`calls
      ensures Valid() && OnlyCall(id) && pending == old(pending)
      ensures e.None? <==> id in pending
      ensures e.None? ==> calls[id] == old(calls[id]).(phase := InWrite, stage := Writing(0, length))
      ensures e.Some? ==> calls[id] == old(calls[id]).(stage := Wrote(0, e))
      ensures e.Some? && calls[id].phase == Rejected ==> e == Some(UnknownResponseId)
    {
      hide CallSound;
      var c := calls[id];
      if id in pending {
        BegunSound(c, length);
      }
      if id !in pending {
        e := if c.phase == Rejected then Some(UnknownResponseId)
             else if terminal.Some? then terminal
             else Some(Closed);
      } else if c.phase != PreWrite {
        e := Some(InvalidWireMessage);
      } else {
        e := None;
      }
      if e.Some? {
        RefusedSound(c, id in pending, e.value);
      }
      calls := calls[id := if e.Some? then c.(stage := Wrote(0, e)) else c.(phase := InWrite, stage := Writing(0, length))];
    }

    /** One turn of writeJSONL's loop: a write that reported `n` and perhaps an error. */
    method WriteSome(id: CallId, n: int, failed: Option<Error>)
      requires Valid() && id in calls && calls[id].stage.Writing?
      requires failed.Some? ==> TransportError(failed.value)
      modifies this`calls
      ensures Valid() && OnlyCall(id) && pending == old(pending)
      ensures var was := old(calls[id]).stage; var taken := if n < 0 then 0 else if n > was.length - was.total then was.length - was.total else n;
              && calls[id].acknowledged == was.total + taken
              && (calls[id].stage.Wrote? && calls[id].stage.error.None? <==> failed.None? && n == was.length - was.total)
              && (calls[id].stage.Writing? <==> failed.None? && 0 < n < was.length - was.total)
    {
      hide CallSound;
      var c := calls[id];
      var total, length := c.stage.total, c.stage.length;
      var stage;
      if n < 0 {
        stage := Wrote(total, Some(ShortWrite));
      } else if n > length - total {
        stage := Wrote(length, Some(ShortWrite));
      } else {
        total := total + n;
        if failed.Some? {
          stage := Wrote(total, failed);
        } else if n == 0 {
          stage := Wrote(total, Some(NoProgress));
        } else if total < length {
          stage := Writing(total, length);
        } else {
          stage := Wrote(total, None);
        }
      }
      WritingSound(c, id in pending, stage);
      calls := calls[id := c.(stage := stage, acknowledged := Known(stage))];
    }

    /** Between two writes the context or the connection ended. */
    method WriteStopped(id: CallId, e: Error)
      requires Valid() && id in calls && calls[id].stage.Writing? && TransportError(e)
      modifies this`calls
      ensures Valid() && OnlyCall(id) && pending == old(pending)
      ensures calls[id] == old(calls[id]).(stage := Wrote(old(calls[id]).stage.total, Some(e)))
    {
      calls := calls[id := calls[id].(stage := Wrote(calls[id].stage.total, Some(e)))];
    }

    /** recordWriteOutcome: a quarantined response is released if a byte was taken, and fatal otherwise. */
    method RecordWriteOutcome(id: CallId) returns (fatal: bool)
      requires Valid() && id in calls && calls[id].stage.Wrote?
      modifies this`pending, this`calls
      ensures Valid() && OnlyCall(id)
      ensures calls[id].stage == Recorded(old(calls[id]).stage.written, old(calls[id]).stage.error)
      ensures fatal <==> id in old(pending) && old(calls[id]).quarantined.Some? && old(calls[id]).acknowledged == 0
      ensures id in old(pending) && old(calls[id]).quarantined.Some? ==>
                && id !in pending && calls[id].remover == Some(Writer)
                && calls[id].owed == if fatal then Some(Broken(UnknownResponseId)) else old(calls[id]).quarantined
      ensures !(id in old(pending) && old(calls[id]).quarantined.Some?) ==> pending == old(pending) && calls[id].owed == old(calls[id]).owed
    {
      hide CallSound;
      var c := calls[id];
      fatal := false;
      if id !in pending {
        RecordedSound(c);
        calls := calls[id := c.(stage := Recorded(c.stage.written, c.stage.error))];
        return;
      }
      NotedSound(c);
      var next := Noted(c);
      if c.quarantined.Some? {
        fatal := c.stage.written == 0;
        var reply := if fatal then Broken(UnknownResponseId) else c.quarantined.value;
        RemovedSound(next, WriteDone, Writer, reply);
        next := next.(remover := Some(Writer), owed := Some(reply));
        pending := pending - {id};
      }
      calls := calls[id := next];
    }

    /** The caller takes the reply out of its channel and decodes it. */
    method Receive(id: CallId) returns (o: Outcome)
      requires Valid() && id in calls && calls[id].channel != []
      requires calls[id].stage.Waiting? || (calls[id].stage.Recorded? && calls[id].stage.error.None?)
      modifies this`calls
      ensures Valid() && OnlyCall(id) && pending == old(pending)
      ensures o == Decode(old(calls[id]).acknowledged, old(calls[id]).channel[0]) && calls[id].stage == Finished(o)
    {
      var c := calls[id];
      ReceivedSound(c);
      o := Decode(Known(c.stage), c.channel[0]);
      calls := calls[id := c.(channel := c.channel[1..], received := true, stage := Finished(o))];
    }

    // ---- The reader and the failure path ----------------------------------------------------------

    /** deliverResponse. */
    method DeliverResponse(id: CallId, response: Reply) returns (e: Option<Error>)
      requires Valid() && !response.Broken?
      modifies this`pending, this`calls
      ensures Valid() && OnlyCall(id)
      ensures e.Some? ==> TransportError(e.value)
      ensures id !in old(pending) ==> e == Some(UnknownResponseId) && calls == old(calls) && pending == old(pending)
      ensures id in old(pending) ==>
                var c := old(calls[id]);
                match c.phase
                case PreWrite => e == Some(UnknownResponseId) && id !in pending && calls[id].owed == Some(Broken(UnknownResponseId))
                case InWrite =>
                  && (e.None? <==> c.quarantined.None?) && pending == old(pending)
                  && calls[id] == c.(quarantined := if e.None? then Some(response) else c.quarantined)
                case WriteDone =>
                  && id !in pending && (e.None? <==> c.acknowledged > 0)
                  && calls[id].owed == Some(if c.acknowledged > 0 then response else Broken(UnknownResponseId))
                case Rejected => true
    {
      hide CallSound;
      if id !in pending {
        return Some(UnknownResponseId);
      }
      var c := calls[id];
      PendingFacts(c);
      match c.phase {
        case PreWrite =>
          RemovedSound(c, Rejected, Reader, Broken(UnknownResponseId));
          calls := calls[id := c.(phase := Rejected, remover := Some(Reader), owed := Some(Broken(UnknownResponseId)))];
          pending := pending - {id};
          return Some(UnknownResponseId);
        case InWrite =>
          if c.quarantined.Some? {
            return Some(UnknownResponseId);
          }
          QuarantinedSound(c, response);
          calls := calls[id := c.(quarantined := Some(response))];
          return None;
        case WriteDone =>
          pending := pending - {id};
          if c.bytesWritten == 0 {
            RemovedSound(c, WriteDone, Reader, Broken(UnknownResponseId));
            calls := calls[id := c.(remover := Some(Reader), owed := Some(Broken(UnknownResponseId)))];
            return Some(UnknownResponseId);
          }
          RemovedSound(c, WriteDone, Reader, response);
          calls := calls[id := c.(remover := Some(Reader), owed := Some(response))];
          return None;
        case Rejected =>
          return Some(InvalidWireMessage);
      }
    }

    /** failAll: the first error ends every pending call. */
    method FailAll(e: Error)
      requires Valid() && TransportError(e)
      modifies this`pending, this`calls, this`terminal
      ensures Valid() && terminal.Some? && pending == {} && calls.Keys == old(calls.Keys)
      ensures old(terminal).Some? ==> terminal == old(terminal) && calls == old(calls)
      ensures old(terminal).None? ==> terminal == Some(e)
      ensures forall id :: id in calls ==>
                             calls[id] == if id in old(pending)
                                          then old(calls[id]).(owed := Some(Broken(e)), remover := Some(FailurePath))
                                          else old(calls[id])
    {
      if terminal.Some? {
        return;
      }
      hide CallSound;
      terminal := Some(e);
      forall id | id in pending
        ensures CallSound(calls[id].(owed := Some(Broken(e)), remover := Some(FailurePath)), false)
      {
        RemovedSound(calls[id], calls[id].phase, FailurePath, Broken(e));
      }
      calls := map id | id in calls :: if id in pending then calls[id].(owed := Some(Broken(e)), remover := Some(FailurePath)) else calls[id];
      pending := {};
    }

    /** The send promised by a remover; the channel has room. */
    method SendOwed(id: CallId)
      requires Valid() && id in calls && calls[id].owed.Some?
      modifies this`calls
      ensures Valid() && OnlyCall(id) && pending == old(pending)
      ensures old(calls[id]).channel == [] && calls[id] == old(calls[id]).(channel := [old(calls[id]).owed.value], owed := None)
    {
      hide CallSound;
      var c := calls[id];
      SentSound(c, id in pending);
      assert c.channel + [c.owed.value] == [c.owed.value];
      calls := calls[id := c.(channel := c.channel + [c.owed.value], owed := None)];
    }

    // ---- Requests from the server ------------------------------------------------------------------

    /** admitServerRequest: one request at a time. */
    method AdmitServerRequest(key: nat) returns (e: Option<Error>)
      requires Valid()
      modifies this`serverActive, this`serverSlots
      ensures Valid()
      ensures e.None? <==> terminal.None? && old(serverActive) == {}
      ensures serverActive == if e.None? then {key} else old(serverActive)
    {
      if terminal.Some? {
        return terminal;
      }
      if key in serverActive {
        return Some(DuplicateServerRequest);
      }
      serverActive := serverActive + {key};
      if serverSlots < 1 {
        serverSlots := serverSlots + 1;
        return None;
      }
      serverActive := serverActive - {key};
      return Some(ServerRequestBusy);
    }

    /** releaseServerRequest, by the handler of an admitted request. */
    method ReleaseServerRequest(key: nat)
      requires Valid() && key in serverActive
      modifies this`serverActive, this`serverSlots
      ensures Valid() && serverActive == {}
    {
      if serverSlots > 0 {
        serverSlots := serverSlots - 1;
      }
      serverActive := serverActive - {key};
    }
  }

  /** A caller that lost the race for its call has exactly one reply coming, in the channel or promised. */
  lemma LoserIsServed(c: PendingCall, pending: bool)
    requires CallSound(c, pending) && c.stage.Waiting?
    ensures !pending && |c.channel| + (if c.owed.Some? then 1 else 0) == 1
  {
  }

  /**
   What a finished call says about the wire: a result or a refusal means that the write had
   returned with a byte taken, and "not sent" means that no byte was.
   */
  lemma OutcomeTellsDelivery(c: PendingCall, pending: bool)
    requires CallSound(c, pending) && c.stage.Finished?
    ensures var o := c.stage.outcome;
            && !pending
            && o.written == c.acknowledged
            && (o.Returned? ==> c.acknowledged >= 1 && c.phase == WriteDone)
            && (o.CallError? && o.error == RpcFailure ==> c.acknowledged >= 1 && c.phase == WriteDone)
            && (o.CallError? && MutationCertainty(o) == NotSent ==> c.acknowledged == 0)
            && (o.CallError? && c.acknowledged > 0 ==> MutationCertainty(o) == Unknown)
  {
  }

  lemma RecordedError(c: PendingCall, pending: bool)
    requires CallSound(c, pending) && c.stage.Recorded? && c.stage.error.Some?
    ensures TransportError(c.stage.error.value)
  {
  }

  predicate AtMostOnePartyAndSend(c: PendingCall, pending: bool)
  {
    && (pending <==> c.remover.None?)
    && Sends(c) <= 1
    && (c.owed.Some? ==> c.channel == [])
    && (c.stage.Finished? ==> c.received != (c.remover == Some(Caller)))
  }

  lemma OneParty(c: PendingCall, pending: bool)
    requires CallSound(c, pending)
    ensures AtMostOnePartyAndSend(c, pending)
  {
  }

  /** One step of any caller.  A fatal write outcome leaves an error that the caller will report to failAll. */
  method CallerStep(client: Client, id: CallId) returns (failure: Option<Error>)
    requires client.Valid() && id in client.calls
    modifies client
    ensures client.Valid() && (failure.Some? ==> TransportError(failure.value))
  {
    hide CallSound;
    failure := None;
    var e: Error := *;
    if !TransportError(e) {
      return;
    }
    match client.calls[id].stage {
      case Registered =>
        var choice: nat := *;
        var length: nat := *;
        if choice == 0 {
          var _ := client.RemovePending(id, e);
        } else if choice == 1 {
          client.WriteRefused(id, e);
        } else if length > 0 {
          var _ := client.BeginPendingWrite(id, length);
        }
      case Writing(_, _) =>
        var stopped: bool := *;
        var failing: bool := *;
        var n: int := *;
        if stopped {
          client.WriteStopped(id, e);
        } else {
          client.WriteSome(id, n, if failing then Some(e) else None);
        }
      case Wrote(_, _) =>
        var fatal := client.RecordWriteOutcome(id);
        failure := if fatal then Some(UnknownResponseId) else None;
      case Recorded(_, error) =>
        var cancelled: bool := *;
        if error.Some? {
          RecordedError(client.calls[id], id in client.pending);
          var _ := client.RemovePending(id, error.value);
        } else if cancelled {
          var _ := client.RemovePending(id, ContextDone);
        } else if client.calls[id].channel != [] {
          var _ := client.Receive(id);
        }
      case Waiting(_) =>
        if client.calls[id].channel != [] {
          var _ := client.Receive(id);
        }
      case Finished(_) =>
    }
  }

  /**
   Callers, the reader, the failure path and pending sends in any order, for any number of steps.
   `failures` are the errors whose finders have released the lock and not yet called failAll.
   */
  method Interleave(steps: nat) returns (client: Client)
    ensures fresh(client) && client.Valid()
    ensures forall id :: id in client.calls ==> AtMostOnePartyAndSend(client.calls[id], id in client.pending)
  {
    hide CallSound;
    client := new Client();
    var failures: seq<Error> := [];
    var done := 0;
    while done < steps
      invariant fresh(client) && client.Valid()
      invariant forall i :: 0 <= i < |failures| ==> TransportError(failures[i])
    {
      var choice: nat := *;
      var id: CallId := *;
      var e: Error := *;
      var response: Reply := *;
      if choice == 0 {
        var _ := client.RegisterPending();
      } else if choice == 1 && id in client.calls {
        var failure := CallerStep(client, id);
        failures := if failure.Some? then failures + [failure.value] else failures;
      } else if choice == 2 && !response.Broken? {
        var failure := client.DeliverResponse(id, response);
        failures := if failure.Some? then failures + [failure.value] else failures;
      } else if choice == 3 && TransportError(e) {
        client.FailAll(e);
      } else if choice == 6 && 0 <= id < |failures| {
        client.FailAll(failures[id]);
        failures := failures[..id] + failures[id + 1..];
      } else if choice == 4 && id in client.calls && client.calls[id].owed.Some? {
        client.SendOwed(id);
      } else if choice == 5 && id !in client.serverActive {
        var _ := client.AdmitServerRequest(id);
      } else if id in client.serverActive {
        client.ReleaseServerRequest(id);
      }
      done := done + 1;
    }
    forall id | id in client.calls
      ensures AtMostOnePartyAndSend(client.calls[id], id in client.pending)
    {
      OneParty(client.calls[id], id in client.pending);
    }
  }
}
