/**
 The request handler itself: one call carried through from policy to answer, with no
 other call in between. It is one of the schedules of the protocol.
 */
module McpCall {
  import opened Results
  import opened CalendarIdentity
  import opened IdempotencyTable
  import opened McpProtocol
  import opened McpTheorems

  /** What the tool server does with the call. */
  datatype Outcome = Returns(result: string) | Raises

  datatype Response =
    | Forbidden
    | Conflict
    | BadRequest
    | Success(result: string, replayed: bool)

  datatype Handled = Handled(response: Response, sent: Option<Request>, table: Table)

  /** The answer, the request that went out, and the records afterwards. */
  function Handle(text: Text, table: Table, user: string, request: Request, allowed: bool,
                  credentials: Arguments, outcome: Outcome): Handled
  {
    var call := Arrival(text, user, request);
    var sent := Some(Sent(call, credentials));
    if !allowed then Handled(Forbidden, None, table)
    else if call.key.Some? && call.key.value in table then
      match Read(table, call.key.value)
      case Replay(result) => Handled(Success(result, true), None, table)
      case Busy => Handled(Conflict, None, table)
    else
      match outcome
      case Raises => Handled(BadRequest, sent, table)
      case Returns(result) =>
        var after := if call.key.Some? then table[call.key.value := Succeeded(result)] else table;
        Handled(Success(result, false), sent, after)
  }

  method HandleCall(text: Text, store: RecordStore, user: string, request: Request, allowed: bool,
                    credentials: Arguments, outcome: Outcome)
    returns (response: Response, sent: Option<Request>)
    modifies store
    ensures Handled(response, sent, store.rows) == Handle(text, old(store.rows), user, request, allowed, credentials, outcome)
  {
    if !allowed {
      return Forbidden, None;
    }
    var call := Arrival(text, user, request);
    if call.key.Some? {
      var inserted := store.TryInsert(call.key.value);
      if !inserted {
        var verdict := store.Lookup(call.key.value);
        match verdict {
          case Replay(result) => return Success(result, true), None;
          case Busy => return Conflict, None;
        }
      }
    }
    sent := Some(Sent(call, credentials));
    match outcome {
      case Raises =>
        if call.key.Some? {
          InsertThenAbandon(old(store.rows), call.key.value);
          store.Release(call.key.value);
        }
        response := BadRequest;
      case Returns(result) =>
        if call.key.Some? {
          store.MarkSucceeded(call.key.value, result);
        }
        response := Success(result, false);
    }
  }

  /** Asking again for an action that was carried out answers from the record and sends nothing. */
  lemma RepeatedCallReplays(text: Text, table: Table, user: string, request: Request,
                            supplied: Json, credentials: Arguments, again: Arguments, first: Outcome, second: Outcome)
    requires KeyOf(text, request).Some?
    requires Handle(text, table, user, request, true, credentials, first).response.Success?
    ensures var done := Handle(text, table, user, request, true, credentials, first);
            var repeat := request.(arguments := request.arguments[TransactionId := supplied]);
            Handle(text, done.table, user, repeat, true, again, second)
            == Handled(Success(done.response.result, true), None, done.table)
  {
    CallerTransactionIdIsIgnored(text, request, supplied);
  }

  /** A call that raised leaves the records as they were, so the action can be tried again. */
  lemma FailedCallCanBeRetried(text: Text, table: Table, user: string, request: Request,
                               credentials: Arguments, again: Arguments, result: string)
    requires Handle(text, table, user, request, true, credentials, Raises).response == BadRequest
    ensures var failed := Handle(text, table, user, request, true, credentials, Raises);
            && failed.table == table
            && Handle(text, failed.table, user, request, true, again, Returns(result)).response == Success(result, false)
  {
    assert KeyOf(text, request).Some? ==> Arrival(text, user, request).key.value !in table;
  }

  /** The phase in which the protocol leaves a call that got this response. */
  predicate Answers(phase: Phase, response: Response) {
    match response
    case Forbidden => phase == Blocked
    case Conflict => phase == Rejected
    case BadRequest => phase == Failed
    case Success(result, replayed) => phase == if replayed then Replayed(result) else Answered(result)
  }

  /** What the handler does to one call, as the actions of the protocol. */
  function Script(id: nat, allowed: bool, busy: bool, credentials: Arguments, account: string, outcome: Outcome): seq<Action> {
    if !allowed then [Block(id)]
    else if busy then [Claim(id), Inspect(id)]
    else if outcome.Raises? then [Claim(id), Send(id, credentials, account), Raise(id), Release(id), Respond(id)]
    else [Claim(id), Send(id, credentials, account), Return(id, outcome.result), Record(id), Respond(id)]
  }

  ghost predicate Carries(cfg: Config, w: World, id: nat, user: string, request: Request) {
    id in w.calls && w.calls[id] == Arrival(cfg.text, user, request)
  }

  lemma {:induction false} RunTwo(cfg: Config, w: World, a: Action, b: Action)
    ensures Run(cfg, w, [a, b]) == Next(cfg, Next(cfg, w, a), b)
  {
    RunStep(cfg, w, [], a);
    RunStep(cfg, w, [a], b);
    assert [] + [a] == [a] && [a] + [b] == [a, b];
  }

  lemma {:induction false} RunFive(cfg: Config, w: World, a: Action, b: Action, c: Action, d: Action, e: Action)
    ensures Run(cfg, w, [a, b, c, d, e]) == Next(cfg, Next(cfg, Next(cfg, Run(cfg, w, [a, b]), c), d), e)
  {
    RunStep(cfg, w, [a, b], c);
    RunStep(cfg, w, [a, b, c], d);
    RunStep(cfg, w, [a, b, c, d], e);
    assert [a, b] + [c] == [a, b, c] && [a, b, c] + [d] == [a, b, c, d] && [a, b, c, d] + [e] == [a, b, c, d, e];
  }

  /** Schedule and handler agree on the records, the answer and what was sent. */
  ghost predicate Agrees(cfg: Config, w: World, w': World, id: nat, account: string, h: Handled) {
    && w'.table == h.table
    && id in w'.calls && Answers(w'.calls[id].phase, h.response)
    && w'.outbox == w.outbox + (if h.sent.Some? then [Message(account, h.sent.value)] else [])
  }

  lemma FreeCallSends(cfg: Config, w: World, id: nat, credentials: Arguments, account: string)
    requires id in w.calls && w.calls[id].phase == Received
    requires w.calls[id].key.Some? ==> w.calls[id].key.value !in w.table
    ensures var w' := Run(cfg, w, [Claim(id), Send(id, credentials, account)]);
            && w'.calls == w.calls[id := w.calls[id].(phase := Calling)]
            && w'.table == (if w.calls[id].key.Some? then w.table[w.calls[id].key.value := InProgress] else w.table)
            && w'.outbox == w.outbox + [Message(account, Sent(w.calls[id], credentials))]
  {
    RunTwo(cfg, w, Claim(id), Send(id, credentials, account));
  }

  lemma RaisedCallSettles(cfg: Config, w: World, id: nat, a: Action, b: Action)
    requires var sent := Run(cfg, w, [a, b]); id in sent.calls && sent.calls[id].phase.Calling?
    ensures var sent, w' := Run(cfg, w, [a, b]), Run(cfg, w, [a, b, Raise(id), Release(id), Respond(id)]);
            && id in w'.calls && w'.calls[id].phase == Failed
            && w'.outbox == sent.outbox
            && w'.table == if sent.calls[id].key.Some? then Abandon(sent.table, sent.calls[id].key.value) else sent.table
  {
    RunFive(cfg, w, a, b, Raise(id), Release(id), Respond(id));
  }

  lemma ReturnedCallSettles(cfg: Config, w: World, id: nat, a: Action, b: Action, result: string)
    requires var sent := Run(cfg, w, [a, b]); id in sent.calls && sent.calls[id].phase.Calling?
    ensures var sent, w' := Run(cfg, w, [a, b]), Run(cfg, w, [a, b, Return(id, result), Record(id), Respond(id)]);
            && id in w'.calls && w'.calls[id].phase == Answered(result)
            && w'.outbox == sent.outbox
            && w'.table == if sent.calls[id].key.Some? then Complete(sent.table, sent.calls[id].key.value, result) else sent.table
  {
    RunFive(cfg, w, a, b, Return(id, result), Record(id), Respond(id));
    var sent := Run(cfg, w, [a, b]);
    var after := Next(cfg, sent, Return(id, result));
    assert after.calls[id] == sent.calls[id].(phase := Returned(result));
    assert Next(cfg, after, Record(id)).calls[id].phase == Recorded(result);
  }

  lemma FreeCallAgrees(cfg: Config, w: World, id: nat, user: string, request: Request,
                       credentials: Arguments, account: string, outcome: Outcome)
    requires Carries(cfg, w, id, user, request)
    requires w.calls[id].key.Some? ==> w.calls[id].key.value !in w.table
    ensures Agrees(cfg, w, Run(cfg, w, Script(id, true, false, credentials, account, outcome)), id, account,
                   Handle(cfg.text, w.table, user, request, true, credentials, outcome))
  {
    var claim, send := Claim(id), Send(id, credentials, account);
    var h := Handle(cfg.text, w.table, user, request, true, credentials, outcome);
    var script := Script(id, true, false, credentials, account, outcome);
    FreeCallSends(cfg, w, id, credentials, account);
    assert h.sent == Some(Sent(w.calls[id], credentials));
    if outcome.Raises? {
      assert script == [claim, send, Raise(id), Release(id), Respond(id)];
      assert h.table == w.table && h.response == BadRequest;
      RaisedCallSettles(cfg, w, id, claim, send);
      if w.calls[id].key.Some? {
        InsertThenAbandon(w.table, w.calls[id].key.value);
      }
    } else {
      assert script == [claim, send, Return(id, outcome.result), Record(id), Respond(id)];
      assert h.response == Success(outcome.result, false);
      ReturnedCallSettles(cfg, w, id, claim, send, outcome.result);
    }
  }

  /** The handler is the protocol with one call scheduled alone. */
  lemma HandlerIsASchedule(cfg: Config, w: World, id: nat, user: string, request: Request, allowed: bool,
                           credentials: Arguments, account: string, outcome: Outcome)
    requires Carries(cfg, w, id, user, request)
    ensures var busy := w.calls[id].key.Some? && w.calls[id].key.value in w.table;
            Agrees(cfg, w, Run(cfg, w, Script(id, allowed, busy, credentials, account, outcome)), id, account,
                   Handle(cfg.text, w.table, user, request, allowed, credentials, outcome))
  {
    if !allowed {
      RunStep(cfg, w, [], Block(id));
      assert [] + [Block(id)] == [Block(id)];
    } else if w.calls[id].key.Some? && w.calls[id].key.value in w.table {
      RunTwo(cfg, w, Claim(id), Inspect(id));
    } else {
      FreeCallAgrees(cfg, w, id, user, request, credentials, account, outcome);
    }
  }
}
