/**
 Any number of concurrent tool calls over one table of idempotency records.

 Every database statement is one atomic action, and so are the send of the tool
 call, its outcome and a crash. The tool server may act on a sent message late,
 more than once or never: also after the call raised, and after the caller died.
 */
module McpProtocol {
  import opened Results
  import opened CalendarIdentity
  import opened IdempotencyTable

  /** deduplicates: the calendar drops a second message with a transaction id it knows. */
  datatype Config = Config(text: Text, deduplicates: bool)

  datatype Phase =
    | Received
    | Blocked                    // refused by policy: 403
    | Lost                       // the insert hit an existing record
    | Replayed(result: string)   // answered from the record
    | Rejected                   // 409
    | Holding                    // free to call the tool
    | Calling                    // the tool call is under way
    | Returned(result: string)
    | Raised
    | Recorded(result: string)   // success is in the record
    | Released                   // the record is given back
    | Answered(result: string)
    | Failed                     // 400
    | Crashed(at: Phase)

  /** A call and the key computed for it on arrival. */
  datatype Call = Call(user: string, request: Request, key: Option<Key>, phase: Phase)

  /** A request as sent, with the calendar account its token opens. */
  datatype Message = Message(account: string, request: Request)

  datatype World = World(table: Table, calls: map<nat, Call>, outbox: seq<Message>, calendar: seq<Message>)

  const START := World(map[], map[], [], [])

  datatype Action =
    | Arrive(id: nat, user: string, request: Request)
    | Block(id: nat)
    | Claim(id: nat)
    | Inspect(id: nat)
    | Send(id: nat, credentials: Arguments, account: string)
    | Return(id: nat, result: string)
    | Raise(id: nat)
    | Record(id: nat)
    | Release(id: nat)
    | Respond(id: nat)
    | Crash(id: nat)
    | Deliver(n: nat)

  function TableKey(text: Text, user: string, request: Request): Option<Key> {
    match KeyOf(text, request)
    case None => None
    case Some(key) => Some(Key(user, request.server, request.tool, key))
  }

  function Arrival(text: Text, user: string, request: Request): Call {
    Call(user, request, TableKey(text, user, request), Received)
  }

  function Sent(call: Call, credentials: Arguments): Request {
    var key := if call.key.Some? then Some(call.key.value.idempotencyKey) else None;
    call.request.(arguments := Outgoing(call.request, credentials, key))
  }

  predicate Settled(phase: Phase) {
    phase.Blocked? || phase.Replayed? || phase.Rejected? || phase.Answered? || phase.Failed? || phase.Crashed?
  }

  function Moved(w: World, id: nat, phase: Phase): World
    requires id in w.calls
  {
    w.(calls := w.calls[id := w.calls[id].(phase := phase)])
  }

  predicate SameTransaction(a: Message, b: Message) {
    && a.account == b.account
    && TransactionId in a.request.arguments
    && TransactionId in b.request.arguments
    && a.request.arguments[TransactionId] == b.request.arguments[TransactionId]
  }

  predicate Known(calendar: seq<Message>, m: Message) {
    exists i :: 0 <= i < |calendar| && SameTransaction(calendar[i], m)
  }

  /** The calendar's side: a create request adds an event unless it is recognised. */
  function Receive(cfg: Config, calendar: seq<Message>, m: Message): seq<Message> {
    if IdentityOf(cfg.text, m.request).None? then calendar
    else if cfg.deduplicates && Known(calendar, m) then calendar
    else calendar + [m]
  }

  function TakeKey(w: World, id: nat): World
    requires id in w.calls && w.calls[id].phase.Received?
  {
    var key := w.calls[id].key;
    if key.None? then Moved(w, id, Holding)
    else if key.value in w.table then Moved(w, id, Lost)
    else Moved(w.(table := Insert(w.table, key.value)), id, Holding)
  }

  function ReadRecord(w: World, id: nat): World
    requires id in w.calls && w.calls[id].phase.Lost?
  {
    var key := w.calls[id].key;
    if key.None? then w
    else
      match Read(w.table, key.value)
      case Replay(result) => Moved(w, id, Replayed(result))
      case Busy => Moved(w, id, Rejected)
  }

  function SendCall(w: World, id: nat, credentials: Arguments, account: string): World
    requires id in w.calls && w.calls[id].phase.Holding?
  {
    Moved(w.(outbox := w.outbox + [Message(account, Sent(w.calls[id], credentials))]), id, Calling)
  }

  function RecordSuccess(w: World, id: nat): World
    requires id in w.calls && w.calls[id].phase.Returned?
  {
    var call := w.calls[id];
    var table := if call.key.None? then w.table else Complete(w.table, call.key.value, call.phase.result);
    Moved(w.(table := table), id, Recorded(call.phase.result))
  }

  function GiveBack(w: World, id: nat): World
    requires id in w.calls && w.calls[id].phase.Raised?
  {
    var call := w.calls[id];
    var table := if call.key.None? then w.table else Abandon(w.table, call.key.value);
    Moved(w.(table := table), id, Released)
  }

  /** One step of one call. A step that does not fit the phase changes nothing. */
  function Advance(w: World, a: Action): World
    requires !a.Arrive? && !a.Deliver? && a.id in w.calls
  {
    var phase := w.calls[a.id].phase;
    match a
    case Block(id) => if phase.Received? then Moved(w, id, Blocked) else w
    case Claim(id) => if phase.Received? then TakeKey(w, id) else w
    case Inspect(id) => if phase.Lost? then ReadRecord(w, id) else w
    case Send(id, credentials, account) => if phase.Holding? then SendCall(w, id, credentials, account) else w
    case Return(id, result) => if phase.Calling? then Moved(w, id, Returned(result)) else w
    case Raise(id) => if phase.Holding? || phase.Calling? then Moved(w, id, Raised) else w
    case Record(id) => if phase.Returned? then RecordSuccess(w, id) else w
    case Release(id) => if phase.Raised? then GiveBack(w, id) else w
    case Respond(id) =>
      if phase.Recorded? then Moved(w, id, Answered(phase.result))
      else if phase.Released? then Moved(w, id, Failed)
      else w
    case Crash(id) => if Settled(phase) then w else Moved(w, id, Crashed(phase))
  }

  function Next(cfg: Config, w: World, a: Action): World {
    if a.Arrive? then
      if a.id in w.calls then w
      else w.(calls := w.calls[a.id := Arrival(cfg.text, a.user, a.request)])
    else if a.Deliver? then
      if a.n < |w.outbox| then w.(calendar := Receive(cfg, w.calendar, w.outbox[a.n])) else w
    else if a.id in w.calls then Advance(w, a)
    else w
  }

  /** The world after a schedule of actions; every interleaving is such a schedule. */
  function Run(cfg: Config, w: World, schedule: seq<Action>): World
    decreases |schedule|
  {
    if schedule == [] then w
    else Next(cfg, Run(cfg, w, schedule[..|schedule| - 1]), schedule[|schedule| - 1])
  }

  /** The call took the record and has neither recorded success nor given it back. */
  predicate Owns(phase: Phase) {
    match phase
    case Holding | Calling | Returned(_) | Raised => true
    case Crashed(at) => Owns(at)
    case _ => false
  }

  /** The result this call wrote into the record, if it did. */
  function Wrote(phase: Phase): Option<string> {
    match phase
    case Recorded(result) => Some(result)
    case Answered(result) => Some(result)
    case Crashed(at) => Wrote(at)
    case _ => None
  }

  predicate OwnsKey(w: World, id: nat, key: Key) {
    id in w.calls && w.calls[id].key == Some(key) && Owns(w.calls[id].phase)
  }

  predicate WroteKey(w: World, id: nat, key: Key, result: string) {
    id in w.calls && w.calls[id].key == Some(key) && Wrote(w.calls[id].phase) == Some(result)
  }

  /** At most one call owns a key, and while one does its record is in progress. */
  ghost predicate Exclusive(w: World) {
    && (forall id, key :: OwnsKey(w, id, key) ==> key in w.table && w.table[key] == InProgress)
    && (forall i, j, key :: OwnsKey(w, i, key) && OwnsKey(w, j, key) ==> i == j)
  }

  /** At most one call ever wrote a key, and the record still holds what it wrote. */
  ghost predicate WrittenOnce(w: World) {
    && (forall id, key, result :: WroteKey(w, id, key, result) ==>
          key in w.table && w.table[key] == Succeeded(result))
    && (forall i, j, key, r, s :: WroteKey(w, i, key, r) && WroteKey(w, j, key, s) ==> i == j)
  }

  /** Every record has a call behind it: the owner, or the one that succeeded. */
  ghost predicate Accounted(w: World) {
    && (forall key :: key in w.table && w.table[key].InProgress? ==> exists id :: OwnsKey(w, id, key))
    && (forall key :: key in w.table && w.table[key].Succeeded? ==>
          exists id :: WroteKey(w, id, key, w.table[key].result))
  }

  /** A replayed answer is the text in the record. */
  ghost predicate ReplaysAreTrue(w: World) {
    forall id :: id in w.calls && w.calls[id].phase.Replayed? ==>
      var key := w.calls[id].key;
      key.Some? && key.value in w.table && w.table[key.value] == Succeeded(w.calls[id].phase.result)
  }

  /** A message that creates an event carries the transaction id of its own identity. */
  predicate Stamped(text: Text, m: Message) {
    IdentityOf(text, m.request).Some? ==>
      && TransactionId in m.request.arguments
      && m.request.arguments[TransactionId] == JString(KeyOf(text, m.request).value)
  }

  ghost predicate CalendarSound(cfg: Config, w: World) {
    && (forall id :: id in w.calls ==>
          w.calls[id].key == TableKey(cfg.text, w.calls[id].user, w.calls[id].request))
    && (forall i :: 0 <= i < |w.outbox| ==> Stamped(cfg.text, w.outbox[i]))
    && (forall i :: 0 <= i < |w.calendar| ==> IdentityOf(cfg.text, w.calendar[i].request).Some?)
    && (forall i :: 0 <= i < |w.calendar| ==> Stamped(cfg.text, w.calendar[i]))
    && (cfg.deduplicates ==>
          forall i, j :: 0 <= i < j < |w.calendar| ==> !SameTransaction(w.calendar[i], w.calendar[j]))
  }

  ghost predicate RecordsSound(w: World) {
    Exclusive(w) && WrittenOnce(w) && Accounted(w) && ReplaysAreTrue(w)
  }

  /** Only call id may have moved, and it is still the same request. */
  ghost predicate OthersStay(w: World, w': World, id: nat) {
    && id in w.calls
    && w'.calls.Keys == w.calls.Keys
    && (forall other :: other in w.calls && other != id ==> w'.calls[other] == w.calls[other])
    && w'.calls[id].(phase := Received) == w.calls[id].(phase := Received)
  }

  /** The four ways a step can touch the records. */
  datatype Effect = Quiet | Takes | Writes(result: string) | Frees

  ghost predicate HasEffect(w: World, w': World, id: nat, e: Effect)
    requires OthersStay(w, w', id)
  {
    var key, was, now := w.calls[id].key, w.calls[id].phase, w'.calls[id].phase;
    match e
    case Quiet => w'.table == w.table && (key.Some? ==> Owns(now) == Owns(was) && Wrote(now) == Wrote(was))
    case Takes => && key.Some? && key.value !in w.table && w'.table == Insert(w.table, key.value)
                  && Owns(now) && Wrote(now) == None
    case Writes(result) => && key.Some? && w'.table == Complete(w.table, key.value, result)
                           && Owns(was) && !Owns(now) && Wrote(now) == Some(result)
    case Frees => && key.Some? && w'.table == Abandon(w.table, key.value)
                  && Owns(was) && !Owns(now) && Wrote(now) == None
  }

  function EffectOf(w: World, a: Action): Effect
    requires !a.Arrive? && !a.Deliver? && a.id in w.calls
  {
    var key, phase := w.calls[a.id].key, w.calls[a.id].phase;
    if key.None? then Quiet
    else if a.Claim? && phase.Received? && key.value !in w.table then Takes
    else if a.Record? && phase.Returned? then Writes(phase.result)
    else if a.Release? && phase.Raised? then Frees
    else Quiet
  }

  lemma RecordStepHasEffect(w: World, a: Action)
    requires a.Claim? || a.Record? || a.Release?
    requires a.id in w.calls
    ensures OthersStay(w, Advance(w, a), a.id)
    ensures HasEffect(w, Advance(w, a), a.id, EffectOf(w, a))
  {
  }

  lemma OtherStepIsQuiet(w: World, a: Action)
    requires a.Block? || a.Inspect? || a.Send? || a.Return? || a.Raise?
    requires a.id in w.calls
    ensures OthersStay(w, Advance(w, a), a.id)
    ensures HasEffect(w, Advance(w, a), a.id, Quiet)
  {
  }

  lemma ClosingStepIsQuiet(w: World, a: Action)
    requires a.Respond? || a.Crash?
    requires a.id in w.calls
    ensures OthersStay(w, Advance(w, a), a.id)
    ensures HasEffect(w, Advance(w, a), a.id, Quiet)
  {
    var phase := w.calls[a.id].phase;
    assert a.Crash? ==> Settled(phase) || Advance(w, a) == Moved(w, a.id, Crashed(phase));
  }

  lemma AdvanceHasEffect(w: World, a: Action)
    requires !a.Arrive? && !a.Deliver? && a.id in w.calls
    ensures OthersStay(w, Advance(w, a), a.id)
    ensures HasEffect(w, Advance(w, a), a.id, EffectOf(w, a))
  {
    if a.Claim? || a.Record? || a.Release? {
      RecordStepHasEffect(w, a);
    } else if a.Respond? || a.Crash? {
      ClosingStepIsQuiet(w, a);
    } else {
      OtherStepIsQuiet(w, a);
    }
  }

  lemma EffectKeepsExclusive(w: World, w': World, id: nat, e: Effect)
    requires OthersStay(w, w', id) && HasEffect(w, w', id, e)
    requires RecordsSound(w)
    ensures Exclusive(w')
  {
    forall i, key | OwnsKey(w', i, key) ensures key in w'.table && w'.table[key] == InProgress {
      assert i != id ==> OwnsKey(w, i, key);
      assert e.Quiet? ==> OwnsKey(w, i, key);
      assert (e.Writes? || e.Frees?) ==> OwnsKey(w, id, w.calls[id].key.value);
    }
    forall i, j, key | OwnsKey(w', i, key) && OwnsKey(w', j, key) ensures i == j {
      assert i != id ==> OwnsKey(w, i, key);
      assert j != id ==> OwnsKey(w, j, key);
      assert e.Quiet? ==> OwnsKey(w, i, key) && OwnsKey(w, j, key);
    }
  }

  lemma EffectKeepsWrittenOnce(w: World, w': World, id: nat, e: Effect)
    requires OthersStay(w, w', id) && HasEffect(w, w', id, e)
    requires RecordsSound(w)
    ensures WrittenOnce(w')
  {
    if e.Writes? || e.Frees? {
      assert OwnsKey(w, id, w.calls[id].key.value);
    }
    forall i, key, r | WroteKey(w', i, key, r) ensures key in w'.table && w'.table[key] == Succeeded(r) {
      assert i != id || e.Quiet? ==> WroteKey(w, i, key, r);
    }
    forall i, j, key, r, s | WroteKey(w', i, key, r) && WroteKey(w', j, key, s) ensures i == j {
      assert i != id || e.Quiet? ==> WroteKey(w, i, key, r);
      assert j != id || e.Quiet? ==> WroteKey(w, j, key, s);
    }
  }

  lemma EffectKeepsAccounted(w: World, w': World, id: nat, e: Effect)
    requires OthersStay(w, w', id) && HasEffect(w, w', id, e)
    requires RecordsSound(w)
    ensures Accounted(w')
  {
    if e.Writes? || e.Frees? {
      assert OwnsKey(w, id, w.calls[id].key.value);
    }
    forall key | key in w'.table && w'.table[key].InProgress? ensures exists i :: OwnsKey(w', i, key) {
      if key in w.table && w.table[key].InProgress? {
        var i :| OwnsKey(w, i, key);
        assert OwnsKey(w', i, key);
      } else {
        assert OwnsKey(w', id, key);
      }
    }
    forall key | key in w'.table && w'.table[key].Succeeded?
      ensures exists i :: WroteKey(w', i, key, w'.table[key].result)
    {
      if key in w.table && w.table[key] == w'.table[key] {
        var i :| WroteKey(w, i, key, w.table[key].result);
        assert WroteKey(w', i, key, w'.table[key].result);
      } else {
        assert WroteKey(w', id, key, w'.table[key].result);
      }
    }
  }

  lemma AdvanceKeepsReplays(w: World, a: Action)
    requires !a.Arrive? && !a.Deliver? && a.id in w.calls
    requires RecordsSound(w)
    ensures ReplaysAreTrue(Advance(w, a))
  {
    var w' := Advance(w, a);
    forall id | id in w'.calls && w'.calls[id].phase.Replayed?
      ensures var key := w'.calls[id].key;
              key.Some? && key.value in w'.table && w'.table[key.value] == Succeeded(w'.calls[id].phase.result)
    {
      if id != a.id {
        assert w.calls[id] == w'.calls[id];
        assert !OwnsKey(w, a.id, w.calls[id].key.value);
      }
    }
  }

  lemma NextKeepsRecordsSound(cfg: Config, w: World, a: Action)
    requires RecordsSound(w)
    ensures RecordsSound(Next(cfg, w, a))
  {
    var w' := Next(cfg, w, a);
    if a.Arrive? || a.Deliver? {
      assert forall id, key :: OwnsKey(w', id, key) <==> OwnsKey(w, id, key);
      assert forall id, key, r :: WroteKey(w', id, key, r) <==> WroteKey(w, id, key, r);
      assert ReplaysAreTrue(w');
    } else if a.id in w.calls {
      AdvanceHasEffect(w, a);
      EffectKeepsExclusive(w, w', a.id, EffectOf(w, a));
      EffectKeepsWrittenOnce(w, w', a.id, EffectOf(w, a));
      EffectKeepsAccounted(w, w', a.id, EffectOf(w, a));
      AdvanceKeepsReplays(w, a);
    }
  }

  lemma SentIsStamped(text: Text, call: Call, credentials: Arguments, account: string)
    requires call.key == TableKey(text, call.user, call.request)
    ensures Stamped(text, Message(account, Sent(call, credentials)))
  {
    OutgoingKeepsIdentity(text, call.request, credentials);
  }

  lemma ReceiveKeepsCalendarSound(cfg: Config, w: World, m: Message)
    requires CalendarSound(cfg, w) && Stamped(cfg.text, m)
    ensures CalendarSound(cfg, w.(calendar := Receive(cfg, w.calendar, m)))
  {
    var after := Receive(cfg, w.calendar, m);
    forall i, j | cfg.deduplicates && 0 <= i < j < |after| ensures !SameTransaction(after[i], after[j]) {
      if after != w.calendar && j == |w.calendar| {
        assert after[i] == w.calendar[i];
      }
    }
  }

  lemma NextKeepsCalendarSound(cfg: Config, w: World, a: Action)
    requires CalendarSound(cfg, w)
    ensures CalendarSound(cfg, Next(cfg, w, a))
  {
    if a.Deliver? {
      if a.n < |w.outbox| {
        ReceiveKeepsCalendarSound(cfg, w, w.outbox[a.n]);
      }
    } else if !a.Arrive? && a.id in w.calls {
      AdvanceKeepsCalendarSound(cfg, w, a);
    }
  }

  lemma AdvanceSends(w: World, a: Action)
    requires !a.Arrive? && !a.Deliver? && a.id in w.calls
    ensures Advance(w, a).calendar == w.calendar
    ensures Advance(w, a).outbox ==
            if a.Send? && w.calls[a.id].phase.Holding?
            then w.outbox + [Message(a.account, Sent(w.calls[a.id], a.credentials))]
            else w.outbox
  {
  }

  lemma AdvanceKeepsCalendarSound(cfg: Config, w: World, a: Action)
    requires !a.Arrive? && !a.Deliver? && a.id in w.calls
    requires CalendarSound(cfg, w)
    ensures CalendarSound(cfg, Advance(w, a))
  {
    AdvanceHasEffect(w, a);
    AdvanceSends(w, a);
    if a.Send? {
      SentIsStamped(cfg.text, w.calls[a.id], a.credentials, a.account);
    }
    SameOutboxIsSound(cfg, w, Advance(w, a), a.id);
  }

  lemma SameOutboxIsSound(cfg: Config, w: World, w': World, id: nat)
    requires CalendarSound(cfg, w) && OthersStay(w, w', id)
    requires w'.calendar == w.calendar
    requires w'.outbox == w.outbox || exists m :: Stamped(cfg.text, m) && w'.outbox == w.outbox + [m]
    ensures CalendarSound(cfg, w')
  {
    forall other | other in w'.calls
      ensures w'.calls[other].key == TableKey(cfg.text, w'.calls[other].user, w'.calls[other].request)
    {
      assert w'.calls[other].(phase := Received) == w.calls[other].(phase := Received);
    }
  }

  /** What every schedule from the empty world keeps. */
  lemma {:induction false} EverySchedule(cfg: Config, schedule: seq<Action>)
    ensures RecordsSound(Run(cfg, START, schedule))
    ensures CalendarSound(cfg, Run(cfg, START, schedule))
    decreases |schedule|
  {
    if schedule != [] {
      var before := schedule[..|schedule| - 1];
      EverySchedule(cfg, before);
      NextKeepsRecordsSound(cfg, Run(cfg, START, before), schedule[|schedule| - 1]);
      NextKeepsCalendarSound(cfg, Run(cfg, START, before), schedule[|schedule| - 1]);
    }
  }
}
