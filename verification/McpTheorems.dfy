/** What the protocol promises, over every schedule and every crash point. */
module McpTheorems {
  import opened Results
  import opened CalendarIdentity
  import opened IdempotencyTable
  import opened McpProtocol

  lemma RunStep(cfg: Config, w: World, schedule: seq<Action>, a: Action)
    ensures Run(cfg, w, schedule + [a]) == Next(cfg, Run(cfg, w, schedule), a)
  {
    assert (schedule + [a])[..|schedule + [a]| - 1] == schedule;
  }

  /** Events and sent messages are only ever added. */
  lemma {:induction false} EventsStay(cfg: Config, w: World, later: seq<Action>)
    ensures w.calendar <= Run(cfg, w, later).calendar && w.outbox <= Run(cfg, w, later).outbox
    decreases |later|
  {
    if later != [] {
      var k := |later| - 1;
      EventsStay(cfg, w, later[..k]);
      EventsStayNow(cfg, Run(cfg, w, later[..k]), later[k]);
    }
  }

  lemma EventsStayNow(cfg: Config, w: World, a: Action)
    ensures w.calendar <= Next(cfg, w, a).calendar && w.outbox <= Next(cfg, w, a).outbox
  {
  }

  lemma {:induction false} RunKeepsRecordsSound(cfg: Config, w: World, schedule: seq<Action>)
    requires RecordsSound(w)
    ensures RecordsSound(Run(cfg, w, schedule))
    decreases |schedule|
  {
    if schedule != [] {
      var before := schedule[..|schedule| - 1];
      RunKeepsRecordsSound(cfg, w, before);
      NextKeepsRecordsSound(cfg, Run(cfg, w, before), schedule[|schedule| - 1]);
    }
  }

  /** No step takes a stored success away or changes its text. */
  lemma StepKeepsSuccess(cfg: Config, w: World, a: Action, key: Key)
    requires RecordsSound(w)
    requires key in w.table && w.table[key].Succeeded?
    ensures key in Next(cfg, w, a).table && Next(cfg, w, a).table[key] == w.table[key]
  {
    if !a.Arrive? && !a.Deliver? && a.id in w.calls {
      AdvanceHasEffect(w, a);
      assert !OwnsKey(w, a.id, key);
    }
  }

  lemma {:induction false} SuccessIsPermanent(cfg: Config, w: World, later: seq<Action>, key: Key)
    requires RecordsSound(w)
    requires key in w.table && w.table[key].Succeeded?
    ensures var w' := Run(cfg, w, later); key in w'.table && w'.table[key] == w.table[key]
    decreases |later|
  {
    if later != [] {
      var before := later[..|later| - 1];
      SuccessIsPermanent(cfg, w, before, key);
      RunKeepsRecordsSound(cfg, w, before);
      StepKeepsSuccess(cfg, Run(cfg, w, before), later[|later| - 1], key);
    }
  }

  /**
   The unguarded UPDATE always finds its own in-progress record and so loses nothing;
   the guarded DELETE always removes exactly the record its call inserted.
   */
  lemma SettlingTouchesItsOwnRecord(cfg: Config, schedule: seq<Action>, id: nat)
    requires id in Run(cfg, START, schedule).calls
    ensures var w := Run(cfg, START, schedule);
            var call := w.calls[id];
            call.key.Some? && (call.phase.Returned? || call.phase.Raised?) ==>
              && call.key.value in w.table && w.table[call.key.value] == InProgress
              && (call.phase.Returned? ==>
                    RecordSuccess(w, id).table == w.table[call.key.value := Succeeded(call.phase.result)])
              && (call.phase.Raised? ==> GiveBack(w, id).table == w.table - {call.key.value})
  {
    EverySchedule(cfg, schedule);
    var w := Run(cfg, START, schedule);
    if w.calls[id].key.Some? && Owns(w.calls[id].phase) {
      assert OwnsKey(w, id, w.calls[id].key.value);
    }
  }

  /** Whoever gets a replay gets the text that exactly one call, and no other, stored. */
  lemma ReplayCarriesTheOneResult(cfg: Config, schedule: seq<Action>, reader: nat)
    returns (writer: nat)
    requires var w := Run(cfg, START, schedule); reader in w.calls && w.calls[reader].phase.Replayed?
    ensures var w := Run(cfg, START, schedule);
            var key := w.calls[reader].key;
            && key.Some?
            && WroteKey(w, writer, key.value, w.calls[reader].phase.result)
            && (forall other, r :: WroteKey(w, other, key.value, r) ==>
                  other == writer && r == w.calls[reader].phase.result)
  {
    EverySchedule(cfg, schedule);
    var w := Run(cfg, START, schedule);
    var key := w.calls[reader].key.value;
    writer :| WroteKey(w, writer, key, w.table[key].result);
  }

  /** A dead call that still owns its key stays its owner. */
  lemma StepKeepsDeadOwner(cfg: Config, w: World, a: Action, id: nat, key: Key)
    requires RecordsSound(w)
    requires OwnsKey(w, id, key) && w.calls[id].phase.Crashed?
    ensures OwnsKey(Next(cfg, w, a), id, key) && Next(cfg, w, a).calls[id].phase.Crashed?
  {
    if !a.Arrive? && !a.Deliver? && a.id in w.calls {
      AdvanceHasEffect(w, a);
    }
  }

  /**
   A call that dies between taking its key and settling it blocks that key for good:
   in every continuation the record stays in progress, nobody else executes under the
   key, and nothing is ever stored for it.
   */
  lemma {:induction false} DeadOwnerBlocksItsKey(cfg: Config, w: World, later: seq<Action>, id: nat, key: Key)
    requires RecordsSound(w)
    requires OwnsKey(w, id, key) && w.calls[id].phase.Crashed?
    ensures var w' := Run(cfg, w, later);
            && OwnsKey(w', id, key)
            && w'.calls[id].phase.Crashed?
            && key in w'.table && w'.table[key] == InProgress
            && (forall other :: OwnsKey(w', other, key) ==> other == id)
            && (forall other, r :: !WroteKey(w', other, key, r))
    decreases |later|
  {
    RunKeepsRecordsSound(cfg, w, later);
    if later != [] {
      var before := later[..|later| - 1];
      DeadOwnerBlocksItsKey(cfg, w, before, id, key);
      RunKeepsRecordsSound(cfg, w, before);
      StepKeepsDeadOwner(cfg, Run(cfg, w, before), later[|later| - 1], id, key);
    }
  }

  /** No account holds two events for the same action. */
  ghost predicate OneEventPerAction(cfg: Config, w: World) {
    forall i, j :: 0 <= i < j < |w.calendar| && w.calendar[i].account == w.calendar[j].account ==>
      IdentityOf(cfg.text, w.calendar[i].request) != IdentityOf(cfg.text, w.calendar[j].request)
  }

  /** Equal actions on one account always carry equal transaction ids. */
  lemma SoundCalendarHasNoDuplicates(cfg: Config, w: World)
    requires cfg.deduplicates && CalendarSound(cfg, w)
    ensures OneEventPerAction(cfg, w)
  {
    forall i, j | 0 <= i < j < |w.calendar| && w.calendar[i].account == w.calendar[j].account
      ensures IdentityOf(cfg.text, w.calendar[i].request) != IdentityOf(cfg.text, w.calendar[j].request)
    {
      assert Stamped(cfg.text, w.calendar[i]) && Stamped(cfg.text, w.calendar[j]);
      assert !SameTransaction(w.calendar[i], w.calendar[j]);
    }
  }

  const SOME_WRITE := Request("teams_mcp", "create_calendar_event", map[])

  /** A new call for a free key can take it and have its message acted on. */
  lemma AttemptTakesEffect(cfg: Config, schedule: seq<Action>, id: nat) returns (longer: seq<Action>)
    requires !cfg.deduplicates
    requires var w := Run(cfg, START, schedule);
             && id !in w.calls
             && Arrival(cfg.text, "user", SOME_WRITE).key.value !in w.table
    ensures var w, w' := Run(cfg, START, schedule), Run(cfg, START, longer);
            var call := Arrival(cfg.text, "user", SOME_WRITE);
            && w'.calls == w.calls[id := call.(phase := Calling)]
            && w'.table == w.table[call.key.value := InProgress]
            && w'.calendar == w.calendar + [Message("account", Sent(call, map[]))]
  {
    var call := Arrival(cfg.text, "user", SOME_WRITE);
    var w := Run(cfg, START, schedule);
    OutgoingKeepsIdentity(cfg.text, SOME_WRITE, map[]);
    RunStep(cfg, START, schedule, Arrive(id, "user", SOME_WRITE));
    longer := schedule + [Arrive(id, "user", SOME_WRITE)];
    RunStep(cfg, START, longer, Claim(id));
    longer := longer + [Claim(id)];
    assert Run(cfg, START, longer).calls == w.calls[id := call.(phase := Holding)];
    RunStep(cfg, START, longer, Send(id, map[], "account"));
    longer := longer + [Send(id, map[], "account")];
    assert Run(cfg, START, longer).calls == w.calls[id := call.(phase := Calling)];
    RunStep(cfg, START, longer, Deliver(|w.outbox|));
    longer := longer + [Deliver(|w.outbox|)];
  }

  /** A call under way can raise after all and give its key back. */
  lemma AttemptFails(cfg: Config, schedule: seq<Action>, id: nat) returns (longer: seq<Action>)
    requires var w := Run(cfg, START, schedule);
             && id in w.calls && w.calls[id].phase.Calling?
             && w.calls[id].key.Some? && w.calls[id].key.value in w.table
             && w.table[w.calls[id].key.value].InProgress?
    ensures var w, w' := Run(cfg, START, schedule), Run(cfg, START, longer);
            && w'.calls == w.calls[id := w.calls[id].(phase := Released)]
            && w'.table == w.table - {w.calls[id].key.value}
            && w'.calendar == w.calendar
  {
    var w := Run(cfg, START, schedule);
    RunStep(cfg, START, schedule, Raise(id));
    longer := schedule + [Raise(id)];
    assert Run(cfg, START, longer).calls == w.calls[id := w.calls[id].(phase := Raised)];
    RunStep(cfg, START, longer, Release(id));
    longer := longer + [Release(id)];
  }

  /** The first attempt took effect and then raised; the retry takes effect again. */
  lemma RetryDuplicatesWithoutDeduplication(cfg: Config) returns (schedule: seq<Action>)
    requires !cfg.deduplicates
    ensures !OneEventPerAction(cfg, Run(cfg, START, schedule))
  {
    assert Run(cfg, START, []) == START;
    schedule := AttemptTakesEffect(cfg, [], 0);
    var first := Run(cfg, START, schedule);
    schedule := AttemptFails(cfg, schedule, 0);
    schedule := AttemptTakesEffect(cfg, schedule, 1);
    var calendar := Run(cfg, START, schedule).calendar;
    assert |calendar| == 2 && calendar[0] == first.calendar[0] == calendar[1];
  }

  /**
   At most one event per account and action exists in every schedule exactly when the
   calendar drops known transaction ids: the records alone do not give it.
   */
  lemma OneEventPerActionIffDeduplicated(cfg: Config)
    ensures cfg.deduplicates <==> forall schedule :: OneEventPerAction(cfg, Run(cfg, START, schedule))
  {
    if cfg.deduplicates {
      forall schedule ensures OneEventPerAction(cfg, Run(cfg, START, schedule)) {
        EverySchedule(cfg, schedule);
        SoundCalendarHasNoDuplicates(cfg, Run(cfg, START, schedule));
      }
    } else {
      var schedule := RetryDuplicatesWithoutDeduplication(cfg);
      assert !OneEventPerAction(cfg, Run(cfg, START, schedule));
    }
  }

  /** Deduplication never swallows a different action on the same account. */
  lemma DifferentActionsAreNotMerged(cfg: Config, schedule: seq<Action>, n: nat)
    requires CollisionFree(cfg.text)
    requires var w := Run(cfg, START, schedule);
             && n < |w.outbox|
             && IdentityOf(cfg.text, w.outbox[n].request).Some?
             && forall i :: 0 <= i < |w.calendar| && w.calendar[i].account == w.outbox[n].account ==>
                  IdentityOf(cfg.text, w.calendar[i].request) != IdentityOf(cfg.text, w.outbox[n].request)
    ensures var w := Run(cfg, START, schedule);
            Next(cfg, w, Deliver(n)).calendar == w.calendar + [w.outbox[n]]
  {
    EverySchedule(cfg, schedule);
    var w := Run(cfg, START, schedule);
    var m := w.outbox[n];
    if Known(w.calendar, m) {
      var i :| 0 <= i < |w.calendar| && SameTransaction(w.calendar[i], m);
      assert Stamped(cfg.text, w.calendar[i]) && Stamped(cfg.text, m);
      KeysDistinguishActions(cfg.text, w.calendar[i].request, m.request);
    }
  }

  /** The first of two equal calls, and the second one that lost the insert to it. */
  lemma SecondCallLoses(cfg: Config) returns (schedule: seq<Action>)
    ensures var call, w := Arrival(cfg.text, "user", SOME_WRITE), Run(cfg, START, schedule);
            && w.calls == map[0 := call.(phase := Holding), 1 := call.(phase := Lost)]
            && w.table == map[call.key.value := InProgress]
  {
    var call := Arrival(cfg.text, "user", SOME_WRITE);
    assert Run(cfg, START, []) == START;
    RunStep(cfg, START, [], Arrive(0, "user", SOME_WRITE));
    schedule := [] + [Arrive(0, "user", SOME_WRITE)];
    RunStep(cfg, START, schedule, Claim(0));
    schedule := schedule + [Claim(0)];
    assert Run(cfg, START, schedule).calls == map[0 := call.(phase := Holding)];
    RunStep(cfg, START, schedule, Arrive(1, "user", SOME_WRITE));
    schedule := schedule + [Arrive(1, "user", SOME_WRITE)];
    RunStep(cfg, START, schedule, Claim(1));
    schedule := schedule + [Claim(1)];
  }

  /** Only keyed calls insert, so only they can lose. */
  lemma {:induction false} LostCallHasKey(cfg: Config, schedule: seq<Action>, id: nat)
    requires var w := Run(cfg, START, schedule); id in w.calls && w.calls[id].phase.Lost?
    ensures Run(cfg, START, schedule).calls[id].key.Some?
    decreases |schedule|
  {
    if schedule != [] {
      var k := |schedule| - 1;
      var before, a := Run(cfg, START, schedule[..k]), schedule[k];
      if id in before.calls && before.calls[id].phase.Lost? {
        LostCallHasKey(cfg, schedule[..k], id);
        if !a.Arrive? && !a.Deliver? && a.id in before.calls {
          AdvanceHasEffect(before, a);
        }
      }
    }
  }

  ghost predicate Unowned(w: World, key: Key) {
    forall id :: !OwnsKey(w, id, key)
  }

  /**
   For a call that lost its insert, in every reachable world: it is answered 409 while
   nobody holds the key if and only if the record is gone by the time it reads.
   */
  lemma BusyAnswerOnFreeKeyIff(cfg: Config, schedule: seq<Action>, id: nat)
    requires var w := Run(cfg, START, schedule); id in w.calls && w.calls[id].phase.Lost?
    ensures var w, after := Run(cfg, START, schedule), Next(cfg, Run(cfg, START, schedule), Inspect(id));
            && w.calls[id].key.Some?
            && var key := w.calls[id].key.value;
               after.calls[id].phase == Rejected && Unowned(w, key) <==> key !in w.table
  {
    LostCallHasKey(cfg, schedule, id);
    EverySchedule(cfg, schedule);
    var w := Run(cfg, START, schedule);
    var key := w.calls[id].key.value;
    if key in w.table && w.table[key].InProgress? {
      var owner :| OwnsKey(w, owner, key);
    }
  }

  /** A call that has lost its insert, with the record gone, has seen it go. */
  lemma {:induction false} RecordWasReleased(cfg: Config, schedule: seq<Action>, id: nat) returns (n: nat)
    requires var w := Run(cfg, START, schedule);
             && id in w.calls && w.calls[id].phase.Lost? && w.calls[id].key.Some?
             && w.calls[id].key.value !in w.table
    ensures n < |schedule| && schedule[n].Release?
    ensures var earlier, w := Run(cfg, START, schedule[..n]), Run(cfg, START, schedule);
            var key := w.calls[id].key.value;
            && id in earlier.calls && earlier.calls[id] == w.calls[id]
            && OwnsKey(earlier, schedule[n].id, key) && earlier.calls[schedule[n].id].phase.Raised?
            && key in earlier.table && key !in Next(cfg, earlier, schedule[n]).table
    decreases |schedule|
  {
    assert schedule != [];
    var k := |schedule| - 1;
    var before, a := Run(cfg, START, schedule[..k]), schedule[k];
    LostCallBefore(cfg, before, a, id);
    if before.calls[id].key.value in before.table {
      n := k;
    } else {
      n := RecordWasReleased(cfg, schedule[..k], id);
      assert schedule[..k][..n] == schedule[..n];
    }
  }

  /** One step back from a lost call on a free key: the call was lost already, or the record goes now. */
  lemma LostCallBefore(cfg: Config, w: World, a: Action, id: nat)
    requires var w' := Next(cfg, w, a);
             && id in w'.calls && w'.calls[id].phase.Lost? && w'.calls[id].key.Some?
             && w'.calls[id].key.value !in w'.table
    ensures var w' := Next(cfg, w, a);
            var key := w'.calls[id].key.value;
            && id in w.calls && w.calls[id] == w'.calls[id]
            && (key in w.table ==> a.Release? && OwnsKey(w, a.id, key) && w.calls[a.id].phase.Raised?)
  {
    if !a.Arrive? && !a.Deliver? && a.id in w.calls {
      AdvanceHasEffect(w, a);
    }
  }

  /** Between the lost insert and the read the record can vanish: 409 on a free key. */
  lemma BusyAnswerOnFreeKey(cfg: Config) returns (schedule: seq<Action>)
    ensures var w := Run(cfg, START, schedule);
            1 in w.calls && w.calls[1].key.Some? && w.calls[1].phase == Rejected && w.table == map[]
  {
    schedule := SecondCallLoses(cfg);
    var lost := Run(cfg, START, schedule);
    RunStep(cfg, START, schedule, Raise(0));
    schedule := schedule + [Raise(0)];
    RunStep(cfg, START, schedule, Release(0));
    schedule := schedule + [Release(0)];
    assert Run(cfg, START, schedule).calls[1] == lost.calls[1];
    assert Run(cfg, START, schedule).table == map[];
    RunStep(cfg, START, schedule, Inspect(1));
    schedule := schedule + [Inspect(1)];
  }
}
