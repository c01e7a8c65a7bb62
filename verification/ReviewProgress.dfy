/** What an undisturbed executor achieves, and for which claims a decision is within reach. */
module ReviewProgress {
  import opened Results
  import opened ClaimRules
  import opened ActionDesk
  import opened ClaimStore
  import opened ClaimHistory
  import opened ClaimInvariants
  import opened ReviewRuns
  import opened ReviewSystem
  import opened ReviewTheorems
  import opened ClaimTheorems

  const GOOD_CHUNKS := [Chunk("confluence")]

  /** The executor is about to record node n, or to complete, and what it found so far is good. */
  predicate OnTheWay(sys: System, runId: string, claimId: string, owner: string, n: nat) {
    && runId in sys.tasks
    && var task := sys.tasks[runId];
       && task.claimId == claimId && task.owner == owner
       && task.place == (if n < |ORDER| then Recording(n) else Completing)
       && (n >= 3 ==> task.chunks == GOOD_CHUNKS)
       && (n >= 4 ==> task.evidence == Sufficient)
  }

  predicate KnownProduct(sys: System, claimId: string) {
    claimId in sys.db.claims && sys.db.claims[claimId].subject.productLine != Unknown
  }

  lemma TaskIsSound(text: Text, sys: System, runId: string)
    requires Sound(text, sys) && runId in sys.tasks
    ensures TaskSound(text, sys.db, runId, sys.tasks[runId])
  {
  }

  lemma RecordMoves(text: Text, sys: System, runId: string)
    requires Sound(text, sys) && runId in sys.tasks && sys.tasks[runId].place.Recording?
    ensures var after, task := Next(text, sys, Record(runId)), sys.tasks[runId];
            && Sound(text, after) && after.db.claims == sys.db.claims
            && runId in after.tasks && after.tasks[runId] == task.(place := Working(task.place.n))
  {
    TaskIsSound(text, sys, runId);
    NextKeepsSound(text, sys, Record(runId));
    RecordingTaskMayRecord(text, sys.db, runId, sys.tasks[runId]);
    RecordPlace(text, sys, runId);
  }

  lemma RecordPlace(text: Text, sys: System, runId: string)
    requires runId in sys.tasks && sys.tasks[runId].place.Recording? && sys.tasks[runId].place.n < |ORDER|
    requires sys.tasks[runId].claimId in sys.db.claims && runId in sys.db.runs
    ensures var after, task := Next(text, sys, Record(runId)), sys.tasks[runId];
            && after.db.claims == sys.db.claims
            && runId in after.tasks && after.tasks[runId] == task.(place := Working(task.place.n))
  {
  }

  /** One node body, on a claim with a known product and with good chunks retrieved. */
  lemma WorkMoves(text: Text, sys: System, runId: string, claimId: string, owner: string, n: nat)
    requires Sound(text, sys) && n < |ORDER| && KnownProduct(sys, claimId)
    requires runId in sys.tasks && sys.tasks[runId].place == Working(n)
    requires OnTheWay(With(sys, runId, sys.tasks[runId].(place := Recording(n))), runId, claimId, owner, n)
    ensures var after := Next(text, sys, Work(runId, GOOD_CHUNKS, ""));
            Sound(text, after) && after.db == sys.db && OnTheWay(after, runId, claimId, owner, n + 1)
  {
    TaskIsSound(text, sys, runId);
    NextKeepsSound(text, sys, Work(runId, GOOD_CHUNKS, ""));
    WorkPlace(text, sys, runId, n);
  }

  lemma WorkPlace(text: Text, sys: System, runId: string, n: nat)
    requires runId in sys.tasks && sys.tasks[runId].place == Working(n) && n < |ORDER|
    requires var task := sys.tasks[runId];
             && Owned(sys.db, task.claimId, task.owner)
             && StateSound(text, task, sys.db.claims[task.claimId].subject)
             && sys.db.claims[task.claimId].subject.productLine != Unknown
             && (n >= 3 ==> task.chunks == GOOD_CHUNKS) && (n >= 4 ==> task.evidence == Sufficient)
    ensures var after, task := Next(text, sys, Work(runId, GOOD_CHUNKS, "")), sys.tasks[runId];
            after.db == sys.db && OnTheWay(after, runId, task.claimId, task.owner, n + 1)
  {
    NodeIsGood(text, sys.db, sys.tasks[runId]);
  }

  lemma NodeIsGood(text: Text, db: Db, task: Task)
    requires task.place.Working? && task.place.n < |ORDER| && Owned(db, task.claimId, task.owner)
    requires StateSound(text, task, db.claims[task.claimId].subject)
    requires db.claims[task.claimId].subject.productLine != Unknown
    requires task.place.n >= 3 ==> task.chunks == GOOD_CHUNKS
    requires task.place.n >= 4 ==> task.evidence == Sufficient
    ensures var next := NodeResult(text, db, task, GOOD_CHUNKS);
            && next.place == Proceed(task).place && next.claimId == task.claimId && next.owner == task.owner
            && (task.place.n >= 2 ==> next.chunks == GOOD_CHUNKS)
            && (task.place.n >= 3 ==> next.evidence == Sufficient)
    ensures task.place.n >= 2 ==> task.missing == {}
  {
    assert GOOD_CHUNKS[0] in GOOD_CHUNKS;
    assert VerifyEvidence(GOOD_CHUNKS) == Sufficient;
  }

  lemma RunMore(text: Text, sys: System, acts: seq<Act>, a: Act)
    ensures Run(text, sys, acts + [a]) == Next(text, Run(text, sys, acts), a)
  {
    assert (acts + [a])[..|acts + [a]| - 1] == acts;
  }

  lemma RunTwoMore(text: Text, sys: System, acts: seq<Act>, a: Act, b: Act)
    ensures Run(text, sys, acts + [a] + [b]) == Next(text, Next(text, Run(text, sys, acts), a), b)
  {
    RunMore(text, sys, acts, a);
    RunMore(text, sys, acts + [a], b);
  }

  /** Left alone, an executor comes through any number of its nodes. */
  lemma {:induction false} NodesAreWalked(text: Text, sys: System, runId: string, claimId: string, owner: string, n: nat)
    returns (acts: seq<Act>)
    requires Sound(text, sys) && n <= |ORDER| && KnownProduct(sys, claimId)
    requires OnTheWay(sys, runId, claimId, owner, 0)
    ensures var after := Run(text, sys, acts);
            && Sound(text, after) && after.db.claims == sys.db.claims
            && OnTheWay(after, runId, claimId, owner, n)
  {
    if n == 0 {
      acts := [];
    } else {
      var before := NodesAreWalked(text, sys, runId, claimId, owner, n - 1);
      NodeIsWalked(text, Run(text, sys, before), runId, claimId, owner, n - 1);
      RunTwoMore(text, sys, before, Record(runId), Work(runId, GOOD_CHUNKS, ""));
      acts := before + [Record(runId)] + [Work(runId, GOOD_CHUNKS, "")];
    }
  }

  lemma NodeIsWalked(text: Text, sys: System, runId: string, claimId: string, owner: string, n: nat)
    requires Sound(text, sys) && n < |ORDER| && KnownProduct(sys, claimId)
    requires OnTheWay(sys, runId, claimId, owner, n)
    ensures var after := Next(text, Next(text, sys, Record(runId)), Work(runId, GOOD_CHUNKS, ""));
            && Sound(text, after) && after.db.claims == sys.db.claims
            && OnTheWay(after, runId, claimId, owner, n + 1)
  {
    RecordMoves(text, sys, runId);
    WorkMoves(text, Next(text, sys, Record(runId)), runId, claimId, owner, n);
  }

  /** A completed walk makes the claim ready for a decision. */
  lemma CompletionReaches(text: Text, sys: System, runId: string, claimId: string, owner: string)
    requires Sound(text, sys) && OnTheWay(sys, runId, claimId, owner, |ORDER|)
    ensures var after := Next(text, sys, Complete(runId)).db.claims;
            claimId in after && after[claimId].status == ReadyForDecision
  {
    TaskIsSound(text, sys, runId);
    LiveTaskReviewsItsClaim(text, sys.db, runId, sys.tasks[runId]);
    CompletePlace(text, sys, runId);
  }

  lemma CompletePlace(text: Text, sys: System, runId: string)
    requires runId in sys.tasks && sys.tasks[runId].place.Completing? && runId in sys.db.runs
    requires var task := sys.tasks[runId];
             && Owned(sys.db, task.claimId, task.owner) && sys.db.claims[task.claimId].status == UnderReview
             && task.missing == {} && task.evidence == Sufficient
    ensures var after, task := Next(text, sys, Complete(runId)).db.claims, sys.tasks[runId];
            task.claimId in after && after[task.claimId].status == ReadyForDecision
  {
    var task := sys.tasks[runId];
    CompletionWrites(sys.db, task.claimId, runId, task.owner, ReviewOf(task));
  }

  /** A ready claim with a known product can be brought to a decision, under any unused run id. */
  lemma ReadyClaimCanBeReviewed(text: Text, sys: System, claimId: string, runId: string) returns (acts: seq<Act>)
    requires Sound(text, sys) && KnownProduct(sys, claimId)
    requires sys.db.claims[claimId].status == ReadyForReview && runId !in sys.db.runs
    ensures var after := Run(text, sys, acts).db.claims;
            claimId in after && after[claimId].status == ReadyForDecision
  {
    var owner := sys.db.claims[claimId].owner;
    ReadyClaimHasNoOpenRun(text, sys.db, claimId, owner);
    StartKeeps(text, sys, claimId, owner, runId);
    var started := Next(text, sys, Start(claimId, owner, runId));
    StartIsOnTheWay(text, sys, claimId, owner, runId);
    var walk := NodesAreWalked(text, started, runId, claimId, owner, |ORDER|);
    CompletionReaches(text, Run(text, started, walk), runId, claimId, owner);
    RunMore(text, started, walk, Complete(runId));
    acts := [Start(claimId, owner, runId)] + (walk + [Complete(runId)]);
    RunMore(text, sys, [], Start(claimId, owner, runId));
    assert [] + [Start(claimId, owner, runId)] == [Start(claimId, owner, runId)];
    RunTogether(text, sys, [Start(claimId, owner, runId)], walk + [Complete(runId)]);
  }

  lemma StartIsOnTheWay(text: Text, sys: System, claimId: string, owner: string, runId: string)
    requires Owned(sys.db, claimId, owner) && sys.db.claims[claimId].status == ReadyForReview
    requires !AlreadyRunning(sys.db, claimId, owner) && runId !in sys.db.runs
    ensures var started := Next(text, sys, Start(claimId, owner, runId));
            OnTheWay(started, runId, claimId, owner, 0) && (KnownProduct(sys, claimId) ==> KnownProduct(started, claimId))
  {
  }

  lemma {:induction false} RunTogether(text: Text, sys: System, first: seq<Act>, second: seq<Act>)
    ensures Run(text, sys, first + second) == Run(text, Run(text, sys, first), second)
    decreases |second|
  {
    if second == [] {
      assert first + second == first;
    } else {
      var k := |second| - 1;
      RunTogether(text, sys, first, second[..k]);
      assert (first + second)[..|first + second| - 1] == first + second[..k];
    }
  }

  lemma {:induction false} SubjectsNeverChange(text: Text, sys: System, acts: seq<Act>, claimId: string)
    requires Sound(text, sys) && claimId in sys.db.claims
    ensures var after := Run(text, sys, acts).db.claims;
            claimId in after && after[claimId].subject == sys.db.claims[claimId].subject
    decreases |acts|
  {
    if acts != [] {
      var before := acts[..|acts| - 1];
      SubjectsNeverChange(text, sys, before, claimId);
      RunKeepsSound(text, sys, before);
      StepDisturbsOneRun(text, Run(text, sys, before), acts[|acts| - 1]);
    }
  }

  /** A claim that has been reviewed well has a known product. */
  lemma ReviewedProductIsKnown(text: Text, db: Db, claimId: string)
    requires DbSound(text, db) && claimId in db.claims && Reviewed(db.claims[claimId].status)
    ensures db.claims[claimId].subject.productLine != Unknown
  {
    assert Explained(db.audit, claimId, db.claims[claimId].status);
    var row :| row in db.audit && IsGoodReview(row, claimId);
    assert CompletionTrue(db.runs, row);
    assert ReviewShape(db.runs[row.event.runId].result.value, db.claims[claimId].subject);
  }

  lemma {:induction false} SomeLengthIsUnused(ids: set<string>) returns (n: nat)
    ensures forall id :: id in ids ==> |id| < n
  {
    n := 0;
    if ids != {} {
      var id :| id in ids;
      n := SomeLengthIsUnused(ids - {id});
      n := if |id| < n then n else |id| + 1;
    }
  }

  lemma SomeIdIsUnused(ids: set<string>) returns (id: string)
    ensures id !in ids
  {
    var n := SomeLengthIsUnused(ids);
    id := seq(n, i => 'x');
  }

  /**
   From every reachable state, a claim that is ready for review can still come to a
   decision if and only if its product line is known.
   */
  lemma DecisionIsReachableIffProductIsKnown(text: Text, acts: seq<Act>, claimId: string)
    requires claimId in Run(text, IDLE, acts).db.claims
    requires Run(text, IDLE, acts).db.claims[claimId].status == ReadyForReview
    ensures KnownProduct(Run(text, IDLE, acts), claimId) <==>
            exists later :: var claims := Run(text, Run(text, IDLE, acts), later).db.claims;
                            claimId in claims && claims[claimId].status == ReadyForDecision
  {
    EveryRunIsSound(text, acts);
    var sys := Run(text, IDLE, acts);
    if KnownProduct(sys, claimId) {
      var runId := SomeIdIsUnused(sys.db.runs.Keys);
      var later := ReadyClaimCanBeReviewed(text, sys, claimId, runId);
      var claims := Run(text, sys, later).db.claims;
      assert claimId in claims && claims[claimId].status == ReadyForDecision;
    }
    forall later | claimId in Run(text, sys, later).db.claims &&
                   Run(text, sys, later).db.claims[claimId].status == ReadyForDecision
      ensures KnownProduct(sys, claimId)
    {
      RunKeepsSound(text, sys, later);
      SubjectsNeverChange(text, sys, later, claimId);
      ReviewedProductIsKnown(text, Run(text, sys, later).db, claimId);
    }
  }

  // ---------------------------------------------------------------- a lost executor

  /** The executor died, and its run is still running on the claim. */
  predicate Lost(sys: System, runId: string, claimId: string) {
    && runId in sys.tasks && sys.tasks[runId].place.Dead?
    && RunningOn(sys.db.runs, runId, claimId)
  }

  /** Steps that name a dead executor's run do nothing. */
  lemma DeadDoesNothing(text: Text, sys: System, a: Act)
    requires !a.Ask? && a.runId in sys.tasks && sys.tasks[a.runId].place.Dead? && a.runId in sys.db.runs
    ensures Next(text, sys, a) == sys && Touched(sys, a) == None
  {
    if a.Start? {
      StartNeedsAFreeId(sys.db, a.claimId, a.owner, a.runId);
    }
  }

  lemma StartNeedsAFreeId(db: Db, claimId: string, owner: string, runId: string)
    requires runId in db.runs
    ensures StartReview(db, claimId, owner, runId).Refused?
  {
  }

  lemma OthersLeaveItAlone(text: Text, sys: System, a: Act, runId: string)
    requires runId in sys.tasks && (a.Ask? || a.runId != runId)
    ensures runId in Next(text, sys, a).tasks && Next(text, sys, a).tasks[runId] == sys.tasks[runId]
    ensures Touched(sys, a) != Some(runId)
  {
  }

  lemma LostStaysLost(text: Text, sys: System, a: Act, runId: string, claimId: string)
    requires Sound(text, sys) && Lost(sys, runId, claimId)
    ensures Lost(Next(text, sys, a), runId, claimId)
    ensures Next(text, sys, a).db.runs[runId] == sys.db.runs[runId]
  {
    if !a.Ask? && a.runId == runId {
      DeadDoesNothing(text, sys, a);
    } else {
      OthersLeaveItAlone(text, sys, a, runId);
      StepDisturbsOneRun(text, sys, a);
      RunIsUndisturbed(sys.db, Next(text, sys, a).db, Touched(sys, a), runId);
    }
  }

  lemma RunIsUndisturbed(db: Db, after: Db, except: Option<string>, runId: string)
    requires Undisturbed(db, after, except) && except != Some(runId) && runId in db.runs
    ensures runId in after.runs && after.runs[runId] == db.runs[runId]
  {
  }

  lemma {:induction false} LostForGood(text: Text, sys: System, later: seq<Act>, runId: string, claimId: string)
    requires Sound(text, sys) && Lost(sys, runId, claimId)
    ensures Lost(Run(text, sys, later), runId, claimId)
    ensures Run(text, sys, later).db.runs[runId] == sys.db.runs[runId]
    decreases |later|
  {
    if later != [] {
      var before := later[..|later| - 1];
      LostForGood(text, sys, before, runId, claimId);
      RunKeepsSound(text, sys, before);
      LostStaysLost(text, Run(text, sys, before), later[|later| - 1], runId, claimId);
    }
  }

  lemma DyingLoses(text: Text, sys: System, runId: string)
    requires Sound(text, sys) && runId in sys.tasks && Live(sys.tasks[runId].place)
    ensures Lost(Next(text, sys, Die(runId)), runId, sys.tasks[runId].claimId)
    ensures Next(text, sys, Die(runId)).db == sys.db
  {
    TaskIsSound(text, sys, runId);
  }

  lemma LostRunReviews(text: Text, db: Db, runId: string, claimId: string)
    requires DbSound(text, db) && RunningOn(db.runs, runId, claimId)
    ensures claimId in db.claims && db.claims[claimId].status == UnderReview
  {
  }

  lemma NoStartUnderReview(db: Db, claimId: string)
    requires claimId in db.claims && db.claims[claimId].status == UnderReview
    ensures forall owner, other :: StartReview(db, claimId, owner, other).Refused?
  {
  }

  /**
   A claim whose executor dies is stuck: in every continuation its run stays RUNNING as it
   was, the claim stays UNDER_REVIEW, and nobody can start another review of it.
   */
  lemma LostExecutorBlocksItsClaim(text: Text, acts: seq<Act>, runId: string, later: seq<Act>)
    requires var sys := Run(text, IDLE, acts); runId in sys.tasks && Live(sys.tasks[runId].place)
    ensures var sys := Run(text, IDLE, acts);
            var after, claimId := Run(text, Next(text, sys, Die(runId)), later).db, sys.tasks[runId].claimId;
            && runId in sys.db.runs && runId in after.runs && after.runs[runId] == sys.db.runs[runId]
            && after.runs[runId].status == Running
            && claimId in after.claims && after.claims[claimId].status == UnderReview
            && forall owner, other :: StartReview(after, claimId, owner, other).Refused?
  {
    var sys := Run(text, IDLE, acts);
    EveryRunIsSound(text, acts);
    LostAndContinued(text, sys, runId, later);
  }

  lemma LostAndContinued(text: Text, sys: System, runId: string, later: seq<Act>)
    requires Sound(text, sys) && runId in sys.tasks && Live(sys.tasks[runId].place)
    ensures var after, claimId := Run(text, Next(text, sys, Die(runId)), later).db, sys.tasks[runId].claimId;
            && runId in sys.db.runs && runId in after.runs && after.runs[runId] == sys.db.runs[runId]
            && after.runs[runId].status == Running
            && claimId in after.claims && after.claims[claimId].status == UnderReview
            && forall owner, other :: StartReview(after, claimId, owner, other).Refused?
  {
    var claimId, lost := sys.tasks[runId].claimId, Next(text, sys, Die(runId));
    DyingLoses(text, sys, runId);
    NextKeepsSound(text, sys, Die(runId));
    LostForGood(text, lost, later, runId, claimId);
    RunKeepsSound(text, lost, later);
    LostRunReviews(text, Run(text, lost, later).db, runId, claimId);
    NoStartUnderReview(Run(text, lost, later).db, claimId);
  }

  // ---------------------------------------------------------------- a raised exception

  /** Raising is one step of the executor; the tables do not change. */
  lemma RaisingMoves(text: Text, sys: System, runId: string, error: string)
    requires runId in sys.tasks && Live(sys.tasks[runId].place) && !sys.tasks[runId].place.Failing?
    ensures var raised := Next(text, sys, Raise(runId, error));
            && raised.db == sys.db && runId in raised.tasks
            && raised.tasks[runId] == sys.tasks[runId].(place := Failing(error))
  {
  }

  lemma FailedTables(db: Db, claimId: string, runId: string, owner: string, error: string)
    requires Owned(db, claimId, owner) && db.claims[claimId].status == UnderReview && runId in db.runs
    ensures FailReview(db, claimId, runId, owner, error).Ok?
    ensures var after := FailReview(db, claimId, runId, owner, error).value;
            && runId in after.runs && after.runs[runId].status == RunFailed && after.runs[runId].error == Some(error)
            && after.runs.Keys == db.runs.Keys
            && claimId in after.claims && after.claims[claimId].status == ReadyForReview
            && after.claims[claimId].owner == owner
  {
    FailureWrites(db, claimId, runId, owner, error);
  }

  lemma LiveTaskFacts(text: Text, sys: System, runId: string)
    requires Sound(text, sys) && runId in sys.tasks && Live(sys.tasks[runId].place)
    ensures var task := sys.tasks[runId];
            && runId in sys.db.runs && Owned(sys.db, task.claimId, task.owner)
            && sys.db.claims[task.claimId].status == UnderReview
  {
    TaskIsSound(text, sys, runId);
    LiveTaskReviewsItsClaim(text, sys.db, runId, sys.tasks[runId]);
  }

  lemma FailingFrees(text: Text, sys: System, runId: string, error: string)
    requires Sound(text, sys) && runId in sys.tasks && sys.tasks[runId].place == Failing(error)
    ensures var after, claimId := Next(text, sys, Fail(runId)).db, sys.tasks[runId].claimId;
            && runId in after.runs && after.runs[runId].status == RunFailed && after.runs[runId].error == Some(error)
            && after.runs.Keys == sys.db.runs.Keys
            && claimId in after.claims && after.claims[claimId].status == ReadyForReview
            && after.claims[claimId].owner == sys.tasks[runId].owner
  {
    LiveTaskFacts(text, sys, runId);
    FailMoves(text, sys, runId, error);
    FailedTables(sys.db, sys.tasks[runId].claimId, runId, sys.tasks[runId].owner, error);
  }

  lemma FailMoves(text: Text, sys: System, runId: string, error: string)
    requires runId in sys.tasks && sys.tasks[runId].place == Failing(error)
    ensures var task := sys.tasks[runId];
            var failed := FailReview(sys.db, task.claimId, runId, task.owner, error);
            failed.Ok? ==> Next(text, sys, Fail(runId)).db == failed.value
  {
  }

  /**
   An executor that raises frees its claim, wherever it stood: the exception handler fails
   the run with that error and the claim is ready again, so its owner can start another
   review under any unused run id.
   */
  lemma RaisedReviewCanBeRetried(text: Text, acts: seq<Act>, runId: string, error: string, other: string)
    requires var sys := Run(text, IDLE, acts);
             && runId in sys.tasks && Live(sys.tasks[runId].place) && !sys.tasks[runId].place.Failing?
             && other !in sys.db.runs
    ensures var task := Run(text, IDLE, acts).tasks[runId];
            var after := Run(text, IDLE, acts + [Raise(runId, error)] + [Fail(runId)]).db;
            && runId in after.runs && after.runs[runId].status == RunFailed && after.runs[runId].error == Some(error)
            && task.claimId in after.claims && after.claims[task.claimId].status == ReadyForReview
            && StartReview(after, task.claimId, task.owner, other).Ok?
  {
    var sys := Run(text, IDLE, acts);
    EveryRunIsSound(text, acts);
    RunTwoMore(text, IDLE, acts, Raise(runId, error), Fail(runId));
    RaisingMoves(text, sys, runId, error);
    NextKeepsSound(text, sys, Raise(runId, error));
    var raised := Next(text, sys, Raise(runId, error));
    FailingFrees(text, raised, runId, error);
    NextKeepsSound(text, raised, Fail(runId));
    ReadyClaimCanBeStarted(text, Next(text, raised, Fail(runId)), sys.tasks[runId].claimId, sys.tasks[runId].owner, other);
  }

  lemma ReadyClaimCanBeStarted(text: Text, sys: System, claimId: string, owner: string, runId: string)
    requires Sound(text, sys) && claimId in sys.db.claims && runId !in sys.db.runs
    requires sys.db.claims[claimId].status == ReadyForReview && sys.db.claims[claimId].owner == owner
    ensures StartReview(sys.db, claimId, owner, runId).Ok?
  {
    ReadyClaimHasNoOpenRun(text, sys.db, claimId, owner);
  }
}
