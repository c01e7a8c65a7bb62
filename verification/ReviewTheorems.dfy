/** What holds of the claim service in every run of it. */
module ReviewTheorems {
  import opened Results
  import opened ClaimRules
  import opened ActionDesk
  import opened ClaimStore
  import opened ClaimHistory
  import opened ClaimInvariants
  import opened ReviewRuns
  import opened ReviewSystem

  // ---------------------------------------------------------------- executor steps

  lemma StartWrites(db: Db, claimId: string, owner: string, runId: string)
    requires StartReview(db, claimId, owner, runId).Ok?
    ensures var run := ReviewRun(claimId, owner, Running, At(LoadClaim), None, None, false);
            var after := StartReview(db, claimId, owner, runId).value;
            && runId !in db.runs
            && after.runs == db.runs[runId := run]
            && after.claims == WithStatus(db.claims, claimId, UnderReview)
            && after.audit == db.audit + [AuditRow(claimId, owner, StatusChanged(ReadyForReview, UnderReview))]
                                       + [AuditRow(claimId, owner, ReviewStarted(runId))]
  {
  }

  lemma StartSpawnsSoundTask(text: Text, db: Db, claimId: string, owner: string, runId: string)
    requires RunsSound(db.runs, db.audit)
    requires StartReview(db, claimId, owner, runId).Ok?
    ensures var after := StartReview(db, claimId, owner, runId).value;
            Undisturbed(db, after, Some(runId)) && TaskSound(text, after, runId, Spawn(claimId, owner))
  {
    StartWrites(db, claimId, owner, runId);
    var first := AuditRow(claimId, owner, StatusChanged(ReadyForReview, UnderReview));
    RowConcernsItsClaim(db.audit, first);
    RowConcernsItsClaim(db.audit + [first], AuditRow(claimId, owner, ReviewStarted(runId)));
  }

  lemma StartKeeps(text: Text, sys: System, claimId: string, owner: string, runId: string)
    requires Sound(text, sys)
    ensures Sound(text, Next(text, sys, Start(claimId, owner, runId)))
  {
    var started := StartReview(sys.db, claimId, owner, runId);
    if started.Ok? {
      StartKeepsSound(text, sys.db, claimId, owner, runId);
      StartSpawnsSoundTask(text, sys.db, claimId, owner, runId);
      OtherTasksStaySound(text, sys, started.value, runId, Spawn(claimId, owner));
    }
  }

  lemma RecordingTaskMayRecord(text: Text, db: Db, runId: string, task: Task)
    requires TaskSound(text, db, runId, task) && task.place.Recording?
    ensures task.claimId in db.claims && runId in db.runs && db.runs[runId].status == Running
    ensures task.place.n < |ORDER| && Steps(db.audit, runId) == ORDER[..task.place.n]
  {
  }

  lemma ProgressMovesItsTask(text: Text, db: Db, runId: string, task: Task)
    requires DbSound(text, db) && TaskSound(text, db, runId, task) && task.place.Recording?
    ensures var after := RecordProgress(db, task.claimId, runId, task.owner, ORDER[task.place.n]);
            && after.Ok? && DbSound(text, after.value)
            && Undisturbed(db, after.value, Some(runId))
            && TaskSound(text, after.value, runId, task.(place := Working(task.place.n)))
  {
    var n := task.place.n;
    RecordingTaskMayRecord(text, db, runId, task);
    ProgressKeepsSound(text, db, task.claimId, runId, task.owner, n);
    ProgressWrites(db, task.claimId, runId, task.owner, ORDER[n]);
    RecordedTaskIsSound(text, db, RecordProgress(db, task.claimId, runId, task.owner, ORDER[n]).value, runId, task);
  }

  lemma RecordedTaskIsSound(text: Text, db: Db, db': Db, runId: string, task: Task)
    requires TaskSound(text, db, runId, task) && task.place.Recording?
    requires db'.claims == db.claims && runId in db'.runs
    requires db'.runs[runId].status == Running && db'.runs[runId].claimId == task.claimId
    requires Steps(db'.audit, runId) == ORDER[..task.place.n + 1]
    ensures TaskSound(text, db', runId, task.(place := Working(task.place.n)))
  {
  }

  lemma ProgressWrites(db: Db, claimId: string, runId: string, owner: string, step: ReviewStep)
    requires claimId in db.claims && runId in db.runs
    ensures var after := RecordProgress(db, claimId, runId, owner, step);
            && after.Ok? && Undisturbed(db, after.value, Some(runId))
            && after.value.claims == db.claims && runId in after.value.runs
            && after.value.runs[runId].status == Running
            && after.value.runs[runId].claimId == db.runs[runId].claimId
  {
    RowConcernsItsClaim(db.audit, AuditRow(claimId, owner, ReviewProgress(runId, step)));
  }

  lemma RecordKeeps(text: Text, sys: System, runId: string)
    requires Sound(text, sys) && runId in sys.tasks && sys.tasks[runId].place.Recording?
    ensures Sound(text, RecordStep(sys, runId))
  {
    var task := sys.tasks[runId];
    assert TaskSound(text, sys.db, runId, task);
    ProgressMovesItsTask(text, sys.db, runId, task);
    var after := RecordProgress(sys.db, task.claimId, runId, task.owner, ORDER[task.place.n]).value;
    OtherTasksStaySound(text, sys, after, runId, task.(place := Working(task.place.n)));
  }

  /** The claim of a live executor is under review, by that executor's own run. */
  lemma LiveTaskReviewsItsClaim(text: Text, db: Db, runId: string, task: Task)
    requires DbSound(text, db) && TaskSound(text, db, runId, task) && Live(task.place)
    ensures RunningOn(db.runs, runId, task.claimId)
    ensures db.claims[task.claimId].status == UnderReview
  {
    assert RunningOn(db.runs, runId, task.claimId);
  }

  /** A node body that writes nothing leaves the graph state in line with the rules. */
  lemma NodeKeepsTaskSound(text: Text, db: Db, runId: string, task: Task, retrieved: seq<Chunk>)
    requires DbSound(text, db) && TaskSound(text, db, runId, task) && task.place.Working?
    ensures TaskSound(text, db, runId, NodeResult(text, db, task, retrieved))
  {
    LiveTaskReviewsItsClaim(text, db, runId, task);
    assert MissingFor(text, task.claimId, db.claims[task.claimId], db.documents) == {};
    NodeKeepsStateSound(text, db, task, retrieved);
    ProceededTaskIsSound(text, db, runId, task, NodeResult(text, db, task, retrieved));
  }

  lemma ProceededTaskIsSound(text: Text, db: Db, runId: string, task: Task, next: Task)
    requires TaskSound(text, db, runId, task) && task.place.Working?
    requires StateSound(text, next, db.claims[task.claimId].subject)
    requires next.claimId == task.claimId && next.owner == task.owner && next.place == Proceed(task).place
    ensures TaskSound(text, db, runId, next)
  {
    assert ORDER[..|ORDER|] == ORDER;
  }

  lemma NodeKeepsStateSound(text: Text, db: Db, task: Task, retrieved: seq<Chunk>)
    requires task.place.Working? && Owned(db, task.claimId, task.owner)
    requires StateSound(text, task, db.claims[task.claimId].subject)
    requires MissingFor(text, task.claimId, db.claims[task.claimId], db.documents) == {}
    ensures var next := NodeResult(text, db, task, retrieved);
            && StateSound(text, next, db.claims[task.claimId].subject)
            && next.claimId == task.claimId && next.owner == task.owner && next.place == Proceed(task).place
  {
    if task.place.n <= 1 {
      DocumentNodeKeepsState(text, db, task, retrieved);
    } else {
      LaterNodeKeepsState(text, db, task, retrieved, db.claims[task.claimId].subject);
    }
  }

  lemma LaterNodeKeepsState(text: Text, db: Db, task: Task, retrieved: seq<Chunk>, subject: Subject)
    requires task.place.Working? && task.place.n >= 2 && StateSound(text, task, subject)
    ensures var next := NodeResult(text, db, task, retrieved);
            && StateSound(text, next, subject)
            && next.claimId == task.claimId && next.owner == task.owner && next.place == Proceed(task).place
  {
  }

  /** The nodes that load and check the documents. */
  lemma DocumentNodeKeepsState(text: Text, db: Db, task: Task, retrieved: seq<Chunk>)
    requires task.place.Working? && Owned(db, task.claimId, task.owner) && task.place.n <= 1
    requires StateSound(text, task, db.claims[task.claimId].subject)
    requires MissingFor(text, task.claimId, db.claims[task.claimId], db.documents) == {}
    ensures var next := NodeResult(text, db, task, retrieved);
            && StateSound(text, next, db.claims[task.claimId].subject)
            && next.claimId == task.claimId && next.owner == task.owner && next.place == Proceed(task).place
  {
    if task.place.n == 0 {
      var next := NodeResult(text, db, task, retrieved);
      assert Missing(text, next.subject, next.documents) == {};
    }
  }

  /** The last node never proposes an action: nothing is missing in a review that got this far. */
  lemma WorkKeeps(text: Text, sys: System, runId: string, retrieved: seq<Chunk>, actionId: string)
    requires Sound(text, sys)
    requires runId in sys.tasks && sys.tasks[runId].place.Working?
    ensures WorkStep(text, sys, runId, retrieved, actionId).db == sys.db
    ensures Sound(text, WorkStep(text, sys, runId, retrieved, actionId))
  {
    var task := sys.tasks[runId];
    assert TaskSound(text, sys.db, runId, task);
    NodeKeepsTaskSound(text, sys.db, runId, task, retrieved);
    OtherTasksStaySound(text, sys, sys.db, runId, NodeResult(text, sys.db, task, retrieved));
  }

  lemma CompletionLeavesOtherRuns(db: Db, claimId: string, runId: string, owner: string, review: Review)
    requires Owned(db, claimId, owner) && db.claims[claimId].status == UnderReview && runId in db.runs
    requires review.missing == {}
    ensures var after := CompleteReview(db, claimId, runId, owner, review);
            && after.Ok? && Undisturbed(db, after.value, Some(runId))
            && runId in after.value.runs && after.value.runs[runId].claimId == db.runs[runId].claimId
  {
    CompletionWrites(db, claimId, runId, owner, review);
    var target := if review.evidence == Insufficient then NeedsInformation else ReadyForDecision;
    var first := AuditRow(claimId, owner, StatusChanged(UnderReview, target));
    TwoRowsConcernTheirClaim(db.audit, first, AuditRow(claimId, owner, ReviewCompleted(runId, review.evidence, review.missing)));
  }

  lemma SettledTaskIsSound(text: Text, db: Db, db': Db, runId: string, task: Task)
    requires TaskSound(text, db, runId, task) && Undisturbed(db, db', Some(runId))
    requires runId in db'.runs && db'.runs[runId].claimId == db.runs[runId].claimId
    ensures TaskSound(text, db', runId, task.(place := Finished))
  {
  }

  lemma FailureLeavesOtherRuns(db: Db, claimId: string, runId: string, owner: string, error: string)
    requires Owned(db, claimId, owner) && db.claims[claimId].status == UnderReview && runId in db.runs
    ensures var after := FailReview(db, claimId, runId, owner, error);
            && after.Ok? && Undisturbed(db, after.value, Some(runId))
            && runId in after.value.runs && after.value.runs[runId].claimId == db.runs[runId].claimId
  {
    var first := AuditRow(claimId, owner, StatusChanged(UnderReview, ReadyForReview));
    TwoRowsConcernTheirClaim(db.audit, first, AuditRow(claimId, owner, ReviewFailed(runId, error)));
  }

  function ReviewOf(task: Task): Review {
    Review(task.missing, task.evidence, task.proposed)
  }

  /** Completing is never refused, and it settles the run. */
  lemma CompletionIsAllowed(text: Text, db: Db, runId: string, task: Task)
    requires DbSound(text, db) && TaskSound(text, db, runId, task) && task.place.Completing?
    ensures var after := CompleteReview(db, task.claimId, runId, task.owner, ReviewOf(task));
            && after.Ok? && DbSound(text, after.value)
            && Undisturbed(db, after.value, Some(runId))
            && TaskSound(text, after.value, runId, task.(place := Finished))
  {
    LiveTaskReviewsItsClaim(text, db, runId, task);
    assert ORDER[..|ORDER|] == ORDER;
    CompleteKeepsSound(text, db, task.claimId, runId, task.owner, ReviewOf(task));
    CompletionLeavesOtherRuns(db, task.claimId, runId, task.owner, ReviewOf(task));
    SettledTaskIsSound(text, db, CompleteReview(db, task.claimId, runId, task.owner, ReviewOf(task)).value, runId, task);
  }

  /** Failing is never refused, and it settles the run. */
  lemma FailureIsAllowed(text: Text, db: Db, runId: string, task: Task)
    requires DbSound(text, db) && TaskSound(text, db, runId, task) && task.place.Failing?
    ensures var after := FailReview(db, task.claimId, runId, task.owner, task.place.error);
            && after.Ok? && DbSound(text, after.value)
            && Undisturbed(db, after.value, Some(runId))
            && TaskSound(text, after.value, runId, task.(place := Finished))
  {
    LiveTaskReviewsItsClaim(text, db, runId, task);
    FailKeepsSound(text, db, task.claimId, runId, task.owner, task.place.error);
    FailureLeavesOtherRuns(db, task.claimId, runId, task.owner, task.place.error);
    SettledTaskIsSound(text, db, FailReview(db, task.claimId, runId, task.owner, task.place.error).value, runId, task);
  }

  lemma CompleteKeeps(text: Text, sys: System, runId: string)
    requires Sound(text, sys)
    requires runId in sys.tasks && sys.tasks[runId].place.Completing?
    ensures Sound(text, CompleteStep(sys, runId))
  {
    var task := sys.tasks[runId];
    assert TaskSound(text, sys.db, runId, task);
    CompletionIsAllowed(text, sys.db, runId, task);
    var after := CompleteReview(sys.db, task.claimId, runId, task.owner, ReviewOf(task)).value;
    OtherTasksStaySound(text, sys, after, runId, task.(place := Finished));
  }

  lemma FailKeeps(text: Text, sys: System, runId: string)
    requires Sound(text, sys)
    requires runId in sys.tasks && sys.tasks[runId].place.Failing?
    ensures Sound(text, FailStep(sys, runId))
  {
    var task := sys.tasks[runId];
    assert TaskSound(text, sys.db, runId, task);
    FailureIsAllowed(text, sys.db, runId, task);
    var after := FailReview(sys.db, task.claimId, runId, task.owner, task.place.error).value;
    OtherTasksStaySound(text, sys, after, runId, task.(place := Finished));
  }

  /** Catching an exception, and dying, write nothing. */
  lemma DivertKeeps(text: Text, sys: System, runId: string, place: Place)
    requires Sound(text, sys)
    requires runId in sys.tasks && Live(sys.tasks[runId].place)
    requires place.Failing? || place.Dead?
    ensures Sound(text, With(sys, runId, sys.tasks[runId].(place := place)))
  {
    DivertedTaskIsSound(text, sys.db, runId, sys.tasks[runId], place);
    OtherTasksStaySound(text, sys, sys.db, runId, sys.tasks[runId].(place := place));
  }

  lemma DivertedTaskIsSound(text: Text, db: Db, runId: string, task: Task, place: Place)
    requires TaskSound(text, db, runId, task) && Live(task.place)
    requires place.Failing? || place.Dead?
    ensures TaskSound(text, db, runId, task.(place := place))
  {
  }

  /** A step that does not fit its executor's place changes nothing; the others keep everything sound. */
  lemma ExecutorStepKeeps(text: Text, sys: System, a: Act)
    requires Sound(text, sys) && !a.Ask? && !a.Start?
    requires a.runId in sys.tasks && Next(text, sys, a) != sys
    ensures Sound(text, Next(text, sys, a))
  {
    var runId := a.runId;
    if a.Record? {
      RecordKeeps(text, sys, runId);
    } else if a.Work? {
      WorkKeeps(text, sys, runId, a.retrieved, a.actionId);
    } else if a.Complete? {
      CompleteKeeps(text, sys, runId);
    } else if a.Fail? {
      FailKeeps(text, sys, runId);
    } else {
      DivertKeeps(text, sys, runId, if a.Raise? then Failing(a.error) else Dead);
    }
  }

  lemma NextKeepsSound(text: Text, sys: System, a: Act)
    requires Sound(text, sys)
    ensures Sound(text, Next(text, sys, a))
  {
    if a.Ask? {
      AskKeepsSound(text, sys, a.request);
    } else if a.Start? {
      StartKeeps(text, sys, a.claimId, a.owner, a.runId);
    } else if Next(text, sys, a) != sys {
      ExecutorStepKeeps(text, sys, a);
    }
  }

  /** Every schedule of requests, executor steps, exceptions and deaths. */
  lemma {:induction false} EveryRunIsSound(text: Text, acts: seq<Act>)
    ensures Sound(text, Run(text, IDLE, acts))
    decreases |acts|
  {
    if acts != [] {
      var before := acts[..|acts| - 1];
      EveryRunIsSound(text, before);
      NextKeepsSound(text, Run(text, IDLE, before), acts[|acts| - 1]);
    }
  }
}
