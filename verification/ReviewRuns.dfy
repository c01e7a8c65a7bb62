/** The four transactions of a review run, and what they need to keep the tables sound. */
module ReviewRuns {
  import opened Results
  import opened ClaimRules
  import opened ActionDesk
  import opened ClaimStore
  import opened ClaimHistory
  import opened ClaimInvariants

  lemma {:induction false} LatestRunIsARun(db: Db, log: seq<string>, claimId: string, owner: string)
    ensures var latest := LatestRun(db, log, claimId, owner);
            latest.Some? ==> exists run :: run in db.runs && db.runs[run] == latest.value && latest.value.claimId == claimId
  {
    if log != [] {
      var last := log[|log| - 1];
      if !(last in db.runs && db.runs[last].claimId == claimId && db.runs[last].owner == owner) {
        LatestRunIsARun(db, log[..|log| - 1], claimId, owner);
      }
    }
  }

  /** On a claim that is ready for review no run is open: the second guard of a start never fires. */
  lemma ReadyClaimHasNoOpenRun(text: Text, db: Db, claimId: string, owner: string)
    requires DbSound(text, db) && claimId in db.claims && db.claims[claimId].status != UnderReview
    ensures !AlreadyRunning(db, claimId, owner)
  {
    LatestRunIsARun(db, db.runLog, claimId, owner);
    var latest := LatestRun(db, db.runLog, claimId, owner);
    if latest.Some? {
      var run :| run in db.runs && db.runs[run] == latest.value && latest.value.claimId == claimId;
      assert RunShape(db.runs[run], Steps(db.audit, run));
      assert !RunningOn(db.runs, run, claimId);
    }
  }

  lemma StartKeepsReviews(claims: Claims, runs: Runs, claimId: string, runId: string, run: ReviewRun)
    requires ReviewsExclusive(claims, runs) && claimId in claims && claims[claimId].status != UnderReview
    requires runId !in runs && run.status == Running && run.claimId == claimId
    ensures ReviewsExclusive(WithStatus(claims, claimId, UnderReview), runs[runId := run])
  {
    var runs' := runs[runId := run];
    forall id | id in claims && (id == claimId || claims[id].status == UnderReview)
      ensures exists r :: RunningOn(runs', r, id)
    {
      if id == claimId {
        assert RunningOn(runs', runId, id);
      } else {
        var r :| RunningOn(runs, r, id);
        assert RunningOn(runs', r, id);
      }
    }
    assert forall r, id :: RunningOn(runs', r, id) ==> r == runId || RunningOn(runs, r, id);
  }

  /** A new run changes nothing that is already known about runs. */
  lemma NewRunKeepsRuns(claims: Claims, runs: Runs, audit: Trail, runId: string, run: ReviewRun)
    requires RunsSound(runs, audit) && CompletionsTrue(runs, audit) && ResultsSound(claims, runs) && RunsLinked(claims, runs)
    requires runId !in runs && RunShape(run, []) && run.result == None
    requires run.claimId in claims && claims[run.claimId].owner == run.owner
    ensures RunsSound(runs[runId := run], audit)
    ensures CompletionsTrue(runs[runId := run], audit)
    ensures ResultsSound(claims, runs[runId := run])
    ensures RunsLinked(claims, runs[runId := run])
  {
    forall row | row in audit ensures CompletionTrue(runs[runId := run], row) {
      assert CompletionTrue(runs, row);
    }
  }

  lemma StartKeepsSound(text: Text, db: Db, claimId: string, owner: string, runId: string)
    requires DbSound(text, db) && StartReview(db, claimId, owner, runId).Ok?
    ensures DbSound(text, StartReview(db, claimId, owner, runId).value)
  {
    var run := ReviewRun(claimId, owner, Running, At(LoadClaim), None, None, false);
    var row := AuditRow(claimId, owner, StatusChanged(ReadyForReview, UnderReview));
    var claims := WithStatus(db.claims, claimId, UnderReview);
    MoveKeepsHistory(db.claims, db.audit, claimId, UnderReview, owner);
    StatusLeavesTheRest(text, db, claimId, UnderReview);
    StartKeepsReviews(db.claims, db.runs, claimId, runId, run);
    RowConcernsItsClaim(db.audit, row);
    SameStepsKeepRuns(db.runs, db.audit, db.audit + [row]);
    MoreRowsStayTrue(db.runs, db.audit, row);
    NewRunKeepsRuns(claims, db.runs, db.audit + [row], runId, run);
    var started := Db(claims, db.documents, db.runs[runId := run], db.runLog + [runId], db.desk, db.audit + [row]);
    IncidentalRowKeepsSound(text, started, claimId, owner, ReviewStarted(runId));
  }

  /** The n-th step may be recorded for a running run that has recorded the n before it. */
  lemma ProgressKeepsRuns(runs: Runs, audit: Trail, runId: string, claimId: string, actor: string, n: nat)
    requires RunsSound(runs, audit) && runId in runs && runs[runId].status == Running
    requires n < |ORDER| && Steps(audit, runId) == ORDER[..n]
    ensures RunsSound(runs[runId := UpdateRun(runs[runId], Running, At(ORDER[n]), None, None, false)],
                      audit + [AuditRow(claimId, actor, ReviewProgress(runId, ORDER[n]))])
    ensures Steps(audit + [AuditRow(claimId, actor, ReviewProgress(runId, ORDER[n]))], runId) == ORDER[..n + 1]
  {
    var row := AuditRow(claimId, actor, ReviewProgress(runId, ORDER[n]));
    RowConcernsItsClaim(audit, row);
    OneMoreRow(audit, row, runId);
    assert ORDER[..n] + [ORDER[n]] == ORDER[..n + 1];
    ProgressKeepsShape(runs[runId], n);
    OneRunChanges(runs, audit, audit + [row], runId, UpdateRun(runs[runId], Running, At(ORDER[n]), None, None, false));
  }

  /** A run row may be rewritten together with a row that only that run's steps read. */
  lemma OneRunChanges(runs: Runs, audit: Trail, audit': Trail, runId: string, run: ReviewRun)
    requires RunsSound(runs, audit) && runId in runs
    requires SameStepsExcept(audit, audit', runId) && RunShape(run, Steps(audit', runId))
    ensures RunsSound(runs[runId := run], audit')
  {
  }

  lemma ProgressKeepsShape(run: ReviewRun, n: nat)
    requires n < |ORDER| && RunShape(run, ORDER[..n]) && run.status == Running
    ensures RunShape(UpdateRun(run, Running, At(ORDER[n]), None, None, false), ORDER[..n + 1])
  {
    assert ORDER[..n + 1][n] == ORDER[n];
  }

  /** Rewriting a running run as running leaves the reviews as they are. */
  lemma ProgressKeepsReviews(claims: Claims, runs: Runs, audit: Trail, runId: string, run: ReviewRun)
    requires ReviewsExclusive(claims, runs) && CompletionsTrue(runs, audit) && ResultsSound(claims, runs) && RunsLinked(claims, runs)
    requires runId in runs && runs[runId].status == Running && run.status == Running
    requires run.claimId == runs[runId].claimId && run.owner == runs[runId].owner && run.result == runs[runId].result
    ensures ReviewsExclusive(claims, runs[runId := run])
    ensures CompletionsTrue(runs[runId := run], audit)
    ensures ResultsSound(claims, runs[runId := run])
    ensures RunsLinked(claims, runs[runId := run])
  {
    var runs' := runs[runId := run];
    assert forall r, id :: RunningOn(runs', r, id) <==> RunningOn(runs, r, id);
    forall id | id in claims && claims[id].status == UnderReview ensures exists r :: RunningOn(runs', r, id) {
      var r :| RunningOn(runs, r, id);
      assert RunningOn(runs', r, id);
    }
    forall row | row in audit ensures CompletionTrue(runs', row) {
      assert CompletionTrue(runs, row);
    }
  }

  lemma ProgressKeepsSound(text: Text, db: Db, claimId: string, runId: string, owner: string, n: nat)
    requires DbSound(text, db)
    requires claimId in db.claims && runId in db.runs && db.runs[runId].status == Running
    requires n < |ORDER| && Steps(db.audit, runId) == ORDER[..n]
    ensures var after := RecordProgress(db, claimId, runId, owner, ORDER[n]).value;
            DbSound(text, after) && Steps(after.audit, runId) == ORDER[..n + 1]
  {
    var row := AuditRow(claimId, owner, ReviewProgress(runId, ORDER[n]));
    var run := UpdateRun(db.runs[runId], Running, At(ORDER[n]), None, None, false);
    ProgressKeepsRuns(db.runs, db.audit, runId, claimId, owner, n);
    ProgressKeepsReviews(db.claims, db.runs, db.audit, runId, run);
    MoreRowsStayTrue(db.runs[runId := run], db.audit, row);
    RowKeepsHistory(db.claims, db.audit, row);
    assert RecordProgress(db, claimId, runId, owner, ORDER[n])
        == Ok(Db(db.claims, db.documents, db.runs[runId := run], db.runLog, db.desk, db.audit + [row]));
  }

  /** Settling the running run of a claim and moving the claim out of review. */
  lemma SettleKeepsReviews(claims: Claims, runs: Runs, claimId: string, runId: string, run: ReviewRun, target: ClaimStatus)
    requires ReviewsExclusive(claims, runs) && RunningOn(runs, runId, claimId)
    requires run.status != Running && target != UnderReview
    ensures claimId in claims
    ensures ReviewsExclusive(WithStatus(claims, claimId, target), runs[runId := run])
  {
    var runs' := runs[runId := run];
    assert forall r, id :: RunningOn(runs', r, id) ==> r != runId && RunningOn(runs, r, id);
    forall id | id in claims && id != claimId && claims[id].status == UnderReview
      ensures exists r :: RunningOn(runs', r, id)
    {
      var r :| RunningOn(runs, r, id);
      assert RunningOn(runs', r, id);
    }
  }

  /** Settling a run that was still running touches no settled run. */
  lemma SettleKeepsRuns(claims: Claims, runs: Runs, audit: Trail, runId: string, run: ReviewRun)
    requires RunsSound(runs, audit) && CompletionsTrue(runs, audit) && ResultsSound(claims, runs) && RunsLinked(claims, runs)
    requires runId in runs && runs[runId].status == Running
    requires run.claimId == runs[runId].claimId && run.owner == runs[runId].owner
    requires RunShape(run, Steps(audit, runId))
    requires run.result.Some? && run.claimId in claims ==> ReviewShape(run.result.value, claims[run.claimId].subject)
    ensures RunsSound(runs[runId := run], audit)
    ensures CompletionsTrue(runs[runId := run], audit)
    ensures ResultsSound(claims, runs[runId := run])
    ensures RunsLinked(claims, runs[runId := run])
  {
    forall row | row in audit ensures CompletionTrue(runs[runId := run], row) {
      assert CompletionTrue(runs, row);
    }
  }

  lemma CompletionIsExplained(audit: Trail, id: string, runId: string, actor: string, review: Review)
    requires Explained(audit, id, UnderReview) && review.missing == {}
    ensures var target := if review.evidence == Insufficient then NeedsInformation else ReadyForDecision;
            Explained(audit + [AuditRow(id, actor, StatusChanged(UnderReview, target))]
                            + [AuditRow(id, actor, ReviewCompleted(runId, review.evidence, review.missing))], id, target)
  {
    var target := if review.evidence == Insufficient then NeedsInformation else ReadyForDecision;
    var first := AuditRow(id, actor, StatusChanged(UnderReview, target));
    OneMoreRow(audit, first, id);
    OneMoreRow(audit + [first], AuditRow(id, actor, ReviewCompleted(runId, review.evidence, review.missing)), id);
  }

  /** The status row of a completed review and its completion row together. */
  lemma CompletionKeepsHistory(claims: Claims, audit: Trail, claimId: string, runId: string, actor: string, review: Review)
    requires HistorySound(claims, audit) && claimId in claims && claims[claimId].status == UnderReview
    requires review.missing == {}
    ensures var target := if review.evidence == Insufficient then NeedsInformation else ReadyForDecision;
            HistorySound(WithStatus(claims, claimId, target),
                         audit + [AuditRow(claimId, actor, StatusChanged(UnderReview, target))]
                               + [AuditRow(claimId, actor, ReviewCompleted(runId, review.evidence, review.missing))])
  {
    var target := if review.evidence == Insufficient then NeedsInformation else ReadyForDecision;
    var first := AuditRow(claimId, actor, StatusChanged(UnderReview, target));
    var second := AuditRow(claimId, actor, ReviewCompleted(runId, review.evidence, review.missing));
    assert Explained(audit, claimId, UnderReview);
    CompletionIsExplained(audit, claimId, runId, actor, review);
    TwoRowsConcernTheirClaim(audit, first, second);
    HistoryOfOthers(claims, WithStatus(claims, claimId, target), audit, audit + [first] + [second], claimId);
  }

  /** What completing writes when the claim is under review and nothing is missing. */
  lemma CompletionWrites(db: Db, claimId: string, runId: string, owner: string, review: Review)
    requires Owned(db, claimId, owner) && db.claims[claimId].status == UnderReview && runId in db.runs
    requires review.missing == {}
    ensures var target := if review.evidence == Insufficient then NeedsInformation else ReadyForDecision;
            var run := UpdateRun(db.runs[runId], RunSucceeded, AtCompleted, Some(review), None, true);
            CompleteReview(db, claimId, runId, owner, review) ==
            Ok(Db(WithStatus(db.claims, claimId, target), db.documents, db.runs[runId := run], db.runLog, db.desk,
                  db.audit + [AuditRow(claimId, owner, StatusChanged(UnderReview, target))]
                           + [AuditRow(claimId, owner, ReviewCompleted(runId, review.evidence, review.missing))]))
  {
  }

  lemma CompleteKeepsSound(text: Text, db: Db, claimId: string, runId: string, owner: string, review: Review)
    requires DbSound(text, db) && RunningOn(db.runs, runId, claimId)
    requires Owned(db, claimId, owner)
    requires Steps(db.audit, runId) == ORDER && ReviewShape(review, db.claims[claimId].subject)
    ensures var after := CompleteReview(db, claimId, runId, owner, review);
            after.Ok? && DbSound(text, after.value)
  {
    var target := if review.evidence == Insufficient then NeedsInformation else ReadyForDecision;
    var first := AuditRow(claimId, owner, StatusChanged(UnderReview, target));
    var second := AuditRow(claimId, owner, ReviewCompleted(runId, review.evidence, review.missing));
    var run := UpdateRun(db.runs[runId], RunSucceeded, AtCompleted, Some(review), None, true);
    var claims := WithStatus(db.claims, claimId, target);
    assert claims[claimId].subject == db.claims[claimId].subject;
    CompletionWrites(db, claimId, runId, owner, review);
    CompletionKeepsHistory(db.claims, db.audit, claimId, runId, owner, review);
    PastIntakeMovesFreely(text, db, claimId, target);
    SettleKeepsReviews(db.claims, db.runs, claimId, runId, run, target);
    CompletionRowsKeepRuns(claims, db.runs, db.audit, first, second, run);
  }

  lemma CompletionRowsKeepRuns(claims: Claims, runs: Runs, audit: Trail, first: AuditRow, second: AuditRow, run: ReviewRun)
    requires RunsSound(runs, audit) && CompletionsTrue(runs, audit) && ResultsSound(claims, runs) && RunsLinked(claims, runs)
    requires first.event.StatusChanged? && second.event.ReviewCompleted? && first.claimId == second.claimId
    requires var runId := second.event.runId;
             && runId in runs && runs[runId].status == Running
             && run == UpdateRun(runs[runId], RunSucceeded, AtCompleted, run.result, None, true)
             && Steps(audit, runId) == ORDER
             && run.claimId == second.claimId
    requires run.result.Some? && (run.claimId in claims ==> ReviewShape(run.result.value, claims[run.claimId].subject))
    requires second.event.evidence == run.result.value.evidence && second.event.missing == run.result.value.missing
    ensures var runs', audit' := runs[second.event.runId := run], audit + [first] + [second];
            RunsSound(runs', audit') && CompletionsTrue(runs', audit') && ResultsSound(claims, runs') && RunsLinked(claims, runs')
  {
    var runId := second.event.runId;
    SettleKeepsRuns(claims, runs, audit, runId, run);
    TwoRowsConcernTheirClaim(audit, first, second);
    SameStepsKeepRuns(runs[runId := run], audit, audit + [first] + [second]);
    MoreRowsStayTrue(runs[runId := run], audit, first);
    MoreRowsStayTrue(runs[runId := run], audit + [first], second);
  }

  lemma FailKeepsSound(text: Text, db: Db, claimId: string, runId: string, owner: string, error: string)
    requires DbSound(text, db) && RunningOn(db.runs, runId, claimId)
    requires Owned(db, claimId, owner)
    ensures var after := FailReview(db, claimId, runId, owner, error);
            after.Ok? && DbSound(text, after.value)
  {
    var row := AuditRow(claimId, owner, StatusChanged(UnderReview, ReadyForReview));
    var run := UpdateRun(db.runs[runId], RunFailed, AtFailed, None, Some(error), true);
    var claims := WithStatus(db.claims, claimId, ReadyForReview);
    assert RunShape(db.runs[runId], Steps(db.audit, runId));
    MoveKeepsHistory(db.claims, db.audit, claimId, ReadyForReview, owner);
    StatusLeavesTheRest(text, db, claimId, ReadyForReview);
    SettleKeepsReviews(db.claims, db.runs, claimId, runId, run, ReadyForReview);
    SettleKeepsRuns(claims, db.runs, db.audit, runId, run);
    RowConcernsItsClaim(db.audit, row);
    SameStepsKeepRuns(db.runs[runId := run], db.audit, db.audit + [row]);
    MoreRowsStayTrue(db.runs[runId := run], db.audit, row);
    var failed := Db(claims, db.documents, db.runs[runId := run], db.runLog, db.desk, db.audit + [row]);
    IncidentalRowKeepsSound(text, failed, claimId, owner, ReviewFailed(runId, error));
  }

  /** What failing writes for a run whose claim is under review. */
  lemma FailureWrites(db: Db, claimId: string, runId: string, owner: string, error: string)
    requires Owned(db, claimId, owner) && db.claims[claimId].status == UnderReview && runId in db.runs
    ensures var run := db.runs[runId].(status := RunFailed, position := AtFailed, error := Some(error), completedAt := true);
            var after := FailReview(db, claimId, runId, owner, error);
            && after.Ok?
            && after.value.runs == db.runs[runId := run]
            && after.value.claims == WithStatus(db.claims, claimId, ReadyForReview)
            && after.value.desk == db.desk
            && Steps(after.value.audit, runId) == Steps(db.audit, runId)
  {
    var first := AuditRow(claimId, owner, StatusChanged(UnderReview, ReadyForReview));
    TwoRowsConcernTheirClaim(db.audit, first, AuditRow(claimId, owner, ReviewFailed(runId, error)));
  }
}
