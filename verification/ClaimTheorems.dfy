/** The guarantees of the claim service, as statements about reachable states and steps. */
module ClaimTheorems {
  import opened Results
  import opened ClaimRules
  import opened ActionDesk
  import opened ClaimStore
  import opened ClaimHistory
  import opened ClaimInvariants
  import opened ReviewRuns
  import opened ReviewSystem
  import opened ReviewTheorems

  // ---------------------------------------------------------------- what a step can change

  /** A user request moves no claim but its own, and only out of an intake or decision status. */
  lemma ServeStatusCause(text: Text, db: Db, r: Request, id: string)
    requires Serve(text, db, r).Ok? && id in db.claims
    ensures id in Serve(text, db, r).value.claims
    ensures Serve(text, db, r).value.claims[id].status != db.claims[id].status ==>
              && r.claimId == id
              && db.claims[id].status in {Draft, DocumentsPending, NeedsInformation, ReadyForDecision}
  {
  }

  lemma CompletionStatusCause(text: Text, sys: System, runId: string, id: string)
    requires Sound(text, sys) && id in sys.db.claims
    requires runId in sys.tasks && sys.tasks[runId].place.Completing?
    ensures id in CompleteStep(sys, runId).db.claims
    ensures CompleteStep(sys, runId).db.claims[id].status != sys.db.claims[id].status ==> RunningOn(sys.db.runs, runId, id)
    ensures RunningOn(sys.db.runs, runId, id) ==> sys.db.claims[id].status == UnderReview
  {
    var task := sys.tasks[runId];
    assert TaskSound(text, sys.db, runId, task);
    LiveTaskReviewsItsClaim(text, sys.db, runId, task);
    assert task.missing == {};
    CompletionWrites(sys.db, task.claimId, runId, task.owner, ReviewOf(task));
  }

  lemma FailureStatusCause(text: Text, sys: System, runId: string, id: string)
    requires Sound(text, sys) && id in sys.db.claims
    requires runId in sys.tasks && sys.tasks[runId].place.Failing?
    ensures id in FailStep(sys, runId).db.claims
    ensures FailStep(sys, runId).db.claims[id].status != sys.db.claims[id].status ==> RunningOn(sys.db.runs, runId, id)
    ensures RunningOn(sys.db.runs, runId, id) ==> sys.db.claims[id].status == UnderReview
  {
    var task := sys.tasks[runId];
    assert TaskSound(text, sys.db, runId, task);
    LiveTaskReviewsItsClaim(text, sys.db, runId, task);
    FailureWrites(sys.db, task.claimId, runId, task.owner, task.place.error);
  }

  /** The other executor steps write no claim. */
  lemma QuietStatusCause(text: Text, sys: System, a: Act)
    requires a.Record? || a.Raise? || a.Die?
    ensures Next(text, sys, a).db.claims == sys.db.claims
  {
  }

  /** An executor moves its claim only when it settles its run. */
  lemma ExecutorStatusCause(text: Text, sys: System, a: Act, id: string)
    requires Sound(text, sys) && id in sys.db.claims
    requires !a.Ask? && !a.Start?
    ensures id in Next(text, sys, a).db.claims
    ensures Next(text, sys, a).db.claims[id].status != sys.db.claims[id].status ==>
              (a.Complete? || a.Fail?) && RunningOn(sys.db.runs, a.runId, id) && sys.db.claims[id].status == UnderReview
  {
    if a.Record? || a.Raise? || a.Die? {
      QuietStatusCause(text, sys, a);
    } else if Next(text, sys, a) != sys {
      if a.Work? {
        WorkKeeps(text, sys, a.runId, a.retrieved, a.actionId);
      } else if a.Complete? {
        CompletionStatusCause(text, sys, a.runId, id);
      } else {
        FailureStatusCause(text, sys, a.runId, id);
      }
    }
  }

  /** Every way a claim can change its status. */
  lemma StatusCause(text: Text, sys: System, a: Act, id: string)
    requires Sound(text, sys) && id in sys.db.claims
    ensures id in Next(text, sys, a).db.claims
    ensures var was, now := sys.db.claims[id].status, Next(text, sys, a).db.claims[id].status;
            was != now ==>
              || (a.Ask? && a.request.claimId == id && was in {Draft, DocumentsPending, NeedsInformation, ReadyForDecision})
              || (a.Start? && a.claimId == id && was == ReadyForReview)
              || ((a.Complete? || a.Fail?) && RunningOn(sys.db.runs, a.runId, id) && was == UnderReview)
  {
    if a.Ask? {
      if Serve(text, sys.db, a.request).Ok? { ServeStatusCause(text, sys.db, a.request, id); }
    } else if a.Start? {
      if StartReview(sys.db, a.claimId, a.owner, a.runId).Ok? { StartWrites(sys.db, a.claimId, a.owner, a.runId); }
    } else {
      ExecutorStatusCause(text, sys, a, id);
    }
  }

  /** The run a step writes to: a new one, or one that is running. */
  function Touched(sys: System, a: Act): Option<string> {
    match a
    case Start(_, _, runId) => if runId in sys.db.runs then None else Some(runId)
    case Record(runId) => if runId in sys.tasks && sys.tasks[runId].place.Recording? then Some(runId) else None
    case Complete(runId) => if runId in sys.tasks && sys.tasks[runId].place.Completing? then Some(runId) else None
    case Fail(runId) => if runId in sys.tasks && sys.tasks[runId].place.Failing? then Some(runId) else None
    case _ => None
  }

  lemma SettlingDisturbsItsRun(text: Text, sys: System, a: Act)
    requires Sound(text, sys) && Touched(sys, a).Some? && !a.Start?
    ensures Undisturbed(sys.db, Next(text, sys, a).db, Some(a.runId))
    ensures a.runId in sys.db.runs && sys.db.runs[a.runId].status == Running
  {
    if a.Record? {
      RecordDisturbsItsRun(text, sys, a.runId);
    } else if a.Complete? {
      CompleteDisturbsItsRun(text, sys, a.runId);
    } else {
      FailDisturbsItsRun(text, sys, a.runId);
    }
  }

  lemma StepDisturbsOneRun(text: Text, sys: System, a: Act)
    requires Sound(text, sys)
    ensures Undisturbed(sys.db, Next(text, sys, a).db, Touched(sys, a))
    ensures Touched(sys, a).Some? && Touched(sys, a).value in sys.db.runs ==>
              sys.db.runs[Touched(sys, a).value].status == Running
  {
    if Touched(sys, a).Some? && !a.Start? {
      SettlingDisturbsItsRun(text, sys, a);
    } else if a.Ask? && Serve(text, sys.db, a.request).Ok? {
      ServeLeavesRuns(text, sys.db, a.request);
    } else if a.Start? && StartReview(sys.db, a.claimId, a.owner, a.runId).Ok? {
      StartSpawnsSoundTask(text, sys.db, a.claimId, a.owner, a.runId);
    } else if a.Work? && a.runId in sys.tasks && sys.tasks[a.runId].place.Working? {
      WorkKeeps(text, sys, a.runId, a.retrieved, a.actionId);
    }
  }

  lemma RecordDisturbsItsRun(text: Text, sys: System, runId: string)
    requires Sound(text, sys)
    requires runId in sys.tasks && sys.tasks[runId].place.Recording?
    ensures Undisturbed(sys.db, RecordStep(sys, runId).db, Some(runId))
    ensures runId in sys.db.runs && sys.db.runs[runId].status == Running
  {
    var task := sys.tasks[runId];
    assert TaskSound(text, sys.db, runId, task);
    ProgressWrites(sys.db, task.claimId, runId, task.owner, ORDER[task.place.n]);
  }

  lemma CompleteDisturbsItsRun(text: Text, sys: System, runId: string)
    requires Sound(text, sys)
    requires runId in sys.tasks && sys.tasks[runId].place.Completing?
    ensures Undisturbed(sys.db, CompleteStep(sys, runId).db, Some(runId))
    ensures runId in sys.db.runs && sys.db.runs[runId].status == Running
  {
    var task := sys.tasks[runId];
    assert TaskSound(text, sys.db, runId, task);
    LiveTaskReviewsItsClaim(text, sys.db, runId, task);
    CompletionLeavesOtherRuns(sys.db, task.claimId, runId, task.owner, ReviewOf(task));
  }

  lemma FailDisturbsItsRun(text: Text, sys: System, runId: string)
    requires Sound(text, sys)
    requires runId in sys.tasks && sys.tasks[runId].place.Failing?
    ensures Undisturbed(sys.db, FailStep(sys, runId).db, Some(runId))
    ensures runId in sys.db.runs && sys.db.runs[runId].status == Running
  {
    var task := sys.tasks[runId];
    assert TaskSound(text, sys.db, runId, task);
    LiveTaskReviewsItsClaim(text, sys.db, runId, task);
    FailureLeavesOtherRuns(sys.db, task.claimId, runId, task.owner, task.place.error);
  }

  lemma {:induction false} RunKeepsSound(text: Text, sys: System, acts: seq<Act>)
    requires Sound(text, sys)
    ensures Sound(text, Run(text, sys, acts))
    decreases |acts|
  {
    if acts != [] {
      var before := acts[..|acts| - 1];
      RunKeepsSound(text, sys, before);
      NextKeepsSound(text, Run(text, sys, before), acts[|acts| - 1]);
    }
  }

  // ---------------------------------------------------------------- reviews

  /** In every reachable state: under review if and only if exactly one run is running. */
  lemma UnderReviewIffOneRunning(text: Text, acts: seq<Act>, claimId: string)
    requires claimId in Run(text, IDLE, acts).db.claims
    ensures var db := Run(text, IDLE, acts).db;
            db.claims[claimId].status == UnderReview <==>
            exists run :: RunningOn(db.runs, run, claimId) &&
                          forall other :: RunningOn(db.runs, other, claimId) ==> other == run
  {
    EveryRunIsSound(text, acts);
    var db := Run(text, IDLE, acts).db;
    assert ReviewsExclusive(db.claims, db.runs);
  }

  /** Only the complete or the fail of the running run takes a claim out of review. */
  lemma OnlyItsRunEndsTheReview(text: Text, acts: seq<Act>, a: Act, claimId: string)
    requires claimId in Run(text, IDLE, acts).db.claims
    requires Run(text, IDLE, acts).db.claims[claimId].status == UnderReview
    requires claimId in Next(text, Run(text, IDLE, acts), a).db.claims
    requires Next(text, Run(text, IDLE, acts), a).db.claims[claimId].status != UnderReview
    ensures (a.Complete? || a.Fail?) && RunningOn(Run(text, IDLE, acts).db.runs, a.runId, claimId)
  {
    EveryRunIsSound(text, acts);
    StatusCause(text, Run(text, IDLE, acts), a, claimId);
  }

  /** Once settled, a run's row and its recorded steps never change again. */
  lemma {:induction false} SettledRunIsFinal(text: Text, sys: System, later: seq<Act>, runId: string)
    requires Sound(text, sys)
    requires runId in sys.db.runs && sys.db.runs[runId].completedAt
    ensures var db := Run(text, sys, later).db;
            && runId in db.runs && db.runs[runId] == sys.db.runs[runId]
            && Steps(db.audit, runId) == Steps(sys.db.audit, runId)
    decreases |later|
  {
    if later != [] {
      var before := later[..|later| - 1];
      var mid := Run(text, sys, before);
      SettledRunIsFinal(text, sys, before, runId);
      RunKeepsSound(text, sys, before);
      assert RunShape(mid.db.runs[runId], Steps(mid.db.audit, runId));
      StepDisturbsOneRun(text, mid, later[|later| - 1]);
    }
  }

  /** What is on record for a run, in every reachable state. */
  lemma RecordedRun(text: Text, acts: seq<Act>, runId: string)
    requires runId in Run(text, IDLE, acts).db.runs
    ensures var db := Run(text, IDLE, acts).db;
            var run := db.runs[runId];
            && Steps(db.audit, runId) <= ORDER
            && (run.status == RunSucceeded ==> Steps(db.audit, runId) == ORDER)
            && (run.completedAt <==> run.status == RunSucceeded || run.status == RunFailed)
            && (run.result.Some? <==> run.status == RunSucceeded)
            && (run.result.Some? ==> run.result.value.missing == {} && run.result.value.proposed == None)
  {
    EveryRunIsSound(text, acts);
    var db := Run(text, IDLE, acts).db;
    assert RunShape(db.runs[runId], Steps(db.audit, runId));
  }

  // ---------------------------------------------------------------- documents

  /** Past intake nothing required is missing, however many documents came and went by. */
  lemma NothingMissingPastIntake(text: Text, acts: seq<Act>, claimId: string)
    requires claimId in Run(text, IDLE, acts).db.claims
    requires !Intake(Run(text, IDLE, acts).db.claims[claimId].status)
    ensures var db := Run(text, IDLE, acts).db; MissingFor(text, claimId, db.claims[claimId], db.documents) == {}
  {
    EveryRunIsSound(text, acts);
  }

  /** Submitting again from NEEDS_INFORMATION always reaches READY_FOR_REVIEW. */
  lemma ResubmissionIsReady(text: Text, acts: seq<Act>, claimId: string, owner: string)
    requires var db := Run(text, IDLE, acts).db;
             Owned(db, claimId, owner) && db.claims[claimId].status == NeedsInformation
    ensures var after := SubmitClaim(text, Run(text, IDLE, acts).db, claimId, owner);
            after.Ok? && after.value.claims[claimId].status == ReadyForReview
  {
    NothingMissingPastIntake(text, acts, claimId);
  }

  // ---------------------------------------------------------------- decisions

  predicate Absorbing(status: ClaimStatus) {
    status == Approved || status == Rejected || status == ExpertReviewRequired
  }

  /** A decided or escalated claim keeps its status for good; the table's edges out of it are never taken. */
  lemma {:induction false} DecidedStatusIsFinal(text: Text, sys: System, later: seq<Act>, claimId: string)
    requires Sound(text, sys)
    requires claimId in sys.db.claims && Absorbing(sys.db.claims[claimId].status)
    ensures var claims := Run(text, sys, later).db.claims;
            claimId in claims && claims[claimId].status == sys.db.claims[claimId].status
    decreases |later|
  {
    if later != [] {
      var before := later[..|later| - 1];
      DecidedStatusIsFinal(text, sys, before, claimId);
      RunKeepsSound(text, sys, before);
      StatusCause(text, Run(text, sys, before), later[|later| - 1], claimId);
    }
  }

  predicate DecisionRow(row: AuditRow, claimId: string) {
    row.claimId == claimId && row.event.HumanDecision?
  }

  /** A succeeded run of the claim whose stored result is sufficient and misses nothing. */
  predicate SucceededWell(run: ReviewRun, claimId: string) {
    && run.claimId == claimId && run.status == RunSucceeded
    && run.result.Some? && run.result.value.evidence == Sufficient && run.result.value.missing == {}
  }

  /**
   An approved or rejected claim has exactly one decision row, of the matching kind. A
   completed review of the same claim stands before it: sufficient evidence and nothing
   missing, in the row as in the stored result, its run succeeded, and the product is known.
   */
  lemma DecisionRestsOnReview(text: Text, acts: seq<Act>, claimId: string) returns (at: nat, review: nat)
    requires claimId in Run(text, IDLE, acts).db.claims
    requires Run(text, IDLE, acts).db.claims[claimId].status in {Approved, Rejected}
    ensures var db := Run(text, IDLE, acts).db;
            && review < at < |db.audit|
            && DecisionRow(db.audit[at], claimId)
            && db.audit[at].event == HumanDecision(if db.claims[claimId].status == Approved then Approve else Reject)
            && (forall i :: 0 <= i < |db.audit| && DecisionRow(db.audit[i], claimId) ==> i == at)
            && IsGoodReview(db.audit[review], claimId)
            && db.audit[review].event.runId in db.runs
            && SucceededWell(db.runs[db.audit[review].event.runId], claimId)
            && db.claims[claimId].subject.productLine != Unknown
  {
    EveryRunIsSound(text, acts);
    var db := Run(text, IDLE, acts).db;
    assert Explained(db.audit, claimId, db.claims[claimId].status);
    at, review := DecisionHasItsReview(db.audit, claimId);
    DecisionBeforeIsNone(db.audit, claimId, at);
    var row := db.audit[review];
    assert row in db.audit;
    assert CompletionTrue(db.runs, row);
    assert ReviewShape(db.runs[row.event.runId].result.value, db.claims[claimId].subject);
  }

  /** With one decision in all, none stands before the last one. */
  lemma {:induction false} DecisionBeforeIsNone(audit: Trail, claimId: string, at: nat)
    requires |Decisions(audit, claimId)| == 1
    requires at < |audit| && DecisionRow(audit[at], claimId)
    requires forall i :: at < i < |audit| ==> !DecisionRow(audit[i], claimId)
    ensures forall i :: 0 <= i < at ==> !DecisionRow(audit[i], claimId)
  {
    var before := audit[..|audit| - 1];
    if at == |audit| - 1 {
      NoDecisionNoRow(before, claimId);
    } else {
      DecisionBeforeIsNone(before, claimId, at);
    }
  }

  /** No claim that is not decided has a decision row. */
  lemma DecisionRowMeansDecided(text: Text, acts: seq<Act>, claimId: string)
    requires claimId in Run(text, IDLE, acts).db.claims
    requires Run(text, IDLE, acts).db.claims[claimId].status !in {Approved, Rejected}
    ensures var audit := Run(text, IDLE, acts).db.audit;
            forall i :: 0 <= i < |audit| ==> !DecisionRow(audit[i], claimId)
  {
    EveryRunIsSound(text, acts);
    var db := Run(text, IDLE, acts).db;
    assert Explained(db.audit, claimId, db.claims[claimId].status);
    NoDecisionNoRow(db.audit, claimId);
  }

  // ---------------------------------------------------------------- the audit trail

  /** A trail that replays starts every change where the one before it ended, along an allowed edge. */
  lemma {:induction false} ReplayIsAChain(audit: Trail, claimId: string)
    requires Replay(audit, claimId).Some?
    ensures forall j :: 0 <= j < |audit| && audit[j].claimId == claimId && audit[j].event.StatusChanged? ==>
              && Replay(audit[..j], claimId) == Some(audit[j].event.was)
              && audit[j].event.was != audit[j].event.now
              && TransitionAllowed(audit[j].event.was, audit[j].event.now)
  {
    if audit != [] {
      var before := audit[..|audit| - 1];
      ReplayIsAChain(before, claimId);
      forall j | 0 <= j < |audit| && audit[j].claimId == claimId && audit[j].event.StatusChanged?
        ensures Replay(audit[..j], claimId) == Some(audit[j].event.was)
        ensures audit[j].event.was != audit[j].event.now
        ensures TransitionAllowed(audit[j].event.was, audit[j].event.now)
      {
        if j < |before| {
          assert before[j] == audit[j] && before[..j] == audit[..j];
        } else {
          assert before == audit[..j];
        }
      }
    }
  }

  /** Replaying a claim's status changes from Draft yields its stored status, and never CLOSED. */
  lemma TrailYieldsTheStatus(text: Text, acts: seq<Act>, claimId: string)
    requires claimId in Run(text, IDLE, acts).db.claims
    ensures var db := Run(text, IDLE, acts).db;
            Replay(db.audit, claimId) == Some(db.claims[claimId].status) && db.claims[claimId].status != Closed
  {
    EveryRunIsSound(text, acts);
    var db := Run(text, IDLE, acts).db;
    assert Explained(db.audit, claimId, db.claims[claimId].status);
  }

  /** Every action is decided at most once and never reaches an execution status. */
  lemma ActionsAreDecidedOnce(text: Text, acts: seq<Act>, actionId: string)
    requires actionId in Run(text, IDLE, acts).db.desk.actions
    ensures var desk := Run(text, IDLE, acts).db.desk;
            && DecidedAtMostOnce(desk, actionId)
            && desk.actions[actionId].status in {WaitingForApproval, ActionApproved, ActionRejected}
            && (desk.actions[actionId].approvedBy.Some? <==> desk.actions[actionId].status == ActionApproved)
  {
    EveryRunIsSound(text, acts);
  }
}
