/** The audit trail and the approvals tell the same story about every action. */
module ActionAudit {
  import opened Results
  import opened ClaimRules
  import opened ActionDesk
  import opened ClaimStore
  import opened ClaimInvariants
  import opened ReviewSystem
  import opened ReviewTheorems
  import opened ClaimTheorems

  /** The decisions the trail records for an action, oldest first. */
  function AuditedDecisions(audit: Trail, actionId: string): seq<ActionStatus> {
    if audit == [] then []
    else
      var before, e := AuditedDecisions(audit[..|audit| - 1], actionId), audit[|audit| - 1].event;
      before + (if e.ActionDecided? && e.actionId == actionId then [e.status] else [])
  }

  ghost predicate Matched(db: Db) {
    forall id :: AuditedDecisions(db.audit, id) == DecisionsOn(db.desk.approvals, id)
  }

  lemma OneMoreEvent(audit: Trail, row: AuditRow, id: string)
    ensures AuditedDecisions(audit + [row], id) == AuditedDecisions(audit, id) +
            (if row.event.ActionDecided? && row.event.actionId == id then [row.event.status] else [])
  {
    assert (audit + [row])[..|audit|] == audit;
  }

  /** Any other row, whatever else is written with it, leaves the two in step. */
  lemma OtherRowKeepsMatched(db: Db, db': Db, row: AuditRow)
    requires Matched(db) && !row.event.ActionDecided?
    requires db'.audit == db.audit + [row] && db'.desk.approvals == db.desk.approvals
    ensures Matched(db')
  {
    forall id ensures AuditedDecisions(db'.audit, id) == DecisionsOn(db'.desk.approvals, id) {
      OneMoreEvent(db.audit, row, id);
    }
  }

  lemma TransitionKeepsMatched(db: Db, claimId: string, target: ClaimStatus, actor: string)
    requires Matched(db) && claimId in db.claims && TransitionClaim(db, claimId, target, actor).Ok?
    ensures Matched(TransitionClaim(db, claimId, target, actor).value)
    ensures TransitionClaim(db, claimId, target, actor).value.desk == db.desk
  {
    var was := db.claims[claimId].status;
    if was != target {
      OtherRowKeepsMatched(db, TransitionClaim(db, claimId, target, actor).value,
                           AuditRow(claimId, actor, StatusChanged(was, target)));
    }
  }

  lemma DecidingKeepsMatched(db: Db, claimId: string, actionId: string, owner: string, decision: Decision)
    requires Matched(db) && DecideAction(db, claimId, actionId, owner, decision).Ok?
    ensures Matched(DecideAction(db, claimId, actionId, owner, decision).value)
  {
    var after := DecideAction(db, claimId, actionId, owner, decision).value;
    var status := ValidateDecision(db.desk.actions[actionId].status, decision).value;
    forall id ensures AuditedDecisions(after.audit, id) == DecisionsOn(after.desk.approvals, id) {
      OneMoreEvent(db.audit, AuditRow(claimId, owner, ActionDecided(actionId, status)), id);
      OneMoreDecision(db.desk.approvals, Approval(actionId, owner, status), id);
    }
  }

  /** A status change followed by one more row. */
  lemma MoveAndRowKeepMatched(
      db: Db, db': Db, claimId: string, target: ClaimStatus, actor: string, e: Event)
    requires Matched(db) && claimId in db.claims && TransitionClaim(db, claimId, target, actor).Ok?
    requires !e.ActionDecided?
    requires db'.audit == TransitionClaim(db, claimId, target, actor).value.audit + [AuditRow(claimId, actor, e)]
    requires db'.desk == db.desk
    ensures Matched(db')
  {
    TransitionKeepsMatched(db, claimId, target, actor);
    OtherRowKeepsMatched(TransitionClaim(db, claimId, target, actor).value, db', AuditRow(claimId, actor, e));
  }

  lemma ServeKeepsMatched(text: Text, db: Db, r: Request)
    requires Matched(db) && Serve(text, db, r).Ok?
    ensures Matched(Serve(text, db, r).value)
  {
    var after := Serve(text, db, r).value;
    if r.DecideOne? {
      DecidingKeepsMatched(db, r.claimId, r.actionId, r.owner, r.decision);
    } else if r.Submit? {
      var missing := MissingFor(text, r.claimId, db.claims[r.claimId], db.documents);
      MoveAndRowKeepMatched(db, after, r.claimId, if missing != {} then DocumentsPending else ReadyForReview, r.owner,
                            SubmissionValidated(missing));
    } else if r.ChooseNext? {
      MoveAndRowKeepMatched(db, after, r.claimId,
                            if r.choice == RequestInformation then NeedsInformation else ExpertReviewRequired, r.owner,
                            NextStepSelected(r.choice));
    } else if r.DecideClaim? {
      MoveAndRowKeepMatched(db, after, r.claimId, if r.decision == Approve then Approved else Rejected, r.owner,
                            HumanDecision(r.decision));
    } else {
      OtherRowKeepsMatched(db, after, after.audit[|db.audit|]);
    }
  }

  lemma StartKeepsMatched(db: Db, claimId: string, owner: string, runId: string)
    requires Matched(db) && StartReview(db, claimId, owner, runId).Ok?
    ensures Matched(StartReview(db, claimId, owner, runId).value)
  {
    MoveAndRowKeepMatched(db, StartReview(db, claimId, owner, runId).value, claimId, UnderReview, owner,
                          ReviewStarted(runId));
  }

  lemma RecordingKeepsMatched(db: Db, claimId: string, runId: string, owner: string, step: ReviewStep)
    requires Matched(db) && RecordProgress(db, claimId, runId, owner, step).Ok?
    ensures Matched(RecordProgress(db, claimId, runId, owner, step).value)
  {
    OtherRowKeepsMatched(db, RecordProgress(db, claimId, runId, owner, step).value,
                         AuditRow(claimId, owner, ReviewProgress(runId, step)));
  }

  lemma CompletingKeepsMatched(db: Db, claimId: string, runId: string, owner: string, review: Review)
    requires Matched(db) && CompleteReview(db, claimId, runId, owner, review).Ok?
    ensures Matched(CompleteReview(db, claimId, runId, owner, review).value)
  {
    var target := if review.missing != {} || review.evidence == Insufficient then NeedsInformation else ReadyForDecision;
    MoveAndRowKeepMatched(db, CompleteReview(db, claimId, runId, owner, review).value, claimId, target, owner,
                          ReviewCompleted(runId, review.evidence, review.missing));
  }

  lemma FailingKeepsMatched(db: Db, claimId: string, runId: string, owner: string, error: string)
    requires Matched(db) && FailReview(db, claimId, runId, owner, error).Ok?
    ensures Matched(FailReview(db, claimId, runId, owner, error).value)
  {
    var after := FailReview(db, claimId, runId, owner, error).value;
    if Owned(db, claimId, owner) && db.claims[claimId].status == UnderReview {
      MoveAndRowKeepMatched(db, after, claimId, ReadyForReview, owner, ReviewFailed(runId, error));
    } else {
      OtherRowKeepsMatched(db, after, AuditRow(claimId, owner, ReviewFailed(runId, error)));
    }
  }

  lemma ProposingKeepsMatched(db: Db, claimId: string, owner: string, actionId: string, actionType: ActionType)
    requires Matched(db) && ProposeAction(db, claimId, owner, actionId, actionType).Ok?
    ensures Matched(ProposeAction(db, claimId, owner, actionId, actionType).value)
  {
    OtherRowKeepsMatched(db, ProposeAction(db, claimId, owner, actionId, actionType).value,
                         AuditRow(claimId, owner, ActionProposed(actionId)));
  }

  lemma ExecutorKeepsMatched(text: Text, sys: System, a: Act)
    requires Matched(sys.db) && !a.Ask? && !a.Start?
    requires Next(text, sys, a).db != sys.db
    ensures Matched(Next(text, sys, a).db)
  {
    var task := sys.tasks[a.runId];
    if a.Record? {
      RecordingKeepsMatched(sys.db, task.claimId, a.runId, task.owner, ORDER[task.place.n]);
    } else if a.Work? {
      ProposingKeepsMatched(sys.db, task.claimId, task.owner, a.actionId, FollowUpAction(task.missing).value);
    } else if a.Complete? {
      CompletingKeepsMatched(sys.db, task.claimId, a.runId, task.owner, Review(task.missing, task.evidence, task.proposed));
    } else {
      FailingKeepsMatched(sys.db, task.claimId, a.runId, task.owner, task.place.error);
    }
  }

  lemma {:induction false} EveryRunIsMatched(text: Text, acts: seq<Act>)
    ensures Matched(Run(text, IDLE, acts).db)
    decreases |acts|
  {
    if acts != [] {
      var before, a := Run(text, IDLE, acts[..|acts| - 1]), acts[|acts| - 1];
      EveryRunIsMatched(text, acts[..|acts| - 1]);
      if a.Ask? && Serve(text, before.db, a.request).Ok? {
        ServeKeepsMatched(text, before.db, a.request);
      } else if a.Start? && StartReview(before.db, a.claimId, a.owner, a.runId).Ok? {
        StartKeepsMatched(before.db, a.claimId, a.owner, a.runId);
      } else if Next(text, before, a).db != before.db {
        ExecutorKeepsMatched(text, before, a);
      }
    }
  }

  /** In every reachable state a decided action has exactly one audit row, of its own status; a waiting one has none. */
  lemma DecisionsAreAudited(text: Text, acts: seq<Act>, actionId: string)
    requires actionId in Run(text, IDLE, acts).db.desk.actions
    ensures var db := Run(text, IDLE, acts).db;
            var status := db.desk.actions[actionId].status;
            AuditedDecisions(db.audit, actionId) == if status == WaitingForApproval then [] else [status]
  {
    EveryRunIsMatched(text, acts);
    ActionsAreDecidedOnce(text, acts, actionId);
  }
}
