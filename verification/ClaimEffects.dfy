/**
 What each service call does, said in terms of the tables alone: when it is accepted,
 which status the claim is left in, and which rows are written.
 */
module ClaimEffects {
  import opened Results
  import opened ClaimRules
  import opened ActionDesk
  import opened ClaimStore
  import opened ClaimHistory
  import opened ClaimInvariants
  import opened ReviewSystem
  import opened ReviewTheorems
  import opened DocumentNeeds

  /** The claim is there and belongs to the user. */
  predicate OwnedBy(db: Db, claimId: string, owner: string) {
    claimId in db.claims && db.claims[claimId].owner == owner
  }

  /** The claim moves, nothing else about any claim changes, and these rows are added to the trail. */
  predicate Moves(db: Db, after: Db, claimId: string, status: ClaimStatus, rows: seq<AuditRow>)
    requires claimId in db.claims
  {
    && after.claims == db.claims[claimId := db.claims[claimId].(status := status)]
    && after.audit == db.audit + rows
    && after.documents == db.documents && after.desk == db.desk
  }

  // ---------------------------------------------------------------- submission

  /**
   A submission is accepted from its owner in the three intake statuses only. It lands in
   READY_FOR_REVIEW exactly when every needed document is there, else in DOCUMENTS_PENDING.
   */
  lemma SubmissionLands(text: Text, db: Db, claimId: string, owner: string)
    ensures SubmitClaim(text, db, claimId, owner).Ok? <==>
            OwnedBy(db, claimId, owner) && db.claims[claimId].status in {Draft, DocumentsPending, NeedsInformation}
    ensures SubmitClaim(text, db, claimId, owner).Ok? ==>
              var claim, after := db.claims[claimId], SubmitClaim(text, db, claimId, owner).value;
              && claimId in after.claims
              && after.claims[claimId].status ==
                 (if HasAllDocuments(text, db.documents, claimId, claim.subject) then ReadyForReview else DocumentsPending)
              && after.claims == db.claims[claimId := claim.(status := after.claims[claimId].status)]
              && after.documents == db.documents && after.runs == db.runs && after.desk == db.desk
  {
    if OwnedBy(db, claimId, owner) {
      NothingMissingIff(text, claimId, db.claims[claimId], db.documents);
      var complete := HasAllDocuments(text, db.documents, claimId, db.claims[claimId].subject);
      SubmissionMoves(text, db, claimId, owner, complete);
    }
  }

  lemma SubmissionMoves(text: Text, db: Db, claimId: string, owner: string, complete: bool)
    requires OwnedBy(db, claimId, owner)
    requires complete <==> MissingFor(text, claimId, db.claims[claimId], db.documents) == {}
    ensures SubmitClaim(text, db, claimId, owner).Ok? <==>
            db.claims[claimId].status in {Draft, DocumentsPending, NeedsInformation}
    ensures SubmitClaim(text, db, claimId, owner).Ok? ==>
              var claim, after := db.claims[claimId], SubmitClaim(text, db, claimId, owner).value;
              && after.claims == db.claims[claimId := claim.(status := if complete then ReadyForReview else DocumentsPending)]
              && after.documents == db.documents && after.runs == db.runs && after.desk == db.desk
  {
    IntakeMoves(db, claimId, owner, if complete then ReadyForReview else DocumentsPending);
  }

  /** From an intake status both targets of a submission can be reached, or are held already. */
  lemma IntakeMoves(db: Db, claimId: string, owner: string, target: ClaimStatus)
    requires claimId in db.claims && target in {ReadyForReview, DocumentsPending}
    ensures db.claims[claimId].status in {Draft, DocumentsPending, NeedsInformation} ==>
              var moved := TransitionClaim(db, claimId, target, owner);
              && moved.Ok? && moved.value.claims == db.claims[claimId := db.claims[claimId].(status := target)]
              && moved.value.documents == db.documents && moved.value.runs == db.runs && moved.value.desk == db.desk
  {
  }

  /** The audit rows of a submission: the change, if there is one, and what was missing. */
  lemma SubmissionIsAudited(text: Text, db: Db, claimId: string, owner: string)
    requires SubmitClaim(text, db, claimId, owner).Ok?
    ensures var after := SubmitClaim(text, db, claimId, owner).value;
            && claimId in db.claims && claimId in after.claims
            && var was, now := db.claims[claimId].status, after.claims[claimId].status;
               exists missing :: after.audit == db.audit
                 + (if was == now then [] else [AuditRow(claimId, owner, StatusChanged(was, now))])
                 + [AuditRow(claimId, owner, SubmissionValidated(missing))]
  {
    var after := SubmitClaim(text, db, claimId, owner).value;
    var was, now := db.claims[claimId].status, after.claims[claimId].status;
    var missing := MissingFor(text, claimId, db.claims[claimId], db.documents);
    assert after.audit == db.audit
      + (if was == now then [] else [AuditRow(claimId, owner, StatusChanged(was, now))])
      + [AuditRow(claimId, owner, SubmissionValidated(missing))];
  }

  /** In every reachable state a claim past intake has all its documents. */
  lemma ClaimPastIntakeHasItsDocuments(text: Text, acts: seq<Act>, claimId: string)
    requires var db := Run(text, IDLE, acts).db;
             claimId in db.claims && db.claims[claimId].status !in {Draft, DocumentsPending}
    ensures var db := Run(text, IDLE, acts).db;
            HasAllDocuments(text, db.documents, claimId, db.claims[claimId].subject)
  {
    EveryRunIsSound(text, acts);
    var db := Run(text, IDLE, acts).db;
    assert DocumentsComplete(text, db.claims, db.documents);
    NothingMissingIff(text, claimId, db.claims[claimId], db.documents);
  }

  // ---------------------------------------------------------------- review

  /** A start is accepted for the owner of a ready claim with no open run, under an unused run id. */
  lemma StartLands(db: Db, claimId: string, owner: string, runId: string)
    requires OwnedBy(db, claimId, owner) && db.claims[claimId].status == ReadyForReview
    requires runId !in db.runs
    requires forall run :: run in db.runs && db.runs[run].claimId == claimId ==> db.runs[run].status in {RunSucceeded, RunFailed}
    ensures StartReview(db, claimId, owner, runId).Ok?
    ensures var after := StartReview(db, claimId, owner, runId).value;
            && Moves(db, after, claimId, UnderReview,
                     [AuditRow(claimId, owner, StatusChanged(ReadyForReview, UnderReview)),
                      AuditRow(claimId, owner, ReviewStarted(runId))])
            && after.runs == db.runs[runId := ReviewRun(claimId, owner, Running, At(LoadClaim), None, None, false)]
            && after.runLog == db.runLog + [runId]
  {
    LatestIsNewest(db, db.runLog, claimId, owner);
  }

  predicate RunOf(db: Db, claimId: string, owner: string, runId: string) {
    runId in db.runs && db.runs[runId].claimId == claimId && db.runs[runId].owner == owner
  }

  /** The latest run: the last id of the log that is a run of this claim and owner. */
  lemma {:induction false} LatestIsNewest(db: Db, log: seq<string>, claimId: string, owner: string)
    ensures LatestRun(db, log, claimId, owner) == None <==> forall i :: 0 <= i < |log| ==> !RunOf(db, claimId, owner, log[i])
    ensures forall i :: 0 <= i < |log| && RunOf(db, claimId, owner, log[i])
                        && (forall j :: i < j < |log| ==> !RunOf(db, claimId, owner, log[j])) ==>
              LatestRun(db, log, claimId, owner) == Some(db.runs[log[i]])
    ensures LatestRun(db, log, claimId, owner).Some? ==>
              exists i :: 0 <= i < |log| && RunOf(db, claimId, owner, log[i])
                          && LatestRun(db, log, claimId, owner) == Some(db.runs[log[i]])
  {
    if log != [] {
      var k := |log| - 1;
      LatestIsNewest(db, log[..k], claimId, owner);
      if RunOf(db, claimId, owner, log[k]) {
        assert LatestRun(db, log, claimId, owner) == Some(db.runs[log[k]]);
      } else {
        assert LatestRun(db, log, claimId, owner) == LatestRun(db, log[..k], claimId, owner);
        assert forall i :: 0 <= i < k ==> log[..k][i] == log[i];
      }
    }
  }

  /** Completing a review of a claim under review: the verdict decides where the claim goes. */
  lemma CompletionLands(db: Db, claimId: string, runId: string, owner: string, review: Review)
    requires OwnedBy(db, claimId, owner) && db.claims[claimId].status == UnderReview && runId in db.runs
    ensures CompleteReview(db, claimId, runId, owner, review).Ok?
    ensures var after := CompleteReview(db, claimId, runId, owner, review).value;
            var status := if review.evidence == Sufficient && review.missing == {} then ReadyForDecision else NeedsInformation;
            var run := db.runs[runId];
            && Moves(db, after, claimId, status,
                     [AuditRow(claimId, owner, StatusChanged(UnderReview, status)),
                      AuditRow(claimId, owner, ReviewCompleted(runId, review.evidence, review.missing))])
            && after.runs == db.runs[runId := ReviewRun(run.claimId, run.owner, RunSucceeded, AtCompleted, Some(review), None, true)]
  {
  }

  /** Failing a review of a claim under review makes it ready again. */
  lemma FailureLands(db: Db, claimId: string, runId: string, owner: string, error: string)
    requires OwnedBy(db, claimId, owner) && db.claims[claimId].status == UnderReview && runId in db.runs
    ensures FailReview(db, claimId, runId, owner, error).Ok?
    ensures var after := FailReview(db, claimId, runId, owner, error).value;
            var run := db.runs[runId];
            && Moves(db, after, claimId, ReadyForReview,
                     [AuditRow(claimId, owner, StatusChanged(UnderReview, ReadyForReview)),
                      AuditRow(claimId, owner, ReviewFailed(runId, error))])
            && after.runs == db.runs[runId := ReviewRun(run.claimId, run.owner, RunFailed, AtFailed, run.result, Some(error), true)]
  {
  }

  // ---------------------------------------------------------------- next step and decision

  /** A next step is accepted from the owner of a decision-ready claim only; each choice has its status. */
  lemma NextStepLands(db: Db, claimId: string, owner: string, choice: NextStep)
    ensures ApplyNextStep(db, claimId, owner, choice).Ok? <==>
            OwnedBy(db, claimId, owner) && db.claims[claimId].status == ReadyForDecision
    ensures ApplyNextStep(db, claimId, owner, choice).Ok? ==>
              var after := ApplyNextStep(db, claimId, owner, choice).value;
              var status := match choice case RequestInformation => NeedsInformation case EscalateToExpert => ExpertReviewRequired;
              && after.runs == db.runs
              && Moves(db, after, claimId, status,
                       [AuditRow(claimId, owner, StatusChanged(ReadyForDecision, status)),
                        AuditRow(claimId, owner, NextStepSelected(choice))])
  {
  }

  /** A human decision is accepted from the owner of a decision-ready claim only; approve approves, reject rejects. */
  lemma HumanDecisionLands(db: Db, claimId: string, owner: string, decision: Decision)
    ensures ApplyDecision(db, claimId, owner, decision).Ok? <==>
            OwnedBy(db, claimId, owner) && db.claims[claimId].status == ReadyForDecision
    ensures ApplyDecision(db, claimId, owner, decision).Ok? ==>
              var after := ApplyDecision(db, claimId, owner, decision).value;
              var status := match decision case Approve => Approved case Reject => Rejected;
              && after.runs == db.runs
              && Moves(db, after, claimId, status,
                       [AuditRow(claimId, owner, StatusChanged(ReadyForDecision, status)),
                        AuditRow(claimId, owner, HumanDecision(decision))])
  {
  }

  // ---------------------------------------------------------------- claims, documents, actions

  lemma CreationLands(db: Db, claimId: string, owner: string, subject: Subject)
    ensures CreateClaim(db, claimId, owner, subject).Ok? <==> claimId !in db.claims
    ensures claimId !in db.claims ==>
              CreateClaim(db, claimId, owner, subject).value ==
              db.(claims := db.claims[claimId := Claim(owner, subject, Draft)],
                  audit := db.audit + [AuditRow(claimId, owner, ClaimCreated)])
  {
  }

  lemma RegistrationLands(db: Db, claimId: string, owner: string, documentType: string, extractionStatus: string)
    ensures AddDocument(db, claimId, owner, documentType, extractionStatus).Ok? <==> OwnedBy(db, claimId, owner)
    ensures OwnedBy(db, claimId, owner) ==>
              AddDocument(db, claimId, owner, documentType, extractionStatus).value ==
              db.(documents := db.documents + [Document(claimId, documentType, extractionStatus)],
                  audit := db.audit + [AuditRow(claimId, owner, DocumentRegistered(documentType))])
  {
  }

  /** A proposed action waits for approval, and nobody has approved it. */
  lemma ProposalLands(db: Db, claimId: string, owner: string, actionId: string, actionType: ActionType)
    ensures ProposeAction(db, claimId, owner, actionId, actionType).Ok? <==>
            OwnedBy(db, claimId, owner) && actionId !in db.desk.actions
    ensures ProposeAction(db, claimId, owner, actionId, actionType).Ok? ==>
              ProposeAction(db, claimId, owner, actionId, actionType).value ==
              db.(desk := db.desk.(actions := db.desk.actions[actionId :=
                            ProposedAction(claimId, actionType, WaitingForApproval, owner, None)]),
                  audit := db.audit + [AuditRow(claimId, owner, ActionProposed(actionId))])
  {
  }

  /** The claim's owner may decide an action of the claim, once. */
  predicate MayDecide(db: Db, claimId: string, actionId: string, owner: string) {
    && OwnedBy(db, claimId, owner)
    && actionId in db.desk.actions && db.desk.actions[actionId].claimId == claimId
    && db.desk.actions[actionId].status == WaitingForApproval
  }

  /** Approving stores APPROVED and the approver, rejecting REJECTED and none; approval row and audit row say the same. */
  lemma ActionDecisionLands(db: Db, claimId: string, actionId: string, owner: string, decision: Decision)
    ensures DecideAction(db, claimId, actionId, owner, decision).Ok? <==> MayDecide(db, claimId, actionId, owner)
    ensures MayDecide(db, claimId, actionId, owner) ==>
              var (status, approver) := match decision
                                        case Approve => (ActionApproved, Some(owner))
                                        case Reject => (ActionRejected, None);
              var action := db.desk.actions[actionId];
              DecideAction(db, claimId, actionId, owner, decision).value ==
              db.(desk := Desk(db.desk.actions[actionId := action.(status := status, approvedBy := approver)],
                               db.desk.approvals + [Approval(actionId, owner, status)]),
                  audit := db.audit + [AuditRow(claimId, owner, ActionDecided(actionId, status))])
  {
  }
}
