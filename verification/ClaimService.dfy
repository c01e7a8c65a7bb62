/** The service calls as they run: each method updates the tables in place. */
module ClaimServices {
  import opened Results
  import opened ClaimRules
  import opened ActionDesk
  import opened ClaimStore
  import opened ClaimHistory
  import opened ClaimInvariants
  import opened ReviewRuns

  /** A call either commits what the transaction says or is refused and leaves the tables alone. */
  predicate Settles(before: Db, spec: Result<Db>, after: Db, refusal: Option<Refusal>) {
    match spec
    case Ok(db) => after == db && refusal == None
    case Refused(why) => after == before && refusal == Some(why)
  }

  class ClaimService {
    const text: Text

    var claims: Claims
    var documents: seq<Document>
    var runs: Runs
    var runLog: seq<string>
    var actions: map<string, ProposedAction>
    var approvals: seq<Approval>
    var audit: Trail

    function Tables(): Db
      reads this
    {
      Db(claims, documents, runs, runLog, Desk(actions, approvals), audit)
    }

    ghost predicate Valid()
      reads this
    {
      DbSound(text, Tables())
    }

    constructor (text: Text)
      ensures Tables() == EMPTY_DB && this.text == text && Valid()
    {
      this.text := text;
      claims, documents, runs, runLog := map[], [], map[], [];
      actions, approvals, audit := map[], [], [];
    }

    method AddAuditEvent(claimId: string, actor: string, event: Event)
      modifies this`audit
      ensures Tables() == Audited(old(Tables()), claimId, actor, event)
    {
      audit := audit + [AuditRow(claimId, actor, event)];
    }

    method Transition(claimId: string, target: ClaimStatus, actor: string) returns (refusal: Option<Refusal>)
      requires claimId in claims
      modifies this`claims, this`audit
      ensures Settles(old(Tables()), TransitionClaim(old(Tables()), claimId, target, actor), Tables(), refusal)
    {
      var claim := claims[claimId];
      if claim.status == target {
        return None;
      }
      if target !in Targets(claim.status) || target in OUT_OF_SCOPE_STATES {
        return Some(StateConflict);
      }
      claims := claims[claimId := claim.(status := target)];
      AddAuditEvent(claimId, actor, StatusChanged(claim.status, target));
      return None;
    }

    method Create(claimId: string, owner: string, subject: Subject) returns (refusal: Option<Refusal>)
      modifies this
      ensures Settles(old(Tables()), CreateClaim(old(Tables()), claimId, owner, subject), Tables(), refusal)
      ensures old(Valid()) ==> Valid()
    {
      if claimId in claims {
        return Some(DuplicateId);
      }
      claims := claims[claimId := Claim(owner, subject, Draft)];
      AddAuditEvent(claimId, owner, ClaimCreated);
      refusal := None;
      if old(Valid()) { CreateKeepsSound(text, old(Tables()), claimId, owner, subject); }
    }

    method RegisterDocument(claimId: string, owner: string, documentType: string, extractionStatus: string)
      returns (refusal: Option<Refusal>)
      modifies this
      ensures Settles(old(Tables()), AddDocument(old(Tables()), claimId, owner, documentType, extractionStatus), Tables(), refusal)
      ensures old(Valid()) ==> Valid()
    {
      if claimId !in claims || claims[claimId].owner != owner {
        return Some(NotFound);
      }
      documents := documents + [Document(claimId, documentType, extractionStatus)];
      AddAuditEvent(claimId, owner, DocumentRegistered(documentType));
      refusal := None;
      if old(Valid()) { AddDocumentKeepsSound(text, old(Tables()), claimId, owner, documentType, extractionStatus); }
    }

    method Submit(claimId: string, owner: string) returns (refusal: Option<Refusal>)
      modifies this
      ensures Settles(old(Tables()), SubmitClaim(text, old(Tables()), claimId, owner), Tables(), refusal)
      ensures old(Valid()) ==> Valid()
    {
      if claimId !in claims || claims[claimId].owner != owner {
        return Some(NotFound);
      }
      var claim := claims[claimId];
      if claim.status != Draft && claim.status != DocumentsPending && claim.status != NeedsInformation {
        return Some(StateConflict);
      }
      var present := CompletedTypes(text, DocumentsOf(documents, claimId));
      var missing := RequiredDocuments(text, claim.subject) - present;
      refusal := Transition(claimId, if missing != {} then DocumentsPending else ReadyForReview, owner);
      if refusal == None {
        AddAuditEvent(claimId, owner, SubmissionValidated(missing));
        if old(Valid()) { SubmitKeepsSound(text, old(Tables()), claimId, owner); }
      }
    }

    /** ORDER BY created_at DESC LIMIT 1: walk the runs back from the newest. */
    method FetchLatestRun(claimId: string, owner: string) returns (latest: Option<ReviewRun>)
      ensures latest == LatestRun(Tables(), runLog, claimId, owner)
    {
      var i := |runLog|;
      assert runLog[..i] == runLog;
      while i > 0
        invariant 0 <= i <= |runLog|
        invariant LatestRun(Tables(), runLog, claimId, owner) == LatestRun(Tables(), runLog[..i], claimId, owner)
      {
        i := i - 1;
        assert runLog[..i + 1][..i] == runLog[..i];
        var id := runLog[i];
        if id in runs && runs[id].claimId == claimId && runs[id].owner == owner {
          return Some(runs[id]);
        }
      }
      return None;
    }

    method StartReviewRun(claimId: string, owner: string, runId: string) returns (refusal: Option<Refusal>)
      modifies this
      ensures Settles(old(Tables()), StartReview(old(Tables()), claimId, owner, runId), Tables(), refusal)
      ensures old(Valid()) ==> Valid()
    {
      if claimId !in claims || claims[claimId].owner != owner {
        return Some(NotFound);
      }
      if claims[claimId].status != ReadyForReview {
        return Some(StateConflict);
      }
      var latest := FetchLatestRun(claimId, owner);
      if latest.Some? && (latest.value.status == Queued || latest.value.status == Running) {
        return Some(StateConflict);
      }
      if runId in runs {
        return Some(DuplicateId);
      }
      refusal := Transition(claimId, UnderReview, owner);
      if refusal == None {
        runs := runs[runId := ReviewRun(claimId, owner, Running, At(LoadClaim), None, None, false)];
        runLog := runLog + [runId];
        AddAuditEvent(claimId, owner, ReviewStarted(runId));
        if old(Valid()) { StartKeepsSound(text, old(Tables()), claimId, owner, runId); }
      }
    }

    method UpdateReviewRun(runId: string, status: RunStatus, position: Position,
                           result: Option<Review>, error: Option<string>, complete: bool)
      requires runId in runs
      modifies this`runs
      ensures Tables() == old(Tables()).(runs :=
                old(runs)[runId := UpdateRun(old(runs)[runId], status, position, result, error, complete)])
    {
      var run := runs[runId].(error := error, status := status, position := position);
      if result.Some? {
        run := run.(result := result);
      }
      if complete {
        run := run.(completedAt := true);
      }
      runs := runs[runId := run];
    }

    method RecordReviewProgress(claimId: string, runId: string, owner: string, step: ReviewStep)
      returns (refusal: Option<Refusal>)
      modifies this
      ensures Settles(old(Tables()), RecordProgress(old(Tables()), claimId, runId, owner, step), Tables(), refusal)
    {
      if runId !in runs || claimId !in claims {
        return Some(NotFound);
      }
      UpdateReviewRun(runId, Running, At(step), None, None, false);
      AddAuditEvent(claimId, owner, ReviewProgress(runId, step));
      return None;
    }

    /** The status is moved first; a run row that is not there undoes that again. */
    method CompleteReviewRun(claimId: string, runId: string, owner: string, review: Review)
      returns (refusal: Option<Refusal>)
      modifies this
      ensures Settles(old(Tables()), CompleteReview(old(Tables()), claimId, runId, owner, review), Tables(), refusal)
    {
      if claimId !in claims || claims[claimId].owner != owner {
        return Some(NotFound);
      }
      var claimsBefore, auditBefore := claims, audit;
      var target := if review.missing != {} || review.evidence == Insufficient then NeedsInformation else ReadyForDecision;
      refusal := Transition(claimId, target, owner);
      if refusal == None && runId !in runs {
        claims, audit := claimsBefore, auditBefore;
        return Some(NotFound);
      }
      if refusal == None {
        UpdateReviewRun(runId, RunSucceeded, AtCompleted, Some(review), None, true);
        AddAuditEvent(claimId, owner, ReviewCompleted(runId, review.evidence, review.missing));
      }
    }

    method FailReviewRun(claimId: string, runId: string, owner: string, error: string)
      returns (refusal: Option<Refusal>)
      modifies this
      ensures Settles(old(Tables()), FailReview(old(Tables()), claimId, runId, owner, error), Tables(), refusal)
    {
      if runId !in runs || claimId !in claims {
        return Some(NotFound);
      }
      if claims[claimId].owner == owner && claims[claimId].status == UnderReview {
        refusal := Transition(claimId, ReadyForReview, owner);
      }
      UpdateReviewRun(runId, RunFailed, AtFailed, None, Some(error), true);
      AddAuditEvent(claimId, owner, ReviewFailed(runId, error));
      return None;
    }

    method SelectNextStep(claimId: string, owner: string, choice: NextStep) returns (refusal: Option<Refusal>)
      modifies this
      ensures Settles(old(Tables()), ApplyNextStep(old(Tables()), claimId, owner, choice), Tables(), refusal)
      ensures old(Valid()) ==> Valid()
    {
      if claimId !in claims || claims[claimId].owner != owner {
        return Some(NotFound);
      }
      if claims[claimId].status != ReadyForDecision {
        return Some(StateConflict);
      }
      refusal := Transition(claimId, if choice == RequestInformation then NeedsInformation else ExpertReviewRequired, owner);
      if refusal == None {
        AddAuditEvent(claimId, owner, NextStepSelected(choice));
        if old(Valid()) { NextStepKeepsSound(text, old(Tables()), claimId, owner, choice); }
      }
    }

    method RecordHumanDecision(claimId: string, owner: string, decision: Decision) returns (refusal: Option<Refusal>)
      modifies this
      ensures Settles(old(Tables()), ApplyDecision(old(Tables()), claimId, owner, decision), Tables(), refusal)
      ensures old(Valid()) ==> Valid()
    {
      if claimId !in claims || claims[claimId].owner != owner {
        return Some(NotFound);
      }
      if claims[claimId].status != ReadyForDecision {
        return Some(StateConflict);
      }
      refusal := Transition(claimId, if decision == Approve then Approved else Rejected, owner);
      if refusal == None {
        AddAuditEvent(claimId, owner, HumanDecision(decision));
        if old(Valid()) { DecisionKeepsSound(text, old(Tables()), claimId, owner, decision); }
      }
    }

    method CreateProposedAction(claimId: string, owner: string, actionId: string, actionType: ActionType)
      returns (refusal: Option<Refusal>)
      modifies this
      ensures Settles(old(Tables()), ProposeAction(old(Tables()), claimId, owner, actionId, actionType), Tables(), refusal)
      ensures old(Valid()) ==> Valid()
    {
      if claimId !in claims || claims[claimId].owner != owner {
        return Some(NotFound);
      }
      if actionId in actions {
        return Some(DuplicateId);
      }
      actions := actions[actionId := ProposedAction(claimId, actionType, InitialStatus(actionType), owner, None)];
      AddAuditEvent(claimId, owner, ActionProposed(actionId));
      refusal := None;
      if old(Valid()) { ProposeActionKeepsSound(text, old(Tables()), claimId, owner, actionId, actionType); }
    }

    method RecordActionDecision(actionId: string, actor: string, status: ActionStatus)
      requires actionId in actions
      modifies this`actions, this`approvals
      ensures Tables() == old(Tables()).(desk := RecordDecision(old(Tables()).desk, actionId, actor, status))
    {
      approvals := approvals + [Approval(actionId, actor, status)];
      var approver := None;
      if status == ActionApproved {
        approver := Some(actor);
      }
      actions := actions[actionId := actions[actionId].(status := status, approvedBy := approver)];
    }

    method DecideProposedAction(claimId: string, actionId: string, owner: string, decision: Decision)
      returns (refusal: Option<Refusal>)
      modifies this
      ensures Settles(old(Tables()), DecideAction(old(Tables()), claimId, actionId, owner, decision), Tables(), refusal)
      ensures old(Valid()) ==> Valid()
    {
      if claimId !in claims || claims[claimId].owner != owner {
        return Some(NotFound);
      }
      if actionId !in actions || actions[actionId].claimId != claimId {
        return Some(NotFound);
      }
      var next := ValidateDecision(actions[actionId].status, decision);
      match next {
        case Refused(why) => return Some(why);
        case Ok(status) =>
          RecordActionDecision(actionId, owner, status);
          AddAuditEvent(claimId, owner, ActionDecided(actionId, status));
          refusal := None;
          if old(Valid()) { DecideActionKeepsSound(text, old(Tables()), claimId, actionId, owner, decision); }
      }
    }
  }
}
