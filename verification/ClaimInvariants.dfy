/** What every service transaction keeps. */
module ClaimInvariants {
  import opened Results
  import opened ClaimRules
  import opened ActionDesk
  import opened ClaimStore
  import opened ClaimHistory

  const ORDER: seq<ReviewStep> := [
    LoadClaim, CheckDocuments, RetrievePolicyEvidence, VerifyPolicyEvidence, GenerateRecommendation, PrepareNextAction]

  /** A run belongs to a claim of the same owner. */
  ghost predicate RunsLinked(claims: Claims, runs: Runs) {
    forall run :: run in runs ==> runs[run].claimId in claims && claims[runs[run].claimId].owner == runs[run].owner
  }

  predicate RunningOn(runs: Runs, run: string, claimId: string) {
    run in runs && runs[run].status == Running && runs[run].claimId == claimId
  }

  /** A claim is under review exactly when one of its runs is running, and then one only. */
  ghost predicate ReviewsExclusive(claims: Claims, runs: Runs) {
    && (forall run, id :: RunningOn(runs, run, id) ==> id in claims && claims[id].status == UnderReview)
    && (forall a, b, id :: RunningOn(runs, a, id) && RunningOn(runs, b, id) ==> a == b)
    && (forall id :: id in claims && claims[id].status == UnderReview ==> exists run :: RunningOn(runs, run, id))
  }

  predicate Intake(status: ClaimStatus) {
    status == Draft || status == DocumentsPending
  }

  /** Past the intake statuses nothing required is missing. */
  ghost predicate DocumentsComplete(text: Text, claims: Claims, documents: seq<Document>) {
    forall id :: id in claims && !Intake(claims[id].status) ==> MissingFor(text, id, claims[id], documents) == {}
  }

  predicate RunShape(run: ReviewRun, steps: seq<ReviewStep>) {
    && steps <= ORDER
    && run.status != Queued
    && (run.status == RunSucceeded ==> steps == ORDER)
    && (run.completedAt <==> run.status == RunSucceeded || run.status == RunFailed)
    && (run.result.Some? <==> run.status == RunSucceeded)
    && (run.error.Some? <==> run.status == RunFailed)
    && (run.status == Running ==> run.position == At(if steps == [] then LoadClaim else steps[|steps| - 1]))
    && (run.status == RunSucceeded ==> run.position == AtCompleted)
    && (run.status == RunFailed ==> run.position == AtFailed)
  }

  /** A stored review finds nothing missing, proposes nothing, and is sufficient only for a known product. */
  predicate ReviewShape(review: Review, subject: Subject) {
    && review.missing == {}
    && review.proposed == None
    && (review.evidence == Sufficient ==> subject.productLine != Unknown)
  }

  ghost predicate RunsSound(runs: Runs, audit: Trail) {
    && (forall run :: run in runs ==> RunShape(runs[run], Steps(audit, run)))
    && (forall run :: run !in runs ==> Steps(audit, run) == [])
  }

  ghost predicate ResultsSound(claims: Claims, runs: Runs) {
    forall run :: run in runs && runs[run].result.Some? && runs[run].claimId in claims ==>
      ReviewShape(runs[run].result.value, claims[runs[run].claimId].subject)
  }

  /** A completion row tells what its run stores. */
  predicate CompletionTrue(runs: Runs, row: AuditRow) {
    row.event.ReviewCompleted? ==>
      && row.event.runId in runs
      && runs[row.event.runId].status == RunSucceeded
      && runs[row.event.runId].claimId == row.claimId
      && runs[row.event.runId].result.Some?
      && runs[row.event.runId].result.value.missing == row.event.missing
      && runs[row.event.runId].result.value.evidence == row.event.evidence
  }

  ghost predicate CompletionsTrue(runs: Runs, audit: Trail) {
    forall row :: row in audit ==> CompletionTrue(runs, row)
  }

  predicate Reviewed(status: ClaimStatus) {
    status == ReadyForDecision || status == ExpertReviewRequired || status == Approved || status == Rejected
  }

  function ExpectedDecisions(status: ClaimStatus): seq<Decision> {
    if status == Approved then [Approve] else if status == Rejected then [Reject] else []
  }

  /** The trail of one claim explains its status. */
  predicate Explained(audit: Trail, id: string, status: ClaimStatus) {
    && status != Closed
    && Replay(audit, id) == Some(status)
    && Decisions(audit, id) == ExpectedDecisions(status)
    && DecidedOnReview(audit, id)
    && (Reviewed(status) ==> GoodReview(audit, id))
  }

  ghost predicate HistorySound(claims: Claims, audit: Trail) {
    && (forall id :: id in claims ==> Explained(audit, id, claims[id].status))
    && (forall id :: id !in claims ==> Explained(audit, id, Draft))
  }

  ghost predicate DbSound(text: Text, db: Db) {
    && RunsLinked(db.claims, db.runs)
    && ReviewsExclusive(db.claims, db.runs)
    && DocumentsComplete(text, db.claims, db.documents)
    && RunsSound(db.runs, db.audit)
    && ResultsSound(db.claims, db.runs)
    && CompletionsTrue(db.runs, db.audit)
    && HistorySound(db.claims, db.audit)
    && DeskSound(db.desk)
  }

  // ---------------------------------------------------------------- one table at a time

  /** A row that the readers of the trail skip. */
  predicate Incidental(e: Event) {
    !e.StatusChanged? && !e.ReviewProgress? && !e.ReviewCompleted? && !e.HumanDecision?
  }

  /** Rows about one claim leave every other claim explained. */
  lemma HistoryOfOthers(claims: Claims, claims': Claims, audit: Trail, audit': Trail, claimId: string)
    requires HistorySound(claims, audit)
    requires SameExcept(audit, audit', claimId)
    requires claims'.Keys == claims.Keys + {claimId}
    requires forall id :: id in claims && id != claimId ==> claims'[id] == claims[id]
    requires Explained(audit', claimId, claims'[claimId].status)
    ensures HistorySound(claims', audit')
  {
    forall id ensures Explained(audit', id, if id in claims' then claims'[id].status else Draft) {
      if id != claimId {
        assert Explained(audit, id, if id in claims then claims[id].status else Draft);
      }
    }
  }

  lemma SameStepsKeepRuns(runs: Runs, audit: Trail, audit': Trail)
    requires RunsSound(runs, audit) && SameSteps(audit, audit')
    ensures RunsSound(runs, audit')
  {
  }

  lemma MoreRowsStayTrue(runs: Runs, audit: Trail, row: AuditRow)
    requires CompletionsTrue(runs, audit) && CompletionTrue(runs, row)
    ensures CompletionsTrue(runs, audit + [row])
  {
  }

  /** A row that is neither a status change nor a decision keeps every trail explained. */
  lemma RowKeepsHistory(claims: Claims, audit: Trail, row: AuditRow)
    requires HistorySound(claims, audit) && row.claimId in claims
    requires !row.event.StatusChanged? && !row.event.HumanDecision?
    ensures HistorySound(claims, audit + [row])
  {
    RowConcernsItsClaim(audit, row);
    OneMoreRow(audit, row, row.claimId);
    assert Explained(audit, row.claimId, claims[row.claimId].status);
    HistoryOfOthers(claims, claims, audit, audit + [row], row.claimId);
  }

  lemma IncidentalRowKeepsSound(text: Text, db: Db, claimId: string, actor: string, e: Event)
    requires DbSound(text, db) && claimId in db.claims && Incidental(e)
    ensures DbSound(text, Audited(db, claimId, actor, e))
  {
    var row := AuditRow(claimId, actor, e);
    RowConcernsItsClaim(db.audit, row);
    RowKeepsHistory(db.claims, db.audit, row);
    SameStepsKeepRuns(db.runs, db.audit, db.audit + [row]);
    MoreRowsStayTrue(db.runs, db.audit, row);
  }

  function WithStatus(claims: Claims, claimId: string, status: ClaimStatus): Claims
    requires claimId in claims
  {
    claims[claimId := claims[claimId].(status := status)]
  }

  /** Owners, subjects and documents do not depend on the status. */
  lemma StatusLeavesTheRest(text: Text, db: Db, claimId: string, target: ClaimStatus)
    requires claimId in db.claims
    requires RunsLinked(db.claims, db.runs) && ResultsSound(db.claims, db.runs)
    requires DocumentsComplete(text, db.claims, db.documents)
    requires !Intake(target) ==> MissingFor(text, claimId, db.claims[claimId], db.documents) == {}
    ensures RunsLinked(WithStatus(db.claims, claimId, target), db.runs)
    ensures ResultsSound(WithStatus(db.claims, claimId, target), db.runs)
    ensures DocumentsComplete(text, WithStatus(db.claims, claimId, target), db.documents)
  {
  }

  /** Past intake nothing is missing, so any status suits the documents. */
  lemma PastIntakeMovesFreely(text: Text, db: Db, claimId: string, target: ClaimStatus)
    requires claimId in db.claims && !Intake(db.claims[claimId].status)
    requires RunsLinked(db.claims, db.runs) && ResultsSound(db.claims, db.runs)
    requires DocumentsComplete(text, db.claims, db.documents)
    ensures RunsLinked(WithStatus(db.claims, claimId, target), db.runs)
    ensures ResultsSound(WithStatus(db.claims, claimId, target), db.runs)
    ensures DocumentsComplete(text, WithStatus(db.claims, claimId, target), db.documents)
  {
    StatusLeavesTheRest(text, db, claimId, target);
  }

  lemma MoveKeepsReviews(claims: Claims, runs: Runs, claimId: string, target: ClaimStatus)
    requires ReviewsExclusive(claims, runs) && claimId in claims
    requires claims[claimId].status != UnderReview && target != UnderReview
    ensures ReviewsExclusive(WithStatus(claims, claimId, target), runs)
  {
  }

  /** A status change that is not a decision keeps every trail explained. */
  lemma MoveKeepsHistory(claims: Claims, audit: Trail, claimId: string, target: ClaimStatus, actor: string)
    requires HistorySound(claims, audit) && claimId in claims
    requires TransitionAllowed(claims[claimId].status, target) && claims[claimId].status != target
    requires target != Approved && target != Rejected
    requires Reviewed(target) ==> GoodReview(audit, claimId)
    ensures HistorySound(WithStatus(claims, claimId, target),
                         audit + [AuditRow(claimId, actor, StatusChanged(claims[claimId].status, target))])
  {
    var row := AuditRow(claimId, actor, StatusChanged(claims[claimId].status, target));
    RowConcernsItsClaim(audit, row);
    OneMoreRow(audit, row, claimId);
    assert Explained(audit, claimId, claims[claimId].status);
    HistoryOfOthers(claims, WithStatus(claims, claimId, target), audit, audit + [row], claimId);
  }

  /** A status change outside the review, to a status the documents allow. */
  lemma MoveKeepsSound(text: Text, db: Db, claimId: string, target: ClaimStatus, actor: string)
    requires DbSound(text, db) && claimId in db.claims
    requires TransitionClaim(db, claimId, target, actor).Ok?
    requires db.claims[claimId].status != UnderReview && target != UnderReview
    requires target != Approved && target != Rejected
    requires Reviewed(target) ==> GoodReview(db.audit, claimId)
    requires !Intake(target) ==> MissingFor(text, claimId, db.claims[claimId], db.documents) == {}
    ensures DbSound(text, TransitionClaim(db, claimId, target, actor).value)
  {
    var current := db.claims[claimId].status;
    if current != target {
      var row := AuditRow(claimId, actor, StatusChanged(current, target));
      MoveKeepsHistory(db.claims, db.audit, claimId, target, actor);
      StatusLeavesTheRest(text, db, claimId, target);
      MoveKeepsReviews(db.claims, db.runs, claimId, target);
      RowConcernsItsClaim(db.audit, row);
      SameStepsKeepRuns(db.runs, db.audit, db.audit + [row]);
      MoreRowsStayTrue(db.runs, db.audit, row);
    }
  }

  // ---------------------------------------------------------------- the service calls

  lemma CreateKeepsSound(text: Text, db: Db, claimId: string, owner: string, subject: Subject)
    requires DbSound(text, db) && CreateClaim(db, claimId, owner, subject).Ok?
    ensures DbSound(text, CreateClaim(db, claimId, owner, subject).value)
  {
    var inserted := db.(claims := db.claims[claimId := Claim(owner, subject, Draft)]);
    NewClaimKeepsHistory(db.claims, db.audit, claimId, inserted.claims[claimId]);
    NewClaimKeepsReviews(db.claims, db.runs, claimId, inserted.claims[claimId]);
    IncidentalRowKeepsSound(text, inserted, claimId, owner, ClaimCreated);
  }

  lemma NewClaimKeepsHistory(claims: Claims, audit: Trail, claimId: string, claim: Claim)
    requires HistorySound(claims, audit) && claimId !in claims && claim.status == Draft
    ensures HistorySound(claims[claimId := claim], audit)
  {
    assert Explained(audit, claimId, Draft);
  }

  lemma NewClaimKeepsReviews(claims: Claims, runs: Runs, claimId: string, claim: Claim)
    requires ReviewsExclusive(claims, runs) && RunsLinked(claims, runs) && ResultsSound(claims, runs)
    requires claimId !in claims && claim.status == Draft
    ensures ReviewsExclusive(claims[claimId := claim], runs)
    ensures RunsLinked(claims[claimId := claim], runs) && ResultsSound(claims[claimId := claim], runs)
  {
  }

  lemma OneMoreDocument(documents: seq<Document>, d: Document, claimId: string)
    ensures forall e :: e in DocumentsOf(documents, claimId) ==> e in DocumentsOf(documents + [d], claimId)
  {
    assert (documents + [d])[..|documents + [d]| - 1] == documents;
  }

  lemma AddDocumentKeepsSound(text: Text, db: Db, claimId: string, owner: string, documentType: string, extractionStatus: string)
    requires DbSound(text, db) && AddDocument(db, claimId, owner, documentType, extractionStatus).Ok?
    ensures DbSound(text, AddDocument(db, claimId, owner, documentType, extractionStatus).value)
  {
    var d := Document(claimId, documentType, extractionStatus);
    forall id | id in db.claims && !Intake(db.claims[id].status)
      ensures MissingFor(text, id, db.claims[id], db.documents + [d]) == {}
    {
      OneMoreDocument(db.documents, d, id);
      MissingShrinks(text, db.claims[id].subject, DocumentsOf(db.documents, id), DocumentsOf(db.documents + [d], id));
    }
    IncidentalRowKeepsSound(text, db.(documents := db.documents + [d]), claimId, owner, DocumentRegistered(documentType));
  }

  lemma SubmitKeepsSound(text: Text, db: Db, claimId: string, owner: string)
    requires DbSound(text, db) && SubmitClaim(text, db, claimId, owner).Ok?
    ensures DbSound(text, SubmitClaim(text, db, claimId, owner).value)
  {
    var missing := MissingFor(text, claimId, db.claims[claimId], db.documents);
    SubmitMoves(text, db, claimId, owner, missing);
    var target := if missing != {} then DocumentsPending else ReadyForReview;
    MoveKeepsSound(text, db, claimId, target, owner);
    var moved := TransitionClaim(db, claimId, target, owner).value;
    IncidentalRowKeepsSound(text, moved, claimId, owner, SubmissionValidated(missing));
  }

  lemma SubmitMoves(text: Text, db: Db, claimId: string, owner: string, missing: set<string>)
    requires SubmitClaim(text, db, claimId, owner).Ok?
    requires missing == MissingFor(text, claimId, db.claims[claimId], db.documents)
    ensures Owned(db, claimId, owner) && db.claims[claimId].status != UnderReview
    ensures var moved := TransitionClaim(db, claimId, if missing != {} then DocumentsPending else ReadyForReview, owner);
            moved.Ok? && claimId in moved.value.claims &&
            SubmitClaim(text, db, claimId, owner) ==
            Ok(Audited(moved.value, claimId, owner, SubmissionValidated(missing)))
  {
  }

  lemma NextStepKeepsSound(text: Text, db: Db, claimId: string, owner: string, choice: NextStep)
    requires DbSound(text, db) && ApplyNextStep(db, claimId, owner, choice).Ok?
    ensures DbSound(text, ApplyNextStep(db, claimId, owner, choice).value)
  {
    var target := if choice == RequestInformation then NeedsInformation else ExpertReviewRequired;
    assert MissingFor(text, claimId, db.claims[claimId], db.documents) == {};
    assert Explained(db.audit, claimId, db.claims[claimId].status);
    MoveKeepsSound(text, db, claimId, target, owner);
    IncidentalRowKeepsSound(text, TransitionClaim(db, claimId, target, owner).value, claimId, owner, NextStepSelected(choice));
  }

  lemma ProposeActionKeepsSound(text: Text, db: Db, claimId: string, owner: string, actionId: string, actionType: ActionType)
    requires DbSound(text, db) && ProposeAction(db, claimId, owner, actionId, actionType).Ok?
    ensures DbSound(text, ProposeAction(db, claimId, owner, actionId, actionType).value)
  {
    ProposeKeepsDeskSound(db.desk, actionId, claimId, actionType, owner);
    var desk := Propose(db.desk, actionId, claimId, actionType, owner).value;
    IncidentalRowKeepsSound(text, db.(desk := desk), claimId, owner, ActionProposed(actionId));
  }

  lemma DecideActionKeepsSound(text: Text, db: Db, claimId: string, actionId: string, owner: string, decision: Decision)
    requires DbSound(text, db) && DecideAction(db, claimId, actionId, owner, decision).Ok?
    ensures DbSound(text, DecideAction(db, claimId, actionId, owner, decision).value)
  {
    var status := ValidateDecision(db.desk.actions[actionId].status, decision).value;
    RecordKeepsDeskSound(db.desk, actionId, owner, status);
    var desk := Decide(db.desk, actionId, owner, decision).value;
    IncidentalRowKeepsSound(text, db.(desk := desk), claimId, owner, ActionDecided(actionId, status));
  }

  lemma DecisionIsExplained(audit: Trail, id: string, decision: Decision, actor: string)
    requires Explained(audit, id, ReadyForDecision)
    ensures var target := if decision == Approve then Approved else Rejected;
            Explained(audit + [AuditRow(id, actor, StatusChanged(ReadyForDecision, target))]
                            + [AuditRow(id, actor, HumanDecision(decision))], id, target)
  {
    var target := if decision == Approve then Approved else Rejected;
    var first := AuditRow(id, actor, StatusChanged(ReadyForDecision, target));
    OneMoreRow(audit, first, id);
    OneMoreRow(audit + [first], AuditRow(id, actor, HumanDecision(decision)), id);
  }

  /** A human decision: the status row and the decision row together. */
  lemma DecisionKeepsHistory(claims: Claims, audit: Trail, claimId: string, decision: Decision, actor: string)
    requires HistorySound(claims, audit) && claimId in claims && claims[claimId].status == ReadyForDecision
    ensures var target := if decision == Approve then Approved else Rejected;
            HistorySound(WithStatus(claims, claimId, target),
                         audit + [AuditRow(claimId, actor, StatusChanged(ReadyForDecision, target))]
                               + [AuditRow(claimId, actor, HumanDecision(decision))])
  {
    var target := if decision == Approve then Approved else Rejected;
    var first := AuditRow(claimId, actor, StatusChanged(ReadyForDecision, target));
    var second := AuditRow(claimId, actor, HumanDecision(decision));
    assert Explained(audit, claimId, ReadyForDecision);
    DecisionIsExplained(audit, claimId, decision, actor);
    TwoRowsConcernTheirClaim(audit, first, second);
    HistoryOfOthers(claims, WithStatus(claims, claimId, target), audit, audit + [first] + [second], claimId);
  }

  lemma DecisionKeepsSound(text: Text, db: Db, claimId: string, owner: string, decision: Decision)
    requires DbSound(text, db) && ApplyDecision(db, claimId, owner, decision).Ok?
    ensures DbSound(text, ApplyDecision(db, claimId, owner, decision).value)
  {
    var target := if decision == Approve then Approved else Rejected;
    var first := AuditRow(claimId, owner, StatusChanged(ReadyForDecision, target));
    var second := AuditRow(claimId, owner, HumanDecision(decision));
    DecisionWrites(db, claimId, owner, decision);
    DecisionKeepsHistory(db.claims, db.audit, claimId, decision, owner);
    PastIntakeMovesFreely(text, db, claimId, target);
    MoveKeepsReviews(db.claims, db.runs, claimId, target);
    TwoRowsKeepRuns(db.runs, db.audit, first, second);
  }

  lemma TwoRowsKeepRuns(runs: Runs, audit: Trail, first: AuditRow, second: AuditRow)
    requires RunsSound(runs, audit) && CompletionsTrue(runs, audit) && first.claimId == second.claimId
    requires first.event.StatusChanged? && second.event.HumanDecision?
    ensures RunsSound(runs, audit + [first] + [second]) && CompletionsTrue(runs, audit + [first] + [second])
  {
    TwoRowsConcernTheirClaim(audit, first, second);
    SameStepsKeepRuns(runs, audit, audit + [first] + [second]);
    MoreRowsStayTrue(runs, audit, first);
    MoreRowsStayTrue(runs, audit + [first], second);
  }

  lemma DecisionWrites(db: Db, claimId: string, owner: string, decision: Decision)
    requires ApplyDecision(db, claimId, owner, decision).Ok?
    ensures var target := if decision == Approve then Approved else Rejected;
            ApplyDecision(db, claimId, owner, decision) ==
            Ok(Db(WithStatus(db.claims, claimId, target), db.documents, db.runs, db.runLog, db.desk,
                  db.audit + [AuditRow(claimId, owner, StatusChanged(ReadyForDecision, target))]
                           + [AuditRow(claimId, owner, HumanDecision(decision))]))
    ensures Owned(db, claimId, owner) && db.claims[claimId].status == ReadyForDecision
  {
  }
}
