/**
 The claim tables as one value, and every service call as a transaction on it.
 A refused call has no effect.
 */
module ClaimStore {
  import opened Results
  import opened ClaimRules
  import opened ActionDesk

  datatype Claim = Claim(owner: string, subject: Subject, status: ClaimStatus)

  datatype ReviewStep =
    | LoadClaim
    | CheckDocuments
    | RetrievePolicyEvidence
    | VerifyPolicyEvidence
    | GenerateRecommendation
    | PrepareNextAction

  datatype RunStatus = Queued | Running | RunSucceeded | RunFailed

  datatype Position = At(step: ReviewStep) | AtCompleted | AtFailed

  datatype Review = Review(missing: set<string>, evidence: Evidence, proposed: Option<string>)

  datatype ReviewRun = ReviewRun(
    claimId: string,
    owner: string,
    status: RunStatus,
    position: Position,
    result: Option<Review>,
    error: Option<string>,
    completedAt: bool)

  datatype NextStep = RequestInformation | EscalateToExpert

  datatype Event =
    | ClaimCreated
    | StatusChanged(was: ClaimStatus, now: ClaimStatus)
    | SubmissionValidated(missing: set<string>)
    | ReviewStarted(runId: string)
    | ReviewProgress(runId: string, step: ReviewStep)
    | ReviewCompleted(runId: string, evidence: Evidence, missing: set<string>)
    | ReviewFailed(runId: string, error: string)
    | NextStepSelected(choice: NextStep)
    | HumanDecision(decision: Decision)
    | DocumentRegistered(documentType: string)
    | ActionProposed(actionId: string)
    | ActionDecided(actionId: string, status: ActionStatus)

  datatype AuditRow = AuditRow(claimId: string, actor: string, event: Event)

  type Claims = map<string, Claim>

  type Runs = map<string, ReviewRun>

  type Trail = seq<AuditRow>

  datatype Db = Db(
    claims: Claims,
    documents: seq<Document>,
    runs: Runs,
    runLog: seq<string>,
    desk: Desk,
    audit: Trail)

  const EMPTY_DB := Db(map[], [], map[], [], Desk(map[], []), [])

  predicate Owned(db: Db, claimId: string, owner: string) {
    claimId in db.claims && db.claims[claimId].owner == owner
  }

  function DocumentsOf(documents: seq<Document>, claimId: string): seq<Document> {
    if documents == [] then []
    else
      var last := documents[|documents| - 1];
      DocumentsOf(documents[..|documents| - 1], claimId) + (if last.claimId == claimId then [last] else [])
  }

  function MissingFor(text: Text, claimId: string, claim: Claim, documents: seq<Document>): set<string> {
    Missing(text, claim.subject, DocumentsOf(documents, claimId))
  }

  function Audited(db: Db, claimId: string, actor: string, event: Event): Db {
    db.(audit := db.audit + [AuditRow(claimId, actor, event)])
  }

  function TransitionClaim(db: Db, claimId: string, target: ClaimStatus, actor: string): Result<Db>
    requires claimId in db.claims
  {
    var current := db.claims[claimId].status;
    if current == target then Ok(db)
    else if !TransitionAllowed(current, target) then Refused(StateConflict)
    else
      var moved := db.(claims := db.claims[claimId := db.claims[claimId].(status := target)]);
      Ok(Audited(moved, claimId, actor, StatusChanged(current, target)))
  }

  function CreateClaim(db: Db, claimId: string, owner: string, subject: Subject): Result<Db> {
    if claimId in db.claims then Refused(DuplicateId)
    else
      var inserted := db.(claims := db.claims[claimId := Claim(owner, subject, Draft)]);
      Ok(Audited(inserted, claimId, owner, ClaimCreated))
  }

  function AddDocument(db: Db, claimId: string, owner: string, documentType: string, extractionStatus: string): Result<Db> {
    if !Owned(db, claimId, owner) then Refused(NotFound)
    else
      var inserted := db.(documents := db.documents + [Document(claimId, documentType, extractionStatus)]);
      Ok(Audited(inserted, claimId, owner, DocumentRegistered(documentType)))
  }

  function SubmitClaim(text: Text, db: Db, claimId: string, owner: string): Result<Db> {
    if !Owned(db, claimId, owner) then Refused(NotFound)
    else if db.claims[claimId].status !in {Draft, DocumentsPending, NeedsInformation} then Refused(StateConflict)
    else
      var missing := MissingFor(text, claimId, db.claims[claimId], db.documents);
      match TransitionClaim(db, claimId, if missing != {} then DocumentsPending else ReadyForReview, owner)
      case Refused(why) => Refused(why)
      case Ok(moved) => Ok(Audited(moved, claimId, owner, SubmissionValidated(missing)))
  }

  /** The newest run of a claim, by creation. */
  function LatestRun(db: Db, log: seq<string>, claimId: string, owner: string): Option<ReviewRun> {
    if log == [] then None
    else
      var last := log[|log| - 1];
      if last in db.runs && db.runs[last].claimId == claimId && db.runs[last].owner == owner then Some(db.runs[last])
      else LatestRun(db, log[..|log| - 1], claimId, owner)
  }

  predicate AlreadyRunning(db: Db, claimId: string, owner: string) {
    var latest := LatestRun(db, db.runLog, claimId, owner);
    latest.Some? && (latest.value.status == Queued || latest.value.status == Running)
  }

  function StartReview(db: Db, claimId: string, owner: string, runId: string): Result<Db> {
    if !Owned(db, claimId, owner) then Refused(NotFound)
    else if db.claims[claimId].status != ReadyForReview then Refused(StateConflict)
    else if AlreadyRunning(db, claimId, owner) then Refused(StateConflict)
    else if runId in db.runs then Refused(DuplicateId)
    else
      match TransitionClaim(db, claimId, UnderReview, owner)
      case Refused(why) => Refused(why)
      case Ok(moved) =>
        var run := ReviewRun(claimId, owner, Running, At(LoadClaim), None, None, false);
        var inserted := moved.(runs := moved.runs[runId := run], runLog := moved.runLog + [runId]);
        Ok(Audited(inserted, claimId, owner, ReviewStarted(runId)))
  }

  /** UPDATE of one run row: the error column is always written, the others when given. */
  function UpdateRun(run: ReviewRun, status: RunStatus, position: Position,
                     result: Option<Review>, error: Option<string>, complete: bool): ReviewRun
  {
    run.(status := status, position := position, error := error,
         result := if result.Some? then result else run.result,
         completedAt := complete || run.completedAt)
  }

  function RecordProgress(db: Db, claimId: string, runId: string, owner: string, step: ReviewStep): Result<Db> {
    if runId !in db.runs || claimId !in db.claims then Refused(NotFound)
    else
      var run := UpdateRun(db.runs[runId], Running, At(step), None, None, false);
      Ok(Audited(db.(runs := db.runs[runId := run]), claimId, owner, ReviewProgress(runId, step)))
  }

  function CompleteReview(db: Db, claimId: string, runId: string, owner: string, review: Review): Result<Db> {
    if !Owned(db, claimId, owner) then Refused(NotFound)
    else
      var incomplete := review.missing != {} || review.evidence == Insufficient;
      match TransitionClaim(db, claimId, if incomplete then NeedsInformation else ReadyForDecision, owner)
      case Refused(why) => Refused(why)
      case Ok(moved) =>
        if runId !in moved.runs then Refused(NotFound)
        else
          var run := UpdateRun(moved.runs[runId], RunSucceeded, AtCompleted, Some(review), None, true);
          Ok(Audited(moved.(runs := moved.runs[runId := run]), claimId, owner,
                     ReviewCompleted(runId, review.evidence, review.missing)))
  }

  function FailReview(db: Db, claimId: string, runId: string, owner: string, error: string): Result<Db> {
    if runId !in db.runs || claimId !in db.claims then Refused(NotFound)
    else
      var moved := if Owned(db, claimId, owner) && db.claims[claimId].status == UnderReview
                   then TransitionClaim(db, claimId, ReadyForReview, owner)
                   else Ok(db);
      match moved
      case Refused(why) => Refused(why)
      case Ok(moved) =>
        var run := UpdateRun(moved.runs[runId], RunFailed, AtFailed, None, Some(error), true);
        Ok(Audited(moved.(runs := moved.runs[runId := run]), claimId, owner, ReviewFailed(runId, error)))
  }

  function ApplyNextStep(db: Db, claimId: string, owner: string, choice: NextStep): Result<Db> {
    if !Owned(db, claimId, owner) then Refused(NotFound)
    else if db.claims[claimId].status != ReadyForDecision then Refused(StateConflict)
    else
      var target := if choice == RequestInformation then NeedsInformation else ExpertReviewRequired;
      match TransitionClaim(db, claimId, target, owner)
      case Refused(why) => Refused(why)
      case Ok(moved) => Ok(Audited(moved, claimId, owner, NextStepSelected(choice)))
  }

  function ApplyDecision(db: Db, claimId: string, owner: string, decision: Decision): Result<Db> {
    if !Owned(db, claimId, owner) then Refused(NotFound)
    else if db.claims[claimId].status != ReadyForDecision then Refused(StateConflict)
    else
      match TransitionClaim(db, claimId, if decision == Approve then Approved else Rejected, owner)
      case Refused(why) => Refused(why)
      case Ok(moved) => Ok(Audited(moved, claimId, owner, HumanDecision(decision)))
  }

  function ProposeAction(db: Db, claimId: string, owner: string, actionId: string, actionType: ActionType): Result<Db> {
    if !Owned(db, claimId, owner) then Refused(NotFound)
    else
      match Propose(db.desk, actionId, claimId, actionType, owner)
      case Refused(why) => Refused(why)
      case Ok(desk) => Ok(Audited(db.(desk := desk), claimId, owner, ActionProposed(actionId)))
  }

  function DecideAction(db: Db, claimId: string, actionId: string, owner: string, decision: Decision): Result<Db> {
    if !Owned(db, claimId, owner) then Refused(NotFound)
    else if actionId !in db.desk.actions || db.desk.actions[actionId].claimId != claimId then Refused(NotFound)
    else
      match Decide(db.desk, actionId, owner, decision)
      case Refused(why) => Refused(why)
      case Ok(desk) =>
        Ok(Audited(db.(desk := desk), claimId, owner, ActionDecided(actionId, desk.actions[actionId].status)))
  }
}
