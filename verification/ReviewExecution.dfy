/** An executor that is left alone: what it does to the tables, as one function, and what that means. */
module ReviewExecution {
  import opened Results
  import opened ClaimRules
  import opened ActionDesk
  import opened ClaimStore
  import opened ClaimHistory
  import opened ClaimInvariants
  import opened ReviewGraph
  import opened ReviewRuns
  import opened ReviewSystem
  import opened ReviewTheorems

  /** The tables after a call; a refused one leaves them alone. */
  function After(db: Db, outcome: Result<Db>): Db {
    match outcome
    case Ok(after) => after
    case Refused(_) => db
  }

  function Entered(db: Db, claimId: string, runId: string, owner: string, node: Node): Db {
    After(db, RecordProgress(db, claimId, runId, owner, StepOf(node)))
  }

  /** The evidence the fourth node arrives at, or None if retrieval raises before it. */
  function EvidenceFound(subject: Subject, retrieval: Option<seq<Chunk>>): Option<Evidence> {
    if subject.productLine == Unknown then Some(Insufficient)
    else if retrieval == None then None
    else Some(VerifyEvidence(retrieval.value))
  }

  /** The tables after the progress records of the first n nodes. */
  function Walked(db: Db, claimId: string, runId: string, owner: string, evidence: Evidence, n: nat): Db
    requires n <= |ORDER|
  {
    if n == 0 then db
    else Entered(Walked(db, claimId, runId, owner, evidence, n - 1), claimId, runId, owner, NodeAt(n - 1, evidence).value)
  }

  /** The tables after the execution, for a claim that misses no document. */
  function Executed(db: Db, claimId: string, runId: string, owner: string, retrieval: Option<seq<Chunk>>, generates: bool): Db
    requires claimId in db.claims
  {
    match EvidenceFound(db.claims[claimId].subject, retrieval)
    case None =>
      var stopped := Walked(db, claimId, runId, owner, Insufficient, 3);
      After(stopped, FailReview(stopped, claimId, runId, owner, "retrieval failed"))
    case Some(evidence) =>
      if evidence == Sufficient && !generates then
        var stopped := Walked(db, claimId, runId, owner, evidence, 5);
        After(stopped, FailReview(stopped, claimId, runId, owner, "generation failed"))
      else
        var done := Walked(db, claimId, runId, owner, evidence, 6);
        After(done, CompleteReview(done, claimId, runId, owner, Review({}, evidence, None)))
  }

  /** The claim is under review by this run, which has recorded n steps. */
  ghost predicate InReview(text: Text, db: Db, claimId: string, runId: string, owner: string, n: nat)
    requires n <= |ORDER|
  {
    DbSound(text, db) && RunningOn(db.runs, runId, claimId) && Owned(db, claimId, owner) && Steps(db.audit, runId) == ORDER[..n]
  }

  /** What stays while nodes are entered. */
  predicate SameClaims(db: Db, after: Db) {
    after.claims == db.claims && after.documents == db.documents && after.desk == db.desk
  }

  lemma EnteringKeeps(text: Text, start: Db, db: Db, claimId: string, runId: string, owner: string, node: Node, n: nat)
    requires n < |ORDER| && n == Depth(node) && SameClaims(start, db)
    requires InReview(text, db, claimId, runId, owner, n)
    ensures InReview(text, Entered(db, claimId, runId, owner, node), claimId, runId, owner, n + 1)
    ensures SameClaims(start, Entered(db, claimId, runId, owner, node))
  {
    ProgressKeepsSound(text, db, claimId, runId, owner, n);
    ProgressWrites(db, claimId, runId, owner, StepOf(node));
  }

  lemma {:induction false} WalkingKeeps(text: Text, db: Db, claimId: string, runId: string, owner: string,
                                       evidence: Evidence, n: nat)
    requires InReview(text, db, claimId, runId, owner, 0) && n <= |ORDER|
    ensures InReview(text, Walked(db, claimId, runId, owner, evidence, n), claimId, runId, owner, n)
    ensures SameClaims(db, Walked(db, claimId, runId, owner, evidence, n))
  {
    if n > 0 {
      WalkingKeeps(text, db, claimId, runId, owner, evidence, n - 1);
      var before, node := Walked(db, claimId, runId, owner, evidence, n - 1), NodeAt(n - 1, evidence).value;
      BothBranchesRecordTheOrder(n - 1, evidence);
      EnteringKeeps(text, db, before, claimId, runId, owner, node, n - 1);
      assert Walked(db, claimId, runId, owner, evidence, n) == Entered(before, claimId, runId, owner, node);
    }
  }

  /** The run is settled and its claim has left the review. */
  predicate Settled(db: Db, claimId: string, runId: string, status: RunStatus, result: Option<Review>, target: ClaimStatus) {
    && runId in db.runs && db.runs[runId].status == status && db.runs[runId].result == result && db.runs[runId].completedAt
    && claimId in db.claims && db.claims[claimId].status == target
  }

  lemma FailingSettles(text: Text, db: Db, claimId: string, runId: string, owner: string, n: nat, error: string)
    requires n <= |ORDER| && InReview(text, db, claimId, runId, owner, n)
    ensures var after := After(db, FailReview(db, claimId, runId, owner, error));
            && DbSound(text, after) && Settled(after, claimId, runId, RunFailed, None, ReadyForReview)
            && Steps(after.audit, runId) == ORDER[..n] && after.desk == db.desk
  {
    FailKeepsSound(text, db, claimId, runId, owner, error);
    FailureWrites(db, claimId, runId, owner, error);
    assert RunShape(db.runs[runId], Steps(db.audit, runId));
  }

  lemma CompletingSettles(text: Text, db: Db, claimId: string, runId: string, owner: string, evidence: Evidence)
    requires InReview(text, db, claimId, runId, owner, |ORDER|)
    requires evidence == Sufficient ==> db.claims[claimId].subject.productLine != Unknown
    ensures var review := Review({}, evidence, None);
            var after := After(db, CompleteReview(db, claimId, runId, owner, review));
            && DbSound(text, after)
            && Settled(after, claimId, runId, RunSucceeded, Some(review),
                       if evidence == Sufficient then ReadyForDecision else NeedsInformation)
            && Steps(after.audit, runId) == ORDER && after.desk == db.desk
  {
    var review := Review({}, evidence, None);
    assert ORDER[..|ORDER|] == ORDER;
    CompleteKeepsSound(text, db, claimId, runId, owner, review);
    CompletionWrites(db, claimId, runId, owner, review);
    var after := CompleteReview(db, claimId, runId, owner, review).value;
    assert RunShape(after.runs[runId], Steps(after.audit, runId));
  }

  /** Retrieval returned, with a chunk from Confluence among the rest. */
  predicate HasApproved(retrieval: Option<seq<Chunk>>) {
    retrieval.Some? && exists i :: 0 <= i < |retrieval.value| && retrieval.value[i].source == "confluence"
  }

  lemma ApprovedEvidence(subject: Subject, retrieval: Option<seq<Chunk>>)
    ensures EvidenceFound(subject, retrieval) == Some(Sufficient) <==> subject.productLine != Unknown && HasApproved(retrieval)
    ensures EvidenceFound(subject, retrieval) == None <==> subject.productLine != Unknown && retrieval == None
  {
    if HasApproved(retrieval) {
      var i :| 0 <= i < |retrieval.value| && retrieval.value[i].source == "confluence";
      assert retrieval.value[i] in retrieval.value;
    }
  }

  /**
   However retrieval and generation turn out, the execution settles its run, records the
   steps of the nodes entered, proposes nothing and keeps the tables sound.
   */
  lemma ExecutionSettles(text: Text, db: Db, claimId: string, runId: string, owner: string,
                         retrieval: Option<seq<Chunk>>, generates: bool)
    requires InReview(text, db, claimId, runId, owner, 0)
    ensures var after, known := Executed(db, claimId, runId, owner, retrieval, generates),
                                db.claims[claimId].subject.productLine != Unknown;
            && DbSound(text, after) && after.desk == db.desk
            && (known && retrieval == None ==>
                  Steps(after.audit, runId) == ORDER[..3] && Settled(after, claimId, runId, RunFailed, None, ReadyForReview))
            && (known && HasApproved(retrieval) && !generates ==>
                  Steps(after.audit, runId) == ORDER[..5] && Settled(after, claimId, runId, RunFailed, None, ReadyForReview))
            && (known && HasApproved(retrieval) && generates ==>
                  && Steps(after.audit, runId) == ORDER
                  && Settled(after, claimId, runId, RunSucceeded, Some(Review({}, Sufficient, None)), ReadyForDecision))
            && (!known || (retrieval.Some? && !HasApproved(retrieval)) ==>
                  && Steps(after.audit, runId) == ORDER
                  && Settled(after, claimId, runId, RunSucceeded, Some(Review({}, Insufficient, None)), NeedsInformation))
  {
    var subject := db.claims[claimId].subject;
    ApprovedEvidence(subject, retrieval);
    match EvidenceFound(subject, retrieval) {
      case None =>
        WalkingKeeps(text, db, claimId, runId, owner, Insufficient, 3);
        FailingSettles(text, Walked(db, claimId, runId, owner, Insufficient, 3), claimId, runId, owner, 3, "retrieval failed");
      case Some(evidence) =>
        if evidence == Sufficient && !generates {
          WalkingKeeps(text, db, claimId, runId, owner, evidence, 5);
          FailingSettles(text, Walked(db, claimId, runId, owner, evidence, 5), claimId, runId, owner, 5, "generation failed");
        } else {
          WalkingKeeps(text, db, claimId, runId, owner, evidence, 6);
          CompletingSettles(text, Walked(db, claimId, runId, owner, evidence, 6), claimId, runId, owner, evidence);
        }
    }
  }

  /** An undisturbed execution ends in READY_FOR_DECISION exactly when all three conditions hold. */
  lemma ReadyForDecisionIff(text: Text, db: Db, claimId: string, runId: string, owner: string,
                            retrieval: Option<seq<Chunk>>, generates: bool)
    requires InReview(text, db, claimId, runId, owner, 0)
    ensures var after, known := Executed(db, claimId, runId, owner, retrieval, generates).claims,
                                db.claims[claimId].subject.productLine != Unknown;
            && claimId in after
            && (after[claimId].status == ReadyForDecision <==> known && HasApproved(retrieval) && generates)
            && (after[claimId].status == NeedsInformation <==> !known || (retrieval.Some? && !HasApproved(retrieval)))
            && (after[claimId].status == ReadyForReview <==>
                  known && (retrieval == None || (HasApproved(retrieval) && !generates)))
  {
    ExecutionSettles(text, db, claimId, runId, owner, retrieval, generates);
  }

  /** Nothing is missing on a claim under review. */
  lemma NothingMissingInReview(text: Text, db: Db, claimId: string, runId: string, owner: string)
    requires InReview(text, db, claimId, runId, owner, 0)
    ensures MissingFor(text, claimId, db.claims[claimId], db.documents) == {}
  {
    assert db.claims[claimId].status == UnderReview;
  }
}
