/** The nodes of the review graph and the executor, as calls on the claim service. */
module ReviewWorkflow {
  import opened Results
  import opened ClaimRules
  import opened ActionDesk
  import opened ClaimStore
  import opened ClaimHistory
  import opened ClaimInvariants
  import opened ReviewGraph
  import opened ReviewExecution
  import opened ClaimServices

  /** The progress write at the head of a node. */
  method EnterNode(service: ClaimService, claimId: string, runId: string, owner: string, node: Node)
    modifies service
    ensures service.Tables() == Entered(old(service.Tables()), claimId, runId, owner, node)
  {
    var refusal := service.RecordReviewProgress(claimId, runId, owner, StepOf(node));
  }

  method LoadReview(service: ClaimService, claimId: string, runId: string, owner: string)
    returns (subject: Subject, present: seq<Document>)
    requires claimId in service.claims
    modifies service
    ensures service.Tables() == Entered(old(service.Tables()), claimId, runId, owner, LoadClaimNode)
    ensures claimId in service.claims && subject == service.claims[claimId].subject
    ensures present == DocumentsOf(service.documents, claimId)
  {
    EnterNode(service, claimId, runId, owner, LoadClaimNode);
    subject, present := service.claims[claimId].subject, DocumentsOf(service.documents, claimId);
  }

  method CheckDocumentsPresent(service: ClaimService, claimId: string, runId: string, owner: string,
                               subject: Subject, present: seq<Document>)
    returns (missing: set<string>)
    modifies service
    ensures service.Tables() == Entered(old(service.Tables()), claimId, runId, owner, CheckDocumentsNode)
    ensures missing == Missing(service.text, subject, present)
  {
    EnterNode(service, claimId, runId, owner, CheckDocumentsNode);
    missing := Missing(service.text, subject, present);
  }

  /** None when retrieval raises; an unknown product line retrieves nothing. */
  method Retrieve(service: ClaimService, claimId: string, runId: string, owner: string,
                  subject: Subject, retrieval: Option<seq<Chunk>>)
    returns (chunks: Option<seq<Chunk>>)
    modifies service
    ensures service.Tables() == Entered(old(service.Tables()), claimId, runId, owner, RetrievePolicyNode)
    ensures chunks == if subject.productLine == Unknown then Some([]) else retrieval
  {
    EnterNode(service, claimId, runId, owner, RetrievePolicyNode);
    if subject.productLine == Unknown {
      return Some([]);
    }
    chunks := retrieval;
  }

  method Verify(service: ClaimService, claimId: string, runId: string, owner: string, subject: Subject, chunks: seq<Chunk>)
    returns (evidence: Evidence)
    modifies service
    ensures service.Tables() == Entered(old(service.Tables()), claimId, runId, owner, VerifyEvidenceNode)
    ensures evidence == Sufficient <==>
              subject.productLine != Unknown && exists i :: 0 <= i < |chunks| && chunks[i].source == "confluence"
  {
    EnterNode(service, claimId, runId, owner, VerifyEvidenceNode);
    if subject.productLine == Unknown {
      return Insufficient;
    }
    evidence := VerifyEvidence(chunks);
    ApprovedEvidence(subject, Some(chunks));
    assert evidence == Sufficient <==> HasApproved(Some(chunks));
  }

  /** False when generation raises. */
  method Generate(service: ClaimService, claimId: string, runId: string, owner: string, generates: bool)
    returns (written: bool)
    modifies service
    ensures service.Tables() == Entered(old(service.Tables()), claimId, runId, owner, GenerateRecommendationNode)
    ensures written == generates
  {
    EnterNode(service, claimId, runId, owner, GenerateRecommendationNode);
    written := generates;
  }

  /** A constant text. */
  method Refuse(service: ClaimService, claimId: string, runId: string, owner: string)
    modifies service
    ensures service.Tables() == Entered(old(service.Tables()), claimId, runId, owner, RefuseRecommendationNode)
  {
    EnterNode(service, claimId, runId, owner, RefuseRecommendationNode);
  }

  /** The body of the last node: a follow-up action for missing documents, and only then. */
  method PrepareFollowUp(service: ClaimService, claimId: string, owner: string, missing: set<string>, actionId: string)
    returns (proposed: Option<string>, refusal: Option<Refusal>)
    modifies service
    ensures missing == {} ==> service.Tables() == old(service.Tables()) && proposed == None && refusal == None
    ensures missing != {} ==>
              Settles(old(service.Tables()), ProposeAction(old(service.Tables()), claimId, owner, actionId, CreateJiraIssue),
                      service.Tables(), refusal)
    ensures missing != {} && refusal == None ==> proposed == Some(actionId)
  {
    var followUp := FollowUpAction(missing);
    if followUp == None {
      return None, None;
    }
    refusal := service.CreateProposedAction(claimId, owner, actionId, followUp.value);
    proposed := Some(actionId);
  }

  /** The last node and the completion, when nothing is missing. */
  method Conclude(service: ClaimService, claimId: string, runId: string, owner: string, missing: set<string>,
                  evidence: Evidence, actionId: string)
    requires missing == {}
    modifies service
    ensures var last := Entered(old(service.Tables()), claimId, runId, owner, ProposeJiraNode);
            service.Tables() == After(last, CompleteReview(last, claimId, runId, owner, Review({}, evidence, None)))
  {
    EnterNode(service, claimId, runId, owner, ProposeJiraNode);
    var proposed, refusal := PrepareFollowUp(service, claimId, owner, missing, actionId);
    refusal := service.CompleteReviewRun(claimId, runId, owner, Review(missing, evidence, proposed));
  }

  /** The exception handler. */
  method AbortReview(service: ClaimService, claimId: string, runId: string, owner: string, error: string)
    modifies service
    ensures service.Tables() == After(old(service.Tables()), FailReview(old(service.Tables()), claimId, runId, owner, error))
  {
    var refusal := service.FailReviewRun(claimId, runId, owner, error);
  }

  /** What the first two nodes find, on a claim whose review is under way. */
  method Prepare(service: ClaimService, claimId: string, runId: string, owner: string)
    returns (subject: Subject, missing: set<string>)
    requires claimId in service.claims && runId in service.runs
    modifies service
    ensures service.Tables() ==
            Entered(Entered(old(service.Tables()), claimId, runId, owner, LoadClaimNode),
                    claimId, runId, owner, CheckDocumentsNode)
    ensures subject == old(service.claims)[claimId].subject
    ensures missing == MissingFor(service.text, claimId, old(service.claims)[claimId], old(service.documents))
  {
    var present;
    subject, present := LoadReview(service, claimId, runId, owner);
    missing := CheckDocumentsPresent(service, claimId, runId, owner, subject, present);
  }

  /**
   The executor, undisturbed: the six nodes in order, and the exception handler.
   Retrieval and generation may raise (None, false).
   */
  method ExecuteReviewRun(service: ClaimService, claimId: string, runId: string, owner: string,
                          retrieval: Option<seq<Chunk>>, generates: bool, actionId: string)
    requires InReview(service.text, service.Tables(), claimId, runId, owner, 0)
    modifies service
    ensures service.Tables() == Executed(old(service.Tables()), claimId, runId, owner, retrieval, generates)
    ensures service.Valid()
    ensures claimId in service.claims
    ensures service.claims[claimId].status == ReadyForDecision <==>
              old(service.claims)[claimId].subject.productLine != Unknown && HasApproved(retrieval) && generates
  {
    NothingMissingInReview(service.text, service.Tables(), claimId, runId, owner);
    ReadyForDecisionIff(service.text, service.Tables(), claimId, runId, owner, retrieval, generates);
    ExecutionSettles(service.text, service.Tables(), claimId, runId, owner, retrieval, generates);
    RunNodes(service, claimId, runId, owner, retrieval, generates, actionId);
  }

  /** The same on any tables in which the claim misses no document. */
  method RunNodes(service: ClaimService, claimId: string, runId: string, owner: string,
                  retrieval: Option<seq<Chunk>>, generates: bool, actionId: string)
    requires claimId in service.claims && runId in service.runs
    requires MissingFor(service.text, claimId, service.claims[claimId], service.documents) == {}
    modifies service
    ensures service.Tables() == Executed(old(service.Tables()), claimId, runId, owner, retrieval, generates)
  {
    ghost var start := service.Tables();
    var subject, missing := Prepare(service, claimId, runId, owner);
    var chunks := Retrieve(service, claimId, runId, owner, subject, retrieval);
    ThreeNodes(start, claimId, runId, owner, Insufficient);
    if chunks == None {
      AbortReview(service, claimId, runId, owner, "retrieval failed");
      return;
    }
    var evidence := Verify(service, claimId, runId, owner, subject, chunks.value);
    ApprovedEvidence(subject, retrieval);
    ThreeNodes(start, claimId, runId, owner, evidence);
    SixNodes(start, claimId, runId, owner, evidence);
    if RouteAfterEvidence(evidence) == GenerateRecommendationNode {
      var written := Generate(service, claimId, runId, owner, generates);
      if !written {
        AbortReview(service, claimId, runId, owner, "generation failed");
        return;
      }
    } else {
      Refuse(service, claimId, runId, owner);
    }
    Conclude(service, claimId, runId, owner, missing, evidence, actionId);
  }

  lemma ThreeNodes(db: Db, claimId: string, runId: string, owner: string, evidence: Evidence)
    ensures Walked(db, claimId, runId, owner, evidence, 3) ==
            Entered(Entered(Entered(db, claimId, runId, owner, LoadClaimNode), claimId, runId, owner, CheckDocumentsNode),
                    claimId, runId, owner, RetrievePolicyNode)
  {
    FirstNodes(evidence);
    assert Walked(db, claimId, runId, owner, evidence, 0) == db;
    assert Walked(db, claimId, runId, owner, evidence, 1) == Entered(db, claimId, runId, owner, LoadClaimNode);
  }

  lemma SixNodes(db: Db, claimId: string, runId: string, owner: string, evidence: Evidence)
    ensures var three := Walked(db, claimId, runId, owner, evidence, 3);
            && Walked(db, claimId, runId, owner, evidence, 5) ==
               Entered(Entered(three, claimId, runId, owner, VerifyEvidenceNode), claimId, runId, owner, RouteAfterEvidence(evidence))
            && Walked(db, claimId, runId, owner, evidence, 6) ==
               Entered(Walked(db, claimId, runId, owner, evidence, 5), claimId, runId, owner, ProposeJiraNode)
  {
    FirstNodes(evidence);
    assert Walked(db, claimId, runId, owner, evidence, 4) ==
           Entered(Walked(db, claimId, runId, owner, evidence, 3), claimId, runId, owner, VerifyEvidenceNode);
  }

  lemma FirstNodes(evidence: Evidence)
    ensures NodeAt(0, evidence) == Some(LoadClaimNode) && NodeAt(1, evidence) == Some(CheckDocumentsNode)
    ensures NodeAt(2, evidence) == Some(RetrievePolicyNode) && NodeAt(3, evidence) == Some(VerifyEvidenceNode)
    ensures NodeAt(4, evidence) == Some(RouteAfterEvidence(evidence)) && NodeAt(5, evidence) == Some(ProposeJiraNode)
  {
    assert Walk(1, evidence) == Some(CheckDocumentsNode) && Walk(2, evidence) == Some(RetrievePolicyNode);
    assert Walk(3, evidence) == Some(VerifyEvidenceNode) && Walk(4, evidence) == Some(RouteAfterEvidence(evidence));
    assert Walk(5, evidence) == Some(ProposeJiraNode);
  }
}
