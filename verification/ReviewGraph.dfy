/** The graph of a review: its nodes, its edges, and the step each node records. */
module ReviewGraph {
  import opened Results
  import opened ClaimRules
  import opened ClaimStore
  import opened ClaimInvariants

  datatype Node =
    | LoadClaimNode
    | CheckDocumentsNode
    | RetrievePolicyNode
    | VerifyEvidenceNode
    | GenerateRecommendationNode
    | RefuseRecommendationNode
    | ProposeJiraNode

  function RouteAfterEvidence(evidence: Evidence): Node {
    if evidence == Sufficient then GenerateRecommendationNode else RefuseRecommendationNode
  }

  /** The edges; the one out of the verification is conditional. */
  function Successor(node: Node, evidence: Evidence): Option<Node> {
    match node
    case LoadClaimNode => Some(CheckDocumentsNode)
    case CheckDocumentsNode => Some(RetrievePolicyNode)
    case RetrievePolicyNode => Some(VerifyEvidenceNode)
    case VerifyEvidenceNode => Some(RouteAfterEvidence(evidence))
    case GenerateRecommendationNode => Some(ProposeJiraNode)
    case RefuseRecommendationNode => Some(ProposeJiraNode)
    case ProposeJiraNode => None
  }

  /** What a node hands to the progress record on entry. */
  function StepOf(node: Node): ReviewStep {
    match node
    case LoadClaimNode => LoadClaim
    case CheckDocumentsNode => CheckDocuments
    case RetrievePolicyNode => RetrievePolicyEvidence
    case VerifyEvidenceNode => VerifyPolicyEvidence
    case GenerateRecommendationNode => GenerateRecommendation
    case RefuseRecommendationNode => GenerateRecommendation
    case ProposeJiraNode => PrepareNextAction
  }

  /** How many nodes come before. */
  function Depth(node: Node): (n: nat)
    ensures n < |ORDER| && StepOf(node) == ORDER[n]
  {
    match node
    case LoadClaimNode => 0
    case CheckDocumentsNode => 1
    case RetrievePolicyNode => 2
    case VerifyEvidenceNode => 3
    case GenerateRecommendationNode => 4
    case RefuseRecommendationNode => 4
    case ProposeJiraNode => 5
  }

  /** The n-th node on the way from the start, or None past the end. */
  function Walk(n: nat, evidence: Evidence): Option<Node> {
    if n == 0 then Some(LoadClaimNode)
    else
      match Walk(n - 1, evidence)
      case None => None
      case Some(node) => Successor(node, evidence)
  }

  /** Whichever branch is taken, the walk has six nodes and they record the six steps in order. */
  lemma {:induction false} BothBranchesRecordTheOrder(n: nat, evidence: Evidence)
    ensures Walk(n, evidence).Some? <==> n < |ORDER|
    ensures n < |ORDER| ==> Depth(Walk(n, evidence).value) == n && StepOf(Walk(n, evidence).value) == ORDER[n]
  {
    if n > |ORDER| {
      BothBranchesRecordTheOrder(n - 1, evidence);
    } else {
      assert Walk(1, evidence) == Some(CheckDocumentsNode) && Walk(2, evidence) == Some(RetrievePolicyNode);
      assert Walk(3, evidence) == Some(VerifyEvidenceNode) && Walk(4, evidence) == Some(RouteAfterEvidence(evidence));
      assert Walk(5, evidence) == Some(ProposeJiraNode) && Walk(6, evidence) == None;
    }
  }

  /** The evidence matters from the fifth node on. */
  function NodeAt(n: nat, evidence: Evidence): (node: Option<Node>)
    ensures node.Some? <==> n < |ORDER|
    ensures node.Some? ==> StepOf(node.value) == ORDER[n]
  {
    BothBranchesRecordTheOrder(n, evidence);
    Walk(n, evidence)
  }
}
