/** The claim status table and the document rules: constants and functions of their arguments. */
module ClaimRules {
  import opened Results

  datatype ClaimStatus =
    | Draft
    | DocumentsPending
    | ReadyForReview
    | UnderReview
    | NeedsInformation
    | ReadyForDecision
    | ExpertReviewRequired
    | Approved
    | Rejected
    | Closed

  function Targets(current: ClaimStatus): set<ClaimStatus> {
    match current
    case Draft => {DocumentsPending, ReadyForReview}
    case DocumentsPending => {ReadyForReview}
    case ReadyForReview => {UnderReview, NeedsInformation}
    case UnderReview => {ReadyForReview, NeedsInformation, ReadyForDecision}
    case NeedsInformation => {DocumentsPending, ReadyForReview}
    case ReadyForDecision => {NeedsInformation, ExpertReviewRequired, Approved, Rejected}
    case ExpertReviewRequired => {UnderReview, ReadyForDecision}
    case Approved => {Closed}
    case Rejected => {Closed}
    case Closed => {}
  }

  const OUT_OF_SCOPE_STATES: set<ClaimStatus> := {Closed}

  predicate TransitionAllowed(current: ClaimStatus, target: ClaimStatus) {
    target in Targets(current) && target !in OUT_OF_SCOPE_STATES
  }

  /** The table read backwards: from where each status can be entered. */
  lemma EnteredFrom(current: ClaimStatus, target: ClaimStatus)
    ensures TransitionAllowed(current, target) <==>
            match target
            case Draft => false
            case DocumentsPending => current in {Draft, NeedsInformation}
            case ReadyForReview => current in {Draft, DocumentsPending, UnderReview, NeedsInformation}
            case UnderReview => current in {ReadyForReview, ExpertReviewRequired}
            case NeedsInformation => current in {ReadyForReview, UnderReview, ReadyForDecision}
            case ReadyForDecision => current in {UnderReview, ExpertReviewRequired}
            case ExpertReviewRequired => current == ReadyForDecision
            case Approved => current == ReadyForDecision
            case Rejected => current == ReadyForDecision
            case Closed => false
  {
  }

  datatype ProductLine = Unknown | Household | ResidentialBuilding | Vehicle | Liability | LegalExpense

  datatype Level = Required | Optional | Conditional

  /** A product line or claim type of None stands for "all". */
  datatype Requirement = Requirement(
    documentType: string,
    level: Level,
    productLine: Option<ProductLine>,
    claimType: Option<string>)

  const DOCUMENT_REQUIREMENTS: seq<Requirement> := [
    Requirement("claim_form", Required, None, None),
    Requirement("damage_photo", Required, None, None),
    Requirement("purchase_receipt", Conditional, None, None),
    Requirement("police_report", Conditional, None, None),
    Requirement("repair_estimate", Optional, None, None),
    Requirement("damage_cause_report", Required, Some(ResidentialBuilding), Some("water_damage")),
    Requirement("repair_invoice", Required, Some(ResidentialBuilding), Some("water_damage")),
    Requirement("accident_report", Required, Some(Vehicle), Some("vehicle_damage")),
    Requirement("repair_assessment", Required, Some(Vehicle), Some("vehicle_damage")),
    Requirement("police_report", Conditional, Some(Vehicle), Some("vehicle_damage"))]

  /** strip() then casefold(), and upper(), of the runtime library; arbitrary here. */
  datatype Text = Text(fold: string -> string, upper: string -> string)

  function NormalizeDocumentType(text: Text, value: string): string {
    var folded := text.fold(value);
    seq(|folded|, i requires 0 <= i < |folded| => if folded[i] == '-' || folded[i] == ' ' then '_' else folded[i])
  }

  /** What the rules look at in a claim. */
  datatype Subject = Subject(productLine: ProductLine, claimType: string)

  predicate Applies(text: Text, r: Requirement, s: Subject) {
    && (r.productLine == None || r.productLine == Some(s.productLine))
    && (r.claimType == None || r.claimType == Some(NormalizeDocumentType(text, s.claimType)))
  }

  function RequiredDocuments(text: Text, s: Subject): set<string> {
    set r | r in DOCUMENT_REQUIREMENTS && Applies(text, r, s) && r.level == Required :: r.documentType
  }

  datatype Document = Document(claimId: string, documentType: string, extractionStatus: string)

  function CompletedTypes(text: Text, documents: seq<Document>): set<string> {
    set d | d in documents && text.upper(d.extractionStatus) == "COMPLETED" ::
      NormalizeDocumentType(text, d.documentType)
  }

  function Missing(text: Text, s: Subject, documents: seq<Document>): set<string> {
    RequiredDocuments(text, s) - CompletedTypes(text, documents)
  }

  /** Registering more documents never makes a document missing. */
  lemma MissingShrinks(text: Text, s: Subject, fewer: seq<Document>, more: seq<Document>)
    requires forall d :: d in fewer ==> d in more
    ensures Missing(text, s, more) <= Missing(text, s, fewer)
  {
    assert CompletedTypes(text, fewer) <= CompletedTypes(text, more);
  }

  datatype ActionType = CreateJiraIssue | SendTeamsNotification | UpdateClaimStatus

  function FollowUpAction(missing: set<string>): Option<ActionType> {
    if missing != {} then Some(CreateJiraIssue) else None
  }

  datatype Evidence = Sufficient | Insufficient

  /** A retrieved chunk, by the source its metadata names. */
  datatype Chunk = Chunk(source: string)

  function VerifyEvidence(chunks: seq<Chunk>): Evidence {
    if exists c :: c in chunks && c.source == "confluence" then Sufficient else Insufficient
  }
}
