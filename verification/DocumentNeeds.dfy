/** Which documents a claim needs and which it has, written out type by type. */
module DocumentNeeds {
  import opened Results
  import opened ClaimRules
  import opened ClaimStore

  /** The text reads as the given type: case folded, with '-' and ' ' standing for '_'. */
  predicate ReadsAs(text: Text, value: string, documentType: string) {
    var folded := text.fold(value);
    && |folded| == |documentType|
    && forall i :: 0 <= i < |folded| ==>
         documentType[i] == (if folded[i] in {'-', ' '} then '_' else folded[i])
  }

  predicate WaterDamage(text: Text, s: Subject) {
    s.productLine == ResidentialBuilding && ReadsAs(text, s.claimType, "water_damage")
  }

  predicate VehicleDamage(text: Text, s: Subject) {
    s.productLine == Vehicle && ReadsAs(text, s.claimType, "vehicle_damage")
  }

  /** The types a claim of this kind cannot do without. */
  predicate Needed(text: Text, s: Subject, documentType: string) {
    || documentType in {"claim_form", "damage_photo"}
    || (WaterDamage(text, s) && documentType in {"damage_cause_report", "repair_invoice"})
    || (VehicleDamage(text, s) && documentType in {"accident_report", "repair_assessment"})
  }

  /** A completed document of the type is among them. */
  predicate Present(text: Text, documents: seq<Document>, documentType: string) {
    exists d :: d in documents && text.upper(d.extractionStatus) == "COMPLETED" && ReadsAs(text, d.documentType, documentType)
  }

  /** The claim's own documents, by the id they carry. */
  predicate PresentFor(text: Text, documents: seq<Document>, claimId: string, documentType: string) {
    exists d :: d in documents && d.claimId == claimId
                && text.upper(d.extractionStatus) == "COMPLETED" && ReadsAs(text, d.documentType, documentType)
  }

  /** The claim has a completed document of each type it needs. */
  predicate HasAllDocuments(text: Text, documents: seq<Document>, claimId: string, s: Subject) {
    && PresentFor(text, documents, claimId, "claim_form")
    && PresentFor(text, documents, claimId, "damage_photo")
    && (WaterDamage(text, s) ==>
          PresentFor(text, documents, claimId, "damage_cause_report") && PresentFor(text, documents, claimId, "repair_invoice"))
    && (VehicleDamage(text, s) ==>
          PresentFor(text, documents, claimId, "accident_report") && PresentFor(text, documents, claimId, "repair_assessment"))
  }

  lemma NormalizedReads(text: Text, value: string, documentType: string)
    ensures NormalizeDocumentType(text, value) == documentType <==> ReadsAs(text, value, documentType)
  {
    var normalized := NormalizeDocumentType(text, value);
    if ReadsAs(text, value, documentType) {
      assert |normalized| == |documentType|;
      forall i | 0 <= i < |normalized| ensures normalized[i] == documentType[i] {}
    }
  }

  /** The k-th entry of the requirement list asks for the type. */
  predicate Asks(text: Text, s: Subject, documentType: string, k: nat)
    requires k < |DOCUMENT_REQUIREMENTS|
  {
    var r := DOCUMENT_REQUIREMENTS[k];
    Applies(text, r, s) && r.level == Required && r.documentType == documentType
  }

  lemma SomeEntryAsks(text: Text, s: Subject, documentType: string)
    ensures documentType in RequiredDocuments(text, s) <==> exists k :: 0 <= k < 10 && Asks(text, s, documentType, k)
  {
    assert |DOCUMENT_REQUIREMENTS| == 10;
    if documentType in RequiredDocuments(text, s) {
      var r :| r in DOCUMENT_REQUIREMENTS && Applies(text, r, s) && r.level == Required && r.documentType == documentType;
      var k :| 0 <= k < |DOCUMENT_REQUIREMENTS| && DOCUMENT_REQUIREMENTS[k] == r;
      assert Asks(text, s, documentType, k);
    }
    if exists k :: 0 <= k < 10 && Asks(text, s, documentType, k) {
      var k :| 0 <= k < 10 && Asks(text, s, documentType, k);
      assert DOCUMENT_REQUIREMENTS[k] in DOCUMENT_REQUIREMENTS;
    }
  }

  /** Entry by entry. */
  lemma EntriesAsk(text: Text, s: Subject, documentType: string)
    ensures Asks(text, s, documentType, 0) <==> documentType == "claim_form"
    ensures Asks(text, s, documentType, 1) <==> documentType == "damage_photo"
    ensures forall k :: k in {2, 3, 4, 9} ==> !Asks(text, s, documentType, k)
    ensures Asks(text, s, documentType, 5) <==> WaterDamage(text, s) && documentType == "damage_cause_report"
    ensures Asks(text, s, documentType, 6) <==> WaterDamage(text, s) && documentType == "repair_invoice"
    ensures Asks(text, s, documentType, 7) <==> VehicleDamage(text, s) && documentType == "accident_report"
    ensures Asks(text, s, documentType, 8) <==> VehicleDamage(text, s) && documentType == "repair_assessment"
  {
    NormalizedReads(text, s.claimType, "water_damage");
    NormalizedReads(text, s.claimType, "vehicle_damage");
  }

  lemma RequiredAreNeeded(text: Text, s: Subject, documentType: string)
    ensures documentType in RequiredDocuments(text, s) <==> Needed(text, s, documentType)
  {
    SomeEntryAsks(text, s, documentType);
    EntriesAsk(text, s, documentType);
  }

  lemma CompletedArePresent(text: Text, documents: seq<Document>, documentType: string)
    ensures documentType in CompletedTypes(text, documents) <==> Present(text, documents, documentType)
  {
    forall d | d in documents
      ensures NormalizeDocumentType(text, d.documentType) == documentType <==> ReadsAs(text, d.documentType, documentType)
    {
      NormalizedReads(text, d.documentType, documentType);
    }
  }

  /** What is missing: the types that are needed and of which no completed document is there. */
  lemma MissingIff(text: Text, s: Subject, documents: seq<Document>, documentType: string)
    ensures documentType in Missing(text, s, documents) <==>
            Needed(text, s, documentType) && !Present(text, documents, documentType)
  {
    RequiredAreNeeded(text, s, documentType);
    CompletedArePresent(text, documents, documentType);
  }

  lemma {:induction false} OwnDocuments(documents: seq<Document>, claimId: string, d: Document)
    ensures d in DocumentsOf(documents, claimId) <==> d in documents && d.claimId == claimId
  {
    if documents != [] {
      var k := |documents| - 1;
      OwnDocuments(documents[..k], claimId, d);
      assert documents == documents[..k] + [documents[k]];
    }
  }

  lemma PresentAmongOwn(text: Text, documents: seq<Document>, claimId: string, documentType: string)
    ensures Present(text, DocumentsOf(documents, claimId), documentType) <==>
            PresentFor(text, documents, claimId, documentType)
  {
    forall d ensures d in DocumentsOf(documents, claimId) <==> d in documents && d.claimId == claimId {
      OwnDocuments(documents, claimId, d);
    }
  }

  /** Nothing is missing exactly when the claim has all its documents. */
  lemma NothingMissingIff(text: Text, claimId: string, claim: Claim, documents: seq<Document>)
    ensures MissingFor(text, claimId, claim, documents) == {} <==> HasAllDocuments(text, documents, claimId, claim.subject)
  {
    var missing := MissingFor(text, claimId, claim, documents);
    forall documentType ensures documentType in missing <==>
      Needed(text, claim.subject, documentType) && !PresentFor(text, documents, claimId, documentType)
    {
      MissingIff(text, claim.subject, DocumentsOf(documents, claimId), documentType);
      PresentAmongOwn(text, documents, claimId, documentType);
    }
    AllNeeded(text, documents, claimId, claim.subject);
    if missing != {} {
      var documentType :| documentType in missing;
    }
  }

  lemma AllNeeded(text: Text, documents: seq<Document>, claimId: string, s: Subject)
    ensures HasAllDocuments(text, documents, claimId, s) <==>
            forall documentType :: Needed(text, s, documentType) ==> PresentFor(text, documents, claimId, documentType)
  {
    assert Needed(text, s, "claim_form") && Needed(text, s, "damage_photo");
    assert WaterDamage(text, s) ==> Needed(text, s, "damage_cause_report") && Needed(text, s, "repair_invoice");
    assert VehicleDamage(text, s) ==> Needed(text, s, "accident_report") && Needed(text, s, "repair_assessment");
  }
}
