/** Reading the audit trail back: what the append-only rows say about a claim and its runs. */
module ClaimHistory {
  import opened Results
  import opened ClaimRules
  import opened ActionDesk
  import opened ClaimStore

  /**
   The status a claim reaches when its status changes are replayed from Draft, or None
   if one of them does not start where the one before it ended, stands still, or is not
   an allowed transition.
   */
  function Replay(audit: Trail, claimId: string): Option<ClaimStatus> {
    if audit == [] then Some(Draft)
    else
      var before, row := Replay(audit[..|audit| - 1], claimId), audit[|audit| - 1];
      if row.claimId != claimId || !row.event.StatusChanged? then before
      else if before == Some(row.event.was) && row.event.was != row.event.now
              && TransitionAllowed(row.event.was, row.event.now) then Some(row.event.now)
      else None
  }

  /** The human decisions recorded for a claim, oldest first. */
  function Decisions(audit: Trail, claimId: string): seq<Decision> {
    if audit == [] then []
    else
      var before, row := Decisions(audit[..|audit| - 1], claimId), audit[|audit| - 1];
      if row.claimId == claimId && row.event.HumanDecision? then before + [row.event.decision] else before
  }

  /** The steps recorded for a run, oldest first. */
  function Steps(audit: Trail, runId: string): seq<ReviewStep> {
    if audit == [] then []
    else
      var before, row := Steps(audit[..|audit| - 1], runId), audit[|audit| - 1];
      if row.event.ReviewProgress? && row.event.runId == runId then before + [row.event.step] else before
  }

  /** A completed review with sufficient evidence and nothing missing. */
  predicate IsGoodReview(row: AuditRow, claimId: string) {
    row.claimId == claimId && row.event.ReviewCompleted? && row.event.evidence == Sufficient && row.event.missing == {}
  }

  predicate GoodReview(audit: Trail, claimId: string) {
    exists row :: row in audit && IsGoodReview(row, claimId)
  }

  /** Every human decision on the claim comes after a good review of it. */
  predicate DecidedOnReview(audit: Trail, claimId: string) {
    audit == [] ||
    var before, row := audit[..|audit| - 1], audit[|audit| - 1];
    && DecidedOnReview(before, claimId)
    && (row.claimId == claimId && row.event.HumanDecision? ==> GoodReview(before, claimId))
  }

  /** One more row, as the readers of the trail see it. */
  lemma OneMoreRow(audit: Trail, row: AuditRow, id: string)
    ensures Replay(audit + [row], id) ==
            if row.claimId != id || !row.event.StatusChanged? then Replay(audit, id)
            else if Replay(audit, id) == Some(row.event.was) && row.event.was != row.event.now
                    && TransitionAllowed(row.event.was, row.event.now) then Some(row.event.now)
            else None
    ensures Decisions(audit + [row], id) ==
            Decisions(audit, id) + (if row.claimId == id && row.event.HumanDecision? then [row.event.decision] else [])
    ensures Steps(audit + [row], id) ==
            Steps(audit, id) + (if row.event.ReviewProgress? && row.event.runId == id then [row.event.step] else [])
    ensures GoodReview(audit + [row], id) == (GoodReview(audit, id) || IsGoodReview(row, id))
    ensures DecidedOnReview(audit + [row], id) ==
            (DecidedOnReview(audit, id) && (row.claimId == id && row.event.HumanDecision? ==> GoodReview(audit, id)))
  {
    var longer := audit + [row];
    assert longer[..|longer| - 1] == audit && longer[|longer| - 1] == row;
    assert forall r :: r in longer <==> r in audit || r == row;
  }

  /** The two trails say the same about every claim but one. */
  ghost predicate SameExcept(a: Trail, b: Trail, claimId: string) {
    forall id :: id != claimId ==>
      && Replay(b, id) == Replay(a, id)
      && Decisions(b, id) == Decisions(a, id)
      && DecidedOnReview(b, id) == DecidedOnReview(a, id)
      && GoodReview(b, id) == GoodReview(a, id)
  }

  /** The two trails record the same steps for every run but one. */
  ghost predicate SameStepsExcept(a: Trail, b: Trail, runId: string) {
    forall run :: run != runId ==> Steps(b, run) == Steps(a, run)
  }

  ghost predicate SameSteps(a: Trail, b: Trail) {
    forall run :: Steps(b, run) == Steps(a, run)
  }

  lemma RowConcernsItsClaim(audit: Trail, row: AuditRow)
    ensures SameExcept(audit, audit + [row], row.claimId)
    ensures !row.event.ReviewProgress? ==> SameSteps(audit, audit + [row])
    ensures row.event.ReviewProgress? ==> SameStepsExcept(audit, audit + [row], row.event.runId)
  {
    forall id { OneMoreRow(audit, row, id); }
  }

  lemma TwoRowsConcernTheirClaim(audit: Trail, first: AuditRow, second: AuditRow)
    requires first.claimId == second.claimId
    requires !first.event.ReviewProgress? && !second.event.ReviewProgress?
    ensures SameExcept(audit, audit + [first] + [second], first.claimId)
    ensures SameSteps(audit, audit + [first] + [second])
  {
    RowConcernsItsClaim(audit, first);
    RowConcernsItsClaim(audit + [first], second);
  }

  /** A decision read from the trail is there, and a good review stands before it. */
  lemma {:induction false} DecisionHasItsReview(audit: Trail, claimId: string) returns (at: nat, review: nat)
    requires DecidedOnReview(audit, claimId) && Decisions(audit, claimId) != []
    ensures review < at < |audit|
    ensures audit[at].claimId == claimId && audit[at].event.HumanDecision?
    ensures audit[at].event.decision == Decisions(audit, claimId)[|Decisions(audit, claimId)| - 1]
    ensures IsGoodReview(audit[review], claimId)
    ensures forall i :: at < i < |audit| ==> !(audit[i].claimId == claimId && audit[i].event.HumanDecision?)
  {
    var before, row := audit[..|audit| - 1], audit[|audit| - 1];
    if row.claimId == claimId && row.event.HumanDecision? {
      at := |audit| - 1;
      var good :| good in before && IsGoodReview(good, claimId);
      review :| review < |before| && before[review] == good;
    } else {
      at, review := DecisionHasItsReview(before, claimId);
    }
  }

  /** No decision on record means no decision row. */
  lemma {:induction false} NoDecisionNoRow(audit: Trail, claimId: string)
    requires Decisions(audit, claimId) == []
    ensures forall i :: 0 <= i < |audit| ==> !(audit[i].claimId == claimId && audit[i].event.HumanDecision?)
  {
    if audit != [] {
      NoDecisionNoRow(audit[..|audit| - 1], claimId);
    }
  }
}
