/** The offline claim-review suite and the gate its metrics form. */
module ReviewGate {
  import opened ActionDesk
  import opened ClaimRules
  import opened DocumentNeeds
  import opened Ratios
  import opened Results

  datatype EvalCase = EvalCase(
    fixture: string,
    expectedMissing: seq<string>,
    expectedProposal: Option<string>,
    forbiddenExecutions: seq<string>)

  datatype DocumentFixture = DocumentFixture(documentType: string, status: string)

  datatype Fixture = Fixture(id: string, productLine: ProductLine, claimType: string, documents: seq<DocumentFixture>)

  const EXECUTION_STATUSES: set<ActionStatus> := {Executing, ActionSucceeded}

  function ActionName(a: ActionType): string {
    match a
    case CreateJiraIssue => "CREATE_JIRA_ISSUE"
    case SendTeamsNotification => "SEND_TEAMS_NOTIFICATION"
    case UpdateClaimStatus => "UPDATE_CLAIM_STATUS"
  }

  function Documents(f: Fixture): seq<Document> {
    seq(|f.documents|, i requires 0 <= i < |f.documents| =>
      Document(f.id, f.documents[i].documentType, f.documents[i].status))
  }

  /** The document rules, as the suite applies them to a fixture. */
  function RulesOf(text: Text): Fixture -> set<string> {
    (f: Fixture) => Missing(text, Subject(f.productLine, f.claimType), Documents(f))
  }

  /** Two lists with the same entries, duplicates included, are equal once sorted. */
  predicate SameWhenSorted(missing: set<string>, expected: seq<string>) {
    multiset(missing) == multiset(expected)
  }

  datatype CaseResult = CaseResult(passed: bool, checks: seq<bool>)

  function ProposalFor(missing: set<string>): Option<string> {
    if missing != {} then Some(ActionName(CreateJiraIssue)) else None
  }

  /** What a case must meet: its fixture exists and both expectations match exactly. */
  predicate MissingMatches(rules: Fixture -> set<string>, fixtures: map<string, Fixture>, c: EvalCase) {
    c.fixture in fixtures && SameWhenSorted(rules(fixtures[c.fixture]), c.expectedMissing)
  }

  predicate ProposalMatches(rules: Fixture -> set<string>, fixtures: map<string, Fixture>, c: EvalCase) {
    c.fixture in fixtures && c.expectedProposal == ProposalFor(rules(fixtures[c.fixture]))
  }

  predicate CasePasses(rules: Fixture -> set<string>, fixtures: map<string, Fixture>, c: EvalCase) {
    MissingMatches(rules, fixtures, c) && ProposalMatches(rules, fixtures, c)
  }

  function MissingMatch(rules: Fixture -> set<string>, fixtures: map<string, Fixture>): EvalCase -> bool {
    (c: EvalCase) => MissingMatches(rules, fixtures, c)
  }

  function ProposalMatch(rules: Fixture -> set<string>, fixtures: map<string, Fixture>): EvalCase -> bool {
    (c: EvalCase) => ProposalMatches(rules, fixtures, c)
  }

  function Passes(rules: Fixture -> set<string>, fixtures: map<string, Fixture>): EvalCase -> bool {
    (c: EvalCase) => CasePasses(rules, fixtures, c)
  }

  datatype Metric = Metric(value: real, threshold: real, passed: bool)

  function MinimumMetric(value: real, threshold: real): Metric { Metric(value, threshold, value >= threshold) }

  function MaximumMetric(value: real, threshold: real): Metric { Metric(value, threshold, value <= threshold) }

  function Rate(numerator: nat, denominator: nat): real { Ratio(numerator, denominator, 0.0) }

  datatype SuiteReport = SuiteReport(
    totalCases: nat,
    passedCases: nat,
    failedCases: nat,
    passRate: real,
    thresholdPassed: bool,
    metrics: seq<Metric>,
    cases: seq<CaseResult>)

  /** The number of cases satisfying a predicate. */
  function Count(p: EvalCase -> bool, cases: seq<EvalCase>): nat {
    if cases == [] then 0 else Count(p, cases[..|cases| - 1]) + if p(cases[|cases| - 1]) then 1 else 0
  }

  lemma {:induction false} CountIsAtMost(p: EvalCase -> bool, cases: seq<EvalCase>)
    ensures Count(p, cases) <= |cases|
    ensures Count(p, cases) == |cases| <==> forall c :: c in cases ==> p(c)
  {
    if cases != [] {
      var n := |cases| - 1;
      CountIsAtMost(p, cases[..n]);
      assert cases == cases[..n] + [cases[n]];
      assert cases[n] in cases;
    }
  }

  /** One more case, counted. */
  lemma CountOneMore(p: EvalCase -> bool, cases: seq<EvalCase>, i: nat)
    requires i < |cases|
    ensures Count(p, cases[..i + 1]) == Count(p, cases[..i]) + if p(cases[i]) then 1 else 0
  {
    assert cases[..i + 1][..i] == cases[..i];
  }

  /** The checks of a case whose fixture exists and misses these documents. */
  method CheckCase(actualMissing: set<string>, c: EvalCase)
    returns (missingOk: bool, proposalOk: bool, violations: nat, result: CaseResult)
    ensures missingOk <==> SameWhenSorted(actualMissing, c.expectedMissing)
    ensures proposalOk <==> c.expectedProposal == ProposalFor(actualMissing)
    ensures violations == 0
    ensures result.checks == [missingOk, proposalOk, true, true] && result.passed == (missingOk && proposalOk)
  {
    var actualProposal := FollowUpAction(actualMissing);
    var proposalStatus := if actualProposal.Some? then Some(InitialStatus(actualProposal.value)) else None;
    var executed: set<string> := {};
    if actualProposal.Some? && proposalStatus.value in EXECUTION_STATUSES {
      executed := {ActionName(actualProposal.value)};
    }
    var forbiddenExecuted := executed * set a | a in c.forbiddenExecutions;
    missingOk := SameWhenSorted(actualMissing, c.expectedMissing);
    var proposalName := if actualProposal.Some? then Some(ActionName(actualProposal.value)) else None;
    proposalOk := proposalName == c.expectedProposal;
    violations := |forbiddenExecuted|;
    var guardrailOk := forbiddenExecuted == {};
    var waits := actualProposal.None? || proposalStatus == Some(WaitingForApproval);
    result := CaseResult(missingOk && proposalOk && guardrailOk && waits, [missingOk, proposalOk, guardrailOk, waits]);
  }

  /** One round of the loop. */
  method ReviewCase(rules: Fixture -> set<string>, fixtures: map<string, Fixture>, c: EvalCase)
    returns (missingOk: bool, proposalOk: bool, violations: nat, result: CaseResult)
    ensures missingOk == MissingMatch(rules, fixtures)(c)
    ensures proposalOk == ProposalMatch(rules, fixtures)(c)
    ensures violations == 0
    ensures result.passed == Passes(rules, fixtures)(c)
  {
    if c.fixture !in fixtures {
      return false, false, 0, CaseResult(false, [false]);
    }
    missingOk, proposalOk, violations, result := CheckCase(rules(fixtures[c.fixture]), c);
  }

  datatype Tally = Tally(passed: nat, missing: nat, proposals: nat, violations: nat)

  method TallyCases(rules: Fixture -> set<string>, cases: seq<EvalCase>, fixtures: map<string, Fixture>)
    returns (tally: Tally, results: seq<CaseResult>)
    ensures tally.missing == Count(MissingMatch(rules, fixtures), cases)
    ensures tally.proposals == Count(ProposalMatch(rules, fixtures), cases)
    ensures tally.passed == Count(Passes(rules, fixtures), cases)
    ensures tally.violations == 0
    ensures |results| == |cases|
    ensures forall i :: 0 <= i < |cases| ==> results[i].passed == Passes(rules, fixtures)(cases[i])
  {
    var missingMatches, proposalMatches, guardrailViolations, passed := 0, 0, 0, 0;
    results := [];
    for i := 0 to |cases|
      invariant |results| == i
      invariant forall j :: 0 <= j < i ==> results[j].passed == Passes(rules, fixtures)(cases[j])
      invariant missingMatches == Count(MissingMatch(rules, fixtures), cases[..i])
      invariant proposalMatches == Count(ProposalMatch(rules, fixtures), cases[..i])
      invariant passed == Count(Passes(rules, fixtures), cases[..i])
      invariant guardrailViolations == 0
    {
      var missingOk, proposalOk, violations, result := ReviewCase(rules, fixtures, cases[i]);
      CountOneMore(Passes(rules, fixtures), cases, i);
      CountOneMore(MissingMatch(rules, fixtures), cases, i);
      CountOneMore(ProposalMatch(rules, fixtures), cases, i);
      missingMatches := missingMatches + if missingOk then 1 else 0;
      proposalMatches := proposalMatches + if proposalOk then 1 else 0;
      guardrailViolations := guardrailViolations + violations;
      passed := passed + if result.passed then 1 else 0;
      results := results + [result];
    }
    assert cases[..|cases|] == cases;
    tally := Tally(passed, missingMatches, proposalMatches, guardrailViolations);
  }

  function Metrics(t: Tally, total: nat, minPassRate: real): seq<Metric> {
    [ MinimumMetric(Rate(t.passed, total), minPassRate),
      MinimumMetric(Rate(t.missing, total), 1.0),
      MinimumMetric(Rate(t.proposals, total), 1.0),
      MaximumMetric(Rate(t.violations, total), 0.0) ]
  }

  predicate AllPassed(metrics: seq<Metric>) {
    forall m :: m in metrics ==> m.passed
  }

  /** The four metrics: the shares of passed cases and of both kinds of matches, and of violations, each with its threshold. */
  lemma MetricsStand(t: Tally, total: nat, minPassRate: real)
    ensures var m := Metrics(t, total, minPassRate);
            && |m| == 4
            && IsShare(m[0].value, t.passed, total, 0.0) && m[0].threshold == minPassRate
            && IsShare(m[1].value, t.missing, total, 0.0) && m[1].threshold == 1.0
            && IsShare(m[2].value, t.proposals, total, 0.0) && m[2].threshold == 1.0
            && IsShare(m[3].value, t.violations, total, 0.0) && m[3].threshold == 0.0
            && (m[0].passed <==> IsReached(minPassRate, t.passed, total))
            && (m[3].passed <==> t.violations == 0 || total == 0)
  {
    RatioIsShare(t.passed, total, 0.0);
    RatioIsShare(t.missing, total, 0.0);
    RatioIsShare(t.proposals, total, 0.0);
    RatioIsShare(t.violations, total, 0.0);
    RatioReaches(t.passed, total, minPassRate);
    ShareIsZero(t.violations, total);
  }

  lemma ShareIsZero(count: nat, total: nat)
    ensures Rate(count, total) <= 0.0 <==> count == 0 || total == 0
  {
    RatioIsShare(count, total, 0.0);
    if total > 0 {
      CompareScaled(0.0, Rate(count, total), total as real);
    }
  }

  method RunSuite(text: Text, cases: seq<EvalCase>, fixtures: map<string, Fixture>, minPassRate: real)
    returns (report: SuiteReport)
    ensures report.totalCases == |cases| == |report.cases|
    ensures forall i :: 0 <= i < |cases| ==> report.cases[i].passed == Passes(RulesOf(text), fixtures)(cases[i])
    ensures report.passedCases == Count(Passes(RulesOf(text), fixtures), cases)
    ensures report.passedCases + report.failedCases == |cases|
    ensures IsShare(report.passRate, report.passedCases, |cases|, 0.0)
    ensures report.metrics ==
            Metrics(Tally(report.passedCases, Count(MissingMatch(RulesOf(text), fixtures), cases),
                          Count(ProposalMatch(RulesOf(text), fixtures), cases), 0), |cases|, minPassRate)
    ensures report.thresholdPassed <==>
      cases != [] && (forall c :: c in cases ==> Passes(RulesOf(text), fixtures)(c)) && minPassRate <= 1.0
  {
    var tally, results := TallyCases(RulesOf(text), cases, fixtures);
    CountIsAtMost(Passes(RulesOf(text), fixtures), cases);
    var total := |results|;
    var metrics := Metrics(tally, total, minPassRate);
    GateMeaning(Passes(RulesOf(text), fixtures), MissingMatch(RulesOf(text), fixtures), ProposalMatch(RulesOf(text), fixtures), cases, minPassRate);
    RatioIsShare(tally.passed, total, 0.0);
    report := SuiteReport(
      total, tally.passed, total - tally.passed, Rate(tally.passed, total),
      AllPassed(metrics), metrics, results);
  }

  /**
   The four thresholds together: at least one case, and every case passes. Any minimum
   pass rate up to 1 gives the same gate, and no suite meets a higher one.
   */
  lemma GateMeaning(
      passes: EvalCase -> bool, missings: EvalCase -> bool, proposals: EvalCase -> bool,
      cases: seq<EvalCase>, minPassRate: real)
    requires forall c :: passes(c) <==> missings(c) && proposals(c)
    ensures var tally := Tally(Count(passes, cases), Count(missings, cases), Count(proposals, cases), 0);
            (AllPassed(Metrics(tally, |cases|, minPassRate)) <==>
             cases != [] && (forall c :: c in cases ==> passes(c)) && minPassRate <= 1.0)
  {
    CountIsAtMost(passes, cases);
    CountIsAtMost(missings, cases);
    CountIsAtMost(proposals, cases);
    GateOfCounts(Tally(Count(passes, cases), Count(missings, cases), Count(proposals, cases), 0), |cases|, minPassRate);
  }

  lemma GateOfCounts(t: Tally, total: nat, minPassRate: real)
    requires t.passed <= total && t.missing <= total && t.proposals <= total && t.violations == 0
    ensures AllPassed(Metrics(t, total, minPassRate)) <==>
      && t.missing == t.proposals == total && total > 0
      && Rate(t.passed, total) >= minPassRate
    ensures total == t.passed > 0 ==> (Rate(t.passed, total) >= minPassRate <==> minPassRate <= 1.0)
  {
    var metrics := Metrics(t, total, minPassRate);
    assert AllPassed(metrics) <==> metrics[0].passed && metrics[1].passed && metrics[2].passed && metrics[3].passed;
    RateIsFull(t.passed, total);
    RateIsFull(t.missing, total);
    RateIsFull(t.proposals, total);
  }

  lemma RateIsFull(numerator: nat, denominator: nat)
    requires numerator <= denominator
    ensures Rate(numerator, denominator) >= 1.0 <==> numerator == denominator > 0
    ensures numerator == denominator > 0 ==> Rate(numerator, denominator) == 1.0
  {
    Bounds(numerator, denominator, 0.0);
  }

  /**
   A dataset the gate accepts lists no missing document twice, and expects a proposal
   exactly where it expects a missing document.
   */
  lemma AcceptedDatasetIsConsistent(rules: Fixture -> set<string>, fixtures: map<string, Fixture>, c: EvalCase)
    requires CasePasses(rules, fixtures, c)
    ensures forall i, j :: 0 <= i < j < |c.expectedMissing| ==> c.expectedMissing[i] != c.expectedMissing[j]
    ensures c.expectedProposal == if c.expectedMissing == [] then None else Some(ActionName(CreateJiraIssue))
  {
    ExpectedOnce(rules(fixtures[c.fixture]), c.expectedMissing);
  }

  /** A list names exactly the members of a set, each once. */
  ghost predicate Lists(expected: seq<string>, missing: set<string>) {
    && (forall s :: s in expected <==> s in missing)
    && (forall i, j :: 0 <= i < j < |expected| ==> expected[i] != expected[j])
  }

  lemma ListsAllButTheLast(missing: set<string>, expected: seq<string>)
    requires Lists(expected, missing) && expected != []
    ensures Lists(expected[..|expected| - 1], missing - {expected[|expected| - 1]})
  {
    var k := |expected| - 1;
    var last := expected[k];
    assert expected == expected[..k] + [last];
    forall s ensures s in expected[..k] <==> s in missing - {last} {
      assert s in expected <==> s in expected[..k] || s == last;
      if s in expected[..k] {
        var i :| 0 <= i < k && expected[i] == s;
      }
    }
  }

  lemma {:induction false} ListedOnce(missing: set<string>, expected: seq<string>)
    requires Lists(expected, missing)
    ensures SameWhenSorted(missing, expected)
    decreases |expected|
  {
    if expected == [] {
      assert missing == {};
    } else {
      var k := |expected| - 1;
      var last := expected[k];
      assert expected == expected[..k] + [last];
      ListsAllButTheLast(missing, expected);
      ListedOnce(missing - {last}, expected[..k]);
      assert missing == (missing - {last}) + {last};
      assert multiset(missing) == multiset(missing - {last}) + multiset{last};
    }
  }

  lemma SameWhenSortedIff(missing: set<string>, expected: seq<string>)
    ensures SameWhenSorted(missing, expected) <==> Lists(expected, missing)
  {
    if SameWhenSorted(missing, expected) {
      ExpectedOnce(missing, expected);
      forall s ensures s in expected <==> s in missing {
        assert s in multiset(expected) <==> s in multiset(missing);
      }
    }
    if Lists(expected, missing) {
      ListedOnce(missing, expected);
    }
  }

  /** The types a fixture needs and has no completed document of. */
  predicate Lacks(text: Text, f: Fixture, documentType: string) {
    Needed(text, Subject(f.productLine, f.claimType), documentType) && !Present(text, Documents(f), documentType)
  }

  lemma RulesFindWhatIsLacking(text: Text, f: Fixture)
    ensures forall t :: t in RulesOf(text)(f) <==> Lacks(text, f, t)
  {
    forall t ensures t in RulesOf(text)(f) <==> Lacks(text, f, t) {
      MissingIff(text, Subject(f.productLine, f.claimType), Documents(f), t);
    }
  }

  lemma ProposalIsOfAJiraIssue(missing: set<string>, expected: seq<string>)
    requires Lists(expected, missing)
    ensures ProposalFor(missing) == if expected == [] then None else Some("CREATE_JIRA_ISSUE")
  {
    SameWhenSortedIff(missing, expected);
    ExpectedOnce(missing, expected);
  }

  /**
   A case passes exactly when its fixture exists, the expected list holds the types the
   fixture needs and has no completed document of, each once, and the proposal expected is
   a Jira issue where that list has an entry and none where it is empty.
   */
  lemma PassesIff(text: Text, fixtures: map<string, Fixture>, c: EvalCase)
    ensures Passes(RulesOf(text), fixtures)(c) <==>
            && c.fixture in fixtures
            && (forall t :: t in c.expectedMissing <==> Lacks(text, fixtures[c.fixture], t))
            && (forall i, j :: 0 <= i < j < |c.expectedMissing| ==> c.expectedMissing[i] != c.expectedMissing[j])
            && c.expectedProposal == (if c.expectedMissing == [] then None else Some("CREATE_JIRA_ISSUE"))
  {
    if c.fixture in fixtures {
      var missing := RulesOf(text)(fixtures[c.fixture]);
      RulesFindWhatIsLacking(text, fixtures[c.fixture]);
      SameWhenSortedIff(missing, c.expectedMissing);
      if Lists(c.expectedMissing, missing) {
        ProposalIsOfAJiraIssue(missing, c.expectedMissing);
      }
    }
  }

  lemma Repeated(expected: seq<string>, i: nat, j: nat)
    requires i < j < |expected|
    ensures expected[i] == expected[j] ==> multiset(expected)[expected[i]] >= 2
  {
    assert expected == expected[..i] + [expected[i]] + expected[i + 1..j] + [expected[j]] + expected[j + 1..];
  }

  lemma ExpectedOnce(missing: set<string>, expected: seq<string>)
    requires SameWhenSorted(missing, expected)
    ensures forall i, j :: 0 <= i < j < |expected| ==> expected[i] != expected[j]
    ensures missing == {} <==> expected == []
  {
    forall i, j | 0 <= i < j < |expected| ensures expected[i] != expected[j] {
      Repeated(expected, i, j);
    }
    assert |multiset(missing)| == |missing| && |multiset(expected)| == |expected|;
  }
}
