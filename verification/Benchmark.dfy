/** Benchmark trials of one model and the figures aggregated from them, in exact arithmetic. */
module Benchmark {
  import opened Ratios
  import opened Results
  import Percentile

  datatype Case = Case(id: string, expectedSources: seq<string>, expectRefusal: bool)

  /** One source per retrieved chunk; the numbers cited in the answer's text. */
  datatype Answer = Answer(
    sources: seq<string>,
    evidenceInsufficient: bool,
    reportsInsufficient: bool,
    citations: seq<int>,
    sameLanguage: bool)

  datatype CheckName = SourcesRetrieved | RefusalBehavior | CitationsValid | LanguageMatches

  datatype Check = Check(name: CheckName, passed: bool)

  /** What running the agent once produced: an exception or an answer. */
  datatype Outcome = Raised | Answered(answer: Answer)

  datatype Run = Run(outcome: Outcome, latency: real)

  datatype Trial = Trial(
    caseId: string,
    passed: bool,
    error: bool,
    sources: seq<string>,
    checks: seq<Check>,
    latency: real)

  function Elements(s: seq<string>): set<string> { set x | x in s }

  function EvaluateTrial(c: Case, a: Answer): seq<Check> {
    var expected := Elements(c.expectedSources);
    var hits := expected * Elements(a.sources);
    var refused := a.evidenceInsufficient && a.reportsInsufficient;
    var cited := a.citations != [] && a.sources != [] && forall n :: n in a.citations ==> 1 <= n <= |a.sources|;
    [ Check(SourcesRetrieved, expected == {} || hits == expected),
      Check(RefusalBehavior, if c.expectRefusal then refused else !refused),
      Check(CitationsValid, c.expectRefusal || cited),
      Check(LanguageMatches, a.sameLanguage) ]
  }

  function RunTrial(c: Case, run: Run): Trial {
    match run.outcome
    case Raised => Trial(c.id, false, true, [], [], run.latency)
    case Answered(a) =>
      var checks := EvaluateTrial(c, a);
      Trial(c.id, forall check :: check in checks ==> check.passed, false, a.sources, checks, run.latency)
  }

  function CaseTrials(c: Case, runs: seq<Run>): seq<Trial> {
    seq(|runs|, i requires 0 <= i < |runs| => RunTrial(c, runs[i]))
  }

  /** All trials of all cases, in the order they are run. */
  function RunTrials(cases: seq<Case>, runs: seq<seq<Run>>): seq<Trial>
    requires |cases| == |runs|
  {
    if cases == [] then []
    else
      var n := |cases| - 1;
      RunTrials(cases[..n], runs[..n]) + CaseTrials(cases[n], runs[n])
  }

  function FindCase(cases: seq<Case>, id: string): Option<Case> {
    if cases == [] then None
    else if cases[0].id == id then Some(cases[0])
    else FindCase(cases[1..], id)
  }

  function FindCheck(checks: seq<Check>, name: CheckName): Option<bool> {
    if checks == [] then None
    else if checks[0].name == name then Some(checks[0].passed)
    else FindCheck(checks[1..], name)
  }

  // The figures, as functions of the trials.

  function Sum(f: Trial -> nat, trials: seq<Trial>): nat {
    if trials == [] then 0
    else Sum(f, trials[..|trials| - 1]) + f(trials[|trials| - 1])
  }

  function Passing(): Trial -> nat { (t: Trial) => if t.passed then 1 else 0 }

  function Answering(): Trial -> nat { (t: Trial) => if t.error then 0 else 1 }

  function ExpectedOf(cases: seq<Case>): Trial -> nat {
    (t: Trial) =>
      if FindCheck(t.checks, SourcesRetrieved).Some? && FindCase(cases, t.caseId).Some? then
        |Elements(FindCase(cases, t.caseId).value.expectedSources)|
      else 0
  }

  function HitsOf(cases: seq<Case>): Trial -> nat {
    (t: Trial) =>
      if FindCheck(t.checks, SourcesRetrieved).Some? && FindCase(cases, t.caseId).Some? then
        |Elements(FindCase(cases, t.caseId).value.expectedSources) * Elements(t.sources)|
      else 0
  }

  /** The outcomes of one check over the trials whose case does, or does not, expect a refusal. */
  function Outcomes(cases: seq<Case>, refusal: bool, name: CheckName, trials: seq<Trial>): seq<bool> {
    if trials == [] then []
    else
      var t := trials[|trials| - 1];
      var earlier := Outcomes(cases, refusal, name, trials[..|trials| - 1]);
      var c, check := FindCase(cases, t.caseId), FindCheck(t.checks, name);
      if c.Some? && c.value.expectRefusal == refusal && check.Some? then earlier + [check.value] else earlier
  }

  function Latencies(trials: seq<Trial>): seq<real> {
    if trials == [] then []
    else
      var t := trials[|trials| - 1];
      Latencies(trials[..|trials| - 1]) + if t.error then [] else [t.latency]
  }

  function Ids(trials: seq<Trial>): set<string> { set t | t in trials :: t.caseId }

  predicate Stable(trials: seq<Trial>, id: string) {
    forall t :: t in trials && t.caseId == id ==> t.passed
  }

  function StableIds(trials: seq<Trial>): set<string> { set id | id in Ids(trials) && Stable(trials, id) }

  function CountTrue(s: seq<bool>): nat {
    if s == [] then 0 else CountTrue(s[..|s| - 1]) + if s[|s| - 1] then 1 else 0
  }

  function Accuracy(checks: seq<bool>): Option<real> {
    if checks == [] then None else Some(Ratio(CountTrue(checks), |checks|, 0.0))
  }

  datatype Quality = Quality(
    totalTrials: nat,
    successfulTrials: nat,
    passedTrials: nat,
    passRate: real,
    sourceRecall: real,
    refusalAccuracy: Option<real>,
    citationValidity: Option<real>,
    stabilityRate: real,
    errorRate: real,
    thresholdPassed: bool)

  datatype Report = Report(quality: Quality, latencyP50: real, latencyP95: real)

  predicate KnownCases(cases: seq<Case>, trials: seq<Trial>) {
    forall t :: t in trials ==> FindCase(cases, t.caseId).Some?
  }

  /** What the quality figures are computed from. */
  datatype Counts = Counts(
    total: nat,
    passed: nat,
    answered: nat,
    sourceHits: nat,
    expectedSources: nat,
    refusalChecks: seq<bool>,
    citationChecks: seq<bool>,
    stableCases: nat,
    cases: nat)

  function CountsOf(cases: seq<Case>, trials: seq<Trial>): (n: Counts)
    ensures n.answered <= n.total
  {
    SumIsAtMost(Answering(), trials);
    Counts(
      |trials|, Sum(Passing(), trials), Sum(Answering(), trials),
      Sum(HitsOf(cases), trials), Sum(ExpectedOf(cases), trials),
      Outcomes(cases, true, RefusalBehavior, trials),
      Outcomes(cases, false, CitationsValid, trials),
      |StableIds(trials)|, |Ids(trials)|)
  }

  function QualityOf(n: Counts, minPassRate: real): Quality
    requires n.answered <= n.total
  {
    var passRate := Ratio(n.passed, n.total, 0.0);
    Quality(
      n.total, n.answered, n.passed, passRate,
      Ratio(n.sourceHits, n.expectedSources, 1.0),
      Accuracy(n.refusalChecks),
      Accuracy(n.citationChecks),
      Ratio(n.stableCases, n.cases, 0.0),
      Ratio(n.total - n.answered, n.total, 0.0),
      passRate >= minPassRate)
  }

  function MedianLatency(latencies: seq<real>): real {
    if latencies == [] then 0.0 else Percentile.Median(latencies)
  }

  /** A trial of a case that is not in the list makes the aggregation raise. */
  function Aggregate(cases: seq<Case>, trials: seq<Trial>, minPassRate: real): Option<Report> {
    if KnownCases(cases, trials) then
      var latencies := Latencies(trials);
      Some(Report(QualityOf(CountsOf(cases, trials), minPassRate),
                  MedianLatency(latencies), Percentile.Percentile95(latencies)))
    else None
  }

  lemma {:induction false} SumIsAtMost(f: Trial -> nat, trials: seq<Trial>)
    requires forall t :: f(t) <= 1
    ensures Sum(f, trials) <= |trials|
    ensures Sum(f, trials) == |trials| <==> forall t :: t in trials ==> f(t) == 1
  {
    if trials != [] {
      var n := |trials| - 1;
      SumIsAtMost(f, trials[..n]);
      assert trials == trials[..n] + [trials[n]];
      assert trials[n] in trials;
    }
  }

  /** The trials grouped by case id. */
  predicate Groups(byCase: map<string, seq<Trial>>, trials: seq<Trial>) {
    && byCase.Keys == Ids(trials)
    && forall id :: id in byCase ==> byCase[id] != [] && GroupOf(byCase[id], trials, id)
  }

  predicate GroupOf(group: seq<Trial>, trials: seq<Trial>, id: string) {
    && (forall t :: t in group ==> t in trials && t.caseId == id)
    && (forall t :: t in trials && t.caseId == id ==> t in group)
  }

  lemma OneMoreInItsGroup(byCase: map<string, seq<Trial>>, trials: seq<Trial>, t: Trial)
    requires Groups(byCase, trials)
    ensures var group := if t.caseId in byCase then byCase[t.caseId] else [];
            Groups(byCase[t.caseId := group + [t]], trials + [t])
  {
    var group := if t.caseId in byCase then byCase[t.caseId] else [];
    var grown := byCase[t.caseId := group + [t]];
    assert t in trials + [t] && t in group + [t];
    assert Ids(trials + [t]) == Ids(trials) + {t.caseId} by {
      forall id | id in Ids(trials) ensures id in Ids(trials + [t]) {
        var u :| u in trials && u.caseId == id;
        assert u in trials + [t];
      }
    }
    if t.caseId !in byCase {
      assert forall u :: u in trials ==> u.caseId in Ids(trials);
    }
    assert GroupOf(group, trials, t.caseId);
    forall id | id in grown ensures GroupOf(grown[id], trials + [t], id) {
      if id != t.caseId {
        assert GroupOf(byCase[id], trials, id);
      }
    }
  }

  /** What the loop over the trials accumulates. */
  datatype Tally = Tally(
    expectedSources: nat,
    sourceHits: nat,
    refusalChecks: seq<bool>,
    citationChecks: seq<bool>,
    byCase: map<string, seq<Trial>>)

  predicate Tallies(cases: seq<Case>, tally: Tally, trials: seq<Trial>) {
    && tally.expectedSources == Sum(ExpectedOf(cases), trials)
    && tally.sourceHits == Sum(HitsOf(cases), trials)
    && tally.refusalChecks == Outcomes(cases, true, RefusalBehavior, trials)
    && tally.citationChecks == Outcomes(cases, false, CitationsValid, trials)
    && Groups(tally.byCase, trials)
  }

  /** One round of the loop, for a trial whose case was found. */
  method CountTrial(cases: seq<Case>, c: Case, tally: Tally, ghost trials: seq<Trial>, trial: Trial)
    returns (next: Tally)
    requires Tallies(cases, tally, trials)
    requires FindCase(cases, trial.caseId) == Some(c)
    ensures Tallies(cases, next, trials + [trial])
  {
    ghost var grown := trials + [trial];
    assert grown[..|grown| - 1] == trials && grown[|grown| - 1] == trial;
    var expectedSources, sourceHits := tally.expectedSources, tally.sourceHits;
    var refusalChecks, citationChecks := tally.refusalChecks, tally.citationChecks;
    if FindCheck(trial.checks, SourcesRetrieved).Some? {
      var expected, actual := Elements(c.expectedSources), Elements(trial.sources);
      expectedSources := expectedSources + |expected|;
      sourceHits := sourceHits + |expected * actual|;
    }
    var refusalCheck := FindCheck(trial.checks, RefusalBehavior);
    if c.expectRefusal && refusalCheck.Some? {
      refusalChecks := refusalChecks + [refusalCheck.value];
    }
    var citationCheck := FindCheck(trial.checks, CitationsValid);
    if !c.expectRefusal && citationCheck.Some? {
      citationChecks := citationChecks + [citationCheck.value];
    }
    OneMoreInItsGroup(tally.byCase, trials, trial);
    var group := if trial.caseId in tally.byCase then tally.byCase[trial.caseId] else [];
    var byCase := tally.byCase[trial.caseId := group + [trial]];
    next := Tally(expectedSources, sourceHits, refusalChecks, citationChecks, byCase);
  }

  method TallyTrials(cases: seq<Case>, trials: seq<Trial>) returns (result: Option<Tally>)
    ensures result.Some? <==> KnownCases(cases, trials)
    ensures result.Some? ==> Tallies(cases, result.value, trials)
  {
    var tally := Tally(0, 0, [], [], map[]);
    for i := 0 to |trials|
      invariant KnownCases(cases, trials[..i])
      invariant Tallies(cases, tally, trials[..i])
    {
      var found := FindCase(cases, trials[i].caseId);
      assert trials[i] in trials;
      if found.None? { return None; }
      tally := CountTrial(cases, found.value, tally, trials[..i], trials[i]);
      assert trials[..i + 1] == trials[..i] + [trials[i]];
    }
    assert trials[..|trials|] == trials;
    return Some(tally);
  }

  method AggregateModel(cases: seq<Case>, trials: seq<Trial>, minPassRate: real) returns (report: Option<Report>)
    ensures report == Aggregate(cases, trials, minPassRate)
  {
    var tallied := TallyTrials(cases, trials);
    if tallied.None? { return None; }
    var tally := tallied.value;
    var stable := set id | id in tally.byCase && forall t :: t in tally.byCase[id] ==> t.passed;
    StableGroups(tally.byCase, trials);
    SumIsAtMost(Answering(), trials);
    var counts := Counts(
      |trials|, Sum(Passing(), trials), Sum(Answering(), trials),
      tally.sourceHits, tally.expectedSources, tally.refusalChecks, tally.citationChecks,
      |stable|, |tally.byCase.Keys|);
    var latencies := Latencies(trials);
    return Some(Report(QualityOf(counts, minPassRate), MedianLatency(latencies), Percentile.Percentile95(latencies)));
  }

  lemma StableGroups(byCase: map<string, seq<Trial>>, trials: seq<Trial>)
    requires Groups(byCase, trials)
    ensures (set id | id in byCase && forall t :: t in byCase[id] ==> t.passed) == StableIds(trials)
  {
    forall id | id in byCase ensures (forall t :: t in byCase[id] ==> t.passed) <==> Stable(trials, id) {
      assert GroupOf(byCase[id], trials, id);
    }
  }
}
