/** What a trial's checks look at, and what each reported figure is a share of. */
module BenchmarkFigures {
  import opened Results
  import opened Benchmark
  import opened BenchmarkTheorems
  import opened Ratios
  import Percentile

  // ---------------------------------------------------------------- one trial

  /** Every expected source was retrieved. */
  predicate FindsSources(c: Case, a: Answer) {
    forall s :: s in c.expectedSources ==> s in a.sources
  }

  /** The answer is a refusal: insufficient evidence, and the text says so. */
  predicate Refuses(a: Answer) {
    a.evidenceInsufficient && a.reportsInsufficient
  }

  /** There are citations and chunks, and every citation points at a chunk. */
  predicate CitesChunks(a: Answer) {
    |a.citations| > 0 && |a.sources| > 0 && forall i :: 0 <= i < |a.citations| ==> 1 <= a.citations[i] <= |a.sources|
  }

  lemma SourcesFound(c: Case, a: Answer)
    ensures var expected := Elements(c.expectedSources);
            (expected == {} || expected * Elements(a.sources) == expected) <==> FindsSources(c, a)
  {
    var expected := Elements(c.expectedSources);
    if FindsSources(c, a) {
      assert expected * Elements(a.sources) == expected;
    }
    if expected == {} || expected * Elements(a.sources) == expected {
      forall s | s in c.expectedSources ensures s in a.sources {
        assert s in expected;
      }
    }
  }

  lemma CitationsFound(a: Answer)
    ensures (a.citations != [] && a.sources != [] && forall n :: n in a.citations ==> 1 <= n <= |a.sources|) <==> CitesChunks(a)
  {
    if CitesChunks(a) {
      forall n | n in a.citations ensures 1 <= n <= |a.sources| {
        var i :| 0 <= i < |a.citations| && a.citations[i] == n;
      }
    } else if forall n :: n in a.citations ==> 1 <= n <= |a.sources| {
      assert forall i :: 0 <= i < |a.citations| ==> a.citations[i] in a.citations;
    }
  }

  lemma FoundAmongFour(sources: bool, refusal: bool, citations: bool, language: bool)
    ensures var checks := [ Check(SourcesRetrieved, sources), Check(RefusalBehavior, refusal),
                            Check(CitationsValid, citations), Check(LanguageMatches, language) ];
            && FindCheck(checks, SourcesRetrieved) == Some(sources)
            && FindCheck(checks, RefusalBehavior) == Some(refusal)
            && FindCheck(checks, CitationsValid) == Some(citations)
            && FindCheck(checks, LanguageMatches) == Some(language)
  {
    var last := [ Check(LanguageMatches, language) ];
    var two := [ Check(CitationsValid, citations) ] + last;
    var three := [ Check(RefusalBehavior, refusal) ] + two;
    var checks := [ Check(SourcesRetrieved, sources) ] + three;
    assert checks[1..] == three && three[1..] == two && two[1..] == last;
    assert FindCheck(two, CitationsValid) == Some(citations);
    assert FindCheck(two, LanguageMatches) == Some(language) by {
      assert FindCheck(last, LanguageMatches) == Some(language);
    }
    assert FindCheck(checks, CitationsValid) == FindCheck(three, CitationsValid) == FindCheck(two, CitationsValid);
    assert FindCheck(checks, LanguageMatches) == FindCheck(three, LanguageMatches) == FindCheck(two, LanguageMatches);
    assert checks == [ Check(SourcesRetrieved, sources), Check(RefusalBehavior, refusal),
                       Check(CitationsValid, citations), Check(LanguageMatches, language) ];
  }

  /** The four checks of an answered trial, by name. */
  lemma ChecksMean(c: Case, run: Run)
    requires run.outcome.Answered?
    ensures var a, checks := run.outcome.answer, RunTrial(c, run).checks;
            && FindCheck(checks, SourcesRetrieved) == Some(FindsSources(c, a))
            && FindCheck(checks, RefusalBehavior) == Some(c.expectRefusal <==> Refuses(a))
            && FindCheck(checks, CitationsValid) == Some(c.expectRefusal || CitesChunks(a))
            && FindCheck(checks, LanguageMatches) == Some(a.sameLanguage)
  {
    var a := run.outcome.answer;
    SourcesFound(c, a);
    CitationsFound(a);
    FoundAmongFour(FindsSources(c, a), c.expectRefusal <==> Refuses(a), c.expectRefusal || CitesChunks(a), a.sameLanguage);
  }

  /** A trial passes exactly when an answer came and all four hold. */
  lemma PassesIff(c: Case, run: Run)
    ensures RunTrial(c, run).passed <==>
            && run.outcome.Answered?
            && var a := run.outcome.answer;
               && FindsSources(c, a) && (c.expectRefusal <==> Refuses(a))
               && (c.expectRefusal || CitesChunks(a)) && a.sameLanguage
    ensures RunTrial(c, run).error <==> run.outcome.Raised?
    ensures RunTrial(c, run).caseId == c.id && RunTrial(c, run).latency == run.latency
  {
    if run.outcome.Answered? {
      var a := run.outcome.answer;
      var checks := EvaluateTrial(c, a);
      SourcesFound(c, a);
      CitationsFound(a);
      assert checks[0] in checks && checks[1] in checks && checks[2] in checks && checks[3] in checks;
    }
  }

  /** A trial is counted under the first case of its id; without one there is none to find. */
  lemma {:induction false} FindsTheFirst(cases: seq<Case>, id: string)
    ensures FindCase(cases, id) == None <==> forall i :: 0 <= i < |cases| ==> cases[i].id != id
    ensures forall i :: 0 <= i < |cases| && cases[i].id == id && (forall j :: 0 <= j < i ==> cases[j].id != id) ==>
              FindCase(cases, id) == Some(cases[i])
  {
    if cases != [] && cases[0].id != id {
      var rest := cases[1..];
      FindsTheFirst(rest, id);
      forall i | 0 < i < |cases| ensures cases[i] == rest[i - 1] {}
      forall i | 0 <= i < |cases| && cases[i].id == id && (forall j :: 0 <= j < i ==> cases[j].id != id)
        ensures FindCase(cases, id) == Some(cases[i])
      {
        assert i > 0 && rest[i - 1].id == id;
        forall j | 0 <= j < i - 1 ensures rest[j].id != id { assert rest[j] == cases[j + 1]; }
      }
    }
  }

  // ---------------------------------------------------------------- shares

  /** The positions of the trials with a property. */
  function Positions(p: Trial -> bool, trials: seq<Trial>): set<nat> {
    set i: nat | i < |trials| && p(trials[i])
  }

  lemma OneMorePosition(p: Trial -> bool, trials: seq<Trial>, t: Trial)
    ensures |Positions(p, trials + [t])| == |Positions(p, trials)| + if p(t) then 1 else 0
  {
    var all := trials + [t];
    assert forall i :: 0 <= i < |trials| ==> all[i] == trials[i];
    assert Positions(p, all) == Positions(p, trials) + if p(t) then {|trials|} else {};
  }

  lemma {:induction false} SumCountsPositions(f: Trial -> nat, p: Trial -> bool, trials: seq<Trial>)
    requires forall t :: f(t) == if p(t) then 1 else 0
    ensures Sum(f, trials) == |Positions(p, trials)|
  {
    if trials != [] {
      var k := |trials| - 1;
      SumCountsPositions(f, p, trials[..k]);
      OneMorePosition(p, trials[..k], trials[k]);
      assert trials == trials[..k] + [trials[k]];
    } else {
      assert Positions(p, trials) == {};
    }
  }

  function Passed(): Trial -> bool { (t: Trial) => t.passed }

  function Failed(): Trial -> bool { (t: Trial) => t.error }

  function Answered(): Trial -> bool { (t: Trial) => !t.error }

  lemma {:induction false} AnsweredOrFailed(trials: seq<Trial>)
    ensures |Positions(Answered(), trials)| + |Positions(Failed(), trials)| == |trials|
  {
    if trials == [] {
      assert Positions(Answered(), trials) == {} && Positions(Failed(), trials) == {};
    } else {
      var k := |trials| - 1;
      AnsweredOrFailed(trials[..k]);
      OneMorePosition(Answered(), trials[..k], trials[k]);
      OneMorePosition(Failed(), trials[..k], trials[k]);
      assert trials == trials[..k] + [trials[k]];
    }
  }

  /** The counted figures and the rates, each a share of the trials, the cases or the expected sources. */
  lemma FiguresAreShares(cases: seq<Case>, trials: seq<Trial>, minPassRate: real)
    ensures var q := QualityOf(CountsOf(cases, trials), minPassRate);
            && q.totalTrials == |trials|
            && q.passedTrials == |Positions(Passed(), trials)|
            && q.successfulTrials == |Positions(Answered(), trials)|
            && IsShare(q.passRate, |Positions(Passed(), trials)|, |trials|, 0.0)
            && IsShare(q.errorRate, |Positions(Failed(), trials)|, |trials|, 0.0)
            && IsShare(q.stabilityRate, |StableIds(trials)|, |Ids(trials)|, 0.0)
            && IsShare(q.sourceRecall, Sum(HitsOf(cases), trials), Sum(ExpectedOf(cases), trials), 1.0)
  {
    SumCountsPositions(Passing(), Passed(), trials);
    SumCountsPositions(Answering(), Answered(), trials);
    AnsweredOrFailed(trials);
    var n := CountsOf(cases, trials);
    RatioIsShare(n.passed, n.total, 0.0);
    RatioIsShare(n.total - n.answered, n.total, 0.0);
    RatioIsShare(n.stableCases, n.cases, 0.0);
    RatioIsShare(n.sourceHits, n.expectedSources, 1.0);
  }

  /** The threshold passes when at least the asked share of the trials passed; without trials only a threshold of 0 does. */
  lemma ThresholdMeans(cases: seq<Case>, trials: seq<Trial>, minPassRate: real)
    ensures QualityOf(CountsOf(cases, trials), minPassRate).thresholdPassed <==>
            IsReached(minPassRate, |Positions(Passed(), trials)|, |trials|)
  {
    SumCountsPositions(Passing(), Passed(), trials);
    ThresholdOfCounts(CountsOf(cases, trials), minPassRate);
  }

  lemma ThresholdOfCounts(n: Counts, minPassRate: real)
    requires n.answered <= n.total
    ensures QualityOf(n, minPassRate).thresholdPassed <==> IsReached(minPassRate, n.passed, n.total)
  {
    RatioReaches(n.passed, n.total, minPassRate);
  }

  // ---------------------------------------------------------------- accuracies

  /** The trial's case expects a refusal, or does not, and the check was made. */
  function Checked(cases: seq<Case>, refusal: bool, name: CheckName): Trial -> bool {
    (t: Trial) =>
      && FindCase(cases, t.caseId).Some? && FindCase(cases, t.caseId).value.expectRefusal == refusal
      && FindCheck(t.checks, name).Some?
  }

  function CheckedOk(cases: seq<Case>, refusal: bool, name: CheckName): Trial -> bool {
    (t: Trial) => Checked(cases, refusal, name)(t) && FindCheck(t.checks, name) == Some(true)
  }

  lemma {:induction false} OutcomesAreCounted(cases: seq<Case>, refusal: bool, name: CheckName, trials: seq<Trial>)
    ensures var outcomes := Outcomes(cases, refusal, name, trials);
            && |outcomes| == |Positions(Checked(cases, refusal, name), trials)|
            && CountTrue(outcomes) == |Positions(CheckedOk(cases, refusal, name), trials)|
  {
    if trials == [] {
      assert Positions(Checked(cases, refusal, name), trials) == {};
      assert Positions(CheckedOk(cases, refusal, name), trials) == {};
    } else {
      var k := |trials| - 1;
      OutcomesAreCounted(cases, refusal, name, trials[..k]);
      OneMorePosition(Checked(cases, refusal, name), trials[..k], trials[k]);
      OneMorePosition(CheckedOk(cases, refusal, name), trials[..k], trials[k]);
      assert trials == trials[..k] + [trials[k]];
      if Checked(cases, refusal, name)(trials[k]) {
        OneMoreOutcome(Outcomes(cases, refusal, name, trials[..k]), FindCheck(trials[k].checks, name).value);
      }
    }
  }

  lemma OneMoreOutcome(outcomes: seq<bool>, outcome: bool)
    ensures CountTrue(outcomes + [outcome]) == CountTrue(outcomes) + if outcome then 1 else 0
  {
    assert (outcomes + [outcome])[..|outcomes|] == outcomes;
  }

  /** An accuracy is absent without checked trials, and else the share of them that were in order. */
  predicate IsAccuracy(accuracy: Option<real>, ok: nat, checked: nat) {
    if checked == 0 then accuracy == None else accuracy.Some? && accuracy.value * checked as real == ok as real
  }

  /** Refusals are judged on the cases that expect one, citations on all others. */
  lemma AccuraciesAreShares(cases: seq<Case>, trials: seq<Trial>, minPassRate: real)
    ensures var q := QualityOf(CountsOf(cases, trials), minPassRate);
            && IsAccuracy(q.refusalAccuracy, |Positions(CheckedOk(cases, true, RefusalBehavior), trials)|,
                          |Positions(Checked(cases, true, RefusalBehavior), trials)|)
            && IsAccuracy(q.citationValidity, |Positions(CheckedOk(cases, false, CitationsValid), trials)|,
                          |Positions(Checked(cases, false, CitationsValid), trials)|)
  {
    OutcomesAreCounted(cases, true, RefusalBehavior, trials);
    OutcomesAreCounted(cases, false, CitationsValid, trials);
    AccuracyIsShare(Outcomes(cases, true, RefusalBehavior, trials));
    AccuracyIsShare(Outcomes(cases, false, CitationsValid, trials));
  }

  lemma AccuracyIsShare(checks: seq<bool>)
    ensures IsAccuracy(Accuracy(checks), CountTrue(checks), |checks|)
  {
    RatioIsShare(CountTrue(checks), |checks|, 0.0);
  }

  // ---------------------------------------------------------------- latencies

  function Took(latency: real): Trial -> bool { (t: Trial) => !t.error && t.latency == latency }

  /** The latencies are those of the answered trials, each as often as it occurs. */
  lemma {:induction false} LatenciesAreThoseAnswered(trials: seq<Trial>, latency: real)
    ensures multiset(Latencies(trials))[latency] == |Positions(Took(latency), trials)|
  {
    if trials == [] {
      assert Positions(Took(latency), trials) == {};
    } else {
      var k := |trials| - 1;
      LatenciesAreThoseAnswered(trials[..k], latency);
      OneMorePosition(Took(latency), trials[..k], trials[k]);
      assert trials == trials[..k] + [trials[k]];
    }
  }

  /** The reported p95 stands at the nearest rank among the latencies, the reported p50 in the middle. */
  lemma LatencyFiguresStand(cases: seq<Case>, trials: seq<Trial>, minPassRate: real)
    returns (k: nat, low: real, high: real)
    requires KnownCases(cases, trials) && Latencies(trials) != []
    ensures var r, latencies := Aggregate(cases, trials, minPassRate).value, Latencies(trials);
            && k as real <= 0.95 * (|latencies| - 1) as real + 0.5 < k as real + 1.0
            && Percentile.AtPosition(latencies, r.latencyP95, k)
            && Percentile.AtPosition(latencies, low, (|latencies| - 1) / 2)
            && Percentile.AtPosition(latencies, high, |latencies| / 2)
            && r.latencyP50 == (low + high) / 2.0
  {
    k := Percentile.PercentileIsNearestRank(Latencies(trials));
    low, high := Percentile.MedianIsMiddle(Latencies(trials));
  }
}
