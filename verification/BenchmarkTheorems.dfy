/** How the figures of a benchmark relate, whatever the model answers. */
module BenchmarkTheorems {
  import opened Benchmark
  import opened Collections
  import opened Ratios
  import opened Results
  import Percentile

  predicate DistinctIds(cases: seq<Case>) {
    forall i, j :: 0 <= i < j < |cases| ==> cases[i].id != cases[j].id
  }

  /** Every case is run the same number of times. */
  predicate EqualTrials(runs: seq<seq<Run>>, n: nat) {
    forall i :: 0 <= i < |runs| ==> |runs[i]| == n
  }

  lemma {:induction false} SumOfConcat(f: Trial -> nat, a: seq<Trial>, b: seq<Trial>)
    ensures Sum(f, a + b) == Sum(f, a) + Sum(f, b)
  {
    if b == [] {
      assert a + b == a;
    } else {
      var n := |b| - 1;
      SumOfConcat(f, a, b[..n]);
      assert (a + b)[..|a + b| - 1] == a + b[..n];
    }
  }

  lemma {:induction false} SumIsMonotone(f: Trial -> nat, g: Trial -> nat, trials: seq<Trial>)
    requires forall t :: t in trials ==> f(t) <= g(t)
    ensures Sum(f, trials) <= Sum(g, trials)
    ensures Sum(f, trials) == Sum(g, trials) <==> forall t :: t in trials ==> f(t) == g(t)
  {
    if trials != [] {
      var n := |trials| - 1;
      SumIsMonotone(f, g, trials[..n]);
      assert trials == trials[..n] + [trials[n]];
      assert trials[n] in trials;
    }
  }

  /** Each trial is one of the runs of one of the cases. */
  lemma {:induction false} TrialsAreTheseRuns(cases: seq<Case>, runs: seq<seq<Run>>, t: Trial)
    returns (i: nat, j: nat)
    requires |cases| == |runs| && t in RunTrials(cases, runs)
    ensures i < |cases| && j < |runs[i]| && t == RunTrial(cases[i], runs[i][j])
  {
    var n := |cases| - 1;
    if t in RunTrials(cases[..n], runs[..n]) {
      i, j := TrialsAreTheseRuns(cases[..n], runs[..n], t);
    } else {
      assert t in CaseTrials(cases[n], runs[n]);
      i := n;
      j :| 0 <= j < |runs[n]| && t == RunTrial(cases[n], runs[n][j]);
    }
  }

  lemma TrialsAreRuns(cases: seq<Case>, runs: seq<seq<Run>>, t: Trial) returns (i: nat, run: Run)
    requires |cases| == |runs| && t in RunTrials(cases, runs)
    ensures i < |cases| && t == RunTrial(cases[i], run)
  {
    var j;
    i, j := TrialsAreTheseRuns(cases, runs, t);
    run := runs[i][j];
  }

  lemma {:induction false} CaseIsFound(cases: seq<Case>, i: nat)
    requires i < |cases|
    ensures FindCase(cases, cases[i].id).Some?
    ensures DistinctIds(cases) ==> FindCase(cases, cases[i].id) == Some(cases[i])
  {
    if cases[0].id != cases[i].id {
      CaseIsFound(cases[1..], i - 1);
    }
  }

  lemma CasesAreKnown(cases: seq<Case>, runs: seq<seq<Run>>)
    requires |cases| == |runs|
    ensures KnownCases(cases, RunTrials(cases, runs))
  {
    forall t | t in RunTrials(cases, runs) ensures FindCase(cases, t.caseId).Some? {
      var i, run := TrialsAreRuns(cases, runs, t);
      CaseIsFound(cases, i);
    }
  }

  lemma {:induction false} CasesAreCounted(cases: seq<Case>, runs: seq<seq<Run>>, n: nat)
    requires |cases| == |runs| && EqualTrials(runs, n)
    ensures |RunTrials(cases, runs)| == n * |cases|
  {
    if cases != [] {
      var k := |cases| - 1;
      CasesAreCounted(cases[..k], runs[..k], n);
      assert n * (k + 1) == n * k + n;
    }
  }

  // ---------------------------------------------------------------- how often an id is listed

  function IdsOf(cases: seq<Case>): set<string> { set c | c in cases :: c.id }

  /** The number of cases whose id is in the set. */
  function Listed(cases: seq<Case>, ids: set<string>): nat {
    if cases == [] then 0
    else Listed(cases[..|cases| - 1], ids) + if cases[|cases| - 1].id in ids then 1 else 0
  }

  /** Every id of the list occurs in it equally often. */
  predicate EquallyOften(cases: seq<Case>) {
    forall a, b :: a in IdsOf(cases) && b in IdsOf(cases) ==> Listed(cases, {a}) == Listed(cases, {b})
  }

  lemma {:induction false} ListedWithoutOne(cases: seq<Case>, ids: set<string>, id: string)
    requires id in ids
    ensures Listed(cases, ids) == Listed(cases, ids - {id}) + Listed(cases, {id})
  {
    if cases != [] {
      ListedWithoutOne(cases[..|cases| - 1], ids, id);
    }
  }

  lemma {:induction false} AllAreListed(cases: seq<Case>, ids: set<string>)
    requires IdsOf(cases) <= ids
    ensures Listed(cases, ids) == |cases|
  {
    if cases != [] {
      var k := |cases| - 1;
      assert cases[k] in cases && forall c :: c in cases[..k] ==> c in cases;
      AllAreListed(cases[..k], ids);
    }
  }

  /** Bounds for each id of a set bound the whole set. */
  lemma {:induction false} ListedBounds(cases: seq<Case>, ids: set<string>, times: nat)
    ensures (forall id :: id in ids ==> Listed(cases, {id}) >= times) ==> Listed(cases, ids) >= times * |ids|
    ensures (forall id :: id in ids ==> Listed(cases, {id}) == times) ==> Listed(cases, ids) == times * |ids|
    decreases ids
  {
    if ids == {} {
      NoneIsListed(cases);
    } else {
      var id :| id in ids;
      ListedWithoutOne(cases, ids, id);
      ListedBounds(cases, ids - {id}, times);
      assert |ids| == |ids - {id}| + 1;
      assert times * |ids| == times * |ids - {id}| + times;
    }
  }

  lemma {:induction false} NoneIsListed(cases: seq<Case>)
    ensures Listed(cases, {}) == 0
  {
    if cases != [] {
      NoneIsListed(cases[..|cases| - 1]);
    }
  }

  lemma {:induction false} ListedOnce(cases: seq<Case>, i: nat)
    requires DistinctIds(cases) && i < |cases|
    ensures Listed(cases, {cases[i].id}) == 1
  {
    var k := |cases| - 1;
    if i < k {
      ListedOnce(cases[..k], i);
    } else {
      NotListed(cases[..k], cases[k].id);
    }
  }

  lemma {:induction false} NotListed(cases: seq<Case>, id: string)
    requires forall c :: c in cases ==> c.id != id
    ensures Listed(cases, {id}) == 0
  {
    if cases != [] {
      var k := |cases| - 1;
      assert cases[k] in cases && forall c :: c in cases[..k] ==> c in cases;
      NotListed(cases[..k], id);
    }
  }

  /** Distinct ids all occur once. */
  lemma DistinctIdsAreEquallyOften(cases: seq<Case>)
    requires DistinctIds(cases)
    ensures EquallyOften(cases)
  {
    forall a | a in IdsOf(cases) ensures Listed(cases, {a}) == 1 {
      var c :| c in cases && c.id == a;
      var i :| 0 <= i < |cases| && cases[i] == c;
      ListedOnce(cases, i);
    }
  }

  // ---------------------------------------------------------------- stable cases pass in all their trials

  /** The trials of the last case, and those before them. */
  lemma LastCase(cases: seq<Case>, runs: seq<seq<Run>>)
    requires cases != [] && |cases| == |runs|
    ensures var k := |cases| - 1;
            var earlier, block := RunTrials(cases[..k], runs[..k]), CaseTrials(cases[k], runs[k]);
            && RunTrials(cases, runs) == earlier + block && |block| == |runs[k]|
            && (forall t :: t in block ==> t.caseId == cases[k].id)
  {
  }

  /** Whether a trial is of one of the ids. */
  function OfIds(ids: set<string>): Trial -> nat { (t: Trial) => if t.caseId in ids then 1 else 0 }

  lemma BlockOfIds(earlier: seq<Trial>, block: seq<Trial>, id: string, ids: set<string>)
    requires forall t :: t in block ==> t.caseId == id
    ensures Sum(OfIds(ids), earlier + block) == Sum(OfIds(ids), earlier) + if id in ids then |block| else 0
  {
    SumOfConcat(OfIds(ids), earlier, block);
    SumIsAtMost(OfIds(ids), block);
    if id !in ids {
      SumIsZero(OfIds(ids), block);
    }
  }

  lemma {:induction false} SumIsZero(f: Trial -> nat, trials: seq<Trial>)
    requires forall t :: t in trials ==> f(t) == 0
    ensures Sum(f, trials) == 0
  {
    if trials != [] {
      var k := |trials| - 1;
      assert trials[k] in trials && forall t :: t in trials[..k] ==> t in trials;
      SumIsZero(f, trials[..k]);
    }
  }

  /** n taken k times. */
  function Repeated(n: nat, k: nat): nat {
    if k == 0 then 0 else Repeated(n, k - 1) + n
  }

  lemma {:induction false} RepeatedIsProduct(n: nat, k: nat)
    ensures Repeated(n, k) == n * k
  {
    if k > 0 {
      RepeatedIsProduct(n, k - 1);
    }
  }

  /** Each case adds n trials of its id. */
  lemma {:induction false} TrialsOfIds(cases: seq<Case>, runs: seq<seq<Run>>, n: nat, ids: set<string>)
    requires |cases| == |runs| && EqualTrials(runs, n)
    ensures Sum(OfIds(ids), RunTrials(cases, runs)) == Repeated(n, Listed(cases, ids))
  {
    if cases != [] {
      var k := |cases| - 1;
      var earlier, block := RunTrials(cases[..k], runs[..k]), CaseTrials(cases[k], runs[k]);
      LastCase(cases, runs);
      TrialsOfIds(cases[..k], runs[..k], n, ids);
      BlockOfIds(earlier, block, cases[k].id, ids);
    }
  }

  lemma StableTrialsPass(cases: seq<Case>, runs: seq<seq<Run>>, n: nat)
    requires |cases| == |runs| && EqualTrials(runs, n)
    ensures var trials := RunTrials(cases, runs);
            n * Listed(cases, StableIds(trials)) <= Sum(Passing(), trials)
  {
    var trials := RunTrials(cases, runs);
    TrialsOfIds(cases, runs, n, StableIds(trials));
    RepeatedIsProduct(n, Listed(cases, StableIds(trials)));
    SumIsMonotone(OfIds(StableIds(trials)), Passing(), trials);
  }

  /** With trials at all, the ids of the trials are those of the cases. */
  lemma {:induction false} TrialIds(cases: seq<Case>, runs: seq<seq<Run>>, n: nat)
    requires |cases| == |runs| && EqualTrials(runs, n) && n > 0
    ensures Ids(RunTrials(cases, runs)) == IdsOf(cases)
  {
    if cases != [] {
      var k := |cases| - 1;
      var earlier, block := RunTrials(cases[..k], runs[..k]), CaseTrials(cases[k], runs[k]);
      LastCase(cases, runs);
      TrialIds(cases[..k], runs[..k], n);
      IdsOfConcat(earlier, block);
      assert block[0].caseId in Ids(block);
      assert Ids(block) == {cases[k].id};
      assert cases == cases[..k] + [cases[k]];
      assert IdsOf(cases) == IdsOf(cases[..k]) + {cases[k].id} by {
        assert cases[k] in cases;
        assert forall c :: c in cases[..k] ==> c in cases;
      }
    }
  }

  lemma IdsOfConcat(a: seq<Trial>, b: seq<Trial>)
    ensures Ids(a + b) == Ids(a) + Ids(b)
  {
    forall id | id in Ids(a) + Ids(b) ensures id in Ids(a + b) {
      var t :| (t in a || t in b) && t.caseId == id;
      assert t in a + b;
    }
  }

  /** Counting form of the two comparisons below. */
  lemma PassedAmongAnswered(trials: seq<Trial>)
    requires forall t :: t in trials && t.passed ==> !t.error
    ensures Sum(Passing(), trials) <= Sum(Answering(), trials) <= |trials|
    ensures Sum(Passing(), trials) == Sum(Answering(), trials) <==> forall t :: t in trials ==> t.passed || t.error
  {
    SumIsMonotone(Passing(), Answering(), trials);
    SumIsAtMost(Answering(), trials);
  }

  lemma RoomForErrors(n: Counts, minPassRate: real)
    requires n.passed <= n.answered <= n.total
    ensures var q := QualityOf(n, minPassRate);
            && 0.0 <= q.passRate <= 1.0 - q.errorRate <= 1.0
            && (n.total > 0 ==> (q.passRate == 1.0 - q.errorRate <==> n.passed == n.answered))
  {
    if n.total > 0 {
      Complement(n.answered, n.total);
      Bounds(n.answered, n.total, 0.0);
      CrossMultiply(n.passed, n.total, n.answered, n.total);
      CrossMultiply(n.answered, n.total, n.passed, n.total);
      if n.passed < n.answered {
        assert n.passed * n.total < n.answered * n.total;
      }
    }
  }

  /** The two rates as counts. */
  lemma RatesCompare(n: Counts, minPassRate: real)
    requires n.total > 0 && n.cases > 0 && n.answered <= n.total
    ensures QualityOf(n, minPassRate).stabilityRate <= QualityOf(n, minPassRate).passRate <==>
            n.stableCases * n.total <= n.passed * n.cases
  {
    CrossMultiply(n.stableCases, n.cases, n.passed, n.total);
  }

  /** The quality figures of a model's benchmark: its cases, each run some number of times, aggregated. */
  function Benchmarked(cases: seq<Case>, runs: seq<seq<Run>>, minPassRate: real): Quality
    requires |cases| == |runs|
  {
    QualityOf(CountsOf(cases, RunTrials(cases, runs)), minPassRate)
  }

  /** Aggregating the trials of a benchmark never raises. */
  lemma BenchmarksAreAggregated(cases: seq<Case>, runs: seq<seq<Run>>, minPassRate: real)
    requires |cases| == |runs|
    ensures var report := Aggregate(cases, RunTrials(cases, runs), minPassRate);
            report.Some? && report.value.quality == Benchmarked(cases, runs, minPassRate)
  {
    CasesAreKnown(cases, runs);
  }

  /** pass_rate <= 1 - error_rate, with equality exactly when every trial that answered passed. */
  lemma PassRateLeavesRoomForErrors(cases: seq<Case>, runs: seq<seq<Run>>, minPassRate: real)
    requires |cases| == |runs|
    ensures var (r, trials) := (Benchmarked(cases, runs, minPassRate), RunTrials(cases, runs));
            && 0.0 <= r.passRate <= 1.0 - r.errorRate <= 1.0
            && (trials != [] ==> (r.passRate == 1.0 - r.errorRate <==>
                                  forall t :: t in trials ==> t.passed || t.error))
  {
    var trials := RunTrials(cases, runs);
    forall t | t in trials && t.passed ensures !t.error {
      var i, run := TrialsAreRuns(cases, runs, t);
    }
    PassedAmongAnswered(trials);
    RoomForErrors(CountsOf(cases, trials), minPassRate);
  }

  /** The comparison for n trials a case, each id listed the given number of times. */
  lemma StableShare(n: nat, times: nat, ids: nat, stable: nat, passed: nat)
    requires n * (times * stable) <= passed
    ensures stable * (n * (times * ids)) <= passed * ids
  {
    assert stable * (n * (times * ids)) == (n * (times * stable)) * ids;
  }

  /** A case is stable only if all its trials pass; so with ids listed equally often stability never exceeds the pass rate. */
  lemma StabilityIsAtMostPassRate(cases: seq<Case>, runs: seq<seq<Run>>, n: nat, minPassRate: real)
    requires |cases| == |runs| && EquallyOften(cases) && EqualTrials(runs, n)
    ensures Benchmarked(cases, runs, minPassRate).stabilityRate <= Benchmarked(cases, runs, minPassRate).passRate
  {
    var trials := RunTrials(cases, runs);
    CasesAreCounted(cases, runs, n);
    if n > 0 && cases != [] {
      assert cases[0].id in IdsOf(cases);
      var times, stable := Listed(cases, {cases[0].id}), StableIds(trials);
      TrialIds(cases, runs, n);
      AllAreListed(cases, IdsOf(cases));
      ListedBounds(cases, IdsOf(cases), times);
      ListedBounds(cases, stable, times);
      StableTrialsPass(cases, runs, n);
      StableShare(n, times, |IdsOf(cases)|, |stable|, Sum(Passing(), trials));
      RatesCompare(CountsOf(cases, trials), minPassRate);
    } else {
      assert trials == [];
    }
  }

  lemma AllStable(trials: seq<Trial>)
    ensures |StableIds(trials)| <= |Ids(trials)|
    ensures |StableIds(trials)| == |Ids(trials)| <==> forall t :: t in trials ==> t.passed
  {
    assert StableIds(trials) <= Ids(trials);
    SubsetSize(StableIds(trials), Ids(trials));
    if StableIds(trials) == Ids(trials) {
      forall t | t in trials ensures t.passed {
        assert t.caseId in StableIds(trials);
      }
    }
  }

  /** The two rates reach one together, also when ids repeat or cases are run unequally often. */
  lemma FullStabilityIsFullPassRate(cases: seq<Case>, trials: seq<Trial>, minPassRate: real)
    ensures var r := QualityOf(CountsOf(cases, trials), minPassRate);
            && (r.stabilityRate == 1.0 <==> r.passRate == 1.0)
            && (r.passRate == 1.0 <==> trials != [] && forall t :: t in trials ==> t.passed)
  {
    if trials != [] {
      assert trials[0].caseId in Ids(trials);
      SumIsAtMost(Passing(), trials);
      Bounds(Sum(Passing(), trials), |trials|, 0.0);
      AllStable(trials);
      Bounds(|StableIds(trials)|, |Ids(trials)|, 0.0);
    }
  }

  lemma HitsAreExpected(cases: seq<Case>, t: Trial)
    ensures HitsOf(cases)(t) <= ExpectedOf(cases)(t)
    ensures FindCheck(t.checks, SourcesRetrieved).Some? && FindCase(cases, t.caseId).Some? ==>
              var expected := Elements(FindCase(cases, t.caseId).value.expectedSources);
              HitsOf(cases)(t) == ExpectedOf(cases)(t) <==> expected * Elements(t.sources) == expected
  {
    if FindCase(cases, t.caseId).Some? {
      var expected := Elements(FindCase(cases, t.caseId).value.expectedSources);
      SubsetSize(expected * Elements(t.sources), expected);
    }
  }

  /** A trial misses no expected source exactly when its source check did not fail. */
  lemma SourceCheckMeansAllHit(cases: seq<Case>, runs: seq<seq<Run>>, t: Trial)
    requires |cases| == |runs| && DistinctIds(cases) && t in RunTrials(cases, runs)
    ensures HitsOf(cases)(t) == ExpectedOf(cases)(t) <==> FindCheck(t.checks, SourcesRetrieved) != Some(false)
  {
    var i, run := TrialsAreRuns(cases, runs, t);
    CaseIsFound(cases, i);
    HitsAreExpected(cases, t);
  }

  /** Source recall lies in [0, 1], and is 1 exactly when no trial's source check failed. */
  lemma RecallCountsTheSourceChecks(cases: seq<Case>, runs: seq<seq<Run>>, minPassRate: real)
    requires |cases| == |runs|
    ensures var (r, trials) := (Benchmarked(cases, runs, minPassRate), RunTrials(cases, runs));
            && 0.0 <= r.sourceRecall <= 1.0
            && (DistinctIds(cases) ==>
                (r.sourceRecall == 1.0 <==>
                 forall t :: t in trials ==> FindCheck(t.checks, SourcesRetrieved) != Some(false)))
  {
    var trials := RunTrials(cases, runs);
    forall t ensures HitsOf(cases)(t) <= ExpectedOf(cases)(t) { HitsAreExpected(cases, t); }
    SumIsMonotone(HitsOf(cases), ExpectedOf(cases), trials);
    Bounds(Sum(HitsOf(cases), trials), Sum(ExpectedOf(cases), trials), 1.0);
    if DistinctIds(cases) {
      forall t | t in trials ensures
        HitsOf(cases)(t) == ExpectedOf(cases)(t) <==> FindCheck(t.checks, SourcesRetrieved) != Some(false)
      {
        SourceCheckMeansAllHit(cases, runs, t);
      }
    }
  }

  lemma {:induction false} CountTrueIsAtMost(checks: seq<bool>)
    ensures CountTrue(checks) <= |checks|
    ensures CountTrue(checks) == |checks| <==> false !in checks
  {
    if checks != [] {
      var n := |checks| - 1;
      CountTrueIsAtMost(checks[..n]);
      assert checks == checks[..n] + [checks[n]];
      assert false in checks <==> false in checks[..n] || checks[n] == false;
    }
  }

  /** An accuracy is a rate over at least one check, and 1 exactly when all of them passed. */
  lemma AccuracyIsARate(checks: seq<bool>)
    requires Accuracy(checks).Some?
    ensures 0.0 <= Accuracy(checks).value <= 1.0
    ensures Accuracy(checks).value == 1.0 <==> false !in checks
  {
    CountTrueIsAtMost(checks);
    Bounds(CountTrue(checks), |checks|, 0.0);
  }

  lemma {:induction false} OutcomesAreChecks(
      cases: seq<Case>, refusal: bool, name: CheckName, trials: seq<Trial>, outcome: bool)
    requires outcome in Outcomes(cases, refusal, name, trials)
    ensures exists t :: t in trials && FindCheck(t.checks, name) == Some(outcome)
  {
    var n := |trials| - 1;
    if FindCheck(trials[n].checks, name) == Some(outcome) {
      assert trials[n] in trials;
    } else {
      OutcomesAreChecks(cases, refusal, name, trials[..n], outcome);
    }
  }

  lemma {:induction false} FoundCheckIsThere(checks: seq<Check>, name: CheckName)
    requires FindCheck(checks, name).Some?
    ensures Check(name, FindCheck(checks, name).value) in checks
  {
    if checks[0].name != name {
      FoundCheckIsThere(checks[1..], name);
    }
  }

  /** When every trial passes, every other quality figure that exists is perfect too. */
  lemma PerfectTrialsScorePerfectly(cases: seq<Case>, runs: seq<seq<Run>>, minPassRate: real)
    requires |cases| == |runs| && DistinctIds(cases)
    requires Benchmarked(cases, runs, minPassRate).passRate == 1.0
    ensures var r := Benchmarked(cases, runs, minPassRate);
            && r.sourceRecall == 1.0 && r.errorRate == 0.0
            && r.refusalAccuracy in {None, Some(1.0)} && r.citationValidity in {None, Some(1.0)}
  {
    var trials := RunTrials(cases, runs);
    FullStabilityIsFullPassRate(cases, trials, minPassRate);
    PassRateLeavesRoomForErrors(cases, runs, minPassRate);
    forall t, name | t in trials ensures FindCheck(t.checks, name) != Some(false) {
      var i, run := TrialsAreRuns(cases, runs, t);
      if FindCheck(t.checks, name).Some? {
        FoundCheckIsThere(t.checks, name);
      }
    }
    RecallCountsTheSourceChecks(cases, runs, minPassRate);
    PassedChecksAreAccurate(cases, true, RefusalBehavior, trials);
    PassedChecksAreAccurate(cases, false, CitationsValid, trials);
  }

  lemma PassedChecksAreAccurate(cases: seq<Case>, refusal: bool, name: CheckName, trials: seq<Trial>)
    requires forall t :: t in trials ==> FindCheck(t.checks, name) != Some(false)
    ensures Accuracy(Outcomes(cases, refusal, name, trials)) in {None, Some(1.0)}
  {
    var checks := Outcomes(cases, refusal, name, trials);
    if false in checks {
      OutcomesAreChecks(cases, refusal, name, trials, false);
    }
    if checks != [] {
      AccuracyIsARate(checks);
    }
  }

  // ---------------------------------------------------------------- when the order breaks

  /** An answer that passes all four checks of its case. */
  function GoodAnswer(c: Case): Answer {
    Answer(c.expectedSources + [""], c.expectRefusal, c.expectRefusal, [1], true)
  }

  lemma GoodAnswerPasses(c: Case)
    ensures RunTrial(c, Run(Answered(GoodAnswer(c)), 0.0)).passed
  {
    var a := GoodAnswer(c);
    assert Elements(c.expectedSources) * Elements(a.sources) == Elements(c.expectedSources);
    assert forall check :: check in EvaluateTrial(c, a) ==> check.passed;
  }

  /** n trials of each case: those of one id pass, all others raise. */
  function OnlyOnePasses(cases: seq<Case>, n: nat, id: string): seq<seq<Run>> {
    seq(|cases|, i requires 0 <= i < |cases| =>
      seq(n, j => Run(if cases[i].id == id then Answered(GoodAnswer(cases[i])) else Raised, 0.0)))
  }

  lemma OnlyOneIdPasses(cases: seq<Case>, n: nat, id: string)
    ensures var trials := RunTrials(cases, OnlyOnePasses(cases, n, id));
            && (forall t :: t in trials ==> (t.passed <==> t.caseId == id))
            && Sum(Passing(), trials) == n * Listed(cases, {id})
  {
    var runs := OnlyOnePasses(cases, n, id);
    var trials := RunTrials(cases, runs);
    forall t | t in trials ensures t.passed <==> t.caseId == id {
      var i, j := TrialsAreTheseRuns(cases, runs, t);
      GoodAnswerPasses(cases[i]);
    }
    TrialsOfIds(cases, runs, n, {id});
    RepeatedIsProduct(n, Listed(cases, {id}));
    SumIsMonotone(Passing(), OfIds({id}), trials);
  }

  /** Of ids that are not all listed equally often, one is listed least, and so less than the average. */
  lemma SomeIdIsRare(cases: seq<Case>) returns (rare: string)
    requires !EquallyOften(cases)
    ensures rare in IdsOf(cases) && Listed(cases, {rare}) * |IdsOf(cases)| < |cases|
  {
    var ids := IdsOf(cases);
    rare := LeastListed(cases, ids);
    var times := Listed(cases, {rare});
    var other :| other in ids && Listed(cases, {other}) > times;
    AllAreListed(cases, ids);
    ListedWithoutOne(cases, ids, other);
    ListedBounds(cases, ids - {other}, times);
    assert forall id :: id in ids - {other} ==> Listed(cases, {id}) >= times;
    AboveAverage(times, |ids - {other}|, Listed(cases, ids - {other}), Listed(cases, {other}));
    assert |ids| == |ids - {other}| + 1;
  }

  lemma AboveAverage(times: nat, others: nat, listed: nat, most: nat)
    requires listed >= times * others && most > times
    ensures times * (others + 1) < listed + most
  {
  }

  lemma {:induction false} LeastListed(cases: seq<Case>, ids: set<string>) returns (least: string)
    requires ids != {}
    ensures least in ids && forall id :: id in ids ==> Listed(cases, {least}) <= Listed(cases, {id})
    decreases ids
  {
    least :| least in ids;
    if ids != {least} {
      var rest := LeastListed(cases, ids - {least});
      if Listed(cases, {rest}) < Listed(cases, {least}) {
        least := rest;
      }
    }
  }

  /**
   Where some ids are listed more often than others the groups of equal ids differ in size,
   and stability can exceed the pass rate: let only the id that is listed least pass.
   */
  lemma RepeatedIdsBreakTheOrder(cases: seq<Case>, n: nat, minPassRate: real) returns (runs: seq<seq<Run>>)
    requires n > 0 && !EquallyOften(cases)
    ensures |runs| == |cases| && EqualTrials(runs, n)
    ensures Benchmarked(cases, runs, minPassRate).stabilityRate > Benchmarked(cases, runs, minPassRate).passRate
  {
    var rare := SomeIdIsRare(cases);
    runs := OnlyOnePasses(cases, n, rare);
    assert EqualTrials(runs, n);
    var trials := RunTrials(cases, runs);
    OnlyOneIdPasses(cases, n, rare);
    CasesAreCounted(cases, runs, n);
    TrialIds(cases, runs, n);
    OneIdIsStable(trials, rare);
    RareShare(CountsOf(cases, trials), n, Listed(cases, {rare}), |cases|, minPassRate);
  }

  lemma OneIdIsStable(trials: seq<Trial>, id: string)
    requires id in Ids(trials) && forall t :: t in trials ==> (t.passed <==> t.caseId == id)
    ensures StableIds(trials) == {id}
  {
  }

  lemma RareShare(c: Counts, n: nat, times: nat, cases: nat, minPassRate: real)
    requires n > 0 && times * c.cases < cases && c.cases > 0 && c.answered <= c.total
    requires c.total == n * cases && c.passed == n * times && c.stableCases == 1
    ensures QualityOf(c, minPassRate).stabilityRate > QualityOf(c, minPassRate).passRate
  {
    assert n * times * c.cases == n * (times * c.cases) < n * cases;
    RatesCompare(c, minPassRate);
  }

  /**
   For a list of cases and a number of trials each, stability_rate <= pass_rate holds
   whatever the trials do if and only if no trial is run or all ids are listed equally often.
   */
  lemma OrderHoldsIffIdsEquallyOften(cases: seq<Case>, n: nat, minPassRate: real)
    ensures n == 0 || EquallyOften(cases) <==>
            forall runs :: |runs| == |cases| && EqualTrials(runs, n) ==>
              Benchmarked(cases, runs, minPassRate).stabilityRate <= Benchmarked(cases, runs, minPassRate).passRate
  {
    if n == 0 || EquallyOften(cases) {
      forall runs | |runs| == |cases| && EqualTrials(runs, n)
        ensures Benchmarked(cases, runs, minPassRate).stabilityRate <= Benchmarked(cases, runs, minPassRate).passRate
      {
        if n == 0 {
          CasesAreCounted(cases, runs, n);
          assert RunTrials(cases, runs) == [];
        } else {
          StabilityIsAtMostPassRate(cases, runs, n, minPassRate);
        }
      }
    } else {
      var runs := RepeatedIdsBreakTheOrder(cases, n, minPassRate);
    }
  }

  lemma {:induction false} LatenciesExist(trials: seq<Trial>)
    ensures |Latencies(trials)| == Sum(Answering(), trials)
  {
    if trials != [] {
      LatenciesExist(trials[..|trials| - 1]);
    }
  }

  /** Latencies are those of the trials that answered; their median is at most their 95th percentile. */
  lemma LatencyFiguresAreOrdered(cases: seq<Case>, trials: seq<Trial>, minPassRate: real)
    requires KnownCases(cases, trials)
    ensures var r := Aggregate(cases, trials, minPassRate).value;
            && r.latencyP50 <= r.latencyP95
            && (r.quality.successfulTrials == 0 ==> r.latencyP50 == r.latencyP95 == 0.0)
  {
    LatenciesExist(trials);
    if Latencies(trials) != [] {
      Percentile.MedianIsAtMostPercentile(Latencies(trials));
    }
  }
}
