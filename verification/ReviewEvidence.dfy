/** Every sufficient verdict rests on a Confluence chunk that retrieval handed to that very review. */
module ReviewEvidence {
  import opened Results
  import opened ClaimRules
  import opened ActionDesk
  import opened ClaimStore
  import opened ClaimHistory
  import opened ClaimInvariants
  import opened ReviewGraph
  import opened ReviewSystem
  import opened ReviewTheorems
  import opened ClaimTheorems

  /** The k-th act is the retrieval of the run, and it returns a chunk from Confluence. */
  predicate HandsOver(text: Text, acts: seq<Act>, runId: string, k: nat)
    requires k < |acts|
  {
    && acts[k].Work? && acts[k].runId == runId
    && (exists i :: 0 <= i < |acts[k].retrieved| && acts[k].retrieved[i].source == "confluence")
    && var sys := Run(text, IDLE, acts[..k]);
       runId in sys.tasks && sys.tasks[runId].place == Working(2)
  }

  predicate HandedOver(text: Text, acts: seq<Act>, runId: string) {
    exists k :: 0 <= k < |acts| && HandsOver(text, acts, runId, k)
  }

  /** What an executor holds is backed by what it was handed. */
  predicate TaskBacked(task: Task, handed: bool) {
    OnTrack(task.place) && !handed ==>
      && (BodiesDone(task.place) >= 3 ==> forall i :: 0 <= i < |task.chunks| ==> task.chunks[i].source != "confluence")
      && (BodiesDone(task.place) >= 4 ==> task.evidence == Insufficient)
  }

  predicate RunBacked(run: ReviewRun, handed: bool) {
    run.result.Some? && run.result.value.evidence == Sufficient ==> handed
  }

  ghost predicate Backed(text: Text, sys: System, acts: seq<Act>) {
    && (forall runId :: runId in sys.tasks ==> TaskBacked(sys.tasks[runId], HandedOver(text, acts, runId)))
    && (forall runId :: runId in sys.db.runs ==> RunBacked(sys.db.runs[runId], HandedOver(text, acts, runId)))
  }

  lemma HandoverStays(text: Text, acts: seq<Act>, a: Act, runId: string)
    requires HandedOver(text, acts, runId)
    ensures HandedOver(text, acts + [a], runId)
  {
    var k :| 0 <= k < |acts| && HandsOver(text, acts, runId, k);
    assert (acts + [a])[..k] == acts[..k];
    assert HandsOver(text, acts + [a], runId, k);
  }

  lemma HandoverNow(text: Text, acts: seq<Act>, a: Act, i: nat)
    requires a.Work? && i < |a.retrieved| && a.retrieved[i].source == "confluence"
    requires var sys := Run(text, IDLE, acts); a.runId in sys.tasks && sys.tasks[a.runId].place == Working(2)
    ensures HandedOver(text, acts + [a], a.runId)
  {
    assert (acts + [a])[..|acts|] == acts;
    assert HandsOver(text, acts + [a], a.runId, |acts|);
  }

  /** What a step does to the executors: at most one moves, as its own node or transaction says. */
  lemma OnlyItsTaskMoves(text: Text, sys: System, a: Act, runId: string)
    requires runId in Next(text, sys, a).tasks
    ensures a.Ask? || runId != a.runId ==> runId in sys.tasks && Next(text, sys, a).tasks[runId] == sys.tasks[runId]
  {
  }

  /** A node body keeps an executor backed; the retrieval is where a chunk comes in. */
  lemma NodeKeepsBacked(text: Text, db: Db, task: Task, retrieved: seq<Chunk>, handed: bool, handed': bool)
    requires task.place.Working? && TaskBacked(task, handed) && (handed ==> handed')
    requires task.place.n == 2 && !handed' ==> forall i :: 0 <= i < |retrieved| ==> retrieved[i].source != "confluence"
    ensures TaskBacked(NodeResult(text, db, task, retrieved), handed')
  {
  }

  lemma WorkKeepsBacked(text: Text, sys: System, acts: seq<Act>, a: Act)
    requires sys == Run(text, IDLE, acts) && Backed(text, sys, acts)
    requires a.Work? && a.runId in sys.tasks && sys.tasks[a.runId].place.Working?
    ensures TaskBacked(Next(text, sys, a).tasks[a.runId], HandedOver(text, acts + [a], a.runId))
  {
    var task := sys.tasks[a.runId];
    var handed, handed' := HandedOver(text, acts, a.runId), HandedOver(text, acts + [a], a.runId);
    if handed {
      HandoverStays(text, acts, a, a.runId);
    }
    if task.place.n == 2 {
      forall i | 0 <= i < |a.retrieved| && a.retrieved[i].source == "confluence" ensures handed' {
        HandoverNow(text, acts, a, i);
      }
    }
    NodeKeepsBacked(text, sys.db, task, a.retrieved, handed, handed');
  }

  lemma TaskStepKeepsBacked(text: Text, sys: System, acts: seq<Act>, a: Act, runId: string)
    requires sys == Run(text, IDLE, acts) && Backed(text, sys, acts)
    requires runId in Next(text, sys, a).tasks
    ensures TaskBacked(Next(text, sys, a).tasks[runId], HandedOver(text, acts + [a], runId))
  {
    OnlyItsTaskMoves(text, sys, a, runId);
    if HandedOver(text, acts, runId) {
      HandoverStays(text, acts, a, runId);
    }
    if !a.Ask? && runId == a.runId {
      if a.Work? && runId in sys.tasks && sys.tasks[runId].place.Working? {
        WorkKeepsBacked(text, sys, acts, a);
      }
    }
  }

  /** A stored result is an executor's own verdict, or was there before. */
  lemma ResultsComeFromTasks(text: Text, sys: System, a: Act, runId: string)
    requires Sound(text, sys) && runId in Next(text, sys, a).db.runs
    ensures var after := Next(text, sys, a).db.runs[runId];
            || after.result == None
            || (runId in sys.db.runs && after.result == sys.db.runs[runId].result)
            || (a.Complete? && a.runId == runId && runId in sys.tasks && sys.tasks[runId].place.Completing?
                && after.result == Some(ReviewOf(sys.tasks[runId])))
  {
    if a.Ask? {
      if Serve(text, sys.db, a.request).Ok? { ServeLeavesRuns(text, sys.db, a.request); }
    } else if a.Start? {
      if StartReview(sys.db, a.claimId, a.owner, a.runId).Ok? { StartWrites(sys.db, a.claimId, a.owner, a.runId); }
    } else if a.Work? {
      if a.runId in sys.tasks && sys.tasks[a.runId].place.Working? {
        WorkKeeps(text, sys, a.runId, a.retrieved, a.actionId);
      }
    } else if a.Record? || a.Raise? || a.Die? {
      QuietResults(text, sys, a, runId);
    } else {
      SettledResults(text, sys, a, runId);
    }
  }

  lemma QuietResults(text: Text, sys: System, a: Act, runId: string)
    requires a.Record? || a.Raise? || a.Die?
    requires runId in Next(text, sys, a).db.runs
    ensures runId in sys.db.runs && Next(text, sys, a).db.runs[runId].result == sys.db.runs[runId].result
  {
  }

  lemma SettledResults(text: Text, sys: System, a: Act, runId: string)
    requires a.Complete? || a.Fail?
    requires runId in Next(text, sys, a).db.runs
    ensures runId in sys.db.runs
    ensures Next(text, sys, a).db.runs[runId].result == sys.db.runs[runId].result ||
            (a.Complete? && a.runId == runId && runId in sys.tasks && sys.tasks[runId].place.Completing?
             && Next(text, sys, a).db.runs[runId].result == Some(ReviewOf(sys.tasks[runId])))
  {
  }

  lemma {:induction false} EveryVerdictIsBacked(text: Text, acts: seq<Act>)
    ensures Backed(text, Run(text, IDLE, acts), acts)
    decreases |acts|
  {
    if acts != [] {
      var earlier, a := acts[..|acts| - 1], acts[|acts| - 1];
      var sys := Run(text, IDLE, earlier);
      assert acts == earlier + [a];
      EveryVerdictIsBacked(text, earlier);
      EveryRunIsSound(text, earlier);
      forall runId | runId in Next(text, sys, a).tasks
        ensures TaskBacked(Next(text, sys, a).tasks[runId], HandedOver(text, acts, runId))
      {
        TaskStepKeepsBacked(text, sys, earlier, a, runId);
      }
      forall runId | runId in Next(text, sys, a).db.runs
        ensures RunBacked(Next(text, sys, a).db.runs[runId], HandedOver(text, acts, runId))
      {
        RunStepKeepsBacked(text, sys, earlier, a, runId);
      }
    }
  }

  lemma RunStepKeepsBacked(text: Text, sys: System, acts: seq<Act>, a: Act, runId: string)
    requires sys == Run(text, IDLE, acts) && Sound(text, sys) && Backed(text, sys, acts)
    requires runId in Next(text, sys, a).db.runs
    ensures RunBacked(Next(text, sys, a).db.runs[runId], HandedOver(text, acts + [a], runId))
  {
    ResultsComeFromTasks(text, sys, a, runId);
    if HandedOver(text, acts, runId) {
      HandoverStays(text, acts, a, runId);
    }
    if runId in sys.tasks {
      assert TaskBacked(sys.tasks[runId], HandedOver(text, acts, runId));
    }
  }

  /** An executor past its fourth node holds a sufficient verdict only if its retrieval returned a Confluence chunk. */
  lemma SufficientMeansHandedOver(text: Text, acts: seq<Act>, runId: string)
    requires var sys := Run(text, IDLE, acts);
             && runId in sys.tasks && OnTrack(sys.tasks[runId].place) && BodiesDone(sys.tasks[runId].place) >= 4
             && sys.tasks[runId].evidence == Sufficient
    ensures HandedOver(text, acts, runId)
  {
    EveryVerdictIsBacked(text, acts);
    assert TaskBacked(Run(text, IDLE, acts).tasks[runId], HandedOver(text, acts, runId));
  }

  /**
   A decided claim was decided after a completed review of it whose own retrieval returned
   a chunk from Confluence.
   */
  lemma DecisionRestsOnEvidence(text: Text, acts: seq<Act>, claimId: string) returns (at: nat, review: nat, retrieval: nat)
    requires claimId in Run(text, IDLE, acts).db.claims
    requires Run(text, IDLE, acts).db.claims[claimId].status in {Approved, Rejected}
    ensures var audit := Run(text, IDLE, acts).db.audit;
            && review < at < |audit| && DecisionRow(audit[at], claimId)
            && IsGoodReview(audit[review], claimId)
            && retrieval < |acts| && HandsOver(text, acts, audit[review].event.runId, retrieval)
  {
    at, review := DecisionRestsOnReview(text, acts, claimId);
    var db := Run(text, IDLE, acts).db;
    var runId := db.audit[review].event.runId;
    EveryVerdictIsBacked(text, acts);
    assert RunBacked(db.runs[runId], HandedOver(text, acts, runId));
    retrieval :| 0 <= retrieval < |acts| && HandsOver(text, acts, runId, retrieval);
  }
}
