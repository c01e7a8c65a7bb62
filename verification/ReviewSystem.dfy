/**
 The whole claim service: user requests on any number of claims, interleaved with the
 background executors of their reviews. An executor's progress writes, node bodies,
 completion and failure are separate transactions; it can fail anywhere between them,
 and it can die anywhere without a trace.
 */
module ReviewSystem {
  import opened Results
  import opened ClaimRules
  import opened ActionDesk
  import opened ClaimStore
  import opened ClaimHistory
  import opened ClaimInvariants
  import opened ReviewGraph
  import opened ReviewRuns

  datatype Request =
    | Create(claimId: string, owner: string, subject: Subject)
    | Register(claimId: string, owner: string, documentType: string, extractionStatus: string)
    | Submit(claimId: string, owner: string)
    | ChooseNext(claimId: string, owner: string, choice: NextStep)
    | DecideClaim(claimId: string, owner: string, decision: Decision)
    | ProposeOne(claimId: string, owner: string, actionId: string, actionType: ActionType)
    | DecideOne(claimId: string, owner: string, actionId: string, decision: Decision)

  function Serve(text: Text, db: Db, r: Request): Result<Db> {
    match r
    case Create(claimId, owner, subject) => CreateClaim(db, claimId, owner, subject)
    case Register(claimId, owner, documentType, extractionStatus) =>
      AddDocument(db, claimId, owner, documentType, extractionStatus)
    case Submit(claimId, owner) => SubmitClaim(text, db, claimId, owner)
    case ChooseNext(claimId, owner, choice) => ApplyNextStep(db, claimId, owner, choice)
    case DecideClaim(claimId, owner, decision) => ApplyDecision(db, claimId, owner, decision)
    case ProposeOne(claimId, owner, actionId, actionType) => ProposeAction(db, claimId, owner, actionId, actionType)
    case DecideOne(claimId, owner, actionId, decision) => DecideAction(db, claimId, actionId, owner, decision)
  }

  /** Where an executor stands in the six nodes of the review graph. */
  datatype Place =
    | Recording(n: nat)       // about to write the progress of node n
    | Working(n: nat)         // about to run the body of node n
    | Completing
    | Failing(error: string)  // an exception was caught
    | Finished
    | Dead

  /** An executor and its graph state. */
  datatype Task = Task(
    claimId: string,
    owner: string,
    place: Place,
    subject: Subject,
    documents: seq<Document>,
    missing: set<string>,
    chunks: seq<Chunk>,
    evidence: Evidence,
    proposed: Option<string>)

  function Spawn(claimId: string, owner: string): Task {
    Task(claimId, owner, Recording(0), Subject(Unknown, ""), [], {}, [], Insufficient, None)
  }

  datatype System = System(db: Db, tasks: map<string, Task>)

  const IDLE := System(EMPTY_DB, map[])

  datatype Act =
    | Ask(request: Request)
    | Start(claimId: string, owner: string, runId: string)
    | Record(runId: string)
    | Work(runId: string, retrieved: seq<Chunk>, actionId: string)
    | Complete(runId: string)
    | Fail(runId: string)
    | Raise(runId: string, error: string)
    | Die(runId: string)

  function With(sys: System, runId: string, task: Task): System {
    sys.(tasks := sys.tasks[runId := task])
  }

  function Proceed(task: Task): Task
    requires task.place.Working?
  {
    task.(place := if task.place.n + 1 < |ORDER| then Recording(task.place.n + 1) else Completing)
  }

  /** The first four nodes and the recommendation write nothing but graph state. */
  function NodeResult(text: Text, db: Db, task: Task, retrieved: seq<Chunk>): Task
    requires task.place.Working?
  {
    match task.place.n
    case 0 =>
      if !Owned(db, task.claimId, task.owner) then task.(place := Failing("Claim not found."))
      else Proceed(task.(subject := db.claims[task.claimId].subject, documents := DocumentsOf(db.documents, task.claimId)))
    case 1 => Proceed(task.(missing := Missing(text, task.subject, task.documents)))
    case 2 => Proceed(task.(chunks := if task.subject.productLine == Unknown then [] else retrieved))
    case 3 =>
      var evidence := if task.subject.productLine == Unknown then Insufficient else VerifyEvidence(task.chunks);
      Proceed(task.(evidence := evidence))
    case _ => Proceed(task)
  }

  function WorkStep(text: Text, sys: System, runId: string, retrieved: seq<Chunk>, actionId: string): System
    requires runId in sys.tasks && sys.tasks[runId].place.Working?
  {
    var task := sys.tasks[runId];
    var followUp := FollowUpAction(task.missing);
    if task.place.n != 5 || followUp.None? then With(sys, runId, NodeResult(text, sys.db, task, retrieved))
    else
      match ProposeAction(sys.db, task.claimId, task.owner, actionId, followUp.value)
      case Refused(_) => With(sys, runId, task.(place := Failing("The action was refused.")))
      case Ok(db) => With(sys.(db := db), runId, Proceed(task.(proposed := Some(actionId))))
  }

  function RecordStep(sys: System, runId: string): System
    requires runId in sys.tasks && sys.tasks[runId].place.Recording?
  {
    var task := sys.tasks[runId];
    var node := NodeAt(task.place.n, task.evidence);
    if node.None? then sys
    else
      match RecordProgress(sys.db, task.claimId, runId, task.owner, StepOf(node.value))
      case Refused(_) => With(sys, runId, task.(place := Failing("The run is gone.")))
      case Ok(db) => With(sys.(db := db), runId, task.(place := Working(task.place.n)))
  }

  function CompleteStep(sys: System, runId: string): System
    requires runId in sys.tasks
  {
    var task := sys.tasks[runId];
    match CompleteReview(sys.db, task.claimId, runId, task.owner, Review(task.missing, task.evidence, task.proposed))
    case Refused(_) => With(sys, runId, task.(place := Failing("The completion was refused.")))
    case Ok(db) => With(sys.(db := db), runId, task.(place := Finished))
  }

  function FailStep(sys: System, runId: string): System
    requires runId in sys.tasks && sys.tasks[runId].place.Failing?
  {
    var task := sys.tasks[runId];
    match FailReview(sys.db, task.claimId, runId, task.owner, task.place.error)
    case Refused(_) => With(sys, runId, task.(place := Dead))
    case Ok(db) => With(sys.(db := db), runId, task.(place := Finished))
  }

  predicate Live(place: Place) {
    !place.Finished? && !place.Dead?
  }

  /** One step of the system. A step that does not fit the executor's place changes nothing. */
  function Next(text: Text, sys: System, a: Act): System {
    match a
    case Ask(request) =>
      (match Serve(text, sys.db, request)
       case Refused(_) => sys
       case Ok(db) => sys.(db := db))
    case Start(claimId, owner, runId) =>
      (match StartReview(sys.db, claimId, owner, runId)
       case Refused(_) => sys
       case Ok(db) => With(sys.(db := db), runId, Spawn(claimId, owner)))
    case Record(runId) =>
      if runId in sys.tasks && sys.tasks[runId].place.Recording? then RecordStep(sys, runId) else sys
    case Work(runId, retrieved, actionId) =>
      if runId in sys.tasks && sys.tasks[runId].place.Working?
      then WorkStep(text, sys, runId, retrieved, actionId) else sys
    case Complete(runId) =>
      if runId in sys.tasks && sys.tasks[runId].place.Completing? then CompleteStep(sys, runId) else sys
    case Fail(runId) =>
      if runId in sys.tasks && sys.tasks[runId].place.Failing? then FailStep(sys, runId) else sys
    case Raise(runId, error) =>
      if runId in sys.tasks && Live(sys.tasks[runId].place) && !sys.tasks[runId].place.Failing?
      then With(sys, runId, sys.tasks[runId].(place := Failing(error))) else sys
    case Die(runId) =>
      if runId in sys.tasks && Live(sys.tasks[runId].place)
      then With(sys, runId, sys.tasks[runId].(place := Dead)) else sys
  }

  function Run(text: Text, sys: System, acts: seq<Act>): System
    decreases |acts|
  {
    if acts == [] then sys
    else Next(text, Run(text, sys, acts[..|acts| - 1]), acts[|acts| - 1])
  }

  // ---------------------------------------------------------------- what executors rely on

  /** How many node bodies are behind the executor, and how many steps it has recorded. */
  function BodiesDone(place: Place): nat {
    match place
    case Recording(n) => n
    case Working(n) => n
    case Completing => |ORDER|
    case _ => 0
  }

  function StepsRecorded(place: Place): nat {
    if place.Working? then place.n + 1 else BodiesDone(place)
  }

  predicate OnTrack(place: Place) {
    place.Recording? || place.Working? || place.Completing?
  }

  /** The graph state agrees with the rules, as far as the executor has come. */
  predicate StateSound(text: Text, task: Task, subject: Subject) {
    var done := BodiesDone(task.place);
    && (done >= 1 ==> task.subject == subject && Missing(text, task.subject, task.documents) == {})
    && (done >= 2 ==> task.missing == {})
    && (done >= 4 && task.evidence == Sufficient ==> subject.productLine != Unknown)
    && task.proposed == None
  }

  ghost predicate TaskSound(text: Text, db: Db, runId: string, task: Task) {
    && runId in db.runs
    && db.runs[runId].claimId == task.claimId
    && Owned(db, task.claimId, task.owner)
    && (Live(task.place) ==> db.runs[runId].status == Running)
    && (OnTrack(task.place) ==>
          && StepsRecorded(task.place) <= |ORDER|
          && Steps(db.audit, runId) == ORDER[..StepsRecorded(task.place)])
    && (task.place.Recording? ==> task.place.n < |ORDER|)
    && StateSound(text, task, db.claims[task.claimId].subject)
  }

  ghost predicate TasksSound(text: Text, sys: System) {
    forall runId :: runId in sys.tasks ==> TaskSound(text, sys.db, runId, sys.tasks[runId])
  }

  ghost predicate Sound(text: Text, sys: System) {
    DbSound(text, sys.db) && TasksSound(text, sys)
  }

  /** What a transaction leaves alone: owners, subjects, and every run but one. */
  ghost predicate Undisturbed(db: Db, db': Db, except: Option<string>) {
    && (forall run :: run in db.runs && except != Some(run) ==>
          run in db'.runs && db'.runs[run] == db.runs[run] && Steps(db'.audit, run) == Steps(db.audit, run))
    && (forall id :: id in db.claims ==>
          id in db'.claims && db'.claims[id].owner == db.claims[id].owner && db'.claims[id].subject == db.claims[id].subject)
  }

  lemma TaskStaysSound(text: Text, db: Db, db': Db, except: Option<string>, runId: string, task: Task)
    requires Undisturbed(db, db', except) && except != Some(runId)
    requires TaskSound(text, db, runId, task)
    ensures TaskSound(text, db', runId, task)
  {
  }

  /** A step of one executor keeps the others. */
  lemma OtherTasksStaySound(text: Text, sys: System, db': Db, runId: string, task: Task)
    requires TasksSound(text, sys)
    requires Undisturbed(sys.db, db', Some(runId))
    requires TaskSound(text, db', runId, task)
    ensures TasksSound(text, With(sys.(db := db'), runId, task))
  {
    forall other | other in sys.tasks && other != runId ensures TaskSound(text, db', other, sys.tasks[other]) {
      TaskStaysSound(text, sys.db, db', Some(runId), other, sys.tasks[other]);
    }
  }

  lemma TransitionLeavesRuns(db: Db, claimId: string, target: ClaimStatus, actor: string)
    requires claimId in db.claims && TransitionClaim(db, claimId, target, actor).Ok?
    ensures Undisturbed(db, TransitionClaim(db, claimId, target, actor).value, None)
    ensures TransitionClaim(db, claimId, target, actor).value.runs == db.runs
  {
    if db.claims[claimId].status != target {
      RowConcernsItsClaim(db.audit, AuditRow(claimId, actor, StatusChanged(db.claims[claimId].status, target)));
    }
  }

  lemma AuditedLeavesRuns(db: Db, claimId: string, actor: string, e: Event)
    requires !e.ReviewProgress?
    ensures Undisturbed(db, Audited(db, claimId, actor, e), None)
  {
    RowConcernsItsClaim(db.audit, AuditRow(claimId, actor, e));
  }

  // ---------------------------------------------------------------- user requests

  lemma ServeKeepsDbSound(text: Text, db: Db, r: Request)
    requires DbSound(text, db) && Serve(text, db, r).Ok?
    ensures DbSound(text, Serve(text, db, r).value)
  {
    match r {
      case Create(claimId, owner, subject) => CreateKeepsSound(text, db, claimId, owner, subject);
      case Register(claimId, owner, documentType, extractionStatus) =>
        AddDocumentKeepsSound(text, db, claimId, owner, documentType, extractionStatus);
      case Submit(claimId, owner) => SubmitKeepsSound(text, db, claimId, owner);
      case ChooseNext(claimId, owner, choice) => NextStepKeepsSound(text, db, claimId, owner, choice);
      case DecideClaim(claimId, owner, decision) => DecisionKeepsSound(text, db, claimId, owner, decision);
      case ProposeOne(claimId, owner, actionId, actionType) =>
        ProposeActionKeepsSound(text, db, claimId, owner, actionId, actionType);
      case DecideOne(claimId, owner, actionId, decision) =>
        DecideActionKeepsSound(text, db, claimId, actionId, owner, decision);
    }
  }

  lemma MovingRequestLeavesRuns(text: Text, db: Db, r: Request)
    requires r.Submit? || r.ChooseNext? || r.DecideClaim?
    requires Serve(text, db, r).Ok?
    ensures Undisturbed(db, Serve(text, db, r).value, None) && Serve(text, db, r).value.runs == db.runs
  {
    var missing := MissingFor(text, r.claimId, db.claims[r.claimId], db.documents);
    var target :=
      if r.Submit? then (if missing != {} then DocumentsPending else ReadyForReview)
      else if r.ChooseNext? then (if r.choice == RequestInformation then NeedsInformation else ExpertReviewRequired)
      else if r.decision == Approve then Approved else Rejected;
    var e := if r.Submit? then SubmissionValidated(missing)
             else if r.ChooseNext? then NextStepSelected(r.choice) else HumanDecision(r.decision);
    TransitionLeavesRuns(db, r.claimId, target, r.owner);
    AuditedLeavesRuns(TransitionClaim(db, r.claimId, target, r.owner).value, r.claimId, r.owner, e);
  }

  lemma ServeLeavesRuns(text: Text, db: Db, r: Request)
    requires Serve(text, db, r).Ok?
    ensures Undisturbed(db, Serve(text, db, r).value, None) && Serve(text, db, r).value.runs == db.runs
  {
    if r.Submit? || r.ChooseNext? || r.DecideClaim? {
      MovingRequestLeavesRuns(text, db, r);
    } else {
      var after := Serve(text, db, r).value;
      var row := after.audit[|db.audit|];
      assert after.audit == db.audit + [row] && !row.event.ReviewProgress?;
      RowConcernsItsClaim(db.audit, row);
    }
  }

  lemma AskKeepsSound(text: Text, sys: System, r: Request)
    requires Sound(text, sys)
    ensures Sound(text, Next(text, sys, Ask(r)))
  {
    var served := Serve(text, sys.db, r);
    if served.Ok? {
      ServeKeepsDbSound(text, sys.db, r);
      ServeLeavesRuns(text, sys.db, r);
      forall runId | runId in sys.tasks ensures TaskSound(text, served.value, runId, sys.tasks[runId]) {
        TaskStaysSound(text, sys.db, served.value, None, runId, sys.tasks[runId]);
      }
    }
  }
}
