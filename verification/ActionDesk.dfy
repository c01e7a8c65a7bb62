/**
 Proposed actions, their approvals, and the row lock that makes a decision atomic.
 */
module ActionDesk {
  import opened Results
  import opened ClaimRules

  datatype ActionStatus =
    | Proposed
    | WaitingForApproval
    | ActionApproved
    | ActionRejected
    | Executing
    | ActionSucceeded
    | ActionFailed
    | VerificationFailed

  datatype Decision = Approve | Reject

  datatype ProposedAction = ProposedAction(
    claimId: string,
    actionType: ActionType,
    status: ActionStatus,
    proposedBy: string,
    approvedBy: Option<string>)

  datatype Approval = Approval(actionId: string, actor: string, decision: ActionStatus)

  datatype Desk = Desk(actions: map<string, ProposedAction>, approvals: seq<Approval>)

  function InitialStatus(actionType: ActionType): ActionStatus {
    WaitingForApproval
  }

  function Propose(desk: Desk, id: string, claimId: string, actionType: ActionType, proposedBy: string): Result<Desk> {
    if id in desk.actions then Refused(DuplicateId)
    else
      var action := ProposedAction(claimId, actionType, InitialStatus(actionType), proposedBy, None);
      Ok(desk.(actions := desk.actions[id := action]))
  }

  function ValidateDecision(current: ActionStatus, decision: Decision): Result<ActionStatus> {
    if current != WaitingForApproval then Refused(ActionConflict)
    else Ok(if decision == Approve then ActionApproved else ActionRejected)
  }

  /** The approval row and the action row that a decision writes. */
  function RecordDecision(desk: Desk, id: string, actor: string, status: ActionStatus): Desk
    requires id in desk.actions
  {
    var approver := if status == ActionApproved then Some(actor) else None;
    desk.(approvals := desk.approvals + [Approval(id, actor, status)],
          actions := desk.actions[id := desk.actions[id].(status := status, approvedBy := approver)])
  }

  /** A decision as one transaction. */
  function Decide(desk: Desk, id: string, actor: string, decision: Decision): Result<Desk> {
    if id !in desk.actions then Refused(NotFound)
    else
      match ValidateDecision(desk.actions[id].status, decision)
      case Refused(why) => Refused(why)
      case Ok(status) => Ok(RecordDecision(desk, id, actor, status))
  }

  /** The decisions on file for one action, oldest first. */
  function DecisionsOn(approvals: seq<Approval>, id: string): seq<ActionStatus> {
    if approvals == [] then []
    else
      var last := approvals[|approvals| - 1];
      DecisionsOn(approvals[..|approvals| - 1], id) + (if last.actionId == id then [last.decision] else [])
  }

  /** An action is waiting and undecided, or decided exactly once and the way its row says. */
  predicate DecidedAtMostOnce(desk: Desk, id: string)
    requires id in desk.actions
  {
    var action := desk.actions[id];
    match action.status
    case WaitingForApproval => DecisionsOn(desk.approvals, id) == [] && action.approvedBy == None
    case ActionApproved => DecisionsOn(desk.approvals, id) == [ActionApproved] && action.approvedBy.Some?
    case ActionRejected => DecisionsOn(desk.approvals, id) == [ActionRejected] && action.approvedBy == None
    case _ => false
  }

  ghost predicate DeskSound(desk: Desk) {
    && (forall id :: id in desk.actions ==> DecidedAtMostOnce(desk, id))
    && (forall id :: id !in desk.actions ==> DecisionsOn(desk.approvals, id) == [])
  }

  lemma OneMoreDecision(approvals: seq<Approval>, a: Approval, id: string)
    ensures DecisionsOn(approvals + [a], id)
            == DecisionsOn(approvals, id) + (if a.actionId == id then [a.decision] else [])
  {
    assert (approvals + [a])[..|approvals|] == approvals;
  }

  lemma ProposeKeepsDeskSound(desk: Desk, id: string, claimId: string, actionType: ActionType, proposedBy: string)
    requires DeskSound(desk)
    ensures var r := Propose(desk, id, claimId, actionType, proposedBy); r.Ok? ==> DeskSound(r.value)
  {
  }

  lemma RecordKeepsDeskSound(desk: Desk, id: string, actor: string, status: ActionStatus)
    requires DeskSound(desk)
    requires id in desk.actions && desk.actions[id].status == WaitingForApproval
    requires status == ActionApproved || status == ActionRejected
    ensures DeskSound(RecordDecision(desk, id, actor, status))
  {
    forall other { OneMoreDecision(desk.approvals, Approval(id, actor, status), other); }
  }

  /** A second decision is refused, whichever way it goes. */
  lemma DecisionsAreFinal(desk: Desk, id: string, first: string, second: string, d: Decision, e: Decision)
    requires Decide(desk, id, first, d).Ok?
    ensures Decide(Decide(desk, id, first, d).value, id, second, e) == Refused(ActionConflict)
  {
  }
}

/**
 Many deciders at once. Each one reads the action under FOR UPDATE, and commits or
 rolls back later; between the two anything else may happen. With locking switched
 off the read takes no lock, to show what the lock is for.
 */
module DecisionLock {
  import opened Results
  import opened ClaimRules
  import opened ActionDesk

  datatype Stage =
    | Asked
    | Read(seen: ActionStatus)
    | Decided
    | Conflict
    | RolledBack

  datatype Decider = Decider(actionId: string, actor: string, decision: Decision, stage: Stage)

  /** An audit row of a decision. */
  datatype Logged = Logged(actionId: string, actor: string, status: ActionStatus)

  datatype Room = Room(desk: Desk, deciders: map<nat, Decider>, locks: map<string, nat>, trail: seq<Logged>)

  datatype Event =
    | Enter(who: nat, actionId: string, actor: string, decision: Decision)
    | Select(who: nat)
    | Commit(who: nat)
    | Rollback(who: nat)
    | NewAction(id: string, claimId: string, actionType: ActionType, proposer: string)

  const EMPTY := Room(Desk(map[], []), map[], map[], [])

  /** The decisions the audit rows record for an action, oldest first. */
  function LoggedFor(trail: seq<Logged>, id: string): seq<ActionStatus> {
    if trail == [] then []
    else
      var last := trail[|trail| - 1];
      LoggedFor(trail[..|trail| - 1], id) + (if last.actionId == id then [last.status] else [])
  }

  ghost predicate TrailMatches(room: Room) {
    forall id :: LoggedFor(room.trail, id) == DecisionsOn(room.desk.approvals, id)
  }

  function At(room: Room, who: nat, stage: Stage): Room
    requires who in room.deciders
  {
    room.(deciders := room.deciders[who := room.deciders[who].(stage := stage)])
  }

  /** SELECT .. FOR UPDATE: blocks while another transaction holds the row. */
  function SelectStep(locking: bool, room: Room, who: nat): Room
    requires who in room.deciders
  {
    var d := room.deciders[who];
    if d.stage != Asked || d.actionId !in room.desk.actions then room
    else if !locking then At(room, who, Read(room.desk.actions[d.actionId].status))
    else if d.actionId in room.locks then room
    else At(room.(locks := room.locks[d.actionId := who]), who, Read(room.desk.actions[d.actionId].status))
  }

  function Unlocked(room: Room, id: string): Room {
    room.(locks := room.locks - {id})
  }

  /** Act on the status that was read, write, and release the lock. */
  function CommitStep(room: Room, who: nat): Room
    requires who in room.deciders
  {
    var d := room.deciders[who];
    if !d.stage.Read? || d.actionId !in room.desk.actions then room
    else
      var after := Unlocked(room, d.actionId);
      match ValidateDecision(d.stage.seen, d.decision)
      case Refused(_) => At(after, who, Conflict)
      case Ok(status) =>
        At(after.(desk := RecordDecision(room.desk, d.actionId, d.actor, status),
                  trail := room.trail + [Logged(d.actionId, d.actor, status)]), who, Decided)
  }

  function RollbackStep(room: Room, who: nat): Room
    requires who in room.deciders
  {
    if room.deciders[who].stage.Read? then At(Unlocked(room, room.deciders[who].actionId), who, RolledBack) else room
  }

  function Next(locking: bool, room: Room, e: Event): Room {
    match e
    case Enter(who, actionId, actor, decision) =>
      if who in room.deciders then room
      else room.(deciders := room.deciders[who := Decider(actionId, actor, decision, Asked)])
    case Select(who) => if who in room.deciders then SelectStep(locking, room, who) else room
    case Commit(who) => if who in room.deciders then CommitStep(room, who) else room
    case Rollback(who) => if who in room.deciders then RollbackStep(room, who) else room
    case NewAction(id, claimId, actionType, proposer) =>
      match Propose(room.desk, id, claimId, actionType, proposer)
      case Ok(desk) => room.(desk := desk)
      case Refused(_) => room
  }

  function Run(locking: bool, room: Room, events: seq<Event>): Room
    decreases |events|
  {
    if events == [] then room
    else Next(locking, Run(locking, room, events[..|events| - 1]), events[|events| - 1])
  }

  /** A decider that has read its action holds the lock, and what it read is still true. */
  ghost predicate LocksHold(room: Room) {
    && (forall who :: who in room.deciders && room.deciders[who].stage.Read? ==>
          var d := room.deciders[who];
          && d.actionId in room.locks && room.locks[d.actionId] == who
          && d.actionId in room.desk.actions
          && room.desk.actions[d.actionId].status == d.stage.seen)
    && (forall id :: id in room.locks ==>
          room.locks[id] in room.deciders && room.deciders[room.locks[id]].actionId == id)
  }

  /** With the lock, committing is the decision as one transaction on the current rows. */
  lemma CommitIsAtomic(room: Room, who: nat)
    requires LocksHold(room)
    requires who in room.deciders && room.deciders[who].stage.Read?
    ensures var d := room.deciders[who];
            match Decide(room.desk, d.actionId, d.actor, d.decision)
            case Ok(desk) => && CommitStep(room, who).desk == desk && CommitStep(room, who).deciders[who].stage == Decided
                             && CommitStep(room, who).trail ==
                                room.trail + [Logged(d.actionId, d.actor, desk.actions[d.actionId].status)]
            case Refused(why) => && why == ActionConflict && CommitStep(room, who).desk == room.desk
                                 && CommitStep(room, who).trail == room.trail
                                 && CommitStep(room, who).deciders[who].stage == Conflict
  {
  }

  lemma SelectKeepsLocks(room: Room, who: nat)
    requires who in room.deciders && LocksHold(room)
    ensures LocksHold(SelectStep(true, room, who))
  {
  }

  lemma CommitKeepsLocks(room: Room, who: nat)
    requires who in room.deciders && LocksHold(room)
    ensures LocksHold(CommitStep(room, who))
  {
  }

  lemma NextKeepsLocks(room: Room, e: Event)
    requires LocksHold(room)
    ensures LocksHold(Next(true, room, e))
  {
    match e {
      case Select(who) => if who in room.deciders { SelectKeepsLocks(room, who); }
      case Commit(who) => if who in room.deciders { CommitKeepsLocks(room, who); }
      case _ =>
    }
  }

  lemma NextKeepsDeskSound(room: Room, e: Event)
    requires LocksHold(room) && DeskSound(room.desk)
    ensures DeskSound(Next(true, room, e).desk)
  {
    match e {
      case Commit(who) =>
        if who in room.deciders && room.deciders[who].stage.Read? {
          var d := room.deciders[who];
          var outcome := ValidateDecision(d.stage.seen, d.decision);
          if outcome.Ok? {
            RecordKeepsDeskSound(room.desk, d.actionId, d.actor, outcome.value);
          }
        }
      case NewAction(id, claimId, actionType, proposer) => ProposeKeepsDeskSound(room.desk, id, claimId, actionType, proposer);
      case _ =>
    }
  }

  lemma OneMoreLogged(trail: seq<Logged>, row: Logged, id: string)
    ensures LoggedFor(trail + [row], id) == LoggedFor(trail, id) + (if row.actionId == id then [row.status] else [])
  {
    assert (trail + [row])[..|trail|] == trail;
  }

  /** Approval row and audit row are written together, lock or no lock. */
  lemma NextKeepsTrail(locking: bool, room: Room, e: Event)
    requires TrailMatches(room)
    ensures TrailMatches(Next(locking, room, e))
  {
    if e.Commit? && e.who in room.deciders && room.deciders[e.who].stage.Read?
       && room.deciders[e.who].actionId in room.desk.actions {
      var d := room.deciders[e.who];
      var outcome := ValidateDecision(d.stage.seen, d.decision);
      if outcome.Ok? {
        forall id ensures LoggedFor(Next(locking, room, e).trail, id) == DecisionsOn(Next(locking, room, e).desk.approvals, id) {
          OneMoreLogged(room.trail, Logged(d.actionId, d.actor, outcome.value), id);
          OneMoreDecision(room.desk.approvals, Approval(d.actionId, d.actor, outcome.value), id);
        }
      }
    } else {
      assert Next(locking, room, e).trail == room.trail && Next(locking, room, e).desk.approvals == room.desk.approvals;
    }
  }

  /** A decided action has exactly one audit row, of its own status, and a waiting one none. */
  ghost predicate LoggedOnce(room: Room) {
    forall id :: id in room.desk.actions ==>
      var status := room.desk.actions[id].status;
      LoggedFor(room.trail, id) == if status == WaitingForApproval then [] else [status]
  }

  /** However the deciders interleave, every action is decided at most once, and audited as often. */
  lemma {:induction false} LockedDecisionsAreUnique(events: seq<Event>)
    ensures LocksHold(Run(true, EMPTY, events)) && DeskSound(Run(true, EMPTY, events).desk)
    ensures TrailMatches(Run(true, EMPTY, events)) && LoggedOnce(Run(true, EMPTY, events))
    decreases |events|
  {
    if events != [] {
      var before := events[..|events| - 1];
      LockedDecisionsAreUnique(before);
      NextKeepsTrail(true, Run(true, EMPTY, before), events[|events| - 1]);
      NextKeepsLocks(Run(true, EMPTY, before), events[|events| - 1]);
      NextKeepsDeskSound(Run(true, EMPTY, before), events[|events| - 1]);
      OneRowEach(Run(true, EMPTY, events));
    }
  }

  lemma OneRowEach(room: Room)
    requires DeskSound(room.desk) && TrailMatches(room)
    ensures LoggedOnce(room)
  {
    forall id | id in room.desk.actions ensures DecidedAtMostOnce(room.desk, id) {}
  }

  /** What a decider asked for, and who then counts as approver. */
  function StatusAskedFor(d: Decision): ActionStatus {
    match d
    case Approve => ActionApproved
    case Reject => ActionRejected
  }

  function ApproverOf(d: Decision, actor: string): Option<string> {
    match d
    case Approve => Some(actor)
    case Reject => None
  }

  /** The action's row, its approval row and its audit row are those of this decider. */
  predicate Stands(room: Room, d: Decider) {
    && d.actionId in room.desk.actions
    && room.desk.actions[d.actionId].status == StatusAskedFor(d.decision)
    && room.desk.actions[d.actionId].approvedBy == ApproverOf(d.decision, d.actor)
    && Approval(d.actionId, d.actor, StatusAskedFor(d.decision)) in room.desk.approvals
    && Logged(d.actionId, d.actor, StatusAskedFor(d.decision)) in room.trail
  }

  ghost predicate DecidersStand(room: Room) {
    forall who :: who in room.deciders && room.deciders[who].stage.Decided? ==> Stands(room, room.deciders[who])
  }

  /** A commit stores what its decider asked for. */
  lemma CommitStands(room: Room, who: nat)
    requires LocksHold(room) && who in room.deciders && room.deciders[who].stage.Read?
    requires room.deciders[who].stage.seen == WaitingForApproval
    ensures var after := CommitStep(room, who);
            after.deciders[who].stage == Decided && Stands(after, after.deciders[who])
  {
    var after := CommitStep(room, who);
    assert after.desk.approvals[|room.desk.approvals|] in after.desk.approvals;
    assert after.trail[|room.trail|] in after.trail;
  }

  /** Nothing that happens later undoes it. */
  lemma StandingStays(room: Room, e: Event, d: Decider)
    requires LocksHold(room) && Stands(room, d)
    ensures Stands(Next(true, room, e), d)
  {
  }

  lemma CommitOutcome(room: Room, who: nat)
    requires LocksHold(room) && who in room.deciders && room.deciders[who].stage.Read?
    ensures CommitStep(room, who).deciders[who].stage == Decided ==> room.deciders[who].stage.seen == WaitingForApproval
  {
  }

  lemma NextKeepsStanding(room: Room, e: Event)
    requires LocksHold(room) && DecidersStand(room)
    ensures DecidersStand(Next(true, room, e))
  {
    var after := Next(true, room, e);
    forall who | who in after.deciders && after.deciders[who].stage.Decided? ensures Stands(after, after.deciders[who]) {
      if who in room.deciders && room.deciders[who].stage.Decided? {
        StandingStays(room, e, room.deciders[who]);
      } else {
        assert e.Commit? && e.who == who && room.deciders[who].stage.Read?;
        CommitOutcome(room, who);
        CommitStands(room, who);
      }
    }
  }

  /**
   However the deciders interleave, whoever got through finds the action as it was asked
   to be: approved by that actor, or rejected by nobody's approval, with both rows.
   */
  lemma {:induction false} DecidersGetWhatTheyAsked(events: seq<Event>)
    ensures DecidersStand(Run(true, EMPTY, events))
    decreases |events|
  {
    if events != [] {
      var before := events[..|events| - 1];
      DecidersGetWhatTheyAsked(before);
      LockedDecisionsAreUnique(before);
      NextKeepsStanding(Run(true, EMPTY, before), events[|events| - 1]);
    }
  }

  lemma RunStep(locking: bool, room: Room, events: seq<Event>, e: Event)
    ensures Run(locking, room, events + [e]) == Next(locking, Run(locking, room, events), e)
  {
    assert (events + [e])[..|events + [e]| - 1] == events;
  }

  /** Two deciders that both read before either commits. */
  lemma TwoReaders() returns (events: seq<Event>)
    ensures var room := Run(false, EMPTY, events);
            && room.desk == Desk(map["a" := ProposedAction("c", CreateJiraIssue, WaitingForApproval, "u", None)], [])
            && room.deciders == map[0 := Decider("a", "u", Approve, Read(WaitingForApproval)),
                                    1 := Decider("a", "u", Reject, Read(WaitingForApproval))]
            && room.locks == map[]
  {
    assert Run(false, EMPTY, []) == EMPTY;
    RunStep(false, EMPTY, [], NewAction("a", "c", CreateJiraIssue, "u"));
    events := [] + [NewAction("a", "c", CreateJiraIssue, "u")];
    RunStep(false, EMPTY, events, Enter(0, "a", "u", Approve));
    events := events + [Enter(0, "a", "u", Approve)];
    RunStep(false, EMPTY, events, Enter(1, "a", "u", Reject));
    events := events + [Enter(1, "a", "u", Reject)];
    RunStep(false, EMPTY, events, Select(0));
    events := events + [Select(0)];
    RunStep(false, EMPTY, events, Select(1));
    events := events + [Select(1)];
  }

  /** A commit goes by what was read, however old that is. */
  lemma CommitAddsADecision(room: Room, who: nat)
    requires who in room.deciders && room.deciders[who].stage == Read(WaitingForApproval)
    requires room.deciders[who].actionId in room.desk.actions
    ensures var d, after := room.deciders[who], CommitStep(room, who);
            && |DecisionsOn(after.desk.approvals, d.actionId)| == |DecisionsOn(room.desk.approvals, d.actionId)| + 1
            && after.desk.actions.Keys == room.desk.actions.Keys
            && after.deciders == room.deciders[who := d.(stage := Decided)]
  {
    var d := room.deciders[who];
    OneMoreDecision(room.desk.approvals, Approval(d.actionId, d.actor, if d.decision == Approve then ActionApproved else ActionRejected), d.actionId);
  }

  lemma UnlockedDecisionsCollide() returns (events: seq<Event>)
    ensures !DeskSound(Run(false, EMPTY, events).desk)
  {
    events := TwoReaders();
    CommitAddsADecision(Run(false, EMPTY, events), 0);
    RunStep(false, EMPTY, events, Commit(0));
    events := events + [Commit(0)];
    CommitAddsADecision(Run(false, EMPTY, events), 1);
    RunStep(false, EMPTY, events, Commit(1));
    events := events + [Commit(1)];
    assert "a" in Run(false, EMPTY, events).desk.actions;
  }

  /** The row lock is what makes decisions unique. */
  lemma UniqueDecisionsNeedTheLock(locking: bool)
    ensures locking <==> forall events :: DeskSound(Run(locking, EMPTY, events).desk)
  {
    if locking {
      forall events ensures DeskSound(Run(locking, EMPTY, events).desk) { LockedDecisionsAreUnique(events); }
    } else {
      var events := UnlockedDecisionsCollide();
      assert !DeskSound(Run(locking, EMPTY, events).desk);
    }
  }
}
