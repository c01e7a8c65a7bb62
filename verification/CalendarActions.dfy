/** Which calls count as the same calendar action, said in terms of their arguments alone. */
module CalendarActions {
  import opened Results
  import opened CalendarIdentity
  import opened IdempotencyTable
  import opened McpProtocol
  import opened McpCall

  /** A request that creates a calendar event. */
  predicate CreatesEvent(r: Request) {
    r.server == "teams_mcp" && r.tool in {"create_calendar_event", "create_default_calendar_event"}
  }

  /** The argument is the same in both requests, a missing one counting as the default. */
  predicate SameArgument(a: Request, b: Request, field: Field, default: Json) {
    if field in a.arguments && field in b.arguments then a.arguments[field] == b.arguments[field]
    else if field in a.arguments then a.arguments[field] == default
    else field in b.arguments ==> b.arguments[field] == default
  }

  /** The same subject, after str(), strip() and casefold(); a missing one is empty. */
  predicate SameSubject(text: Text, a: Request, b: Request) {
    var x := if Subject in a.arguments then a.arguments[Subject] else JString("");
    var y := if Subject in b.arguments then b.arguments[Subject] else JString("");
    text.fold(text.str(x)) == text.fold(text.str(y))
  }

  predicate SameAction(text: Text, a: Request, b: Request) {
    && a.tool == b.tool
    && SameSubject(text, a, b)
    && SameArgument(a, b, CalendarId, JString("default"))
    && SameArgument(a, b, StartTime, JNull)
    && SameArgument(a, b, EndTime, JNull)
    && SameArgument(a, b, Timezone, JString("W. Europe Standard Time"))
  }

  /** A call has a record key exactly when it creates an event; the key carries user, server and tool. */
  lemma KeyedIffCreatesEvent(text: Text, user: string, r: Request)
    ensures Arrival(text, user, r).key.Some? <==> CreatesEvent(r)
    ensures CreatesEvent(r) ==>
              var key := Arrival(text, user, r).key.value;
              && key.user == user && key.server == r.server && key.tool == r.tool
              && "supportagent-" <= key.idempotencyKey
  {
  }

  /** Two calls share a record key exactly when the same user asks for the same action. */
  lemma KeysAgreeIffSameAction(text: Text, userA: string, a: Request, userB: string, b: Request)
    requires CollisionFree(text) && CreatesEvent(a) && CreatesEvent(b)
    ensures Arrival(text, userA, a).key == Arrival(text, userB, b).key <==> userA == userB && SameAction(text, a, b)
  {
    KeyedIffCreatesEvent(text, userA, a);
    KeyedIffCreatesEvent(text, userB, b);
    IdentitiesAgreeIffSameAction(text, a, b);
    KeysDistinguishActions(text, a, b);
  }

  lemma IdentitiesAgreeIffSameAction(text: Text, a: Request, b: Request)
    requires CreatesEvent(a) && CreatesEvent(b)
    ensures IdentityOf(text, a).Some? && IdentityOf(text, b).Some?
    ensures IdentityOf(text, a) == IdentityOf(text, b) <==> SameAction(text, a, b)
  {
  }

  /** No record of the user is on file. */
  predicate NoRecordOf(table: Table, user: string) {
    forall key :: key in table ==> key.user != user
  }

  /**
   After a user's first calendar write succeeded, a write by somebody is answered from its
   record if and only if it is the same user and the same action; then nothing is sent.
   Any other write is sent.
   */
  lemma ReplayedIffSameAction(text: Text, table: Table, user: string, a: Request, credentials: Arguments, result: string,
                              other: string, b: Request, again: Arguments, outcome: Outcome)
    requires CollisionFree(text) && CreatesEvent(a) && CreatesEvent(b)
    requires NoRecordOf(table, user) && NoRecordOf(table, other)
    ensures var first := Handle(text, table, user, a, true, credentials, Returns(result));
            var second := Handle(text, first.table, other, b, true, again, outcome);
            && first.response == Success(result, false) && first.sent.Some?
            && (other == user && SameAction(text, a, b) ==>
                  second.response == Success(result, true) && second.sent == None && second.table == first.table)
            && (!(other == user && SameAction(text, a, b)) ==>
                  && second.sent.Some?
                  && second.response == (if outcome.Raises? then BadRequest else Success(outcome.result, false)))
  {
    KeyedIffCreatesEvent(text, user, a);
    KeyedIffCreatesEvent(text, other, b);
    KeysAgreeIffSameAction(text, user, a, other, b);
  }

  /** A call that creates no event is sent every time and leaves the records alone; a refused one does neither. */
  lemma OtherCallsAreNotRecorded(text: Text, table: Table, user: string, r: Request, allowed: bool,
                                 credentials: Arguments, outcome: Outcome)
    ensures !CreatesEvent(r) || !allowed ==>
              var h := Handle(text, table, user, r, allowed, credentials, outcome);
              && h.table == table && (h.sent.Some? <==> allowed)
              && h.response == (if !allowed then Forbidden
                                else if outcome.Raises? then BadRequest else Success(outcome.result, false))
  {
    KeyedIffCreatesEvent(text, user, r);
  }

  /** While the record of the action is in progress a call is refused and sends nothing. */
  lemma BusyCallIsRefused(text: Text, table: Table, user: string, r: Request, credentials: Arguments, outcome: Outcome)
    requires var key := Arrival(text, user, r).key; key.Some? && key.value in table && table[key.value] == InProgress
    ensures Handle(text, table, user, r, true, credentials, outcome) == Handled(Conflict, None, table)
  {
  }

  /**
   What goes out, argument by argument: the computed transaction id for a calendar write,
   the caller's own arguments, a stored token where the caller gave none, nothing else.
   */
  lemma SentArguments(text: Text, user: string, r: Request, credentials: Arguments, field: Field)
    ensures var call := Arrival(text, user, r);
            var sent := Sent(call, credentials);
            && sent.server == r.server && sent.tool == r.tool
            && (field in sent.arguments <==>
                  || field in r.arguments
                  || (field in credentials && field in {AccessToken, ApiKey})
                  || (field == TransactionId && CreatesEvent(r)))
            && (field in sent.arguments ==>
                  sent.arguments[field] ==
                  if field == TransactionId && CreatesEvent(r) then JString(call.key.value.idempotencyKey)
                  else if field in r.arguments then r.arguments[field]
                  else credentials[field])
  {
    KeyedIffCreatesEvent(text, user, r);
  }
}
