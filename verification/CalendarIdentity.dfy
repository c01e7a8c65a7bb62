/**
 The identity of a calendar write: which requests are "the same action", and
 which transaction id the backend stamps on the arguments it sends out.
 */
module CalendarIdentity {
  import opened Results

  /** JSON values as they arrive in a request body. */
  datatype Json =
    | JNull
    | JBool(b: bool)
    | JNumber(digits: string)
    | JString(s: string)
    | JArray(items: seq<Json>)
    | JObject(fields: map<string, Json>)

  /** Argument names the backend looks at; every other name is Other. */
  datatype Field =
    | CalendarId
    | Subject
    | StartTime
    | EndTime
    | Timezone
    | TransactionId
    | AccessToken
    | ApiKey
    | Other(name: string)

  type Arguments = map<Field, Json>

  datatype Request = Request(server: string, tool: string, arguments: Arguments)

  datatype Identity = Identity(
    tool: string,
    calendarId: Json,
    subject: string,
    startTime: Json,
    endTime: Json,
    timezone: Json)

  /**
   What the runtime library does to text: str(), strip() followed by casefold(),
   and the hex digest of the encoded identity. All of them are arbitrary here.
   */
  datatype Text = Text(str: Json -> string, fold: string -> string, digest: Identity -> string)

  /** The encoding and the digest are treated as collision free. */
  ghost predicate CollisionFree(text: Text) {
    forall a: Identity, b: Identity :: text.digest(a) == text.digest(b) ==> a == b
  }

  predicate IsCalendarWrite(server: string, tool: string) {
    server == "teams_mcp" && (tool == "create_calendar_event" || tool == "create_default_calendar_event")
  }

  function Get(arguments: Arguments, field: Field, default: Json): Json {
    if field in arguments then arguments[field] else default
  }

  function IdentityOf(text: Text, request: Request): Option<Identity> {
    if !IsCalendarWrite(request.server, request.tool) then None
    else
      var a := request.arguments;
      Some(Identity(
             request.tool,
             Get(a, CalendarId, JString("default")),
             text.fold(text.str(Get(a, Subject, JString("")))),
             Get(a, StartTime, JNull),
             Get(a, EndTime, JNull),
             Get(a, Timezone, JString("W. Europe Standard Time"))))
  }

  /** The idempotency key of a calendar write; other tools have none. */
  function KeyOf(text: Text, request: Request): Option<string> {
    match IdentityOf(text, request)
    case None => None
    case Some(identity) => Some("supportagent-" + text.digest(identity))
  }

  /** Stored credentials fill in the token fields the caller left out. */
  function InjectCredentials(credentials: Arguments, arguments: Arguments): Arguments {
    map field | field in arguments.Keys + (credentials.Keys * {AccessToken, ApiKey}) ::
      if field in arguments then arguments[field] else credentials[field]
  }

  /** The arguments handed to the tool server; a keyed action is stamped with its key. */
  function Outgoing(request: Request, credentials: Arguments, key: Option<string>): Arguments {
    var merged := InjectCredentials(credentials, request.arguments);
    match key
    case None => merged
    case Some(id) => merged[TransactionId := JString(id)]
  }

  /** The transaction id the caller supplied plays no part in the key. */
  lemma CallerTransactionIdIsIgnored(text: Text, request: Request, supplied: Json)
    ensures KeyOf(text, request.(arguments := request.arguments[TransactionId := supplied])) == KeyOf(text, request)
  {
    var altered := request.(arguments := request.arguments[TransactionId := supplied]);
    assert IdentityOf(text, altered) == IdentityOf(text, request);
  }

  /** A digest prefixed with a constant determines the identity. */
  lemma SameKeySameIdentity(text: Text, a: Identity, b: Identity)
    requires CollisionFree(text)
    requires "supportagent-" + text.digest(a) == "supportagent-" + text.digest(b)
    ensures a == b
  {
    var prefix := "supportagent-";
    assert text.digest(a) == (prefix + text.digest(a))[|prefix|..];
    assert text.digest(b) == (prefix + text.digest(b))[|prefix|..];
  }

  /**
   What leaves the backend still denotes the action that was asked for, and carries
   the transaction id computed from it. So a retry that starts from the outgoing
   arguments again gets the same key.
   */
  lemma OutgoingKeepsIdentity(text: Text, request: Request, credentials: Arguments)
    ensures var sent := request.(arguments := Outgoing(request, credentials, KeyOf(text, request)));
            && IdentityOf(text, sent) == IdentityOf(text, request)
            && (IdentityOf(text, request).Some? ==>
                  && TransactionId in sent.arguments
                  && sent.arguments[TransactionId] == JString(KeyOf(text, sent).value))
            && (forall field :: field in request.arguments && field != TransactionId ==>
                  field in sent.arguments && sent.arguments[field] == request.arguments[field])
  {
    var sent := request.(arguments := Outgoing(request, credentials, KeyOf(text, request)));
    assert IdentityOf(text, sent) == IdentityOf(text, request);
  }

  /** Two calendar writes share a key exactly when they denote the same action. */
  lemma KeysDistinguishActions(text: Text, a: Request, b: Request)
    requires CollisionFree(text)
    requires IdentityOf(text, a).Some? && IdentityOf(text, b).Some?
    ensures KeyOf(text, a) == KeyOf(text, b) <==> IdentityOf(text, a) == IdentityOf(text, b)
  {
    if KeyOf(text, a) == KeyOf(text, b) {
      SameKeySameIdentity(text, IdentityOf(text, a).value, IdentityOf(text, b).value);
    }
  }
}
