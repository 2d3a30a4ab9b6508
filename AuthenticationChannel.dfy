/** The request-authentication channel handler: it derives the caller's
    identity from three request headers into a request-scoped security
    context, hands the request's audit queue over to the connection when the
    read is done, and publishes that queue, at most once, when a response is
    written or the connection is closed.

    The thread-local security context of the source is one explicit object
    owned by the handler; the connection is a `Channel` object with the
    audit-queue attribute; the audit writer records what it was asked to
    publish. */
module AuthenticationChannel {
  import opened Wrappers
  import opened JavaStrings

  /** Credential.CredentialType. The handler itself names only INTERNAL. */
  datatype CredentialType = INTERNAL | EXTERNAL

  datatype Credential = Credential(value: string, credentialType: CredentialType)

  /** Resolves the qualified name of a credential type, as
      `CredentialType.fromQualifiedName` does; None stands for the
      IllegalArgumentException it throws on a name it does not know. */
  type CredentialTypeLookup = string -> Option<CredentialType>

  // The placeholders installed when internal authentication is enabled.
  const EMPTY_USER_ID := "CDAP-empty-user-id"
  const EMPTY_USER_CREDENTIAL := Credential("CDAP-empty-user-credential", INTERNAL)
  const EMPTY_USER_IP := "CDAP-empty-user-ip"

  /** The user-id, user-ip and runtime-token (authorization) headers of a
      request; None is a header that is not present. */
  datatype Headers = Headers(userId: Option<string>, userIp: Option<string>, authorization: Option<string>)

  /** An inbound message: the head of an HTTP request, or a later chunk of
      its content. */
  datatype Message = HttpRequest(headers: Headers) | HttpContent

  /** What the security context says about the caller; None is null. */
  datatype Identity = Identity(userId: Option<string>, credential: Option<Credential>, userIp: Option<string>)

  const NoIdentity := Identity(None, None, None)

  /** The two ways `channelRead` raises an UnauthenticatedException. */
  datatype AuthError = InvalidHeaderFormat | InvalidCredentialType(typeName: string)

  /** An audit record added by downstream code (AuditLogContext); its
      contents do not matter to the handler. */
  datatype AuditLogContext = AuditLogContext(description: string)

  datatype HttpResponse = HttpResponse(status: int, contentLength: Option<nat>, keepAlive: bool)

  /** The identity a request starts from, before its headers are read. */
  function DefaultIdentity(internalAuthEnabled: bool): Identity {
    if internalAuthEnabled
    then Identity(Some(EMPTY_USER_ID), Some(EMPTY_USER_CREDENTIAL), Some(EMPTY_USER_IP))
    else NoIdentity
  }

  /** The index `channelRead` splits the authorization header at: the first
      space of the TRIMMED header, or -1. It is then applied to the header as
      received, untrimmed. */
  function SplitIndex(header: string): int {
    IndexOf(Trim(header), ' ')
  }

  /** The text before the split index, taken from the untrimmed header. */
  function CredentialTypeName(header: string): string
    requires SplitIndex(header) >= 0
  {
    header[..SplitIndex(header)]
  }

  /** The trimmed text after the split index of the untrimmed header. */
  function CredentialValue(header: string): string
    requires SplitIndex(header) >= 0
  {
    Trim(header[SplitIndex(header) + 1..])
  }

  /** The identity `channelRead` derives from a request's headers, or the
      authentication error it raises. */
  function ParseIdentity(internalAuthEnabled: bool, headers: Headers, types: CredentialTypeLookup): (r: Result<Identity, AuthError>)
    // a present user-id or user-ip header overrides the default, an absent one keeps it
    ensures r.Success? ==> r.value.userId == (if headers.userId.Some? then headers.userId else DefaultIdentity(internalAuthEnabled).userId)
    ensures r.Success? ==> r.value.userIp == (if headers.userIp.Some? then headers.userIp else DefaultIdentity(internalAuthEnabled).userIp)
    // without an authorization header nothing can fail and the default credential stays
    ensures headers.authorization.None? ==> r.Success? && r.value.credential == DefaultIdentity(internalAuthEnabled).credential
    // a header with no space after trimming is an error only with internal auth on
    ensures r == Failure(InvalidHeaderFormat) <==>
      headers.authorization.Some? && ' ' !in Trim(headers.authorization.value) && internalAuthEnabled
    ensures headers.authorization.Some? && ' ' !in Trim(headers.authorization.value) && !internalAuthEnabled ==>
      r.Success? && r.value.credential == DefaultIdentity(internalAuthEnabled).credential
    // an unknown type is an error whatever the flag
    ensures r.Failure? && r.error.InvalidCredentialType? <==>
      headers.authorization.Some? && SplitIndex(headers.authorization.value) >= 0 &&
      types(CredentialTypeName(headers.authorization.value)).None?
    ensures r.Failure? && r.error.InvalidCredentialType? ==>
      r.error.typeName == CredentialTypeName(headers.authorization.value)
    // a known type gives the credential of that type with the trimmed value
    ensures headers.authorization.Some? && SplitIndex(headers.authorization.value) >= 0 && r.Success? ==>
      var h := headers.authorization.value;
      types(CredentialTypeName(h)).Some? &&
      r.value.credential == Some(Credential(CredentialValue(h), types(CredentialTypeName(h)).value))
  {
    var base := DefaultIdentity(internalAuthEnabled);
    var withId := if headers.userId.Some? then base.(userId := headers.userId) else base;
    var withIp := if headers.userIp.Some? then withId.(userIp := headers.userIp) else withId;
    match headers.authorization
    case None => Success(withIp)
    case Some(h) =>
      if SplitIndex(h) < 0 then
        if internalAuthEnabled then Failure(InvalidHeaderFormat) else Success(withIp)
      else
        match types(CredentialTypeName(h))
        case None => Failure(InvalidCredentialType(CredentialTypeName(h)))
        case Some(t) => Success(withIp.(credential := Some(Credential(CredentialValue(h), t))))
  }

  /** Without leading white space, the credential type is exactly the text
      before the first space. */
  lemma TypeNameIsFirstWord(header: string)
    requires LeadingBlanks(header) == 0 && ' ' in Trim(header)
    ensures SplitIndex(header) == IndexOf(header, ' ')
    ensures CredentialTypeName(header) == header[..IndexOf(header, ' ')]
  {
    var t := Trim(header);
    assert SplitIndex(header) == IndexOf(header, ' ') by {
      assert t == header[..|t|];
      IndexOfPrefix(header, |t|, ' ');
    }
  }

  /** With leading white space the split index of the trimmed header cuts
      the untrimmed one too early: the type name then starts with white
      space, so a header such as " CDAP-Internal token" is rejected as long
      as no qualified type name starts with white space. */
  lemma LeadingBlankBreaksTypeName(internalAuthEnabled: bool, headers: Headers, types: CredentialTypeLookup)
    requires headers.authorization.Some?
    requires LeadingBlanks(headers.authorization.value) > 0 && ' ' in Trim(headers.authorization.value)
    requires forall name :: name != [] && IsBlank(name[0]) ==> types(name).None?
    ensures ParseIdentity(internalAuthEnabled, headers, types) ==
      Failure(InvalidCredentialType(CredentialTypeName(headers.authorization.value)))
  {
    var h := headers.authorization.value;
    var t := Trim(h);
    assert !IsBlank(t[0]);
    assert SplitIndex(h) > 0;
    assert CredentialTypeName(h)[0] == h[0];
  }

  /** An illustration of `LeadingBlankBreaksTypeName` on one header, adding nothing to
      it: the type name read from " X y" is " ". */
  lemma LeadingBlankExample()
    ensures SplitIndex(" X y") == 1 && CredentialTypeName(" X y") == " "
  {
    assert LeadingBlanks(" X y") == 1;
    assert LeadingBlanks("X y") == 0;
    assert TrailingBlanks(" X y") == 0;
    assert Trim(" X y") == "X y";
    assert IndexOf("X y", ' ') == 1;
  }

  /** A request-scoped security context (SecurityRequestContext). */
  class SecurityRequestContext {
    var userId: Option<string>
    var userCredential: Option<Credential>
    var userIp: Option<string>
    var auditLogQueue: seq<AuditLogContext>

    predicate IsReset()
      reads this
    {
      userId.None? && userCredential.None? && userIp.None? && auditLogQueue == []
    }

    function CurrentIdentity(): Identity
      reads this
    {
      Identity(userId, userCredential, userIp)
    }

    constructor()
      ensures IsReset()
    {
      userId, userCredential, userIp, auditLogQueue := None, None, None, [];
    }

    /** Clears the identity and starts a new, empty audit queue. */
    method Reset()
      modifies this
      ensures IsReset()
    {
      userId, userCredential, userIp, auditLogQueue := None, None, None, [];
    }

    /** setUserId, setUserCredential and setUserIp, in one step. */
    method SetIdentity(id: Identity)
      modifies this
      ensures CurrentIdentity() == id && auditLogQueue == old(auditLogQueue)
    {
      userId, userCredential, userIp := id.userId, id.credential, id.userIp;
    }

    /** What downstream code does while it handles the request. */
    method AddAuditLogContexts(events: seq<AuditLogContext>)
      modifies this
      ensures auditLogQueue == old(auditLogQueue) + events && CurrentIdentity() == old(CurrentIdentity())
    {
      auditLogQueue := auditLogQueue + events;
    }
  }

  /** The connection: its AUDIT_LOG_QUEUE attribute (None is null), the
      responses written to it, and whether it is still open. */
  class Channel {
    var auditLogQueueAttr: Option<seq<AuditLogContext>>
    var written: seq<HttpResponse>
    var open: bool

    constructor()
      ensures auditLogQueueAttr.None? && written == [] && open
    {
      auditLogQueueAttr, written, open := None, [], true;
    }
  }

  /** The audit sink; it keeps the queues it was asked to publish, in order. */
  class AuditLogWriter {
    var published: seq<seq<AuditLogContext>>

    constructor()
      ensures published == []
    {
      published := [];
    }

    method Publish(queue: seq<AuditLogContext>)
      modifies this
      ensures published == old(published) + [queue]
    {
      published := published + [queue];
    }
  }

  /** What downstream processing of a read does, as far as this handler can
      see: the audit events it adds, and a response it may write before the
      read returns. */
  datatype Downstream = Downstream(events: seq<AuditLogContext>, response: Option<HttpResponse>)

  datatype ReadOutcome = Forwarded(observed: Identity) | Rejected(error: AuthError)

  /** The response `exceptionCaught` writes. */
  function UnauthorizedResponse(): HttpResponse {
    HttpResponse(401, Some(0), false)
  }

  class AuthenticationChannelHandler {
    const internalAuthEnabled: bool
    const auditLoggingEnabled: bool
    const auditLogWriter: AuditLogWriter
    const context: SecurityRequestContext
    const credentialTypes: CredentialTypeLookup

    constructor(internalAuthEnabled: bool, auditLoggingEnabled: bool, auditLogWriter: AuditLogWriter,
                context: SecurityRequestContext, credentialTypes: CredentialTypeLookup)
      ensures this.internalAuthEnabled == internalAuthEnabled && this.auditLoggingEnabled == auditLoggingEnabled
      ensures this.auditLogWriter == auditLogWriter && this.context == context
      ensures this.credentialTypes == credentialTypes
    {
      this.internalAuthEnabled := internalAuthEnabled;
      this.auditLoggingEnabled := auditLoggingEnabled;
      this.auditLogWriter := auditLogWriter;
      this.context := context;
      this.credentialTypes := credentialTypes;
    }

    /** The identity a read hands downstream, or the error it raises. It
        depends on the message alone: a chunk gets the reset context, a
        request the identity parsed from its own headers. */
    function Authenticate(msg: Message): Result<Identity, AuthError> {
      match msg
      case HttpContent => Success(NoIdentity)
      case HttpRequest(headers) => ParseIdentity(internalAuthEnabled, headers, credentialTypes)
    }

    /** How one publish step changes the attribute and the writer's record:
        the stored queue is published and cleared when auditing is on and the
        attribute is set (an empty queue counts); otherwise nothing changes. */
    predicate PublishEffect(attrBefore: Option<seq<AuditLogContext>>, publishedBefore: seq<seq<AuditLogContext>>,
                            attr: Option<seq<AuditLogContext>>, published: seq<seq<AuditLogContext>>) {
      if auditLoggingEnabled && attrBefore.Some?
      then published == publishedBefore + [attrBefore.value] && attr.None?
      else published == publishedBefore && attr == attrBefore
    }

    /** The publish step shared by `write` and `close`: take the attribute and
        clear it, but only when auditing is on and the attribute is set. */
    method PublishAuditLogQueue(channel: Channel)
      modifies channel, auditLogWriter
      ensures PublishEffect(old(channel.auditLogQueueAttr), old(auditLogWriter.published),
                            channel.auditLogQueueAttr, auditLogWriter.published)
      ensures channel.written == old(channel.written) && channel.open == old(channel.open)
    {
      var queue := channel.auditLogQueueAttr;
      if auditLoggingEnabled && queue.Some? {
        auditLogWriter.Publish(queue.value);
        channel.auditLogQueueAttr := None;
      }
    }

    method Write(channel: Channel, msg: HttpResponse)
      modifies channel, auditLogWriter
      ensures PublishEffect(old(channel.auditLogQueueAttr), old(auditLogWriter.published),
                            channel.auditLogQueueAttr, auditLogWriter.published)
      ensures channel.written == old(channel.written) + [msg] && channel.open == old(channel.open)
    {
      PublishAuditLogQueue(channel);
      channel.written := channel.written + [msg];
    }

    method Close(channel: Channel)
      modifies channel, auditLogWriter
      ensures PublishEffect(old(channel.auditLogQueueAttr), old(auditLogWriter.published),
                            channel.auditLogQueueAttr, auditLogWriter.published)
      ensures channel.written == old(channel.written) && !channel.open
    {
      PublishAuditLogQueue(channel);
      channel.open := false;
    }

    /** `channelRead`: reset the context, authenticate, hand the message on,
        then move the read's audit queue into the channel and reset again.
        An authentication error is thrown before the hand-off, so it leaves
        the channel as it was. */
    method ChannelRead(channel: Channel, msg: Message, downstream: Downstream) returns (outcome: ReadOutcome)
      modifies context, channel, auditLogWriter
      ensures context.IsReset()
      ensures Authenticate(msg).Failure? ==>
        outcome == Rejected(Authenticate(msg).error)
        && unchanged(channel) && auditLogWriter.published == old(auditLogWriter.published)
      ensures Authenticate(msg).Success? ==>
        outcome == Forwarded(Authenticate(msg).value)
        // the attribute now holds this read's queue, whatever it held before
        && channel.auditLogQueueAttr == Some(downstream.events)
        && channel.open == old(channel.open)
        && channel.written == old(channel.written) + (if downstream.response.Some? then [downstream.response.value] else [])
        // a response written during the read publishes the queue of an EARLIER read
        && auditLogWriter.published == old(auditLogWriter.published) +
          (if downstream.response.Some? && auditLoggingEnabled && old(channel.auditLogQueueAttr).Some?
           then [old(channel.auditLogQueueAttr).value] else [])
    {
      context.Reset();
      if msg.HttpRequest? {
        var parsed := ParseIdentity(internalAuthEnabled, msg.headers, credentialTypes);
        if parsed.Failure? {
          return Rejected(parsed.error);
        }
        context.SetIdentity(parsed.value);
      }
      // ctx.fireChannelRead(msg)
      outcome := Forwarded(context.CurrentIdentity());
      assert context.auditLogQueue == [];
      context.AddAuditLogContexts(downstream.events);
      assert context.auditLogQueue == downstream.events;
      if downstream.response.Some? {
        Write(channel, downstream.response.value);
      }
      // finally
      channel.auditLogQueueAttr := Some(context.auditLogQueue);
      context.Reset();
    }

    /** `exceptionCaught`: a 401 with no body and no keep-alive, written and
        flushed through this handler, then the connection is closed. */
    method ExceptionCaught(channel: Channel)
      modifies channel, auditLogWriter
      ensures channel.written == old(channel.written) + [UnauthorizedResponse()]
      ensures UnauthorizedResponse().status == 401 && UnauthorizedResponse().contentLength == Some(0)
      ensures !UnauthorizedResponse().keepAlive && !channel.open
      // the write publishes what is pending; the close then finds nothing more
      ensures auditLogWriter.published == old(auditLogWriter.published) +
        (if auditLoggingEnabled && old(channel.auditLogQueueAttr).Some? then [old(channel.auditLogQueueAttr).value] else [])
      ensures auditLoggingEnabled ==> channel.auditLogQueueAttr.None?
      ensures !auditLoggingEnabled ==> channel.auditLogQueueAttr == old(channel.auditLogQueueAttr)
    {
      Write(channel, UnauthorizedResponse());
      Close(channel);
    }

    /** A read as the channel pipeline delivers it: an exception thrown by
        `channelRead` is passed to this handler's `exceptionCaught`. */
    method Receive(channel: Channel, msg: Message, downstream: Downstream) returns (outcome: ReadOutcome)
      modifies context, channel, auditLogWriter
      ensures context.IsReset()
      ensures outcome == (match Authenticate(msg) case Success(id) => Forwarded(id) case Failure(e) => Rejected(e))
      ensures outcome.Rejected? ==>
        channel.written == old(channel.written) + [UnauthorizedResponse()] && !channel.open
        && auditLogWriter.published == old(auditLogWriter.published) +
          (if auditLoggingEnabled && old(channel.auditLogQueueAttr).Some? then [old(channel.auditLogQueueAttr).value] else [])
    {
      outcome := ChannelRead(channel, msg, downstream);
      if outcome.Rejected? {
        ExceptionCaught(channel);
      }
    }
  }

  /** Two reads in a row on one connection: what the second hands downstream
      depends on its own message only. A response of the first read
      publishes the queue stored before it; a response of the second
      publishes the first read's queue, which the attribute holds until then. */
  method ConsecutiveReads(handler: AuthenticationChannelHandler, channel: Channel,
                          first: Message, second: Message, d1: Downstream, d2: Downstream)
    returns (o1: ReadOutcome, o2: ReadOutcome)
    requires handler.Authenticate(first).Success?
    modifies handler.context, channel, handler.auditLogWriter
    ensures o1 == Forwarded(handler.Authenticate(first).value)
    ensures o2 == (match handler.Authenticate(second) case Success(id) => Forwarded(id) case Failure(e) => Rejected(e))
    ensures handler.auditLogWriter.published == old(handler.auditLogWriter.published) +
      (if d1.response.Some? && handler.auditLoggingEnabled && old(channel.auditLogQueueAttr).Some?
       then [old(channel.auditLogQueueAttr).value] else []) +
      (if o2.Forwarded? && d2.response.Some? && handler.auditLoggingEnabled then [d1.events] else [])
    ensures channel.auditLogQueueAttr == Some(if o2.Forwarded? then d2.events else d1.events)
    ensures handler.context.IsReset()
  {
    o1 := handler.ChannelRead(channel, first, d1);
    o2 := handler.ChannelRead(channel, second, d2);
  }

  /** A response followed by a close publishes a stored queue once, not twice. */
  method WriteThenClose(handler: AuthenticationChannelHandler, channel: Channel, response: HttpResponse)
    modifies channel, handler.auditLogWriter
    ensures |handler.auditLogWriter.published| <= |old(handler.auditLogWriter.published)| + 1
    ensures handler.auditLoggingEnabled && old(channel.auditLogQueueAttr).Some? ==>
      handler.auditLogWriter.published == old(handler.auditLogWriter.published) + [old(channel.auditLogQueueAttr).value]
    ensures !handler.auditLoggingEnabled ==>
      handler.auditLogWriter.published == old(handler.auditLogWriter.published)
      && channel.auditLogQueueAttr == old(channel.auditLogQueueAttr)
  {
    handler.Write(channel, response);
    handler.Close(channel);
  }
}
