/**
 * The per-route request pipeline: what one request to one of a resource's five routes
 * answers, given what the resource handler returns for it. The handler's answers
 * (authentication verdict, operation result, list cursor) are inputs.
 *
 * Order of the stages: authenticate; fetch the handler's rules; decode the payload
 * (create and update); invoke the operation; project its result; then, while writing
 * the response, look up the serializer of the requested format. An unknown format is
 * therefore reported only after the operation has run, and it overrides the
 * operation's own outcome.
 */
module Pipeline {
  import opened Wrappers
  import opened Rules
  import opened Projection
  import opened Pagination

  datatype Op = Create | Read | ReadList | Update | Delete

  /** The suffix of the route name for the operation. */
  function OpName(op: Op): (name: string)
  {
    match op
    case Create => "create"
    case Read => "read"
    case ReadList => "readList"
    case Update => "update"
    case Delete => "delete"
  }

  const StatusOK := 200
  const StatusCreated := 201
  const StatusUnauthorized := 401
  const StatusInternalServerError := 500
  const StatusNotImplemented := 501

  /** The format served when the request names none. */
  const DefaultFormat := "json"

  /** What `result` holds: one projected resource, or a list of them. */
  datatype ResultValue = One(resource: Object) | Many(resources: seq<Object>)

  /**
   * The response envelope. Its JSON keys appear in sorted order: `next`, `result`,
   * `success` for `Ok`; `error`, `success` for `Err`.
   */
  datatype Envelope = Ok(result: ResultValue, next: Option<string>) | Err(message: string)

  /** The body: a raw text (authentication failures only) or an envelope. */
  datatype Body = Raw(text: string) | Enveloped(envelope: Envelope)

  /** The calls the pipeline makes on the resource handler. */
  datatype HandlerCall = CallAuthenticate | CallRules | CallOperation(op: Op)

  datatype Response = Response(status: int, body: Body, contentType: Option<string>, calls: seq<HandlerCall>)

  /** What a create, read, update or delete operation returns. */
  datatype ItemResult = ItemFailed(message: string) | Item(resource: Resource)

  /** What a read-list operation returns. */
  datatype ListResult = ListFailed(message: string) | Items(resources: seq<Resource>, cursor: string)

  /** The request: its URL, and for create and update whether the body decoded. */
  datatype Request = Request(url: Url, payloadError: Option<string>)

  /** What the resource handler answers for this request. */
  datatype Behaviour = Behaviour(authError: Option<string>, item: ItemResult, list: ListResult)

  /** The `format` query parameter; absent or empty means the default format. */
  function RequestedFormat(url: Url): (format: string)
    ensures format != ""
    ensures "format" in url.query && url.query["format"] != "" ==> format == url.query["format"]
    ensures !("format" in url.query && url.query["format"] != "") ==> format == DefaultFormat
  {
    if "format" in url.query && url.query["format"] != "" then url.query["format"] else DefaultFormat
  }

  /** The response of the stages after authentication, before the format is looked up. */
  datatype Outcome = Outcome(status: int, envelope: Envelope, calls: seq<HandlerCall>)

  function Invoke(op: Op, rules: seq<Rule>, req: Request, b: Behaviour): (o: Outcome)
    ensures o.status in {StatusOK, StatusCreated, StatusInternalServerError}
    ensures o.envelope.Ok? <==> o.status != StatusInternalServerError
    ensures o.status == StatusCreated <==> op == Create && o.envelope.Ok?
    ensures |o.calls| >= 2 && o.calls[..2] == [CallAuthenticate, CallRules]
    // a payload that does not decode stops before the operation
    ensures (op == Create || op == Update) && req.payloadError.Some? ==>
      o.envelope == Err(req.payloadError.value) && o.calls == [CallAuthenticate, CallRules]
    ensures !((op == Create || op == Update) && req.payloadError.Some?) ==>
      o.calls == [CallAuthenticate, CallRules, CallOperation(op)] && OperationOutcome(op, rules, req, b, o)
  {
    var consulted := [CallAuthenticate, CallRules];
    if (op == Create || op == Update) && req.payloadError.Some? then
      Outcome(StatusInternalServerError, Err(req.payloadError.value), consulted)
    else
      var calls := consulted + [CallOperation(op)];
      if op == ReadList then
        match b.list
        case ListFailed(m) => Outcome(StatusInternalServerError, Err(m), calls)
        case Items(rs, cursor) =>
          var next := if cursor == "" then None else Some(NextLink(req.url, cursor));
          Outcome(StatusOK, Ok(Many(ProjectAll(rs, rules)), next), calls)
      else
        match b.item
        case ItemFailed(m) => Outcome(StatusInternalServerError, Err(m), calls)
        case Item(r) =>
          Outcome(if op == Create then StatusCreated else StatusOK, Ok(One(Project(r, rules)), None), calls)
  }

  /** What the operation's own result makes of the outcome, once the operation has been called. */
  ghost predicate OperationOutcome(op: Op, rules: seq<Rule>, req: Request, b: Behaviour, o: Outcome)
  {
    if op == ReadList then
      match b.list
      case ListFailed(m) => o.envelope == Err(m)
      case Items(rs, cursor) =>
        && o.envelope.Ok? && o.envelope.result == Many(ProjectAll(rs, rules))
        && (cursor != "" ==> o.envelope.next == Some(NextLink(req.url, cursor)))
    else
      match b.item
      case ItemFailed(m) => o.envelope == Err(m)
      case Item(r) => o.envelope == Ok(One(Project(r, rules)), None)
  }

  /** The response to one request on the route of `op`. */
  function Handle(op: Op, rules: seq<Rule>, serializers: map<string, string>, req: Request, b: Behaviour): (r: Response)
    // authentication failure: raw message, nothing else is asked of the handler
    ensures r.status == StatusUnauthorized <==> b.authError.Some?
    ensures r.body.Raw? <==> r.status == StatusUnauthorized
    ensures b.authError.Some? ==> r.body.text == b.authError.value && r.calls == [CallAuthenticate]
    // unknown format
    ensures r.status == StatusNotImplemented <==> b.authError.None? && RequestedFormat(req.url) !in serializers
    ensures r.status == StatusNotImplemented ==>
      r.body == Enveloped(Err("Format not implemented: " + RequestedFormat(req.url)))
    // a negotiated response carries the serializer's content type
    ensures r.contentType.Some? <==> r.status != StatusUnauthorized && r.status != StatusNotImplemented
    ensures r.contentType.Some? ==> RequestedFormat(req.url) in serializers && r.contentType.value == serializers[RequestedFormat(req.url)]
    // the envelope reports success exactly on 200 and 201
    ensures r.body.Enveloped? ==> (r.body.envelope.Ok? <==> r.status in {StatusOK, StatusCreated})
    // once authenticated, the rules are always fetched
    ensures b.authError.None? ==> |r.calls| >= 2 && r.calls[..2] == [CallAuthenticate, CallRules]
  {
    match b.authError
    case Some(m) => Response(StatusUnauthorized, Raw(m), None, [CallAuthenticate])
    case None =>
      var outcome := Invoke(op, rules, req, b);
      var format := RequestedFormat(req.url);
      if format in serializers then
        Response(outcome.status, Enveloped(outcome.envelope), Some(serializers[format]), outcome.calls)
      else
        Response(StatusNotImplemented, Enveloped(Err("Format not implemented: " + format)), None, outcome.calls)
  }

  /**
   * The operation is invoked on every authenticated request whose payload decodes,
   * even one whose format turns out not to be registered.
   */
  lemma OperationInvoked(op: Op, rules: seq<Rule>, serializers: map<string, string>, req: Request, b: Behaviour)
    requires b.authError.None?
    requires op == Create || op == Update ==> req.payloadError.None?
    ensures Handle(op, rules, serializers, req, b).calls == [CallAuthenticate, CallRules, CallOperation(op)]
  {
  }

  /** An unknown format gives the same answer whatever the operation returned. */
  lemma UnknownFormatOverridesOutcome(op: Op, rules: seq<Rule>, serializers: map<string, string>,
                                      req: Request, b: Behaviour, b': Behaviour)
    requires b.authError.None? && b'.authError.None?
    requires RequestedFormat(req.url) !in serializers
    ensures Handle(op, rules, serializers, req, b) == Handle(op, rules, serializers, req, b')
  {
  }

  /** A failing operation answers 500 with its message as the error, for every route. */
  lemma OperationErrorResponse(op: Op, rules: seq<Rule>, serializers: map<string, string>, req: Request, b: Behaviour)
    requires b.authError.None? && RequestedFormat(req.url) in serializers
    requires op == Create || op == Update ==> req.payloadError.None?
    requires if op == ReadList then b.list.ListFailed? else b.item.ItemFailed?
    ensures Handle(op, rules, serializers, req, b).status == StatusInternalServerError
    ensures Handle(op, rules, serializers, req, b).body ==
      Enveloped(Err(if op == ReadList then b.list.message else b.item.message))
  {
  }

  /** A payload that does not decode answers 500 with the decoder's message, and the operation is not run. */
  lemma PayloadErrorResponse(op: Op, rules: seq<Rule>, serializers: map<string, string>, req: Request, b: Behaviour)
    requires b.authError.None? && RequestedFormat(req.url) in serializers
    requires (op == Create || op == Update) && req.payloadError.Some?
    ensures Handle(op, rules, serializers, req, b).status == StatusInternalServerError
    ensures Handle(op, rules, serializers, req, b).body == Enveloped(Err(req.payloadError.value))
    ensures CallOperation(op) !in Handle(op, rules, serializers, req, b).calls
  {
  }

  /** A successful create answers 201, a successful read, update or delete 200, with the projected resource. */
  lemma ItemSuccessResponse(op: Op, rules: seq<Rule>, serializers: map<string, string>, req: Request, b: Behaviour)
    requires op != ReadList && b.authError.None? && b.item.Item? && RequestedFormat(req.url) in serializers
    requires op == Create || op == Update ==> req.payloadError.None?
    ensures Handle(op, rules, serializers, req, b).status == if op == Create then StatusCreated else StatusOK
    ensures Handle(op, rules, serializers, req, b).body == Enveloped(Ok(One(Project(b.item.resource, rules)), None))
  {
  }

  /**
   * A successful list answers 200 with every resource projected, in order, and with a
   * non-empty cursor a `next` link built from the request's scheme and host.
   */
  lemma ListSuccessResponse(rules: seq<Rule>, serializers: map<string, string>, req: Request, b: Behaviour)
    requires b.authError.None? && b.list.Items? && b.list.cursor != "" && RequestedFormat(req.url) in serializers
    ensures Handle(ReadList, rules, serializers, req, b).status == StatusOK
    ensures Handle(ReadList, rules, serializers, req, b).body ==
      Enveloped(Ok(Many(ProjectAll(b.list.resources, rules)), Some(req.url.scheme + "://" + req.url.host + "?next=" + b.list.cursor)))
    ensures forall i :: 0 <= i < |b.list.resources| ==>
      Handle(ReadList, rules, serializers, req, b).body.envelope.result.resources[i] == Project(b.list.resources[i], rules)
  {
  }
}
