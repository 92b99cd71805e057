# go-rest resource-dispatch engine, modelled in Dafny

The `rest` package of go-rest turns a resource handler into five named HTTP routes:
`<resource>:create`, `:read`, `:readList`, `:update` and `:delete`. Each route runs a
request pipeline:

1. authenticate the request;
2. fetch the handler's rules;
3. invoke the operation;
4. project the result through the rules;
5. wrap it in the JSON envelope;
6. write it with the serializer of the requested `format`.

The registry (`muxAPI`) also keeps the response serializers by format name. Its
`validateRules` checks every handler's rules against the handler's empty resource.

The tests in `rest/api_test.go` fix the engine's observable behaviour, and this model
specifies it from them. The mocked handler's answers are plain inputs: the authentication
verdict, the operation's result or error, and the list cursor.

Modules:

- `Wrappers` (wrappers.dfy): `Option`.
- `Lexicographic` (lexicographic.dfy): the order `sort.Strings` uses, strictly sorted
  listings, sorted insertion, and the uniqueness of a sorted listing.
- `Rules` (rules.dfy): rules, the prototype that replaces reflection
  (`Nil | NonStruct | Struct(field -> type)`), and rule validation with its
  configuration errors. Go panics on these errors.
- `Projection` (projection.dfy): output projection of a resource through the rules.
- `Pagination` (pagination.dfy): the `next` link, and a reader for it.
- `Pipeline` (pipeline.dfy): the response to one request (status, body, content type),
  plus the calls made on the handler.
- `Api` (api.dfy): the route names and the class `MuxApi`. The class holds the
  serializer map, the handler map and the route table, with registration, lookup,
  serving, `AvailableFormats` and `ValidateRules`.
- `Scenarios` (scenarios.dfy): every test of the file, replayed through a fresh `MuxApi`.

Choices the tests force, or leave open:

- The format is looked up only when the response is written, after the operation has
  run: in each `...BadFormat` test the mocked operation must have been called
  (`AssertExpectations`, rest/api_test.go:125). An unknown format gives 501 whatever the operation
  returned, including an error.
- `Rules()` is fetched on every authenticated request, also when the operation fails.
  The `...Bad*` tests mock it and assert their expectations. It is not fetched when
  authentication fails; the unauthorized test does not mock it. The model fetches the
  rules before it calls the operation. The tests fix only that both are called, not
  their order.
- Projection emits every field of the resource. A field named by a rule takes the first
  such rule's alias when that alias is non-empty; otherwise it keeps its default
  (`json` tag) key. The object is built in field declaration order, so on a key
  collision the later field wins.
- `TestValidateRulesBadType` does not mock `EmptyResource`. In Go it would panic for that
  reason alone. The model checks what the test means: rule `Foo: Int` against the test
  resource, whose `Foo` is a string.

## Model

| member | source | states |
|---|---|---|
| Lexicographic.SortedListingUnique | rest/api_test.go:655-663 | two strictly sorted lists with the same elements are equal, so the sorted format list is determined by the registered set |
| Lexicographic.Insert | rest/api_test.go:657-659 | inserting a new format into a sorted list keeps it strictly sorted, adds exactly that element, and grows it by one |
| Rules.CheckRule | rest/api_test.go:667-765 | one rule passes exactly when the prototype is a struct, has the field, and has the declared type if one is declared; nil, non-struct, missing field and type mismatch (with field, declared and actual type) each map to their own error |
| Rules.CheckRules | rest/api_test.go:667-781 | the rules pass exactly when every rule holds; on failure the error is that of a failing rule with all earlier rules holding (fail-fast, in order) |
| Rules.BadPrototypeFails | rest/api_test.go:667-698 | any non-empty rule list fails on a nil or non-struct prototype, with the matching error |
| Rules.NoRulesIgnorePrototype | rest/api_test.go:767-781 | an empty rule list passes for every prototype, nil included: the empty resource is never consulted |
| Projection.OutputKey | rest/api_test.go:611-635 | a field no rule names keeps its default key; otherwise the first rule naming it decides: its alias if non-empty, else the default key |
| Projection.Project | rest/api_test.go:606-637 | the projected object's keys are exactly the output keys of the resource's fields |
| Projection.ProjectKeepsValues | rest/api_test.go:606-637 | when output keys are distinct, every field's value is found under its output key |
| Projection.ProjectWithoutRules | rest/api_test.go:185-193 | without rules every field is emitted under its default key (`{"foo":"bar"}`) |
| Projection.AliasReplacesKey | rest/api_test.go:611-636 | a field whose first naming rule has alias `a` is emitted under `a` with its value |
| Projection.OnlyFieldAndAliasMatter | rest/api_test.go:611-615 | `OutputOnly` and the declared type never change the projected object |
| Pagination.NextLink | rest/api_test.go:288-301 | the `next` link starts with the request's scheme, ends with the cursor, and has exactly the length of `scheme://host?next=cursor`; `NextLinkRoundTrip` reads it back and `NextLinkIgnoresPathAndQuery` drops path and query |
| Pagination.NextLinkRoundTrip | rest/api_test.go:288-304 | the link `scheme://host?next=cursor` is read back as exactly that scheme, host and cursor, so distinct cursors give distinct links |
| Pagination.NextLinkIgnoresPathAndQuery | rest/api_test.go:293-301 | the request's path and query do not affect the link (`/api/v0.1/foo` is dropped) |
| Pipeline.RequestedFormat | rest/api_test.go:118-128 | the `format` query parameter when present and non-empty, otherwise `json` |
| Pipeline.Invoke | rest/api_test.go:134-194 | after authentication: a payload error gives 500 with its message and no operation call; otherwise the operation is called, its error gives 500 with that message, a resource gives 201 (create) or 200 with the projected resource, a list gives 200 with every resource projected and, for a non-empty cursor, the `next` link |
| Pipeline.Handle | rest/api_test.go:103-566 | 401 exactly when authentication fails, with the raw message and no other handler call; 501 exactly when authenticated with an unregistered format, with `Format not implemented: <format>`; success envelope exactly on 200/201; the content type is the negotiated serializer's |
| Pipeline.OperationInvoked | rest/api_test.go:105-132 | once authenticated, with a decodable payload, the operation is called, even when the format is then rejected |
| Pipeline.UnknownFormatOverridesOutcome | rest/api_test.go:223-248 | with an unknown format the response does not depend on what the operation returned |
| Pipeline.OperationErrorResponse | rest/api_test.go:136-163 | an operation error on any of the five routes gives 500 and `{"error":<message>,"success":false}` |
| Pipeline.PayloadErrorResponse | rest/api_test.go:32-33 | a create or update payload that does not decode gives 500 with the decoder's message, and the operation is not called |
| Pipeline.ItemSuccessResponse | rest/api_test.go:167-194 | a successful create gives 201, read/update/delete 200, with the projected resource as `result` and no `next` |
| Pipeline.ListSuccessResponse | rest/api_test.go:280-305 | a successful list with a non-empty cursor gives 200, every resource projected in order, and `next` = `scheme://host?next=cursor` |
| Api.RouteName | rest/api_test.go:115-116 | a route name starts with the resource name followed by ':' (`foo:create`); `RouteNameRoundTrip` reads it back and `RouteNameInjective` makes it unique per resource and operation |
| Api.RouteNameRoundTrip | rest/api_test.go:94-101 | a route name `<resource>:<op>` splits back into its resource and operation |
| Api.RouteNameInjective | rest/api_test.go:94-101 | distinct resources or operations never share a route name |
| Api.RouteNames | rest/api_test.go:115-116 | the five route names of a resource are exactly `<resource>:<op>` for the five operations |
| Api.BindRoutes | rest/api_test.go:115-116 | registration adds the resource's five routes, each bound to the handler, its operation and the middleware; every other route name keeps its route |
| Api.RegisterKeepsConsistent | rest/api_test.go:115-116 | registration keeps the route table consistent with the handler map and leaves other resources' routes unchanged |
| Api.MuxApi.constructor | rest/api_test.go:653-655 | a new API holds only the `json` serializer, no handlers and no routes |
| Api.MuxApi.RegisterResponseSerializer | rest/api_test.go:657 | the format is added or overwritten; nothing else changes |
| Api.MuxApi.UnregisterResponseSerializer | rest/api_test.go:661 | the format is removed; nothing else changes |
| Api.MuxApi.AvailableFormats | rest/api_test.go:655-663 | the registered formats, strictly sorted, each exactly once |
| Api.MuxApi.RegisterResourceHandler | rest/api_test.go:115 | the handler is filed under its name, replacing an earlier one; its five routes are bound; the registry invariant holds |
| Api.MuxApi.GetRouteHandler | rest/api_test.go:92-101 | the route registered under the name, or the error `No API route with name <name>`; a found route carries that name and is bound to the handler registered for its resource |
| Api.MuxApi.Serve | rest/api_test.go:123 | serving a route runs its middleware chain in registration order; the answer is 501 exactly when an authenticated request names a format not registered at that moment, and a negotiated content type is that serializer's; `ServeOnFreshApi` ties it to the pipeline |
| Api.MuxApi.ValidateRules | rest/api_test.go:676-680 | fails exactly when some registered handler's rules fail, and then reports one such handler's error |
| Api.RegisterThenUnregister | rest/api_test.go:655-663 | registering a new format and unregistering it restores the serializer map and the format list, and leaves handlers and routes unchanged |
| Scenarios.ServeOnFreshApi | rest/api_test.go:105-125 | register, look up the route by name and serve: the answer is the pipeline's under the default serializers, and all middleware runs |
| Scenarios.CreateRouteTests | rest/api_test.go:105-219 | create: 501 with the format error after the operation ran; 500 `couldn't create`; 201 `{"result":{"foo":"bar"},"success":true}`; 401 raw `Not authorized` with only authentication called |
| Scenarios.ReadListRouteTests | rest/api_test.go:223-305 | readList: 501; 500 `no resource`; 200 with result `[{"foo":"hello"}]` and next `http://foo.com?next=cursor123` |
| Scenarios.ReadRouteTests | rest/api_test.go:308-389 | read: 501; 500 `no resource`; 200 `{"result":{"foo":"hello"},"success":true}` |
| Scenarios.UpdateRouteTests | rest/api_test.go:392-480 | update: 501; 500 `couldn't update`; 200 `{"result":{"foo":"bar"},"success":true}` |
| Scenarios.DeleteRouteTests | rest/api_test.go:484-566 | delete: 501; 500 `no resource`; 200 `{"result":{"foo":"hello"},"success":true}` |
| Scenarios.MiddlewareAndOutboundRuleTests | rest/api_test.go:568-637 | the middleware runs and the body is unchanged; the rule `Foo -> f` gives `{"result":{"f":"hello"},"success":true}` |
| Scenarios.RegisterUnregisterTest | rest/api_test.go:651-664 | formats are `["json"]`, then `["foo","json"]`, then `["json"]` |
| Scenarios.ValidateOnFreshApi | rest/api_test.go:669-680 | validating a fresh API with one handler gives that handler's rule check |
| Scenarios.ValidateRulesTests | rest/api_test.go:667-781 | non-struct, nil, missing field `bar` and `Foo: Int` fail with their errors; `Foo: String`, `Foo` unspecified and no rules pass |

## Left out

- HTTP plumbing is not modelled: request and response writers, the router's URL matching, HTTP method binding, and extraction of the `id` and API-version path parameters. Routes are found by name only.
- The `limit` and cursor query parameters of readList are not modelled, and neither is the request context passed to operations. The operation's result is an input.
- Byte-level JSON encoding is not modelled. That covers string escaping and the encoder's sorted key order (`next`, `result`, `success`). The envelope is a datatype.
- Go reflection is replaced by the explicit prototype. A pointer-to-struct prototype counts as a struct.
- The testify mock framework is not modelled. A method that is not mocked panics when called; the model instead has explicit answers and records the calls made.
- Middleware is a marker. Serving reports the chain as run, in registration order, with the body unchanged. Wrapping handler functions is not modelled.
- Locking and concurrent access to the registries are not modelled.
- The content type of the 401 and 501 responses is not stated (`None`).
- An operation returning a nil resource with no error is not modelled. A successful item result always carries a resource.
- No test fixes a successful readList with an empty cursor; the model omits `next` there, and no property is claimed about it.
- Payload decoding is not exercised by any test; a decoding failure on create or update is modelled as a 500 carrying the decoder's message, which is an input.
- `OutputOnly` does not reject the field on input. Input binding happens inside the handler.
- The cursor goes into the `next` link without URL escaping.
- A `format` query parameter given more than once is taken as a single value.
- Rule validation reports the first failing rule of a failing handler. Go panics instead, and which handler is seen first follows Go's map iteration order.
