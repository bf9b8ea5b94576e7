/** The chat endpoint of app/api/chat/route.ts: an ordered chain of checks
    that ends in a rejection or in one of the two stream builders. The
    request's cookie, the JSON parser, the provider registry and the stream
    builders are inputs; the builders are only told what to build. */
module ChatRoute {
  import opened Js
  import opened Wrappers
  import opened Strings
  import opened ModelConfig

  /** The descriptor used when no usable cookie is present. */
  const DefaultModel: Model :=
    Model("gemini-2.0-flash", "Gemini 2.0 Flash", "Google Generative AI", "google",
          true, Manual, None)

  const EmptyMessagesText := "Messages array cannot be empty."
  const SharePageText := "Chat API is not available on share pages"
  const ProviderDisabledText := "Selected provider is not enabled "
  const InternalErrorText := "Error processing your request"
  /** The text a downstream library puts in the error it throws for an empty batch. */
  const EmptyMessagesError := "messages must not be empty"

  datatype Strategy = NativeToolCalling | ManualToolCalling

  /** The arguments handed to a stream builder. */
  datatype StreamRequest = StreamRequest(
    strategy: Strategy,
    messages: JsValue,
    model: JsValue,
    chatId: JsValue,
    searchMode: bool)

  datatype Outcome =
    | Respond(status: nat, statusText: Option<string>, body: string)
    | Streamed(request: StreamRequest)

  /** An incoming request: its parsed JSON body (parsing may throw) and its
      `referer` header. */
  datatype Request = Request(body: Completion<JsValue>, referer: Option<string>)

  /** `!messages || messages.length === 0`. */
  predicate IsEmptyBatch(messages: JsValue) {
    Falsy(messages) || Field(messages, "length") == Num(0)
  }

  /** The referer names a shared, read-only page. */
  predicate IsSharePage(referer: Option<string>) {
    referer.Some? && Contains(referer.value, "/share/")
  }

  /** The model the request runs with: the parsed `selectedModel` cookie when
      it is present, non-empty and parses, the default otherwise. The parsed
      value is used as it is, without `validateModel`. */
  function SelectModel(modelJson: Option<string>, parse: string -> Option<JsValue>): (m: JsValue)
    ensures (modelJson.Some? && modelJson.value != "" && parse(modelJson.value).Some?)
            ==> m == parse(modelJson.value).value
    ensures !(modelJson.Some? && modelJson.value != "" && parse(modelJson.value).Some?)
            ==> m == Encode(DefaultModel)
  {
    match modelJson
    case None => Encode(DefaultModel)
    case Some(json) =>
      if json == "" then Encode(DefaultModel)
      else
        match parse(json)
        case None => Encode(DefaultModel)
        case Some(parsed) => parsed
  }

  /** The native strategy exactly for `toolCallType === 'native'`. */
  function StrategyFor(model: JsValue): (s: Strategy)
    requires !IsNullish(model)
    ensures s == NativeToolCalling <==> Get(model, "toolCallType") == Normal(Str("native"))
  {
    if Field(model, "toolCallType") == Str("native") then NativeToolCalling else ManualToolCalling
  }

  /** The `catch` block: an `Error` whose message mentions an empty batch is a
      400, anything else a 500. */
  function CatchError(e: Thrown): (o: Outcome)
    ensures o.Respond?
    ensures o.status == 400 <==> e.ErrorObject? && Contains(e.message, EmptyMessagesError)
    ensures o.status != 400 ==> o == Respond(500, Some("Internal Server Error"), InternalErrorText)
    ensures o.status == 400 ==> o.body == EmptyMessagesText
  {
    if e.ErrorObject? && Contains(e.message, EmptyMessagesError) then
      Respond(400, None, EmptyMessagesText)
    else
      Respond(500, Some("Internal Server Error"), InternalErrorText)
  }

  /** `POST(req)`. */
  function Post(
    req: Request,
    cookie: Option<string>,
    parse: string -> Option<JsValue>,
    isProviderEnabled: JsValue -> bool,
    build: StreamRequest -> Completion<()>): (o: Outcome)
    ensures o.Respond? ==> o.status in {400, 403, 404, 500}
    ensures o.Streamed? ==> !o.request.searchMode && build(o.request).Normal?
  {
    match req.body
    case Throw(e) => CatchError(e)
    case Normal(body) =>
      if IsNullish(body) then CatchError(PropertyError(body))
      else
        var messages := Field(body, "messages");
        var chatId := Field(body, "id");
        if IsEmptyBatch(messages) then
          Respond(400, Some("Bad Request"), EmptyMessagesText)
        else if IsSharePage(req.referer) then
          Respond(403, Some("Forbidden"), SharePageText)
        else
          var model := SelectModel(cookie, parse);
          if IsNullish(model) then CatchError(PropertyError(model))
          else
            var providerId := Field(model, "providerId");
            if !isProviderEnabled(providerId) || Field(model, "enabled") == Bool(false) then
              Respond(404, Some("Not Found"), ProviderDisabledText + ToText(providerId))
            else
              var request := StreamRequest(StrategyFor(model), messages, chatId := chatId,
                                           model := model, searchMode := false);
              match build(request)
              case Normal(_) => Streamed(request)
              case Throw(e) => CatchError(e)
  }

  /** The request reached the model checks: its body was read, the batch is
      not empty and it does not come from a shared page. */
  predicate PassesRequestChecks(req: Request) {
    && req.body.Normal?
    && !IsNullish(req.body.value)
    && !IsEmptyBatch(Field(req.body.value, "messages"))
    && !IsSharePage(req.referer)
  }

  /** An empty batch is answered with 400 before the referer, the cookie, the
      provider registry or a builder is consulted. */
  lemma EmptyBatchRejectedFirst(
    req: Request, cookie: Option<string>, parse: string -> Option<JsValue>,
    isProviderEnabled: JsValue -> bool, build: StreamRequest -> Completion<()>)
    requires req.body.Normal? && !IsNullish(req.body.value)
    requires IsEmptyBatch(Field(req.body.value, "messages"))
    ensures Post(req, cookie, parse, isProviderEnabled, build)
            == Respond(400, Some("Bad Request"), EmptyMessagesText)
  {
  }

  /** A non-empty batch from a shared page is refused with 403 before the
      model is resolved. */
  lemma SharePageForbidden(
    req: Request, cookie: Option<string>, parse: string -> Option<JsValue>,
    isProviderEnabled: JsValue -> bool, build: StreamRequest -> Completion<()>)
    requires req.body.Normal? && !IsNullish(req.body.value)
    requires !IsEmptyBatch(Field(req.body.value, "messages"))
    requires IsSharePage(req.referer)
    ensures Post(req, cookie, parse, isProviderEnabled, build)
            == Respond(403, Some("Forbidden"), SharePageText)
  {
  }

  /** Past the request checks, the answer is 404 exactly when the provider is
      disabled or the model says `enabled: false`, and its body names the
      provider id; a missing `enabled` field does not reject. */
  lemma NotFoundIff(
    req: Request, cookie: Option<string>, parse: string -> Option<JsValue>,
    isProviderEnabled: JsValue -> bool, build: StreamRequest -> Completion<()>)
    requires PassesRequestChecks(req)
    requires !IsNullish(SelectModel(cookie, parse))
    ensures var model := SelectModel(cookie, parse);
            var o := Post(req, cookie, parse, isProviderEnabled, build);
            && ((o.Respond? && o.status == 404)
                <==> (!isProviderEnabled(Field(model, "providerId"))
                      || Get(model, "enabled") == Normal(Bool(false))))
            && (o.Respond? && o.status == 404 ==>
                  o == Respond(404, Some("Not Found"),
                               ProviderDisabledText + ToText(Field(model, "providerId"))))
  {
    var model := SelectModel(cookie, parse);
    var e := Get(model, "enabled");
    if isProviderEnabled(Field(model, "providerId")) && e != Normal(Bool(false)) {
      var request := StreamRequest(StrategyFor(model), Field(req.body.value, "messages"),
                                   model, Field(req.body.value, "id"), false);
      match build(request)
      case Normal(_) =>
      case Throw(err) => assert CatchError(err).status != 404;
    }
  }

  /** A successful request streams with the strategy the model declares, the
      request's own messages and chat id, and search switched off. */
  lemma StreamedRequestShape(
    req: Request, cookie: Option<string>, parse: string -> Option<JsValue>,
    isProviderEnabled: JsValue -> bool, build: StreamRequest -> Completion<()>)
    requires Post(req, cookie, parse, isProviderEnabled, build).Streamed?
    ensures PassesRequestChecks(req)
    ensures var r := Post(req, cookie, parse, isProviderEnabled, build).request;
            && r.model == SelectModel(cookie, parse)
            && r.messages == Field(req.body.value, "messages")
            && r.chatId == Field(req.body.value, "id")
            && !r.searchMode
            && (r.strategy == NativeToolCalling
                <==> Get(r.model, "toolCallType") == Normal(Str("native")))
  {
  }

  /** Every request that passes the request checks, resolves a model whose
      provider is enabled and which is not switched off, is handed to the
      builder with the model's own strategy; it streams when the builder
      returns normally and goes to the `catch` block when it throws. */
  lemma AcceptedRequestStreams(
    req: Request, cookie: Option<string>, parse: string -> Option<JsValue>,
    isProviderEnabled: JsValue -> bool, build: StreamRequest -> Completion<()>)
    requires PassesRequestChecks(req)
    requires !IsNullish(SelectModel(cookie, parse))
    requires isProviderEnabled(Field(SelectModel(cookie, parse), "providerId"))
    requires Get(SelectModel(cookie, parse), "enabled") != Normal(Bool(false))
    ensures var m := SelectModel(cookie, parse);
            var r := StreamRequest(StrategyFor(m), Field(req.body.value, "messages"), m,
                                   Field(req.body.value, "id"), false);
            Post(req, cookie, parse, isProviderEnabled, build)
              == if build(r).Normal? then Streamed(r) else CatchError(build(r).error)
  {
  }

  /** With no cookie, the default Gemini model is resolved; if Google is
      enabled and the builder succeeds, the manual strategy streams. */
  lemma DefaultModelStreamsManually(
    req: Request, parse: string -> Option<JsValue>,
    isProviderEnabled: JsValue -> bool, build: StreamRequest -> Completion<()>)
    requires PassesRequestChecks(req)
    requires isProviderEnabled(Str("google"))
    requires forall r :: build(r).Normal?
    ensures var o := Post(req, None, parse, isProviderEnabled, build);
            o.Streamed? && o.request.strategy == ManualToolCalling
            && o.request.model == Encode(DefaultModel)
  {
  }

  /** The cookie's model is not validated: an object holding nothing but a
      `providerId` is streamed with the manual strategy, although it fails
      `validateModel`. */
  lemma UnvalidatedCookieModelStreams(
    req: Request, json: string, parse: string -> Option<JsValue>,
    isProviderEnabled: JsValue -> bool, build: StreamRequest -> Completion<()>)
    requires PassesRequestChecks(req)
    requires json != "" && parse(json) == Some(Obj(map["providerId" := Str("google")]))
    requires isProviderEnabled(Str("google"))
    requires forall r :: build(r).Normal?
    ensures !IsValid(parse(json).value)
    ensures var o := Post(req, Some(json), parse, isProviderEnabled, build);
            o.Streamed? && o.request.strategy == ManualToolCalling
  {
  }

  /** A cookie that parses to `null` makes the property read throw a
      TypeError, which the endpoint answers with 500. */
  lemma NullCookieModelFails(
    req: Request, json: string, parse: string -> Option<JsValue>,
    isProviderEnabled: JsValue -> bool, build: StreamRequest -> Completion<()>)
    requires PassesRequestChecks(req)
    requires json != "" && parse(json) == Some(Null)
    ensures Post(req, Some(json), parse, isProviderEnabled, build)
            == Respond(500, Some("Internal Server Error"), InternalErrorText)
  {
    assert SelectModel(Some(json), parse) == Null;
    PropertyErrorIsInternal(Null);
  }

  /** The TypeError of a property read on null or undefined does not mention
      an empty batch, so the `catch` block answers it with 500. */
  lemma PropertyErrorIsInternal(v: JsValue)
    requires IsNullish(v)
    ensures CatchError(PropertyError(v)) == Respond(500, Some("Internal Server Error"), InternalErrorText)
  {
    var e := PropertyError(v);
    assert 'm' !in "Cannot read properties of ";
    assert 'm' !in "null" && 'm' !in "undefined";
    assert EmptyMessagesError[0] == 'm';
    MissingCharNotContained(e.message, EmptyMessagesError);
  }
}
