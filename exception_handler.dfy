/**
 * `GlobalExceptionHandler`: every failure that reaches the web layer becomes
 * one response carrying one problem payload. Spring selects the handler by the
 * exception's class; here that choice is explicit, one `ErrorKind` per handler
 * (or per handled exception class where one handler takes several), carrying
 * what the handler reads from the exception.
 */
module GlobalExceptionHandler {

  import opened Wrappers
  import opened Http
  import opened Problems
  import Strings
  import Utils
  import Grouping

  /** A binding-result error: a `FieldError`, or an object-level error without a field. */
  datatype ObjectError =
    | FieldError(objectName: string, field: string, defaultMessage: string)
    | GlobalError(objectName: string, defaultMessage: string)

  /** A bean-validation `ConstraintViolation`: its property path and its message. */
  datatype Violation = Violation(propertyPath: string, message: string)

  /** Which of the three internal exceptions `handleInternal` took. */
  datatype InternalException = NullPointer | IllegalArgument | IllegalState

  /**
   * The failures the handler distinguishes. `localizedMessage`, `message` and
   * `stackTrace` are the exception's `getLocalizedMessage()`, `getMessage()`
   * and printed stack trace, taken as given text. `supportedPrimaryTypes` are
   * the primary types (`MediaType.getType()`) of the supported media types,
   * so `application/json` and `application/xml` both read `application`.
   */
  datatype ErrorKind =
    | MessageNotReadable(localizedMessage: string, message: string)
    | RequestBinding(localizedMessage: string, stackTrace: string)
    | Unauthorized(localizedMessage: string, stackTrace: string)
    | MethodNotSupported(localizedMessage: string, requestMethod: string, supportedMethods: seq<string>)
    | MediaTypeNotSupported(localizedMessage: string, contentType: string, supportedPrimaryTypes: seq<string>)
    | MethodArgumentNotValid(errors: seq<ObjectError>, instance: Option<string>)
    | MissingRequestPart(localizedMessage: string, partName: string)
    | MissingRequestParameter(localizedMessage: string, parameterName: string)
    | TypeMismatch(localizedMessage: string, value: string, propertyName: string, requiredType: string)
    | NoHandlerFound(localizedMessage: string, httpMethod: string, requestUrl: string)
    | MethodArgumentTypeMismatch(localizedMessage: string, name: string, requiredTypeName: string)
    | ConstraintViolations(violations: seq<Violation>)
    | Joran(localizedMessage: string)
    | AccessDenied(localizedMessage: string)
    | JsonProcessing(localizedMessage: string)
    | JsonPatch(localizedMessage: string)
    | Internal(exception: InternalException, localizedMessage: string, stackTrace: string)
    | UnexpectedException(localizedMessage: string, stackTrace: string)
    | ClientAbort
    | OtherThrowable(message: string)

  /** The response: its HTTP status and its problem body. */
  datatype ResponseEntity = ResponseEntity(status: HttpStatus, body: Problem)

  // The catalog keys of the handlers' messages.
  const ArgumentNotValidKey: string := "exception.method.argument.not.valid"
  const MethodNotSupportedKey: string := "exception.http.request.method.not.supported"
  const MediaTypeNotSupportedKey: string := "exception.http.request.media.type.not.supported"
  const MissingPartKey: string := "exception.missing.servlet.request.part"
  const MissingParameterKey: string := "exception.missing.servlet.request.parameter"
  const TypeMismatchKey: string := "exception.type.mismatch"
  const NoHandlerFoundKey: string := "exception.no.handler.found"
  const ArgumentTypeMismatchKey: string := "exception.method.argument.type.mismatch"

  /** Where a problem's title comes from. */
  datatype TitleSource = LocalizedMessageTitle | GenericTitle | ArgumentNotValidTitle | DefaultTitle

  /** Where a problem's detail comes from. */
  datatype DetailSource =
    | LocalizedMessageText
    | MessageText
    | StackTraceText
    | CatalogText(key: string)
    | FieldMap
    | NoDetail

  /** One row of the error taxonomy. */
  datatype Classification = Classification(
    status: HttpStatus, category: Option<Category>, title: TitleSource, detail: DetailSource)

  /** The error taxonomy: status, category, title and detail for every failure. */
  function Classify(kind: ErrorKind): (c: Classification)
    ensures c.category.None? <==> kind.ClientAbort?
    ensures c.detail == FieldMap <==> kind.MethodArgumentNotValid? || kind.ConstraintViolations?
    ensures c.detail == FieldMap ==> c.status == BadRequest && c.title == ArgumentNotValidTitle
    ensures c.category == Some(Runtime) ==> c.status == BadRequest || c.status == InternalServerError
  {
    match kind
    case MessageNotReadable(_, _) => Classification(BadRequest, Some(Generic), LocalizedMessageTitle, MessageText)
    case RequestBinding(_, _) => Classification(BadRequest, Some(Generic), LocalizedMessageTitle, StackTraceText)
    case Unauthorized(_, _) => Classification(Http.Unauthorized, Some(Generic), LocalizedMessageTitle, StackTraceText)
    case MethodNotSupported(_, _, _) =>
      Classification(MethodNotAllowed, Some(Generic), LocalizedMessageTitle, CatalogText(MethodNotSupportedKey))
    case MediaTypeNotSupported(_, _, _) =>
      Classification(UnsupportedMediaType, Some(Generic), LocalizedMessageTitle, CatalogText(MediaTypeNotSupportedKey))
    case MethodArgumentNotValid(_, _) => Classification(BadRequest, Some(Generic), ArgumentNotValidTitle, FieldMap)
    case MissingRequestPart(_, _) =>
      Classification(BadRequest, Some(Generic), LocalizedMessageTitle, CatalogText(MissingPartKey))
    case MissingRequestParameter(_, _) =>
      Classification(BadRequest, Some(Generic), LocalizedMessageTitle, CatalogText(MissingParameterKey))
    case TypeMismatch(_, _, _, _) =>
      Classification(BadRequest, Some(Generic), LocalizedMessageTitle, CatalogText(TypeMismatchKey))
    case NoHandlerFound(_, _, _) =>
      Classification(NotFound, Some(Generic), LocalizedMessageTitle, CatalogText(NoHandlerFoundKey))
    case MethodArgumentTypeMismatch(_, _, _) =>
      Classification(BadRequest, Some(Generic), LocalizedMessageTitle, CatalogText(ArgumentTypeMismatchKey))
    case ConstraintViolations(_) => Classification(BadRequest, Some(Generic), ArgumentNotValidTitle, FieldMap)
    case Joran(_) => Classification(UnprocessableEntity, Some(Generic), GenericTitle, LocalizedMessageText)
    case AccessDenied(_) => Classification(Forbidden, Some(Generic), GenericTitle, LocalizedMessageText)
    case JsonProcessing(_) => Classification(BadRequest, Some(Runtime), GenericTitle, LocalizedMessageText)
    case JsonPatch(_) => Classification(BadRequest, Some(Runtime), GenericTitle, LocalizedMessageText)
    case Internal(_, _, _) =>
      Classification(InternalServerError, Some(Runtime), LocalizedMessageTitle, StackTraceText)
    case UnexpectedException(_, _) =>
      Classification(InternalServerError, Some(Runtime), LocalizedMessageTitle, StackTraceText)
    case ClientAbort => Classification(InternalServerError, None, DefaultTitle, NoDetail)
    case OtherThrowable(_) => Classification(InternalServerError, Some(Runtime), GenericTitle, MessageText)
  }

  /** The arguments a catalog detail message is formatted with. */
  function CatalogArgs(kind: ErrorKind): seq<string>
  {
    match kind
    case MethodNotSupported(_, requestMethod, supported) => [requestMethod, Strings.Join(", ", supported)]
    case MediaTypeNotSupported(_, contentType, supported) => [contentType, Strings.Join(", ", supported)]
    case MissingRequestPart(_, partName) => [partName]
    case MissingRequestParameter(_, parameterName) => [parameterName]
    case TypeMismatch(_, value, propertyName, requiredType) => [value, propertyName, requiredType]
    case NoHandlerFound(_, httpMethod, requestUrl) => [httpMethod, requestUrl]
    case MethodArgumentTypeMismatch(_, name, requiredTypeName) => [name, requiredTypeName]
    case _ => []
  }

  /** The name a binding error is grouped under: its field, or its object name when it has none. */
  function ErrorKey(e: ObjectError): (r: string)
    ensures e.FieldError? ==> r == e.field
    ensures e.GlobalError? ==> r == e.objectName
  {
    match e
    case FieldError(_, field, _) => field
    case GlobalError(objectName, _) => objectName
  }

  function FieldErrorEntries(errors: seq<ObjectError>): (r: seq<Grouping.Entry>)
    ensures |r| == |errors|
    ensures forall i :: 0 <= i < |errors| ==>
      r[i] == Grouping.Entry(ErrorKey(errors[i]), errors[i].defaultMessage)
  {
    seq(|errors|, i requires 0 <= i < |errors| => Grouping.Entry(ErrorKey(errors[i]), errors[i].defaultMessage))
  }

  function ViolationEntries(violations: seq<Violation>): (r: seq<Grouping.Entry>)
    ensures |r| == |violations|
    ensures forall i :: 0 <= i < |violations| ==>
      r[i] == Grouping.Entry(violations[i].propertyPath, violations[i].message)
  {
    seq(|violations|, i requires 0 <= i < |violations| =>
      Grouping.Entry(violations[i].propertyPath, violations[i].message))
  }

  /** The entries a validation failure is grouped from. */
  function ValidationEntries(kind: ErrorKind): seq<Grouping.Entry>
  {
    match kind
    case MethodArgumentNotValid(errors, _) => FieldErrorEntries(errors)
    case ConstraintViolations(violations) => ViolationEntries(violations)
    case _ => []
  }

  /**
   * The handlers. Every response carries the status its problem was built
   * with, and status, category, title and detail follow the taxonomy.
   */
  function Handle(cfg: BuilderConfig, tr: Utils.Translate, kind: ErrorKind, now: Instant): (r: ResponseEntity)
    ensures r.body.status == r.status
  {
    match kind
    case MessageNotReadable(localizedMessage, message) =>
      Reply(BadRequest, BuildGenericProblemDetailWithTitle(cfg, localizedMessage, message, BadRequest, now))
    case RequestBinding(localizedMessage, stackTrace) =>
      Reply(BadRequest, BuildGenericProblemDetailWithTitle(cfg, localizedMessage, stackTrace, BadRequest, now))
    case Unauthorized(localizedMessage, stackTrace) =>
      Reply(Http.Unauthorized,
            BuildGenericProblemDetailWithTitle(cfg, localizedMessage, stackTrace, Http.Unauthorized, now))
    case MethodNotSupported(localizedMessage, requestMethod, supportedMethods) =>
      var supported := Strings.Join(", ", supportedMethods);
      var message := tr(MethodNotSupportedKey, [requestMethod, supported]);
      Reply(MethodNotAllowed, BuildGenericProblemDetailWithTitle(cfg, localizedMessage, message, MethodNotAllowed, now))
    case MediaTypeNotSupported(localizedMessage, contentType, supportedPrimaryTypes) =>
      var supported := Strings.Join(", ", supportedPrimaryTypes);
      var message := tr(MediaTypeNotSupportedKey, [contentType, supported]);
      Reply(UnsupportedMediaType,
            BuildGenericProblemDetailWithTitle(cfg, localizedMessage, message, UnsupportedMediaType, now))
    case MethodArgumentNotValid(errors, instance) =>
      var grouped := Grouping.Grouped(FieldErrorEntries(errors));
      var problem := BuildGenericProblemDetailWithFieldErrors(cfg, tr(ArgumentNotValidKey, []), BadRequest, grouped, now);
      Reply(BadRequest, problem.(instance := instance))
    case MissingRequestPart(localizedMessage, partName) =>
      Reply(BadRequest, BuildGenericProblemDetailWithTitle(
        cfg, localizedMessage, tr(MissingPartKey, [partName]), BadRequest, now))
    case MissingRequestParameter(localizedMessage, parameterName) =>
      Reply(BadRequest, BuildGenericProblemDetailWithTitle(
        cfg, localizedMessage, tr(MissingParameterKey, [parameterName]), BadRequest, now))
    case TypeMismatch(localizedMessage, value, propertyName, requiredType) =>
      Reply(BadRequest, BuildGenericProblemDetailWithTitle(
        cfg, localizedMessage, tr(TypeMismatchKey, [value, propertyName, requiredType]), BadRequest, now))
    case NoHandlerFound(localizedMessage, httpMethod, requestUrl) =>
      Reply(NotFound, BuildGenericProblemDetailWithTitle(
        cfg, localizedMessage, tr(NoHandlerFoundKey, [httpMethod, requestUrl]), NotFound, now))
    case MethodArgumentTypeMismatch(localizedMessage, name, requiredTypeName) =>
      Reply(BadRequest, BuildGenericProblemDetailWithTitle(
        cfg, localizedMessage, tr(ArgumentTypeMismatchKey, [name, requiredTypeName]), BadRequest, now))
    case ConstraintViolations(violations) =>
      var grouped := Grouping.Grouped(ViolationEntries(violations));
      Reply(BadRequest, BuildGenericProblemDetailWithFieldErrors(cfg, tr(ArgumentNotValidKey, []), BadRequest, grouped, now))
    case Joran(localizedMessage) =>
      Reply(UnprocessableEntity, BuildGenericProblemDetail(cfg, tr, localizedMessage, UnprocessableEntity, now))
    case AccessDenied(localizedMessage) =>
      Reply(Forbidden, BuildGenericProblemDetail(cfg, tr, localizedMessage, Forbidden, now))
    case JsonProcessing(localizedMessage) =>
      Reply(BadRequest, BuildRuntimeProblemDetail(cfg, tr, localizedMessage, BadRequest, now))
    case JsonPatch(localizedMessage) =>
      Reply(BadRequest, BuildRuntimeProblemDetail(cfg, tr, localizedMessage, BadRequest, now))
    case Internal(_, localizedMessage, stackTrace) =>
      Reply(InternalServerError, BuildRuntimeProblemDetailWithTitle(
        cfg, localizedMessage, stackTrace, InternalServerError, now))
    case UnexpectedException(localizedMessage, stackTrace) =>
      Reply(InternalServerError, BuildRuntimeProblemDetailWithTitle(
        cfg, localizedMessage, stackTrace, InternalServerError, now))
    case ClientAbort =>
      Reply(InternalServerError, ForStatus(InternalServerError))
    case OtherThrowable(message) =>
      Reply(InternalServerError, BuildProblemDetail(cfg, tr, message, InternalServerError, false, now))
  }

  /** `handleExceptionInternal` / `createResponseEntity`: the body sent with the given status. */
  function Reply(status: HttpStatus, body: Problem): (r: ResponseEntity)
    ensures r.status == status && r.body == body
  {
    ResponseEntity(status, body)
  }

  /** `handleMethodArgumentNotValid`: the grouping loop, then the field-map problem with the request's instance. */
  method HandleMethodArgumentNotValid(cfg: BuilderConfig, tr: Utils.Translate, errors: seq<ObjectError>,
                                      instance: Option<string>, now: Instant) returns (r: ResponseEntity)
    ensures r == Handle(cfg, tr, MethodArgumentNotValid(errors, instance), now)
  {
    var errorMessages := Grouping.GroupMessages(FieldErrorEntries(errors));
    var problem := BuildGenericProblemDetailWithFieldErrors(
      cfg, tr(ArgumentNotValidKey, []), BadRequest, errorMessages, now);
    problem := problem.(instance := instance);
    r := Reply(BadRequest, problem);
  }

  /** `handleConstraintViolation`: the grouping loop keyed by property path, then the field-map problem. */
  method HandleConstraintViolation(cfg: BuilderConfig, tr: Utils.Translate, violations: seq<Violation>,
                                   now: Instant) returns (r: ResponseEntity)
    ensures r == Handle(cfg, tr, ConstraintViolations(violations), now)
  {
    var errorMessages := Grouping.GroupMessages(ViolationEntries(violations));
    var problem := BuildGenericProblemDetailWithFieldErrors(
      cfg, tr(ArgumentNotValidKey, []), BadRequest, errorMessages, now);
    r := Reply(BadRequest, problem);
  }

  /** Every handler answers with the status and the category its row of the taxonomy gives. */
  lemma HandleFollowsTaxonomy(cfg: BuilderConfig, tr: Utils.Translate, kind: ErrorKind, now: Instant)
    ensures Handle(cfg, tr, kind, now).status == Classify(kind).status
    ensures Handle(cfg, tr, kind, now).body.status == Classify(kind).status
    ensures Handle(cfg, tr, kind, now).body.errorCategory == Classify(kind).category
  {
  }

  /** The title follows the taxonomy's title source. */
  lemma HandleTitle(cfg: BuilderConfig, tr: Utils.Translate, kind: ErrorKind, now: Instant)
    ensures var r := Handle(cfg, tr, kind, now);
      && (Classify(kind).title == LocalizedMessageTitle ==> r.body.title == Some(kind.localizedMessage))
      && (Classify(kind).title == GenericTitle ==> r.body.title == Some(tr(GenericTitleKey, [])))
      && (Classify(kind).title == ArgumentNotValidTitle ==> r.body.title == Some(tr(ArgumentNotValidKey, [])))
      && (Classify(kind).title == DefaultTitle ==> r.body.title.None?)
  {
  }

  /** The free-text detail follows the taxonomy's detail source. */
  lemma HandleDetail(cfg: BuilderConfig, tr: Utils.Translate, kind: ErrorKind, now: Instant)
    ensures var r := Handle(cfg, tr, kind, now);
      && (Classify(kind).detail == LocalizedMessageText ==> r.body.detail == Some(kind.localizedMessage))
      && (Classify(kind).detail == MessageText ==> r.body.detail == Some(kind.message))
      && (Classify(kind).detail == StackTraceText ==> r.body.detail == Some(kind.stackTrace))
      && (Classify(kind).detail.CatalogText? ==>
            r.body.detail == Some(tr(Classify(kind).detail.key, CatalogArgs(kind))))
  {
  }

  /**
   * Only the validation failures carry a field map, and then no free-text
   * detail; the client abort carries nothing but its status. Every other
   * response has the lower-cased type URI and the timestamp, and only a
   * not-valid request's problem carries an instance: the request's.
   */
  lemma HandleShape(cfg: BuilderConfig, tr: Utils.Translate, kind: ErrorKind, now: Instant)
    ensures var r := Handle(cfg, tr, kind, now);
      && (Classify(kind).detail == FieldMap ==>
            r.body.detail.None? && r.body.fieldErrors == Some(Grouping.Grouped(ValidationEntries(kind))))
      && (Classify(kind).detail != FieldMap ==> r.body.fieldErrors.None?)
      && (Classify(kind).detail == NoDetail ==> r.body == ForStatus(r.status))
      && (Classify(kind).detail != FieldMap && !kind.ClientAbort? ==>
            r.body.typeUri == Some(ErrorUri(cfg, Strings.Lower(r.status.Name())))
            && r.body.timestamp == Some(now))
      && (kind.MethodArgumentNotValid? ==> r.body.instance == kind.instance)
      && (!kind.MethodArgumentNotValid? ==> r.body.instance.None?)
  {
  }

  /** The numeric status of every failure. */
  lemma StatusCodes(cfg: BuilderConfig, tr: Utils.Translate, kind: ErrorKind, now: Instant)
    ensures var code := Handle(cfg, tr, kind, now).status.Code();
      && (kind.Unauthorized? ==> code == 401)
      && (kind.AccessDenied? ==> code == 403)
      && (kind.MethodNotSupported? ==> code == 405)
      && (kind.MediaTypeNotSupported? ==> code == 415)
      && (kind.NoHandlerFound? ==> code == 404)
      && (kind.Joran? ==> code == 422)
      && ((kind.MessageNotReadable? || kind.RequestBinding? || kind.MissingRequestPart?
           || kind.MissingRequestParameter? || kind.TypeMismatch? || kind.MethodArgumentTypeMismatch?
           || kind.MethodArgumentNotValid? || kind.ConstraintViolations? || kind.JsonProcessing?
           || kind.JsonPatch?) ==> code == 400)
      && ((kind.Internal? || kind.UnexpectedException? || kind.ClientAbort? || kind.OtherThrowable?)
          ==> code == 500)
  {
  }

  /** JSON processing and patch failures, and all internal failures, are Runtime; other handled failures are Generic. */
  lemma Categories(cfg: BuilderConfig, tr: Utils.Translate, kind: ErrorKind, now: Instant)
    ensures var category := Handle(cfg, tr, kind, now).body.errorCategory;
      && ((kind.JsonProcessing? || kind.JsonPatch? || kind.Internal? || kind.UnexpectedException?
           || kind.OtherThrowable?) <==> category == Some(Runtime))
      && (kind.ClientAbort? <==> category.None?)
  {
  }

  /** Both validation handlers answer 400, Generic, with the not-valid title and the grouped messages. */
  lemma ValidationHandlers(cfg: BuilderConfig, tr: Utils.Translate, kind: ErrorKind, now: Instant)
    requires kind.MethodArgumentNotValid? || kind.ConstraintViolations?
    ensures var r := Handle(cfg, tr, kind, now);
      && r.status == BadRequest && r.body.errorCategory == Some(Generic)
      && r.body.title == Some(tr(ArgumentNotValidKey, []))
      && r.body.typeUri == Some(ErrorUri(cfg, BadRequest.Name()))
      && r.body.detail.None? && r.body.fieldErrors == Some(Grouping.Grouped(ValidationEntries(kind)))
  {
  }

  /** The method-not-allowed detail names the method and the supported methods joined with ", ". */
  lemma SupportedMethodsJoined(cfg: BuilderConfig, tr: Utils.Translate, localizedMessage: string,
                               requestMethod: string, supported: seq<string>, extra: string, now: Instant)
    requires supported != []
    ensures Handle(cfg, tr, MethodNotSupported(localizedMessage, requestMethod, supported + [extra]), now).body.detail
            == Some(tr(MethodNotSupportedKey, [requestMethod, Strings.Join(", ", supported) + ", " + extra]))
  {
    Strings.JoinSnoc(", ", supported, extra);
  }

  /**
   * A client abort gets a bare 500 problem; any other throwable a 500 Runtime
   * problem with the generic title and the throwable's message.
   */
  lemma ThrowableFallback(cfg: BuilderConfig, tr: Utils.Translate, message: string, now: Instant)
    ensures Handle(cfg, tr, ClientAbort, now) == ResponseEntity(InternalServerError, ForStatus(InternalServerError))
    ensures Handle(cfg, tr, OtherThrowable(message), now)
            == ResponseEntity(InternalServerError, BuildRuntimeProblemDetail(cfg, tr, message, InternalServerError, now))
  {
    BuildProblemDetailSelects(cfg, tr, message, InternalServerError, false, now);
  }

  /**
   * Every binding error of a not-valid request is in the response, under its
   * field (or under its object name when it is not a field error), at the
   * position its order among that name's errors gives it.
   */
  lemma FieldErrorReported(cfg: BuilderConfig, tr: Utils.Translate, errors: seq<ObjectError>,
                           instance: Option<string>, now: Instant, i: nat)
    requires i < |errors|
    ensures var grouped := Handle(cfg, tr, MethodArgumentNotValid(errors, instance), now).body.fieldErrors.value;
      var key := if errors[i].FieldError? then errors[i].field else errors[i].objectName;
      var pos := |Grouping.MessagesFor(FieldErrorEntries(errors)[..i], key)|;
      key in grouped && pos < |grouped[key]| && grouped[key][pos] == errors[i].defaultMessage
  {
    Grouping.MessagePosition(FieldErrorEntries(errors), i);
  }

  /** Every constraint violation is in the response under its property path, in order. */
  lemma ViolationReported(cfg: BuilderConfig, tr: Utils.Translate, violations: seq<Violation>,
                          now: Instant, i: nat)
    requires i < |violations|
    ensures var grouped := Handle(cfg, tr, ConstraintViolations(violations), now).body.fieldErrors.value;
      var key := violations[i].propertyPath;
      var pos := |Grouping.MessagesFor(ViolationEntries(violations)[..i], key)|;
      key in grouped && pos < |grouped[key]| && grouped[key][pos] == violations[i].message
  {
    Grouping.MessagePosition(ViolationEntries(violations), i);
  }

  /**
   * The field map of a not-valid request has exactly the names of its errors
   * as keys, and holds as many messages as there are errors.
   */
  lemma FieldErrorMapShape(cfg: BuilderConfig, tr: Utils.Translate, errors: seq<ObjectError>,
                           instance: Option<string>, now: Instant)
    ensures var grouped := Handle(cfg, tr, MethodArgumentNotValid(errors, instance), now).body.fieldErrors.value;
      && grouped.Keys == (set i | 0 <= i < |errors| :: ErrorKey(errors[i]))
      && Grouping.CountUnder(grouped, Grouping.FirstSeen(FieldErrorEntries(errors))) == |errors|
  {
    var entries := FieldErrorEntries(errors);
    Grouping.GroupedSpec(entries);
    Grouping.GroupedTotal(entries);
    assert Grouping.KeysOf(entries) == (set i | 0 <= i < |errors| :: ErrorKey(errors[i]));
  }
}
