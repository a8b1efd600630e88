# Error-response pipeline of the shared library

This project is a Dafny model of how the shared library turns a failure into an HTTP error response. It covers three parts:

- **The problem builder** (`ProblemBuilder`). It constructs RFC 7807 problem-details payloads (Problem Details for HTTP APIs). These carry the standard members `type`, `title`, `status`, `detail` and `instance` (section 3.1 of RFC 7807), and the extension members `timestamp`, `errorCategory` and a per-field `detail` map (section 3.2).
- **The global exception handler** (`GlobalExceptionHandler`). Each of its handlers picks a status, a category, a title, a detail and a builder entry point for one kind of failure. The two validation handlers first group their (field, message) pairs into a map of lists.
- **The error-details text** (`Utils.getErrorsDetails`).

Modules:

- `Wrappers`: `Option`.
- `Strings`: `toLowerCase` on ASCII, and `String.join`.
- `Http`: the `HttpStatus` constants the handlers use, each with its name and its code.
- `Utils`: the catalog lookup type `Translate`, and `ErrorsDetails`.
- `Problems`: the `Problem` datatype and one function per builder entry point.
- `Grouping`: the grouping fold. It has a specification function `Grouped`, a method `GroupMessages` with a loop that is proved to compute it, and lemmas about keys, order and the message count.
- `GlobalExceptionHandler`: the `ErrorKind` taxonomy, the `Classify` table, the handlers as one function `Handle`, and the two validation handlers as methods that run the grouping loop.

How the outside world enters the model:

- **Message catalog.** The catalog lookup `translate(key, args...)` is a function-valued parameter `tr`. The locale and the message bundle stay outside the model. `translate(key)` is modelled as `tr(key, [])`.
- **Clock.** The reading of `Instant.now()` is a parameter `now`, and it is stored in `timestamp`.
- **Stack traces.** The printed stack trace (`getStackTraceAsString`) is a string carried by the failure it belongs to.
- **Builder configuration.** The application name and the server port are a `BuilderConfig` value.

The model covers the failure kinds `GlobalExceptionHandler.java` has a handler for. Entity-not-found, uniqueness-conflict and store-unavailable failures have none there.

Two details of the code are modelled as written:

- **Field-map type URI.** Only the free-text builder lower-cases the status name (ProblemBuilder.java:33). The field-map builder keeps the constant's upper-case name (ProblemBuilder.java:70), so it gives `/errors/BAD_REQUEST` where the free-text builder gives `/errors/bad_request`. `Problems.FieldMapTypeDiffers` proves that the field-map type never equals the type of `createProblemDetail` or of the titled free-text builders. The postconditions of all five free-text entry points give the lower-cased URI.
- **Double space in the details text.** The prefix already ends in a space, and the separator adds another (Utils.java:40). So the first non-empty argument follows two spaces.

## Model

| member | source | states |
|---|---|---|
| Strings.Lower | common-library/api/src/main/java/com/optimagrowth/commonlibrary/api/component/ProblemBuilder.java:33 | lower-casing keeps the length and lower-cases each ASCII letter in place |
| Strings.LowerInjective | common-library/api/src/main/java/com/optimagrowth/commonlibrary/api/component/ProblemBuilder.java:33 | on strings without lower-case letters, equal lower-cased forms mean equal strings |
| Strings.LowerChanges | common-library/api/src/main/java/com/optimagrowth/commonlibrary/api/component/ProblemBuilder.java:69-70 | a string holding an upper-case letter differs from its lower-cased form |
| Strings.Join | common-library/api/src/main/java/com/optimagrowth/commonlibrary/api/exception/GlobalExceptionHandler.java:126-129 | joining nothing gives "", one element gives that element, and the text starts with the first element |
| Strings.JoinSnoc | common-library/api/src/main/java/com/optimagrowth/commonlibrary/api/exception/GlobalExceptionHandler.java:126-129 | joining a longer list appends the separator and then the new element |
| Strings.JoinLength | common-library/api/src/main/java/com/optimagrowth/commonlibrary/api/exception/GlobalExceptionHandler.java:126-129 | the joined text is as long as the elements plus one separator per adjacent pair |
| Http.NameIsUpperCase | common-library/api/src/main/java/com/optimagrowth/commonlibrary/api/component/ProblemBuilder.java:33 | every status name is upper case and starts with a letter |
| Http.NameAndCodeIdentify | common-library/api/src/main/java/com/optimagrowth/commonlibrary/api/exception/GlobalExceptionHandler.java:36 | a status is determined by its name and also by its code |
| Utils.NonEmpty | common-library/utils/src/main/java/com/optimagrowth/commonlibrary/utils/utils/Utils.java:39 | the result holds exactly the non-empty arguments: no empty one, every non-empty one, never more than given |
| Utils.NonEmptyConcat | common-library/utils/src/main/java/com/optimagrowth/commonlibrary/utils/utils/Utils.java:39 | the filter keeps order: the survivors of a concatenation are the survivors of each part, in turn |
| Utils.ErrorsDetails | common-library/utils/src/main/java/com/optimagrowth/commonlibrary/utils/utils/Utils.java:36-43 | the text always starts with "Please make sure to provide a valid request, " |
| Utils.ErrorsDetailsLength | common-library/utils/src/main/java/com/optimagrowth/commonlibrary/utils/utils/Utils.java:38-40 | the text's length is the prefix length plus 1 + length for each non-empty argument |
| Utils.ErrorsDetailsAllEmpty | common-library/utils/src/main/java/com/optimagrowth/commonlibrary/utils/utils/Utils.java:39-42 | when every argument is empty, nothing passes the filter and the text is exactly the prefix |
| Utils.EmptyArgumentIgnored | common-library/utils/src/main/java/com/optimagrowth/commonlibrary/utils/utils/Utils.java:39 | an empty argument anywhere in the list leaves the text unchanged |
| Utils.ErrorsDetailsSnoc | common-library/utils/src/main/java/com/optimagrowth/commonlibrary/utils/utils/Utils.java:40 | a non-empty argument at the end is appended after exactly one space, so the arguments appear in order |
| Problems.ForStatus | common-library/api/src/main/java/com/optimagrowth/commonlibrary/api/component/ProblemBuilder.java:72 | `ProblemDetail.forStatus`: a problem with the given status and every other member unset |
| Problems.CreateProblemDetail | common-library/api/src/main/java/com/optimagrowth/commonlibrary/api/component/ProblemBuilder.java:30-42 | type is "https://" + application + ":" + port + "/errors/" + the lower-cased status name; title, status and detail are the arguments; category and timestamp are set; no instance and no field map |
| Problems.BuildProblemDetail | common-library/api/src/main/java/com/optimagrowth/commonlibrary/api/component/ProblemBuilder.java:44-49 | category is Generic iff `generic`, and Runtime iff not; the title is the catalog's generic title; status and detail pass through; the type URI ends with the lower-cased status name; the timestamp is set; no instance and no field map |
| Problems.BuildRuntimeProblemDetail | common-library/api/src/main/java/com/optimagrowth/commonlibrary/api/component/ProblemBuilder.java:51-53 | category Runtime, the generic title, status and detail unchanged; the type URI ends with the lower-cased status name; the timestamp is set; no instance and no field map |
| Problems.BuildRuntimeProblemDetailWithTitle | common-library/api/src/main/java/com/optimagrowth/commonlibrary/api/component/ProblemBuilder.java:55-57 | category Runtime, the caller's title, status and detail unchanged; the type URI ends with the lower-cased status name; the timestamp is set; no instance and no field map |
| Problems.BuildGenericProblemDetail | common-library/api/src/main/java/com/optimagrowth/commonlibrary/api/component/ProblemBuilder.java:59-61 | category Generic, the generic title, status and detail unchanged; the type URI ends with the lower-cased status name; the timestamp is set; no instance and no field map |
| Problems.BuildGenericProblemDetailWithTitle | common-library/api/src/main/java/com/optimagrowth/commonlibrary/api/component/ProblemBuilder.java:63-65 | category Generic, the caller's title, status and detail unchanged; the type URI ends with the lower-cased status name; the timestamp is set; no instance and no field map |
| Problems.BuildGenericProblemDetailWithFieldErrors | common-library/api/src/main/java/com/optimagrowth/commonlibrary/api/component/ProblemBuilder.java:67-80 | type ends with the status name as it is, not lower-cased; the map is stored as the detail property and there is no free-text detail; category Generic; the caller's title |
| Problems.UntitledOverloadsUseGenericTitle | common-library/api/src/main/java/com/optimagrowth/commonlibrary/api/component/ProblemBuilder.java:51-65 | each overload without a title equals its titled twin given translate("exception.generic.title") |
| Problems.BuildProblemDetailSelects | common-library/api/src/main/java/com/optimagrowth/commonlibrary/api/component/ProblemBuilder.java:44-53 | buildProblemDetail is the untitled Generic builder when `generic` holds and the untitled Runtime builder otherwise |
| Problems.TypeUriIdentifiesStatus | common-library/api/src/main/java/com/optimagrowth/commonlibrary/api/component/ProblemBuilder.java:32-33 | under one configuration, the free-text type URI determines the status |
| Problems.FieldMapTypeDiffers | common-library/api/src/main/java/com/optimagrowth/commonlibrary/api/component/ProblemBuilder.java:32-70 | for every status, the field-map variant's type differs from the type of `createProblemDetail` and of the public titled Generic and Runtime builders |
| Grouping.Add | common-library/api/src/main/java/com/optimagrowth/commonlibrary/api/exception/GlobalExceptionHandler.java:203-204 | a computeIfAbsent + add step appends the message to the list under the entry's key (a new empty list if the key was absent) and leaves every other list alone |
| Grouping.GroupMessages | common-library/api/src/main/java/com/optimagrowth/commonlibrary/api/exception/GlobalExceptionHandler.java:190-205 | the loop, starting from an empty map, yields the grouped map of all entries |
| Grouping.GroupedSpec | common-library/api/src/main/java/com/optimagrowth/commonlibrary/api/exception/GlobalExceptionHandler.java:190-205 | the map's keys are exactly the names seen; each list is that name's messages in input order |
| Grouping.MessagesForAbsent | common-library/api/src/main/java/com/optimagrowth/commonlibrary/api/exception/GlobalExceptionHandler.java:203-204 | a name that never occurs has no messages |
| Grouping.MessagePosition | common-library/api/src/main/java/com/optimagrowth/commonlibrary/api/exception/GlobalExceptionHandler.java:203-204 | entry i is stored under its own name, right after the earlier messages for that name |
| Grouping.FirstSeenSpec | common-library/api/src/main/java/com/optimagrowth/commonlibrary/api/exception/GlobalExceptionHandler.java:203-204 | the names in first-occurrence order are distinct and are exactly the map's keys |
| Grouping.GroupedTotal | common-library/api/src/main/java/com/optimagrowth/commonlibrary/api/exception/GlobalExceptionHandler.java:190-205 | the lists together hold exactly one message per entry |
| GlobalExceptionHandler.Classify | common-library/api/src/main/java/com/optimagrowth/commonlibrary/api/exception/GlobalExceptionHandler.java:56-498 | the taxonomy table: the category is absent only for a client abort; only the two validation failures use a field map, always at 400 with the not-valid title; Runtime failures are 400 or 500 |
| GlobalExceptionHandler.ErrorKey | common-library/api/src/main/java/com/optimagrowth/commonlibrary/api/exception/GlobalExceptionHandler.java:194-200 | a field error is keyed by its field; any other error, where the cast to `FieldError` fails, by its object name |
| GlobalExceptionHandler.FieldErrorEntries | common-library/api/src/main/java/com/optimagrowth/commonlibrary/api/exception/GlobalExceptionHandler.java:194-202 | each binding error has one entry, keyed by its field when it is a field error and by its object name otherwise, holding its default message |
| GlobalExceptionHandler.ViolationEntries | common-library/api/src/main/java/com/optimagrowth/commonlibrary/api/exception/GlobalExceptionHandler.java:358-360 | each violation has one entry keyed by its property path, holding its message |
| GlobalExceptionHandler.Handle | common-library/api/src/main/java/com/optimagrowth/commonlibrary/api/exception/GlobalExceptionHandler.java:56-498 | every handler gives its response the same status it built the problem with |
| GlobalExceptionHandler.Reply | common-library/api/src/main/java/com/optimagrowth/commonlibrary/api/exception/GlobalExceptionHandler.java:65 | `handleExceptionInternal` / `createResponseEntity`: the response carries exactly the given status and body |
| GlobalExceptionHandler.HandleFollowsTaxonomy | common-library/api/src/main/java/com/optimagrowth/commonlibrary/api/exception/GlobalExceptionHandler.java:56-498 | every response's status and its problem's status and category are those in the failure's row of the taxonomy |
| GlobalExceptionHandler.HandleTitle | common-library/api/src/main/java/com/optimagrowth/commonlibrary/api/exception/GlobalExceptionHandler.java:56-498 | the title is the localized message, the generic title, the not-valid title or absent, as the taxonomy row says |
| GlobalExceptionHandler.HandleDetail | common-library/api/src/main/java/com/optimagrowth/commonlibrary/api/exception/GlobalExceptionHandler.java:56-498 | the free-text detail is the localized message, the message, the stack trace, or the catalog text for the row's key and the exception's arguments |
| GlobalExceptionHandler.HandleShape | common-library/api/src/main/java/com/optimagrowth/commonlibrary/api/exception/GlobalExceptionHandler.java:56-498 | only validation failures carry the grouped field map, with no free-text detail; a client abort gets a bare problem with nothing but its status; every other response has the lower-cased type URI and the timestamp; only a not-valid request's problem has an instance, the one taken from the exception body |
| GlobalExceptionHandler.HandleMethodArgumentNotValid | common-library/api/src/main/java/com/optimagrowth/commonlibrary/api/exception/GlobalExceptionHandler.java:184-213 | the handler that runs the grouping loop returns exactly the response the taxonomy-checked function gives |
| GlobalExceptionHandler.HandleConstraintViolation | common-library/api/src/main/java/com/optimagrowth/commonlibrary/api/exception/GlobalExceptionHandler.java:350-370 | the handler that runs the grouping loop keyed by property path returns exactly the function's response |
| GlobalExceptionHandler.StatusCodes | common-library/api/src/main/java/com/optimagrowth/commonlibrary/api/exception/GlobalExceptionHandler.java:56-498 | the codes: 401 unauthorized, 403 access denied, 405, 415, 404 no handler, 422 Joran, 400 for the request errors and JSON failures, 500 for internal failures and throwables |
| GlobalExceptionHandler.Categories | common-library/api/src/main/java/com/optimagrowth/commonlibrary/api/exception/GlobalExceptionHandler.java:415-498 | the category is Runtime exactly for JSON processing or patch failures, the internal exceptions, the Exception fallback and a non-abort throwable; it is absent exactly for a client abort |
| GlobalExceptionHandler.ValidationHandlers | common-library/api/src/main/java/com/optimagrowth/commonlibrary/api/exception/GlobalExceptionHandler.java:207-209 | both validation handlers give 400, Generic, translate("exception.method.argument.not.valid") as the title, the un-lower-cased type and the grouped map |
| GlobalExceptionHandler.SupportedMethodsJoined | common-library/api/src/main/java/com/optimagrowth/commonlibrary/api/exception/GlobalExceptionHandler.java:126-136 | the 405 detail is the catalog message for the request method and the supported methods joined with ", " |
| GlobalExceptionHandler.ThrowableFallback | common-library/api/src/main/java/com/optimagrowth/commonlibrary/api/exception/GlobalExceptionHandler.java:433-450 | a client abort yields a bare 500 problem; any other throwable yields the 500 Runtime problem with its message |
| GlobalExceptionHandler.FieldErrorReported | common-library/api/src/main/java/com/optimagrowth/commonlibrary/api/exception/GlobalExceptionHandler.java:190-205 | each binding error's message is in the response under its field (or its object name), at the position its order gives it |
| GlobalExceptionHandler.ViolationReported | common-library/api/src/main/java/com/optimagrowth/commonlibrary/api/exception/GlobalExceptionHandler.java:356-363 | each violation's message is in the response under its property path, in order |
| GlobalExceptionHandler.FieldErrorMapShape | common-library/api/src/main/java/com/optimagrowth/commonlibrary/api/exception/GlobalExceptionHandler.java:190-205 | the map's keys are exactly the errors' names, and it holds as many messages as there are errors |

## Left out

- **Handler dispatch.** Spring chooses the `@ExceptionHandler` by the exception's class hierarchy; here the choice is an explicit `ErrorKind`. By that hierarchy `ClientAbortException` (an `IOException`, so an `Exception`) would normally reach `handleException` and not `handleThrowable`. The model takes the `ClientAbort` branch of `handleThrowable` as written.
- **Framework internals.** `handleExceptionInternal` and `createResponseEntity` are modelled as pairing a status with a body. Headers, the request, and the case where the response is already committed are not modelled.
- **Framework defaults.** The defaults `ProblemDetail` fills in for members the builder leaves unset (the `about:blank` type, the reason-phrase title) are represented as `None`.
- **Status constants.** The builder's entry points take any `HttpStatus`. The model's `HttpStatus` has only the eight constants the handlers pass.
- Strings.Lower: lower-cases ASCII letters only. That is all `toLowerCase` meets in the status names; locale rules are not modelled.
- Utils.ErrorsDetails: the arguments are the `toString` of the message arguments. An argument counts as empty exactly when it is `""`. `null` and empty collections are taken to show as `""`. The `Optional`/`orElse("")` wrapping is not modelled, because it can never produce the fallback.
- Problems.CreateProblemDetail: `URI.create` (ProblemBuilder.java:36) throws `IllegalArgumentException` when the application name and port do not form a valid URI, for example a name holding a space. The model does not validate the configuration and always sets the type.
- Problems.BuildGenericProblemDetailWithFieldErrors: the same `URI.create` failure (ProblemBuilder.java:73) is not modelled; the type is always set.
- GlobalExceptionHandler.Handle: the `NullPointerException`s a handler itself can raise are not modelled. Examples are a null `getSupportedHttpMethods()` (GlobalExceptionHandler.java:127) and a null `getRequiredType()` (GlobalExceptionHandler.java:335). The exception's fields are plain strings and sequences, which cannot be null.
- **Null texts.** Null messages anywhere (a `null` localized message, a `null` default message) are modelled as ordinary strings.
- **Constraint-violation order.** The violations arrive as a `Set` whose iteration order is unspecified. The model takes them as a sequence in that order.
- **Outside the model.** The translator's message bundle and locale resolution, the clock, and the stack-trace printing are parameters or opaque strings, as described above.
- **Files and operations not covered.**
  - The license create/patch/delete service, the JSON Patch engine and the store gateway: their source is not part of this model.
  - `WebConfig.java` is entirely commented out.
  - `ConfigServerApplication.java` is only application bootstrap.
