/**
 * `ProblemBuilder`: the construction of the error payload, a problem-details
 * object in the sense of RFC 7807 (Problem Details for HTTP APIs). Its standard
 * members are `type`, `title`, `status`, `detail` and `instance` (section 3.1);
 * the library adds the extension members `timestamp`, `errorCategory` and, for
 * validation failures, a `detail` property holding the per-field messages
 * (section 3.2).
 */
module Problems {

  import opened Wrappers
  import opened Http
  import Strings
  import Utils

  /** The two values of the `errorCategory` extension member. */
  datatype Category = Generic | Runtime

  /** A clock reading (`Instant.now()`), supplied by the caller. */
  type Instant = int

  /** The builder's configuration: `spring.application.name` and `server.port`. */
  datatype BuilderConfig = BuilderConfig(applicationName: string, serverPort: string)

  /**
   * A `ProblemDetail`. `None` stands for a member the builder never set: then
   * the framework's default applies (`about:blank` for the type, the reason
   * phrase for the title) or the member is absent from the payload.
   */
  datatype Problem = Problem(
    typeUri: Option<string>,
    title: Option<string>,
    status: HttpStatus,
    detail: Option<string>,
    instance: Option<string>,
    timestamp: Option<Instant>,
    errorCategory: Option<Category>,
    fieldErrors: Option<map<string, seq<string>>>)

  /** The catalog key of the title used when the caller gives none. */
  const GenericTitleKey: string := "exception.generic.title"

  /** The format `https://%s:%s/errors/%s` with the application, the port and a status segment. */
  function ErrorUri(cfg: BuilderConfig, segment: string): string
  {
    "https://" + cfg.applicationName + ":" + cfg.serverPort + "/errors/" + segment
  }

  /** `ProblemDetail.forStatus(status)`: a problem with nothing but its status. */
  function ForStatus(status: HttpStatus): (r: Problem)
    ensures r.status == status
    ensures r.typeUri.None? && r.title.None? && r.detail.None? && r.instance.None?
    ensures r.timestamp.None? && r.errorCategory.None? && r.fieldErrors.None?
  {
    Problem(None, None, status, None, None, None, None, None)
  }

  /**
   * `createProblemDetail`: a problem with a free-text detail. Its type ends with
   * the lower-cased status name; status, title and detail are the arguments.
   */
  function CreateProblemDetail(cfg: BuilderConfig, title: string, detail: string, status: HttpStatus,
                               category: Category, now: Instant): (r: Problem)
    ensures r.typeUri == Some("https://" + cfg.applicationName + ":" + cfg.serverPort + "/errors/"
                              + Strings.Lower(status.Name()))
    ensures r.title == Some(title) && r.status == status && r.detail == Some(detail)
    ensures r.errorCategory == Some(category) && r.timestamp == Some(now)
    ensures r.instance.None? && r.fieldErrors.None?
  {
    ForStatus(status).(
      detail := Some(detail),
      typeUri := Some(ErrorUri(cfg, Strings.Lower(status.Name()))),
      title := Some(title),
      timestamp := Some(now),
      errorCategory := Some(category))
  }

  /** `buildProblemDetail`: the generic title; category Generic exactly when `generic` holds. */
  function BuildProblemDetail(cfg: BuilderConfig, tr: Utils.Translate, detail: string, status: HttpStatus,
                              generic: bool, now: Instant): (r: Problem)
    ensures r.errorCategory == Some(Generic) <==> generic
    ensures r.errorCategory == Some(Runtime) <==> !generic
    ensures r.title == Some(tr(GenericTitleKey, []))
    ensures r.status == status && r.detail == Some(detail)
    ensures r.typeUri == Some(ErrorUri(cfg, Strings.Lower(status.Name()))) && r.timestamp == Some(now)
    ensures r.instance.None? && r.fieldErrors.None?
  {
    var title := tr(GenericTitleKey, []);
    var category := if generic then Generic else Runtime;
    CreateProblemDetail(cfg, title, detail, status, category, now)
  }

  /** `buildRuntimeProblemDetail(detail, status)`: category Runtime, the generic title. */
  function BuildRuntimeProblemDetail(cfg: BuilderConfig, tr: Utils.Translate, detail: string,
                                     status: HttpStatus, now: Instant): (r: Problem)
    ensures r.errorCategory == Some(Runtime)
    ensures r.title == Some(tr(GenericTitleKey, []))
    ensures r.status == status && r.detail == Some(detail)
    ensures r.typeUri == Some(ErrorUri(cfg, Strings.Lower(status.Name()))) && r.timestamp == Some(now)
    ensures r.instance.None? && r.fieldErrors.None?
  {
    CreateProblemDetail(cfg, tr(GenericTitleKey, []), detail, status, Runtime, now)
  }

  /** `buildRuntimeProblemDetail(title, detail, status)`: category Runtime, the caller's title. */
  function BuildRuntimeProblemDetailWithTitle(cfg: BuilderConfig, title: string, detail: string,
                                              status: HttpStatus, now: Instant): (r: Problem)
    ensures r.errorCategory == Some(Runtime)
    ensures r.title == Some(title)
    ensures r.status == status && r.detail == Some(detail)
    ensures r.typeUri == Some(ErrorUri(cfg, Strings.Lower(status.Name()))) && r.timestamp == Some(now)
    ensures r.instance.None? && r.fieldErrors.None?
  {
    CreateProblemDetail(cfg, title, detail, status, Runtime, now)
  }

  /** `buildGenericProblemDetail(detail, status)`: category Generic, the generic title. */
  function BuildGenericProblemDetail(cfg: BuilderConfig, tr: Utils.Translate, detail: string,
                                     status: HttpStatus, now: Instant): (r: Problem)
    ensures r.errorCategory == Some(Generic)
    ensures r.title == Some(tr(GenericTitleKey, []))
    ensures r.status == status && r.detail == Some(detail)
    ensures r.typeUri == Some(ErrorUri(cfg, Strings.Lower(status.Name()))) && r.timestamp == Some(now)
    ensures r.instance.None? && r.fieldErrors.None?
  {
    CreateProblemDetail(cfg, tr(GenericTitleKey, []), detail, status, Generic, now)
  }

  /** `buildGenericProblemDetail(title, detail, status)`: category Generic, the caller's title. */
  function BuildGenericProblemDetailWithTitle(cfg: BuilderConfig, title: string, detail: string,
                                              status: HttpStatus, now: Instant): (r: Problem)
    ensures r.errorCategory == Some(Generic)
    ensures r.title == Some(title)
    ensures r.status == status && r.detail == Some(detail)
    ensures r.typeUri == Some(ErrorUri(cfg, Strings.Lower(status.Name()))) && r.timestamp == Some(now)
    ensures r.instance.None? && r.fieldErrors.None?
  {
    CreateProblemDetail(cfg, title, detail, status, Generic, now)
  }

  /**
   * `buildGenericProblemDetail(title, status, errorMessagesMap)`: the map goes under
   * the `detail` property and there is no free-text detail. The type ends with the
   * status name as it is, not lower-cased.
   */
  function BuildGenericProblemDetailWithFieldErrors(cfg: BuilderConfig, title: string, status: HttpStatus,
                                                    errors: map<string, seq<string>>, now: Instant): (r: Problem)
    ensures r.typeUri == Some("https://" + cfg.applicationName + ":" + cfg.serverPort + "/errors/"
                              + status.Name())
    ensures r.title == Some(title) && r.status == status
    ensures r.detail.None? && r.fieldErrors == Some(errors)
    ensures r.errorCategory == Some(Generic) && r.timestamp == Some(now) && r.instance.None?
  {
    ForStatus(status).(
      typeUri := Some(ErrorUri(cfg, status.Name())),
      title := Some(title),
      fieldErrors := Some(errors),
      timestamp := Some(now),
      errorCategory := Some(Generic))
  }

  /** The entry points without a title are the titled ones given the catalog's generic title. */
  lemma UntitledOverloadsUseGenericTitle(cfg: BuilderConfig, tr: Utils.Translate, detail: string,
                                         status: HttpStatus, now: Instant)
    ensures BuildRuntimeProblemDetail(cfg, tr, detail, status, now)
            == BuildRuntimeProblemDetailWithTitle(cfg, tr(GenericTitleKey, []), detail, status, now)
    ensures BuildGenericProblemDetail(cfg, tr, detail, status, now)
            == BuildGenericProblemDetailWithTitle(cfg, tr(GenericTitleKey, []), detail, status, now)
  {
  }

  /** `buildProblemDetail` is the untitled Generic builder when `generic` holds, the Runtime one otherwise. */
  lemma BuildProblemDetailSelects(cfg: BuilderConfig, tr: Utils.Translate, detail: string,
                                  status: HttpStatus, generic: bool, now: Instant)
    ensures BuildProblemDetail(cfg, tr, detail, status, generic, now)
            == if generic then BuildGenericProblemDetail(cfg, tr, detail, status, now)
               else BuildRuntimeProblemDetail(cfg, tr, detail, status, now)
  {
  }

  lemma PrefixCancels(p: string, a: string, b: string)
    requires p + a == p + b
    ensures a == b
  {
    assert a == (p + a)[|p|..];
    assert b == (p + b)[|p|..];
  }

  /**
   * The type of a free-text problem identifies its status: two problems built
   * with the same configuration and the same type have the same status.
   */
  lemma TypeUriIdentifiesStatus(cfg: BuilderConfig, s: HttpStatus, t: HttpStatus)
    requires ErrorUri(cfg, Strings.Lower(s.Name())) == ErrorUri(cfg, Strings.Lower(t.Name()))
    ensures s == t
  {
    var p := "https://" + cfg.applicationName + ":" + cfg.serverPort + "/errors/";
    PrefixCancels(p, Strings.Lower(s.Name()), Strings.Lower(t.Name()));
    NameIsUpperCase(s);
    NameIsUpperCase(t);
    Strings.LowerInjective(s.Name(), t.Name());
    NameAndCodeIdentify(s, t);
  }

  /**
   * The field-map payload and a free-text payload for the same status never
   * share a type: status names are upper case, and only the free-text variant
   * lower-cases them.
   */
  lemma FieldMapTypeDiffers(cfg: BuilderConfig, title: string, detail: string,
                            status: HttpStatus, category: Category, errors: map<string, seq<string>>,
                            now: Instant)
    ensures BuildGenericProblemDetailWithFieldErrors(cfg, title, status, errors, now).typeUri
            != CreateProblemDetail(cfg, title, detail, status, category, now).typeUri
    ensures BuildGenericProblemDetailWithFieldErrors(cfg, title, status, errors, now).typeUri
            != BuildGenericProblemDetailWithTitle(cfg, title, detail, status, now).typeUri
    ensures BuildGenericProblemDetailWithFieldErrors(cfg, title, status, errors, now).typeUri
            != BuildRuntimeProblemDetailWithTitle(cfg, title, detail, status, now).typeUri
  {
    var p := "https://" + cfg.applicationName + ":" + cfg.serverPort + "/errors/";
    NameIsUpperCase(status);
    Strings.LowerChanges(status.Name(), 0);
    if p + status.Name() == p + Strings.Lower(status.Name()) {
      PrefixCancels(p, status.Name(), Strings.Lower(status.Name()));
    }
  }
}
