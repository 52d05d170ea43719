/**
 * ContentCreateViewBuilder: for the create-without-draft screen it resolves the
 * language, the parent location and the content type from the request parameters,
 * then either short-circuits to a success view (when the submitted form's action
 * produced a response) or assembles a populated create view.
 *
 * The repository services are abstract, possibly failing functions. The repository
 * reads, the action dispatch and getResponse, and the injector and configurator calls
 * are recorded, in order, in a trace; the form's isValid, getClickedButton and getData
 * are fields of the form value, and createView gives the form's view value.
 */
module CreateViewBuilder {
  import opened Common
  import opened Domain
  import opened PhpValue
  import PhpArray

  /** The controller the builder answers to. */
  const CREATE_CONTROLLER := "ez_content_edit:createWithoutDraftAction"

  const MISSING_LANGUAGE := InvalidArgument("Language",
    "No language information provided. Are you missing language or languageCode parameters")
  const MISSING_CONTENT_TYPE := InvalidArgument("ContentType", "No content type could be loaded from parameters")
  const MISSING_PARENT_LOCATION := InvalidArgument("ParentLocation", "Unable to load parent location from parameters")

  /** The accepted parameter keys of each part of the context, highest precedence first. */
  const LANGUAGE_KEYS: seq<string> := ["languageCode", "language"]
  const LOCATION_KEYS: seq<string> := ["parentLocation", "parentLocationId"]
  const CONTENT_TYPE_KEYS: seq<string> := ["contentType", "contentTypeIdentifier"]

  /** The three repository reads the builder may make. */
  datatype Repository = Repository(
    loadLanguage: string -> RepoResult<Language>,
    loadLocation: PhpInt -> RepoResult<Location>,
    loadContentTypeByIdentifier: (string, seq<string>) -> RepoResult<ContentType>)

  /** The arguments of ActionDispatcher::dispatchFormAction. */
  datatype DispatchRequest = DispatchRequest(form: Form, data: FormData, actionName: string, options: Parameters)

  /** A call the builder makes on a collaborator. */
  datatype Call =
    | LoadLanguage(languageCode: string)
    | LoadLocation(locationId: PhpInt)
    | LoadContentTypeByIdentifier(identifier: string, prioritizedLanguages: seq<string>)
    | DispatchFormAction(request: DispatchRequest)
    | GetResponse
    | InjectViewParameters(view: ContentCreateView, parameters: Parameters)
    | ConfigureView(configured: ContentCreateView)
  {
    predicate IsRepositoryRead() {
      LoadLanguage? || LoadLocation? || LoadContentTypeByIdentifier?
    }
  }

  /** A resolver's answer together with the repository calls it made. */
  datatype Resolved<+T> = Resolved(result: Result<T>, calls: seq<Call>)

  /** The resolved context of a create request. */
  datatype Context = Context(language: Language, location: Location, contentType: ContentType)

  /** The index of the first key of `keys` that is set in `p`; `|keys|` when none is. */
  function FirstSetKey(p: Parameters, keys: seq<string>): (r: nat)
    ensures r <= |keys|
    ensures forall j :: 0 <= j < r ==> !IsSet(p, keys[j])
    ensures r < |keys| ==> IsSet(p, keys[r])
  {
    if keys == [] then 0
    else if IsSet(p, keys[0]) then 0
    else 1 + FirstSetKey(p, keys[1..])
  }

  // ---- the three resolvers ---------------------------------------------------

  function LoadLanguageBy(repo: Repository, code: string): (r: Resolved<Language>)
    ensures r.result == FromRepo(repo.loadLanguage(code)) && r.calls == [LoadLanguage(code)]
  {
    Resolved(FromRepo(repo.loadLanguage(code)), [LoadLanguage(code)])
  }

  /**
   * resolveLanguage: a set `languageCode` is loaded by code; otherwise a set `language`
   * is loaded by code when it is a string and returned as it is when it is a Language.
   * Under strict types a non-string code or a non-Language object is a TypeError.
   */
  function ResolveLanguage(repo: Repository, p: Parameters): (r: Resolved<Language>)
    ensures r.result == Failure(MISSING_LANGUAGE) <==> FirstSetKey(p, LANGUAGE_KEYS) == |LANGUAGE_KEYS|
    ensures r.calls == [] || (|r.calls| == 1 && r.calls[0].LoadLanguage?)
    ensures r.result.Success? && r.calls == [] ==>
      !IsSet(p, "languageCode") && "language" in p && p["language"] == LangObj(r.result.value)
    ensures r.calls != [] ==> r.result == FromRepo(repo.loadLanguage(r.calls[0].languageCode))
    // a string under the first set key is the code loaded, and the load's answer is the result
    ensures var k := FirstSetKey(p, LANGUAGE_KEYS);
      k < |LANGUAGE_KEYS| && p[LANGUAGE_KEYS[k]].Str? ==>
        var code := p[LANGUAGE_KEYS[k]].s;
        r == Resolved(FromRepo(repo.loadLanguage(code)), [LoadLanguage(code)])
    // a Language object under `language` is returned as it is, without a read
    ensures FirstSetKey(p, LANGUAGE_KEYS) == 1 && p["language"].LangObj? ==>
      r == Resolved(Success(p["language"].language), [])
    // strict types: a non-string code, or a `language` that is neither a code nor a Language
    ensures FirstSetKey(p, LANGUAGE_KEYS) == 0 && !p["languageCode"].Str? ==>
      r == Resolved(Failure(TypeError("string")), [])
    ensures FirstSetKey(p, LANGUAGE_KEYS) == 1 && !p["language"].Str? && !p["language"].LangObj? ==>
      r == Resolved(Failure(TypeError("Language")), [])
  {
    if IsSet(p, "languageCode") then
      match p["languageCode"]
      case Str(code) => LoadLanguageBy(repo, code)
      case _ => Resolved(Failure(TypeError("string")), [])
    else if IsSet(p, "language") then
      match p["language"]
      case Str(code) => LoadLanguageBy(repo, code)
      case LangObj(language) => Resolved(Success(language), [])
      case _ => Resolved(Failure(TypeError("Language")), [])
    else
      Resolved(Failure(MISSING_LANGUAGE), [])
  }

  /**
   * resolveLocation: a set `parentLocation` is returned as it is; otherwise a set
   * `parentLocationId` is cast with `(int)` and loaded.
   */
  function ResolveLocation(repo: Repository, p: Parameters): (r: Resolved<Location>)
    ensures r.result == Failure(MISSING_PARENT_LOCATION) <==> FirstSetKey(p, LOCATION_KEYS) == |LOCATION_KEYS|
    ensures r.calls == [] || (|r.calls| == 1 && r.calls[0].LoadLocation?)
    ensures r.calls != [] <==> !IsSet(p, "parentLocation") && IsSet(p, "parentLocationId")
    ensures r.calls != [] ==>
      && r.calls[0].locationId == ToInt(p["parentLocationId"])
      && r.result == FromRepo(repo.loadLocation(r.calls[0].locationId))
    ensures r.result.Success? && r.calls == [] ==> p["parentLocation"] == LocObj(r.result.value)
    // a set Location object is returned as it is; any other set `parentLocation` is a TypeError
    ensures FirstSetKey(p, LOCATION_KEYS) == 0 && p["parentLocation"].LocObj? ==>
      r == Resolved(Success(p["parentLocation"].location), [])
    ensures FirstSetKey(p, LOCATION_KEYS) == 0 && !p["parentLocation"].LocObj? ==>
      r == Resolved(Failure(TypeError("Location")), [])
  {
    if IsSet(p, "parentLocation") then
      match p["parentLocation"]
      case LocObj(location) => Resolved(Success(location), [])
      case _ => Resolved(Failure(TypeError("Location")), [])
    else if IsSet(p, "parentLocationId") then
      var id := ToInt(p["parentLocationId"]);
      Resolved(FromRepo(repo.loadLocation(id)), [LoadLocation(id)])
    else
      Resolved(Failure(MISSING_PARENT_LOCATION), [])
  }

  /**
   * resolveContentType: a set `contentType` is returned as it is; otherwise a set
   * `contentTypeIdentifier` is loaded, prioritizing the already resolved language.
   */
  function ResolveContentType(repo: Repository, p: Parameters, language: Language): (r: Resolved<ContentType>)
    ensures r.result == Failure(MISSING_CONTENT_TYPE) <==> FirstSetKey(p, CONTENT_TYPE_KEYS) == |CONTENT_TYPE_KEYS|
    ensures r.calls == [] || (|r.calls| == 1 && r.calls[0].LoadContentTypeByIdentifier?)
    ensures r.calls != [] ==>
      && !IsSet(p, "contentType")
      && "contentTypeIdentifier" in p && p["contentTypeIdentifier"] == Str(r.calls[0].identifier)
      && r.calls[0].prioritizedLanguages == [language.languageCode]
      && r.result == FromRepo(repo.loadContentTypeByIdentifier(r.calls[0].identifier, [language.languageCode]))
    ensures r.result.Success? && r.calls == [] ==> "contentType" in p && p["contentType"] == CTObj(r.result.value)
    // a set ContentType object is returned as it is; any other set `contentType` is a TypeError
    ensures FirstSetKey(p, CONTENT_TYPE_KEYS) == 0 && p["contentType"].CTObj? ==>
      r == Resolved(Success(p["contentType"].contentType), [])
    ensures FirstSetKey(p, CONTENT_TYPE_KEYS) == 0 && !p["contentType"].CTObj? ==>
      r == Resolved(Failure(TypeError("ContentType")), [])
    // a string identifier is the one loaded, with the resolved language prioritized
    ensures FirstSetKey(p, CONTENT_TYPE_KEYS) == 1 && p["contentTypeIdentifier"].Str? ==>
      var id := p["contentTypeIdentifier"].s;
      r == Resolved(FromRepo(repo.loadContentTypeByIdentifier(id, [language.languageCode])),
                    [LoadContentTypeByIdentifier(id, [language.languageCode])])
    // strict types: an identifier that is not a string is a TypeError, and nothing is loaded
    ensures FirstSetKey(p, CONTENT_TYPE_KEYS) == 1 && !p["contentTypeIdentifier"].Str? ==>
      r == Resolved(Failure(TypeError("string")), [])
  {
    if IsSet(p, "contentType") then
      match p["contentType"]
      case CTObj(contentType) => Resolved(Success(contentType), [])
      case _ => Resolved(Failure(TypeError("ContentType")), [])
    else if IsSet(p, "contentTypeIdentifier") then
      match p["contentTypeIdentifier"]
      case Str(identifier) =>
        var languages := [language.languageCode];
        Resolved(FromRepo(repo.loadContentTypeByIdentifier(identifier, languages)),
                 [LoadContentTypeByIdentifier(identifier, languages)])
      case _ => Resolved(Failure(TypeError("string")), [])
    else
      Resolved(Failure(MISSING_CONTENT_TYPE), [])
  }

  /**
   * The three resolutions in the order buildView runs them: language, then location,
   * then content type; the first exception stops the rest.
   */
  function ResolveContext(repo: Repository, p: Parameters): (r: Resolved<Context>)
    ensures forall i :: 0 <= i < |r.calls| ==> r.calls[i].IsRepositoryRead()
    ensures var language := ResolveLanguage(repo, p);
      language.result.Failure? ==> r == Resolved(Failure(language.result.error), language.calls)
    ensures var language, location := ResolveLanguage(repo, p), ResolveLocation(repo, p);
      language.result.Success? && location.result.Failure? ==>
        r == Resolved(Failure(location.result.error), language.calls + location.calls)
    ensures var language, location := ResolveLanguage(repo, p), ResolveLocation(repo, p);
      language.result.Success? && location.result.Success? ==>
        var contentType := ResolveContentType(repo, p, language.result.value);
        && r.calls == language.calls + location.calls + contentType.calls
        && (contentType.result.Failure? ==> r.result == Failure(contentType.result.error))
        && (contentType.result.Success? ==> r.result == Success(
              Context(language.result.value, location.result.value, contentType.result.value)))
  {
    var language := ResolveLanguage(repo, p);
    match language.result
    case Failure(e) => Resolved(Failure(e), language.calls)
    case Success(lang) =>
      var location := ResolveLocation(repo, p);
      match location.result
      case Failure(e) => Resolved(Failure(e), language.calls + location.calls)
      case Success(loc) =>
        var contentType := ResolveContentType(repo, p, lang);
        var calls := language.calls + location.calls + contentType.calls;
        match contentType.result
        case Failure(e) => Resolved(Failure(e), calls)
        case Success(ct) => Resolved(Success(Context(lang, loc, ct)), calls)
  }

  // ---- properties of the resolution ---------------------------------------

  /**
   * Each resolver looks only at the first of its keys that is set: two bags that agree
   * on which key that is and on its value resolve alike, whatever else they hold.
   */
  lemma ResolutionDependsOnFirstSetKey(repo: Repository, p: Parameters, q: Parameters, language: Language)
    ensures var k := FirstSetKey(p, LANGUAGE_KEYS);
      k == FirstSetKey(q, LANGUAGE_KEYS) && (k < |LANGUAGE_KEYS| ==> p[LANGUAGE_KEYS[k]] == q[LANGUAGE_KEYS[k]]) ==>
        ResolveLanguage(repo, p) == ResolveLanguage(repo, q)
    ensures var k := FirstSetKey(p, LOCATION_KEYS);
      k == FirstSetKey(q, LOCATION_KEYS) && (k < |LOCATION_KEYS| ==> p[LOCATION_KEYS[k]] == q[LOCATION_KEYS[k]]) ==>
        ResolveLocation(repo, p) == ResolveLocation(repo, q)
    ensures var k := FirstSetKey(p, CONTENT_TYPE_KEYS);
      k == FirstSetKey(q, CONTENT_TYPE_KEYS)
      && (k < |CONTENT_TYPE_KEYS| ==> p[CONTENT_TYPE_KEYS[k]] == q[CONTENT_TYPE_KEYS[k]]) ==>
        ResolveContentType(repo, p, language) == ResolveContentType(repo, q, language)
  {
  }

  /** A set `languageCode` wins over `language`: the language is the one loaded by that code. */
  lemma LanguageCodeTakesPrecedence(repo: Repository, p: Parameters, code: string)
    requires "languageCode" in p && p["languageCode"] == Str(code)
    ensures ResolveLanguage(repo, p) == Resolved(FromRepo(repo.loadLanguage(code)), [LoadLanguage(code)])
    ensures ResolveLanguage(repo, p) == ResolveLanguage(repo, p - {"language"})
  {
  }

  /**
   * A `language` given as a code and the Language object that code loads resolve to the
   * same Language; only the first costs a repository read.
   */
  lemma LanguageCodeAndObjectAgree(repo: Repository, p: Parameters, code: string, language: Language)
    requires !IsSet(p, "languageCode")
    requires repo.loadLanguage(code) == Loaded(language)
    ensures ResolveLanguage(repo, p["language" := Str(code)]) == Resolved(Success(language), [LoadLanguage(code)])
    ensures ResolveLanguage(repo, p["language" := LangObj(language)]) == Resolved(Success(language), [])
  {
  }

  /** A location id given as its decimal string loads the same location as the integer itself. */
  lemma LocationIdAsDecimalString(repo: Repository, p: Parameters, id: PhpInt)
    requires !IsSet(p, "parentLocation")
    ensures ResolveLocation(repo, p["parentLocationId" := Str(DecimalString(id))])
         == ResolveLocation(repo, p["parentLocationId" := IntV(id)])
    ensures ResolveLocation(repo, p["parentLocationId" := IntV(id)]) == Resolved(FromRepo(repo.loadLocation(id)), [LoadLocation(id)])
  {
    IntCastOfDecimalString(id);
  }

  /**
   * When keys are missing, the error names the first missing part in the order language,
   * parent location, content type; nothing is loaded for the parts after a failure.
   */
  lemma FirstFailureIsReported(repo: Repository, p: Parameters)
    ensures FirstSetKey(p, LANGUAGE_KEYS) == |LANGUAGE_KEYS| ==>
      ResolveContext(repo, p) == Resolved(Failure(MISSING_LANGUAGE), [])
    ensures ResolveLanguage(repo, p).result.Failure? ==>
      forall i :: 0 <= i < |ResolveContext(repo, p).calls| ==> ResolveContext(repo, p).calls[i].LoadLanguage?
    ensures ResolveLanguage(repo, p).result.Success? && FirstSetKey(p, LOCATION_KEYS) == |LOCATION_KEYS| ==>
      ResolveContext(repo, p) == Resolved(Failure(MISSING_PARENT_LOCATION), ResolveLanguage(repo, p).calls)
    ensures (ResolveLanguage(repo, p).result.Success? && ResolveLocation(repo, p).result.Success?
             && FirstSetKey(p, CONTENT_TYPE_KEYS) == |CONTENT_TYPE_KEYS|) ==>
      ResolveContext(repo, p).result == Failure(MISSING_CONTENT_TYPE)
  {
  }

  /**
   * `isset` ignores an entry holding null: for every resolver, a key bound to null
   * resolves exactly as if the key were absent.
   */
  lemma NullCountsAsMissing(repo: Repository, p: Parameters, key: string, language: Language)
    ensures ResolveLanguage(repo, p[key := Null]) == ResolveLanguage(repo, p - {key})
    ensures ResolveLocation(repo, p[key := Null]) == ResolveLocation(repo, p - {key})
    ensures ResolveContentType(repo, p[key := Null], language) == ResolveContentType(repo, p - {key}, language)
  {
    ResolutionDependsOnFirstSetKey(repo, p[key := Null], p - {key}, language);
    assert forall k :: IsSet(p[key := Null], k) <==> IsSet(p - {key}, k);
  }

  // ---- view assembly ---------------------------------------------------------

  /** `$parameters['form']`, when it holds a form object. */
  function FormOf(p: Parameters): (r: Option<Form>)
    ensures r.Some? <==> "form" in p && p["form"].FormObj?
    ensures r.Some? ==> p["form"] == FormObj(r.value)
  {
    if "form" in p && p["form"].FormObj? then Some(p["form"].form) else None
  }

  /** The form's action is dispatched only when it is valid and a button was clicked. */
  function Dispatches(form: Form): (r: bool)
    ensures r <==> form.valid && form.clickedButton != None
  {
    form.valid && form.clickedButton.Some?
  }

  function DispatchRequestFor(form: Form, location: Location): (r: DispatchRequest)
    requires Dispatches(form)
    ensures r.form == form && r.data == form.data && r.actionName == form.clickedButton.value
    ensures r.options == map["referrerLocation" := LocObj(location)]
  {
    DispatchRequest(form, form.data, form.clickedButton.value, map["referrerLocation" := LocObj(location)])
  }

  /** The parameters addParameters receives, in this order. */
  function ViewParameters(context: Context, form: Form): (r: PhpArray.Entries<Value>)
    ensures PhpArray.DistinctKeys(r)
  {
    [("contentType", CTObj(context.contentType)),
     ("language", LangObj(context.language)),
     ("parentLocation", LocObj(context.location)),
     ("form", FormViewObj(form))]
  }

  /** ContentCreateView: the view object buildView fills in step by step. */
  class ContentCreateView {
    var templateIdentifier: string
    var contentType: Option<ContentType>
    var language: Option<Language>
    var location: Option<Location>
    var form: Option<Form>
    var parameters: PhpArray.Entries<Value>

    constructor (templateIdentifier: string)
      ensures this.templateIdentifier == templateIdentifier
      ensures contentType == None && language == None && location == None && form == None
      ensures parameters == []
    {
      this.templateIdentifier := templateIdentifier;
      contentType, language, location, form := None, None, None, None;
      parameters := [];
    }

    method SetContentType(contentType: ContentType)
      modifies this`contentType
      ensures this.contentType == Some(contentType)
    {
      this.contentType := Some(contentType);
    }

    method SetLanguage(language: Language)
      modifies this`language
      ensures this.language == Some(language)
    {
      this.language := Some(language);
    }

    method SetLocation(location: Location)
      modifies this`location
      ensures this.location == Some(location)
    {
      this.location := Some(location);
    }

    method SetForm(form: Form)
      modifies this`form
      ensures this.form == Some(form)
    {
      this.form := Some(form);
    }

    /** addParameters merges with `array_replace`. */
    method AddParameters(extra: PhpArray.Entries<Value>)
      modifies this`parameters
      ensures parameters == PhpArray.Replace(old(parameters), extra)
    {
      parameters := PhpArray.Replace(parameters, extra);
    }
  }

  /** What buildView returns: a success view wrapping a response, or the populated create view. */
  datatype ViewResult = SuccessView(response: Response) | CreateView(view: ContentCreateView)

  class ContentCreateViewBuilder {
    const repository: Repository
    const defaultTemplate: string
    /** The action dispatcher: what getResponse() yields after dispatchFormAction with the given arguments. */
    const dispatcher: DispatchRequest -> Option<Response>

    constructor (repository: Repository, defaultTemplate: string, dispatcher: DispatchRequest -> Option<Response>)
      ensures this.repository == repository && this.defaultTemplate == defaultTemplate
      ensures this.dispatcher == dispatcher
    {
      this.repository := repository;
      this.defaultTemplate := defaultTemplate;
      this.dispatcher := dispatcher;
    }

    /** The builder handles exactly the create-without-draft controller (compared with `===`). */
    function Matches(argument: Value): (r: bool)
      ensures r <==> argument.Str? && argument.s == CREATE_CONTROLLER
    {
      argument == Str(CREATE_CONTROLLER)
    }

    /**
     * The create view's setters and addParameters: the resolved context, the form and the
     * four template parameters.
     */
    method PopulateView(view: ContentCreateView, context: Context, form: Form)
      requires view.parameters == []
      modifies view
      ensures view.templateIdentifier == old(view.templateIdentifier)
      ensures view.contentType == Some(context.contentType)
      ensures view.language == Some(context.language)
      ensures view.location == Some(context.location)
      ensures view.form == Some(form)
      ensures view.parameters == ViewParameters(context, form)
    {
      view.SetContentType(context.contentType);
      view.SetLanguage(context.language);
      view.SetLocation(context.location);
      view.SetForm(form);
      var ps := ViewParameters(context, form);
      assert view.parameters == [];  // the setters leave the parameters as they were
      PhpArray.ReplaceIntoEmpty(ps);
      view.AddParameters(ps);
    }

    method BuildView(parameters: Parameters) returns (outcome: Result<ViewResult>, trace: seq<Call>)
      // resolution errors propagate, after exactly the repository calls made so far
      ensures var resolved := ResolveContext(repository, parameters);
        resolved.result.Failure? ==> outcome == Failure(resolved.result.error) && trace == resolved.calls
      // `$form->isValid()` on something that is not a form
      ensures var resolved := ResolveContext(repository, parameters);
        resolved.result.Success? && FormOf(parameters).None? ==>
          outcome == Failure(MethodCallFailed("isValid")) && trace == resolved.calls
      // otherwise: a success view exactly when the dispatched action produced a response
      ensures var resolved, form := ResolveContext(repository, parameters), FormOf(parameters);
        resolved.result.Success? && form.Some? ==>
          var request := if Dispatches(form.value) then
              [DispatchFormAction(DispatchRequestFor(form.value, resolved.result.value.location)), GetResponse]
            else [];
          var response := if Dispatches(form.value)
            then dispatcher(DispatchRequestFor(form.value, resolved.result.value.location)) else None;
          && outcome.Success?
          && (response.Some? ==> outcome.value == SuccessView(response.value) && trace == resolved.calls + request)
          && (response.None? ==>
                && outcome.value.CreateView?
                && trace == resolved.calls + request
                            + [InjectViewParameters(outcome.value.view, parameters), ConfigureView(outcome.value.view)])
      // the create view carries the resolved context, the form and the four parameters, in order
      ensures outcome.Success? && outcome.value.CreateView? ==>
        var view := outcome.value.view;
        var context := ResolveContext(repository, parameters).result.value;
        && ResolveContext(repository, parameters).result.Success? && FormOf(parameters).Some?
        && fresh(view)
        && view.templateIdentifier == defaultTemplate
        && view.contentType == Some(context.contentType)
        && view.language == Some(context.language)
        && view.location == Some(context.location)
        && view.form == FormOf(parameters)
        && view.parameters == ViewParameters(context, FormOf(parameters).value)
      // a dispatch happens only for a valid form with a clicked button, with the button's name
      // and the resolved location as referrer
      ensures forall i :: 0 <= i < |trace| && trace[i].DispatchFormAction? ==>
        && ResolveContext(repository, parameters).result.Success? && FormOf(parameters).Some?
        && Dispatches(FormOf(parameters).value)
        && trace[i].request == DispatchRequestFor(FormOf(parameters).value,
                                                  ResolveContext(repository, parameters).result.value.location)
      // on the short-circuit path neither the injector nor the configurator is called
      ensures outcome.Success? && outcome.value.SuccessView? ==>
        forall i :: 0 <= i < |trace| ==> !trace[i].InjectViewParameters? && !trace[i].ConfigureView?
    {
      var view := new ContentCreateView(defaultTemplate);
      var resolved := ResolveContext(repository, parameters);
      trace := resolved.calls;
      if resolved.result.Failure? {
        return Failure(resolved.result.error), trace;
      }
      var context := resolved.result.value;
      var formValue := FormOf(parameters);
      if formValue.None? {
        return Failure(MethodCallFailed("isValid")), trace;
      }
      var form := formValue.value;

      if Dispatches(form) {
        var request := DispatchRequestFor(form, context.location);
        trace := trace + [DispatchFormAction(request), GetResponse];
        var response := dispatcher(request);
        if response.Some? {
          return Success(SuccessView(response.value)), trace;
        }
      }

      PopulateView(view, context, form);
      trace := trace + [InjectViewParameters(view, parameters), ConfigureView(view)];
      outcome := Success(CreateView(view));
    }
  }
}
