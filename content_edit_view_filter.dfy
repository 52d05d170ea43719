/**
 * ContentEditViewFilter: before the view of the edit-draft screen is built, it loads the
 * draft and its content type, builds the content edit form for them, applies the request
 * to it and puts the form into the view builder's parameter bag under `form`.
 *
 * The content and content type services, the update mapper, the form factory and the
 * form's request handling are abstract functions; the calls made on them are recorded.
 */
module EditViewFilter {
  import opened Common
  import opened Domain
  import opened PhpValue

  /** The only controller the filter acts for. */
  const EDIT_CONTROLLER := "ez_content_edit:editVersionDraftAction"

  /**
   * ViewEvents::FILTER_BUILDER_PARAMETERS, the event dispatched before view parameters are
   * final. The class defining it is outside this model, so the literal is assumed.
   */
  const FILTER_BUILDER_PARAMETERS := "ezpublish.view.builder_parameter_filter"

  /** The form type the edit form is created with (ContentEditType::class). */
  const CONTENT_EDIT_TYPE := "EzSystems\\RepositoryForms\\Form\\Type\\Content\\ContentEditType"

  /** Symfony's `ParameterBag::get($key)`: the value under the key, or null when it is missing. */
  function ParameterValue(p: Parameters, key: string): (v: Value)
    ensures key in p ==> v == p[key]
    ensures key !in p ==> v == Null
  {
    if key in p then p[key] else Null
  }

  /** A Symfony ParameterBag: a bag the event's listeners change in place. */
  class ParameterBag {
    var entries: Parameters

    constructor (entries: Parameters)
      ensures this.entries == entries
    {
      this.entries := entries;
    }

    /** `get($key)` on this bag. */
    function Get(key: string): (v: Value)
      reads this
      ensures v == ParameterValue(entries, key)
    {
      ParameterValue(entries, key)
    }

    /** `add($parameters)`: the given entries replace or join the existing ones. */
    method Add(extra: Parameters)
      modifies this
      ensures entries == old(entries) + extra
    {
      entries := entries + extra;
    }
  }

  /** The request, reduced to its attributes (the route parameters). */
  datatype Request = Request(attributes: Parameters)

  /** `$request->attributes->get($key)`. */
  function Attribute(request: Request, key: string): (v: Value)
    ensures v == ParameterValue(request.attributes, key)
  {
    ParameterValue(request.attributes, key)
  }

  /** FilterViewBuilderParametersEvent: the parameter bag being filtered and the current request. */
  class FilterViewBuilderParametersEvent {
    const parameters: ParameterBag
    const request: Request

    constructor (parameters: ParameterBag, request: Request)
      ensures this.parameters == parameters && this.request == request
    {
      this.parameters := parameters;
      this.request := request;
    }
  }

  /** A call the filter makes on a collaborator. */
  datatype EditCall =
    | LoadContent(contentId: Value, languages: seq<Value>, versionNo: Value)
    | LoadContentType(contentTypeId: int)
    | MapToFormData(content: Content, params: Parameters)
    | CreateForm(formType: string, data: FormData, options: Parameters)
    | HandleRequest(form: Form, request: Request)

  /** The edit form, or the exception met on the way, with the calls made. */
  datatype Building = Building(result: Result<Form>, calls: seq<EditCall>)

  /** getSubscribedEvents: one event, handled by handleContentEditForm. */
  function SubscribedEvents(): (r: map<string, string>)
    ensures r.Keys == {FILTER_BUILDER_PARAMETERS}
    ensures r[FILTER_BUILDER_PARAMETERS] == "handleContentEditForm"
  {
    map[FILTER_BUILDER_PARAMETERS := "handleContentEditForm"]
  }

  /** The parameters resolveContentEditData hands to the update mapper. */
  function ContentEditDataParameters(languageCode: string, contentType: ContentType): (r: Parameters)
    ensures r.Keys == {"languageCode", "contentType"}
    ensures r["languageCode"] == Str(languageCode) && r["contentType"] == CTObj(contentType)
  {
    map["languageCode" := Str(languageCode), "contentType" := CTObj(contentType)]
  }

  /** The options resolveContentEditForm gives the form factory. */
  function ContentEditFormOptions(languageCode: string, content: Content): (r: Parameters)
    ensures r.Keys == {"languageCode", "mainLanguageCode", "drafts_enabled"}
    ensures r["languageCode"] == Str(languageCode)
    ensures r["mainLanguageCode"] == Str(content.contentInfo.mainLanguageCode)
    ensures r["drafts_enabled"] == BoolV(true)
  {
    map["languageCode" := Str(languageCode),
        "mainLanguageCode" := Str(content.contentInfo.mainLanguageCode),
        "drafts_enabled" := BoolV(true)]
  }

  /** The handler's guard: the `_controller` parameter is exactly the edit controller (`!==`). */
  function ActsOn(controller: Value): (r: bool)
    ensures r <==> controller.Str? && controller.s == EDIT_CONTROLLER
  {
    controller == Str(EDIT_CONTROLLER)
  }

  class ContentEditViewFilter {
    /** ContentService::loadContent(contentId, languages, versionNo). */
    const loadContent: (Value, seq<Value>, Value) -> RepoResult<Content>
    /** ContentTypeService::loadContentType(contentTypeId). */
    const loadContentType: int -> RepoResult<ContentType>
    /** ContentUpdateMapper::mapToFormData(content, params). */
    const mapToFormData: (Content, Parameters) -> FormData
    /** FormFactoryInterface::create(type, data, options); it may throw InvalidOptionsException. */
    const createForm: (string, FormData, Parameters) -> Result<Form>
    /** FormInterface::handleRequest(request), which returns the form itself. */
    const handleRequest: (Form, Request) -> Form

    constructor (loadContent: (Value, seq<Value>, Value) -> RepoResult<Content>,
                 loadContentType: int -> RepoResult<ContentType>,
                 mapToFormData: (Content, Parameters) -> FormData,
                 createForm: (string, FormData, Parameters) -> Result<Form>,
                 handleRequest: (Form, Request) -> Form)
      ensures this.loadContent == loadContent && this.loadContentType == loadContentType
      ensures this.mapToFormData == mapToFormData && this.createForm == createForm
      ensures this.handleRequest == handleRequest
    {
      this.loadContent := loadContent;
      this.loadContentType := loadContentType;
      this.mapToFormData := mapToFormData;
      this.createForm := createForm;
      this.handleRequest := handleRequest;
    }

    /** The draft the handler loads: the request's contentId and versionNo, with `[language]` as languages. */
    function DraftCall(request: Request): (c: EditCall)
      ensures c.LoadContent? && c.contentId == Attribute(request, "contentId")
      ensures c.languages == [Attribute(request, "language")] && c.versionNo == Attribute(request, "versionNo")
    {
      LoadContent(Attribute(request, "contentId"), [Attribute(request, "language")], Attribute(request, "versionNo"))
    }

    /**
     * The form the handler adds: load the draft, then its content type,
     * map the draft to update data, create the form (which, under strict types, needs the
     * language to be a string, and whose options the factory may reject) and apply the
     * request to it.
     */
    function EditForm(request: Request): (r: Building)
      ensures |r.calls| >= 1 && r.calls[0] == DraftCall(request)
      ensures var c := DraftCall(request); var draft := loadContent(c.contentId, c.languages, c.versionNo);
        && (draft.Failed? ==> r == Building(Failure(Repository(draft.cause)), [c]))
        && (draft.Loaded? ==>
              var typeId := draft.value.contentInfo.contentTypeId;
              var contentType := loadContentType(typeId);
              && |r.calls| >= 2 && r.calls[1] == LoadContentType(typeId)
              && (contentType.Failed? ==> r == Building(Failure(Repository(contentType.cause)), r.calls[..2]))
              && (contentType.Loaded? && !Attribute(request, "language").Str? ==>
                    r == Building(Failure(TypeError("string")), r.calls[..2]))
              && (contentType.Loaded? && Attribute(request, "language").Str? ==>
                    var code := Attribute(request, "language").s;
                    var dataParams := ContentEditDataParameters(code, contentType.value);
                    var data := mapToFormData(draft.value, dataParams);
                    var options := ContentEditFormOptions(code, draft.value);
                    var created := createForm(CONTENT_EDIT_TYPE, data, options);
                    var upToCreate := [c, LoadContentType(typeId), MapToFormData(draft.value, dataParams),
                                       CreateForm(CONTENT_EDIT_TYPE, data, options)];
                    && (created.Failure? ==> r == Building(Failure(created.error), upToCreate))
                    && (created.Success? ==>
                          r == Building(Success(handleRequest(created.value, request)),
                                        upToCreate + [HandleRequest(created.value, request)]))))
    {
      var load := DraftCall(request);
      match loadContent(load.contentId, load.languages, load.versionNo)
      case Failed(e) => Building(Failure(Repository(e)), [load])
      case Loaded(draft) =>
        var typeId := draft.contentInfo.contentTypeId;
        var loads := [load, LoadContentType(typeId)];
        match loadContentType(typeId)
        case Failed(e) => Building(Failure(Repository(e)), loads)
        case Loaded(contentType) =>
          match Attribute(request, "language")
          case Str(code) =>
            var dataParams := ContentEditDataParameters(code, contentType);
            var data := mapToFormData(draft, dataParams);
            var options := ContentEditFormOptions(code, draft);
            var upToCreate := loads + [MapToFormData(draft, dataParams), CreateForm(CONTENT_EDIT_TYPE, data, options)];
            (match createForm(CONTENT_EDIT_TYPE, data, options)
             case Failure(e) => Building(Failure(e), upToCreate)
             case Success(created) =>
               Building(Success(handleRequest(created, request)), upToCreate + [HandleRequest(created, request)]))
          case _ => Building(Failure(TypeError("string")), loads)
    }

    /**
     * handleContentEditForm: for any other controller the bag is left as it is and nothing
     * is called; for the edit controller the form is built and bound to `form`, and no
     * other entry of the bag changes. An exception leaves the bag unchanged.
     */
    method HandleContentEditForm(event: FilterViewBuilderParametersEvent) returns (outcome: Outcome, calls: seq<EditCall>)
      modifies event.parameters
      ensures !ActsOn(old(event.parameters.Get("_controller"))) ==>
        outcome == Pass && calls == [] && event.parameters.entries == old(event.parameters.entries)
      ensures ActsOn(old(event.parameters.Get("_controller"))) ==>
        var building := EditForm(event.request);
        && calls == building.calls
        && (building.result.Failure? ==>
              outcome == Fail(building.result.error) && event.parameters.entries == old(event.parameters.entries))
        && (building.result.Success? ==>
              outcome == Pass && event.parameters.entries == old(event.parameters.entries)["form" := FormObj(building.result.value)])
    {
      if !ActsOn(event.parameters.Get("_controller")) {
        return Pass, [];
      }
      var building := EditForm(event.request);
      calls := building.calls;
      if building.result.Failure? {
        return Fail(building.result.error), calls;
      }
      event.parameters.Add(map["form" := FormObj(building.result.value)]);
      outcome := Pass;
    }
  }
}
