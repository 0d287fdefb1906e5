/** The application sagas and action creators: the message queue
    actions, the drawer toggles, and the menu, content-type and action
    registry requests. */
module Application {
  import opened Wrappers
  import opened JsText
  import opened JsonData
  import opened Redux

  const OpenDrawerType := "OPEN_DRAWER"
  const CloseDrawerType := "CLOSE_DRAWER"
  const SetMessageType := "SET_MESSAGE"
  const ClearMessageType := "CLEAR_MESSAGE"
  /** application.js names this constant CLEAR_ALL_MESSAGES but its value is
      "CLEAR_MESSAGES". */
  const ClearAllMessagesType := "CLEAR_MESSAGES"
  const MenuRequestedType := "MENU_REQUESTED"
  const MenuLoadedType := "MENU_LOADED"
  const ContentTypesRequestedType := "CONTENT_TYPES_REQUESTED"
  const ContentTypesLoadedType := "CONTENT_TYPES_LOADED"
  const ActionsRequestedType := "ACTIONS_REQUESTED"
  const ActionsLoadedType := "ACTIONS_LOADED"

  /** The diagnostic added when the menu fails to load and the base URL
      names localhost. */
  const LocalhostHint :=
    "Unable to access data from Drupal. Did you set REACT_APP_DRUPAL_BASE_URL to localhost instead of 127.0.0.1?"

  function OpenDrawer(): (a: Action)
    ensures a.actionType == "OPEN_DRAWER" && a.payload.NoPayload?
  {
    Action(OpenDrawerType, NoPayload)
  }

  function CloseDrawer(): (a: Action)
    ensures a.actionType == "CLOSE_DRAWER" && a.payload.NoPayload?
  {
    Action(CloseDrawerType, NoPayload)
  }

  /** Queues `message` with `severity`; both are carried unchanged. */
  function SetMessage(message: MessageBody, severity: Severity): (a: Action)
    ensures a.actionType == "SET_MESSAGE"
    ensures a.payload.MessagePayload?
    ensures a.payload.message == message && a.payload.messageSeverity == severity
  {
    Action(SetMessageType, MessagePayload(message, severity))
  }

  /** Removes the message queued under `key`. */
  function ClearMessage(key: Json): (a: Action)
    ensures a.actionType == "CLEAR_MESSAGE"
    ensures a.payload == KeyPayload(key)
  {
    Action(ClearMessageType, KeyPayload(key))
  }

  /** Empties the message queue; the payload is the empty object. */
  function ClearAllMessages(): (a: Action)
    ensures a.actionType == "CLEAR_MESSAGES"
    ensures a.payload == EmptyPayload
  {
    Action(ClearAllMessagesType, EmptyPayload)
  }

  function RequestMenu(): (a: Action)
    ensures a.actionType == "MENU_REQUESTED" && a.payload == EmptyPayload
  {
    Action(MenuRequestedType, EmptyPayload)
  }

  function RequestContentTypes(): (a: Action)
    ensures a.actionType == "CONTENT_TYPES_REQUESTED" && a.payload == EmptyPayload
  {
    Action(ContentTypesRequestedType, EmptyPayload)
  }

  function RequestActions(): (a: Action)
    ensures a.actionType == "ACTIONS_REQUESTED" && a.payload == EmptyPayload
  {
    Action(ActionsRequestedType, EmptyPayload)
  }

  /** What every `catch` block of both saga files puts: the failure's
      string as an error-severity message. */
  function ErrorReport(e: Thrown): Effect {
    Put(SetMessage(Text(ErrorString(e)), ErrorSeverity))
  }

  /** The menu saga, given the configured base URL and the outcome of the
      `menu` call. */
  function LoadMenu(baseUrl: string, fetched: Result<Json, string>): (t: seq<Effect>)
    ensures Bracketed(t)
    ensures fetched.Success? ==>
      t == [ResetLoading, ShowLoading, Call("menu", NoArgs),
            Put(Action("MENU_LOADED", MenuLinksPayload(fetched.value))), HideLoading]
    ensures fetched.Failure? ==> t[2] == Call("menu", NoArgs)
    ensures fetched.Failure? ==> |t| == 5 || |t| == 6
    ensures fetched.Failure? ==> (|t| == 6 <==> exists i :: OccursAt(baseUrl, "localhost", i))
    ensures fetched.Failure? && |t| == 6 ==> t[3] == Put(SetMessage(Text(LocalhostHint), ErrorSeverity))
    ensures fetched.Failure? ==> t[|t| - 2] == Put(SetMessage(Text(fetched.error), ErrorSeverity))
  {
    var outcome :=
      match fetched
      case Success(menuLinks) => [Put(Action(MenuLoadedType, MenuLinksPayload(menuLinks)))]
      case Failure(error) =>
        (if Includes(baseUrl, "localhost") then [Put(SetMessage(Text(LocalhostHint), ErrorSeverity))] else [])
        + [ErrorReport(ApiError(error))];
    WithLoadingBar([Call("menu", NoArgs)] + outcome)
  }

  /** The content-type registry saga: no reset or show, but a hide at the
      end on both paths. */
  function LoadContentTypes(fetched: Result<Json, string>): (t: seq<Effect>)
    ensures |t| == 3 && t[0] == Call("contentTypes", NoArgs) && t[2] == HideLoading
    ensures forall k :: 0 <= k < |t| ==> !t[k].ResetLoading? && !t[k].ShowLoading?
    ensures SilentOnLoading(t[..|t| - 1])
    ensures fetched.Success? ==> t[1] == Put(Action("CONTENT_TYPES_LOADED", ContentTypesPayload(fetched.value)))
    ensures fetched.Failure? ==> t[1] == Put(SetMessage(Text(fetched.error), ErrorSeverity))
  {
    var outcome :=
      match fetched
      case Success(contentTypes) => Put(Action(ContentTypesLoadedType, ContentTypesPayload(contentTypes)))
      case Failure(error) => ErrorReport(ApiError(error));
    [Call("contentTypes", NoArgs), outcome, HideLoading]
  }

  /** The action registry saga, given the cached registry read from the
      store and the outcome the `actions` call would have. A non-empty
      cache is republished wrapped as `{ data: cache }` and no call is
      made; otherwise the fetched body is republished as it is. */
  function LoadActions(cache: Json, fetched: Result<Json, string>): (t: seq<Effect>)
    ensures SilentOnLoading(t)
    ensures (exists k :: 0 <= k < |t| && t[k].Call?) <==> KeyCount(cache) == Some(0)
    ensures KeyCount(cache).Some? && KeyCount(cache).value > 0 ==>
      t == [Put(Action("ACTIONS_LOADED", ActionsPayload(JObject(map["data" := cache]))))]
    ensures KeyCount(cache) == Some(0) ==> |t| == 2 && t[0] == Call("actions", NoArgs)
    ensures KeyCount(cache) == Some(0) && fetched.Success? ==>
      t[1] == Put(Action("ACTIONS_LOADED", ActionsPayload(fetched.value)))
    ensures KeyCount(cache) == Some(0) && fetched.Failure? ==>
      t[1] == Put(SetMessage(Text(fetched.error), ErrorSeverity))
    ensures cache.JNull? ==> t == [ErrorReport(KeysOfNullish)]
  {
    match KeyCount(cache)
    case None => [ErrorReport(KeysOfNullish)]
    case Some(n) =>
      if n > 0 then [Put(Action(ActionsLoadedType, ActionsPayload(JObject(map["data" := cache]))))]
      else
        var outcome :=
          match fetched
          case Success(actions) => Put(Action(ActionsLoadedType, ActionsPayload(actions)))
          case Failure(error) => ErrorReport(ApiError(error));
        var t := [Call("actions", NoArgs), outcome];
        assert t[0].Call?;
        t
  }

  /** The watchers the application root saga registers. */
  function ApplicationWatcher(actionType: string): (p: Option<Concurrency>)
    ensures p == Some(TakeLatest) <==> actionType in {"MENU_REQUESTED", "CONTENT_TYPES_REQUESTED"}
    ensures p == Some(TakeEvery) <==> actionType == "ACTIONS_REQUESTED"
  {
    if actionType == MenuRequestedType then Some(TakeLatest)
    else if actionType == ContentTypesRequestedType then Some(TakeLatest)
    else if actionType == ActionsRequestedType then Some(TakeEvery)
    else None
  }
}
