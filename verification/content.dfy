/** The content sagas: the content list, a single node, save, add and
    delete of a node, the bulk action, and the user; plus the watcher
    table of the content root saga. */
module Content {
  import opened Wrappers
  import opened JsText
  import opened JsonData
  import opened ContentQuery
  import opened Redux
  import opened Application
  import opened ContentActions
  import opened BulkAction

  /** The options the list saga works with: a missing options object
      reads as no options at all. */
  function OptionsOf(options: Option<QueryOptions>): QueryOptions {
    options.GetOr(NoOptions)
  }

  /** The content-list saga, given the request's options and the outcome
      of the `content` call made with the built query. */
  function LoadContent(options: Option<QueryOptions>, fetched: Result<Json, string>): (t: seq<Effect>)
    ensures Bracketed(t) && |t| == 5
    ensures t[2].Call? && t[2].resource == "content" && t[2].args.QueryStringArgs?
    ensures t[2].args.queryString.includes == "uid"
    ensures options.None? ==> t[2].args.queryString == Query(None, None, None, "uid")
    ensures options.Some? ==> t[2].args.queryString == BuildQuery(options.value)
    ensures fetched.Success? ==> t[3] == Put(Action("CONTENT_LOADED", ContentListPayload(fetched.value)))
    ensures fetched.Failure? ==> t[3] == Put(SetMessage(Text(fetched.error), ErrorSeverity))
  {
    var query := BuildQuery(OptionsOf(options));
    var outcome :=
      match fetched
      case Success(contentList) => Put(Action(ContentLoadedType, ContentListPayload(contentList)))
      case Failure(error) => ErrorReport(ApiError(error));
    WithLoadingBar([Call("content", QueryStringArgs(query)), outcome])
  }

  /** Element 0 of a response's `data` array; `None` is `undefined`. */
  function First(data: seq<Resource>): (r: Option<Resource>)
    ensures r.Some? <==> |data| > 0
    ensures r.Some? ==> r.value == data[0]
  {
    if |data| > 0 then Some(data[0]) else None
  }

  /** The single-node saga: the `content` call filtered on `nid`, then the
      first resource of the response's `data`. */
  function LoadSingleContent(nid: string, fetched: Result<seq<Resource>, string>): (t: seq<Effect>)
    ensures Bracketed(t) && |t| == 5
    ensures t[2] == Call("content", ConditionArgs("nid", nid))
    ensures fetched.Success? && |fetched.value| > 0 ==>
      t[3] == Put(Action("CONTENT_SINGLE_LOADED", ContentPayload(Some(fetched.value[0]))))
    ensures fetched.Success? && |fetched.value| == 0 ==>
      t[3] == Put(Action("CONTENT_SINGLE_LOADED", ContentPayload(None)))
    ensures fetched.Failure? ==> t[3] == Put(SetMessage(Text(fetched.error), ErrorSeverity))
  {
    var outcome :=
      match fetched
      case Success(data) => Put(Action(ContentSingleLoadedType, ContentPayload(First(data))))
      case Failure(error) => ErrorReport(ApiError(error));
    WithLoadingBar([Call("content", ConditionArgs("nid", nid)), outcome])
  }

  /** The bundle of a composite resource type: `type.split('--')[1]`. */
  function BundleOf(resourceType: string): (b: Option<string>)
    ensures b.None? <==> !Includes(resourceType, "--")
    ensures b.Some? ==> !Includes(b.value, "--")
  {
    var parts := Split(resourceType, "--");
    if |parts| > 1 then Some(parts[1]) else None
  }

  /** The bundle of "<entity>--<bundle>" is `<bundle>`, for any entity
      type without a `-` in it (such as `node`) and any bundle name
      without "--" in it. */
  lemma BundleOfType(entity: string, bundle: string)
    requires forall k :: 0 <= k < |entity| ==> entity[k] != '-'
    requires !Includes(bundle, "--")
    ensures BundleOf(entity + "--" + bundle) == Some(bundle)
  {
    var s := entity + "--" + bundle;
    var n := |entity|;
    assert OccursAt(s, "--", n) by {
      assert s[n..n + 2] == "--";
    }
    forall j | 0 <= j < n
      ensures !OccursAt(s, "--", j)
    {
      assert s[j] == entity[j];
    }
    assert IndexOf(s, "--", 0) == Some(n);
    assert s[n + 2..] == bundle;
    assert Split(bundle, "--") == [bundle];
  }

  /** The save saga, given the node sent and the outcome of `node:save`:
      on success a success-severity notice naming the saved node's bundle,
      title and nid. */
  function SaveContent(content: Option<Resource>, saved: Result<Resource, string>): (t: seq<Effect>)
    ensures Bracketed(t) && |t| == 5
    ensures t[2] == Call("node:save", NodeArgs(content))
    ensures saved.Success? ==>
      t[3] == Put(SetMessage(
        SaveNotice(BundleOf(saved.value.resourceType), Attribute(saved.value, "title"), Attribute(saved.value, "nid")),
        SuccessSeverity))
    ensures saved.Failure? ==> t[3] == Put(SetMessage(Text(saved.error), ErrorSeverity))
  {
    var outcome :=
      match saved
      case Success(node) =>
        Put(SetMessage(
          SaveNotice(BundleOf(node.resourceType), Attribute(node, "title"), Attribute(node, "nid")),
          SuccessSeverity))
      case Failure(error) => ErrorReport(ApiError(error));
    WithLoadingBar([Call("node:save", NodeArgs(content)), outcome])
  }

  /** A node-changing saga (`node:add`, `node:delete`): the call, an error
      message if it fails, and nothing on success. */
  function ChangeNode(resource: string, content: Option<Resource>, outcome: Result<Json, string>): (t: seq<Effect>)
    ensures Bracketed(t) && t[2] == Call(resource, NodeArgs(content))
    ensures outcome.Success? ==> |t| == 4
    ensures outcome.Failure? ==> |t| == 5 && t[3] == Put(SetMessage(Text(outcome.error), ErrorSeverity))
  {
    var report := if outcome.Failure? then [ErrorReport(ApiError(outcome.error))] else [];
    WithLoadingBar([Call(resource, NodeArgs(content))] + report)
  }

  function AddContent(content: Option<Resource>, outcome: Result<Json, string>): (t: seq<Effect>)
    ensures Bracketed(t) && t[2] == Call("node:add", NodeArgs(content))
    ensures outcome.Success? ==> |t| == 4
    ensures outcome.Failure? ==> |t| == 5 && t[3] == Put(SetMessage(Text(outcome.error), ErrorSeverity))
  {
    ChangeNode("node:add", content, outcome)
  }

  function DeleteContent(content: Option<Resource>, outcome: Result<Json, string>): (t: seq<Effect>)
    ensures Bracketed(t) && t[2] == Call("node:delete", NodeArgs(content))
    ensures outcome.Success? ==> |t| == 4
    ensures outcome.Failure? ==> |t| == 5 && t[3] == Put(SetMessage(Text(outcome.error), ErrorSeverity))
  {
    ChangeNode("node:delete", content, outcome)
  }

  /** The user saga: the `user` call filtered on `uid`, then the first
      resource of the response's `data`. */
  function LoadUser(uid: string, fetched: Result<seq<Resource>, string>): (t: seq<Effect>)
    ensures Bracketed(t) && |t| == 5
    ensures t[2] == Call("user", ConditionArgs("uid", uid))
    ensures fetched.Success? && |fetched.value| > 0 ==>
      t[3] == Put(Action("USER_LOADED", UserPayload(Some(fetched.value[0]))))
    ensures fetched.Success? && |fetched.value| == 0 ==>
      t[3] == Put(Action("USER_LOADED", UserPayload(None)))
    ensures fetched.Failure? ==> t[3] == Put(SetMessage(Text(fetched.error), ErrorSeverity))
  {
    var outcome :=
      match fetched
      case Success(data) => Put(Action(UserLoadedType, UserPayload(First(data))))
      case Failure(error) => ErrorReport(ApiError(error));
    WithLoadingBar([Call("user", ConditionArgs("uid", uid)), outcome])
  }

  /** The bulk-action saga, given the content list read from the store
      (`None` where it is `null` or `undefined`): the batch of per-node
      effects, or the error the batch threw, and the loading bar hidden on
      both paths though never shown. A missing list throws on `.filter` as
      soon as there is one nid to look up. */
  function ExecuteAction(action: ActionDescriptor, nids: seq<string>, contentList: Option<seq<Resource>>): (t: seq<Effect>)
    ensures |t| == 2 && t[1] == HideLoading
    ensures !IsLoadingSignal(t[0])
    ensures contentList.None? && |nids| > 0 ==> t[0] == ErrorReport(ReadOfUndefined("filter"))
    ensures contentList.None? && |nids| == 0 ==> t[0] == All([])
    ensures contentList.Some? && PluginOf(action.plugin).Unsupported? ==> t[0] == All([])
    ensures contentList.Some? && PluginOf(action.plugin).DeletePlugin? ==> t[0].All? && |t[0].effects| == |nids|
    ensures contentList.Some? && PluginOf(action.plugin).FlagPlugin? ==>
      (t[0].All? <==> forall k :: 0 <= k < |nids| ==> FindNode(contentList.value, nids[k]).Some?)
    ensures contentList.Some? && PluginOf(action.plugin).FlagPlugin? && t[0].All? ==> |t[0].effects| == |nids|
    ensures contentList.Some? && !t[0].All? ==> t[0] == ErrorReport(ReadOfUndefined("id"))
  {
    match contentList
    case None =>
      if |nids| > 0 then [ErrorReport(ReadOfUndefined("filter")), HideLoading]
      else [All([]), HideLoading]
    case Some(items) =>
      match Fanout(action.plugin, items, nids)
      case Success(effects) => [All(effects), HideLoading]
      case Failure(e) => [ErrorReport(e), HideLoading]
  }

  /** The watchers the content root saga registers. */
  function ContentWatcher(actionType: string): (p: Option<Concurrency>)
    ensures p == Some(TakeEvery) <==>
      actionType in {"CONTENT_REQUESTED", "CONTENT_SAVE", "ACTION_EXECUTE", "CONTENT_DELETE"}
    ensures p == Some(TakeLatest) <==>
      actionType in {"CONTENT_SINGLE_REQUESTED", "CONTENT_ADD", "USER_REQUESTED"}
  {
    if actionType == ContentRequestedType then Some(TakeEvery)
    else if actionType == ContentSaveType then Some(TakeEvery)
    else if actionType == ContentSingleRequestedType then Some(TakeLatest)
    else if actionType == ActionExecuteType then Some(TakeEvery)
    else if actionType == ContentAddType then Some(TakeLatest)
    else if actionType == ContentDeleteType then Some(TakeEvery)
    else if actionType == UserRequestedType then Some(TakeLatest)
    else None
  }

  /** Every action type of both saga files. */
  const AllActionTypes := [
    OpenDrawerType, CloseDrawerType, SetMessageType, ClearMessageType, ClearAllMessagesType,
    MenuRequestedType, MenuLoadedType, ContentTypesRequestedType, ContentTypesLoadedType,
    ActionsRequestedType, ActionsLoadedType,
    ContentRequestedType, ContentLoadedType, ContentSingleRequestedType, ContentSingleLoadedType,
    ContentSaveType, ContentAddType, ContentDeleteType, ActionExecuteType,
    UserRequestedType, UserLoadedType
  ]

  /** No two action types share a string, so a reducer or watcher keyed
      on the type tells every action apart. */
  lemma ActionTypesDistinct()
    ensures forall i, j :: 0 <= i < j < |AllActionTypes| ==> AllActionTypes[i] != AllActionTypes[j]
  {
  }
}
