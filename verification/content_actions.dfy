/** The action types and action creators of the content saga file. */
module ContentActions {
  import opened Wrappers
  import opened JsonData
  import opened ContentQuery
  import opened Redux

  const ContentRequestedType := "CONTENT_REQUESTED"
  const ContentLoadedType := "CONTENT_LOADED"
  const ContentSingleRequestedType := "CONTENT_SINGLE_REQUESTED"
  const ContentSingleLoadedType := "CONTENT_SINGLE_LOADED"
  const ContentSaveType := "CONTENT_SAVE"
  const ContentAddType := "CONTENT_ADD"
  const ContentDeleteType := "CONTENT_DELETE"
  const ActionExecuteType := "ACTION_EXECUTE"
  const UserRequestedType := "USER_REQUESTED"
  const UserLoadedType := "USER_LOADED"

  /** The bulk-action plugins the client knows how to run. */
  const SupportedActions := [
    "entity:delete_action:node",
    "node_make_sticky_action",
    "node_make_unsticky_action",
    "node_promote_action",
    "entity:publish_action:node",
    "node_unpromote_action",
    "entity:unpublish_action:node"
  ]

  /** `requestContent(options)`; `None` is a call without an argument. */
  function RequestContent(options: Option<QueryOptions>): (a: Action)
    ensures a.actionType == "CONTENT_REQUESTED"
    ensures options.Some? ==> a.payload == OptionsPayload(options)
    ensures options.None? ==> a.payload == OptionsPayload(Some(QueryOptions(None, [], None, None, None)))
  {
    Action(ContentRequestedType, OptionsPayload(Some(options.GetOr(NoOptions))))
  }

  function RequestSingleContent(nid: string): (a: Action)
    ensures a.actionType == "CONTENT_SINGLE_REQUESTED" && a.payload == NidPayload(nid)
  {
    Action(ContentSingleRequestedType, NidPayload(nid))
  }

  function ContentSave(content: Option<Resource>): (a: Action)
    ensures a.actionType == "CONTENT_SAVE" && a.payload == ContentPayload(content)
  {
    Action(ContentSaveType, ContentPayload(content))
  }

  function ContentAdd(content: Option<Resource>): (a: Action)
    ensures a.actionType == "CONTENT_ADD" && a.payload == ContentPayload(content)
  {
    Action(ContentAddType, ContentPayload(content))
  }

  function ContentDelete(content: Option<Resource>): (a: Action)
    ensures a.actionType == "CONTENT_DELETE" && a.payload == ContentPayload(content)
  {
    Action(ContentDeleteType, ContentPayload(content))
  }

  function ActionExecute(action: ActionDescriptor, nids: seq<string>): (a: Action)
    ensures a.actionType == "ACTION_EXECUTE" && a.payload == ExecutePayload(action, nids)
  {
    Action(ActionExecuteType, ExecutePayload(action, nids))
  }

  function RequestUser(uid: string): (a: Action)
    ensures a.actionType == "USER_REQUESTED" && a.payload == UidPayload(uid)
  {
    Action(UserRequestedType, UidPayload(uid))
  }
}
