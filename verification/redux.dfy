/** The vocabulary shared by both saga files: redux actions (`{ type,
    payload }`), the effects a saga yields, and the values its `catch`
    receives. */
module Redux {
  import opened Wrappers
  import opened JsText
  import opened JsonData
  import opened ContentQuery

  /** Message severities. Only error and success are used by the sagas;
      the other levels are carried by name. */
  datatype Severity = ErrorSeverity | SuccessSeverity | OtherSeverity(level: string)

  /** The content of a queued message: a plain string, or the structured
      "saved" notice the save saga renders (`bundle`, `title`, `nid`). */
  datatype MessageBody =
    | Text(text: string)
    | SaveNotice(bundle: Option<string>, title: Option<Value>, nid: Option<Value>)

  /** A server-declared bulk action; only its plugin identifier is read. */
  datatype ActionDescriptor = ActionDescriptor(plugin: string)

  /** The payload of an action, one constructor per payload shape.
      `NoPayload` is an action without a `payload` member, `EmptyPayload`
      one whose payload is `{}`. */
  datatype Payload =
    | NoPayload
    | EmptyPayload
    | MessagePayload(message: MessageBody, messageSeverity: Severity)
    | KeyPayload(key: Json)
    | MenuLinksPayload(menuLinks: Json)
    | ContentTypesPayload(contentTypes: Json)
    | ActionsPayload(actions: Json)
    | OptionsPayload(options: Option<QueryOptions>)
    | ContentListPayload(contentList: Json)
    | NidPayload(nid: string)
    | ContentPayload(content: Option<Resource>)
    | ExecutePayload(action: ActionDescriptor, nids: seq<string>)
    | UidPayload(uid: string)
    | UserPayload(user: Option<Resource>)

  datatype Action = Action(actionType: string, payload: Payload)

  /** How a root saga starts the worker for an action type. */
  datatype Concurrency =
    | TakeEvery   // every action starts a worker; none cancels another
    | TakeLatest  // a new action cancels the worker still running

  /** The second argument of an `api` call. */
  datatype ApiArgs =
    | NoArgs
    | QueryStringArgs(queryString: Query)
      /** `{ queryString: { filter: { condition: { path, value } } } }` */
    | ConditionArgs(path: string, value: string)
      /** `{ parameters: { node } }` */
    | NodeArgs(node: Option<Resource>)

  /** What a saga yields. The loading bar is driven by its three signals;
      `All` runs a batch of effects together. */
  datatype Effect =
    | ResetLoading
    | ShowLoading
    | HideLoading
    | Put(action: Action)
    | Call(resource: string, args: ApiArgs)
    | All(effects: seq<Effect>)

  /** What a saga's `catch` receives: a failed `api` call, or a TypeError
      raised by reading a property of `undefined` or by `Object.keys` of
      `null`. */
  datatype Thrown =
    | ApiError(text: string)
    | ReadOfUndefined(property: string)
    | KeysOfNullish

  /** `error.toString()`: an api failure's text as it is, and the V8
      wording of the TypeErrors, which name the property read or the
      failed object conversion. */
  function ErrorString(e: Thrown): (s: string)
    ensures e.ApiError? ==> s == e.text
    ensures !e.ApiError? ==> |s| > 11 && s[..11] == "TypeError: "
    ensures e.ReadOfUndefined? ==> Includes(s, "'" + e.property + "'") && Includes(s, "undefined")
    ensures e.KeysOfNullish? ==> Includes(s, "convert undefined or null to object")
  {
    match e
    case ApiError(text) => text
    case ReadOfUndefined(property) =>
      var quoted := "'" + property + "'";
      var head := "TypeError: Cannot read property ";
      var ofUndefined := " of undefined";
      var s := head + quoted + ofUndefined;
      assert s[..11] == head[..11];
      assert s[|head|..|head| + |quoted|] == quoted;
      assert s[|s| - 9..] == ofUndefined[4..];
      assert OccursAt(s, quoted, |head|);
      assert OccursAt(s, "undefined", |s| - 9);
      s
    case KeysOfNullish =>
      var head := "TypeError: Cannot ";
      var tail := "convert undefined or null to object";
      var s := head + tail;
      assert s[..11] == head[..11];
      assert s[|head|..] == tail;
      assert OccursAt(s, tail, |head|);
      s
  }

  predicate IsLoadingSignal(e: Effect) {
    e.ResetLoading? || e.ShowLoading? || e.HideLoading?
  }

  /** No effect of `t` touches the loading bar. */
  predicate SilentOnLoading(t: seq<Effect>) {
    forall k :: 0 <= k < |t| ==> !IsLoadingSignal(t[k])
  }

  /** The loading-bar discipline of most sagas: reset and show first, hide
      last, and nothing in between touches the bar. */
  predicate Bracketed(t: seq<Effect>) {
    && |t| >= 3
    && t[0] == ResetLoading
    && t[1] == ShowLoading
    && t[|t| - 1] == HideLoading
    && SilentOnLoading(t[2..|t| - 1])
  }

  /** Runs `work` inside `try { reset; show; … } finally { hide }`. */
  function WithLoadingBar(work: seq<Effect>): (t: seq<Effect>)
    requires SilentOnLoading(work)
    ensures Bracketed(t)
    ensures t[2..|t| - 1] == work
  {
    [ResetLoading, ShowLoading] + work + [HideLoading]
  }
}
