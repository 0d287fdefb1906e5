# drupal-admin-ui sagas, modelled in Dafny

This project models the request/effect orchestration of the Drupal admin
client. That orchestration lives in two redux-saga files:

- `src/actions/application.js` holds the message-queue and drawer action
  creators, plus the menu, content-type registry and action registry sagas.
- `src/actions/content.js` holds the content-list query builder, the
  single-node, save, add, delete and user sagas, and the bulk-action
  dispatcher.

Each saga is a short deterministic script. It sees its action's payload, the
values it reads from the store, and the outcome of its one `api` call. From
these it yields a fixed sequence of effects. The model writes each saga as a
pure function from those inputs to an effect trace, a `seq<Effect>`. The
three loading-bar signals, `put` of a redux action, `call` of the api and
`all` of a batch are the effects.

Modules:

- `Wrappers`: `Option`, where `None` plays `undefined`, and `Result`, for
  returned-or-thrown.
- `JsText`: the JavaScript string semantics the sagas use: `includes`,
  `split` with a non-empty separator, and `String(n)` of an integer below
  10^21 in magnitude, with
  its inverse.
- `JsonData`: opaque JSON bodies, and JSON:API resources with their
  attributes, plus `String(v)` of an attribute and `Object.keys(v).length`.
- `ContentQuery`: the content-list options and the query object built
  from them.
- `Redux`: actions (`{ type, payload }`), payloads, effects, api
  arguments, thrown errors, and the loading-bar discipline predicates.
- `Application`: the `application.js` creators and sagas, plus its
  watcher table.
- `ContentActions`: the `content.js` action types and creators, plus the
  supported plugin list.
- `BulkAction`: the bulk-action node lookup and the plugin dispatch table.
- `Content`: the `content.js` sagas, plus its watcher table.

Behaviour worth noting:

- `CONTENT_REQUESTED` is registered with `takeEvery`, so overlapping
  list requests all run to completion (content.js:389).
- The bulk-action saga hides the loading bar in `finally`, so it hides on
  both paths (content.js:300-302). It never resets or shows the bar.
- An unmatched nid is not dropped by the bulk action. With the delete
  plugin it becomes `contentDelete(undefined)`. With any save plugin it
  throws on `node.id`, and the whole batch turns into one error message
  (content.js:217, 222).
- A missing content list makes the bulk action throw on `filter` once
  there is a nid to look up; with no nids the batch is empty
  (content.js:207-210).
- The placeholder filter keys `typearticle` and `typepage` are present
  whenever any content type is requested (content.js:76-77).

## Model

| member | source | states |
|---|---|---|
| `JsText.Includes` | src/actions/application.js:71 | `includes` is true exactly when the pattern occurs at some index of the string |
| `JsText.Split` | src/actions/content.js:317 | `split('--')` yields at least one piece; joining the pieces with the separator gives back the input; no piece contains the separator |
| `JsText.NatToDecimal` | src/actions/content.js:211 | the decimal notation of a number is non-empty, all digits, without a leading zero |
| `JsText.DecimalRoundTrip` | src/actions/content.js:211 | reading back the decimal notation of `n` gives `n` |
| `JsText.IntToString` | src/actions/content.js:211 | `String(i)` starts with `-` exactly when `i` is negative, and the rest is decimal digits with no leading zero, the lone `0` aside, and never `0` after a `-` |
| `JsText.IntToStringRoundTrip` | src/actions/content.js:211 | `String(i)` parses back to `i` |
| `JsonData.ToJsString` | src/actions/content.js:211 | `String(v)` of an attribute: `undefined`, `null`, `true`/`false` by the boolean, a string unchanged, and a number as its `String(i)` text, which parses back to that number |
| `Redux.ErrorString` | src/actions/content.js:299 | `error.toString()`: an api failure's text unchanged; a TypeError's text starts `TypeError: ` and names the property read of `undefined`, or the failed conversion of `undefined` or `null` to an object |
| `JsonData.KeyCount` | src/actions/application.js:125 | `Object.keys(v).length` throws exactly on `null`/`undefined`; it counts an object's members, an array's items and a string's characters, and is zero for a boolean or a number |
| `JsText.IntToStringInjective` | src/actions/content.js:211 | two integers stringify equally exactly when they are equal, so a numeric nid matches exactly one nid string |
| `ContentQuery.SortParam` | src/actions/content.js:57-60 | `sort` is present exactly when a sort option is; it is `-` + path when the direction is exactly `DESC` and the bare path otherwise |
| `ContentQuery.SortRoundTrip` | src/actions/content.js:57-60 | reading the `sort` member back recovers the path and whether the direction was `DESC`, for paths not starting with `-` |
| `ContentQuery.TypeKeyInjective` | src/actions/content.js:81 | distinct content types get distinct `type<t>` filter keys |
| `ContentQuery.TypeKeyNotRequested` | src/actions/content.js:81 | the key of a type that was not requested is not the key of any requested type |
| `ContentQuery.PlaceholderKeys` | src/actions/content.js:75-77 | `typeGroup`, `typearticle` and `typepage` collide with a requested type's key only when `Group`, `article` or `page` is requested |
| `ContentQuery.TypeMembers` | src/actions/content.js:78-90 | the `reduce` has one key per distinct requested type, each holding `{condition: {value: t, path: "type", memberOf: "typeGroup"}}` |
| `ContentQuery.TypesFilter` | src/actions/content.js:72-92 | the content-type part has exactly the group, the two placeholders and the per-type keys; the group is `OR` and the placeholders are empty unless a type of that name overwrote them |
| `ContentQuery.BuildFilter` | src/actions/content.js:48-100 | the filter has a `title` key exactly when the title is non-empty, holding a `CONTAINS` condition on `title`; a `status` key exactly when the status is non-empty, with value 1 for `published` and 0 otherwise; and no keys beyond title, content-type and status keys |
| `ContentQuery.RequestedTypeMember` | src/actions/content.js:78-92 | in the finished filter every requested type's key holds its membership condition on `type` in `typeGroup` |
| `ContentQuery.GroupAndPlaceholders` | src/actions/content.js:72-92 | once any type is requested the finished filter has `typeGroup`, `typearticle` and `typepage`; the group is `OR` and the placeholders are empty unless a same-named type overwrote them |
| `ContentQuery.BuildQuery` | src/actions/content.js:48-107 | `include` is always `uid`; `filter` is absent exactly when title, content types and status are all empty; `sort` and `page` follow the options, `page` copied verbatim |
| `Application.OpenDrawer` | src/actions/application.js:11-13 | type `OPEN_DRAWER`, no payload |
| `Application.CloseDrawer` | src/actions/application.js:16-18 | type `CLOSE_DRAWER`, no payload |
| `Application.SetMessage` | src/actions/application.js:29-35 | type `SET_MESSAGE`; the payload carries the message and the severity unchanged |
| `Application.ClearMessage` | src/actions/application.js:38-43 | type `CLEAR_MESSAGE` with payload `{key}` |
| `Application.ClearAllMessages` | src/actions/application.js:45-49 | type `CLEAR_MESSAGES` with an empty payload |
| `Application.RequestMenu` | src/actions/application.js:52-55 | type `MENU_REQUESTED` with an empty payload |
| `Application.RequestContentTypes` | src/actions/application.js:89-92 | type `CONTENT_TYPES_REQUESTED` with an empty payload |
| `Application.RequestActions` | src/actions/application.js:115-118 | type `ACTIONS_REQUESTED` with an empty payload |
| `Application.LoadMenu` | src/actions/application.js:58-83 | the bar is reset and shown first and hidden last; success is exactly reset, show, `call menu`, `MENU_LOADED{menuLinks}`, hide; on failure the trace has five or six effects, the sixth being the localhost diagnostic, which appears exactly when the base URL contains `localhost`, and the error's string is the message just before the hide |
| `Application.LoadContentTypes` | src/actions/application.js:95-109 | no reset or show; the `contentTypes` call, then `CONTENT_TYPES_LOADED` or the error message, then a hide on both paths |
| `Application.LoadActions` | src/actions/application.js:122-137 | never touches the loading bar; calls `api('actions')` exactly when the cache has no keys; a non-empty cache is put as `{data: cache}`; a fetched body is put unwrapped; a failed fetch puts only the error; a null cache throws in `Object.keys` |
| `Application.ApplicationWatcher` | src/actions/application.js:139-143 | menu and content types are `takeLatest`, actions `takeEvery` |
| `ContentActions.RequestContent` | src/actions/content.js:26-31 | type `CONTENT_REQUESTED`; given options are carried unchanged, and a missing argument becomes `{contentTypes: [], status: null}` |
| `ContentActions.RequestSingleContent` | src/actions/content.js:124-127 | type `CONTENT_SINGLE_REQUESTED` with payload `{nid}` |
| `ContentActions.ContentSave` | src/actions/content.js:160-165 | type `CONTENT_SAVE` with payload `{content}` |
| `ContentActions.ContentAdd` | src/actions/content.js:168-173 | type `CONTENT_ADD` with payload `{content}` |
| `ContentActions.ContentDelete` | src/actions/content.js:176-181 | type `CONTENT_DELETE` with payload `{content}` |
| `ContentActions.ActionExecute` | src/actions/content.js:184-190 | type `ACTION_EXECUTE` with payload `{action, nids}` |
| `ContentActions.RequestUser` | src/actions/content.js:353-356 | type `USER_REQUESTED` with payload `{uid}` |
| `BulkAction.PluginOf` | src/actions/content.js:215-293 | a plugin identifier selects a table row exactly when it is one of the supported actions |
| `BulkAction.PluginTableIsClosed` | src/actions/content.js:192-200 | the table is one-to-one: each supported identifier has its own row and each row answers to exactly its identifier |
| `BulkAction.FindNodeNone` | src/actions/content.js:210-212 | the lookup yields `undefined` exactly when no item's stringified nid equals the given nid |
| `BulkAction.FindNodeFirstMatch` | src/actions/content.js:210-212 | the lookup yields the first item whose stringified nid equals the given nid |
| `BulkAction.FindNodeByNumber` | src/actions/content.js:210-212 | with numeric nids, looking up the string of `n` yields the first node whose nid is `n` |
| `BulkAction.Step` | src/actions/content.js:209-294 | delete yields `contentDelete(node)`, found or not; an unknown plugin yields `undefined`; a save plugin throws reading `id` when the node is missing; for a save plugin and a found node, the callback yields a `contentSave` copying the node's `id`, `type` and `links`, with an attributes object whose only key is the plugin's flag holding the table's boolean |
| `BulkAction.MapNids` | src/actions/content.js:208-295 | the eager `map` succeeds exactly when every nid's step succeeds, then yields each nid's step in order; otherwise it throws one of the steps' errors |
| `BulkAction.Compact` | src/actions/content.js:296 | `filter(x => x)` keeps exactly the defined entries, in order, and drops everything when no entry is defined |
| `BulkAction.CompactAppend` | src/actions/content.js:296 | filtering a concatenation is the concatenation of the filtered parts, which with the one-element cases fixes order and multiplicity for every input |
| `BulkAction.Fanout` | src/actions/content.js:205-297 | an unknown plugin gives no effects; delete gives one `contentDelete(node)` per nid, unmatched ones included; a save plugin succeeds exactly when every nid is matched, then gives one `contentSave` per nid in nid order, each copying the node's `id`, `type` and `links` with an attributes object whose only key is the plugin's flag holding the table's boolean; a failure is always the TypeError on `id` |
| `Content.LoadContent` | src/actions/content.js:34-121 | reset, show, `call content` with the built query (no options at all give only `include=uid`), `CONTENT_LOADED{contentList}` or the error message, hide |
| `Content.LoadSingleContent` | src/actions/content.js:130-157 | reset, show, `call content` filtered on `nid`, `CONTENT_SINGLE_LOADED` with the first resource or `undefined`, or the error message, hide |
| `Content.BundleOf` | src/actions/content.js:317 | `type.split('--')[1]` is undefined exactly when the type has no `--`, and never contains `--` itself |
| `Content.BundleOfType` | src/actions/content.js:317 | the bundle of `e--b` is `b`, for any entity type `e` without `-` (such as `node`) and any `b` without `--` |
| `Content.SaveContent` | src/actions/content.js:305-326 | reset, show, `call node:save`, a success notice naming the saved node's bundle, title and nid or the error message, hide |
| `Content.AddContent` | src/actions/content.js:328-338 | reset, show, `call node:add`, the error message only on failure, hide |
| `Content.DeleteContent` | src/actions/content.js:340-350 | reset, show, `call node:delete`, the error message only on failure, hide |
| `Content.LoadUser` | src/actions/content.js:359-386 | reset, show, `call user` filtered on `uid`, `USER_LOADED` with the first resource or `undefined`, or the error message, hide |
| `Content.ExecuteAction` | src/actions/content.js:205-303 | two effects, the second a hide, with no reset or show; a missing content list puts the TypeError on `filter` when there is a nid and runs an empty batch otherwise; an unknown plugin runs an empty batch; delete runs one effect per nid; a save plugin runs its batch exactly when every nid is matched, otherwise it puts the TypeError message |
| `Content.ContentWatcher` | src/actions/content.js:388-396 | content list, save, bulk action and delete are `takeEvery`; single content, add and user are `takeLatest` |
| `Content.ActionTypesDistinct` | src/actions/content.js:25-358 | the 21 action types of both files are pairwise distinct strings |

## Left out

- redux-saga scheduling. What `takeLatest` cancellation and `takeEvery` fan-out do at run time is concurrency the model does not cover. Only the policy per action type is recorded (`ApplicationWatcher`, `ContentWatcher`).
- The `api` transport client. Each call's outcome is an input: a `Result` carrying the body, or the error's string.
- The store `select`s. The content list and the actions cache are inputs, and the `select` effects are not part of the traces.
- `process.env.REACT_APP_DRUPAL_BASE_URL`. It is a string input of `LoadMenu`. The case where it is undefined, and `includes` throws inside the `catch`, is not modelled.
- The `MessageSave` React element. The success notice is the structured record `{bundle, title, nid}`.
- The loading bar's internals. Only its three signals are modelled.
- `error.toString()` of an api failure is an opaque string. The three TypeErrors the model raises, reading `id` of a missing node and `filter` of a missing content list in the bulk action and `Object.keys` of a missing actions cache in `LoadActions` (application.js:125), use the V8 wording of their time; other engines word them differently.
- Response bodies are typed per endpoint. `menu`, `contentTypes`, `actions`, `node:add`, `node:delete` and the content list are opaque JSON. The `{data: [x]}` responses are a sequence of resources, and `node:save`'s `data` is one resource. A body without the expected `data` shape, which would throw during destructuring, is not modelled.
- JavaScript truthiness is modelled only where the code tests it: a set but empty title or status counts as absent. Option fields of other JSON types are not modelled.
- Object key order in the built filter is not modelled. The filter is a map, and the backend does not depend on key order.
- ContentQuery.SortRoundTrip: only for sort paths that do not start with `-`. With such a path an ascending sort cannot be told from a descending one on the bare path.
- Content.ExecuteAction: it states the size of the batch and leaves the per-nid contents to `BulkAction.Fanout`.
- JsText.Split: it does not claim that the pieces are the only ones with its two properties. The leftmost-occurrence rule is what `Content.BundleOfType` relies on.
- Content.BundleOf: its contract says when the bundle is undefined and that it holds no `--`; which piece it is is stated only for `e--b` types by `Content.BundleOfType`, not for entity types containing `-` or types with more than one `--`.
- JsText.IntToString: numbers are integers below 10^21 in magnitude. Larger numbers, which JavaScript prints in exponent notation, and fractional numbers are not modelled; `JsonData.ToJsString` inherits this.
- Content.ExecuteAction: `null` and `undefined` content lists are one case, and the model's message reads `... of undefined` for both. For a `null` list the program's message reads `... of null` instead.
- JsonData.KeyCount: a string counts its Unicode scalar values, while `Object.keys` counts UTF-16 code units, so a character outside the Basic Multilingual Plane counts 1 here and 2 in JavaScript. `LoadActions` only tests the count against zero, which both agree on.
