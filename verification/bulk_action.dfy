/** The bulk-action dispatcher: for each selected nid, find the node in
    the current content list and turn the action's plugin into one effect
    through a closed table. */
module BulkAction {
  import opened Wrappers
  import opened JsText
  import opened JsonData
  import opened Redux
  import opened ContentActions

  /** The node attribute a save plugin sets. */
  datatype Flag = Sticky | Promote | Status

  function FlagName(f: Flag): string {
    match f
    case Sticky => "sticky"
    case Promote => "promote"
    case Status => "status"
  }

  /** The dispatch table's rows: delete, set one flag, or nothing. */
  datatype Plugin = DeletePlugin | FlagPlugin(flag: Flag, value: bool) | Unsupported

  /** The `switch` on the plugin identifier. */
  function PluginOf(id: string): (p: Plugin)
    ensures p.Unsupported? <==> id !in SupportedActions
  {
    if id == "entity:delete_action:node" then DeletePlugin
    else if id == "node_make_sticky_action" then FlagPlugin(Sticky, true)
    else if id == "node_make_unsticky_action" then FlagPlugin(Sticky, false)
    else if id == "node_promote_action" then FlagPlugin(Promote, true)
    else if id == "node_unpromote_action" then FlagPlugin(Promote, false)
    else if id == "entity:publish_action:node" then FlagPlugin(Status, true)
    else if id == "entity:unpublish_action:node" then FlagPlugin(Status, false)
    else Unsupported
  }

  /** The identifier a table row answers to. */
  function PluginId(p: Plugin): string
    requires !p.Unsupported?
  {
    match p
    case DeletePlugin => "entity:delete_action:node"
    case FlagPlugin(Sticky, true) => "node_make_sticky_action"
    case FlagPlugin(Sticky, false) => "node_make_unsticky_action"
    case FlagPlugin(Promote, true) => "node_promote_action"
    case FlagPlugin(Promote, false) => "node_unpromote_action"
    case FlagPlugin(Status, true) => "entity:publish_action:node"
    case FlagPlugin(Status, false) => "entity:unpublish_action:node"
  }

  /** Every supported identifier selects its own row, and every row is
      selected by exactly its identifier: no two identifiers share a row. */
  lemma PluginTableIsClosed(id: string, p: Plugin)
    ensures id in SupportedActions ==> PluginId(PluginOf(id)) == id
    ensures !p.Unsupported? ==> PluginOf(PluginId(p)) == p
  {
  }

  /** `String(item.attributes.nid) === nid`. */
  predicate NidMatches(item: Resource, nid: string) {
    ToJsString(Attribute(item, "nid")) == nid
  }

  /** `contentList.filter(item => String(item.attributes.nid) === nid)`. */
  function Matching(items: seq<Resource>, nid: string): seq<Resource> {
    if |items| == 0 then []
    else (if NidMatches(items[0], nid) then [items[0]] else []) + Matching(items[1..], nid)
  }

  /** The node for `nid`: element 0 of the matching items, `None` standing
      for `undefined`. */
  function FindNode(items: seq<Resource>, nid: string): Option<Resource> {
    var matching := Matching(items, nid);
    if |matching| > 0 then Some(matching[0]) else None
  }

  /** The lookup finds nothing exactly when no item matches. */
  lemma {:induction false} FindNodeNone(items: seq<Resource>, nid: string)
    ensures FindNode(items, nid).None? <==> forall k :: 0 <= k < |items| ==> !NidMatches(items[k], nid)
    decreases |items|
  {
    if |items| > 0 {
      FindNodeNone(items[1..], nid);
      assert forall k :: 1 <= k < |items| ==> items[k] == items[1..][k - 1];
    }
  }

  /** The lookup returns the first matching item. */
  lemma {:induction false} FindNodeFirstMatch(items: seq<Resource>, nid: string, k: nat)
    requires k < |items| && NidMatches(items[k], nid)
    requires forall j :: 0 <= j < k ==> !NidMatches(items[j], nid)
    ensures FindNode(items, nid) == Some(items[k])
    decreases k
  {
    if k > 0 {
      FindNodeFirstMatch(items[1..], nid, k - 1);
    }
  }

  /** With numeric nids, looking up the decimal string of `n` finds the
      first node whose nid is `n`. */
  lemma FindNodeByNumber(items: seq<Resource>, n: int, k: nat)
    requires forall j :: 0 <= j < |items| ==> Attribute(items[j], "nid").Some? && Attribute(items[j], "nid").value.VNumber?
    requires k < |items| && Attribute(items[k], "nid") == Some(VNumber(n))
    requires forall j :: 0 <= j < k ==> Attribute(items[j], "nid") != Some(VNumber(n))
    ensures FindNode(items, IntToString(n)) == Some(items[k])
  {
    forall j | 0 <= j < k
      ensures !NidMatches(items[j], IntToString(n))
    {
      IntToStringInjective(Attribute(items[j], "nid").value.n, n);
    }
    FindNodeFirstMatch(items, IntToString(n), k);
  }

  /** The partial node a save plugin sends: the node's `id`, `type` and
      `links` and a single attribute. */
  function Patch(node: Resource, flag: Flag, value: bool): Resource {
    Resource(node.id, node.resourceType, map[FlagName(flag) := VBool(value)], node.links)
  }

  /** `e` puts a `contentSave` of `node`'s `id`, `type` and `links` with an
      attributes object whose only key is `flag`, holding `value`. */
  predicate SavesFlag(e: Effect, node: Resource, flag: Flag, value: bool) {
    && e.Put?
    && e.action.actionType == "CONTENT_SAVE"
    && e.action.payload.ContentPayload?
    && e.action.payload.content.Some?
    && var sent := e.action.payload.content.value;
    && sent.id == node.id
    && sent.resourceType == node.resourceType
    && sent.links == node.links
    && sent.attributes.Keys == {FlagName(flag)}
    && sent.attributes[FlagName(flag)] == VBool(value)
  }

  /** The `.map` callback for one nid: the effect, `None` for the
      `undefined` an unknown plugin yields, or the TypeError a save plugin
      raises by reading `id` of an `undefined` node. */
  function Step(plugin: Plugin, node: Option<Resource>): (r: Result<Option<Effect>, Thrown>)
    ensures plugin.DeletePlugin? ==> r == Success(Some(Put(ContentDelete(node))))
    ensures plugin.FlagPlugin? && node.Some? ==>
      r.Success? && r.value.Some? && SavesFlag(r.value.value, node.value, plugin.flag, plugin.value)
    ensures plugin.FlagPlugin? && node.None? ==> r == Failure(ReadOfUndefined("id"))
    ensures plugin.Unsupported? ==> r == Success(None)
  {
    match plugin
    case DeletePlugin => Success(Some(Put(ContentDelete(node))))
    case FlagPlugin(flag, value) =>
      if node.None? then Failure(ReadOfUndefined("id"))
      else Success(Some(Put(ContentSave(Some(Patch(node.value, flag, value))))))
    case Unsupported => Success(None)
  }

  /** The eager `.map` over the nids: the first throw aborts the batch. */
  function MapNids(plugin: Plugin, items: seq<Resource>, nids: seq<string>): (r: Result<seq<Option<Effect>>, Thrown>)
    ensures r.Success? <==> forall k :: 0 <= k < |nids| ==> Step(plugin, FindNode(items, nids[k])).Success?
    ensures r.Success? ==> |r.value| == |nids|
    ensures r.Success? ==> forall k :: 0 <= k < |nids| ==> r.value[k] == Step(plugin, FindNode(items, nids[k])).value
    ensures r.Failure? ==> exists k :: 0 <= k < |nids| && Step(plugin, FindNode(items, nids[k])) == Failure(r.error)
    decreases |nids|
  {
    if |nids| == 0 then Success([])
    else
      match Step(plugin, FindNode(items, nids[0]))
      case Failure(e) => Failure(e)
      case Success(x) =>
        match MapNids(plugin, items, nids[1..])
        case Failure(e) => Failure(e)
        case Success(xs) => Success([x] + xs)
  }

  /** `.filter(x => x)`: the defined entries, in order. */
  function Compact(xs: seq<Option<Effect>>): (r: seq<Effect>)
    ensures |r| <= |xs|
    ensures forall e :: e in r <==> Some(e) in xs
    ensures (forall k :: 0 <= k < |xs| ==> xs[k].Some?) ==> |r| == |xs| && forall k :: 0 <= k < |r| ==> r[k] == xs[k].value
    ensures (forall k :: 0 <= k < |xs| ==> xs[k].None?) ==> r == []
    decreases |xs|
  {
    if |xs| == 0 then []
    else
      var rest := Compact(xs[1..]);
      assert forall x :: x in xs <==> x == xs[0] || x in xs[1..];
      match xs[0]
      case Some(e) => [e] + rest
      case None => rest
  }

  /** Compacting a concatenation compacts each part in place. With the
      all-defined and all-undefined cases of `Compact`'s own contract
      (one-element inputs among them) this fixes the order and
      multiplicity of the defined entries for every input. */
  lemma {:induction false} CompactAppend(xs: seq<Option<Effect>>, ys: seq<Option<Effect>>)
    ensures Compact(xs + ys) == Compact(xs) + Compact(ys)
    decreases |xs|
  {
    if |xs| > 0 {
      assert (xs + ys)[0] == xs[0];
      assert (xs + ys)[1..] == xs[1..] + ys;
      CompactAppend(xs[1..], ys);
    } else {
      assert xs + ys == ys;
    }
  }

  /** The effects the bulk action runs together, or what it throws. */
  function Fanout(plugin: string, items: seq<Resource>, nids: seq<string>): (r: Result<seq<Effect>, Thrown>)
    ensures PluginOf(plugin).Unsupported? ==> r == Success([])
    ensures PluginOf(plugin).DeletePlugin? ==> r.Success? && |r.value| == |nids|
    ensures PluginOf(plugin).DeletePlugin? ==>
      forall k :: 0 <= k < |nids| ==> r.value[k] == Put(ContentDelete(FindNode(items, nids[k])))
    ensures PluginOf(plugin).FlagPlugin? ==>
      (r.Success? <==> forall k :: 0 <= k < |nids| ==> FindNode(items, nids[k]).Some?)
    ensures PluginOf(plugin).FlagPlugin? && r.Success? ==> |r.value| == |nids|
    ensures PluginOf(plugin).FlagPlugin? && r.Success? ==>
      forall k :: 0 <= k < |nids| ==>
        SavesFlag(r.value[k], FindNode(items, nids[k]).value, PluginOf(plugin).flag, PluginOf(plugin).value)
    ensures r.Failure? ==> r.error == ReadOfUndefined("id")
  {
    match MapNids(PluginOf(plugin), items, nids)
    case Failure(e) => Failure(e)
    case Success(xs) => Success(Compact(xs))
  }
}
