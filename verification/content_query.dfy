/** The JSON:API query that the content-list saga builds from the list
    options: filter, sort, page and include members. */
module ContentQuery {
  import opened Wrappers

  datatype Sort = Sort(path: string, direction: string)

  datatype Page = Page(offset: int, limit: int)

  /** The options of a content-list request. A field left out of the
      request object reads as `None` (or the empty list). */
  datatype QueryOptions = QueryOptions(
    title: Option<string>,
    contentTypes: seq<string>,
    status: Option<string>,
    sort: Option<Sort>,
    page: Option<Page>)

  const NoOptions := QueryOptions(None, [], None, None, None)

  /** One member of the `filter` object. */
  datatype FilterMember =
      /** `{ path, operator, value }` */
    | PathCondition(path: string, operator: string, value: string)
      /** `{ group: { conjunction } }` */
    | GroupMember(conjunction: string)
      /** `{}` */
    | EmptyMember
      /** `{ condition: { value, path, memberOf } }` */
    | MembershipCondition(value: string, path: string, memberOf: string)
      /** `{ value }` */
    | StatusCondition(flag: int)

  type Filter = map<string, FilterMember>

  /** The query string; `None` members are absent from the object. */
  datatype Query = Query(
    filter: Option<Filter>,
    sort: Option<string>,
    page: Option<Page>,
    includes: string)

  /** A string option that is set and non-empty (`s && s.length`). */
  predicate Present(s: Option<string>) {
    s.Some? && |s.value| > 0
  }

  /** The filter key of a requested content type. */
  function TypeKey(t: string): string {
    "type" + t
  }

  function TypeCondition(t: string): FilterMember {
    MembershipCondition(t, "type", "typeGroup")
  }

  lemma TypeKeyInjective(t: string, u: string)
    ensures TypeKey(t) == TypeKey(u) ==> t == u
  {
    if TypeKey(t) == TypeKey(u) {
      assert t == TypeKey(t)[4..];
      assert u == TypeKey(u)[4..];
    }
  }

  /** The key of a type that was not requested is not among the keys of
      the requested ones. */
  lemma TypeKeyNotRequested(types: seq<string>, name: string)
    requires name !in types
    ensures TypeKey(name) !in TypeKeys(types)
  {
    forall t | t in types
      ensures TypeKey(t) != TypeKey(name)
    {
      TypeKeyInjective(t, name);
    }
  }

  /** "title" and "status" are never the key of a content type. */
  lemma TypeKeysAvoidOthers(t: string)
    ensures TypeKey(t) != "title" && TypeKey(t) != "status"
  {
    assert TypeKey(t)[1] == 'y';
    assert TypeKey(t)[0] == 't';
  }

  /** The `sort` member: the path, prefixed with `-` exactly when the
      direction is `DESC`. */
  function SortParam(sort: Option<Sort>): (r: Option<string>)
    ensures r.Some? <==> sort.Some?
    ensures sort.Some? && sort.value.direction == "DESC" ==> r.value == "-" + sort.value.path
    ensures sort.Some? && sort.value.direction != "DESC" ==> r.value == sort.value.path
  {
    match sort
    case None => None
    case Some(s) => Some((if s.direction == "DESC" then "-" else "") + s.path)
  }

  /** How the backend reads a `sort` member: the path, and whether it is
      descending. */
  function ReadSort(param: string): (string, bool) {
    if |param| > 0 && param[0] == '-' then (param[1..], true) else (param, false)
  }

  /** The `sort` member carries the path and the direction, provided the
      path does not itself start with `-`. */
  lemma SortRoundTrip(s: Sort)
    requires |s.path| == 0 || s.path[0] != '-'
    ensures ReadSort(SortParam(Some(s)).value) == (s.path, s.direction == "DESC")
  {
  }

  /** The filter keys of the requested content types. */
  function TypeKeys(types: seq<string>): set<string> {
    set t | t in types :: TypeKey(t)
  }

  /** No content-type key is "title" or "status". */
  lemma TypeKeysAvoidTitleAndStatus(types: seq<string>)
    ensures "title" !in TypeKeys(types) && "status" !in TypeKeys(types)
  {
    forall t | t in types
      ensures TypeKey(t) != "title" && TypeKey(t) != "status"
    {
      TypeKeysAvoidOthers(t);
    }
  }

  /** The group and placeholder keys are content-type keys only when a
      type of that name is requested. */
  lemma PlaceholderKeys(types: seq<string>)
    ensures "Group" !in types ==> "typeGroup" !in TypeKeys(types)
    ensures "article" !in types ==> "typearticle" !in TypeKeys(types)
    ensures "page" !in types ==> "typepage" !in TypeKeys(types)
  {
    if "Group" !in types {
      assert TypeKey("Group") == "typeGroup";
      TypeKeyNotRequested(types, "Group");
    }
    if "article" !in types {
      assert TypeKey("article") == "typearticle";
      TypeKeyNotRequested(types, "article");
    }
    if "page" !in types {
      assert TypeKey("page") == "typepage";
      TypeKeyNotRequested(types, "page");
    }
  }

  /** The members contributed by the requested content types, one per
      distinct type, folded left to right as `reduce` does. */
  function TypeMembers(types: seq<string>): (m: Filter)
    ensures m.Keys == TypeKeys(types)
    ensures forall t :: t in types ==> m[TypeKey(t)] == TypeCondition(t)
    decreases |types|
  {
    if |types| == 0 then map[]
    else
      var last := types[|types| - 1];
      var prefix := types[..|types| - 1];
      assert forall t :: t in types ==> t in prefix || t == last;
      assert forall t :: t in prefix && t != last ==> TypeKey(t) != TypeKey(last) by {
        forall t | t in prefix && t != last
          ensures TypeKey(t) != TypeKey(last)
        {
          TypeKeyInjective(t, last);
        }
      }
      TypeMembers(prefix)[TypeKey(last) := TypeCondition(last)]
  }

  /** The content-type part of the filter: the `OR` group, the
      `typearticle` and `typepage` placeholders, then one membership
      condition per requested type, the later overwriting the earlier. */
  function TypesFilter(types: seq<string>): (m: Filter)
    ensures m.Keys == {"typeGroup", "typearticle", "typepage"} + TypeKeys(types)
    ensures forall t :: t in types ==> m[TypeKey(t)] == TypeCondition(t)
    ensures "Group" !in types ==> m["typeGroup"] == GroupMember("OR")
    ensures "article" !in types ==> m["typearticle"] == EmptyMember
    ensures "page" !in types ==> m["typepage"] == EmptyMember
  {
    var members := TypeMembers(types);
    PlaceholderKeys(types);
    map["typeGroup" := GroupMember("OR"), "typearticle" := EmptyMember, "typepage" := EmptyMember] + members
  }

  lemma TypesFilterAvoidsTitleAndStatus(types: seq<string>)
    ensures |types| > 0 ==> "title" !in TypesFilter(types) && "status" !in TypesFilter(types)
  {
    if |types| > 0 {
      TypeKeysAvoidTitleAndStatus(types);
      var keys := TypesFilter(types).Keys;
      assert keys == {"typeGroup", "typearticle", "typepage"} + TypeKeys(types);
    }
  }

  function TitleMembers(title: Option<string>): Filter {
    if Present(title) then map["title" := PathCondition("title", "CONTAINS", title.value)] else map[]
  }

  function StatusValue(status: string): int {
    if status == "published" then 1 else 0
  }

  /** The `filter` object before the empty-filter check: title, content
      types and status, merged in that order with later keys winning. */
  function BuildFilter(o: QueryOptions): (f: Filter)
    ensures "title" in f <==> Present(o.title)
    ensures Present(o.title) ==> f["title"] == PathCondition("title", "CONTAINS", o.title.value)
    ensures "status" in f <==> Present(o.status)
    ensures Present(o.status) ==> f["status"] == StatusCondition(if o.status.value == "published" then 1 else 0)
    ensures f.Keys ==
      (if Present(o.title) then {"title"} else {})
      + (if |o.contentTypes| > 0 then {"typeGroup", "typearticle", "typepage"} + TypeKeys(o.contentTypes) else {})
      + (if Present(o.status) then {"status"} else {})
  {
    var withTitle := TitleMembers(o.title);
    var withTypes := if |o.contentTypes| > 0 then withTitle + TypesFilter(o.contentTypes) else withTitle;
    TypesFilterAvoidsTitleAndStatus(o.contentTypes);
    assert "title" in withTypes <==> Present(o.title);
    assert Present(o.title) ==> withTypes["title"] == withTitle["title"];
    assert "status" !in withTypes;
    if Present(o.status) then withTypes["status" := StatusCondition(StatusValue(o.status.value))]
    else withTypes
  }

  /** A requested content type has its membership condition in the
      finished filter. */
  lemma RequestedTypeMember(o: QueryOptions, t: string)
    requires t in o.contentTypes
    ensures TypeKey(t) in BuildFilter(o) && BuildFilter(o)[TypeKey(t)] == TypeCondition(t)
  {
    TypeKeysAvoidOthers(t);
    assert TypeKey(t) in TypesFilter(o.contentTypes);
  }

  /** Once a content type is requested, the `OR` group and the two
      placeholders are in the finished filter, unchanged unless a
      requested type of the same name overwrote them. */
  lemma GroupAndPlaceholders(o: QueryOptions)
    requires |o.contentTypes| > 0
    ensures "typeGroup" in BuildFilter(o) && "typearticle" in BuildFilter(o) && "typepage" in BuildFilter(o)
    ensures "Group" !in o.contentTypes ==> BuildFilter(o)["typeGroup"] == GroupMember("OR")
    ensures "article" !in o.contentTypes ==> BuildFilter(o)["typearticle"] == EmptyMember
    ensures "page" !in o.contentTypes ==> BuildFilter(o)["typepage"] == EmptyMember
  {
  }

  /** The query object sent with the content-list request. */
  function BuildQuery(o: QueryOptions): (q: Query)
    ensures q.includes == "uid"
    ensures q.filter.None? <==> !Present(o.title) && |o.contentTypes| == 0 && !Present(o.status)
    ensures q.filter.Some? ==> q.filter.value == BuildFilter(o)
    ensures q.sort == SortParam(o.sort)
    ensures q.page == o.page
  {
    var f := BuildFilter(o);
    Query(if |f| == 0 then None else Some(f), SortParam(o.sort), o.page, "uid")
  }
}
