/** The container detail page: the permission fetch that gates loading the
    container, the render order of its placeholders, the default tab and the
    state updates after an edit, a follow toggle or a soft delete. */
module ContainerPage {
  import opened Wrappers
  import opened JsValues
  import opened EntityPageCommon

  datatype ContainerPermissions = ContainerPermissions(
    editTags: bool,
    editGlossaryTerms: bool,
    editDescription: bool,
    editCustomAttribute: bool,
    editLineage: bool,
    viewBasic: bool,
    viewAll: bool)

  /** The permission memo of the page. */
  function DerivePermissions(p: Permissions, containerData: Option<Object>): (r: ContainerPermissions)
    ensures Truthy(DeletedFlag(containerData)) ==>
      !r.editTags && !r.editGlossaryTerms && !r.editDescription && !r.editCustomAttribute && !r.editLineage
    ensures !Truthy(DeletedFlag(containerData)) ==>
      (r.editTags <==> Allowed(p, "EditTags") || Allowed(p, "EditAll")) &&
      (r.editGlossaryTerms <==> Allowed(p, "EditGlossaryTerms") || Allowed(p, "EditAll")) &&
      (r.editDescription <==> Allowed(p, "EditDescription") || Allowed(p, "EditAll")) &&
      (r.editCustomAttribute <==> Allowed(p, "EditCustomFields") || Allowed(p, "EditAll")) &&
      (r.editLineage <==> Allowed(p, "EditLineage") || Allowed(p, "EditAll"))
    ensures r.viewBasic <==> Allowed(p, "ViewAll") || Allowed(p, "ViewBasic")
    ensures r.viewAll <==> Allowed(p, "ViewAll")
  {
    var deleted := DeletedFlag(containerData);
    ContainerPermissions(
      EditPermission(p, "EditTags", deleted),
      EditPermission(p, "EditGlossaryTerms", deleted),
      EditPermission(p, "EditDescription", deleted),
      EditPermission(p, "EditCustomFields", deleted),
      EditPermission(p, "EditLineage", deleted),
      ViewPermission(p, "ViewBasic"),
      Allowed(p, "ViewAll"))
  }

  /** lodash `isEmpty`: no own properties, no elements, or a value that is
      not a collection at all. */
  predicate IsEmptyValue(v: Value)
  {
    match v
    case Str(s) => s == ""
    case Arr(items) => items == []
    case Obj(fields) => fields == map[]
    case _ => true
  }

  /** `isEmpty(containerData?.dataModel)`. */
  function IsDataModelEmpty(containerData: Option<Object>): (r: bool)
    ensures containerData.None? ==> r
    ensures containerData.Some? && Get(containerData.value, "dataModel").Obj? ==>
      (r <==> Get(containerData.value, "dataModel").fields == map[])
  {
    containerData.None? || IsEmptyValue(Get(containerData.value, "dataModel"))
  }

  /** The shown tab: the route's tab, else the children tab for a container
      without a data model, else the schema tab. */
  function ActiveTab(tab: Option<string>, dataModelEmpty: bool, childrenTab: string, schemaTab: string): (r: string)
    ensures tab.Some? ==> r == tab.value
    ensures tab.None? && dataModelEmpty ==> r == childrenTab
    ensures tab.None? && !dataModelEmpty ==> r == schemaTab
  {
    match tab
    case Some(t) => t
    case None => if dataModelEmpty then childrenTab else schemaTab
  }

  /** The tabs: none until the container is loaded. */
  function ContainerTabs<T>(containerData: Option<Object>, detailTabs: Object -> seq<T>): (r: seq<T>)
    ensures containerData.None? ==> r == []
    ensures containerData.Some? ==> r == detailTabs(containerData.value)
  {
    if containerData.None? then [] else detailTabs(containerData.value)
  }

  /** What the page renders. */
  datatype PageView = LoaderView | EntityMissing | PermissionPlaceholder | EmptyPlaceholder | DetailsView

  /** The first condition that holds decides: loading, then an error, then a
      missing view permission, then missing data. */
  function RenderedView(isLoading: bool, hasError: bool, viewBasic: bool, containerData: Option<Object>): (r: PageView)
    ensures r == LoaderView <==> isLoading
    ensures r == EntityMissing <==> !isLoading && hasError
    ensures r == PermissionPlaceholder <==> !isLoading && !hasError && !viewBasic
    ensures r == EmptyPlaceholder <==> !isLoading && !hasError && viewBasic && containerData.None?
    ensures r == DetailsView <==> !isLoading && !hasError && viewBasic && containerData.Some?
  {
    if isLoading then LoaderView
    else if hasError then EntityMissing
    else if !viewBasic then PermissionPlaceholder
    else if containerData.None? then EmptyPlaceholder
    else DetailsView
  }

  /** `handleUpdateContainerData`: a patch from the current container without
      its undefined properties to the edited one, for its id (`''` when it
      has none). */
  datatype PatchCall<P> = PatchCall(id: Value, patch: P)

  function HandleUpdateContainerData<P>(containerData: Option<Object>, updated: Object,
                                        compare: (Object, Object) -> P): (r: PatchCall<P>)
    ensures containerData.None? ==> r == PatchCall(Str(""), compare(map[], updated))
    ensures containerData.Some? ==>
      r == PatchCall(Coalesce(Get(containerData.value, "id"), Str("")), compare(OmitUndefined(containerData.value), updated))
  {
    match containerData
    case None => PatchCall(Str(""), compare(map[], updated))
    case Some(c) => PatchCall(Coalesce(Get(c, "id"), Str("")), compare(OmitUndefined(c), updated))
  }

  /** `{...(prev as Container), [field]: res[field], version: res.version}`:
      the updaters with no undefined-state guard, which build an object even
      from an undefined state. */
  function TakeFromResponse(prev: Option<Object>, res: Object, field: string): (r: Object)
    requires field != "version"
    ensures Get(r, field) == Get(res, field) && Get(r, "version") == Get(res, "version")
    ensures prev.Some? ==> forall k :: k != field && k != "version" ==> Get(r, k) == Get(prev.value, k)
    ensures prev.None? ==> forall k :: k != field && k != "version" ==> Get(r, k) == Undefined
  {
    var base := if prev.Some? then prev.value else map[];
    SetProps(base, map[field := Get(res, field), "version" := Get(res, "version")])
  }

  /** The display-name updater, which keeps an undefined state undefined. */
  function DisplayNameUpdate(prev: Option<Object>, res: Object): (r: Option<Object>)
    ensures prev.None? <==> r.None?
    ensures r.Some? ==> r.value == TakeFromResponse(prev, res, "displayName")
  {
    if prev.None? then None else Some(TakeFromResponse(prev, res, "displayName"))
  }

  /** An owner update changes the owners and the version and nothing else. */
  lemma OwnerUpdateChangesOnlyOwners(prev: Object, res: Object)
    ensures var r := TakeFromResponse(Some(prev), res, "owners");
      forall k :: Get(r, k) != Get(prev, k) ==> k == "owners" || k == "version"
  {
  }

  /** The follow toggle: when following, the followers the page showed
      without the removed id; otherwise those followers and then the added
      ones. The state is spread without a guard, so an undefined state
      becomes an object holding only the followers. When spreading the
      followers throws, the state stays as it is. */
  function FollowToggle(prev: Option<Object>, shownFollowers: Value, isFollowing: bool,
                        newValue: Value, oldValue: Value): (r: Option<Object>)
    ensures isFollowing && RemovedId(oldValue).None? ==> r == prev
    ensures isFollowing && RemovedId(oldValue).Some? ==>
      r.Some? && Get(r.value, "followers") == Arr(Unfollowed(Items(shownFollowers), RemovedId(oldValue).value))
    ensures !isFollowing && Followed(shownFollowers, newValue).None? ==> r == prev
    ensures !isFollowing && Followed(shownFollowers, newValue).Some? ==>
      r.Some? && Get(r.value, "followers") == Arr(Items(shownFollowers) + newValue.items)
    ensures r.Some? && prev.Some? ==> forall k :: k != "followers" ==> Get(r.value, k) == Get(prev.value, k)
    ensures r.Some? && prev.None? ==> forall k :: k != "followers" ==> Get(r.value, k) == Undefined
  {
    var base := if prev.Some? then prev.value else map[];
    if isFollowing then
      match RemovedId(oldValue)
      case None => prev
      case Some(id) => Some(SetProps(base, map["followers" := Arr(Unfollowed(Items(shownFollowers), id))]))
    else
      match Followed(shownFollowers, newValue)
      case None => prev
      case Some(followers) => Some(SetProps(base, map["followers" := Arr(followers)]))
  }

  /** The page state. */
  class ContainerPageState {
    var containerData: Option<Object>
    var permissions: Permissions
    var isLoading: bool
    var hasError: bool
    var feedCountRequested: bool

    constructor()
      ensures containerData.None? && permissions == map[]
      ensures isLoading && !hasError && !feedCountRequested
    {
      containerData := None;
      permissions := map[];
      isLoading := true;
      hasError := false;
      feedCountRequested := false;
    }

    function View(): PageView
      reads this
    {
      RenderedView(isLoading, hasError, ViewPermission(permissions, "ViewBasic"), containerData)
    }

    /** `fetchResourcePermission`: `permission` is the fetched permission
        (None when the request fails) and `detail` the container the detail
        request returns (None when it fails). The container and its feed
        counts are requested only with ViewAll or ViewBasic. */
    method FetchResourcePermission(permission: Option<Permissions>, detail: Option<Object>)
      returns (fetchedDetails: bool)
      modifies this
      ensures fetchedDetails <==> permission.Some? && ViewPermission(permission.value, "ViewBasic")
      ensures permissions == if permission.Some? then permission.value else old(permissions)
      ensures fetchedDetails ==> feedCountRequested
      ensures !fetchedDetails ==> feedCountRequested == old(feedCountRequested)
      ensures fetchedDetails && detail.Some? ==> containerData == detail && hasError == old(hasError)
      ensures fetchedDetails && detail.None? ==> containerData == old(containerData) && hasError
      ensures !fetchedDetails ==> containerData == old(containerData) && hasError == old(hasError)
      ensures !isLoading
      ensures permission.Some? && !fetchedDetails && !old(hasError) ==> View() == PermissionPlaceholder
      ensures fetchedDetails && detail.Some? && !old(hasError) ==> View() == DetailsView
    {
      fetchedDetails := false;
      if permission.Some? {
        permissions := permission.value;
        if ViewPermission(permissions, "ViewBasic") {
          isLoading := true;
          match detail {
            case Some(d) => containerData := Some(d);
            case None => hasError := true;
          }
          isLoading := false;
          feedCountRequested := true;
          fetchedDetails := true;
        }
      }
      isLoading := false;
    }

    /** `handleUpdateDisplayName`: nothing happens while no container is
        loaded. */
    method HandleUpdateDisplayName(res: Object)
      modifies this
      ensures old(containerData).None? ==> containerData == old(containerData)
      ensures old(containerData).Some? ==> containerData == DisplayNameUpdate(old(containerData), res)
      ensures permissions == old(permissions) && isLoading == old(isLoading) && hasError == old(hasError)
      ensures feedCountRequested == old(feedCountRequested)
    {
      if containerData.Some? {
        containerData := DisplayNameUpdate(containerData, res);
      }
    }

    method HandleFollowContainer(userId: Value, newValue: Value, oldValue: Value)
      modifies this
      ensures containerData == FollowToggle(old(containerData), FollowersOf(old(containerData)),
        IsFollowing(FollowersOf(old(containerData)), userId), newValue, oldValue)
      ensures permissions == old(permissions) && isLoading == old(isLoading) && hasError == old(hasError)
      ensures feedCountRequested == old(feedCountRequested)
    {
      var shown := FollowersOf(containerData);
      containerData := FollowToggle(containerData, shown, IsFollowing(shown, userId), newValue, oldValue);
    }

    /** `handleUpdateOwner` (field "owners") and `handleUpdateTier` (field
        "tags"). */
    method HandleUpdateFromResponse(res: Object, field: string)
      requires field != "version"
      modifies this
      ensures containerData == Some(TakeFromResponse(old(containerData), res, field))
      ensures permissions == old(permissions) && isLoading == old(isLoading) && hasError == old(hasError)
      ensures feedCountRequested == old(feedCountRequested)
    {
      containerData := Some(TakeFromResponse(containerData, res, field));
    }

    method HandleToggleDelete(version: Value)
      modifies this
      ensures containerData == ToggleDelete(old(containerData), version)
      ensures permissions == old(permissions) && isLoading == old(isLoading) && hasError == old(hasError)
      ensures feedCountRequested == old(feedCountRequested)
    {
      containerData := ToggleDelete(containerData, version);
    }

    method AfterDomainUpdateAction(updated: Object)
      modifies this
      ensures containerData == Some(AfterDomainUpdate(old(containerData), updated))
      ensures permissions == old(permissions) && isLoading == old(isLoading) && hasError == old(hasError)
      ensures feedCountRequested == old(feedCountRequested)
    {
      containerData := Some(AfterDomainUpdate(containerData, updated));
    }

    /** `handleExtensionUpdate`: the response replaces the container. */
    method HandleExtensionUpdate(response: Object)
      modifies this
      ensures old(containerData).None? ==> containerData == old(containerData)
      ensures old(containerData).Some? ==> containerData == Some(response)
      ensures permissions == old(permissions) && isLoading == old(isLoading) && hasError == old(hasError)
      ensures feedCountRequested == old(feedCountRequested)
    {
      if containerData.Some? {
        containerData := Some(response);
      }
    }

    /** `handleContainerUpdate`: `{...prev, ...updatedContainer}`. */
    method HandleContainerUpdate(updatedContainer: Object)
      modifies this
      ensures containerData == MergeResponse(old(containerData), updatedContainer, None)
      ensures permissions == old(permissions) && isLoading == old(isLoading) && hasError == old(hasError)
      ensures feedCountRequested == old(feedCountRequested)
    {
      containerData := MergeResponse(containerData, updatedContainer, None);
    }
  }
}
