/** The stored-procedure detail page: the permissions it derives, the
    follow/unfollow, soft-delete and update handlers and the request an
    update makes. The page state is a class whose methods apply the same
    updaters the page hands to `setStoredProcedure`. */
module StoredProcedurePage {
  import opened Wrappers
  import opened JsValues
  import opened EntityPageCommon

  datatype ProcedurePermissions = ProcedurePermissions(
    editTags: bool,
    editGlossaryTerms: bool,
    editDescription: bool,
    editCustomAttribute: bool,
    editLineage: bool,
    viewAll: bool,
    viewBasic: bool)

  /** The permission memo of the page. */
  function DerivePermissions(p: Permissions, storedProcedure: Option<Object>): (r: ProcedurePermissions)
    ensures Truthy(DeletedFlag(storedProcedure)) ==>
      !r.editTags && !r.editGlossaryTerms && !r.editDescription && !r.editCustomAttribute && !r.editLineage
    ensures !Truthy(DeletedFlag(storedProcedure)) ==>
      (r.editTags <==> Allowed(p, "EditTags") || Allowed(p, "EditAll")) &&
      (r.editGlossaryTerms <==> Allowed(p, "EditGlossaryTerms") || Allowed(p, "EditAll")) &&
      (r.editDescription <==> Allowed(p, "EditDescription") || Allowed(p, "EditAll")) &&
      (r.editCustomAttribute <==> Allowed(p, "EditCustomFields") || Allowed(p, "EditAll")) &&
      (r.editLineage <==> Allowed(p, "EditLineage") || Allowed(p, "EditAll"))
    ensures r.viewAll <==> Allowed(p, "ViewAll")
    ensures r.viewBasic <==> Allowed(p, "ViewAll") || Allowed(p, "ViewBasic")
  {
    var deleted := DeletedFlag(storedProcedure);
    ProcedurePermissions(
      EditPermission(p, "EditTags", deleted),
      EditPermission(p, "EditGlossaryTerms", deleted),
      EditPermission(p, "EditDescription", deleted),
      EditPermission(p, "EditCustomFields", deleted),
      EditPermission(p, "EditLineage", deleted),
      Allowed(p, "ViewAll"),
      ViewPermission(p, "ViewBasic"))
  }

  /** With EditAll on an entity that is not deleted, every edit is allowed. */
  lemma EditAllUnlocksProcedure(p: Permissions, storedProcedure: Option<Object>)
    requires Allowed(p, "EditAll") && !Truthy(DeletedFlag(storedProcedure))
    ensures var r := DerivePermissions(p, storedProcedure);
      r.editTags && r.editGlossaryTerms && r.editDescription && r.editCustomAttribute && r.editLineage
  {
  }

  /** What saving an edit does: with no entity loaded the edited data comes
      straight back; otherwise a JSON patch from the current entity to the
      edited one is sent for the entity's id. The destructuring default and
      the `?? ''` of the call together send "" for an undefined or null id. */
  datatype SaveRequest<P> = ReturnAsIs(data: Object) | PatchRequest(id: Value, patch: P)

  function SaveUpdatedStoredProceduresData<P>(storedProcedure: Option<Object>, updated: Object,
                                              compare: (Object, Object) -> P): (r: SaveRequest<P>)
    ensures storedProcedure.None? <==> r.ReturnAsIs?
    ensures r.ReturnAsIs? ==> r.data == updated
    ensures r.PatchRequest? ==>
      r.patch == compare(storedProcedure.value, updated) &&
      var id := Get(storedProcedure.value, "id");
      r.id == (if id.Undefined? || id.Null? then Str("") else id)
  {
    match storedProcedure
    case None => ReturnAsIs(updated)
    case Some(sp) => PatchRequest(Coalesce(WithDefault(Get(sp, "id"), Str("")), Str("")), compare(sp, updated))
  }

  /** The extension updater: only the extension is taken from the response. */
  function ExtensionUpdate(prev: Option<Object>, response: Object): (r: Option<Object>)
    ensures prev.None? <==> r.None?
    ensures r.Some? ==> Get(r.value, "extension") == Get(response, "extension")
    ensures r.Some? ==> forall k :: k != "extension" ==> Get(r.value, k) == Get(prev.value, k)
  {
    EditField(prev, "extension", Get(response, "extension"))
  }

  /** The page state. */
  class StoredProcedurePageState {
    var storedProcedure: Option<Object>
    var permissions: Permissions
    var activeTab: string

    /** The entity is undefined and no permission is granted until fetched;
        the route's tab defaults to the code tab. */
    constructor(tab: Option<string>, codeTab: string)
      ensures storedProcedure.None? && permissions == map[]
      ensures activeTab == tab.GetOr(codeTab)
    {
      storedProcedure := None;
      permissions := map[];
      activeTab := tab.GetOr(codeTab);
    }

    method HandleStoreProcedureUpdate(res: Object, key: Option<string>)
      modifies this
      ensures storedProcedure == MergeResponse(old(storedProcedure), res, key)
      ensures permissions == old(permissions) && activeTab == old(activeTab)
    {
      storedProcedure := MergeResponse(storedProcedure, res, key);
    }

    method HandleFollow(userId: Value, knownFollowers: Value, newValue: Value, oldValue: Value)
      returns (followed: bool)
      modifies this
      ensures followed <==> !IsFollowing(FollowersOf(old(storedProcedure)), userId)
      ensures followed ==> storedProcedure == FollowEntity(old(storedProcedure), knownFollowers, newValue)
      ensures !followed ==> storedProcedure == UnFollowEntity(old(storedProcedure), oldValue)
      ensures permissions == old(permissions) && activeTab == old(activeTab)
    {
      if IsFollowing(FollowersOf(storedProcedure), userId) {
        storedProcedure := UnFollowEntity(storedProcedure, oldValue);
        followed := false;
      } else {
        storedProcedure := FollowEntity(storedProcedure, knownFollowers, newValue);
        followed := true;
      }
    }

    method HandleToggleDelete(version: Value)
      modifies this
      ensures storedProcedure == ToggleDelete(old(storedProcedure), version)
      ensures permissions == old(permissions) && activeTab == old(activeTab)
    {
      storedProcedure := ToggleDelete(storedProcedure, version);
    }

    /** A soft delete toggles the flag; a hard delete leaves the page for
        the home route. */
    method AfterDeleteAction(isSoftDelete: bool, version: Value) returns (goHome: bool)
      modifies this
      ensures goHome <==> !isSoftDelete
      ensures isSoftDelete ==> storedProcedure == ToggleDelete(old(storedProcedure), version)
      ensures !isSoftDelete ==> storedProcedure == old(storedProcedure)
      ensures permissions == old(permissions) && activeTab == old(activeTab)
    {
      goHome := !isSoftDelete;
      if isSoftDelete {
        HandleToggleDelete(version);
      }
    }

    method AfterDomainUpdateAction(updated: Object)
      modifies this
      ensures storedProcedure == Some(AfterDomainUpdate(old(storedProcedure), updated))
      ensures permissions == old(permissions) && activeTab == old(activeTab)
    {
      storedProcedure := Some(AfterDomainUpdate(storedProcedure, updated));
    }

    method OnExtensionUpdate(response: Object)
      modifies this
      ensures storedProcedure == ExtensionUpdate(old(storedProcedure), response)
      ensures permissions == old(permissions) && activeTab == old(activeTab)
    {
      storedProcedure := ExtensionUpdate(storedProcedure, response);
    }
  }
}
