/** The search-index detail page: its permissions, the patch an update
    sends, the description edit and the page state with its follow and
    soft-delete handlers. */
module SearchIndexDetailsPage {
  import opened Wrappers
  import opened JsValues
  import opened EntityPageCommon

  /** Viewing needs ViewAll or ViewBasic. */
  function ViewPermissionOf(p: Permissions): (r: bool)
    ensures r <==> Allowed(p, "ViewAll") || Allowed(p, "ViewBasic")
  {
    ViewPermission(p, "ViewBasic")
  }

  datatype IndexPermissions = IndexPermissions(
    editTags: bool,
    editGlossaryTerms: bool,
    editDescription: bool,
    editCustomAttribute: bool,
    editLineage: bool,
    viewSampleData: bool,
    viewAll: bool)

  /** The permission memo of the page. */
  function DerivePermissions(p: Permissions, details: Option<Object>): (r: IndexPermissions)
    ensures Truthy(DeletedFlag(details)) ==>
      !r.editTags && !r.editGlossaryTerms && !r.editDescription && !r.editCustomAttribute && !r.editLineage
    ensures !Truthy(DeletedFlag(details)) ==>
      (r.editTags <==> Allowed(p, "EditTags") || Allowed(p, "EditAll")) &&
      (r.editGlossaryTerms <==> Allowed(p, "EditGlossaryTerms") || Allowed(p, "EditAll")) &&
      (r.editDescription <==> Allowed(p, "EditDescription") || Allowed(p, "EditAll")) &&
      (r.editCustomAttribute <==> Allowed(p, "EditCustomFields") || Allowed(p, "EditAll")) &&
      (r.editLineage <==> Allowed(p, "EditLineage") || Allowed(p, "EditAll"))
    ensures r.viewSampleData <==> Allowed(p, "ViewAll") || Allowed(p, "ViewSampleData")
    ensures r.viewAll <==> Allowed(p, "ViewAll")
  {
    var deleted := DeletedFlag(details);
    IndexPermissions(
      EditPermission(p, "EditTags", deleted),
      EditPermission(p, "EditGlossaryTerms", deleted),
      EditPermission(p, "EditDescription", deleted),
      EditPermission(p, "EditCustomFields", deleted),
      EditPermission(p, "EditLineage", deleted),
      ViewPermission(p, "ViewSampleData"),
      Allowed(p, "ViewAll"))
  }

  /** Sample data is visible to whoever may view everything, deleted or not. */
  lemma ViewAllSeesEverything(p: Permissions, details: Option<Object>)
    requires Allowed(p, "ViewAll")
    ensures ViewPermissionOf(p) && DerivePermissions(p, details).viewSampleData && DerivePermissions(p, details).viewAll
  {
  }

  /** `saveUpdatedSearchIndexData`: a patch from the current details with
      their undefined properties left out (`omitBy(details, isUndefined)`,
      `{}` while none are loaded) to the edited data, for the memo's id
      (`''` by default). */
  datatype PatchCall<P> = PatchCall(id: Value, patch: P)

  function SaveUpdatedSearchIndexData<P>(details: Option<Object>, updated: Object,
                                         compare: (Object, Object) -> P): (r: PatchCall<P>)
    ensures details.None? ==> r.patch == compare(map[], updated) && r.id == Str("")
    ensures details.Some? ==>
      r.patch == compare(OmitUndefined(details.value), updated) &&
      r.id == WithDefault(Get(details.value, "id"), Str(""))
  {
    var current := if details.Some? then OmitUndefined(details.value) else map[];
    var id := if details.Some? then WithDefault(Get(details.value, "id"), Str("")) else Str("");
    PatchCall(id, compare(current, updated))
  }

  /** The patch base never holds an undefined property, so an entity and its
      copy without undefined properties give the same patch. */
  lemma PatchBaseIgnoresUndefined<P>(details: Object, updated: Object, compare: (Object, Object) -> P)
    ensures SaveUpdatedSearchIndexData(Some(details), updated, compare).patch
         == SaveUpdatedSearchIndexData(Some(OmitUndefined(details)), updated, compare).patch
  {
    var o := OmitUndefined(details);
    assert OmitUndefined(o) == o;
  }

  /** `onDescriptionUpdate`: the edited data to send, or nothing when no
      details are loaded or the text is the current description. */
  function DescriptionEdit(details: Option<Object>, updatedHTML: string): (r: Option<Object>)
    ensures r.Some? <==> details.Some? && Get(details.value, "description") != Str(updatedHTML)
    ensures r.Some? ==> Get(r.value, "description") == Str(updatedHTML)
    ensures r.Some? ==> forall k :: k != "description" ==> Get(r.value, k) == Get(details.value, k)
  {
    if details.Some? && Get(details.value, "description") != Str(updatedHTML) then
      EditField(details, "description", Str(updatedHTML))
    else None
  }

  /** Saving the description that is already shown sends nothing, and a
      sent description edit changes only the description. */
  lemma DescriptionEditIsIdempotent(details: Object, updatedHTML: string)
    ensures var r := DescriptionEdit(Some(details), updatedHTML);
      r.Some? ==> DescriptionEdit(r, updatedHTML).None?
  {
  }

  /** The page state. */
  class SearchIndexPageState {
    var searchIndexDetails: Option<Object>
    var permissions: Permissions

    constructor()
      ensures searchIndexDetails.None? && permissions == map[]
    {
      searchIndexDetails := None;
      permissions := map[];
    }

    method OnSearchIndexUpdate(res: Object, key: Option<string>)
      modifies this
      ensures searchIndexDetails == MergeResponse(old(searchIndexDetails), res, key)
      ensures permissions == old(permissions)
    {
      searchIndexDetails := MergeResponse(searchIndexDetails, res, key);
    }

    method HandleToggleDelete(version: Value)
      modifies this
      ensures searchIndexDetails == ToggleDelete(old(searchIndexDetails), version)
      ensures permissions == old(permissions)
    {
      searchIndexDetails := ToggleDelete(searchIndexDetails, version);
    }

    /** `handleFollowSearchIndex`: unfollow when the user already follows
        (the memo's followers default to `[]`), follow otherwise. */
    method HandleFollowSearchIndex(userId: Value, knownFollowers: Value, newValue: Value, oldValue: Value)
      returns (followed: bool)
      modifies this
      ensures followed <==> !IsFollowing(WithDefault(FollowersOf(old(searchIndexDetails)), Arr([])), userId)
      ensures followed ==> searchIndexDetails == FollowEntity(old(searchIndexDetails), knownFollowers, newValue)
      ensures !followed ==> searchIndexDetails == UnFollowEntity(old(searchIndexDetails), oldValue)
      ensures permissions == old(permissions)
    {
      if IsFollowing(WithDefault(FollowersOf(searchIndexDetails), Arr([])), userId) {
        searchIndexDetails := UnFollowEntity(searchIndexDetails, oldValue);
        followed := false;
      } else {
        searchIndexDetails := FollowEntity(searchIndexDetails, knownFollowers, newValue);
        followed := true;
      }
    }
  }
}
