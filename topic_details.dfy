/** The topic detail component: its permissions, which follow handler the
    follow button calls, tab navigation and the update it hands to the
    page's `onTopicUpdate` for a description, tag or one-field edit. The
    topic is always loaded here: it arrives as a property. */
module TopicDetails {
  import opened Wrappers
  import opened JsValues
  import opened EntityPageCommon

  datatype TopicPermissions = TopicPermissions(
    editTags: bool,
    editGlossaryTerms: bool,
    editDescription: bool,
    editCustomAttribute: bool,
    editAll: bool,
    editLineage: bool,
    viewSampleData: bool,
    viewAll: bool)

  /** The permission memo of the component. */
  function DerivePermissions(p: Permissions, topicDetails: Object): (r: TopicPermissions)
    ensures Truthy(Get(topicDetails, "deleted")) ==>
      !r.editTags && !r.editGlossaryTerms && !r.editDescription && !r.editCustomAttribute &&
      !r.editAll && !r.editLineage
    ensures !Truthy(Get(topicDetails, "deleted")) ==>
      (r.editTags <==> Allowed(p, "EditTags") || Allowed(p, "EditAll")) &&
      (r.editGlossaryTerms <==> Allowed(p, "EditGlossaryTerms") || Allowed(p, "EditAll")) &&
      (r.editDescription <==> Allowed(p, "EditDescription") || Allowed(p, "EditAll")) &&
      (r.editCustomAttribute <==> Allowed(p, "EditCustomFields") || Allowed(p, "EditAll")) &&
      (r.editAll <==> Allowed(p, "EditAll")) &&
      (r.editLineage <==> Allowed(p, "EditLineage") || Allowed(p, "EditAll"))
    ensures r.viewSampleData <==> Allowed(p, "ViewAll") || Allowed(p, "ViewSampleData")
    ensures r.viewAll <==> Allowed(p, "ViewAll")
  {
    var deleted := Get(topicDetails, "deleted");
    TopicPermissions(
      EditPermission(p, "EditTags", deleted),
      EditPermission(p, "EditGlossaryTerms", deleted),
      EditPermission(p, "EditDescription", deleted),
      EditPermission(p, "EditCustomFields", deleted),
      Allowed(p, "EditAll") && !Truthy(deleted),
      EditPermission(p, "EditLineage", deleted),
      ViewPermission(p, "ViewSampleData"),
      Allowed(p, "ViewAll"))
  }

  /** editAll implies each specific edit permission. */
  lemma EditAllImpliesEachEdit(p: Permissions, topicDetails: Object)
    ensures var r := DerivePermissions(p, topicDetails);
      r.editAll ==> r.editTags && r.editGlossaryTerms && r.editDescription && r.editCustomAttribute && r.editLineage
  {
  }

  datatype FollowHandler = UnFollowTopicHandler | FollowTopicHandler

  /** `followTopic`: unfollow when a follower (the followers default to
      `[]`) has the current user's id, follow otherwise. */
  function FollowTopic(topicDetails: Object, userId: Value): (r: FollowHandler)
    ensures r == UnFollowTopicHandler <==>
      exists i :: 0 <= i < |Items(Get(topicDetails, "followers"))| && FollowedBy(Items(Get(topicDetails, "followers"))[i], userId)
  {
    if IsFollowing(Get(topicDetails, "followers"), userId) then UnFollowTopicHandler else FollowTopicHandler
  }

  /** The route's tab, the schema tab by default. */
  function ActiveTab(tab: Option<string>, schemaTab: string): (r: string)
    ensures tab.Some? ==> r == tab.value
    ensures tab.None? ==> r == schemaTab
  {
    tab.GetOr(schemaTab)
  }

  /** A call `onTopicUpdate(data, key)`. */
  datatype TopicUpdate = TopicUpdate(data: Object, key: string)

  /** `{...topicDetails, [field]: value}` sent under the field's key. */
  function FieldUpdate(topicDetails: Object, field: string, value: Value): (r: TopicUpdate)
    ensures r.key == field && Get(r.data, field) == value
    ensures forall k :: k != field ==> Get(r.data, k) == Get(topicDetails, k)
  {
    TopicUpdate(SetProps(topicDetails, map[field := value]), field)
  }

  /** `onDescriptionUpdate`: an update only when the text differs. */
  function DescriptionUpdate(topicDetails: Object, updatedHTML: string): (r: Option<TopicUpdate>)
    ensures r.Some? <==> Get(topicDetails, "description") != Str(updatedHTML)
    ensures r.Some? ==> r.value == FieldUpdate(topicDetails, "description", Str(updatedHTML))
  {
    if Get(topicDetails, "description") != Str(updatedHTML) then
      Some(FieldUpdate(topicDetails, "description", Str(updatedHTML)))
    else None
  }

  /** Once an update is applied, saving the same text again issues none. */
  lemma DescriptionUpdateSettles(topicDetails: Object, updatedHTML: string)
    ensures var r := DescriptionUpdate(topicDetails, updatedHTML);
      r.Some? ==> DescriptionUpdate(r.value.data, updatedHTML).None?
  {
  }

  /** `handleTagSelection`: when `createTagObject(selectedTags)` gives tags,
      the topic is sent with the tier tag (when there is one) and then the
      selected tags as they were given. */
  function HandleTagSelection(topicDetails: Object, tier: Value, selectedTags: seq<Value>,
                              createTagObject: seq<Value> -> Value): (r: Option<TopicUpdate>)
    ensures r.Some? <==> Truthy(createTagObject(selectedTags))
    ensures r.Some? ==> r.value.key == "tags" && Get(r.value.data, "tags").Arr?
    ensures r.Some? && Truthy(tier) ==> Get(r.value.data, "tags").items == [tier] + selectedTags
    ensures r.Some? && !Truthy(tier) ==> Get(r.value.data, "tags").items == selectedTags
    ensures r.Some? ==> forall k :: k != "tags" ==> Get(r.value.data, k) == Get(topicDetails, k)
  {
    if Truthy(createTagObject(selectedTags)) then
      Some(FieldUpdate(topicDetails, "tags", Arr((if Truthy(tier) then [tier] else []) + selectedTags)))
    else None
  }

  /** The tags sent keep the selection's order behind the tier tag. */
  lemma SelectedTagsKeepOrder(topicDetails: Object, tier: Value, selectedTags: seq<Value>,
                              createTagObject: seq<Value> -> Value, i: nat)
    requires Truthy(createTagObject(selectedTags)) && i < |selectedTags|
    ensures var tags := Get(HandleTagSelection(topicDetails, tier, selectedTags, createTagObject).value.data, "tags").items;
      var offset := if Truthy(tier) then 1 else 0;
      |tags| == |selectedTags| + offset && tags[i + offset] == selectedTags[i]
  {
  }
}
