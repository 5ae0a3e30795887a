/** The rules the entity detail pages share: permission flags, the follower
    list, the soft-delete toggle and merging a server response into the
    page's entity. The entity is a JavaScript object held in React state,
    `None` while it is undefined; each rule is the updater function a page
    hands to its state setter. */
module EntityPageCommon {
  import opened JsValues
  import opened Wrappers

  /** An OperationPermission: operation name to flag; a missing flag reads
      as undefined, which is falsy. */
  type Permissions = map<string, bool>

  function Allowed(p: Permissions, op: string): bool
  {
    op in p && p[op]
  }

  /** `(p[op] || p.EditAll) && !deleted`, the edit rule of every page. */
  function EditPermission(p: Permissions, op: string, deleted: Value): (r: bool)
    ensures Truthy(deleted) ==> !r
    ensures !Truthy(deleted) ==> (r <==> Allowed(p, op) || Allowed(p, "EditAll"))
  {
    (Allowed(p, op) || Allowed(p, "EditAll")) && !Truthy(deleted)
  }

  /** `p.ViewAll || p[op]`. */
  function ViewPermission(p: Permissions, op: string): (r: bool)
    ensures r <==> Allowed(p, "ViewAll") || Allowed(p, op)
  {
    Allowed(p, "ViewAll") || Allowed(p, op)
  }

  /** EditAll allows every edit of an entity that is not deleted. */
  lemma EditAllAllowsEveryEdit(p: Permissions, op: string, deleted: Value)
    requires Allowed(p, "EditAll") && !Truthy(deleted)
    ensures EditPermission(p, op, deleted)
  {
  }

  // ---------------------------------------------------------------------
  // followers

  /** The elements of an array value; [] for undefined (`?? []`). */
  function Items(v: Value): seq<Value>
  {
    if v.Arr? then v.items else []
  }

  predicate FollowedBy(f: Value, userId: Value)
  {
    Prop(f, "id") == userId
  }

  /** `followers?.some(({ id }) => id === userId)`. */
  function IsFollowing(followers: Value, userId: Value): (r: bool)
    ensures r <==> exists i :: 0 <= i < |Items(followers)| && FollowedBy(Items(followers)[i], userId)
  {
    exists i :: 0 <= i < |Items(followers)| && FollowedBy(Items(followers)[i], userId)
  }

  /** A value `[...v]` accepts: only arrays are modelled as iterable. */
  predicate Spreadable(v: Value) { v.Arr? }

  /** `[...(followers ?? []), ...newValue]`: the followers the server added
      come after the known ones. Spreading a value that is not an array (a
      nullish `followers` aside) throws a TypeError: None. */
  function Followed(followers: Value, newValue: Value): (r: Option<seq<Value>>)
    ensures r.Some? <==> (Spreadable(followers) || followers.Undefined? || followers.Null?) && Spreadable(newValue)
    ensures r.Some? ==> |r.value| == |Items(followers)| + |newValue.items|
    ensures r.Some? ==>
      r.value[..|Items(followers)|] == Items(followers) && r.value[|Items(followers)|..] == newValue.items
  {
    if (Spreadable(followers) || followers.Undefined? || followers.Null?) && Spreadable(newValue)
    then Some(Items(followers) + newValue.items)
    else None
  }

  /** `followers.filter((f) => f.id !== removedId)`. */
  function Unfollowed(followers: seq<Value>, removedId: Value): (r: seq<Value>)
    ensures |r| <= |followers|
    ensures forall f {:trigger f in r} :: f in r <==> f in followers && !FollowedBy(f, removedId)
  {
    if followers == [] then []
    else (if FollowedBy(followers[0], removedId) then [] else [followers[0]]) + Unfollowed(followers[1..], removedId)
  }

  /** The filter keeps order and multiplicity: it maps a concatenation to
      the concatenation of its parts, and keeps one follower exactly when
      its id is not the removed one. */
  lemma {:induction false} UnfollowedAppend(a: seq<Value>, b: seq<Value>, f: Value, removedId: Value)
    ensures Unfollowed(a + b, removedId) == Unfollowed(a, removedId) + Unfollowed(b, removedId)
    ensures Unfollowed([f], removedId) == if FollowedBy(f, removedId) then [] else [f]
  {
    UnfollowedOne(f, removedId);
    UnfollowedConcat(a, b, removedId);
  }

  lemma UnfollowedOne(f: Value, removedId: Value)
    ensures Unfollowed([f], removedId) == if FollowedBy(f, removedId) then [] else [f]
  {
    assert [f][1..] == [];
  }

  lemma {:induction false} UnfollowedConcat(a: seq<Value>, b: seq<Value>, removedId: Value)
    ensures Unfollowed(a + b, removedId) == Unfollowed(a, removedId) + Unfollowed(b, removedId)
  {
    if a == [] {
      assert a + b == b;
    } else {
      assert (a + b)[0] == a[0];
      assert (a + b)[1..] == a[1..] + b;
      UnfollowedConcat(a[1..], b, removedId);
    }
  }

  /** Unfollowing an id that no follower has leaves the list as it is. */
  lemma {:induction false} UnfollowedKeepsOthers(followers: seq<Value>, removedId: Value)
    requires forall i :: 0 <= i < |followers| ==> !FollowedBy(followers[i], removedId)
    ensures Unfollowed(followers, removedId) == followers
  {
    if followers != [] {
      UnfollowedKeepsOthers(followers[1..], removedId);
    }
  }

  /** Following adds the user; unfollowing by the user's id removes every
      entry of the user. */
  lemma FollowThenUnfollow(followers: Value, newValue: Value, userId: Value)
    requires exists i :: 0 <= i < |Items(newValue)| && FollowedBy(Items(newValue)[i], userId)
    ensures Followed(followers, newValue).Some? ==>
      IsFollowing(Arr(Followed(followers, newValue).value), userId) &&
      !IsFollowing(Arr(Unfollowed(Followed(followers, newValue).value, userId)), userId)
  {
    if Followed(followers, newValue).None? { return; }
    var i :| 0 <= i < |Items(newValue)| && FollowedBy(Items(newValue)[i], userId);
    var all := Followed(followers, newValue).value;
    assert all[|Items(followers)| + i] == Items(newValue)[i];
    assert Items(Arr(all)) == all;
    assert FollowedBy(Items(Arr(all))[|Items(followers)| + i], userId);
    var rest := Unfollowed(all, userId);
    forall k | 0 <= k < |rest| ensures !FollowedBy(rest[k], userId) {
      assert rest[k] in rest;
    }
  }

  /** `oldValue[0].id`: the id the server removed; None when `oldValue` has
      no first element, where reading `.id` throws. */
  function RemovedId(oldValue: Value): (r: Option<Value>)
    ensures r.Some? <==> |Items(oldValue)| > 0 && !Items(oldValue)[0].Undefined? && !Items(oldValue)[0].Null?
    ensures r.Some? ==> r.value == Prop(Items(oldValue)[0], "id")
  {
    if |Items(oldValue)| > 0 && !Items(oldValue)[0].Undefined? && !Items(oldValue)[0].Null? then
      Some(Prop(Items(oldValue)[0], "id"))
    else None
  }

  // ---------------------------------------------------------------------
  // updaters

  /** The soft-delete toggle: `{...prev, deleted: !prev.deleted,
      ...(version ? { version } : {})}`; an undefined entity stays
      undefined. */
  function ToggleDelete(prev: Option<Object>, version: Value): (r: Option<Object>)
    ensures prev.None? <==> r.None?
    ensures r.Some? ==> Get(r.value, "deleted") == Bool(!Truthy(Get(prev.value, "deleted")))
    ensures r.Some? && Truthy(version) ==> Get(r.value, "version") == version
    ensures r.Some? && !Truthy(version) ==> Get(r.value, "version") == Get(prev.value, "version")
    ensures r.Some? ==> forall k :: k != "deleted" && k != "version" ==> Get(r.value, k) == Get(prev.value, k)
  {
    match prev
    case None => None
    case Some(p) =>
      var toggled := p + map["deleted" := Bool(!Truthy(Get(p, "deleted")))];
      Some(toggled + (if Truthy(version) then map["version" := version] else map[]))
  }

  /** Deleting and restoring returns the flag to its (boolean) value. */
  lemma ToggleTwice(prev: Object, v1: Value, v2: Value)
    ensures var r := ToggleDelete(ToggleDelete(Some(prev), v1), v2);
      r.Some? && Get(r.value, "deleted") == Bool(Truthy(Get(prev, "deleted")))
  {
  }

  /** A string key is truthy when it is given and not empty. */
  predicate KeyTruthy(key: Option<string>) { key.Some? && key.value != "" }

  /** `{...previous, ...res, ...(key && { [key]: res[key] })}`; nothing when
      there is no previous entity. */
  function MergeResponse(prev: Option<Object>, res: Object, key: Option<string>): (r: Option<Object>)
    ensures prev.None? <==> r.None?
    ensures r.Some? ==> forall k ::
      Get(r.value, k) == if k in res || (KeyTruthy(key) && k == key.value) then Get(res, k) else Get(prev.value, k)
  {
    match prev
    case None => None
    case Some(p) => Some(p + res + (if KeyTruthy(key) then map[key.value := Get(res, key.value)] else map[]))
  }

  /** The key entry matters only when the response lacks the key: then the
      key reads as undefined afterwards instead of keeping its old value. */
  lemma MergeKeyOnlyClearsMissing(prev: Object, res: Object, key: string)
    requires key != ""
    ensures Get(MergeResponse(Some(prev), res, Some(key)).value, key) == Get(res, key)
    ensures key in res ==> MergeResponse(Some(prev), res, Some(key)) == MergeResponse(Some(prev), res, None)
  {
    if key in res {
      var m := prev + res;
      assert m + map[key := Get(res, key)] == m;
      assert m + map[] == m;
      assert MergeResponse(Some(prev), res, None) == Some(m + map[]);
      assert MergeResponse(Some(prev), res, Some(key)) == Some(m + map[key := Get(res, key)]);
    }
  }

  /** `{...prev, ...props}`: the listed properties change, nothing else. */
  function SetProps(prev: Object, props: Object): (r: Object)
    ensures forall k :: Get(r, k) == if k in props then props[k] else Get(prev, k)
  {
    prev + props
  }

  /** `{...entity, [field]: value}`: the data a page sends for a one-field
      edit; nothing is sent while the entity is undefined. */
  function EditField(entity: Option<Object>, field: string, value: Value): (r: Option<Object>)
    ensures entity.None? <==> r.None?
    ensures r.Some? ==> Get(r.value, field) == value
    ensures r.Some? ==> forall k :: k != field ==> Get(r.value, k) == Get(entity.value, k)
  {
    match entity
    case None => None
    case Some(e) => Some(SetProps(e, map[field := value]))
  }

  /** When the server answers a one-field edit with the data it was sent,
      merging the answer under that field's key leaves exactly the edited
      entity in state. */
  lemma EchoedEditIsApplied(entity: Object, field: string, value: Value)
    requires field != ""
    ensures var sent := EditField(Some(entity), field, value).value;
      MergeResponse(Some(entity), sent, Some(field)) == Some(sent)
  {
    var sent := EditField(Some(entity), field, value).value;
    assert field in sent;
    var merged := entity + sent + map[field := Get(sent, field)];
    assert MergeResponse(Some(entity), sent, Some(field)) == Some(merged);
    assert forall k :: k in merged <==> k in sent;
    assert forall k :: k in merged ==> merged[k] == sent[k];
    assert merged == sent;
  }

  /** `entity?.deleted`. */
  function DeletedFlag(entity: Option<Object>): Value
  {
    if entity.Some? then Get(entity.value, "deleted") else Undefined
  }

  /** `entity?.followers`. */
  function FollowersOf(entity: Option<Object>): Value
  {
    if entity.Some? then Get(entity.value, "followers") else Undefined
  }

  /** A tab change navigates to the chosen tab unless it is the active one. */
  function TabNavigation(activeKey: string, activeTab: string): (r: Option<string>)
    ensures r.Some? <==> activeKey != activeTab
    ensures r.Some? ==> r.value == activeKey
  {
    if activeKey != activeTab then Some(activeKey) else None
  }

  /** The follow updater: the followers known when the handler was created,
      then the ones the server reports as added. `newValue` is
      `fieldsAdded[0].newValue`. A missing added field is passed as
      undefined: destructuring it throws in the source, and spreading
      undefined throws here, with the same outcome. When building the list
      throws, the error is only shown and the state stays as it is. */
  function FollowEntity(prev: Option<Object>, knownFollowers: Value, newValue: Value): (r: Option<Object>)
    ensures prev.None? ==> r.None?
    ensures Followed(knownFollowers, newValue).None? ==> r == prev
    ensures prev.Some? && Followed(knownFollowers, newValue).Some? ==>
      r.Some? && Get(r.value, "followers") == Arr(Items(knownFollowers) + newValue.items) &&
      forall k :: k != "followers" ==> Get(r.value, k) == Get(prev.value, k)
  {
    match (prev, Followed(knownFollowers, newValue))
    case (Some(p), Some(followers)) => Some(SetProps(p, map["followers" := Arr(followers)]))
    case _ => prev
  }

  /** The unfollow updater: the followers whose id differs from the removed
      one, in order; an entity whose followers are undefined or null gets
      undefined (`?.filter`). When the server reports no removed follower, or
      the followers are some other non-array value whose `filter` call
      throws, the state stays as it is. */
  function UnFollowEntity(pre: Option<Object>, oldValue: Value): (r: Option<Object>)
    ensures pre.None? <==> r.None?
    ensures r.Some? && RemovedId(oldValue).None? ==> r == pre
    ensures r.Some? && RemovedId(oldValue).Some? ==>
      (forall k :: k != "followers" ==> Get(r.value, k) == Get(pre.value, k)) &&
      (Get(pre.value, "followers").Arr? ==>
        Get(r.value, "followers") == Arr(Unfollowed(Get(pre.value, "followers").items, RemovedId(oldValue).value))) &&
      ((Get(pre.value, "followers").Undefined? || Get(pre.value, "followers").Null?) ==>
        Get(r.value, "followers") == Undefined)
    ensures pre.Some? ==>
      var f := Get(pre.value, "followers"); !(f.Arr? || f.Undefined? || f.Null?) ==> r == pre
  {
    match pre
    case None => None
    case Some(p) =>
      match RemovedId(oldValue)
      case None => pre
      case Some(id) =>
        var followers := Get(p, "followers");
        if followers.Arr? then Some(SetProps(p, map["followers" := Arr(Unfollowed(followers.items, id))]))
        else if followers.Undefined? || followers.Null? then Some(SetProps(p, map["followers" := Undefined]))
        else pre
  }

  /** After an unfollow the current user is no longer following. */
  lemma UnfollowEndsFollowing(pre: Object, oldValue: Value, userId: Value)
    requires RemovedId(oldValue) == Some(userId)
    ensures !IsFollowing(FollowersOf(UnFollowEntity(Some(pre), oldValue)), userId)
  {
    var r := UnFollowEntity(Some(pre), oldValue);
    var f := FollowersOf(r);
    if f.Arr? {
      forall i | 0 <= i < |f.items| ensures !FollowedBy(f.items[i], userId) {
        assert f.items[i] in f.items;
      }
    }
  }

  /** `afterDomainUpdateAction`: the current entity, or the returned one
      when there is none, with the returned version. */
  function AfterDomainUpdate(data: Option<Object>, updated: Object): (r: Object)
    ensures Get(r, "version") == Get(updated, "version")
    ensures forall k :: k != "version" ==> Get(r, k) == Get(if data.Some? then data.value else updated, k)
  {
    SetProps(if data.Some? then data.value else updated, map["version" := Get(updated, "version")])
  }
}
