/** The search repository's naming and routing rules: the cluster-alias prefix
    on index names, the field path and parent match used when inherited fields
    propagate to child documents, the incremental update scripts, and which
    child documents a delete or soft delete reaches. Calls to the search client
    are returned as values instead of being performed. */
module SearchRepository {
  import opened Wrappers
  import opened JavaStrings

  // Entity type names.
  const DATABASE_SERVICE := "databaseService"
  const DASHBOARD_SERVICE := "dashboardService"
  const MESSAGING_SERVICE := "messagingService"
  const PIPELINE_SERVICE := "pipelineService"
  const MLMODEL_SERVICE := "mlmodelService"
  const STORAGE_SERVICE := "storageService"
  const SEARCH_SERVICE := "searchService"
  const API_SERVICE := "apiService"
  const DASHBOARD := "dashboard"
  const DOMAIN := "domain"
  const DATA_PRODUCT := "dataProduct"
  const TAG := "tag"
  const GLOSSARY_TERM := "glossaryTerm"
  const TEST_SUITE := "testSuite"
  const QUERY := "query"

  // Field names.
  const FIELD_OWNERS := "owners"
  const FIELD_DOMAIN := "domain"
  const FIELD_DISABLED := "disabled"
  const FIELD_TEST_SUITES := "testSuites"
  const FIELD_DISPLAY_NAME := "displayName"
  const FIELD_FOLLOWERS := "followers"
  const FIELD_USAGE_SUMMARY := "usageSummary"

  /** The fields whose changes are pushed down to child documents. */
  const INHERITABLE_FIELDS: seq<string> :=
    [FIELD_OWNERS, FIELD_DOMAIN, FIELD_DISABLED, FIELD_TEST_SUITES, FIELD_DISPLAY_NAME]

  // ---------------------------------------------------------------------
  // Index names and the cluster alias

  predicate HasAlias(clusterAlias: Option<string>)
  {
    clusterAlias.Some? && clusterAlias.value != ""
  }

  /** Each comma-separated index name, trimmed and prefixed with the alias and
      the separator. */
  function QualifiedNames(prefix: string, names: seq<string>): (r: seq<string>)
    ensures |r| == |names|
    ensures forall i :: 0 <= i < |names| ==> r[i] == prefix + Trim(names[i])
  {
    if names == [] then [] else [prefix + Trim(names[0])] + QualifiedNames(prefix, names[1..])
  }

  /** `getIndexOrAliasName`: without a cluster alias the name is returned as
      it is; with one, every comma-separated part is trimmed and prefixed. */
  function GetIndexOrAliasName(clusterAlias: Option<string>, separator: string, name: string): (r: string)
    ensures !HasAlias(clusterAlias) ==> r == name
    ensures HasAlias(clusterAlias) && Split(name, ',') != [] ==>
      StartsWith(r, clusterAlias.value + separator)
  {
    if !HasAlias(clusterAlias) then name
    else
      var r := Join(QualifiedNames(clusterAlias.value + separator, Split(name, ',')), ",");
      assert HasAlias(clusterAlias) && Split(name, ',') != [] ==>
        StartsWith(r, clusterAlias.value + separator) by {
        if Split(name, ',') != [] {
          JoinStartsWithFirst(QualifiedNames(clusterAlias.value + separator, Split(name, ',')), ",");
        }
      }
      r
  }

  lemma JoinStartsWithFirst(parts: seq<string>, sep: string)
    requires parts != []
    ensures StartsWith(Join(parts, sep), parts[0])
  {
  }

  /** `getIndexNameWithoutAlias`: the alias and separator are removed only
      when the name starts with them. */
  function GetIndexNameWithoutAlias(clusterAlias: Option<string>, separator: string, fullIndexName: string): (r: string)
    ensures HasAlias(clusterAlias) && StartsWith(fullIndexName, clusterAlias.value + separator) ==>
      clusterAlias.value + separator + r == fullIndexName
    ensures !(HasAlias(clusterAlias) && StartsWith(fullIndexName, clusterAlias.value + separator)) ==>
      r == fullIndexName
  {
    if HasAlias(clusterAlias) && StartsWith(fullIndexName, clusterAlias.value + separator) then
      var prefix := clusterAlias.value + separator;
      assert fullIndexName == prefix + fullIndexName[|prefix|..];
      fullIndexName[|prefix|..]
    else fullIndexName
  }

  /** With an alias, the result has one comma-separated part per part of the
      input, each the trimmed input part behind the alias and separator. */
  lemma AliasPreservesParts(clusterAlias: Option<string>, separator: string, name: string)
    requires HasAlias(clusterAlias)
    requires ',' !in clusterAlias.value + separator
    requires Split(name, ',') != []
    ensures SplitAll(GetIndexOrAliasName(clusterAlias, separator, name), ',')
            == QualifiedNames(clusterAlias.value + separator, Split(name, ','))
    ensures |SplitAll(GetIndexOrAliasName(clusterAlias, separator, name), ',')| == |Split(name, ',')|
  {
    var prefix := clusterAlias.value + separator;
    var q := QualifiedNames(prefix, Split(name, ','));
    forall i | 0 <= i < |q| ensures ',' !in q[i] {
      var p := Split(name, ',')[i];
      assert q[i] == prefix + Trim(p);
      assert ',' !in Trim(p);
    }
    SplitAllJoin(q, ',');
  }

  /** For a single index name, removing the alias after adding it gives back
      the trimmed name. */
  lemma StripAfterAdd(clusterAlias: Option<string>, separator: string, name: string)
    requires HasAlias(clusterAlias)
    requires ',' !in name
    ensures GetIndexNameWithoutAlias(clusterAlias, separator,
              GetIndexOrAliasName(clusterAlias, separator, name)) == Trim(name)
  {
    var prefix := clusterAlias.value + separator;
    assert Split(name, ',') == [name];
    assert GetIndexOrAliasName(clusterAlias, separator, name) == prefix + Trim(name);
    assert (prefix + Trim(name))[..|prefix|] == prefix;
  }

  /** Without an alias both directions leave every name alone. */
  lemma NoAliasIsIdentity(clusterAlias: Option<string>, separator: string, name: string)
    requires !HasAlias(clusterAlias)
    ensures GetIndexOrAliasName(clusterAlias, separator, name) == name
    ensures GetIndexNameWithoutAlias(clusterAlias, separator, name) == name
  {
  }

  // ---------------------------------------------------------------------
  // Field paths and parent matches

  /** The eight service types, compared ignoring case. */
  predicate IsServiceType(entityType: string)
  {
    EqualsIgnoreCase(entityType, DATABASE_SERVICE)
    || EqualsIgnoreCase(entityType, DASHBOARD_SERVICE)
    || EqualsIgnoreCase(entityType, MESSAGING_SERVICE)
    || EqualsIgnoreCase(entityType, PIPELINE_SERVICE)
    || EqualsIgnoreCase(entityType, MLMODEL_SERVICE)
    || EqualsIgnoreCase(entityType, STORAGE_SERVICE)
    || EqualsIgnoreCase(entityType, SEARCH_SERVICE)
    || EqualsIgnoreCase(entityType, API_SERVICE)
  }

  /** `getFieldPath`: children of a service refer to it as `service`, every
      other parent by its own type name. */
  function GetFieldPath(entityType: string, fieldName: string): (r: string)
    ensures IsServiceType(entityType) ==> r == "service." + fieldName
    ensures !IsServiceType(entityType) ==> r == entityType + "." + fieldName
  {
    if IsServiceType(entityType) then "service." + fieldName else entityType + "." + fieldName
  }

  /** Two spellings of a service type that differ only in case give the same
      field path. */
  lemma FieldPathIgnoresServiceCase(t1: string, t2: string, fieldName: string)
    requires EqualsIgnoreCase(t1, t2) && IsServiceType(t1)
    ensures GetFieldPath(t2, fieldName) == GetFieldPath(t1, fieldName) == "service." + fieldName
  {
  }

  // ---------------------------------------------------------------------
  // Inherited field changes (getInheritedFieldChanges)

  datatype EntityRef = EntityRef(id: string, refType: string, inherited: bool)

  /** A field change's old or new value: a list of references, a
      `UsageDetails` object (with its JSON text), or any other value with its
      JSON text. */
  datatype FieldValue = Refs(refs: seq<EntityRef>) | Usage(details: string) | Json(text: string)

  datatype FieldChange = FieldChange(name: string, oldValue: FieldValue, newValue: FieldValue)

  datatype ChangeDescription = ChangeDescription(
    fieldsAdded: seq<FieldChange>,
    fieldsUpdated: seq<FieldChange>,
    fieldsDeleted: seq<FieldChange>)

  /** The parts of an entity the scripts read. */
  datatype Entity = Entity(id: string, entityType: string, owners: seq<EntityRef>, updatedAt: int)

  /** One piece of the update script, named after the search client's script
      constant it is formatted from, followed where the source appends one by
      a `Space`. */
  datatype Fragment =
    | RemoveOwners
    | RemovePropagatedEntityReference(field: string)
    | RemovePropagatedField(field: string)
    | UpdatePropagatedEntityReference(field: string)
    | PropagateTestSuites
    | PropagateNestedField(path: string, field: string)
    | PropagateField(field: string, value: string)
    | AddOwners
    | PropagateEntityReference(field: string)
    | Space

  /** A value put into the script parameters. */
  datatype Datum =
    | Owners(refs: seq<EntityRef>)
    | Reference(ref: EntityRef)
    | ReferenceMap(ref: EntityRef)
    | Raw(value: FieldValue)
    | Text(text: string)

  datatype Changes = Changes(script: seq<Fragment>, data: map<string, Datum>)

  datatype ChangeKind = Added | Updated | Deleted

  predicate IsInheritable(name: string) { name in INHERITABLE_FIELDS }

  /** The entity's owners with `inherited` set, as the deep copy makes them. */
  function MarkInherited(owners: seq<EntityRef>): (r: seq<EntityRef>)
    ensures |r| == |owners|
    ensures forall i :: 0 <= i < |owners| ==> r[i] == owners[i].(inherited := true)
  {
    if owners == [] then [] else [owners[0].(inherited := true)] + MarkInherited(owners[1..])
  }

  /** What one field change adds to the script and the parameters. `readRef`
      is the JSON reader applied to a value's text, `None` when it throws;
      `render` is the value's `toString`. */
  function Step(kind: ChangeKind, acc: Changes, f: FieldChange, entity: Entity,
                readRef: string -> Option<EntityRef>, render: FieldValue -> string): Changes
  {
    if !IsInheritable(f.name) then acc
    else match kind
      case Deleted =>
        if f.name == FIELD_OWNERS then
          Changes(acc.script + [RemoveOwners, Space],
                  acc.data["deletedOwners" := Owners(MarkInherited(entity.owners))])
        else (match readRef(render(f.oldValue))
          case Some(ref) =>
            Changes(acc.script + [RemovePropagatedEntityReference(f.name), Space],
                    acc.data[f.name := ReferenceMap(ref)])
          case None =>
            Changes(acc.script + [RemovePropagatedField(f.name)], acc.data))
      case Updated =>
        (match (readRef(render(f.newValue)), readRef(render(f.oldValue)))
          case (Some(newRef), Some(oldRef)) =>
            Changes(acc.script + [UpdatePropagatedEntityReference(f.name), Space],
                    acc.data["entityBeforeUpdate" := Reference(oldRef)][f.name := Reference(newRef)])
          case _ =>
            if f.name == FIELD_TEST_SUITES then
              Changes(acc.script + [PropagateTestSuites, Space], acc.data[FIELD_TEST_SUITES := Raw(f.newValue)])
            else if f.name == FIELD_DISPLAY_NAME then
              Changes(acc.script + [PropagateNestedField(GetFieldPath(entity.entityType, f.name), f.name), Space],
                      acc.data[f.name := Text(render(f.newValue))])
            else
              Changes(acc.script + [PropagateField(f.name, render(f.newValue)), Space], acc.data))
      case Added =>
        if f.name == FIELD_OWNERS then
          Changes(acc.script + [AddOwners, Space],
                  acc.data["updatedOwners" := Owners(MarkInherited(entity.owners))])
        else (match readRef(render(f.newValue))
          case Some(ref) =>
            Changes(acc.script + [PropagateEntityReference(f.name), Space],
                    acc.data[f.name := Reference(ref)])
          case None =>
            if f.name == FIELD_DISPLAY_NAME then
              Changes(acc.script + [PropagateNestedField(GetFieldPath(entity.entityType, f.name), f.name)],
                      acc.data[f.name := Text(render(f.newValue))])
            else
              Changes(acc.script + [PropagateField(f.name, render(f.newValue)), Space], acc.data))
  }

  /** The changes in `fs`, applied in order after `acc`. */
  function Fold(kind: ChangeKind, fs: seq<FieldChange>, acc: Changes, entity: Entity,
                readRef: string -> Option<EntityRef>, render: FieldValue -> string): Changes
  {
    if fs == [] then acc
    else Step(kind, Fold(kind, fs[..|fs| - 1], acc, entity, readRef, render), fs[|fs| - 1], entity, readRef, render)
  }

  /** The script and parameters for a change description: deleted fields
      first, then updated ones, then added ones. */
  function InheritedFieldChanges(cd: ChangeDescription, entity: Entity,
                                 readRef: string -> Option<EntityRef>, render: FieldValue -> string): Changes
  {
    var afterDeleted := Fold(Deleted, cd.fieldsDeleted, Changes([], map[]), entity, readRef, render);
    var afterUpdated := Fold(Updated, cd.fieldsUpdated, afterDeleted, entity, readRef, render);
    Fold(Added, cd.fieldsAdded, afterUpdated, entity, readRef, render)
  }

  method ApplyChanges(kind: ChangeKind, fs: seq<FieldChange>, acc: Changes, entity: Entity,
                      readRef: string -> Option<EntityRef>, render: FieldValue -> string)
    returns (out: Changes)
    ensures out == Fold(kind, fs, acc, entity, readRef, render)
  {
    out := acc;
    var i := 0;
    while i < |fs|
      invariant 0 <= i <= |fs|
      invariant out == Fold(kind, fs[..i], acc, entity, readRef, render)
    {
      assert fs[..i + 1][..i] == fs[..i];
      out := Step(kind, out, fs[i], entity, readRef, render);
      i := i + 1;
    }
    assert fs[..|fs|] == fs;
  }

  /** `getInheritedFieldChanges`: one pass over the deleted, one over the
      updated and one over the added field changes. */
  method GetInheritedFieldChanges(cd: ChangeDescription, entity: Entity,
                                  readRef: string -> Option<EntityRef>, render: FieldValue -> string)
    returns (changes: Changes)
    ensures changes == InheritedFieldChanges(cd, entity, readRef, render)
    ensures changes.script == [] <==> !HasInheritableChange(cd)
    ensures forall k :: k in changes.data ==> IsDataKey(k)
  {
    changes := Changes([], map[]);
    changes := ApplyChanges(Deleted, cd.fieldsDeleted, changes, entity, readRef, render);
    changes := ApplyChanges(Updated, cd.fieldsUpdated, changes, entity, readRef, render);
    changes := ApplyChanges(Added, cd.fieldsAdded, changes, entity, readRef, render);
    ScriptEmptyIffNoInheritableChange(cd, entity, readRef, render);
    DataKeys(cd, entity, readRef, render);
  }

  predicate NoneInheritable(fs: seq<FieldChange>)
  {
    forall i :: 0 <= i < |fs| ==> !IsInheritable(fs[i].name)
  }

  predicate HasInheritableChange(cd: ChangeDescription)
  {
    !NoneInheritable(cd.fieldsDeleted) || !NoneInheritable(cd.fieldsUpdated) || !NoneInheritable(cd.fieldsAdded)
  }

  /** The keys the parameters can hold. */
  predicate IsDataKey(k: string)
  {
    IsInheritable(k) || k == "deletedOwners" || k == "updatedOwners" || k == "entityBeforeUpdate"
  }

  /** The field changes whose names are inheritable, in order. */
  function OnlyInheritable(fs: seq<FieldChange>): (r: seq<FieldChange>)
    ensures |r| <= |fs|
    ensures forall i :: 0 <= i < |r| ==> IsInheritable(r[i].name)
  {
    if fs == [] then []
    else OnlyInheritable(fs[..|fs| - 1]) + (if IsInheritable(fs[|fs| - 1].name) then [fs[|fs| - 1]] else [])
  }

  /** A field change that is not inheritable changes neither the script nor
      the parameters. */
  lemma {:induction false} FoldIgnoresOtherFields(kind: ChangeKind, fs: seq<FieldChange>, acc: Changes, entity: Entity,
                                                 readRef: string -> Option<EntityRef>, render: FieldValue -> string)
    ensures Fold(kind, fs, acc, entity, readRef, render) == Fold(kind, OnlyInheritable(fs), acc, entity, readRef, render)
  {
    if fs != [] {
      var init := fs[..|fs| - 1];
      var last := fs[|fs| - 1];
      FoldIgnoresOtherFields(kind, init, acc, entity, readRef, render);
      var kept := OnlyInheritable(init);
      if IsInheritable(last.name) {
        assert OnlyInheritable(fs) == kept + [last];
        assert (kept + [last])[..|kept|] == kept;
      } else {
        assert OnlyInheritable(fs) == kept;
      }
    }
  }

  /** Every inheritable change appends to the script and no other change
      does, so the script grows exactly when some change is inheritable. */
  lemma {:induction false} FoldScriptGrowth(kind: ChangeKind, fs: seq<FieldChange>, acc: Changes, entity: Entity,
                                           readRef: string -> Option<EntityRef>, render: FieldValue -> string)
    ensures var out := Fold(kind, fs, acc, entity, readRef, render);
      |acc.script| <= |out.script| && out.script[..|acc.script|] == acc.script
      && (|out.script| == |acc.script| <==> NoneInheritable(fs))
  {
    if fs != [] {
      var init := fs[..|fs| - 1];
      FoldScriptGrowth(kind, init, acc, entity, readRef, render);
      var mid := Fold(kind, init, acc, entity, readRef, render);
      var out := Step(kind, mid, fs[|fs| - 1], entity, readRef, render);
      assert |mid.script| <= |out.script| && out.script[..|mid.script|] == mid.script;
      assert out.script[..|acc.script|] == mid.script[..|acc.script|];
      if NoneInheritable(fs) {
        assert NoneInheritable(init) by {
          forall i | 0 <= i < |init| ensures !IsInheritable(init[i].name) {
            assert init[i] == fs[i];
          }
        }
      } else if NoneInheritable(init) {
        assert IsInheritable(fs[|fs| - 1].name) by {
          if !IsInheritable(fs[|fs| - 1].name) {
            forall i | 0 <= i < |fs| ensures !IsInheritable(fs[i].name) {
              if i < |init| { assert init[i] == fs[i]; }
            }
          }
        }
      } else {
        var j :| 0 <= j < |init| && IsInheritable(init[j].name);
        assert fs[j] == init[j];
      }
    }
  }

  /** `getInheritedFieldChanges` yields an empty script exactly when no field
      change names an inheritable field. */
  lemma ScriptEmptyIffNoInheritableChange(cd: ChangeDescription, entity: Entity,
                                          readRef: string -> Option<EntityRef>, render: FieldValue -> string)
    ensures InheritedFieldChanges(cd, entity, readRef, render).script == [] <==> !HasInheritableChange(cd)
  {
    var empty := Changes([], map[]);
    var d := Fold(Deleted, cd.fieldsDeleted, empty, entity, readRef, render);
    var u := Fold(Updated, cd.fieldsUpdated, d, entity, readRef, render);
    FoldScriptGrowth(Deleted, cd.fieldsDeleted, empty, entity, readRef, render);
    FoldScriptGrowth(Updated, cd.fieldsUpdated, d, entity, readRef, render);
    FoldScriptGrowth(Added, cd.fieldsAdded, u, entity, readRef, render);
  }

  lemma {:induction false} FoldDataKeys(kind: ChangeKind, fs: seq<FieldChange>, acc: Changes, entity: Entity,
                                       readRef: string -> Option<EntityRef>, render: FieldValue -> string)
    requires forall k :: k in acc.data ==> IsDataKey(k)
    ensures forall k :: k in Fold(kind, fs, acc, entity, readRef, render).data ==> IsDataKey(k)
  {
    if fs != [] {
      FoldDataKeys(kind, fs[..|fs| - 1], acc, entity, readRef, render);
    }
  }

  /** The parameters only ever hold inheritable fields and the three owner
      and previous-value keys. */
  lemma DataKeys(cd: ChangeDescription, entity: Entity,
                 readRef: string -> Option<EntityRef>, render: FieldValue -> string)
    ensures forall k :: k in InheritedFieldChanges(cd, entity, readRef, render).data ==> IsDataKey(k)
  {
    var empty := Changes([], map[]);
    var d := Fold(Deleted, cd.fieldsDeleted, empty, entity, readRef, render);
    var u := Fold(Updated, cd.fieldsUpdated, d, entity, readRef, render);
    FoldDataKeys(Deleted, cd.fieldsDeleted, empty, entity, readRef, render);
    FoldDataKeys(Updated, cd.fieldsUpdated, d, entity, readRef, render);
    FoldDataKeys(Added, cd.fieldsAdded, u, entity, readRef, render);
  }

  // ---------------------------------------------------------------------
  // propagateInheritedFieldsToChildren

  /** The field and value that select the child documents of a parent. */
  datatype Match = Match(field: string, value: string)

  /** The parent match: a service whose inherited parameters carry the domain
      or the display name is matched as `service.id`, every other parent as
      `<type>.id`. */
  function ParentMatch(entityType: string, entityId: string, data: map<string, Datum>): (m: Match)
    ensures m.value == entityId
    ensures IsServiceType(entityType) && (FIELD_DOMAIN in data || FIELD_DISPLAY_NAME in data) ==>
      m.field == "service.id"
    ensures !(IsServiceType(entityType) && (FIELD_DOMAIN in data || FIELD_DISPLAY_NAME in data)) ==>
      m.field == entityType + ".id"
  {
    if |data| != 0 && (FIELD_DOMAIN in data || FIELD_DISPLAY_NAME in data) then
      if IsServiceType(entityType) then Match("service.id", entityId) else Match(entityType + ".id", entityId)
    else Match(entityType + ".id", entityId)
  }

  /** The `updateChildren` call that pushes inherited fields down. */
  datatype ChildUpdate = ChildUpdate(childAliases: seq<string>, parentMatch: Match, script: seq<Fragment>, params: map<string, Datum>)

  /** `propagateInheritedFieldsToChildren`: the call it makes, if any.
      `childAliases` is the index mapping's child aliases (null read as []). */
  method PropagateInheritedFieldsToChildren(entityType: string, entityId: string, cd: Option<ChangeDescription>,
                                           entity: Entity, childAliases: seq<string>,
                                           readRef: string -> Option<EntityRef>, render: FieldValue -> string)
    returns (call: Option<ChildUpdate>)
    ensures call.Some? <==> cd.Some? && HasInheritableChange(cd.value) && childAliases != []
    ensures call.Some? ==>
      var ch := InheritedFieldChanges(cd.value, entity, readRef, render);
      call.value == ChildUpdate(childAliases, ParentMatch(entityType, entityId, ch.data), ch.script, ch.data)
  {
    call := None;
    if cd.Some? {
      var updates := GetInheritedFieldChanges(cd.value, entity, readRef, render);
      var parentMatch := ParentMatch(entityType, entityId, updates.data);
      if updates.script != [] && childAliases != [] {
        call := Some(ChildUpdate(childAliases, parentMatch, updates.script, updates.data));
      }
    }
  }

  /** A service's domain change that could not be read as a reference leaves
      no `domain` parameter, so its children are matched by `<type>.id`. */
  lemma UnreadableDomainKeepsTypeMatch(entity: Entity, change: FieldChange,
                                       readRef: string -> Option<EntityRef>, render: FieldValue -> string)
    requires change.name == FIELD_DOMAIN
    requires readRef(render(change.newValue)).None?
    ensures var cd := ChangeDescription([change], [], []);
      var ch := InheritedFieldChanges(cd, entity, readRef, render);
      ch.script == [PropagateField(FIELD_DOMAIN, render(change.newValue)), Space]
      && ParentMatch(entity.entityType, entity.id, ch.data).field == entity.entityType + ".id"
  {
    var cd := ChangeDescription([change], [], []);
    assert [change][..0] == [];
    assert Fold(Added, cd.fieldsAdded, Changes([], map[]), entity, readRef, render)
      == Step(Added, Changes([], map[]), change, entity, readRef, render);
  }

  // ---------------------------------------------------------------------
  // getScriptWithParams

  const UPDATED_AT_CLAUSE := "ctx._source.updatedAt=params.updatedAt;"
  const ADD_FOLLOWERS_CLAUSE := "ctx._source.followers.addAll(params.followers);"
  const REMOVE_FOLLOWERS_CLAUSE := "ctx._source.followers.removeAll(Collections.singleton(params.followers));"
  const USAGE_SUMMARY_CLAUSE := "ctx._source.usageSummary = params.usageSummary;"
  const QUERY_USED_IN_CLAUSE := "ctx._source.queryUsedIn = params.queryUsedIn;"
  const VOTES_CLAUSE := "ctx._source.votes = params.votes;"
  const PIPELINE_STATUS_CLAUSE := "if (ctx._source.containsKey('pipelineStatus')) { ctx._source.pipelineStatus = params.newPipelineStatus; } else { ctx._source['pipelineStatus'] = params.newPipelineStatus;}"
  const TEST_SUITES_CLAUSE := "ctx._source.testSuites = params.testSuites;"

  /** A script parameter. `EntityProperty(p)` is property `p` of the
      entity's JSON map; `Converted(v)` is a change's new value converted to
      a map or a list of maps. */
  datatype Param =
    | UpdatedAt(millis: int)
    | FollowerIds(ids: seq<string>)
    | FollowerId(id: string)
    | Converted(value: FieldValue)
    | EntityProperty(property: string)

  /** The script text and parameters so far; `failed` records an exception
      that ends the build: the ClassCastException of a followers change that
      does not hold a list of references or of a usage-summary change that
      does not hold a `UsageDetails`, or the failed conversion of a
      `queryUsedIn` value that is not a list of objects. */
  datatype ScriptState = ScriptState(text: string, params: map<string, Param>, failed: bool)

  function Ids(refs: seq<EntityRef>): (r: seq<string>)
    ensures |r| == |refs| && forall i :: 0 <= i < |refs| ==> r[i] == refs[i].id
  {
    if refs == [] then [] else [refs[0].id] + Ids(refs[1..])
  }

  /** The inner loop over deleted followers: every id is put under the same
      key. */
  function PutEach(params: map<string, Param>, key: string, refs: seq<EntityRef>): map<string, Param>
  {
    if refs == [] then params
    else PutEach(params, key, refs[..|refs| - 1])[key := FollowerId(refs[|refs| - 1].id)]
  }

  /** Only the last deleted follower's id survives under the key. */
  lemma {:induction false} PutEachKeepsLast(params: map<string, Param>, key: string, refs: seq<EntityRef>)
    ensures PutEach(params, key, refs) ==
      if refs == [] then params else params[key := FollowerId(refs[|refs| - 1].id)]
  {
    if |refs| > 1 {
      PutEachKeepsLast(params, key, refs[..|refs| - 1]);
    }
  }

  function AddedFollowersStep(st: ScriptState, f: FieldChange): ScriptState
  {
    if st.failed || !EqualsIgnoreCase(f.name, FIELD_FOLLOWERS) then st
    else match f.newValue
      case Refs(refs) => ScriptState(st.text + ADD_FOLLOWERS_CLAUSE, st.params[f.name := FollowerIds(Ids(refs))], false)
      case _ => st.(failed := true)
  }

  function DeletedFollowersStep(st: ScriptState, f: FieldChange): ScriptState
  {
    if st.failed || !EqualsIgnoreCase(f.name, FIELD_FOLLOWERS) then st
    else match f.oldValue
      case Refs(refs) => ScriptState(st.text + REMOVE_FOLLOWERS_CLAUSE, PutEach(st.params, f.name, refs), false)
      case _ => st.(failed := true)
  }

  /** The cast of an added followers change's new value throws. */
  predicate AddedThrows(f: FieldChange)
  {
    EqualsIgnoreCase(f.name, FIELD_FOLLOWERS) && !f.newValue.Refs?
  }

  /** The cast of a deleted followers change's old value throws. */
  predicate DeletedThrows(f: FieldChange)
  {
    EqualsIgnoreCase(f.name, FIELD_FOLLOWERS) && !f.oldValue.Refs?
  }

  /** An updated field whose value cannot be read: a usage summary that is not
      a `UsageDetails`, or a query's `queryUsedIn` that is not a list. */
  predicate UpdateThrows(f: FieldChange, entity: Entity)
  {
    (EqualsIgnoreCase(f.name, FIELD_USAGE_SUMMARY) && !f.newValue.Usage?)
    || (entity.entityType == QUERY && EqualsIgnoreCase(f.name, "queryUsedIn") && !f.newValue.Refs?)
  }

  /** The five checks made for each updated field, one function each; a
      name matches at most one of them (the five names differ in length). */
  function UsageSummaryCheck(st: ScriptState, f: FieldChange): ScriptState
  {
    if !EqualsIgnoreCase(f.name, FIELD_USAGE_SUMMARY) then st
    else if f.newValue.Usage?
    then st.(text := st.text + USAGE_SUMMARY_CLAUSE, params := st.params[f.name := Converted(f.newValue)])
    else st.(failed := true)
  }

  function QueryUsedInCheck(st: ScriptState, f: FieldChange, entity: Entity): ScriptState
  {
    if !(entity.entityType == QUERY && EqualsIgnoreCase(f.name, "queryUsedIn")) then st
    else if f.newValue.Refs?
    then st.(text := st.text + QUERY_USED_IN_CLAUSE, params := st.params[f.name := Converted(f.newValue)])
    else st.(failed := true)
  }

  function VotesCheck(st: ScriptState, f: FieldChange): ScriptState
  {
    if EqualsIgnoreCase(f.name, "votes")
    then st.(text := st.text + VOTES_CLAUSE, params := st.params[f.name := EntityProperty("votes")])
    else st
  }

  function PipelineStatusCheck(st: ScriptState, f: FieldChange): ScriptState
  {
    if EqualsIgnoreCase(f.name, "pipelineStatus")
    then st.(text := st.text + PIPELINE_STATUS_CLAUSE,
             params := st.params["newPipelineStatus" := EntityProperty("pipelineStatus")])
    else st
  }

  function TestSuitesCheck(st: ScriptState, f: FieldChange): ScriptState
  {
    if EqualsIgnoreCase(f.name, "testSuites")
    then st.(text := st.text + TEST_SUITES_CLAUSE, params := st.params["testSuites" := EntityProperty("testSuites")])
    else st
  }

  function UpdatedFieldStep(st: ScriptState, f: FieldChange, entity: Entity): ScriptState
  {
    if st.failed then st
    else TestSuitesCheck(PipelineStatusCheck(VotesCheck(QueryUsedInCheck(UsageSummaryCheck(st, f), f, entity), f), f), f)
  }

  function FoldAdded(st: ScriptState, fs: seq<FieldChange>): ScriptState
  {
    if fs == [] then st else AddedFollowersStep(FoldAdded(st, fs[..|fs| - 1]), fs[|fs| - 1])
  }

  function FoldDeleted(st: ScriptState, fs: seq<FieldChange>): ScriptState
  {
    if fs == [] then st else DeletedFollowersStep(FoldDeleted(st, fs[..|fs| - 1]), fs[|fs| - 1])
  }

  function FoldUpdated(st: ScriptState, fs: seq<FieldChange>, entity: Entity): ScriptState
  {
    if fs == [] then st else UpdatedFieldStep(FoldUpdated(st, fs[..|fs| - 1], entity), fs[|fs| - 1], entity)
  }

  /** The script and parameters `getScriptWithParams` produces from the
      caller's parameter map `params`. */
  function ScriptWithParams(entity: Entity, params: map<string, Param>, cd: ChangeDescription): ScriptState
  {
    var start := ScriptState(UPDATED_AT_CLAUSE, params["updatedAt" := UpdatedAt(entity.updatedAt)], false);
    FoldUpdated(FoldDeleted(FoldAdded(start, cd.fieldsAdded), cd.fieldsDeleted), cd.fieldsUpdated, entity)
  }

  /** The caller's `fieldAddParams` map, which the script builder fills. */
  class ParamMap {
    var entries: map<string, Param>

    constructor (entries: map<string, Param>)
      ensures this.entries == entries
    {
      this.entries := entries;
    }
  }

  /** `getScriptWithParams`: the script, or None when a cast throws; the
      parameters put before the throw stay in the caller's map. */
  method GetScriptWithParams(entity: Entity, fieldAddParams: ParamMap, cd: ChangeDescription)
    returns (script: Option<string>)
    modifies fieldAddParams
    ensures var st := ScriptWithParams(entity, old(fieldAddParams.entries), cd);
      fieldAddParams.entries == st.params && script == (if st.failed then None else Some(st.text))
  {
    fieldAddParams.entries := fieldAddParams.entries["updatedAt" := UpdatedAt(entity.updatedAt)];
    var st := ScriptState(UPDATED_AT_CLAUSE, fieldAddParams.entries, false);
    st := AppendAddedFollowers(fieldAddParams, st, cd.fieldsAdded);
    if st.failed {
      FoldDeletedFailed(st, cd.fieldsDeleted);
      FoldUpdatedFailed(st, cd.fieldsUpdated, entity);
      return None;
    }
    st := AppendDeletedFollowers(fieldAddParams, st, cd.fieldsDeleted);
    if st.failed {
      FoldUpdatedFailed(st, cd.fieldsUpdated, entity);
      return None;
    }
    st := AppendUpdatedFields(fieldAddParams, st, cd.fieldsUpdated, entity);
    script := if st.failed then None else Some(st.text);
  }

  /** The loop over added fields. */
  method AppendAddedFollowers(fieldAddParams: ParamMap, st: ScriptState, fs: seq<FieldChange>)
    returns (out: ScriptState)
    requires !st.failed && fieldAddParams.entries == st.params
    modifies fieldAddParams
    ensures out == FoldAdded(st, fs) && fieldAddParams.entries == out.params
  {
    var text := st.text;
    var i := 0;
    while i < |fs|
      invariant 0 <= i <= |fs|
      invariant FoldAdded(st, fs[..i]) == ScriptState(text, fieldAddParams.entries, false)
    {
      var f := fs[i];
      assert fs[..i + 1][..i] == fs[..i];
      if EqualsIgnoreCase(f.name, FIELD_FOLLOWERS) {
        if !f.newValue.Refs? {
          out := ScriptState(text, fieldAddParams.entries, true);
          FoldAddedFrom(st, fs, i);
          return;
        }
        fieldAddParams.entries := fieldAddParams.entries[f.name := FollowerIds(Ids(f.newValue.refs))];
        text := text + ADD_FOLLOWERS_CLAUSE;
      }
      i := i + 1;
    }
    assert fs[..i] == fs;
    out := ScriptState(text, fieldAddParams.entries, false);
  }

  /** The loop over deleted fields, with its inner loop over the removed
      followers. */
  method AppendDeletedFollowers(fieldAddParams: ParamMap, st: ScriptState, fs: seq<FieldChange>)
    returns (out: ScriptState)
    requires !st.failed && fieldAddParams.entries == st.params
    modifies fieldAddParams
    ensures out == FoldDeleted(st, fs) && fieldAddParams.entries == out.params
  {
    var text := st.text;
    var i := 0;
    while i < |fs|
      invariant 0 <= i <= |fs|
      invariant FoldDeleted(st, fs[..i]) == ScriptState(text, fieldAddParams.entries, false)
    {
      var f := fs[i];
      assert fs[..i + 1][..i] == fs[..i];
      if EqualsIgnoreCase(f.name, FIELD_FOLLOWERS) {
        if !f.oldValue.Refs? {
          out := ScriptState(text, fieldAddParams.entries, true);
          FoldDeletedFrom(st, fs, i);
          return;
        }
        var refs := f.oldValue.refs;
        var j := 0;
        ghost var before := fieldAddParams.entries;
        while j < |refs|
          invariant 0 <= j <= |refs|
          invariant fieldAddParams.entries == PutEach(before, f.name, refs[..j])
        {
          assert refs[..j + 1][..j] == refs[..j];
          fieldAddParams.entries := fieldAddParams.entries[f.name := FollowerId(refs[j].id)];
          j := j + 1;
        }
        assert refs[..j] == refs;
        text := text + REMOVE_FOLLOWERS_CLAUSE;
      }
      i := i + 1;
    }
    assert fs[..i] == fs;
    out := ScriptState(text, fieldAddParams.entries, false);
  }

  /** The loop over updated fields. */
  method AppendUpdatedFields(fieldAddParams: ParamMap, st: ScriptState, fs: seq<FieldChange>, entity: Entity)
    returns (out: ScriptState)
    requires !st.failed && fieldAddParams.entries == st.params
    modifies fieldAddParams
    ensures out == FoldUpdated(st, fs, entity) && fieldAddParams.entries == out.params
    ensures out.failed <==> exists i :: 0 <= i < |fs| && UpdateThrows(fs[i], entity)
  {
    out := st;
    var i := 0;
    while i < |fs|
      invariant 0 <= i <= |fs|
      invariant out == FoldUpdated(st, fs[..i], entity) && !out.failed
      invariant fieldAddParams.entries == out.params
    {
      assert fs[..i + 1][..i] == fs[..i];
      out := UpdateOneField(fieldAddParams, out, fs[i], entity);
      if out.failed {
        FoldUpdatedFrom(st, fs, i, entity);
        FoldUpdatedThrows(st, fs, entity);
        return;
      }
      i := i + 1;
    }
    assert fs[..i] == fs;
    FoldUpdatedThrows(st, fs, entity);
  }

  /** One updated field: each of the five checks is made in turn. */
  method UpdateOneField(fieldAddParams: ParamMap, st: ScriptState, f: FieldChange, entity: Entity)
    returns (out: ScriptState)
    requires !st.failed && fieldAddParams.entries == st.params
    modifies fieldAddParams
    ensures out == UpdatedFieldStep(st, f, entity) && fieldAddParams.entries == out.params
    ensures out.failed <==> UpdateThrows(f, entity)
  {
    var text := st.text;
    if EqualsIgnoreCase(f.name, FIELD_USAGE_SUMMARY) {
      if !f.newValue.Usage? {
        out := st.(failed := true);
        return;
      }
      fieldAddParams.entries := fieldAddParams.entries[f.name := Converted(f.newValue)];
      text := text + USAGE_SUMMARY_CLAUSE;
    }
    ghost var s1 := UsageSummaryCheck(st, f);
    assert ScriptState(text, fieldAddParams.entries, false) == s1;
    if entity.entityType == QUERY && EqualsIgnoreCase(f.name, "queryUsedIn") {
      if !f.newValue.Refs? {
        out := ScriptState(text, fieldAddParams.entries, true);
        return;
      }
      fieldAddParams.entries := fieldAddParams.entries[f.name := Converted(f.newValue)];
      text := text + QUERY_USED_IN_CLAUSE;
    }
    ghost var s2 := QueryUsedInCheck(s1, f, entity);
    assert ScriptState(text, fieldAddParams.entries, false) == s2;
    if EqualsIgnoreCase(f.name, "votes") {
      fieldAddParams.entries := fieldAddParams.entries[f.name := EntityProperty("votes")];
      text := text + VOTES_CLAUSE;
    }
    ghost var s3 := VotesCheck(s2, f);
    assert ScriptState(text, fieldAddParams.entries, false) == s3;
    if EqualsIgnoreCase(f.name, "pipelineStatus") {
      text := text + PIPELINE_STATUS_CLAUSE;
      fieldAddParams.entries := fieldAddParams.entries["newPipelineStatus" := EntityProperty("pipelineStatus")];
    }
    ghost var s4 := PipelineStatusCheck(s3, f);
    assert ScriptState(text, fieldAddParams.entries, false) == s4;
    if EqualsIgnoreCase(f.name, "testSuites") {
      text := text + TEST_SUITES_CLAUSE;
      fieldAddParams.entries := fieldAddParams.entries["testSuites" := EntityProperty("testSuites")];
    }
    out := ScriptState(text, fieldAddParams.entries, false);
  }

  lemma {:induction false} FoldAddedFailed(st: ScriptState, fs: seq<FieldChange>)
    requires st.failed
    ensures FoldAdded(st, fs) == st
  {
    if fs != [] { FoldAddedFailed(st, fs[..|fs| - 1]); }
  }

  lemma {:induction false} FoldDeletedFailed(st: ScriptState, fs: seq<FieldChange>)
    requires st.failed
    ensures FoldDeleted(st, fs) == st
  {
    if fs != [] { FoldDeletedFailed(st, fs[..|fs| - 1]); }
  }

  lemma {:induction false} FoldUpdatedFailed(st: ScriptState, fs: seq<FieldChange>, entity: Entity)
    requires st.failed
    ensures FoldUpdated(st, fs, entity) == st
  {
    if fs != [] { FoldUpdatedFailed(st, fs[..|fs| - 1], entity); }
  }

  /** Once a cast has failed, later field changes change nothing. */
  lemma {:induction false} FoldAddedFrom(st: ScriptState, fs: seq<FieldChange>, i: nat)
    requires i < |fs| && FoldAdded(st, fs[..i + 1]).failed
    ensures FoldAdded(st, fs) == FoldAdded(st, fs[..i + 1])
  {
    if |fs| > i + 1 {
      assert fs[..|fs| - 1][..i + 1] == fs[..i + 1];
      FoldAddedFrom(st, fs[..|fs| - 1], i);
    } else {
      assert fs[..i + 1] == fs;
    }
  }

  lemma {:induction false} FoldUpdatedFrom(st: ScriptState, fs: seq<FieldChange>, i: nat, entity: Entity)
    requires i < |fs| && FoldUpdated(st, fs[..i + 1], entity).failed
    ensures FoldUpdated(st, fs, entity) == FoldUpdated(st, fs[..i + 1], entity)
  {
    if |fs| > i + 1 {
      assert fs[..|fs| - 1][..i + 1] == fs[..i + 1];
      FoldUpdatedFrom(st, fs[..|fs| - 1], i, entity);
    } else {
      assert fs[..i + 1] == fs;
    }
  }

  /** The added followers fail exactly when one of their casts throws. */
  lemma {:induction false} FoldAddedThrows(st: ScriptState, fs: seq<FieldChange>)
    requires !st.failed
    ensures FoldAdded(st, fs).failed <==> exists i :: 0 <= i < |fs| && AddedThrows(fs[i])
  {
    if fs != [] {
      var init := fs[..|fs| - 1];
      FoldAddedThrows(st, init);
      assert forall i :: 0 <= i < |init| ==> init[i] == fs[i];
    }
  }

  /** The deleted followers fail exactly when one of their casts throws. */
  lemma {:induction false} FoldDeletedThrows(st: ScriptState, fs: seq<FieldChange>)
    requires !st.failed
    ensures FoldDeleted(st, fs).failed <==> exists i :: 0 <= i < |fs| && DeletedThrows(fs[i])
  {
    if fs != [] {
      var init := fs[..|fs| - 1];
      FoldDeletedThrows(st, init);
      assert forall i :: 0 <= i < |init| ==> init[i] == fs[i];
    }
  }

  /** The updated fields fail exactly when one of them cannot be read. */
  lemma {:induction false} FoldUpdatedThrows(st: ScriptState, fs: seq<FieldChange>, entity: Entity)
    requires !st.failed
    ensures FoldUpdated(st, fs, entity).failed <==> exists i :: 0 <= i < |fs| && UpdateThrows(fs[i], entity)
  {
    if fs != [] {
      var init := fs[..|fs| - 1];
      FoldUpdatedThrows(st, init, entity);
      assert forall i :: 0 <= i < |init| ==> init[i] == fs[i];
    }
  }

  /** `getScriptWithParams` produces no script exactly when some cast or
      conversion throws, in any of the three lists. */
  lemma ScriptFailsIffSomeChangeThrows(entity: Entity, params: map<string, Param>, cd: ChangeDescription)
    ensures ScriptWithParams(entity, params, cd).failed <==>
      (exists i :: 0 <= i < |cd.fieldsAdded| && AddedThrows(cd.fieldsAdded[i]))
      || (exists i :: 0 <= i < |cd.fieldsDeleted| && DeletedThrows(cd.fieldsDeleted[i]))
      || (exists i :: 0 <= i < |cd.fieldsUpdated| && UpdateThrows(cd.fieldsUpdated[i], entity))
  {
    var start := ScriptState(UPDATED_AT_CLAUSE, params["updatedAt" := UpdatedAt(entity.updatedAt)], false);
    var a := FoldAdded(start, cd.fieldsAdded);
    FoldAddedThrows(start, cd.fieldsAdded);
    if a.failed {
      FoldDeletedFailed(a, cd.fieldsDeleted);
      FoldUpdatedFailed(a, cd.fieldsUpdated, entity);
    } else {
      var d := FoldDeleted(a, cd.fieldsDeleted);
      FoldDeletedThrows(a, cd.fieldsDeleted);
      if d.failed {
        FoldUpdatedFailed(d, cd.fieldsUpdated, entity);
      } else {
        FoldUpdatedThrows(d, cd.fieldsUpdated, entity);
      }
    }
  }

  lemma {:induction false} FoldDeletedFrom(st: ScriptState, fs: seq<FieldChange>, i: nat)
    requires i < |fs| && FoldDeleted(st, fs[..i + 1]).failed
    ensures FoldDeleted(st, fs) == FoldDeleted(st, fs[..i + 1])
  {
    if |fs| > i + 1 {
      assert fs[..|fs| - 1][..i + 1] == fs[..i + 1];
      FoldDeletedFrom(st, fs[..|fs| - 1], i);
    } else {
      assert fs[..i + 1] == fs;
    }
  }

  /** Names that differ in their first letter, ignoring case, are not equal
      ignoring case. */
  lemma FirstLetterDiffers(a: string, b: string)
    requires |a| > 0 && |b| > 0 && ToUpperChar(a[0]) != ToUpperChar(b[0])
    ensures !EqualsIgnoreCase(a, b)
  {
  }

  /** No step writes the `updatedAt` key or removes text already built. */
  predicate Extends(st: ScriptState, out: ScriptState)
  {
    StartsWith(out.text, st.text)
    && (st.failed ==> out == st)
    && ("updatedAt" in st.params ==> "updatedAt" in out.params && out.params["updatedAt"] == st.params["updatedAt"])
  }

  lemma ExtendsTrans(a: ScriptState, b: ScriptState, c: ScriptState)
    requires Extends(a, b) && Extends(b, c)
    ensures Extends(a, c)
  {
    assert c.text[..|a.text|] == c.text[..|b.text|][..|a.text|];
  }

  lemma {:induction false} PutEachOtherKeys(params: map<string, Param>, key: string, refs: seq<EntityRef>, k: string)
    requires k != key
    ensures k in PutEach(params, key, refs) <==> k in params
    ensures k in params ==> PutEach(params, key, refs)[k] == params[k]
  {
    if refs != [] { PutEachOtherKeys(params, key, refs[..|refs| - 1], k); }
  }

  lemma AddedStepExtends(st: ScriptState, f: FieldChange)
    ensures Extends(st, AddedFollowersStep(st, f))
  {
    if f.name == "updatedAt" { FirstLetterDiffers(f.name, FIELD_FOLLOWERS); }
  }

  lemma DeletedStepExtends(st: ScriptState, f: FieldChange)
    ensures Extends(st, DeletedFollowersStep(st, f))
  {
    if f.name == "updatedAt" {
      FirstLetterDiffers(f.name, FIELD_FOLLOWERS);
    } else if f.oldValue.Refs? {
      PutEachOtherKeys(st.params, f.name, f.oldValue.refs, "updatedAt");
    }
  }

  lemma UpdatedStepExtends(st: ScriptState, f: FieldChange, entity: Entity)
    ensures Extends(st, UpdatedFieldStep(st, f, entity))
  {
    if !st.failed {
      var s1 := UsageSummaryCheck(st, f);
      var s2 := QueryUsedInCheck(s1, f, entity);
      var s3 := VotesCheck(s2, f);
      var s4 := PipelineStatusCheck(s3, f);
      var s5 := TestSuitesCheck(s4, f);
      assert Extends(st, s1);
      assert Extends(s1, s2);
      ExtendsTrans(st, s1, s2);
      assert Extends(s2, s3);
      ExtendsTrans(st, s2, s3);
      assert Extends(s3, s4);
      ExtendsTrans(st, s3, s4);
      assert Extends(s4, s5);
      ExtendsTrans(st, s4, s5);
    }
  }

  lemma {:induction false} FoldsExtend(st: ScriptState, fs: seq<FieldChange>, entity: Entity)
    ensures Extends(st, FoldAdded(st, fs))
    ensures Extends(st, FoldDeleted(st, fs))
    ensures Extends(st, FoldUpdated(st, fs, entity))
  {
    if fs != [] {
      var init := fs[..|fs| - 1];
      var f := fs[|fs| - 1];
      FoldsExtend(st, init, entity);
      AddedStepExtends(FoldAdded(st, init), f);
      DeletedStepExtends(FoldDeleted(st, init), f);
      UpdatedStepExtends(FoldUpdated(st, init, entity), f, entity);
      ExtendsTrans(st, FoldAdded(st, init), FoldAdded(st, fs));
      ExtendsTrans(st, FoldDeleted(st, init), FoldDeleted(st, fs));
      ExtendsTrans(st, FoldUpdated(st, init, entity), FoldUpdated(st, fs, entity));
    }
  }

  /** The script always begins with the `updatedAt` assignment and the
      parameters always carry the entity's `updatedAt`. */
  lemma ScriptStartsWithUpdatedAt(entity: Entity, params: map<string, Param>, cd: ChangeDescription)
    ensures var st := ScriptWithParams(entity, params, cd);
      StartsWith(st.text, UPDATED_AT_CLAUSE)
      && "updatedAt" in st.params && st.params["updatedAt"] == UpdatedAt(entity.updatedAt)
  {
    var start := ScriptState(UPDATED_AT_CLAUSE, params["updatedAt" := UpdatedAt(entity.updatedAt)], false);
    var a := FoldAdded(start, cd.fieldsAdded);
    var d := FoldDeleted(a, cd.fieldsDeleted);
    FoldsExtend(start, cd.fieldsAdded, entity);
    FoldsExtend(a, cd.fieldsDeleted, entity);
    FoldsExtend(d, cd.fieldsUpdated, entity);
    ExtendsTrans(start, a, d);
    ExtendsTrans(start, d, FoldUpdated(d, cd.fieldsUpdated, entity));
  }

  function Repeat(s: string, n: nat): string
  {
    if n == 0 then "" else Repeat(s, n - 1) + s
  }

  /** How many added fields are follower lists (ignoring case). */
  function CountFollowerFields(fs: seq<FieldChange>): nat
  {
    if fs == [] then 0
    else CountFollowerFields(fs[..|fs| - 1]) + (if EqualsIgnoreCase(fs[|fs| - 1].name, FIELD_FOLLOWERS) then 1 else 0)
  }

  /** After the added fields, the script is the `updatedAt` assignment
      followed by one add-followers clause per added followers field. */
  lemma {:induction false} FollowerClausePerAddedField(start: ScriptState, fs: seq<FieldChange>)
    requires !FoldAdded(start, fs).failed
    ensures FoldAdded(start, fs).text == start.text + Repeat(ADD_FOLLOWERS_CLAUSE, CountFollowerFields(fs))
  {
    if fs != [] {
      var init := fs[..|fs| - 1];
      if FoldAdded(start, init).failed {
        assert false;
      } else {
        FollowerClausePerAddedField(start, init);
      }
    }
  }

  // ---------------------------------------------------------------------
  // Children of deleted and soft-deleted entities

  /** Where `updateChildren` applies: the global search alias or the given
      child indices. */
  datatype Target = GlobalSearchAlias | Indices(names: seq<string>)

  /** The update scripts the delete routes use, named after the search
      client's constants, and the literal dashboard script. */
  datatype ChildScript =
    | RemoveDomainsChildren
    | RemoveDataProductsChildren
    | RemoveTagsChildren
    | RemoveTestSuiteChildren
    | SoftDeleteRestore(delete: bool)
    | Literal(text: string)

  datatype SearchCall =
    | UpdateChildren(target: Target, byMatch: Match, script: ChildScript, params: map<string, string>)
    | DeleteByFields(indices: seq<string>, byMatch: Match)
    | SoftDeleteOrRestoreChildren(indices: seq<string>, script: ChildScript, byMatch: Match)

  /** The entity being deleted: `basic` is a test suite's flag (None when it
      is null or the entity is not a test suite). */
  datatype DeletedEntity = DeletedEntity(id: string, entityType: string, fullyQualifiedName: string, basic: Option<bool>)

  /** The seven service types of the child routes, compared exactly;
      `apiService` is not among them. */
  predicate IsRoutedServiceType(entityType: string)
  {
    entityType in [DASHBOARD_SERVICE, DATABASE_SERVICE, MESSAGING_SERVICE, PIPELINE_SERVICE,
                   MLMODEL_SERVICE, STORAGE_SERVICE, SEARCH_SERVICE]
  }

  /** None of the entity types with a route of their own is a service type. */
  lemma SpecialTypesAreNotServices()
    ensures !IsRoutedServiceType(DOMAIN) && !IsRoutedServiceType(DATA_PRODUCT)
    ensures !IsRoutedServiceType(TAG) && !IsRoutedServiceType(GLOSSARY_TERM)
    ensures !IsRoutedServiceType(DASHBOARD) && !IsRoutedServiceType(TEST_SUITE)
  {
  }

  function DashboardScript(delete: bool): string
  {
    "if (ctx._source.dashboards.size() == 1) { ctx._source.put('deleted', '"
      + (if delete then "true" else "false") + "') }"
  }

  /** `deleteOrUpdateChildren`: the search calls a hard delete makes. */
  function DeleteOrUpdateChildren(entity: DeletedEntity, childAliases: seq<string>): (calls: seq<SearchCall>)
    ensures |calls| <= 2
    ensures entity.entityType == DOMAIN ==>
      calls == [UpdateChildren(GlobalSearchAlias, Match("domain.id", entity.id), RemoveDomainsChildren, map[]),
                DeleteByFields(childAliases, Match("domain.id", entity.id))]
    ensures entity.entityType == DATA_PRODUCT ==>
      calls == [UpdateChildren(GlobalSearchAlias, Match("dataProducts.id", entity.id), RemoveDataProductsChildren,
                               map["fqn" := entity.fullyQualifiedName])]
    ensures entity.entityType == TAG || entity.entityType == GLOSSARY_TERM ==>
      calls == [UpdateChildren(GlobalSearchAlias, Match("tags.tagFQN", entity.fullyQualifiedName), RemoveTagsChildren,
                               map["fqn" := entity.fullyQualifiedName])]
    ensures entity.entityType == DASHBOARD ==>
      calls == [SoftDeleteOrRestoreChildren(childAliases, Literal(DashboardScript(true)), Match("dashboards.id", entity.id))]
    ensures entity.entityType == TEST_SUITE && entity.basic == Some(true) ==>
      calls == [DeleteByFields(childAliases, Match("testSuite.id", entity.id))]
    ensures entity.entityType == TEST_SUITE && entity.basic != Some(true) ==>
      calls == [UpdateChildren(Indices(childAliases), Match("testSuites.id", entity.id), RemoveTestSuiteChildren, map[])]
    ensures IsRoutedServiceType(entity.entityType) ==>
      calls == [DeleteByFields(childAliases, Match("service.id", entity.id))]
    ensures !IsSpecialDeleteType(entity.entityType) ==>
      calls == if childAliases == [] then [] else [DeleteByFields(childAliases, Match(entity.entityType + ".id", entity.id))]
    ensures calls == [] <==> (childAliases == [] && !IsSpecialDeleteType(entity.entityType))
  {
    SpecialTypesAreNotServices();
    var t := entity.entityType;
    var docId := entity.id;
    if t == DOMAIN then
      assert t + ".id" == "domain.id";
      [UpdateChildren(GlobalSearchAlias, Match(t + ".id", docId), RemoveDomainsChildren, map[]),
       DeleteByFields(childAliases, Match(t + ".id", docId))]
    else if t == DATA_PRODUCT then
      [UpdateChildren(GlobalSearchAlias, Match("dataProducts.id", docId), RemoveDataProductsChildren,
                      map["fqn" := entity.fullyQualifiedName])]
    else if t == TAG || t == GLOSSARY_TERM then
      [UpdateChildren(GlobalSearchAlias, Match("tags.tagFQN", entity.fullyQualifiedName), RemoveTagsChildren,
                      map["fqn" := entity.fullyQualifiedName])]
    else if t == DASHBOARD then
      [SoftDeleteOrRestoreChildren(childAliases, Literal(DashboardScript(true)), Match("dashboards.id", docId))]
    else if t == TEST_SUITE then
      if entity.basic == Some(true) then [DeleteByFields(childAliases, Match("testSuite.id", docId))]
      else [UpdateChildren(Indices(childAliases), Match("testSuites.id", docId), RemoveTestSuiteChildren, map[])]
    else if IsRoutedServiceType(t) then
      [DeleteByFields(childAliases, Match("service.id", docId))]
    else if childAliases != [] then
      [DeleteByFields(childAliases, Match(t + ".id", docId))]
    else []
  }

  /** The types `deleteOrUpdateChildren` routes to a call of their own. */
  predicate IsSpecialDeleteType(t: string)
  {
    t in [DOMAIN, DATA_PRODUCT, TAG, GLOSSARY_TERM, DASHBOARD, TEST_SUITE] || IsRoutedServiceType(t)
  }

  /** `softDeleteOrRestoredChildren`: exactly one call on the child aliases,
      matching service children by `service.id`, dashboard children by
      `dashboards.id` and every other type's children by `<type>.id`. */
  function SoftDeleteOrRestoredChildren(entityType: string, entityId: string, childAliases: seq<string>, delete: bool)
    : (call: SearchCall)
    ensures call.SoftDeleteOrRestoreChildren? && call.indices == childAliases && call.byMatch.value == entityId
    ensures call.byMatch.field ==
      if IsRoutedServiceType(entityType) then "service.id"
      else if entityType == DASHBOARD then "dashboards.id"
      else entityType + ".id"
    ensures call.script == if entityType == DASHBOARD then Literal(DashboardScript(delete)) else SoftDeleteRestore(delete)
  {
    SpecialTypesAreNotServices();
    if IsRoutedServiceType(entityType) then
      SoftDeleteOrRestoreChildren(childAliases, SoftDeleteRestore(delete), Match("service.id", entityId))
    else if entityType == DASHBOARD then
      SoftDeleteOrRestoreChildren(childAliases, Literal(DashboardScript(delete)), Match("dashboards.id", entityId))
    else
      SoftDeleteOrRestoreChildren(childAliases, SoftDeleteRestore(delete), Match(entityType + ".id", entityId))
  }

  /** An API service is a service for field paths and parent matches, but the
      child routes treat it as an ordinary type and match `apiService.id`. */
  lemma ApiServiceRoutedAsOrdinaryType(id: string, childAliases: seq<string>, delete: bool)
    requires childAliases != []
    ensures IsServiceType(API_SERVICE) && !IsRoutedServiceType(API_SERVICE)
    ensures GetFieldPath(API_SERVICE, "id") == "service.id"
    ensures DeleteOrUpdateChildren(DeletedEntity(id, API_SERVICE, "", None), childAliases)
            == [DeleteByFields(childAliases, Match("apiService.id", id))]
    ensures SoftDeleteOrRestoredChildren(API_SERVICE, id, childAliases, delete).byMatch.field == "apiService.id"
  {
    assert API_SERVICE + ".id" == "apiService.id";
  }

  /** The child routes compare types exactly: a differently cased service
      name takes the ordinary route. */
  lemma ChildRoutesAreCaseSensitive(id: string, childAliases: seq<string>, delete: bool)
    ensures IsServiceType("DatabaseService") && !IsRoutedServiceType("DatabaseService")
    ensures SoftDeleteOrRestoredChildren("DatabaseService", id, childAliases, delete).byMatch.field == "DatabaseService.id"
  {
  }
}
