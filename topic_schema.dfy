/** The message-schema tab of a topic: whether it is read-only, which
    schema it shows, the edit access it grants, the expand-all toggle, the
    field description and tag edits, and the tag filter of its table. */
module TopicSchema {
  import opened Wrappers
  import opened JsValues
  import opened EntityPageCommon
  import TopicDetails

  /** `currentVersionData ? true : topicDetails.deleted`. */
  function IsReadOnly(currentVersionData: Value, topicDetails: Object): (r: Value)
    ensures Truthy(currentVersionData) ==> r == Bool(true)
    ensures !Truthy(currentVersionData) ==> r == Get(topicDetails, "deleted")
  {
    if Truthy(currentVersionData) then Bool(true) else Get(topicDetails, "deleted")
  }

  /** The versioned schema (from `getVersionedSchema`) in the version view
      of a version with a change description; the topic's own schema
      otherwise. */
  function MessageSchema(isVersionView: bool, currentVersionData: Value, topicDetails: Object,
                         getVersionedSchema: (Value, Value) -> Value): (r: Value)
    ensures isVersionView && Truthy(Prop(currentVersionData, "changeDescription")) ==>
      r == getVersionedSchema(Prop(currentVersionData, "messageSchema"), Prop(currentVersionData, "changeDescription"))
    ensures !(isVersionView && Truthy(Prop(currentVersionData, "changeDescription"))) ==>
      r == Get(topicDetails, "messageSchema")
  {
    if isVersionView && Truthy(Prop(currentVersionData, "changeDescription")) then
      getVersionedSchema(Prop(currentVersionData, "messageSchema"), Prop(currentVersionData, "changeDescription"))
    else Get(topicDetails, "messageSchema")
  }

  datatype EditAccess = EditAccess(description: bool, tags: bool, glossaryTerms: bool)

  /** The edit-access memo: EditAll or the specific permission; the deleted
      flag plays no part here. */
  function SchemaEditAccess(p: Permissions): (r: EditAccess)
    ensures r.description <==> Allowed(p, "EditAll") || Allowed(p, "EditDescription")
    ensures r.tags <==> Allowed(p, "EditAll") || Allowed(p, "EditTags")
    ensures r.glossaryTerms <==> Allowed(p, "EditAll") || Allowed(p, "EditGlossaryTerms")
  {
    EditAccess(
      Allowed(p, "EditAll") || Allowed(p, "EditDescription"),
      Allowed(p, "EditAll") || Allowed(p, "EditTags"),
      Allowed(p, "EditAll") || Allowed(p, "EditGlossaryTerms"))
  }

  /** The schema tab grants at least what the topic page grants, and the
      same on a topic that is not deleted; on a deleted topic it still
      grants EditAll holders every edit. */
  lemma SchemaAccessAgreesUntilDeleted(p: Permissions, topicDetails: Object)
    ensures var d := TopicDetails.DerivePermissions(p, topicDetails);
      var s := SchemaEditAccess(p);
      (d.editDescription ==> s.description) && (d.editTags ==> s.tags) &&
      (d.editGlossaryTerms ==> s.glossaryTerms) &&
      (!Truthy(Get(topicDetails, "deleted")) ==>
        d.editDescription == s.description && d.editTags == s.tags && d.editGlossaryTerms == s.glossaryTerms)
    ensures Truthy(Get(topicDetails, "deleted")) && Allowed(p, "EditAll") ==>
      !TopicDetails.DerivePermissions(p, topicDetails).editTags && SchemaEditAccess(p).tags
  {
  }

  /** Expand-all: every row key while fewer rows are expanded than exist,
      no row otherwise. */
  function ToggleExpandAll(expandedRowKeys: seq<string>, allRowKeys: seq<string>): (r: seq<string>)
    ensures |expandedRowKeys| < |allRowKeys| ==> r == allRowKeys
    ensures |expandedRowKeys| >= |allRowKeys| ==> r == []
  {
    if |expandedRowKeys| < |allRowKeys| then allRowKeys else []
  }

  /** Pressing the toggle twice from a collapsed table collapses it again;
      on a table with rows the first press expands every row. */
  lemma ToggleExpandAllTwice(allRowKeys: seq<string>)
    ensures ToggleExpandAll(ToggleExpandAll([], allRowKeys), allRowKeys) == []
    ensures allRowKeys != [] ==> ToggleExpandAll([], allRowKeys) == allRowKeys
  {
  }

  // ---------------------------------------------------------------------
  // tag filter

  /** A tag option of the filter: its value and the source it comes from. */
  datatype TagOption = TagOption(text: string, value: string, source: string)

  function Values(tags: seq<TagOption>): set<string>
  {
    set t | t in tags :: t.value
  }

  /** No value occurs twice. */
  predicate DistinctValues(tags: seq<TagOption>)
  {
    forall i, j :: 0 <= i < j < |tags| ==> tags[i].value != tags[j].value
  }

  lemma DistinctCons(t: TagOption, tags: seq<TagOption>)
    requires DistinctValues(tags) && t.value !in Values(tags)
    ensures DistinctValues([t] + tags)
  {
    var s := [t] + tags;
    forall i, j | 0 <= i < j < |s| ensures s[i].value != s[j].value {
      if i == 0 {
        assert s[j] in tags;
      } else {
        assert s[i] == tags[i - 1] && s[j] == tags[j - 1];
      }
    }
  }

  /** The position of the first option with value `v`. */
  function FirstValueIndex(tags: seq<TagOption>, v: string): (k: nat)
    requires v in Values(tags)
    ensures k < |tags| && tags[k].value == v
    ensures forall j :: 0 <= j < k ==> tags[j].value != v
  {
    if tags[0].value == v then 0
    else
      assert v in Values(tags[1..]) by {
        var t :| t in tags && t.value == v;
        assert t in tags[1..];
      }
      FirstValueIndex(tags[1..], v) + 1
  }

  /** A value of a prefix has the same first position in the whole. */
  lemma FirstValueIndexInPrefix(tags: seq<TagOption>, n: nat, v: string)
    requires n <= |tags| && v in Values(tags[..n])
    ensures v in Values(tags) && FirstValueIndex(tags, v) == FirstValueIndex(tags[..n], v)
  {
    var t :| t in tags[..n] && t.value == v;
    assert t in tags;
    var k := FirstValueIndex(tags[..n], v);
    assert tags[k] == tags[..n][k];
    assert forall j :: 0 <= j < k ==> tags[j] == tags[..n][j];
  }

  /** Each option of `r` is the first of its value in `tags`, and `r` lists
      them in the order of those first positions. */
  predicate KeepsFirstInOrder(r: seq<TagOption>, tags: seq<TagOption>)
  {
    (forall t :: t in r ==> t.value in Values(tags) && t == tags[FirstValueIndex(tags, t.value)])
    && forall i, j :: 0 <= i < j < |r| ==>
         r[i].value in Values(tags) && r[j].value in Values(tags) &&
         FirstValueIndex(tags, r[i].value) < FirstValueIndex(tags, r[j].value)
  }

  /** lodash `uniqBy(tags, 'value')`: the options are walked in order and one
      is kept exactly when no option kept so far has its value. So each kept
      option is the first of its value, in the order of the input. */
  function UniqByValue(tags: seq<TagOption>): (r: seq<TagOption>)
    ensures forall t :: t in r ==> t in tags
    ensures Values(r) == Values(tags)
    ensures DistinctValues(r)
    ensures KeepsFirstInOrder(r, tags)
    ensures tags != [] ==> r != [] && r[0] == tags[0]
  {
    if tags == [] then []
    else
      var init := tags[..|tags| - 1];
      var t := tags[|tags| - 1];
      var d := UniqByValue(init);
      assert tags == init + [t];
      assert Values(tags) == Values(init) + {t.value};
      KeepsFirstInLonger(d, tags);
      if t.value in Values(d) then d
      else
        UniqAppend(d, tags);
        d + [t]
  }

  /** What holds of the prefix without its last option holds of the whole. */
  lemma KeepsFirstInLonger(d: seq<TagOption>, tags: seq<TagOption>)
    requires tags != [] && KeepsFirstInOrder(d, tags[..|tags| - 1])
    ensures KeepsFirstInOrder(d, tags)
  {
    var init := tags[..|tags| - 1];
    forall u | u in d ensures u.value in Values(tags) && FirstValueIndex(tags, u.value) == FirstValueIndex(init, u.value) {
      FirstValueIndexInPrefix(tags, |tags| - 1, u.value);
    }
    forall i, j | 0 <= i < j < |d|
      ensures FirstValueIndex(tags, d[i].value) < FirstValueIndex(tags, d[j].value)
    {
      assert d[i] in d && d[j] in d;
    }
  }

  /** Keeping the last option, whose value is new, keeps the order. */
  lemma UniqAppend(d: seq<TagOption>, tags: seq<TagOption>)
    requires tags != [] && KeepsFirstInOrder(d, tags)
    requires Values(d) == Values(tags[..|tags| - 1]) && DistinctValues(d)
    requires tags[|tags| - 1].value !in Values(d)
    ensures var r := d + [tags[|tags| - 1]];
      KeepsFirstInOrder(r, tags) && DistinctValues(r) && Values(r) == Values(d) + {tags[|tags| - 1].value}
  {
    var n := |tags| - 1;
    var t := tags[n];
    var r := d + [t];
    assert t in tags;
    assert t.value in Values(tags);
    var k := FirstValueIndex(tags, t.value);
    assert k == n;
    forall i | 0 <= i < |d| ensures r[i] == d[i] && FirstValueIndex(tags, d[i].value) < n {
      assert d[i] in d;
      assert d[i] == tags[FirstValueIndex(tags, d[i].value)];
      assert d[i].value in Values(tags[..n]);
    }
    assert forall u :: u in r <==> u in d || u == t;
  }

  /** The options with a given source, in order. */
  function WithSource(tags: seq<TagOption>, source: string): (r: seq<TagOption>)
    ensures forall t :: t in r <==> t in tags && t.source == source
  {
    if tags == [] then []
    else (if tags[0].source == source then [tags[0]] else []) + WithSource(tags[1..], source)
  }

  /** The filter keeps order and multiplicity, as `groupBy` pushes each
      option in input order: it maps a concatenation to the concatenation
      of its parts, and keeps one option exactly when it has the source. */
  lemma {:induction false} WithSourceAppend(a: seq<TagOption>, b: seq<TagOption>, t: TagOption, source: string)
    ensures WithSource(a + b, source) == WithSource(a, source) + WithSource(b, source)
    ensures WithSource([t], source) == if t.source == source then [t] else []
  {
    assert [t][1..] == [];
    if a == [] {
      assert a + b == b;
    } else {
      assert (a + b)[0] == a[0];
      assert (a + b)[1..] == a[1..] + b;
      WithSourceAppend(a[1..], b, t, source);
    }
  }

  lemma DistinctTail(tags: seq<TagOption>)
    requires tags != [] && DistinctValues(tags)
    ensures DistinctValues(tags[1..]) && tags[0].value !in Values(tags[1..])
  {
    forall i, j | 0 <= i < j < |tags[1..]| ensures tags[1..][i].value != tags[1..][j].value {
      assert tags[1..][i] == tags[i + 1] && tags[1..][j] == tags[j + 1];
    }
    forall t | t in tags[1..] ensures t.value != tags[0].value {
      var k :| 0 <= k < |tags[1..]| && tags[1..][k] == t;
      assert t == tags[k + 1];
    }
  }

  /** Picking one source keeps the values distinct. */
  lemma {:induction false} WithSourceDistinct(tags: seq<TagOption>, source: string)
    requires DistinctValues(tags)
    ensures DistinctValues(WithSource(tags, source))
  {
    if tags != [] {
      DistinctTail(tags);
      WithSourceDistinct(tags[1..], source);
      var rest := WithSource(tags[1..], source);
      if tags[0].source == source {
        assert tags[0].value !in Values(rest);
        DistinctCons(tags[0], rest);
      } else {
        assert WithSource(tags, source) == rest;
      }
    }
  }

  function Sources(tags: seq<TagOption>): set<string>
  {
    set t | t in tags :: t.source
  }

  /** `groupBy(uniqBy(tags, 'value'), (tag) => tag.source)`: each value of
      the input is listed once, by its first option, in the group of that
      option's source; nothing else is listed. */
  function TagFilter(tags: seq<TagOption>): (r: map<string, seq<TagOption>>)
    ensures forall src, t :: src in r && t in r[src] ==> t in tags && t.source == src
    ensures forall src, t :: src in r && t in r[src] ==>
      t.value in Values(tags) && t == tags[FirstValueIndex(tags, t.value)]
    ensures forall t :: t in tags ==>
      t.value in Values(tags) &&
      var first := tags[FirstValueIndex(tags, t.value)];
      first.source in r && first in r[first.source]
    ensures forall src :: src in r <==> src in Sources(UniqByValue(tags))
    ensures forall src :: src in r ==> r[src] == WithSource(UniqByValue(tags), src)
  {
    var uniq := UniqByValue(tags);
    var r := map src | src in Sources(uniq) :: WithSource(uniq, src);
    forall t | t in tags
      ensures t.value in Values(tags) &&
        var first := tags[FirstValueIndex(tags, t.value)];
        first.source in r && first in r[first.source]
    {
      assert t.value in Values(tags);
      var u :| u in uniq && u.value == t.value;
      assert u.source in Sources(uniq);
    }
    r
  }

  /** Every group is non-empty and lists no value twice. */
  lemma TagFilterGroupsAreDistinct(tags: seq<TagOption>, src: string)
    requires src in TagFilter(tags)
    ensures TagFilter(tags)[src] != [] && DistinctValues(TagFilter(tags)[src])
  {
    var uniq := UniqByValue(tags);
    var t :| t in uniq && t.source == src;
    assert t in TagFilter(tags)[src];
    WithSourceDistinct(uniq, src);
  }

  /** The value of every input option is listed under some source. */
  lemma TagFilterListsEveryValue(tags: seq<TagOption>, t: TagOption)
    requires t in tags
    ensures exists src :: src in TagFilter(tags) && t.value in Values(TagFilter(tags)[src])
  {
    var uniq := UniqByValue(tags);
    assert t.value in Values(uniq);
    var u :| u in uniq && u.value == t.value;
    assert u.source in Sources(uniq);
    assert u in TagFilter(tags)[u.source];
  }

  // ---------------------------------------------------------------------
  // component state

  /** The component state: the field whose description is being edited and
      the expanded rows. */
  class TopicSchemaState {
    var editFieldDescription: Option<Value>
    var expandedRowKeys: seq<string>

    constructor()
      ensures editFieldDescription.None? && expandedRowKeys == []
    {
      editFieldDescription := None;
      expandedRowKeys := [];
    }

    /** The mount effect: every row starts expanded. */
    method ExpandAllOnMount(schemaAllRowKeys: seq<string>)
      modifies this
      ensures expandedRowKeys == schemaAllRowKeys
      ensures editFieldDescription == old(editFieldDescription)
    {
      expandedRowKeys := schemaAllRowKeys;
    }

    method ToggleExpandAllRows(schemaAllRowKeys: seq<string>)
      modifies this
      ensures expandedRowKeys == ToggleExpandAll(old(expandedRowKeys), schemaAllRowKeys)
      ensures editFieldDescription == old(editFieldDescription)
    {
      expandedRowKeys := ToggleExpandAll(expandedRowKeys, schemaAllRowKeys);
    }

    /** `handleFieldDescriptionChange`: with a field being edited and an
        update handler, the topic is sent with the schema that
        `updateFieldDescription` gives for the field's FQN (`''` when it
        has none); in every case the editor closes. */
    method HandleFieldDescriptionChange(updatedDescription: string, hasOnUpdate: bool,
                                        messageSchema: Value, topicDetails: Object,
                                        updateFieldDescription: (Value, string, Value) -> Value)
      returns (update: Option<Object>)
      modifies this
      ensures update.Some? <==> old(editFieldDescription).Some? && hasOnUpdate
      ensures update.Some? ==> update.value == SetProps(topicDetails, map["messageSchema" :=
        updateFieldDescription(Coalesce(Prop(old(editFieldDescription).value, "fullyQualifiedName"), Str("")),
                               updatedDescription, messageSchema)])
      ensures editFieldDescription.None? && expandedRowKeys == old(expandedRowKeys)
    {
      update := None;
      if editFieldDescription.Some? && hasOnUpdate {
        var fqn := Coalesce(Prop(editFieldDescription.value, "fullyQualifiedName"), Str(""));
        var schema := updateFieldDescription(fqn, updatedDescription, messageSchema);
        update := Some(SetProps(topicDetails, map["messageSchema" := schema]));
      }
      editFieldDescription := None;
    }
  }

  /** `handleFieldTagsChange`: with an update handler, the topic is sent
      with the schema that `updateFieldTags` gives for the edited field. */
  function FieldTagsChange(selectedTags: seq<Value>, editColumnTag: Value, hasOnUpdate: bool,
                           messageSchema: Value, topicDetails: Object,
                           updateFieldTags: (Value, seq<Value>, Value) -> Value): (r: Option<Object>)
    ensures r.Some? <==> Truthy(editColumnTag) && hasOnUpdate
    ensures r.Some? ==>
      Get(r.value, "messageSchema") == updateFieldTags(Coalesce(Prop(editColumnTag, "fullyQualifiedName"), Str("")), selectedTags, messageSchema)
    ensures r.Some? ==> forall k :: k != "messageSchema" ==> Get(r.value, k) == Get(topicDetails, k)
  {
    if Truthy(editColumnTag) && hasOnUpdate then
      Some(SetProps(topicDetails, map["messageSchema" :=
        updateFieldTags(Coalesce(Prop(editColumnTag, "fullyQualifiedName"), Str("")), selectedTags, messageSchema)]))
    else None
  }
}
