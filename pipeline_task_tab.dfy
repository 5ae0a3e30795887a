/** The task tab of a pipeline: the edit access it grants, the task rows it
    shows, and the pipeline it sends after a task description or a task's
    tags are edited. */
module PipelineTaskTab {
  import opened Wrappers
  import opened EntityPageCommon

  /** A tag label; its FQN identifies it. */
  datatype TagLabel = TagLabel(tagFQN: string, source: string, labelType: string)

  /** A task of the pipeline, with the properties the tab reads or edits. */
  datatype Task = Task(name: string, description: Option<string>, tags: Option<seq<TagLabel>>)

  datatype TaskEditAccess = TaskEditAccess(description: bool, tags: bool, glossaryTerms: bool)

  /** `permissions?.EditAll || permissions?.X`: nothing is editable while
      the permissions are undefined. */
  function TaskPermissions(permissions: Option<Permissions>): (r: TaskEditAccess)
    ensures permissions.None? ==> !r.description && !r.tags && !r.glossaryTerms
    ensures permissions.Some? ==>
      (r.description <==> Allowed(permissions.value, "EditAll") || Allowed(permissions.value, "EditDescription")) &&
      (r.tags <==> Allowed(permissions.value, "EditAll") || Allowed(permissions.value, "EditTags")) &&
      (r.glossaryTerms <==> Allowed(permissions.value, "EditAll") || Allowed(permissions.value, "EditGlossaryTerms"))
  {
    match permissions
    case None => TaskEditAccess(false, false, false)
    case Some(p) =>
      TaskEditAccess(
        Allowed(p, "EditAll") || Allowed(p, "EditDescription"),
        Allowed(p, "EditAll") || Allowed(p, "EditTags"),
        Allowed(p, "EditAll") || Allowed(p, "EditGlossaryTerms"))
  }

  function WithTags(t: Task): Task
  {
    t.(tags := Some(t.tags.GetOr([])))
  }

  /** `tasksInternal`: the pipeline's tasks in order, each with its tags
      (`[]` when it has none); no rows when the pipeline has no tasks. */
  function TasksInternal(tasks: Option<seq<Task>>): (r: seq<Task>)
    ensures tasks.None? ==> r == []
    ensures tasks.Some? ==> |r| == |tasks.value|
    ensures tasks.Some? ==> forall i :: 0 <= i < |r| ==>
      r[i].name == tasks.value[i].name && r[i].description == tasks.value[i].description &&
      r[i].tags == Some(tasks.value[i].tags.GetOr([]))
  {
    match tasks
    case None => []
    case Some(ts) => seq(|ts|, i requires 0 <= i < |ts| => WithTags(ts[i]))
  }

  /** Every row has its tags defined, and a task that has tags keeps them. */
  lemma TaskRowsHaveTags(tasks: seq<Task>, i: nat)
    requires i < |tasks|
    ensures TasksInternal(Some(tasks))[i].tags.Some?
    ensures tasks[i].tags.Some? ==> TasksInternal(Some(tasks))[i] == tasks[i]
  {
  }

  /** The task being edited and its row index. */
  datatype EditTask = EditTask(task: Task, index: nat)

  /** The tab state: the task whose description is being edited. */
  class PipelineTaskTabState {
    var editTask: Option<EditTask>

    constructor()
      ensures editTask.None?
    {
      editTask := None;
    }

    /** `onTaskUpdate`: a copy of the pipeline's tasks in which the edited
        row holds the edited task with the new description; no update when
        no task is being edited. The editor closes in every case. */
    method OnTaskUpdate(taskDescription: string, pipelineTasks: Option<seq<Task>>)
      returns (updatedTasks: Option<seq<Task>>)
      requires editTask.Some? ==> editTask.value.index < |pipelineTasks.GetOr([])|
      modifies this
      ensures updatedTasks.Some? <==> old(editTask).Some?
      ensures updatedTasks.Some? ==>
        var ts := pipelineTasks.GetOr([]);
        var e := old(editTask).value;
        |updatedTasks.value| == |ts| &&
        updatedTasks.value[e.index] == e.task.(description := Some(taskDescription)) &&
        forall i :: 0 <= i < |ts| && i != e.index ==> updatedTasks.value[i] == ts[i]
      ensures editTask.None?
    {
      updatedTasks := None;
      if editTask.Some? {
        var ts := pipelineTasks.GetOr([]);
        var copy := new Task[|ts|](i requires 0 <= i < |ts| => ts[i]);
        copy[editTask.value.index] := editTask.value.task.(description := Some(taskDescription));
        updatedTasks := Some(copy[..]);
      }
      editTask := None;
    }
  }

  // ---------------------------------------------------------------------
  // tag selection

  function Fqns(tags: seq<TagLabel>): set<string>
  {
    set t | t in tags :: t.tagFQN
  }

  /** `tags.filter((tag) => keep(tag))`, written for FQN membership. */
  function KeepSelected(tags: seq<TagLabel>, selected: seq<TagLabel>): (r: seq<TagLabel>)
    ensures forall t :: t in r <==> t in tags && t.tagFQN in Fqns(selected)
  {
    if tags == [] then []
    else (if tags[0].tagFQN in Fqns(selected) then [tags[0]] else []) + KeepSelected(tags[1..], selected)
  }

  /** The previous tags stay in their previous order, each as often as
      before: the filter maps a concatenation to the concatenation of its
      parts and keeps one tag exactly when its FQN is selected. */
  lemma {:induction false} KeepSelectedAppend(a: seq<TagLabel>, b: seq<TagLabel>, t: TagLabel, selected: seq<TagLabel>)
    ensures KeepSelected(a + b, selected) == KeepSelected(a, selected) + KeepSelected(b, selected)
    ensures KeepSelected([t], selected) == if t.tagFQN in Fqns(selected) then [t] else []
  {
    assert [t][1..] == [];
    if a == [] {
      assert a + b == b;
    } else {
      assert (a + b)[0] == a[0];
      assert (a + b)[1..] == a[1..] + b;
      KeepSelectedAppend(a[1..], b, t, selected);
    }
  }

  /** The selected tags whose FQN the task does not have yet. */
  function NotIn(selected: seq<TagLabel>, existing: seq<TagLabel>): (r: seq<TagLabel>)
    ensures forall t :: t in r <==> t in selected && t.tagFQN !in Fqns(existing)
  {
    if selected == [] then []
    else (if selected[0].tagFQN !in Fqns(existing) then [selected[0]] else []) + NotIn(selected[1..], existing)
  }

  /** The new tags keep the selection's order: the filter maps a
      concatenation to the concatenation of its parts and keeps one tag
      exactly when the task does not have its FQN. */
  lemma {:induction false} NotInAppend(a: seq<TagLabel>, b: seq<TagLabel>, t: TagLabel, existing: seq<TagLabel>)
    ensures NotIn(a + b, existing) == NotIn(a, existing) + NotIn(b, existing)
    ensures NotIn([t], existing) == if t.tagFQN !in Fqns(existing) then [t] else []
  {
    assert [t][1..] == [];
    if a == [] {
      assert a + b == b;
    } else {
      assert (a + b)[0] == a[0];
      assert (a + b)[1..] == a[1..] + b;
      NotInAppend(a[1..], b, t, existing);
    }
  }

  /** `createTagObject` applied to each newly selected tag. */
  function Convert(tags: seq<TagLabel>, createTag: TagLabel -> TagLabel): (r: seq<TagLabel>)
    ensures |r| == |tags| && forall i :: 0 <= i < |r| ==> r[i] == createTag(tags[i])
  {
    seq(|tags|, i requires 0 <= i < |tags| => createTag(tags[i]))
  }

  /** The edited task's new tags: those it had that are still selected
      (unchanged), then the newly selected ones converted. A task row
      without a tags list makes the spread throw: None. */
  function MergedTags(selectedTags: seq<TagLabel>, editColumnTag: Task, createTag: TagLabel -> TagLabel): (r: Option<seq<TagLabel>>)
    ensures editColumnTag.tags.None? <==> r.None?
    ensures r.Some? ==>
      var old_ := editColumnTag.tags.value;
      r.value == KeepSelected(old_, selectedTags) + Convert(NotIn(selectedTags, old_), createTag)
  {
    match editColumnTag.tags
    case None => None
    case Some(existing) => Some(KeepSelected(existing, selectedTags) + Convert(NotIn(selectedTags, existing), createTag))
  }

  /** When `createTagObject` keeps each tag's FQN, the task ends up with
      exactly the selected FQNs, and a tag it kept is its old label. */
  lemma MergedTagsAreTheSelection(selectedTags: seq<TagLabel>, editColumnTag: Task, createTag: TagLabel -> TagLabel)
    requires editColumnTag.tags.Some?
    requires forall t :: t in selectedTags ==> createTag(t).tagFQN == t.tagFQN
    ensures Fqns(MergedTags(selectedTags, editColumnTag, createTag).value) == Fqns(selectedTags)
    ensures forall t :: t in MergedTags(selectedTags, editColumnTag, createTag).value && t.tagFQN in Fqns(editColumnTag.tags.value) ==>
      t in editColumnTag.tags.value
  {
    var existing := editColumnTag.tags.value;
    var kept := KeepSelected(existing, selectedTags);
    var added := NotIn(selectedTags, existing);
    var conv := Convert(added, createTag);
    var r := kept + conv;
    assert MergedTags(selectedTags, editColumnTag, createTag).value == r;
    forall f | f in Fqns(r) ensures f in Fqns(selectedTags) {
      var t :| t in r && t.tagFQN == f;
      if t in kept {
      } else {
        var i :| 0 <= i < |conv| && conv[i] == t;
        assert added[i] in added;
      }
    }
    forall f | f in Fqns(selectedTags) ensures f in Fqns(r) {
      var s :| s in selectedTags && s.tagFQN == f;
      if f in Fqns(existing) {
        var t :| t in existing && t.tagFQN == f;
        assert t in kept;
      } else {
        assert s in added;
        var i :| 0 <= i < |added| && added[i] == s;
        assert conv[i] in r;
      }
    }
  }

  /** `handleTableTagSelection`: the pipeline's tasks with every task of the
      edited task's name replaced by the edited task with its merged tags. */
  function HandleTableTagSelection(selectedTags: seq<TagLabel>, editColumnTag: Task,
                                   pipelineTasks: Option<seq<Task>>, createTag: TagLabel -> TagLabel): (r: Option<seq<Task>>)
    ensures editColumnTag.tags.None? <==> r.None?
    ensures r.Some? ==>
      var ts := pipelineTasks.GetOr([]);
      |r.value| == |ts| &&
      forall i :: 0 <= i < |ts| ==>
        r.value[i] == if ts[i].name == editColumnTag.name
                      then editColumnTag.(tags := MergedTags(selectedTags, editColumnTag, createTag))
                      else ts[i]
  {
    match MergedTags(selectedTags, editColumnTag, createTag)
    case None => None
    case Some(tags) =>
      var ts := pipelineTasks.GetOr([]);
      var updatedTask := editColumnTag.(tags := Some(tags));
      Some(seq(|ts|, i requires 0 <= i < |ts| => if ts[i].name == editColumnTag.name then updatedTask else ts[i]))
  }
}
