/**
 * The task dialog: the form state it keeps while open, the handlers that
 * update one field at a time, the tag toggling, and the shaping of the
 * record on opening and on submitting.
 */
module TaskForm {
  import opened Wrappers
  import opened Tasks

  /** The record a new task starts from. */
  const DefaultTask: Task := Task(0, "", Some(""), Pending, Medium, 0, None, Some([]))

  /** `tags || []` */
  function TagsOf(task: Task): seq<Tag> {
    task.tags.GetOr([])
  }

  predicate HasTagId(tags: seq<Tag>, id: int) {
    exists i :: 0 <= i < |tags| && tags[i].id == id
  }

  /** At most one entry per tag id. */
  predicate UniqueIds(tags: seq<Tag>) {
    forall i, j :: 0 <= i < j < |tags| ==> tags[i].id != tags[j].id
  }

  // ---------------------------------------------------------------------
  // Tag selection

  /** `tags.filter(t => t.id !== id)` */
  function WithoutTagId(tags: seq<Tag>, id: int): (r: seq<Tag>)
    ensures |r| <= |tags|
  {
    if tags == [] then []
    else if tags[0].id != id then [tags[0]] + WithoutTagId(tags[1..], id)
    else WithoutTagId(tags[1..], id)
  }

  /** Removal drops exactly the entries with that id and keeps every other entry. */
  lemma {:induction false} WithoutTagIdMembers(tags: seq<Tag>, id: int)
    ensures forall t :: t in WithoutTagId(tags, id) <==> t in tags && t.id != id
    ensures !HasTagId(WithoutTagId(tags, id), id)
  {
    if tags != [] {
      WithoutTagIdMembers(tags[1..], id);
      assert tags == [tags[0]] + tags[1..];
    }
  }

  /**
   * Selecting a tag that is already selected (by id) drops every entry with
   * its id; selecting any other tag appends it. Either way the tag's id is
   * selected afterwards exactly when it was not before.
   */
  function ToggledTags(tags: seq<Tag>, tag: Tag): (r: seq<Tag>)
    ensures HasTagId(r, tag.id) <==> !HasTagId(tags, tag.id)
    ensures forall t :: t in tags && t.id != tag.id ==> t in r
    ensures forall t :: t in r && t.id != tag.id ==> t in tags
    ensures !HasTagId(tags, tag.id) ==> r == tags + [tag]
    ensures HasTagId(tags, tag.id) ==> r == WithoutTagId(tags, tag.id)
  {
    if HasTagId(tags, tag.id) then (WithoutTagIdMembers(tags, tag.id); WithoutTagId(tags, tag.id))
    else (assert (tags + [tag])[|tags|] == tag; tags + [tag])
  }

  lemma {:induction false} WithoutAbsentIdIsIdentity(tags: seq<Tag>, id: int)
    requires !HasTagId(tags, id)
    ensures WithoutTagId(tags, id) == tags
  {
    if tags != [] {
      assert !HasTagId(tags[1..], id) by {
        forall i | 0 <= i < |tags[1..]| ensures tags[1..][i].id != id {
          assert tags[1..][i] == tags[i + 1];
        }
      }
      WithoutAbsentIdIsIdentity(tags[1..], id);
      assert tags == [tags[0]] + tags[1..];
    }
  }

  lemma {:induction false} WithoutAppend(a: seq<Tag>, b: seq<Tag>, id: int)
    ensures WithoutTagId(a + b, id) == WithoutTagId(a, id) + WithoutTagId(b, id)
  {
    if a == [] {
      assert a + b == b;
    } else {
      assert (a + b)[0] == a[0] && (a + b)[1..] == a[1..] + b;
      WithoutAppend(a[1..], b, id);
    }
  }

  /** Removing an id keeps the remaining entries at most once per id. */
  lemma {:induction false} WithoutPreservesUnique(tags: seq<Tag>, id: int)
    requires UniqueIds(tags)
    ensures UniqueIds(WithoutTagId(tags, id))
  {
    if tags != [] {
      var rest := tags[1..];
      assert UniqueIds(rest) by {
        forall i, j | 0 <= i < j < |rest| ensures rest[i].id != rest[j].id {
          assert rest[i] == tags[i + 1] && rest[j] == tags[j + 1];
        }
      }
      WithoutPreservesUnique(rest, id);
      if tags[0].id != id {
        var w := WithoutTagId(rest, id);
        WithoutTagIdMembers(rest, id);
        assert !HasTagId(w, tags[0].id) by {
          forall i | 0 <= i < |w| ensures w[i].id != tags[0].id {
            assert w[i] in w;
            var k :| 0 <= k < |rest| && rest[k] == w[i];
            assert rest[k] == tags[k + 1];
          }
        }
        var r := [tags[0]] + w;
        forall i, j | 0 <= i < j < |r| ensures r[i].id != r[j].id {
          if i == 0 {
            assert r[j] == w[j - 1];
          } else {
            assert r[i] == w[i - 1] && r[j] == w[j - 1];
          }
        }
      }
    }
  }

  /** With unique ids, the id at position `k` occurs nowhere before or after it. */
  lemma UniqueIdsElsewhere(tags: seq<Tag>, k: nat)
    requires UniqueIds(tags) && k < |tags|
    ensures !HasTagId(tags[..k], tags[k].id) && !HasTagId(tags[k + 1..], tags[k].id)
  {
    var pre, post := tags[..k], tags[k + 1..];
    forall i | 0 <= i < |pre| ensures pre[i].id != tags[k].id {
      assert pre[i] == tags[i];
    }
    forall i | 0 <= i < |post| ensures post[i].id != tags[k].id {
      assert post[i] == tags[k + 1 + i];
    }
  }

  /** Removing the entry at position `k` of a list with unique ids keeps the others in order. */
  lemma {:induction false} RemoveAtPosition(tags: seq<Tag>, k: nat)
    requires UniqueIds(tags) && k < |tags|
    ensures WithoutTagId(tags, tags[k].id) == tags[..k] + tags[k + 1..]
  {
    var x, pre, post := tags[k], tags[..k], tags[k + 1..];
    UniqueIdsElsewhere(tags, k);
    assert tags == pre + ([x] + post);
    WithoutAppend(pre, [x] + post, x.id);
    assert ([x] + post)[0] == x && ([x] + post)[1..] == post;
    assert WithoutTagId([x] + post, x.id) == WithoutTagId(post, x.id);
    WithoutAbsentIdIsIdentity(pre, x.id);
    WithoutAbsentIdIsIdentity(post, x.id);
  }

  /** Toggling keeps the selection at most once per id. */
  lemma ToggledTagsPreservesUnique(tags: seq<Tag>, tag: Tag)
    requires UniqueIds(tags)
    ensures UniqueIds(ToggledTags(tags, tag))
  {
    if HasTagId(tags, tag.id) {
      WithoutPreservesUnique(tags, tag.id);
    } else {
      var r := tags + [tag];
      forall i, j | 0 <= i < j < |r| ensures r[i].id != r[j].id {
        if j == |tags| {
          assert r[i] == tags[i];
        } else {
          assert r[i] == tags[i] && r[j] == tags[j];
        }
      }
    }
  }

  /** Toggling a tag that is not selected, twice, restores the selection. */
  lemma ToggledTwiceRestores(tags: seq<Tag>, tag: Tag)
    requires !HasTagId(tags, tag.id)
    ensures ToggledTags(ToggledTags(tags, tag), tag) == tags
  {
    assert ToggledTags(tags, tag) == tags + [tag];
    WithoutAppend(tags, [tag], tag.id);
    WithoutAbsentIdIsIdentity(tags, tag.id);
    assert [tag][1..] == [];
  }

  // ---------------------------------------------------------------------
  // Opening and submitting

  /**
   * The form data when the dialog opens: a copy of the task with a null
   * description shown as `""` and missing tags as `[]`, or the default
   * record when there is no task.
   */
  function OpenedFormData(task: Option<Task>): (r: Task)
    ensures task.None? ==> r == DefaultTask
    ensures task.Some? ==> r.(description := task.value.description, tags := task.value.tags) == task.value
    ensures r.description.Some? && r.tags.Some?
    ensures task.Some? ==> TagsOf(r) == TagsOf(task.value)
    ensures task.Some? ==> r.description == Some(task.value.description.GetOr(""))
  {
    match task
    case None => DefaultTask
    case Some(t) => t.(description := Some(t.description.GetOr("")), tags := Some(TagsOf(t)))
  }

  /**
   * The record handed to the save callback: an empty description becomes
   * null, missing tags become `[]`, every other field passes through.
   */
  function SubmittedTask(formData: Task): (r: Task)
    ensures r.(description := formData.description, tags := formData.tags) == formData
    ensures r.description != Some("")
    ensures formData.description == Some("") ==> r.description == None
    ensures formData.description != Some("") ==> r.description == formData.description
    ensures r.tags == Some(TagsOf(formData))
  {
    var description := if formData.description.GetOr("") == "" then None else formData.description;
    formData.(description := description, tags := Some(TagsOf(formData)))
  }

  /**
   * Opening a task and submitting it unedited gives back the task, up to
   * the null-for-empty description and the explicit empty tag list.
   */
  lemma OpenThenSubmit(t: Task)
    ensures SubmittedTask(OpenedFormData(Some(t)))
         == t.(description := if t.description == Some("") then None else t.description,
               tags := Some(TagsOf(t)))
  {
  }

  /** The dialog edits an existing task exactly when it was given one with a non-zero id. */
  function IsEditing(task: Option<Task>): (b: bool)
    ensures task.None? ==> !b
    ensures task.Some? ==> (b <==> task.value.id != 0)
  {
    task.Some? && task.value.id != 0
  }

  /** The two text inputs bound by name to the form data. */
  datatype TextField = Title | Description

  // ---------------------------------------------------------------------
  // The dialog's state and its handlers

  class TaskFormState {
    var formData: Task
    var date: Option<Date>
    var showCalendar: bool
    var tagSelectorOpen: bool

    /** The calendar's selection and the record's due date move together. */
    ghost predicate Valid()
      reads this
    {
      date == formData.dueDate
    }

    constructor ()
      ensures Valid()
      ensures formData == DefaultTask && date == None && !showCalendar && !tagSelectorOpen
    {
      formData := DefaultTask;
      date := None;
      showCalendar := false;
      tagSelectorOpen := false;
    }

    /** The effect that runs when the dialog opens or its task changes. */
    method Reset(open: bool, task: Option<Task>)
      requires Valid()
      modifies this
      ensures Valid()
      ensures open ==> formData == OpenedFormData(task) && !showCalendar && !tagSelectorOpen
      ensures open ==> date == if task.Some? then task.value.dueDate else None
      ensures !open ==> formData == old(formData) && date == old(date)
      ensures !open ==> showCalendar == old(showCalendar) && tagSelectorOpen == old(tagSelectorOpen)
    {
      if open {
        if task.Some? {
          formData := OpenedFormData(task);
          date := task.value.dueDate;
        } else {
          formData := DefaultTask;
          date := None;
        }
        showCalendar := false;
        tagSelectorOpen := false;
      }
    }

    method HandleInputChange(field: TextField, value: string)
      requires Valid()
      modifies this`formData
      ensures Valid()
      ensures formData == match field
        case Title => old(formData).(title := value)
        case Description => old(formData).(description := Some(value))
    {
      match field
      case Title => formData := formData.(title := value);
      case Description => formData := formData.(description := Some(value));
    }

    method HandleStatusChange(status: Status)
      requires Valid()
      modifies this`formData
      ensures Valid()
      ensures formData == old(formData).(status := status)
    {
      formData := formData.(status := status);
    }

    method HandlePriorityChange(priority: Priority)
      requires Valid()
      modifies this`formData
      ensures Valid()
      ensures formData == old(formData).(priority := priority)
    {
      formData := formData.(priority := priority);
    }

    /** A pick in the calendar (or none) sets the due date and closes the calendar. */
    method HandleDateSelect(selected: Option<Date>)
      requires Valid()
      modifies this`formData, this`date, this`showCalendar
      ensures Valid()
      ensures date == selected && formData == old(formData).(dueDate := selected) && !showCalendar
    {
      date := selected;
      formData := formData.(dueDate := selected);
      showCalendar := false;
    }

    method ClearDate()
      requires Valid()
      modifies this`formData, this`date
      ensures Valid()
      ensures date == None && formData == old(formData).(dueDate := None)
    {
      date := None;
      formData := formData.(dueDate := None);
    }

    /** The due-date button opens and closes the calendar. */
    method ToggleCalendar()
      modifies this`showCalendar
      ensures showCalendar == !old(showCalendar)
    {
      showCalendar := !showCalendar;
    }

    /** The tags button opens and closes the tag selector. */
    method ToggleTagSelector()
      modifies this`tagSelectorOpen
      ensures tagSelectorOpen == !old(tagSelectorOpen)
    {
      tagSelectorOpen := !tagSelectorOpen;
    }

    method ToggleTag(tag: Tag)
      requires Valid()
      modifies this`formData
      ensures Valid()
      ensures formData == old(formData).(tags := Some(ToggledTags(TagsOf(old(formData)), tag)))
      ensures UniqueIds(TagsOf(old(formData))) ==> UniqueIds(TagsOf(formData))
    {
      var selected := TagsOf(formData);
      if UniqueIds(selected) {
        ToggledTagsPreservesUnique(selected, tag);
      }
      formData := formData.(tags := Some(ToggledTags(selected, tag)));
    }

    method RemoveTag(id: int)
      requires Valid()
      modifies this`formData
      ensures Valid()
      ensures formData == old(formData).(tags := Some(WithoutTagId(TagsOf(old(formData)), id)))
      ensures !HasTagId(TagsOf(formData), id)
      ensures UniqueIds(TagsOf(old(formData))) ==> UniqueIds(TagsOf(formData))
    {
      var selected := TagsOf(formData);
      if UniqueIds(selected) {
        WithoutPreservesUnique(selected, id);
      }
      WithoutTagIdMembers(selected, id);
      formData := formData.(tags := Some(WithoutTagId(selected, id)));
    }

    /** The record passed to the save callback. */
    method HandleSubmit() returns (saved: Task)
      ensures saved == SubmittedTask(formData)
    {
      saved := SubmittedTask(formData);
    }
  }
}
