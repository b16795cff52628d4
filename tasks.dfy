/** The task and tag records exchanged with the server. */
module Tasks {
  import opened Wrappers

  datatype Status = Pending | InProgress | Completed

  datatype Priority = Low | Medium | High

  /** A calendar date; its structure plays no part in the model. */
  datatype Date = Date(millis: int)

  datatype Tag = Tag(id: int, name: string, color: string)

  /**
   * A task. `description` may be null and `tags` may be missing in what the
   * server sends; the form fills both in and the submit shapes them back.
   */
  datatype Task = Task(
    id: int,
    title: string,
    description: Option<string>,
    status: Status,
    priority: Priority,
    userId: int,
    dueDate: Option<Date>,
    tags: Option<seq<Tag>>)
}
