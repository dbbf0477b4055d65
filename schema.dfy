/** The relational schema the services work on (the tables `users`, `projects`,
    `tasks`, `task_tags`, `task_links` and `task_images`), the column values a
    statement binds, and the JSON views the services build from rows. */
module Schema {
  import opened Values

  /** A `created_at` value. The services write the current time; only its order matters here. */
  type Timestamp = int

  /** A nullable text column. */
  datatype Cell = SqlNull | Text(text: string)

  /** The value stored when `v` is bound as a statement parameter: PDO sends null as
      NULL and every other value as its string form. */
  function Bind(v: Json): (c: Cell)
    ensures c.SqlNull? <==> v.Null?
    ensures c.Text? ==> c.text == ToText(v)
  {
    if v.Null? then SqlNull else Text(ToText(v))
  }

  // ---------------------------------------------------------------- rows

  datatype UserRow = UserRow(id: int, name: string, email: string, password: string, token: string, createdAt: Timestamp)

  datatype ProjectRow = ProjectRow(
    id: int, userId: int, title: string, description: Cell, image: Cell, link: Cell, createdAt: Timestamp)

  datatype TaskRow = TaskRow(
    id: int, projectId: int, title: string, description: Cell, status: string, deadline: Cell, createdAt: Timestamp)

  datatype TagRow = TagRow(id: int, taskId: int, tag: string)

  datatype LinkRow = LinkRow(id: int, taskId: int, title: Cell, url: string)

  datatype ImageRow = ImageRow(id: int, taskId: int, filePath: string, createdAt: Timestamp)

  /** The contents of all six tables at one moment. */
  datatype Tables = Tables(
    users: seq<UserRow>, projects: seq<ProjectRow>, tasks: seq<TaskRow>,
    tags: seq<TagRow>, links: seq<LinkRow>, images: seq<ImageRow>)

  function UserKey(r: UserRow): int { r.id }
  function ProjectKey(r: ProjectRow): int { r.id }
  function TaskKey(r: TaskRow): int { r.id }
  function TagKey(r: TagRow): int { r.id }
  function LinkKey(r: LinkRow): int { r.id }
  function ImageKey(r: ImageRow): int { r.id }

  function ProjectCreated(r: ProjectRow): int { r.createdAt }
  function TaskCreated(r: TaskRow): int { r.createdAt }

  // ---------------------------------------------------------------- views

  /** The public view of a user: it has no place for the password hash. */
  datatype UserView = UserView(id: int, name: string, email: string, token: string, createdAt: Timestamp)

  datatype TagMeta = TagMeta(id: int, tag: string)

  datatype LinkView = LinkView(id: int, title: Cell, url: string)

  datatype ImageMeta = ImageMeta(id: int, filePath: string)

  /** A task with its tags, links and images. `tags` and `images` are the flattened
      convenience lists next to the detailed `tagMeta` and `imageMeta`. */
  datatype TaskView = TaskView(
    id: int, projectId: int, title: string, description: Cell, status: string, deadline: Cell,
    createdAt: Timestamp, tags: seq<string>, tagMeta: seq<TagMeta>, links: seq<LinkView>,
    images: seq<string>, imageMeta: seq<ImageMeta>)

  /** The lightweight task entry nested in a project view. */
  datatype TaskSummary = TaskSummary(id: int, title: string, status: string, deadline: Cell)

  datatype ProjectView = ProjectView(
    id: int, title: string, description: Cell, image: Cell, link: Cell, createdAt: Timestamp,
    tasks: seq<TaskSummary>)
}
