/** The tasks of a user's projects (`TaskService`): a task belongs to a user through
    its project, every operation first finds the task under that owner, and a task is
    read back with its tags, links and images. */
module Tasks {
  import opened Values
  import opened Schema
  import opened Http
  import opened Seqs
  import opened Settings
  import opened Store
  import Projects

  const ValidStatuses := ["pending", "in_progress", "completed", "blocked"]
  const DefaultStatus := "pending"
  const CreateFields := ["project_id", "title"]
  const TagFields := ["tag"]
  const LinkFields := ["url"]
  const TaskNotFound := Error("Task not found", 404)
  const ProjectNotFound := Error("Project not found", 404)
  const InvalidStatus := Error("Invalid status", 422)

  // ---------------------------------------------------------------- finding a task

  /** The join condition of `get`: the task's project exists and, when `userId` is
      truthy, belongs to that user. */
  predicate Visible(projects: seq<ProjectRow>, t: TaskRow, userId: int) {
    exists p :: p in projects && p.id == t.projectId && (userId == 0 || p.userId == userId)
  }

  /** `SELECT t.* FROM tasks t JOIN projects p ON p.id = t.project_id WHERE t.id = :id
      [AND p.user_id = :user_id] LIMIT 1`; the owner condition is there only when
      `userId` is truthy. */
  function FindTask(projects: seq<ProjectRow>, tasks: seq<TaskRow>, taskId: int, userId: int): (r: Option<TaskRow>)
    ensures r.Some? ==> r.value in tasks && r.value.id == taskId && Visible(projects, r.value, userId)
    ensures r.None? <==> forall t :: t in tasks && t.id == taskId ==> !Visible(projects, t, userId)
  {
    First(tasks, (t: TaskRow) => t.id == taskId && Visible(projects, t, userId))
  }

  /** `fetchTags`: `SELECT id, tag FROM task_tags WHERE task_id = :task_id`, in row order. */
  function FetchTags(tags: seq<TagRow>, taskId: int): (r: seq<TagMeta>)
    ensures forall m :: m in r <==> exists t :: t in tags && t.taskId == taskId && m == TagMeta(t.id, t.tag)
  {
    var rows := Filter(tags, (t: TagRow) => t.taskId == taskId);
    var r := seq(|rows|, i requires 0 <= i < |rows| => TagMeta(rows[i].id, rows[i].tag));
    forall m | m in r ensures exists t :: t in tags && t.taskId == taskId && m == TagMeta(t.id, t.tag) {
      var i :| 0 <= i < |r| && r[i] == m;
      assert rows[i] in rows;
    }
    assert forall t :: t in rows ==> TagMeta(t.id, t.tag) in r by {
      forall t | t in rows ensures TagMeta(t.id, t.tag) in r {
        var i :| 0 <= i < |rows| && rows[i] == t;
        assert r[i] == TagMeta(t.id, t.tag);
      }
    }
    r
  }

  /** `fetchLinks`: `SELECT id, title, url FROM task_links WHERE task_id = :task_id`, in row order. */
  function FetchLinks(links: seq<LinkRow>, taskId: int): (r: seq<LinkView>)
    ensures forall v :: v in r <==> exists l :: l in links && l.taskId == taskId && v == LinkView(l.id, l.title, l.url)
  {
    var rows := Filter(links, (l: LinkRow) => l.taskId == taskId);
    var r := seq(|rows|, i requires 0 <= i < |rows| => LinkView(rows[i].id, rows[i].title, rows[i].url));
    forall v | v in r ensures exists l :: l in links && l.taskId == taskId && v == LinkView(l.id, l.title, l.url) {
      var i :| 0 <= i < |r| && r[i] == v;
      assert rows[i] in rows;
    }
    assert forall l :: l in rows ==> LinkView(l.id, l.title, l.url) in r by {
      forall l | l in rows ensures LinkView(l.id, l.title, l.url) in r {
        var i :| 0 <= i < |rows| && rows[i] == l;
        assert r[i] == LinkView(l.id, l.title, l.url);
      }
    }
    r
  }

  /** `fetchImages`: `SELECT id, file_path FROM task_images WHERE task_id = :task_id`, in row order. */
  function FetchImages(images: seq<ImageRow>, taskId: int): (r: seq<ImageMeta>)
    ensures forall m :: m in r <==> exists g :: g in images && g.taskId == taskId && m == ImageMeta(g.id, g.filePath)
  {
    var rows := Filter(images, (g: ImageRow) => g.taskId == taskId);
    var r := seq(|rows|, i requires 0 <= i < |rows| => ImageMeta(rows[i].id, rows[i].filePath));
    forall m | m in r ensures exists g :: g in images && g.taskId == taskId && m == ImageMeta(g.id, g.filePath) {
      var i :| 0 <= i < |r| && r[i] == m;
      assert rows[i] in rows;
    }
    assert forall g :: g in rows ==> ImageMeta(g.id, g.filePath) in r by {
      forall g | g in rows ensures ImageMeta(g.id, g.filePath) in r {
        var i :| 0 <= i < |rows| && rows[i] == g;
        assert r[i] == ImageMeta(g.id, g.filePath);
      }
    }
    r
  }

  /** `array_column($tags, 'tag')`. */
  function TagNames(meta: seq<TagMeta>): (r: seq<string>)
    ensures |r| == |meta| && forall i :: 0 <= i < |r| ==> r[i] == meta[i].tag
  {
    seq(|meta|, i requires 0 <= i < |meta| => meta[i].tag)
  }

  /** `array_column($images, 'file_path')`. */
  function FilePaths(meta: seq<ImageMeta>): (r: seq<string>)
    ensures |r| == |meta| && forall i :: 0 <= i < |r| ==> r[i] == meta[i].filePath
  {
    seq(|meta|, i requires 0 <= i < |meta| => meta[i].filePath)
  }

  /** `formatTask($task)`: the task's columns with its tags, links and images. */
  function FormatTask(t: Tables, row: TaskRow): (v: TaskView)
    ensures v.id == row.id && v.projectId == row.projectId && v.title == row.title && v.status == row.status
    ensures v.description == row.description && v.deadline == row.deadline && v.createdAt == row.createdAt
    ensures v.tagMeta == FetchTags(t.tags, row.id) && v.links == FetchLinks(t.links, row.id)
    ensures v.imageMeta == FetchImages(t.images, row.id)
  {
    var tags := FetchTags(t.tags, row.id);
    var images := FetchImages(t.images, row.id);
    TaskView(row.id, row.projectId, row.title, row.description, row.status, row.deadline, row.createdAt,
             TagNames(tags), tags, FetchLinks(t.links, row.id), FilePaths(images), images)
  }

  /** In a task view the flat `tags` list is the `tag` of each `tag_meta` entry, and the
      flat `images` list is the `file_path` of each `image_meta` entry, in order. */
  lemma ViewListsAgree(t: Tables, row: TaskRow)
    ensures var v := FormatTask(t, row);
      && |v.tags| == |v.tagMeta| && (forall i :: 0 <= i < |v.tags| ==> v.tags[i] == v.tagMeta[i].tag)
      && |v.images| == |v.imageMeta| && (forall i :: 0 <= i < |v.images| ==> v.images[i] == v.imageMeta[i].filePath)
  {
  }

  /** `get($taskId, $userId)`: the task if it is visible to the user, 404 otherwise. */
  function Get(t: Tables, taskId: int, userId: int): (r: Outcome<TaskView>)
    ensures r.Ok? <==> exists row :: row in t.tasks && row.id == taskId && Visible(t.projects, row, userId)
    ensures r.Ok? ==> exists row :: row in t.tasks && row.id == taskId && Visible(t.projects, row, userId)
                                    && r.value == FormatTask(t, row)
    ensures r.Exit? ==> r.response == TaskNotFound
  {
    match FindTask(t.projects, t.tasks, taskId, userId)
    case Some(row) => Ok(FormatTask(t, row))
    case None => Exit(TaskNotFound)
  }

  /** With a truthy user id, a task is found only when its project belongs to that user;
      the project of a task is the one project carrying its `project_id`. */
  lemma GetIsScopedToOwner(t: Tables, nextProjectId: int, taskId: int, userId: int)
    requires Keyed(t.projects, ProjectKey, nextProjectId)
    requires userId != 0
    ensures Get(t, taskId, userId).Ok? ==>
              forall p :: p in t.projects && p.id == Get(t, taskId, userId).value.projectId ==> p.userId == userId
  {
    if Get(t, taskId, userId).Ok? {
      var row :| row in t.tasks && row.id == taskId && Visible(t.projects, row, userId)
                 && Get(t, taskId, userId).value == FormatTask(t, row);
      var q :| q in t.projects && q.id == row.projectId && q.userId == userId;
      forall p | p in t.projects && p.id == row.projectId ensures p.userId == userId {
        KeyedUnique(t.projects, ProjectKey, nextProjectId, p, q);
      }
    }
  }

  /** With user id 0 (falsy) the owner condition is dropped: any task whose project
      exists is found. */
  lemma GetWithoutOwner(t: Tables, taskId: int, row: TaskRow, p: ProjectRow)
    requires row in t.tasks && row.id == taskId
    requires p in t.projects && p.id == row.projectId
    ensures Get(t, taskId, 0).Ok?
  {
  }

  /** A task whose project is gone is found by nobody: the join drops it. */
  lemma OrphanTaskNotFound(t: Tables, taskId: int, userId: int)
    requires forall row :: row in t.tasks && row.id == taskId ==> forall p :: p in t.projects ==> p.id != row.projectId
    ensures Get(t, taskId, userId) == Exit(TaskNotFound)
  {
  }

  // ---------------------------------------------------------------- status and partial update

  /** `isset($data['status']) && !in_array($data['status'], VALID_STATUSES, true)`: a
      status is given, and it is not one of the four strings (strict comparison, so a
      number or a boolean is rejected too). */
  predicate StatusRejected(data: Json) {
    IsSet(data, "status") && !(Field(data, "status").Str? && Field(data, "status").s in ValidStatuses)
  }

  /** The status check is strict: an absent or null status passes, one of the four
      strings passes, and a number or a boolean is rejected whatever its value. */
  lemma StatusCheckIsStrict(data: Json)
    ensures !IsSet(data, "status") ==> !StatusRejected(data)
    ensures Field(data, "status").Str? && Field(data, "status").s in ValidStatuses ==> !StatusRejected(data)
    ensures Field(data, "status").Int? || Field(data, "status").Bool? ==> StatusRejected(data)
  {
  }

  /** A status that passes the check, once bound as a parameter, is one of the four strings. */
  lemma AcceptedStatusIsValid(data: Json)
    requires IsSet(data, "status") && !StatusRejected(data)
    ensures ToText(Field(data, "status")) in ValidStatuses
  {
  }

  /** The row `update` writes: `title` and `status` fall back to the stored value when
      absent or null (`??`); `description` and `deadline` fall back only when the key is
      absent (`array_key_exists`), so an explicit null clears them. */
  function ApplyUpdate(row: TaskRow, data: Json): (q: TaskRow)
    ensures q.id == row.id && q.projectId == row.projectId && q.createdAt == row.createdAt
    ensures q.title == (if IsSet(data, "title") then ToText(Field(data, "title")) else row.title)
    ensures q.description == (if KeyExists(data, "description") then Bind(Field(data, "description")) else row.description)
    ensures q.status == (if IsSet(data, "status") then ToText(Field(data, "status")) else row.status)
    ensures q.deadline == (if KeyExists(data, "deadline") then Bind(Field(data, "deadline")) else row.deadline)
  {
    row.(title := if IsSet(data, "title") then ToText(Field(data, "title")) else row.title,
         description := if KeyExists(data, "description") then Bind(Field(data, "description")) else row.description,
         status := if IsSet(data, "status") then ToText(Field(data, "status")) else row.status,
         deadline := if KeyExists(data, "deadline") then Bind(Field(data, "deadline")) else row.deadline)
  }

  /** Sending the same update twice has the effect of sending it once. */
  lemma ApplyUpdateIdempotent(row: TaskRow, data: Json)
    ensures ApplyUpdate(ApplyUpdate(row, data), data) == ApplyUpdate(row, data)
  {
  }

  /** An explicit null keeps the title and the status but clears description and
      deadline, each key on its own whatever the others are. */
  lemma NullKeepsTitleClearsDescription(row: TaskRow, data: Json)
    ensures Lookup(data, "title") == Some(Null) ==> ApplyUpdate(row, data).title == row.title
    ensures Lookup(data, "status") == Some(Null) ==> ApplyUpdate(row, data).status == row.status
    ensures Lookup(data, "description") == Some(Null) ==> ApplyUpdate(row, data).description == SqlNull
    ensures Lookup(data, "deadline") == Some(Null) ==> ApplyUpdate(row, data).deadline == SqlNull
  {
  }

  /** A body that sets only the title changes only the title. */
  lemma TitleOnlyUpdate(row: TaskRow, title: string)
    ensures ApplyUpdate(row, Object([Member("title", Str(title))])) == row.(title := title)
  {
  }

  /** A body that clears only the description changes only the description. */
  lemma DescriptionOnlyCleared(row: TaskRow)
    ensures ApplyUpdate(row, Object([Member("description", Null)])) == row.(description := SqlNull)
  {
  }

  /** An update that mentions none of the four fields leaves the task as it is. */
  lemma EmptyUpdateKeepsTask(row: TaskRow, data: Json)
    requires !KeyExists(data, "title") && !KeyExists(data, "description")
    requires !KeyExists(data, "status") && !KeyExists(data, "deadline")
    ensures ApplyUpdate(row, data) == row
  {
  }

  /** An accepted update keeps a valid status valid. */
  lemma UpdateKeepsStatusValid(row: TaskRow, data: Json)
    requires row.status in ValidStatuses && !StatusRejected(data)
    ensures ApplyUpdate(row, data).status in ValidStatuses
  {
  }

  /** The updated row is found again under the same id and owner. */
  lemma {:induction false} FindAfterUpdate(projects: seq<ProjectRow>, tasks: seq<TaskRow>, taskId: int,
                                           userId: int, q: TaskRow)
    requires FindTask(projects, tasks, taskId, userId).Some?
    ensures FindTask(projects, UpdateTasks(tasks, taskId, q.title, q.description, q.status, q.deadline), taskId, userId)
            == Some(FindTask(projects, tasks, taskId, userId).value.(title := q.title, description := q.description,
                                                                      status := q.status, deadline := q.deadline))
  {
    var updated := UpdateTasks(tasks, taskId, q.title, q.description, q.status, q.deadline);
    if !(tasks[0].id == taskId && Visible(projects, tasks[0], userId)) {
      assert updated[0].id == tasks[0].id && updated[0].projectId == tasks[0].projectId;
      assert !(updated[0].id == taskId && Visible(projects, updated[0], userId));
      FindAfterUpdate(projects, tasks[1..], taskId, userId, q);
      assert updated[1..] == UpdateTasks(tasks[1..], taskId, q.title, q.description, q.status, q.deadline);
    }
  }

  // ---------------------------------------------------------------- child rows

  /** The tag rows that successive inserts of `items` produce, the first under id `first`. */
  function NewTags(first: int, taskId: int, items: seq<Json>): (r: seq<TagRow>)
    ensures |r| == |items|
  {
    seq(|items|, k requires 0 <= k < |items| => TagRow(first + k, taskId, ToText(items[k])))
  }

  /** The link row inserted for `data`: `title` defaults to null, `url` is required. */
  function NewLink(id: int, taskId: int, data: Json): LinkRow {
    LinkRow(id, taskId, Bind(Coalesce(data, "title", Null)), ToText(Field(data, "url")))
  }

  /** The link rows that successive inserts of `items` produce, the first under id `first`. */
  function NewLinks(first: int, taskId: int, items: seq<Json>): (r: seq<LinkRow>)
    ensures |r| == |items|
  {
    seq(|items|, k requires 0 <= k < |items| => NewLink(first + k, taskId, items[k]))
  }

  /** One more insert extends the rows of the earlier ones by one row. */
  lemma NewTagsStep(before: seq<TagRow>, first: int, taskId: int, items: seq<Json>, i: nat)
    requires i < |items|
    ensures before + NewTags(first, taskId, items[..i]) + [TagRow(first + i, taskId, ToText(items[i]))]
            == before + NewTags(first, taskId, items[..i + 1])
  {
    assert NewTags(first, taskId, items[..i + 1]) == NewTags(first, taskId, items[..i]) + [TagRow(first + i, taskId, ToText(items[i]))];
  }

  lemma NewLinksStep(before: seq<LinkRow>, first: int, taskId: int, items: seq<Json>, i: nat)
    requires i < |items|
    ensures before + NewLinks(first, taskId, items[..i]) + [NewLink(first + i, taskId, items[i])]
            == before + NewLinks(first, taskId, items[..i + 1])
  {
    assert NewLinks(first, taskId, items[..i + 1]) == NewLinks(first, taskId, items[..i]) + [NewLink(first + i, taskId, items[i])];
  }

  /** A tag added to a task is listed last among its tags; the tags of other tasks are as before. */
  lemma AddedTagListedLast(tags: seq<TagRow>, row: TagRow, taskId: int)
    ensures FetchTags(tags + [row], taskId) ==
            FetchTags(tags, taskId) + (if row.taskId == taskId then [TagMeta(row.id, row.tag)] else [])
  {
    var p := (t: TagRow) => t.taskId == taskId;
    FilterConcat(tags, [row], p);
    assert Filter([row], p) == (if p(row) then [row] else []) + Filter([row][1..], p);
    assert [row][1..] == [];
  }

  /** Removing a child row is scoped to its task: when no tag has both the id and the
      task id, the table is left as it is. */
  lemma DeleteTagOfOtherTaskChangesNothing(tags: seq<TagRow>, tagId: int, taskId: int)
    requires forall t :: t in tags ==> !(t.id == tagId && t.taskId == taskId)
    ensures DeleteTags(tags, tagId, taskId) == tags
  {
    FilterAll(tags, (t: TagRow) => !(t.id == tagId && t.taskId == taskId));
  }

  lemma DeleteLinkOfOtherTaskChangesNothing(links: seq<LinkRow>, linkId: int, taskId: int)
    requires forall l :: l in links ==> !(l.id == linkId && l.taskId == taskId)
    ensures DeleteLinks(links, linkId, taskId) == links
  {
    FilterAll(links, (l: LinkRow) => !(l.id == linkId && l.taskId == taskId));
  }

  lemma DeleteImageOfOtherTaskChangesNothing(images: seq<ImageRow>, imageId: int, taskId: int)
    requires forall m :: m in images ==> !(m.id == imageId && m.taskId == taskId)
    ensures DeleteImages(images, imageId, taskId) == images
  {
    FilterAll(images, (m: ImageRow) => !(m.id == imageId && m.taskId == taskId));
  }

  /** After a delete the child is no longer listed for its task. */
  lemma DeletedTagNotListed(tags: seq<TagRow>, tagId: int, taskId: int)
    ensures forall m :: m in FetchTags(DeleteTags(tags, tagId, taskId), taskId) ==> m.id != tagId
  {
  }

  // ---------------------------------------------------------------- create

  /** The checks `create` makes before it writes, in order: required fields (422),
      ownership of the project (404), the status (422). */
  function CreateGate(projects: seq<ProjectRow>, userId: int, data: Json): (c: Check)
    ensures Required(data, CreateFields).Fail? ==> c == Required(data, CreateFields)
    ensures (Required(data, CreateFields).Pass?
             && Projects.FindProject(projects, ToInt(Field(data, "project_id")), userId).None?) ==> c == Fail(ProjectNotFound)
    ensures c.Pass? <==> && Required(data, CreateFields).Pass?
                         && Projects.FindProject(projects, ToInt(Field(data, "project_id")), userId).Some?
                         && !StatusRejected(data)
    ensures (c.Fail? && Required(data, CreateFields).Pass?
             && Projects.FindProject(projects, ToInt(Field(data, "project_id")), userId).Some?) ==> c == Fail(InvalidStatus)
  {
    var required := Required(data, CreateFields);
    if required.Fail? then required
    else if Projects.FindProject(projects, ToInt(Field(data, "project_id")), userId).None? then Fail(ProjectNotFound)
    else if StatusRejected(data) then Fail(InvalidStatus)
    else Pass
  }

  /** The task row `create` inserts: status defaults to "pending", description and
      deadline to null. */
  function NewTask(id: int, data: Json, now: Timestamp): (row: TaskRow)
    ensures row.id == id && row.projectId == ToInt(Field(data, "project_id")) && row.createdAt == now
    ensures !IsSet(data, "status") ==> row.status == DefaultStatus
    ensures !IsSet(data, "description") ==> row.description == SqlNull
    ensures !IsSet(data, "deadline") ==> row.deadline == SqlNull
  {
    TaskRow(id, ToInt(Field(data, "project_id")), ToText(Field(data, "title")), Bind(Coalesce(data, "description", Null)),
            if IsSet(data, "status") then ToText(Field(data, "status")) else DefaultStatus,
            Bind(Coalesce(data, "deadline", Null)), now)
  }

  /** A task created through the gate has a valid status. */
  lemma CreatedStatusIsValid(projects: seq<ProjectRow>, userId: int, data: Json, id: int, now: Timestamp)
    requires CreateGate(projects, userId, data).Pass?
    ensures NewTask(id, data, now).status in ValidStatuses
  {
  }

  /** `$data['tags']` when it is set and an array, otherwise nothing. */
  function TagItems(data: Json): seq<Json> {
    if IsSet(data, "tags") && IsArray(Field(data, "tags")) then Elements(Field(data, "tags")) else []
  }

  /** The entries of `$data['links']` that are arrays; the others are skipped (`continue`). */
  function LinkItems(data: Json): (r: seq<Json>)
    ensures forall v :: v in r ==> IsArray(v)
  {
    var all := if IsSet(data, "links") && IsArray(Field(data, "links")) then Elements(Field(data, "links")) else [];
    Filter(all, (v: Json) => IsArray(v))
  }

  /** The two kinds of child row `create` adds from the request body. */
  datatype Child = TagChild | LinkChild

  /** An item that `addTag` (for tags) or `addLink` (for links) accepts. */
  predicate ItemOk(kind: Child, v: Json) {
    if kind == TagChild then TagOk(v) else LinkOk(v)
  }

  /** The number of leading items of the given kind that are accepted. */
  function Accepted(items: seq<Json>, kind: Child): (n: nat)
    ensures n <= |items|
    ensures forall k :: 0 <= k < n ==> ItemOk(kind, items[k])
    ensures n < |items| ==> !ItemOk(kind, items[n])
  {
    if items == [] || !ItemOk(kind, items[0]) then 0
    else
      var m := Accepted(items[1..], kind);
      assert forall k :: 1 <= k < m + 1 ==> items[k] == items[1..][k - 1];
      m + 1
  }

  /** A tag `addTag` accepts: neither null nor empty. */
  predicate TagOk(v: Json) {
    !v.Null? && v != Str("")
  }

  /** A link `addLink` accepts: it has a url that is neither null nor empty. */
  predicate LinkOk(v: Json) {
    !Missing(v, "url")
  }


  /** The checks `addTag` makes before it writes, in order: the tag (422), then that the
      task is the user's (404). */
  function AddTagGate(projects: seq<ProjectRow>, tasks: seq<TaskRow>, userId: int, taskId: int, data: Json): Check {
    if Missing(data, "tag") then Fail(MissingOne("tag"))
    else if FindTask(projects, tasks, taskId, userId).None? then Fail(TaskNotFound)
    else Pass
  }

  /** The checks `addLink` makes before it writes: the url (422), then the task (404). */
  function AddLinkGate(projects: seq<ProjectRow>, tasks: seq<TaskRow>, userId: int, taskId: int, data: Json): Check {
    if Missing(data, "url") then Fail(MissingOne("url"))
    else if FindTask(projects, tasks, taskId, userId).None? then Fail(TaskNotFound)
    else Pass
  }

  /** For a task of the user, `addTag` called with `['tag' => $tag]` fails exactly for a
      null or empty tag, with 422 naming the field. */
  lemma TagItemGate(projects: seq<ProjectRow>, tasks: seq<TaskRow>, userId: int, taskId: int, tag: Json)
    requires FindTask(projects, tasks, taskId, userId).Some?
    ensures AddTagGate(projects, tasks, userId, taskId, Single("tag", tag)) ==
            if TagOk(tag) then Pass else Fail(MissingOne("tag"))
  {
    assert Lookup(Single("tag", tag), "tag") == Some(tag);
    if tag.Null? || tag == Str("") {
      assert Missing(Single("tag", tag), "tag");
    }
  }

  /** For a task of the user, `addLink` fails exactly for an entry without a usable url. */
  lemma LinkItemGate(projects: seq<ProjectRow>, tasks: seq<TaskRow>, userId: int, taskId: int, link: Json)
    requires FindTask(projects, tasks, taskId, userId).Some?
    ensures AddLinkGate(projects, tasks, userId, taskId, link) == if LinkOk(link) then Pass else Fail(MissingOne("url"))
  {
  }

  /** One pass of the first `foreach` of `create`: `addTag` with `['tag' => $tag]` and
      `returnTask` false, for a task known to be the user's. */
  method AddTagItem(db: Database, userId: int, taskId: int, tag: Json) returns (ok: bool)
    requires FindTask(db.projects, db.tasks, taskId, userId).Some?
    requires db.Valid()
    modifies db`tags, db`nextTagId
    ensures db.Valid()
    ensures ok == TagOk(tag)
    ensures ok ==> db.tags == old(db.tags) + [TagRow(old(db.nextTagId), taskId, ToText(tag))] && db.nextTagId == old(db.nextTagId) + 1
    ensures !ok ==> db.tags == old(db.tags) && db.nextTagId == old(db.nextTagId)
  {
    TagItemGate(db.projects, db.tasks, userId, taskId, tag);
    var added := AddTag(db, userId, taskId, Single("tag", tag), false);
    ok := added.Ok?;
  }

  /** One pass of the second `foreach` of `create`: `addLink` with the entry and
      `returnTask` false, for a task known to be the user's. */
  method AddLinkItem(db: Database, userId: int, taskId: int, link: Json) returns (ok: bool)
    requires FindTask(db.projects, db.tasks, taskId, userId).Some?
    requires db.Valid()
    modifies db`links, db`nextLinkId
    ensures db.Valid()
    ensures ok == LinkOk(link)
    ensures ok ==> db.links == old(db.links) + [NewLink(old(db.nextLinkId), taskId, link)] && db.nextLinkId == old(db.nextLinkId) + 1
    ensures !ok ==> db.links == old(db.links) && db.nextLinkId == old(db.nextLinkId)
  {
    LinkItemGate(db.projects, db.tasks, userId, taskId, link);
    var added := AddLink(db, userId, taskId, link, false);
    ok := added.Ok?;
  }

  /** The first `foreach` of `create`: one `addTag` per tag, stopping at the first that fails. */
  method AddTags(db: Database, userId: int, taskId: int, items: seq<Json>) returns (r: Check)
    requires FindTask(db.projects, db.tasks, taskId, userId).Some?
    requires db.Valid()
    modifies db`tags, db`nextTagId
    ensures db.Valid()
    ensures var n := Accepted(items, TagChild);
      && db.tags == old(db.tags) + NewTags(old(db.nextTagId), taskId, items[..n])
      && db.nextTagId == old(db.nextTagId) + n
      && (n == |items| ==> r == Pass)
      && (n < |items| ==> r == Fail(MissingOne("tag")))
  {
    var n := Accepted(items, TagChild);
    var i := 0;
    while i < |items|
      invariant db.Valid()
      invariant 0 <= i <= n
      invariant db.tags == old(db.tags) + NewTags(old(db.nextTagId), taskId, items[..i])
      invariant db.nextTagId == old(db.nextTagId) + i
    {
      var item := items[i];
      NewTagsStep(old(db.tags), old(db.nextTagId), taskId, items, i);
      var ok := AddTagItem(db, userId, taskId, item);
      if !ok {
        return Fail(MissingOne("tag"));
      }
      i := i + 1;
    }
    assert items[..i] == items;
    return Pass;
  }

  /** The second `foreach` of `create`: one `addLink` per array entry, stopping at the
      first that fails. */
  method AddLinks(db: Database, userId: int, taskId: int, items: seq<Json>) returns (r: Check)
    requires FindTask(db.projects, db.tasks, taskId, userId).Some?
    requires db.Valid()
    modifies db`links, db`nextLinkId
    ensures db.Valid()
    ensures var n := Accepted(items, LinkChild);
      && db.links == old(db.links) + NewLinks(old(db.nextLinkId), taskId, items[..n])
      && db.nextLinkId == old(db.nextLinkId) + n
      && (n == |items| ==> r == Pass)
      && (n < |items| ==> r == Fail(MissingOne("url")))
  {
    var n := Accepted(items, LinkChild);
    var i := 0;
    while i < |items|
      invariant db.Valid()
      invariant 0 <= i <= n
      invariant db.links == old(db.links) + NewLinks(old(db.nextLinkId), taskId, items[..i])
      invariant db.nextLinkId == old(db.nextLinkId) + i
    {
      var item := items[i];
      NewLinksStep(old(db.links), old(db.nextLinkId), taskId, items, i);
      var ok := AddLinkItem(db, userId, taskId, item);
      if !ok {
        return Fail(MissingOne("url"));
      }
      i := i + 1;
    }
    assert items[..i] == items;
    return Pass;
  }

  /** The first half of `create`: the gate, then the `INSERT INTO tasks`. The row it
      inserts is the one task the user then finds under the new id. */
  method InsertNewTask(db: Database, o: Oracles, userId: int, data: Json) returns (r: Outcome<TaskRow>)
    requires db.Valid()
    modifies db`tasks, db`nextTaskId
    ensures db.Valid()
    ensures CreateGate(old(db.projects), userId, data).Fail? ==>
              && r == Exit(CreateGate(old(db.projects), userId, data).response)
              && db.tasks == old(db.tasks) && db.nextTaskId == old(db.nextTaskId)
    ensures CreateGate(old(db.projects), userId, data).Pass? ==>
              && r == Ok(NewTask(old(db.nextTaskId), data, o.now))
              && db.tasks == old(db.tasks) + [r.value]
              && FindTask(db.projects, db.tasks, r.value.id, userId) == Some(r.value)
  {
    var c := RequireFields(data, CreateFields);
    if c.Fail? {
      return Exit(c.response);
    }
    var projectId := ToInt(Field(data, "project_id"));
    if Projects.FindProject(db.projects, projectId, userId).None? {
      return Exit(ProjectNotFound);
    }
    if StatusRejected(data) {
      return Exit(InvalidStatus);
    }
    ghost var before := db.tasks;
    var status := if IsSet(data, "status") then ToText(Field(data, "status")) else DefaultStatus;
    var taskId := db.InsertTask(projectId, ToText(Field(data, "title")), Bind(Coalesce(data, "description", Null)),
                                status, Bind(Coalesce(data, "deadline", Null)), o.now);
    var row := NewTask(taskId, data, o.now);
    assert db.tasks[|before|] == row;
    assert row in db.tasks && Visible(db.projects, row, userId);
    var found := FindTask(db.projects, db.tasks, taskId, userId);
    KeyedUnique(db.tasks, TaskKey, db.nextTaskId, found.value, row);
    return Ok(row);
  }

  /** The second half of `create`: the tags, then the links of the new task `row`. */
  method AddChildren(db: Database, userId: int, row: TaskRow, tagItems: seq<Json>, linkItems: seq<Json>)
    returns (r: Outcome<TaskView>)
    requires FindTask(db.projects, db.tasks, row.id, userId) == Some(row)
    requires db.Valid()
    modifies db`tags, db`nextTagId, db`links, db`nextLinkId
    ensures db.Valid()
    ensures var nt := Accepted(tagItems, TagChild);
            var nl := Accepted(linkItems, LinkChild);
            && db.tags == old(db.tags) + NewTags(old(db.nextTagId), row.id, tagItems[..nt])
            && (nt < |tagItems| ==> r == Exit(MissingOne("tag")) && db.links == old(db.links))
            && (nt == |tagItems| ==>
                  && db.links == old(db.links) + NewLinks(old(db.nextLinkId), row.id, linkItems[..nl])
                  && (nl < |linkItems| ==> r == Exit(MissingOne("url")))
                  && (nl == |linkItems| ==> r == Ok(FormatTask(db.Snapshot(), row))))
  {
    var tagged := AddTags(db, userId, row.id, tagItems);
    if tagged.Fail? {
      return Exit(tagged.response);
    }
    var linked := AddLinks(db, userId, row.id, linkItems);
    if linked.Fail? {
      return Exit(linked.response);
    }
    assert FindTask(db.projects, db.tasks, row.id, userId) == Some(row);
    r := Get(db.Snapshot(), row.id, userId);
  }

  /** `create($userId, $data)`: no row is written unless the gate passes; then the task
      row, then its tags and links one by one. A failing tag or link ends the request
      with 422 and keeps the rows written before it. */
  method Create(db: Database, o: Oracles, userId: int, data: Json) returns (r: Outcome<TaskView>)
    requires db.Valid()
    modifies db`tasks, db`nextTaskId, db`tags, db`nextTagId, db`links, db`nextLinkId
    ensures db.Valid()
    ensures CreateGate(old(db.projects), userId, data).Fail? ==>
              && r == Exit(CreateGate(old(db.projects), userId, data).response)
              && db.tasks == old(db.tasks) && db.tags == old(db.tags) && db.links == old(db.links)
              && db.nextTaskId == old(db.nextTaskId) && db.nextTagId == old(db.nextTagId) && db.nextLinkId == old(db.nextLinkId)
    ensures CreateGate(old(db.projects), userId, data).Pass? ==>
              var row := NewTask(old(db.nextTaskId), data, o.now);
              var nt := Accepted(TagItems(data), TagChild);
              var nl := Accepted(LinkItems(data), LinkChild);
              && db.tasks == old(db.tasks) + [row]
              && db.tags == old(db.tags) + NewTags(old(db.nextTagId), row.id, TagItems(data)[..nt])
              && (nt < |TagItems(data)| ==>
                    r == Exit(MissingOne("tag")) && db.links == old(db.links))
              && (nt == |TagItems(data)| ==>
                    && db.links == old(db.links) + NewLinks(old(db.nextLinkId), row.id, LinkItems(data)[..nl])
                    && (nl < |LinkItems(data)| ==> r == Exit(MissingOne("url")))
                    && (nl == |LinkItems(data)| ==> r == Ok(FormatTask(db.Snapshot(), row))))
  {
    var made := InsertNewTask(db, o, userId, data);
    assert db.tags == old(db.tags) && db.nextTagId == old(db.nextTagId);
    assert db.links == old(db.links) && db.nextLinkId == old(db.nextLinkId);
    if made.Exit? {
      return Exit(made.response);
    }
    r := AddChildren(db, userId, made.value, TagItems(data), LinkItems(data));
  }

  // ---------------------------------------------------------------- update and delete

  /** `update($userId, $taskId, $data)`: 404 unless the task is the user's, then 422 for
      a rejected status; otherwise the row is rewritten as `ApplyUpdate` says. */
  method Update(db: Database, userId: int, taskId: int, data: Json) returns (r: Outcome<TaskView>)
    requires db.Valid()
    modifies db`tasks
    ensures db.Valid()
    ensures FindTask(old(db.projects), old(db.tasks), taskId, userId).None? ==>
              r == Exit(TaskNotFound) && db.tasks == old(db.tasks)
    ensures FindTask(old(db.projects), old(db.tasks), taskId, userId).Some? && StatusRejected(data) ==>
              r == Exit(InvalidStatus) && db.tasks == old(db.tasks)
    ensures FindTask(old(db.projects), old(db.tasks), taskId, userId).Some? && !StatusRejected(data) ==>
              var q := ApplyUpdate(FindTask(old(db.projects), old(db.tasks), taskId, userId).value, data);
              && db.tasks == UpdateTasks(old(db.tasks), taskId, q.title, q.description, q.status, q.deadline)
              && r == Ok(FormatTask(db.Snapshot(), q))
  {
    var found := FindTask(db.projects, db.tasks, taskId, userId);
    if found.None? {
      return Exit(TaskNotFound);
    }
    if StatusRejected(data) {
      return Exit(InvalidStatus);
    }
    var q := ApplyUpdate(found.value, data);
    FindAfterUpdate(db.projects, db.tasks, taskId, userId, q);
    db.UpdateTask(taskId, q.title, q.description, q.status, q.deadline);
    r := Get(db.Snapshot(), taskId, userId);
  }

  /** `delete($userId, $taskId)`: 404 unless the task is the user's; otherwise its row is
      deleted. Its tags, links and images are not touched. */
  method Delete(db: Database, userId: int, taskId: int) returns (r: Outcome<()>)
    requires db.Valid()
    modifies db`tasks
    ensures db.Valid()
    ensures FindTask(old(db.projects), old(db.tasks), taskId, userId).None? ==>
              r == Exit(TaskNotFound) && db.tasks == old(db.tasks)
    ensures FindTask(old(db.projects), old(db.tasks), taskId, userId).Some? ==>
              r == Ok(()) && db.tasks == DeleteTasks(old(db.tasks), taskId)
  {
    var found := Get(db.Snapshot(), taskId, userId);
    if found.Exit? {
      return Exit(found.response);
    }
    db.DeleteTask(taskId);
    return Ok(());
  }

  /** A deleted task is not found again. */
  lemma DeletedTaskNotFound(t: Tables, taskId: int, userId: int)
    ensures Get(t.(tasks := DeleteTasks(t.tasks, taskId)), taskId, userId) == Exit(TaskNotFound)
  {
  }

  // ---------------------------------------------------------------- tags, links, images

  /** `addTag($userId, $taskId, $data, $returnTask)`: 422 without a tag (checked before
      the task), 404 unless the task is the user's; otherwise one tag row. */
  method AddTag(db: Database, userId: int, taskId: int, data: Json, returnTask: bool) returns (r: Outcome<Option<TaskView>>)
    requires db.Valid()
    modifies db`tags, db`nextTagId
    ensures db.Valid()
    ensures AddTagGate(db.projects, db.tasks, userId, taskId, data).Fail? ==> r == Exit(AddTagGate(db.projects, db.tasks, userId, taskId, data).response) && unchanged(db`tags, db`nextTagId)
    ensures AddTagGate(db.projects, db.tasks, userId, taskId, data).Pass? ==> db.tags == old(db.tags) + [TagRow(old(db.nextTagId), taskId, ToText(Field(data, "tag")))] && db.nextTagId == old(db.nextTagId) + 1
    ensures AddTagGate(db.projects, db.tasks, userId, taskId, data).Pass? && !returnTask ==> r == Ok(None)
    ensures AddTagGate(db.projects, db.tasks, userId, taskId, data).Pass? && returnTask ==>
              r == Ok(Some(FormatTask(db.Snapshot(), FindTask(db.projects, db.tasks, taskId, userId).value)))
  {
    var c := RequireFields(data, TagFields);
    RequiredOne(data, "tag");
    if c.Fail? {
      return Exit(c.response);
    }
    var task := Get(db.Snapshot(), taskId, userId);
    if task.Exit? {
      return Exit(task.response);
    }
    var _ := db.InsertTag(taskId, ToText(Field(data, "tag")));
    if returnTask {
      var view := Get(db.Snapshot(), taskId, userId);
      return Ok(Some(view.value));
    }
    return Ok(None);
  }

  /** `deleteTag($userId, $taskId, $tagId)`: 404 unless the task is the user's; otherwise
      the tags with both that id and that task id are removed. */
  method DeleteTag(db: Database, userId: int, taskId: int, tagId: int) returns (r: Outcome<TaskView>)
    requires db.Valid()
    modifies db`tags
    ensures db.Valid()
    ensures FindTask(db.projects, db.tasks, taskId, userId).None? ==> r == Exit(TaskNotFound) && db.tags == old(db.tags)
    ensures FindTask(db.projects, db.tasks, taskId, userId).Some? ==>
              && db.tags == DeleteTags(old(db.tags), tagId, taskId)
              && r == Ok(FormatTask(db.Snapshot(), FindTask(db.projects, db.tasks, taskId, userId).value))
  {
    var task := Get(db.Snapshot(), taskId, userId);
    if task.Exit? {
      return Exit(task.response);
    }
    db.DeleteTag(tagId, taskId);
    r := Get(db.Snapshot(), taskId, userId);
  }

  /** `addLink($userId, $taskId, $data, $returnTask)`: 422 without a url (checked before
      the task), 404 unless the task is the user's; otherwise one link row. */
  method AddLink(db: Database, userId: int, taskId: int, data: Json, returnTask: bool) returns (r: Outcome<Option<TaskView>>)
    requires db.Valid()
    modifies db`links, db`nextLinkId
    ensures db.Valid()
    ensures AddLinkGate(db.projects, db.tasks, userId, taskId, data).Fail? ==> r == Exit(AddLinkGate(db.projects, db.tasks, userId, taskId, data).response) && unchanged(db`links, db`nextLinkId)
    ensures AddLinkGate(db.projects, db.tasks, userId, taskId, data).Pass? ==> db.links == old(db.links) + [NewLink(old(db.nextLinkId), taskId, data)] && db.nextLinkId == old(db.nextLinkId) + 1
    ensures AddLinkGate(db.projects, db.tasks, userId, taskId, data).Pass? && !returnTask ==> r == Ok(None)
    ensures AddLinkGate(db.projects, db.tasks, userId, taskId, data).Pass? && returnTask ==>
              r == Ok(Some(FormatTask(db.Snapshot(), FindTask(db.projects, db.tasks, taskId, userId).value)))
  {
    var c := RequireFields(data, LinkFields);
    RequiredOne(data, "url");
    if c.Fail? {
      return Exit(c.response);
    }
    var task := Get(db.Snapshot(), taskId, userId);
    if task.Exit? {
      return Exit(task.response);
    }
    var _ := db.InsertLink(taskId, Bind(Coalesce(data, "title", Null)), ToText(Field(data, "url")));
    if returnTask {
      var view := Get(db.Snapshot(), taskId, userId);
      return Ok(Some(view.value));
    }
    return Ok(None);
  }

  /** `deleteLink($userId, $taskId, $linkId)`. */
  method DeleteLink(db: Database, userId: int, taskId: int, linkId: int) returns (r: Outcome<TaskView>)
    requires db.Valid()
    modifies db`links
    ensures db.Valid()
    ensures FindTask(db.projects, db.tasks, taskId, userId).None? ==> r == Exit(TaskNotFound) && db.links == old(db.links)
    ensures FindTask(db.projects, db.tasks, taskId, userId).Some? ==>
              && db.links == DeleteLinks(old(db.links), linkId, taskId)
              && r == Ok(FormatTask(db.Snapshot(), FindTask(db.projects, db.tasks, taskId, userId).value))
  {
    var task := Get(db.Snapshot(), taskId, userId);
    if task.Exit? {
      return Exit(task.response);
    }
    db.DeleteLink(linkId, taskId);
    r := Get(db.Snapshot(), taskId, userId);
  }

  /** `addImage($userId, $taskId, $path)`: 404 unless the task is the user's; otherwise
      one image row with the stored path. */
  method AddImage(db: Database, o: Oracles, userId: int, taskId: int, path: string) returns (r: Outcome<TaskView>)
    requires db.Valid()
    modifies db`images, db`nextImageId
    ensures db.Valid()
    ensures FindTask(db.projects, db.tasks, taskId, userId).None? ==>
              r == Exit(TaskNotFound) && unchanged(db`images, db`nextImageId)
    ensures FindTask(db.projects, db.tasks, taskId, userId).Some? ==>
              && db.images == old(db.images) + [ImageRow(old(db.nextImageId), taskId, path, o.now)]
              && db.nextImageId == old(db.nextImageId) + 1
              && r == Ok(FormatTask(db.Snapshot(), FindTask(db.projects, db.tasks, taskId, userId).value))
  {
    var task := Get(db.Snapshot(), taskId, userId);
    if task.Exit? {
      return Exit(task.response);
    }
    var _ := db.InsertImage(taskId, path, o.now);
    r := Get(db.Snapshot(), taskId, userId);
  }

  /** `deleteImage($userId, $taskId, $imageId)`. */
  method DeleteImage(db: Database, userId: int, taskId: int, imageId: int) returns (r: Outcome<TaskView>)
    requires db.Valid()
    modifies db`images
    ensures db.Valid()
    ensures FindTask(db.projects, db.tasks, taskId, userId).None? ==> r == Exit(TaskNotFound) && db.images == old(db.images)
    ensures FindTask(db.projects, db.tasks, taskId, userId).Some? ==>
              && db.images == DeleteImages(old(db.images), imageId, taskId)
              && r == Ok(FormatTask(db.Snapshot(), FindTask(db.projects, db.tasks, taskId, userId).value))
  {
    var task := Get(db.Snapshot(), taskId, userId);
    if task.Exit? {
      return Exit(task.response);
    }
    db.DeleteImage(imageId, taskId);
    r := Get(db.Snapshot(), taskId, userId);
  }
}
