/** The projects of a user (`ProjectService`): every read and write is scoped to the
    owner, a project reads back with a summary of its tasks, newest first, and
    partial updates keep the fields the request does not mention. */
module Projects {
  import opened Values
  import opened Schema
  import opened Http
  import opened Seqs
  import opened Settings
  import opened Store

  const CreateFields := ["title"]
  const NotFound := Error("Project not found", 404)

  // ---------------------------------------------------------------- queries and views

  predicate Owned(p: ProjectRow, projectId: int, userId: int) {
    p.id == projectId && p.userId == userId
  }

  /** `SELECT * FROM projects WHERE id = :id AND user_id = :user_id LIMIT 1`. */
  function FindProject(projects: seq<ProjectRow>, projectId: int, userId: int): (r: Option<ProjectRow>)
    ensures r.Some? ==> r.value in projects && Owned(r.value, projectId, userId)
    ensures r.None? <==> forall p :: p in projects ==> !Owned(p, projectId, userId)
  {
    First(projects, (p: ProjectRow) => Owned(p, projectId, userId))
  }

  /** `SELECT ... FROM tasks WHERE project_id = :project_id ORDER BY created_at DESC`. */
  function ProjectTasks(tasks: seq<TaskRow>, projectId: int): (r: seq<TaskRow>)
    ensures SortedDesc(r, TaskCreated)
    ensures multiset(r) == multiset(Filter(tasks, (t: TaskRow) => t.projectId == projectId))
    ensures forall t :: t in r <==> t in tasks && t.projectId == projectId
  {
    var selected := Filter(tasks, (t: TaskRow) => t.projectId == projectId);
    var r := SortDesc(selected, TaskCreated);
    PermutationSameElements(r, selected);
    r
  }

  function Summary(t: TaskRow): TaskSummary {
    TaskSummary(t.id, t.title, t.status, t.deadline)
  }

  /** `formatProject($project, true)`: the project's columns and the summaries of its tasks. */
  function FormatProject(tasks: seq<TaskRow>, p: ProjectRow): (v: ProjectView)
    ensures v.id == p.id && v.title == p.title && v.createdAt == p.createdAt
    ensures v.description == p.description && v.image == p.image && v.link == p.link
    ensures |v.tasks| == |ProjectTasks(tasks, p.id)|
    ensures forall i :: 0 <= i < |v.tasks| ==> v.tasks[i] == Summary(ProjectTasks(tasks, p.id)[i])
  {
    var rows := ProjectTasks(tasks, p.id);
    ProjectView(p.id, p.title, p.description, p.image, p.link, p.createdAt,
                seq(|rows|, i requires 0 <= i < |rows| => Summary(rows[i])))
  }

  /** A project view lists exactly the tasks of that project. */
  lemma FormatProjectListsItsTasks(tasks: seq<TaskRow>, p: ProjectRow)
    ensures forall s :: s in FormatProject(tasks, p).tasks ==>
              exists t :: t in tasks && t.projectId == p.id && s == Summary(t)
    ensures forall t :: t in tasks && t.projectId == p.id ==> Summary(t) in FormatProject(tasks, p).tasks
  {
    var v := FormatProject(tasks, p);
    var rows := ProjectTasks(tasks, p.id);
    forall s | s in v.tasks ensures exists t :: t in tasks && t.projectId == p.id && s == Summary(t) {
      var i :| 0 <= i < |v.tasks| && v.tasks[i] == s;
      assert rows[i] in rows;
    }
    forall t | t in tasks && t.projectId == p.id ensures Summary(t) in v.tasks {
      var i :| 0 <= i < |rows| && rows[i] == t;
      assert v.tasks[i] == Summary(t);
    }
  }

  /** `get($userId, $projectId)`: the project if the user owns it, 404 otherwise. */
  function Get(t: Tables, userId: int, projectId: int): (r: Outcome<ProjectView>)
    ensures r.Ok? <==> exists p :: p in t.projects && Owned(p, projectId, userId)
    ensures r.Ok? ==> r.value.id == projectId
    ensures r.Ok? ==> exists p :: p in t.projects && Owned(p, projectId, userId) && r.value == FormatProject(t.tasks, p)
    ensures r.Exit? ==> r.response == NotFound
  {
    match FindProject(t.projects, projectId, userId)
    case Some(p) => Ok(FormatProject(t.tasks, p))
    case None => Exit(NotFound)
  }

  /** A user never sees another user's project: asking for it gives 404. */
  lemma NotOwnerGets404(t: Tables, next: int, userId: int, p: ProjectRow)
    requires Keyed(t.projects, ProjectKey, next)
    requires p in t.projects && p.userId != userId
    ensures Get(t, userId, p.id) == Exit(NotFound)
  {
    forall q | q in t.projects && Owned(q, p.id, userId) ensures false {
      KeyedUnique(t.projects, ProjectKey, next, p, q);
    }
  }

  /** `SELECT * FROM projects WHERE user_id = :user_id ORDER BY created_at DESC`. */
  function ListRows(projects: seq<ProjectRow>, userId: int): (r: seq<ProjectRow>)
    ensures SortedDesc(r, ProjectCreated)
    ensures multiset(r) == multiset(Filter(projects, (p: ProjectRow) => p.userId == userId))
    ensures forall p :: p in r <==> p in projects && p.userId == userId
  {
    var selected := Filter(projects, (p: ProjectRow) => p.userId == userId);
    var r := SortDesc(selected, ProjectCreated);
    PermutationSameElements(r, selected);
    r
  }

  /** `list($userId)`: the user's projects, newest first, each with its task summaries. */
  function List(t: Tables, userId: int): (r: seq<ProjectView>)
    ensures |r| == |ListRows(t.projects, userId)|
    ensures forall i :: 0 <= i < |r| ==> r[i] == FormatProject(t.tasks, ListRows(t.projects, userId)[i])
  {
    var rows := ListRows(t.projects, userId);
    seq(|rows|, i requires 0 <= i < |rows| => FormatProject(t.tasks, rows[i]))
  }

  /** The list holds one view per project of the user, and no project of anyone else;
      consecutive entries are in non-increasing order of creation. */
  lemma ListIsOwnersProjects(t: Tables, userId: int)
    ensures forall v :: v in List(t, userId) ==>
              exists p :: p in t.projects && p.userId == userId && v == FormatProject(t.tasks, p)
    ensures forall p :: p in t.projects && p.userId == userId ==> FormatProject(t.tasks, p) in List(t, userId)
    ensures forall i, j :: 0 <= i < j < |List(t, userId)| ==> List(t, userId)[i].createdAt >= List(t, userId)[j].createdAt
  {
    ListOnlyOwners(t, userId);
    ListAllOwners(t, userId);
    ListNewestFirst(t, userId);
  }

  lemma ListOnlyOwners(t: Tables, userId: int)
    ensures forall v :: v in List(t, userId) ==>
              exists p :: p in t.projects && p.userId == userId && v == FormatProject(t.tasks, p)
  {
    var rows := ListRows(t.projects, userId);
    var r := List(t, userId);
    forall v | v in r ensures exists p :: p in t.projects && p.userId == userId && v == FormatProject(t.tasks, p) {
      var i :| 0 <= i < |r| && r[i] == v;
      assert rows[i] in rows;
    }
  }

  lemma ListAllOwners(t: Tables, userId: int)
    ensures forall p :: p in t.projects && p.userId == userId ==> FormatProject(t.tasks, p) in List(t, userId)
  {
    var rows := ListRows(t.projects, userId);
    var r := List(t, userId);
    forall p | p in t.projects && p.userId == userId ensures FormatProject(t.tasks, p) in r {
      var i :| 0 <= i < |rows| && rows[i] == p;
      assert r[i] == FormatProject(t.tasks, p);
    }
  }

  lemma ListNewestFirst(t: Tables, userId: int)
    ensures forall i, j :: 0 <= i < j < |List(t, userId)| ==> List(t, userId)[i].createdAt >= List(t, userId)[j].createdAt
  {
    var rows := ListRows(t.projects, userId);
    var r := List(t, userId);
    forall i, j | 0 <= i < j < |r| ensures r[i].createdAt >= r[j].createdAt {
      assert ProjectCreated(rows[i]) >= ProjectCreated(rows[j]);
    }
  }

  // ---------------------------------------------------------------- partial update

  /** The row `update` writes: `title` falls back to the stored title when it is absent
      or null (`??`); `description`, `image` and `link` fall back only when the key is
      absent (`array_key_exists`), so an explicit null clears them. */
  function ApplyUpdate(p: ProjectRow, data: Json): (q: ProjectRow)
    ensures q.id == p.id && q.userId == p.userId && q.createdAt == p.createdAt
    ensures q.title == (if IsSet(data, "title") then ToText(Field(data, "title")) else p.title)
    ensures q.description == (if KeyExists(data, "description") then Bind(Field(data, "description")) else p.description)
    ensures q.image == (if KeyExists(data, "image") then Bind(Field(data, "image")) else p.image)
    ensures q.link == (if KeyExists(data, "link") then Bind(Field(data, "link")) else p.link)
  {
    p.(title := if IsSet(data, "title") then ToText(Field(data, "title")) else p.title,
       description := if KeyExists(data, "description") then Bind(Field(data, "description")) else p.description,
       image := if KeyExists(data, "image") then Bind(Field(data, "image")) else p.image,
       link := if KeyExists(data, "link") then Bind(Field(data, "link")) else p.link)
  }

  /** Sending the same update twice has the effect of sending it once. */
  lemma ApplyUpdateIdempotent(p: ProjectRow, data: Json)
    ensures ApplyUpdate(ApplyUpdate(p, data), data) == ApplyUpdate(p, data)
  {
  }

  /** An update that mentions no field leaves the project as it is. */
  lemma EmptyUpdateKeepsProject(p: ProjectRow, data: Json)
    requires !KeyExists(data, "title") && !KeyExists(data, "description")
    requires !KeyExists(data, "image") && !KeyExists(data, "link")
    ensures ApplyUpdate(p, data) == p
  {
  }

  /** An explicit null clears the description but not the title. */
  lemma NullClearsDescriptionNotTitle(p: ProjectRow, data: Json)
    requires Lookup(data, "title") == Some(Null) && Lookup(data, "description") == Some(Null)
    ensures ApplyUpdate(p, data).title == p.title
    ensures ApplyUpdate(p, data).description == SqlNull
  {
  }

  /** The updated row is found again under the same id and owner. */
  lemma {:induction false} FindAfterUpdate(projects: seq<ProjectRow>, projectId: int, userId: int, q: ProjectRow)
    requires FindProject(projects, projectId, userId).Some?
    requires q.id == projectId && q.userId == userId
    ensures FindProject(UpdateProjects(projects, projectId, userId, q.title, q.description, q.image, q.link),
                        projectId, userId)
            == Some(FindProject(projects, projectId, userId).value.(title := q.title, description := q.description,
                                                                     image := q.image, link := q.link))
  {
    var updated := UpdateProjects(projects, projectId, userId, q.title, q.description, q.image, q.link);
    var p := FindProject(projects, projectId, userId).value;
    if Owned(projects[0], projectId, userId) {
      assert updated[0] == p.(title := q.title, description := q.description, image := q.image, link := q.link);
    } else {
      assert updated[0] == projects[0];
      var rest := projects[1..];
      assert FindProject(projects, projectId, userId) == FindProject(rest, projectId, userId);
      FindAfterUpdate(rest, projectId, userId, q);
      assert updated[1..] == UpdateProjects(rest, projectId, userId, q.title, q.description, q.image, q.link);
    }
  }

  /** The row with a new image is found again under the same id and owner. */
  lemma {:induction false} FindAfterImage(projects: seq<ProjectRow>, projectId: int, userId: int, image: Cell)
    requires FindProject(projects, projectId, userId).Some?
    ensures FindProject(SetProjectImage(projects, projectId, userId, image), projectId, userId)
            == Some(FindProject(projects, projectId, userId).value.(image := image))
  {
    var updated := SetProjectImage(projects, projectId, userId, image);
    if !Owned(projects[0], projectId, userId) {
      assert updated[0] == projects[0];
      FindAfterImage(projects[1..], projectId, userId, image);
      assert updated[1..] == SetProjectImage(projects[1..], projectId, userId, image);
    }
  }

  /** After a delete the project is gone for its owner, and every other row stays. */
  lemma DeleteRemovesOnlyTarget(projects: seq<ProjectRow>, projectId: int, userId: int)
    ensures FindProject(DeleteProjects(projects, projectId, userId), projectId, userId).None?
    ensures forall p :: p in projects && !Owned(p, projectId, userId) ==> p in DeleteProjects(projects, projectId, userId)
  {
  }

  /** The project row `create` inserts: owned by the caller, with description, image and
      link null unless set. */
  function NewProject(id: int, userId: int, data: Json, now: Timestamp): (row: ProjectRow)
    ensures row.id == id && row.userId == userId && row.createdAt == now
    ensures !IsSet(data, "description") ==> row.description == SqlNull
    ensures !IsSet(data, "image") ==> row.image == SqlNull
    ensures !IsSet(data, "link") ==> row.link == SqlNull
  {
    ProjectRow(id, userId, ToText(Field(data, "title")), Bind(Coalesce(data, "description", Null)),
               Bind(Coalesce(data, "image", Null)), Bind(Coalesce(data, "link", Null)), now)
  }

  // ---------------------------------------------------------------- operations

  /** `create($userId, $data)`: 422 without a title; otherwise a new project owned by
      the user, read back through `get`. */
  method Create(db: Database, o: Oracles, userId: int, data: Json) returns (r: Outcome<ProjectView>)
    requires db.Valid()
    modifies db`projects, db`nextProjectId
    ensures db.Valid()
    ensures Required(data, CreateFields).Fail? ==>
              r == Exit(Required(data, CreateFields).response) && unchanged(db`projects, db`nextProjectId)
    ensures Required(data, CreateFields).Pass? ==>
              var row := NewProject(old(db.nextProjectId), userId, data, o.now);
              && db.projects == old(db.projects) + [row]
              && r == Ok(FormatProject(db.tasks, row))
  {
    var c := RequireFields(data, CreateFields);
    if c.Fail? {
      return Exit(c.response);
    }
    ghost var before := db.projects;
    var id := db.InsertProject(userId, ToText(Field(data, "title")), Bind(Coalesce(data, "description", Null)),
                               Bind(Coalesce(data, "image", Null)), Bind(Coalesce(data, "link", Null)), o.now);
    var row := db.projects[|before|];
    assert row in db.projects;
    forall q | q in db.projects && Owned(q, id, userId) ensures q == row {
      KeyedUnique(db.projects, ProjectKey, db.nextProjectId, q, row);
    }
    r := Get(db.Snapshot(), userId, id);
  }

  /** `update($userId, $projectId, $data)`: 404 unless the user owns the project;
      otherwise the project's row is rewritten as `ApplyUpdate` says. */
  method Update(db: Database, userId: int, projectId: int, data: Json) returns (r: Outcome<ProjectView>)
    requires db.Valid()
    modifies db`projects
    ensures db.Valid()
    ensures FindProject(old(db.projects), projectId, userId).None? ==>
              r == Exit(NotFound) && db.projects == old(db.projects)
    ensures FindProject(old(db.projects), projectId, userId).Some? ==>
              var q := ApplyUpdate(FindProject(old(db.projects), projectId, userId).value, data);
              && db.projects == UpdateProjects(old(db.projects), projectId, userId, q.title, q.description, q.image, q.link)
              && r == Ok(FormatProject(db.tasks, q))
  {
    var found := FindProject(db.projects, projectId, userId);
    if found.None? {
      return Exit(NotFound);
    }
    var q := ApplyUpdate(found.value, data);
    FindAfterUpdate(db.projects, projectId, userId, q);
    db.UpdateProject(projectId, userId, q.title, q.description, q.image, q.link);
    r := Get(db.Snapshot(), userId, projectId);
  }

  /** `delete($userId, $projectId)`: 404 unless the user owns the project; otherwise
      its row is deleted. The project's tasks are not touched. */
  method Delete(db: Database, userId: int, projectId: int) returns (r: Outcome<()>)
    requires db.Valid()
    modifies db`projects
    ensures db.Valid()
    ensures FindProject(old(db.projects), projectId, userId).None? ==>
              r == Exit(NotFound) && db.projects == old(db.projects)
    ensures FindProject(old(db.projects), projectId, userId).Some? ==>
              r == Ok(()) && db.projects == DeleteProjects(old(db.projects), projectId, userId)
  {
    var found := Get(db.Snapshot(), userId, projectId);
    if found.Exit? {
      return Exit(found.response);
    }
    db.DeleteProject(projectId, userId);
    return Ok(());
  }

  /** `attachImage($userId, $projectId, $path)`: 404 unless the user owns the project;
      otherwise its image becomes the path and nothing else changes. */
  method AttachImage(db: Database, userId: int, projectId: int, path: string) returns (r: Outcome<ProjectView>)
    requires db.Valid()
    modifies db`projects
    ensures db.Valid()
    ensures FindProject(old(db.projects), projectId, userId).None? ==>
              r == Exit(NotFound) && db.projects == old(db.projects)
    ensures FindProject(old(db.projects), projectId, userId).Some? ==>
              && db.projects == SetProjectImage(old(db.projects), projectId, userId, Text(path))
              && r == Ok(FormatProject(db.tasks, FindProject(old(db.projects), projectId, userId).value.(image := Text(path))))
  {
    var found := Get(db.Snapshot(), userId, projectId);
    if found.Exit? {
      return Exit(found.response);
    }
    FindAfterImage(db.projects, projectId, userId, Text(path));
    db.UpdateProjectImage(projectId, userId, Text(path));
    r := Get(db.Snapshot(), userId, projectId);
  }
}
