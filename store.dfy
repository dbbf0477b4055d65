/** The database: the six tables held in memory, each with its AUTO_INCREMENT
    counter, and one method per kind of SQL statement the services execute. Rows
    are kept in insertion order, which is also the order in which a `SELECT`
    without `ORDER BY` returns them. No foreign key and no cascade is defined. */
module Store {
  import opened Schema
  import opened Seqs

  // ------------------------------------------------ the effect of UPDATE and DELETE on a table

  /** `UPDATE users SET token = :token WHERE id = :id`. */
  function SetToken(users: seq<UserRow>, id: int, token: string): seq<UserRow> {
    seq(|users|, i requires 0 <= i < |users| => if users[i].id == id then users[i].(token := token) else users[i])
  }

  /** `UPDATE projects SET title, description, image, link WHERE id = :id AND user_id = :user_id`. */
  function UpdateProjects(projects: seq<ProjectRow>, id: int, userId: int, title: string, description: Cell, image: Cell,
                          link: Cell): seq<ProjectRow> {
    seq(|projects|, i requires 0 <= i < |projects| =>
      if projects[i].id == id && projects[i].userId == userId
      then projects[i].(title := title, description := description, image := image, link := link)
      else projects[i])
  }

  /** `UPDATE projects SET image = :image WHERE id = :id AND user_id = :user_id`. */
  function SetProjectImage(projects: seq<ProjectRow>, id: int, userId: int, image: Cell): seq<ProjectRow> {
    seq(|projects|, i requires 0 <= i < |projects| =>
      if projects[i].id == id && projects[i].userId == userId then projects[i].(image := image) else projects[i])
  }

  /** `DELETE FROM projects WHERE id = :id AND user_id = :user_id`. */
  function DeleteProjects(projects: seq<ProjectRow>, id: int, userId: int): seq<ProjectRow> {
    Filter(projects, (p: ProjectRow) => !(p.id == id && p.userId == userId))
  }

  /** `UPDATE tasks SET title, description, status, deadline WHERE id = :id`. */
  function UpdateTasks(tasks: seq<TaskRow>, id: int, title: string, description: Cell, status: string,
                       deadline: Cell): seq<TaskRow> {
    seq(|tasks|, i requires 0 <= i < |tasks| =>
      if tasks[i].id == id
      then tasks[i].(title := title, description := description, status := status, deadline := deadline)
      else tasks[i])
  }

  /** `DELETE FROM tasks WHERE id = :id`. */
  function DeleteTasks(tasks: seq<TaskRow>, id: int): seq<TaskRow> {
    Filter(tasks, (t: TaskRow) => t.id != id)
  }

  /** `DELETE FROM task_tags WHERE id = :id AND task_id = :task_id`. */
  function DeleteTags(tags: seq<TagRow>, id: int, taskId: int): seq<TagRow> {
    Filter(tags, (t: TagRow) => !(t.id == id && t.taskId == taskId))
  }

  /** `DELETE FROM task_links WHERE id = :id AND task_id = :task_id`. */
  function DeleteLinks(links: seq<LinkRow>, id: int, taskId: int): seq<LinkRow> {
    Filter(links, (l: LinkRow) => !(l.id == id && l.taskId == taskId))
  }

  /** `DELETE FROM task_images WHERE id = :id AND task_id = :task_id`. */
  function DeleteImages(images: seq<ImageRow>, id: int, taskId: int): seq<ImageRow> {
    Filter(images, (m: ImageRow) => !(m.id == id && m.taskId == taskId))
  }

  // ------------------------------------------------ the database

  class Database {
    var users: seq<UserRow>
    var projects: seq<ProjectRow>
    var tasks: seq<TaskRow>
    var tags: seq<TagRow>
    var links: seq<LinkRow>
    var images: seq<ImageRow>

    // the AUTO_INCREMENT counter of each table: the id the next INSERT receives
    var nextUserId: int
    var nextProjectId: int
    var nextTaskId: int
    var nextTagId: int
    var nextLinkId: int
    var nextImageId: int

    /** The AUTO_INCREMENT discipline of the tables whose rows are looked up by id on
        their own: `users`, `projects` and `tasks`. The rows of `task_tags`, `task_links`
        and `task_images` are only ever read through their task, so nothing here depends
        on how their ids are issued. */
    ghost predicate Valid()
      reads this`users, this`nextUserId, this`projects, this`nextProjectId, this`tasks, this`nextTaskId
    {
      && 1 <= nextUserId && Keyed(users, UserKey, nextUserId)
      && 1 <= nextProjectId && Keyed(projects, ProjectKey, nextProjectId)
      && 1 <= nextTaskId && Keyed(tasks, TaskKey, nextTaskId)
    }

    /** What a `SELECT` sees: the current contents of every table. */
    function Snapshot(): Tables
      reads this
    {
      Tables(users, projects, tasks, tags, links, images)
    }

    constructor ()
      ensures Valid()
      ensures Snapshot() == Tables([], [], [], [], [], [])
    {
      users, projects, tasks, tags, links, images := [], [], [], [], [], [];
      nextUserId, nextProjectId, nextTaskId, nextTagId, nextLinkId, nextImageId := 1, 1, 1, 1, 1, 1;
    }

    /** `INSERT INTO users ...` followed by `lastInsertId()`. */
    method InsertUser(name: string, email: string, password: string, token: string, createdAt: Timestamp)
      returns (id: int)
      requires Valid()
      modifies this`users, this`nextUserId
      ensures Valid()
      ensures id == old(nextUserId) && nextUserId == id + 1
      ensures users == old(users) + [UserRow(id, name, email, password, token, createdAt)]
    {
      id := nextUserId;
      KeyedAppend(users, UserKey, nextUserId, UserRow(id, name, email, password, token, createdAt));
      users := users + [UserRow(id, name, email, password, token, createdAt)];
      nextUserId := nextUserId + 1;
    }

    method UpdateUserToken(id: int, token: string)
      requires Valid()
      modifies this`users
      ensures Valid()
      ensures users == SetToken(old(users), id, token)
    {
      KeyedSameKeys(users, SetToken(users, id, token), UserKey, nextUserId);
      users := SetToken(users, id, token);
    }

    /** `INSERT INTO projects ...` followed by `lastInsertId()`. */
    method InsertProject(userId: int, title: string, description: Cell, image: Cell, link: Cell, createdAt: Timestamp)
      returns (id: int)
      requires Valid()
      modifies this`projects, this`nextProjectId
      ensures Valid()
      ensures id == old(nextProjectId) && nextProjectId == id + 1
      ensures projects == old(projects) + [ProjectRow(id, userId, title, description, image, link, createdAt)]
    {
      id := nextProjectId;
      var row := ProjectRow(id, userId, title, description, image, link, createdAt);
      KeyedAppend(projects, ProjectKey, nextProjectId, row);
      projects := projects + [row];
      nextProjectId := nextProjectId + 1;
    }

    method UpdateProject(id: int, userId: int, title: string, description: Cell, image: Cell, link: Cell)
      requires Valid()
      modifies this`projects
      ensures Valid()
      ensures projects == UpdateProjects(old(projects), id, userId, title, description, image, link)
    {
      var updated := UpdateProjects(projects, id, userId, title, description, image, link);
      KeyedSameKeys(projects, updated, ProjectKey, nextProjectId);
      projects := updated;
    }

    method UpdateProjectImage(id: int, userId: int, image: Cell)
      requires Valid()
      modifies this`projects
      ensures Valid()
      ensures projects == SetProjectImage(old(projects), id, userId, image)
    {
      KeyedSameKeys(projects, SetProjectImage(projects, id, userId, image), ProjectKey, nextProjectId);
      projects := SetProjectImage(projects, id, userId, image);
    }

    method DeleteProject(id: int, userId: int)
      requires Valid()
      modifies this`projects
      ensures Valid()
      ensures projects == DeleteProjects(old(projects), id, userId)
    {
      KeyedFilter(projects, ProjectKey, nextProjectId, (p: ProjectRow) => !(p.id == id && p.userId == userId));
      projects := DeleteProjects(projects, id, userId);
    }

    /** `INSERT INTO tasks ...` followed by `lastInsertId()`. */
    method InsertTask(projectId: int, title: string, description: Cell, status: string, deadline: Cell,
                      createdAt: Timestamp) returns (id: int)
      requires Valid()
      modifies this`tasks, this`nextTaskId
      ensures Valid()
      ensures id == old(nextTaskId) && nextTaskId == id + 1
      ensures tasks == old(tasks) + [TaskRow(id, projectId, title, description, status, deadline, createdAt)]
    {
      id := nextTaskId;
      var row := TaskRow(id, projectId, title, description, status, deadline, createdAt);
      KeyedAppend(tasks, TaskKey, nextTaskId, row);
      tasks := tasks + [row];
      nextTaskId := nextTaskId + 1;
    }

    method UpdateTask(id: int, title: string, description: Cell, status: string, deadline: Cell)
      requires Valid()
      modifies this`tasks
      ensures Valid()
      ensures tasks == UpdateTasks(old(tasks), id, title, description, status, deadline)
    {
      var updated := UpdateTasks(tasks, id, title, description, status, deadline);
      KeyedSameKeys(tasks, updated, TaskKey, nextTaskId);
      tasks := updated;
    }

    method DeleteTask(id: int)
      requires Valid()
      modifies this`tasks
      ensures Valid()
      ensures tasks == DeleteTasks(old(tasks), id)
    {
      KeyedFilter(tasks, TaskKey, nextTaskId, (t: TaskRow) => t.id != id);
      tasks := DeleteTasks(tasks, id);
    }

    method InsertTag(taskId: int, tag: string) returns (id: int)
      requires Valid()
      modifies this`tags, this`nextTagId
      ensures Valid()
      ensures id == old(nextTagId) && nextTagId == id + 1
      ensures tags == old(tags) + [TagRow(id, taskId, tag)]
    {
      id := nextTagId;
      tags := tags + [TagRow(id, taskId, tag)];
      nextTagId := nextTagId + 1;
    }

    method DeleteTag(id: int, taskId: int)
      requires Valid()
      modifies this`tags
      ensures Valid()
      ensures tags == DeleteTags(old(tags), id, taskId)
    {
      tags := DeleteTags(tags, id, taskId);
    }

    method InsertLink(taskId: int, title: Cell, url: string) returns (id: int)
      requires Valid()
      modifies this`links, this`nextLinkId
      ensures Valid()
      ensures id == old(nextLinkId) && nextLinkId == id + 1
      ensures links == old(links) + [LinkRow(id, taskId, title, url)]
    {
      id := nextLinkId;
      links := links + [LinkRow(id, taskId, title, url)];
      nextLinkId := nextLinkId + 1;
    }

    method DeleteLink(id: int, taskId: int)
      requires Valid()
      modifies this`links
      ensures Valid()
      ensures links == DeleteLinks(old(links), id, taskId)
    {
      links := DeleteLinks(links, id, taskId);
    }

    method InsertImage(taskId: int, filePath: string, createdAt: Timestamp) returns (id: int)
      requires Valid()
      modifies this`images, this`nextImageId
      ensures Valid()
      ensures id == old(nextImageId) && nextImageId == id + 1
      ensures images == old(images) + [ImageRow(id, taskId, filePath, createdAt)]
    {
      id := nextImageId;
      images := images + [ImageRow(id, taskId, filePath, createdAt)];
      nextImageId := nextImageId + 1;
    }

    method DeleteImage(id: int, taskId: int)
      requires Valid()
      modifies this`images
      ensures Valid()
      ensures images == DeleteImages(old(images), id, taskId)
    {
      images := DeleteImages(images, id, taskId);
    }
  }
}
