# microtask-backend, modelled in Dafny

A model of the request-handling core of a small PHP backend for projects and tasks.
Users register and log in, then manage their own projects and the tasks inside them.
Each task can carry tags, links and uploaded images.

The model covers:

- the front controller `index.php`: the preflight answer, the two public routes, bearer-token authentication, the first-match route cascade and the 404 fallback, and `getJsonBody`;
- the three services `AuthService`, `ProjectService` and `TaskService`;
- the validation chain of `UploadService::save`;
- the shared helpers `Http::json` and `Http::requireFields`.

The six MySQL tables (`users`, `projects`, `tasks`, `task_tags`, `task_links`, `task_images`) are in-memory sequences of rows in a `Database` class, each with its AUTO_INCREMENT counter.
Every service operation that writes to them is a method with a `modifies` clause.
Its `ensures` states the response and the exact new contents of each table it may touch.
The reads (`get`, `list`, `formatProject`, `formatTask`, `authenticate`, …) are functions over a snapshot of the tables.

`Http::json` ends the request, so a service call returns an `Outcome`: either its value (`Ok`) or the response some `Http::json` inside it sent (`Exit`).
A check that returns nothing is a `Check` (`Pass` or `Fail`).

A request body is a small JSON datatype with `Null`, `Bool`, `Int`, `Str`, `List` and `Object`.
Objects keep their members in document order.
On top of it sit PHP's `isset`, `??`, `array_key_exists`, `is_array`, the `(int)` cast and the conversion of a value into an SQL parameter.
Together these separate the three cases updates depend on: key absent, key present with `null`, and key present with a value.

Files and modules:

| file | module | what it holds |
|---|---|---|
| values.dfy | Values | the JSON value, PHP conversions, decimal digits |
| seqs.dfy | Seqs | `WHERE` as a filter, `LIMIT 1` as the first match, `ORDER BY … DESC` as a stable sort, the AUTO_INCREMENT invariant |
| schema.dfy | Schema | table rows, the SQL cell (`NULL` or text), the views the services return |
| settings.dfy | Settings | the configuration array, and the answers of the outside world (clock, random bytes, bcrypt, `uniqid`, file system) |
| http.dfy | Http | responses, `Outcome`/`Check`, `requireFields` |
| store.dfy | Store | the `Database` class: one method per SQL statement |
| auth.dfy | Auth | `AuthService` |
| projects.dfy | Projects | `ProjectService` |
| tasks.dfy | Tasks | `TaskService` |
| uploads.dfy | Uploads | `UploadService::save` and `pathinfo` |
| router.dfy | Router | the request handling of `index.php`, and `getJsonBody` |

## Model

| member | source | states |
|---|---|---|
| Http.MissingFields | src/Http.php:17-23 | a field is reported exactly when it is required and is absent, null or `''`; no more names than were required |
| Http.MissingFieldsConcat | src/Http.php:17-22 | the report follows the order of the `required` argument: the report for `r1 + r2` is the report for `r1` followed by the report for `r2` |
| Http.Required | src/Http.php:15-27 | passes exactly when no required field is missing; otherwise status 422 with "Missing required fields" and the missing list |
| Http.RequiredOne | src/Http.php:19-25 | with one required field, the check fails with that one name exactly when the field is missing |
| Http.RequireFields | src/Http.php:15-27 | the loop over `required` computes the same result as `Required` |
| Values.LookupMember | index.php:182 | a key is found exactly when some member has it, and the value found is one of that key's members |
| Values.Field | src/TaskService.php:128 | `$data[$k]` is the stored value when the key exists and null otherwise |
| Values.IssetVersusKeyExists | src/ProjectService.php:70-71 | a set key exists; a key that exists but is not set is exactly one bound to null |
| Values.Coalesce | src/ProjectService.php:47-49 | `$data[$k] ?? $d` is the stored value when it is set (present and not null) and the default otherwise |
| Values.Elements | src/TaskService.php:67-80 | `foreach` visits a list's items, or an object's values, in order |
| Values.Single | src/TaskService.php:69 | the array `[$k => $v]` holds `$v` under `$k` |
| Values.DigitRun | index.php:136 | `\d+` takes the longest run of digits: every character read is a digit, and the next one is not |
| Values.DigitRunOfDigits | index.php:136-138 | a run of digits followed by a non-digit is taken whole |
| Values.NatToString | src/TaskService.php:127 | a PDO integer parameter becomes a non-empty digit string |
| Values.NatToStringRoundTrip | src/TaskService.php:127 | reading that digit string back gives the number |
| Values.SkipSpace | src/TaskService.php:57 | the `(int)` cast skips leading whitespace: what remains starts with a non-space |
| Values.DigitStringToInt | index.php:94 | `(int)` of a digit string is its decimal value |
| Values.NegativeDigitStringToInt | src/TaskService.php:57 | `(int)` of `-` followed by digits is the negated decimal value |
| Values.DigitsValueAppend | src/TaskService.php:57 | appending digits shifts the value of the leading digits up by as many decimal places |
| Values.DigitsValueBound | src/TaskService.php:57 | `k` digits denote less than 10 to the power `k` |
| Values.ShiftRoundTrip | src/TaskService.php:57 | shifting up by `k` places, adding less than 10^k and shifting down gives the number back |
| Values.LeadingDigits | src/TaskService.php:57 | digits followed by a character that cannot continue a number are read as those digits |
| Values.UnsignedStringToInt | src/TaskService.php:57 | a string starting with a digit casts to the number it starts with |
| Values.DigitsExponent | src/TaskService.php:57 | an exponent `e` plus digits is the value of those digits |
| Values.ExponentStringToInt | src/TaskService.php:57 | `(int)` of digits, `e` and digits is the first number times ten to the power of the second |
| Values.FractionNumber | src/TaskService.php:57 | digits, `.` and fraction digits denote all the digits scaled down by the fraction's length |
| Values.DropFraction | src/TaskService.php:57 | scaling the digits of `d` then `f` down by the length of `f` leaves the value of `d` |
| Values.FractionStringToInt | src/TaskService.php:57 | `(int)` of digits, `.` and digits drops the fraction |
| Values.FractionExponentNumber | src/TaskService.php:42 | digits, `.`, fraction digits and an exponent denote all the digits scaled by the exponent less the fraction's length |
| Values.ExponentExample | src/TaskService.php:42 | `(int)"1e3"` is 1000 |
| Values.FractionExample | src/TaskService.php:42 | `(int)"2.9"` is 2 |
| Values.FractionExponentExample | src/TaskService.php:42 | `(int)"1.5e1"` is 15 |
| Values.IntTextRoundTrip | src/TaskService.php:57 | `(int)` of the text an integer is stored as gives the integer back |
| Values.StringArg | src/AuthService.php:82 | in coercive mode (the services declare no `strict_types`), only a bool, an integer or a string reaches a `string` parameter, as its text |
| Values.Lower | src/UploadService.php:25 | `strtolower` keeps the length and lowers each character |
| Seqs.First | src/AuthService.php:84-87 | `LIMIT 1` returns a matching row when one exists and nothing exactly when none matches |
| Seqs.FirstIsEarliest | src/AuthService.php:84-87 | the row returned is the first match in table order |
| Seqs.Filter | src/ProjectService.php:16 | `WHERE` keeps exactly the rows satisfying the condition |
| Seqs.SortDesc | src/ProjectService.php:16 | `ORDER BY … DESC` returns a permutation of its input, sorted by descending key |
| Seqs.KeyedAppend | src/ProjectService.php:53 | an INSERT that takes the next AUTO_INCREMENT id keeps ids strictly increasing and below the counter |
| Seqs.KeyedFilter | src/ProjectService.php:84-85 | a DELETE keeps that invariant |
| Seqs.KeyedUnique | src/ProjectService.php:25-27 | under that invariant, two rows with the same id are the same row |
| Schema.Bind | src/ProjectService.php:44-51 | a parameter binds as SQL NULL exactly when it is null; otherwise it binds as its text |
| Store.Database.InsertUser | src/AuthService.php:28-39 | appends the row with the next id, which `lastInsertId` returns, and advances the counter |
| Store.Database.UpdateUserToken | src/AuthService.php:52-53 | replaces the token of the rows with that id; nothing else changes |
| Store.Database.InsertProject | src/ProjectService.php:39-53 | appends the row with the next id and advances the counter |
| Store.Database.UpdateProject | src/ProjectService.php:60-76 | rewrites the four columns of the row matching id and owner |
| Store.Database.UpdateProjectImage | src/ProjectService.php:91-92 | rewrites only `image` of the row matching id and owner |
| Store.Database.DeleteProject | src/ProjectService.php:84-85 | removes the rows matching id and owner |
| Store.Database.InsertTask | src/TaskService.php:51-65 | appends the row with the next id and advances the counter |
| Store.Database.UpdateTask | src/TaskService.php:93-108 | rewrites the four columns of the row with that id |
| Store.Database.DeleteTask | src/TaskService.php:116-117 | removes the rows with that id |
| Store.Database.InsertTag | src/TaskService.php:125-129 | appends the tag row with the next id |
| Store.Database.DeleteTag | src/TaskService.php:137-138 | removes the tag rows matching both id and task id |
| Store.Database.InsertLink | src/TaskService.php:147-152 | appends the link row with the next id |
| Store.Database.DeleteLink | src/TaskService.php:160-161 | removes the link rows matching both id and task id |
| Store.Database.InsertImage | src/TaskService.php:168-173 | appends the image row with the next id |
| Store.Database.DeleteImage | src/TaskService.php:180-181 | removes the image rows matching both id and task id |
| Auth.FindByEmail | src/AuthService.php:82-88 | returns a user with that email, and nothing exactly when no user has it |
| Auth.GetById | src/AuthService.php:90-99 | returns the user with that id when there is one; otherwise 404 "User not found" |
| Auth.FormatUserHidesPassword | src/AuthService.php:107-116 | the user view is id, name, email, token and created_at, and does not depend on the password hash |
| Auth.Me | src/AuthService.php:77-80 | `me` is exactly `formatUser` of the authenticated user |
| Auth.TokenByteCount | src/AuthService.php:104 | `ceil(L / 2)` bytes: twice the count is L or L + 1 |
| Auth.HexEncode | src/AuthService.php:104 | `bin2hex` gives two hex digits per byte |
| Auth.TokenLengthIs | src/AuthService.php:101-105 | a token has 2·ceil(L/2) hex characters, exactly L when L is even, and 40 by default; L below 1 is the uncaught `random_bytes` error |
| Auth.Authenticate | src/AuthService.php:59-75 | succeeds exactly when the header starts with "Bearer " and some user holds the rest as token, and returns that user; otherwise 401 "Unauthorized" |
| Auth.BearerHeader | src/AuthService.php:61-65 | `Bearer <t>` passes the prefix test, and the token read from it is `t` |
| Auth.TokenRotationSucceeds | src/AuthService.php:51-56 | after a login stores a new token, a bearer header with that token authenticates |
| Auth.OldTokenRevoked | src/AuthService.php:51-56 | after the token of a user is replaced by a different one, the old token no longer authenticates as that user |
| Auth.Registration | src/AuthService.php:16-40 | the required-field failure wins; a successful registration has the next id and the clock's timestamp, and its email was not taken |
| Auth.RegisterConflict | src/AuthService.php:20-23 | a complete request with a registered email fails with 409 "Email already registered" |
| Auth.RegisterKeepsEmailsUnique | src/AuthService.php:18-37 | registration keeps emails unique across the `users` table |
| Auth.Register | src/AuthService.php:16-40 | on failure nothing is inserted; on success exactly the new row is appended and its view returned |
| Auth.LoginResult | src/AuthService.php:42-57 | the required-field failure wins; an unknown email, or a password that does not verify against the stored hash, gives 401 "Invalid credentials"; a success is a stored user whose password verifies, with a new token |
| Auth.Login | src/AuthService.php:42-57 | on failure the `users` table is unchanged; on success only that user's token is replaced, and the view carries the new token |
| Auth.LoginTokenAuthenticates | src/AuthService.php:51-68 | the token a login returns authenticates afterwards, as a user holding that token; when no other user holds it, as the user who logged in |
| Auth.RotationKeepsOthers | src/AuthService.php:52-53 | replacing one user's token leaves every other user's row as it was |
| Projects.FindProject | src/ProjectService.php:25-27 | returns a project with that id and owner, and nothing exactly when there is none |
| Projects.ProjectTasks | src/ProjectService.php:108-110 | exactly the tasks of that project, ordered by descending `created_at` |
| Projects.FormatProject | src/ProjectService.php:96-122 | the project view copies the row's columns, and its `tasks` are the summaries of the project's tasks in that order |
| Projects.FormatProjectListsItsTasks | src/ProjectService.php:107-119 | every summary in the view is one of the project's tasks, and every task of the project appears |
| Projects.Get | src/ProjectService.php:23-33 | succeeds exactly when the id and the owner both match, with the view of that row; otherwise 404 "Project not found" |
| Projects.NotOwnerGets404 | src/ProjectService.php:25-30 | a project of another user answers 404 |
| Projects.ListRows | src/ProjectService.php:16-18 | exactly the caller's projects, ordered by descending `created_at` |
| Projects.List | src/ProjectService.php:14-21 | `list` maps `formatProject` over those rows, in order |
| Projects.ListIsOwnersProjects | src/ProjectService.php:14-21 | every listed view belongs to the caller, every project of the caller is listed, and the order is by descending `created_at` |
| Projects.ApplyUpdate | src/ProjectService.php:69-76 | `title` changes only when set (`??`); `description`, `image` and `link` change whenever the key is present, null included; id, owner and created_at never change |
| Projects.ApplyUpdateIdempotent | src/ProjectService.php:69-76 | applying the same update twice equals applying it once |
| Projects.EmptyUpdateKeepsProject | src/ProjectService.php:69-76 | an update naming none of the four keys leaves the project as it was |
| Projects.NullClearsDescriptionNotTitle | src/ProjectService.php:70-71 | a null `title` keeps the title, while a null `description` clears the description |
| Projects.FindAfterUpdate | src/ProjectService.php:60-78 | after the UPDATE, the project read back is the old row with the four new columns |
| Projects.FindAfterImage | src/ProjectService.php:91-93 | after the image UPDATE, the project read back differs from the old row only in `image` |
| Projects.DeleteRemovesOnlyTarget | src/ProjectService.php:84-85 | after the DELETE the project is gone, and every other project is still there |
| Projects.Create | src/ProjectService.php:35-54 | a missing title answers 422 and inserts nothing; otherwise exactly the new row is appended, with the caller as owner and nulls as defaults, and its view is returned |
| Projects.Update | src/ProjectService.php:56-79 | an unknown or foreign project answers 404 and changes nothing; otherwise the table holds the updated row and its view is returned |
| Projects.Delete | src/ProjectService.php:81-86 | an unknown or foreign project answers 404 and changes nothing; otherwise exactly that project's rows are removed |
| Projects.AttachImage | src/ProjectService.php:88-94 | an unknown or foreign project answers 404 and changes nothing; otherwise only that project's `image` changes |
| Tasks.FindTask | src/TaskService.php:18-30 | returns a task with that id whose project exists and, for a truthy user id, belongs to that user; nothing exactly when there is none |
| Tasks.FetchTags | src/TaskService.php:216-221 | exactly the `(id, tag)` pairs of the task's tag rows |
| Tasks.FetchLinks | src/TaskService.php:223-234 | exactly the `(id, title, url)` triples of the task's link rows |
| Tasks.FetchImages | src/TaskService.php:236-241 | exactly the `(id, file_path)` pairs of the task's image rows |
| Tasks.TagNames | src/TaskService.php:208 | `array_column($tags, 'tag')` keeps one entry per row, in order |
| Tasks.FilePaths | src/TaskService.php:211 | `array_column($images, 'file_path')` keeps one entry per row, in order |
| Tasks.FormatTask | src/TaskService.php:194-214 | the task view copies the row's columns and its fetched child rows |
| Tasks.ViewListsAgree | src/TaskService.php:208-212 | `tags` lists the `tag` of each `tag_meta` entry, and `images` the `file_path` of each `image_meta` entry, in order |
| Tasks.Get | src/TaskService.php:16-37 | succeeds exactly when a visible task has that id, with its view; otherwise 404 "Task not found" |
| Tasks.GetIsScopedToOwner | src/TaskService.php:16-34 | with a truthy user id, a task is returned only when its project belongs to that user |
| Tasks.GetWithoutOwner | src/TaskService.php:22-28 | with user id 0 (no owner filter) any task whose project exists is returned |
| Tasks.OrphanTaskNotFound | src/TaskService.php:18-34 | the JOIN drops a task whose project no longer exists, so it answers 404 |
| Tasks.StatusCheckIsStrict | src/TaskService.php:89-91 | an absent or null status passes, one of the four strings passes, and a number or a boolean is rejected (strict `in_array`) |
| Tasks.AcceptedStatusIsValid | src/TaskService.php:89-91 | a set status that passes the check is one of pending, in_progress, completed, blocked |
| Tasks.ApplyUpdate | src/TaskService.php:102-108 | `title` and `status` change only when set (`??`); `description` and `deadline` change whenever the key is present, null included; id, project and created_at never change |
| Tasks.ApplyUpdateIdempotent | src/TaskService.php:102-108 | applying the same update twice equals applying it once |
| Tasks.NullKeepsTitleClearsDescription | src/TaskService.php:103-106 | each key on its own: a null `title` or `status` keeps its value (`??`); a null `description` or `deadline` clears it (`array_key_exists`) |
| Tasks.TitleOnlyUpdate | src/TaskService.php:103-106 | a body holding only a title changes only the title |
| Tasks.DescriptionOnlyCleared | src/TaskService.php:103-106 | a body holding only a null description clears only the description |
| Tasks.EmptyUpdateKeepsTask | src/TaskService.php:102-108 | an update naming none of the four keys leaves the task as it was |
| Tasks.UpdateKeepsStatusValid | src/TaskService.php:89-105 | an accepted update keeps a valid status valid |
| Tasks.FindAfterUpdate | src/TaskService.php:93-110 | after the UPDATE, the task read back is the old row with the four new columns |
| Tasks.AddedTagListedLast | src/TaskService.php:125-131 | a new tag of the task is listed after the tags it already had |
| Tasks.DeleteTagOfOtherTaskChangesNothing | src/TaskService.php:137-138 | a tag id that does not belong to the task leaves `task_tags` unchanged |
| Tasks.DeleteLinkOfOtherTaskChangesNothing | src/TaskService.php:160-161 | a link id that does not belong to the task leaves `task_links` unchanged |
| Tasks.DeleteImageOfOtherTaskChangesNothing | src/TaskService.php:180-181 | an image id that does not belong to the task leaves `task_images` unchanged |
| Tasks.DeletedTagNotListed | src/TaskService.php:137-139 | after the DELETE, the task's view no longer lists that tag |
| Tasks.CreateGate | src/TaskService.php:41-46 | required fields are checked first (422), then project ownership (404), then the status (422); the gate passes exactly when all three pass |
| Tasks.NewTask | src/TaskService.php:56-63 | the new row gets the next id, the `(int)` project id and the clock; status defaults to "pending", description and deadline to null |
| Tasks.CreatedStatusIsValid | src/TaskService.php:44-60 | a task that passes the gate is created with a valid status |
| Tasks.LinkItems | src/TaskService.php:49 | only array-valued link entries are kept (`continue` skips the rest) |
| Tasks.Accepted | src/TaskService.php:67-80 | the loop inserts the entries before the first one `requireFields` rejects, and that one is rejected |
| Tasks.TagItemGate | src/TaskService.php:122-123 | for an owned task, a tag entry passes exactly when it is set and not `''`; otherwise 422 naming "tag" |
| Tasks.LinkItemGate | src/TaskService.php:144-145 | for an owned task, a link entry passes exactly when its `url` is set and not `''`; otherwise 422 naming "url" |
| Tasks.AddTagItem | src/TaskService.php:69 | inserts the tag row exactly when the entry is accepted; otherwise nothing changes |
| Tasks.AddLinkItem | src/TaskService.php:78 | inserts the link row exactly when the entry is accepted; otherwise nothing changes |
| Tasks.AddTags | src/TaskService.php:67-71 | one tag row per accepted entry, in order, with consecutive ids; the first rejected entry fails with 422 |
| Tasks.AddLinks | src/TaskService.php:73-80 | one link row per accepted entry, in order, with consecutive ids; the first rejected entry fails with 422 |
| Tasks.InsertNewTask | src/TaskService.php:41-65 | a failing gate leaves `tasks` unchanged; otherwise exactly the new row is appended, and the owner can find it |
| Tasks.AddChildren | src/TaskService.php:67-82 | tags are inserted before links; a rejected tag stops before any link is inserted; when all pass, the view of the new task is returned |
| Tasks.Create | src/TaskService.php:39-83 | a failing gate changes no table; otherwise the task row is inserted first, and a rejected tag or link then answers 422 with the task and the earlier child rows left in place |
| Tasks.Update | src/TaskService.php:85-111 | an invisible task answers 404 and an invalid status 422, both changing nothing; otherwise the row holds the updated columns and their view is returned |
| Tasks.Delete | src/TaskService.php:113-118 | an invisible task answers 404 and changes nothing; otherwise the rows with that id are removed |
| Tasks.DeletedTaskNotFound | src/TaskService.php:113-118 | after the delete, the task answers 404 |
| Tasks.AddTag | src/TaskService.php:120-132 | a missing tag (422) or an invisible task (404) changes nothing; otherwise one tag row is appended, and the view is returned when asked for |
| Tasks.DeleteTag | src/TaskService.php:134-140 | an invisible task answers 404 and changes nothing; otherwise only rows matching both tag id and task id go |
| Tasks.AddLink | src/TaskService.php:142-155 | a missing url (422) or an invisible task (404) changes nothing; otherwise one link row is appended, with a null title by default |
| Tasks.DeleteLink | src/TaskService.php:157-163 | an invisible task answers 404 and changes nothing; otherwise only rows matching both link id and task id go |
| Tasks.AddImage | src/TaskService.php:165-175 | an invisible task answers 404 and changes nothing; otherwise one image row is appended |
| Tasks.DeleteImage | src/TaskService.php:177-183 | an invisible task answers 404 and changes nothing; otherwise only rows matching both image id and task id go |
| Uploads.AfterLast | src/UploadService.php:25 | the suffix after the last occurrence of a character, holding none of it |
| Uploads.TrimSlashes | src/UploadService.php:25 | `basename` first drops trailing slashes |
| Uploads.Basename | src/UploadService.php:25 | the base name holds no slash |
| Uploads.Extension | src/UploadService.php:25 | the extension holds no dot and no slash |
| Uploads.AfterLastSuffix | src/UploadService.php:25 | what follows the last occurrence of a character is kept whole |
| Uploads.ExtensionOfDottedName | src/UploadService.php:25 | the extension of `<base>.<ext>` is `<ext>`, whatever dots the base holds |
| Uploads.NoDotNoExtension | src/UploadService.php:25 | a base name without a dot has the empty extension |
| Uploads.Save | src/UploadService.php:11-52 | a failure answers with status 400, 422 or 500 |
| Uploads.Gates | src/UploadService.php:13-43 | the chain has six checks |
| Uploads.SaveFollowsGates | src/UploadService.php:13-43 | `save` fails with the response of the first failing check, in the order config, upload error, extension, size, directory, move, and succeeds exactly when all pass |
| Uploads.SavedPathShape | src/UploadService.php:38-51 | the returned path is `/uploads/<type>/<type>_<unique>.<ext>` |
| Uploads.SavedPathIgnoresName | src/UploadService.php:38-51 | two files with the same lowercased extension are stored under the same path |
| Uploads.FalsyPathMisconfigured | src/UploadService.php:13-16 | a missing upload path, or one set to "" or "0", answers 500 "Upload path misconfigured" |
| Uploads.SizeAtLimitAccepted | src/UploadService.php:30-32 | a size equal to the maximum is accepted |
| Uploads.DefaultLimit | src/UploadService.php:23 | without a configured maximum the limit is 5·1024·1024 bytes |
| Uploads.EmptyAllowListAcceptsAll | src/UploadService.php:22-28 | an empty allow-list accepts every extension |
| Uploads.ExtensionCheckIgnoresCase | src/UploadService.php:25-26 | names whose extensions differ only in case pass or fail the allow-list together |
| Router.GetJsonBody | index.php:170-184 | the decoded body is used exactly when the content type is absent or mentions application/json, the input is non-empty and it decodes to an array; otherwise the body is empty |
| Router.JsonContentTypeAccepted | index.php:172-183 | a content type that contains `application/json` anywhere, or none at all, lets a truthy body that decodes to an array through |
| Router.EmptyBodyMissesAll | index.php:170-184 | against the empty body every required field is reported missing |
| Router.RejectedBodyFailsValidation | index.php:170-184 | a rejected body fails any non-empty `requireFields` with 422, listing every field |
| Router.IdRoute | index.php:93 | a match means the path spells prefix, digits, suffix, and the capture is the value of those digits |
| Router.IdRouteOf | index.php:105-106 | every path of the form prefix, digits, suffix matches, and the digits are captured |
| Router.IdRouteOfDigits | index.php:119-120 | every path of the form prefix and digits matches, and the digits are captured |
| Router.IdPairRoute | index.php:136-138 | a match means the path spells prefix, digits, middle, digits, and both captures are those digits' values |
| Router.IdPairRouteOf | index.php:136-138 | every path of the form prefix, digits, middle, digits matches, with both numbers captured |
| Router.Check | index.php:33-166 | each check is one `if` of the cascade; the preflight is check 0 and only OPTIONS; register and login are checks 1 and 2 and only their exact keys |
| Router.Dispatch | index.php:33-168 | the first check that matches decides; after the first three checks no later one yields the preflight or a public route |
| Router.Classify | index.php:33-168 | a request is the preflight exactly when its method is OPTIONS |
| Router.Skip | index.php:33-168 | a check that does not match hands the request to the next one |
| Router.RouteKeySplit | index.php:73-74 | for a method without spaces, two route keys are equal exactly when the methods and the paths are |
| Router.PublicRoutesExact | index.php:68-76 | a request reaches register, or login, exactly when it is POST on that path |
| Router.ProjectIdRoutes | index.php:93-103 | `/api/projects/<digits>` reaches get, update or delete for GET, PUT or DELETE with the number; any other method falls through to 404 |
| Router.ProjectSegmentNotNumber | index.php:93 | a project segment with a non-digit is not routed |
| Router.TaskIdRoutes | index.php:119-129 | `/api/tasks/<digits>` reaches get, update or delete for GET, PUT or DELETE with the number; any other method falls through to 404 |
| Router.CheckKeys | index.php:80-117 | the checks for `me`, the project list, project create and task create match only their exact method and path |
| Router.DispatchKeys | index.php:80-117 | the cascade yields `me`, the project list, project create or task create only for that route's exact method and path |
| Router.KeyRoutesExact | index.php:80-117 | a request reaches `me` or the project list exactly when it is GET on that path, and project create or task create exactly when it is POST on `/api/projects` or `/api/tasks` |
| Router.ProjectImageRoute | index.php:105-112 | `/api/projects/<digits>/upload-image` reaches the project upload with the number when the method is POST; any other method falls through to 404 |
| Router.TaskItemPostRoutes | index.php:131-160 | `/api/tasks/<digits>/add-tag`, `/add-link` and `/upload-image` reach add-tag, add-link and the task upload with the number when the method is POST; any other method falls through to 404 |
| Router.TaskItemDeleteRoutes | index.php:136-166 | `/api/tasks/<a>/tag/<b>`, `/link/<b>` and `/image/<b>` reach the matching delete with task id `a` and item id `b`, in that order, when the method is DELETE; any other method falls through to 404 |
| Router.TrailingSlashNotRouted | index.php:80-168 | no path ending in a slash reaches a route |
| Router.Public | index.php:68-76 | register answers 201 with the user view and appends exactly the created row to the users table, or answers the failure and leaves the users and the id counter alone; login answers 200 and rotates only that user's token, or answers the failure and leaves the users table alone |
| Router.ServeReads | index.php:84-122 | the project list answers the caller's projects; a project or task `get` answers the service's view or its 404; none of them changes anything |
| Router.ServeProjects | index.php:89-112 | create answers its 422 and writes nothing, or appends the new project row (owned by the caller, next id) and answers 201 with its view; update and delete write exactly the service's row change for the caller's own project, or answer 404 and write nothing; delete answers `{"success": true}`; an upload without a file answers 422 before `save` runs, and a saved image sets only that project's image column |
| Router.ServeNewTask | index.php:115-117 | a failed gate writes nothing; otherwise the new task row is appended, then its tags and, if every tag was stored, its links, as the service inserts them; a complete task answers 201 |
| Router.ServeTasks | index.php:119-129 | update answers 404 or 422 and writes nothing, or writes exactly the service's row change and answers the task view; delete removes exactly that task row when it is the caller's and answers `{"success": true}`, otherwise 404 and nothing written |
| Router.ServeTags | index.php:131-140 | add-tag appends exactly one tag row with the next id, the task id and the tag text, or answers the gate failure and writes nothing; delete-tag removes only that tag of that task, or answers 404 and writes nothing |
| Router.ServeLinks | index.php:142-151 | add-link appends exactly one link row, or answers the gate failure and writes nothing; delete-link removes only that link of that task, or answers 404 and writes nothing |
| Router.ServeImages | index.php:153-166 | an upload without a file, or one `save` refuses, writes nothing; a saved image for the caller's task appends one image row with the stored path; delete-image removes only that image of that task, or answers 404 and writes nothing |
| Router.Handle | index.php:28-168 | OPTIONS answers 204 and changes nothing; every non-public route, unknown ones included, answers 401 without a valid token and changes nothing; `me` answers the user's view; an unknown route answers 404 only once authenticated; read-only routes change nothing |
| Router.Serve | index.php:84-168 | an unknown route answers 404 "Not found"; read-only routes change nothing |

## Left out

- Static file serving (`index.php:13-26`), the CORS and content-type headers (`index.php:28-31`), the autoloader (`index.php:38-49`) and config loading (`index.php:51-61`). These are file-system and header effects. The configuration is a parameter (`Settings.Config`).
- The database connection wrapper `src/Database.php`. The tables are in memory. No foreign keys or cascades are assumed: deleting a project leaves its tasks, and deleting a task leaves its tags, links and images.
- MySQL collation. Emails and tokens are compared exactly, whereas a case-insensitive collation would also match them case-insensitively.
- Timestamps are supplied values, compared as integers. The order among rows with equal `created_at` is unspecified in SQL. The model sorts stably, but the contracts promise only sortedness and permutation.
- Row order without `ORDER BY`. MySQL does not promise an order for the `SELECT`s of `fetchTags`, `fetchLinks` and `fetchImages` (src/TaskService.php:218, 225, 238), or for `LIMIT 1` lookups. The model lists rows in insertion order, so Tasks.FetchTags, Tasks.FetchLinks, Tasks.FetchImages, Tasks.AddedTagListedLast and Seqs.FirstIsEarliest rest on that choice.
- `parse_url` and `strtok` on the request URI. The path is given.
- `json_decode`. The decoded value is a parameter, floating-point numbers are not modelled, and duplicate object keys are looked up by their last occurrence but still iterated as listed.
- PHP integer width. The `(int)` cast of a very long digit string saturates in PHP but is unbounded here.
- Values.StringToInt: a string in floating-point notation (`"1.5e1"`) is read exactly and truncated. PHP goes through a double, so a mantissa past 2^53, a huge exponent (`INF`) or a rounding at the last bit can give a different integer.
- PCRE `$` also matches before a final newline. The model follows only end-of-string, since a path taken from `parse_url` carries no raw newline.
- `password_hash` and `password_verify`, `random_bytes`, `uniqid`, `is_dir`/`mkdir` and `move_uploaded_file` are answers of the outside world (`Settings.Oracles`). The uniqueness of generated tokens and file names rests on randomness and is not proved.
- Store.Database.Valid: the AUTO_INCREMENT invariant is kept for `users`, `projects` and `tasks` only. The child tables are only read through their task.
- `$_FILES['image']` is either absent or one well-formed uploaded file. Other shapes of that entry are not modelled.
- Router.Handle: states the preflight, authentication, `me`, 404 and read-only outcomes. The responses and table writes of the other routes are stated on Router.ServeReads, Router.ServeProjects, Router.ServeNewTask, Router.ServeTasks, Router.ServeTags, Router.ServeLinks and Router.ServeImages and are not repeated on Handle.
- Router.Serve: states only the 404 fallback and that read-only routes change nothing. Each route's response and writes are stated on the methods it calls.
- Router.ProjectIdRoutes, Router.TaskIdRoutes, Router.PublicRoutesExact, Router.KeyRoutesExact, Router.ProjectImageRoute, Router.TaskItemPostRoutes, Router.TaskItemDeleteRoutes: hold for methods without spaces. A method containing a space could build the same route key from a different method and path.
- Uploads.Save: its own contract states only the failure statuses. The order of the checks and the returned path are stated by Uploads.SaveFollowsGates and Uploads.SavedPathShape.
- Cross-request concurrency: each request runs alone.
