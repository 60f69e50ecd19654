# Access-control main node: a Dafny model of its decision logic

The main node of the access-control system is an aiohttp server. Room
terminals and administrators call it over HTTP. Every handler except
`room_login` first runs a list of *requirements* through the `require`
decorator:

- a Room-Token or Admin-Token header, which the requirement checks with the
  authorization service's `authorize_room` or `authorize_admin` (these
  answer with `RoomAuthorization` and `AdminAuthorization` records);
- a multipart image field;
- a JSON payload of a pydantic model.

The first requirement that fails ends the request with a 400 or 401 plain-text
response; an oversized or undecodable body makes aiohttp raise while a
requirement reads it, which the model leaves out (see "## Left out").
Otherwise each named requirement's value becomes a keyword argument of the
handler. `room_login` has no requirements: it reads its Login-Token header
itself and answers a missing one with its own 400. The handler then calls a
service:

- room log-in;
- access checks by face image or by face descriptor, visit recording and
  descriptor calculation;
- room tasks.

Every service operation a handler calls answers with a `Result`: `Ok(result)`, `Error(cause)`, or a
bare `Result(success)`. That answer goes back as JSON with the `null` fields
dropped (`exclude_none`).

The model follows that structure, one module per component:

| file | models |
|---|---|
| `outcomes.dfy` | `Result`/`Ok`/`Error` and their wire form |
| `json.dfy` | JSON values and `exclude_none` |
| `http.dfy` | requests and responses as the controllers see them |
| `authorization.dfy` | the token tables, `authorize_room`, `authorize_admin`, and `log_in_room` as a method of a class whose token table it updates |
| `access_control.dfy` | the user, descriptor, permission and visit tables; the access checks as functions; `record_visit` and `_load_descriptors` as methods of the service class |
| `tasks.dfy` | the task table and its queries, `get_undone_tasks`, and `report_task_performed` as a method |
| `requirements.dfy` | `RoomAuth`, `AdminAuth`, `ImageField`, `PydanticPayload` |
| `pipeline.dfy` | the `require` loop as a method proved against a recursive specification, and `pydantic_response` |
| `handlers.dfy` | the seven handlers |
| `decimal.dfy`, `wrappers.dfy` | decimal rendering of ids for error messages, and `Option` |

Design choices:

- **Tables.** The PostgreSQL tables are maps keyed by primary key, or a sequence of rows where order or duplicates matter.
- **Foreign code.** The face recogniser, the image normaliser, PIL's `Image.open` and pydantic's `parse_raw` are function values passed in. `None` stands for "raised" or "returned None".
- **Time.** The clock is an integer `now`.
- **Generated values.** Values the database generates (a temp token string, a visit id) are only required to be fresh among the rows present.

A temp token is still valid at the very instant `valid_before`:
`authorize_room` rejects it only when `valid_before < now`
(main_node/modules/authorization/authorization_service.py:36).

## Model

| member | source | states |
|---|---|---|
| Outcomes.Outcome.Success | main_node/utils.py:62-71 | `Ok` always reports success, `Error` never does, a bare `Result` reports its own flag |
| Outcomes.Outcome.ToJson | main_node/utils.py:62-71 | the model's JSON is an object whose first field is the inherited `success` with the outcome's flag, followed by exactly the `result` of an `Ok` or the `cause` of an `Error`, and nothing for a bare `Result` |
| Outcomes.SuccessFlagLeadsOnTheWire | main_node/utils.py:62-71 | after `exclude_none` the serialised outcome is an object whose first field is `success` with the outcome's flag; an `Error` is exactly `success=false` plus its cause, a bare `Result` exactly its flag, an `Ok` with a non-null result exactly `success=true` plus that result with its `null` fields dropped |
| Json.NonNullFields | main_node/controllers/utils.py:45-46 | a field is kept exactly when its value is not `null` |
| Json.NonNullFieldsOfNullFree | main_node/controllers/utils.py:45-46 | dropping `null` fields changes nothing when there are none |
| Json.ExcludeNoneLeavesNoNullField | main_node/controllers/utils.py:45-46 | after `exclude_none` no object at any depth has a `null` field |
| Json.ExcludeNoneIdempotent | main_node/controllers/utils.py:45-46 | applying `exclude_none` twice is the same as once |
| Decimal.IntToString | main_node/modules/access_control/access_control_service.py:37 | Python's `str()` of the id in the cause: non-empty, a leading `-` exactly for a negative id, digits otherwise |
| Http.Header | main_node/controllers/requirements.py:17 | a header lookup succeeds exactly when the header is present, with its value |
| Pipeline.PydanticResponse | main_node/controllers/utils.py:45-46 | a 200 JSON response whose body is the model with `null` fields dropped, so it has no `null` field at any depth |
| Pipeline.FirstTerminal | main_node/controllers/utils.py:23-27 | the index of the first requirement that returns a response: all before it yield values, it returns a response, or it is the length if none does |
| Pipeline.Require | main_node/controllers/utils.py:19-32 | the loop's outcome equals the recursive specification `Gather`, and it prepares exactly the requirements up to and including the first terminal one |
| Pipeline.AbortsWithFirstTerminal | main_node/controllers/utils.py:23-27 | the request ends early exactly when some requirement returns a response, and it ends with the response of the first such requirement |
| Pipeline.LaterRequirementsIgnored | main_node/controllers/utils.py:23-27 | once a requirement returns a response, requirements after it have no effect (short-circuit) |
| Pipeline.ArgumentsByName | main_node/controllers/utils.py:22-32 | when the handler is reached, every requirement yielded; a keyword argument exists exactly when some requirement carries its name (unnamed ones add nothing) and holds the value of the last requirement with that name |
| Requirements.PrepareRoomAuth | main_node/controllers/requirements.py:13-28 | missing header is 400; unknown token is 401 "Unknown Room-Token value."; expired token is 401 "Token is already invalid."; otherwise exactly the token's room id, and it yields exactly when the token is known and `now <= valid_before` |
| Requirements.PrepareAdminAuth | main_node/controllers/requirements.py:31-43 | missing header is 400; unknown token is 401 "Unknown token."; it yields exactly for a known admin token, and the value is always `None` |
| Requirements.PrepareImageField | main_node/controllers/requirements.py:46-65 | in order: a non-multipart content type, a missing field, a text field and an undecodable file each give their own 400; otherwise the decoded image, and it yields exactly when all four checks pass |
| Requirements.PreparePayload | main_node/controllers/requirements.py:68-83 | a non-JSON content type is 400; a body the model rejects is the single 400 "Json data has wrong schema or types."; otherwise the parsed model |
| Requirements.Prepare | main_node/controllers/utils.py:24 | the `prepare_requirement` dispatch: a room requirement yields a room id, an admin requirement an admin id, an image requirement an image, a payload requirement a payload of its own model; every response it returns is a 400 or 401 |
| Requirements.TerminalIsClientError | main_node/controllers/requirements.py:13-83 | every response a requirement returns is a plain-text 400 or 401, and only the token requirements return 401 |
| Requirements.AuthIgnoresBody | main_node/controllers/requirements.py:13-43 | the token requirements depend only on headers, token tables and clock, never on the body, content type or form |
| Authorization.AuthorizeRoom | main_node/modules/authorization/authorization_service.py:23-39 | known exactly when the token is stored; valid exactly when `now <= valid_before`; a room id exactly for a valid token, and it is the token's room |
| Authorization.AuthorizeAdmin | main_node/modules/authorization/authorization_service.py:41-52 | known exactly when the admin token is stored; the admin id is never filled in |
| Authorization.LookupsMatchTokenColumn | main_node/modules/authorization/authorization_repository.py:18-37 | with every row filed under its own token, the service's lookups find a token exactly when some row's `token` column equals it, as `where "token" = $1` does |
| Authorization.DeleteRoomTempTokens | main_node/modules/authorization/authorization_repository.py:14-16 | exactly the rows of other rooms remain, unchanged |
| Authorization.ReissueLeavesOneToken | main_node/modules/authorization/authorization_service.py:65-71 | after delete-then-insert the room has exactly the new token, and every other room keeps exactly its rows |
| Authorization.IssuedTokenAuthorizes | main_node/modules/authorization/authorization_service.py:54-74 | a freshly issued token authorizes its room up to and including `valid_before` and is invalid after it; the room's earlier tokens become unknown |
| Authorization.AuthorizationService.LogInRoom | main_node/modules/authorization/authorization_service.py:54-74 | unknown login token: `Error("Unknown room login token.")` and no change; known: `Ok` with a token fresh among the remaining rows, `valid_before = now + lifetime`, and the table becomes the room's tokens replaced by that one; the returned token and expiry are those of the stored row, and every row stays filed under its own token |
| AccessControl.UserByDescriptorId | main_node/modules/access_control/access_control_repository.py:10-16 | a user exactly when the descriptor exists and its `user_id` names a stored user, and it is that user |
| AccessControl.PermissionExists | main_node/modules/access_control/access_control_repository.py:25-27 | a permission exists exactly when some permission row has that user and that room |
| AccessControl.UnboundCause | main_node/modules/access_control/access_control_service.py:37 | the cause is the subject's fixed text, then the descriptor id as `str()` prints it (or `None`), then `)` |
| AccessControl.DecideAccess | main_node/modules/access_control/access_control_service.py:32-41 | unknown face: `is_known=false`; recognised but ownerless descriptor: `Error` naming it; otherwise the owner, with `have_access` equal to the permission for that room |
| AccessControl.CheckAccessByFace | main_node/modules/access_control/access_control_service.py:26-41 | a non-normalised image is `Error("Provided image is not normalized.")` before recognition; otherwise the shared decision with subject "Calculated" |
| AccessControl.CheckAccessByDescriptor | main_node/modules/access_control/access_control_service.py:43-58 | an invalid descriptor is `Error("Provided descriptor is invalid.")`; otherwise the shared decision with subject "Provided" |
| AccessControl.CalculateDescriptor | main_node/modules/access_control/access_control_service.py:69-83 | invalid image and no face give their own `Error`; `Ok` exactly when the image is valid and normalises, with the descriptor of the normalised image |
| AccessControl.UnboundCauseIdentifiesDescriptor | main_node/modules/access_control/access_control_service.py:37 | the "not bound to user" cause determines the descriptor id: different ids (or `None`) give different causes |
| AccessControl.FaceAndDescriptorPathsAgree | main_node/modules/access_control/access_control_service.py:26-58 | when the recogniser gives the same answer for an image and a descriptor, both check paths give the same `Ok`, or both an `Error` |
| AccessControl.AccessCheckNamesOwner | main_node/modules/access_control/access_control_service.py:34-41 | a user in an access check owns the recognised descriptor, and `have_access` is the permission that `record_visit` consults |
| AccessControl.AccessControlService.RecordVisit | main_node/modules/access_control/access_control_service.py:60-67 | never an `Error`; `allowed` is the permission; not allowed: no id and nothing written; allowed: exactly one report with a fresh id, the room, user and instant is appended |
| AccessControl.AccessControlService.LoadDescriptors | main_node/modules/access_control/access_control_service.py:85-92 | the recogniser's index holds exactly the `(id, features)` of every stored descriptor |
| Tasks.RoomTasks | main_node/modules/tasks/tasks_repository.py:9-12 | a row is listed exactly when it belongs to the room and has the status, and as many times as it is stored |
| Tasks.GetTask | main_node/modules/tasks/tasks_repository.py:33-38 | `None` exactly when no row has the id; otherwise a stored row with that id |
| Tasks.UpdateTaskStatus | main_node/modules/tasks/tasks_repository.py:22-25 | rows with the id get the new status, every other row is unchanged, and the length is kept |
| Tasks.UnknownStatusCauseText | main_node/modules/tasks/tasks_service.py:33 | the cause lists the four statuses in declaration order |
| Tasks.ReportRejection | main_node/modules/tasks/tasks_service.py:23-33 | the checks in source order (task exists, belongs to the room, status is known) give their causes; no cause exactly when all pass |
| Tasks.GetUndoneTasks | main_node/modules/tasks/tasks_service.py:18-21 | always `Ok`, listing exactly the room's `UNDONE` tasks, each as many times as it is stored |
| Tasks.ReportedTaskLeavesUndoneList | main_node/modules/tasks/tasks_service.py:18-35 | after the status update to a non-`UNDONE` value, the reported task is no longer undone and every other undone task stays |
| Tasks.TasksService.ReportTaskPerformed | main_node/modules/tasks/tasks_service.py:23-35 | a rejection returns its cause and changes nothing; otherwise a bare `success=true` and only that task's status changes |
| Handlers.CheckAccessByFace | main_node/controllers/handlers.py:19-24 | Room-Token failures answer first, then image failures; it is 200 exactly when both pass, and then the access check for the token's room and the uploaded image |
| Handlers.CheckAccessByDescriptor | main_node/controllers/handlers.py:27-32 | Room-Token failures first, then payload failures; 200 exactly when both pass, with the access check for the token's room and the payload's features |
| Handlers.RecordVisit | main_node/controllers/handlers.py:35-40 | failed requirements change no table; otherwise the visit of the payload's user at the payload's instant is recorded for the token's room exactly when permitted |
| Handlers.GetUndoneTasks | main_node/controllers/handlers.py:43-47 | a Room-Token failure, or 200 with the undone tasks of the token's room |
| Handlers.ReportTaskPerformed | main_node/controllers/handlers.py:50-56 | failed requirements change nothing; otherwise the report is checked against the token's room (never a payload field) and the outcome serialised |
| Handlers.RoomLogin | main_node/controllers/handlers.py:59-65 | a missing Login-Token header is a 400 with no change; otherwise the log-in outcome is serialised as it is |
| Handlers.LoggedInTokenPassesRoomAuth | main_node/controllers/handlers.py:59-65 | the token that `room_login` returns passes `RoomAuth` for its room, over the tables log-in left, exactly up to and including its `valid_before`, and gets "Token is already invalid." after it |
| Handlers.CalculateDescriptor | main_node/controllers/handlers.py:68-73 | Admin-Token failures first, then image failures; 200 exactly when both pass, with the descriptor of the uploaded image |
| Handlers.CalculateDescriptorGetsOnlyImage | main_node/controllers/handlers.py:68-69 | the unnamed `AdminAuth()` adds no argument: the handler receives the image alone |

## Left out

- **Database.** SQL, connections and transactions (`DatabaseManager`, `Repository`) are left out. The tables are values, and each repository query is the function that states its result.
- **Concurrency.** asyncio scheduling and `to_thread` are left out. So is the race between the delete and the insert of `log_in_room`, since each service call is one atomic step.
- **Recognition engine.** The face recogniser, the image normaliser and their numpy arrays are function values with no properties assumed. Descriptor features are reals, not floats.
- **Exceptions after the requirements.** Exceptions from the numpy conversion `np.array(image)` (where PIL decodes the pixels, so a truncated file with a valid header fails only there), from the recognition engine and from the database escape the handler as a 500. The model treats those calls as total, so each handler's "200 exactly when every requirement passes" holds only when none of them raises; `convert_to_NumpyImage` is the identity on the model's `Image`.
- Requirements.PrepareImageField: `await request.post()` can raise instead of returning a form. It raises aiohttp's 413 for a body over the default 1 MiB `client_max_size` (main_node/app.py builds the application without setting it), and an error for a malformed multipart body. The model's request carries an already-parsed form, so these paths, and their non-400/401 answers, are not represented.
- Requirements.PreparePayload: `await r.text()` can raise instead of returning text: 413 for a body over 1 MiB, and a 500 for a body that is not valid in its charset. The model's request carries already-decoded text, so these paths are not represented.
- **Image decoding.** PIL decoding is a function value. Exceptions of `Image.open` other than `UnidentifiedImageError` are not modelled (they escape the handler).
- **Payload parsing.** pydantic parsing is a function value, and the JSON text layout of responses is not modelled (the JSON value is).
- **Time.** Naive and aware datetimes are not distinguished: `log_in_room` stores `datetime.now()`, while `authorize_room` compares with `datetime.now().astimezone()`. Both are the integer `now` here.
- **Token lifetime.** `ROOM_TOKEN_LIFETIME_SEC` comes from configuration and is a constructor parameter.
- **Headers.** aiohttp headers are case-insensitive. The model's headers are an exact-key map.
- **Datetime values.** Datetimes in JSON payloads and responses are integers; ISO formatting is not modelled.
- Authorization.AuthorizationService.LogInRoom: the token string is any string fresh among the rows left after the delete, not the database's generated format.
- AccessControl.AccessControlService.RecordVisit: the visit id is any id not already used, not the database's serial value.
- AccessControl.AccessControlService.LoadDescriptors: `update_descriptors` is modelled as replacing the index wholesale. The recogniser's own merging behaviour is not part of this model.
- **Not part of this model:**
  - `TasksService.add_task`;
  - the `init_service`/`deinit_service` wiring beyond `_load_descriptors`;
  - `app.py` route registration;
  - `DescriptorAdding`, which no modelled handler uses.
