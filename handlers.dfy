/**
  The seven request handlers (main_node/controllers/handlers.py): each runs
  its requirement list through `require`, forwards the prepared values to a
  service, and serialises the service's outcome with `pydantic_response`.
  The PIL-to-numpy conversion is the identity on the model's `Image`.
*/
module Handlers {

  import opened Wrappers
  import opened Json
  import opened Http
  import opened Outcomes
  import opened Authorization
  import opened AccessControl
  import opened Tasks
  import opened Requirements
  import opened Pipeline

  const CheckAccessByFaceRequirements: seq<Requirement> :=
    [RoomAuth(Some("room_id")), ImageField(Some("image"))]
  const CheckAccessByDescriptorRequirements: seq<Requirement> :=
    [RoomAuth(Some("room_id")), PydanticPayload(Some("payload"), FaceDescriptorModel)]
  const RecordVisitRequirements: seq<Requirement> :=
    [RoomAuth(Some("room_id")), PydanticPayload(Some("payload"), VisitInfoModel)]
  const GetUndoneTasksRequirements: seq<Requirement> :=
    [RoomAuth(Some("room_id"))]
  const ReportTaskPerformedRequirements: seq<Requirement> :=
    [RoomAuth(Some("room_id")), PydanticPayload(Some("payload"), TaskPerformingReportModel)]
  const CalculateDescriptorRequirements: seq<Requirement> :=
    [AdminAuth(None), ImageField(Some("image"))]

  /** `require` over two requirements, unfolded. */
  lemma GatherPair(first: Requirement, second: Requirement, request: Request, ctx: Context)
    ensures Gather([first, second], request, ctx, map[]) ==
      match Prepare(first, request, ctx)
      case Terminal(r) => Abort(r)
      case Yield(v) =>
        match Prepare(second, request, ctx)
        case Terminal(r) => Abort(r)
        case Yield(w) => Proceed(Bind(Bind(map[], first.name, v), second.name, w))
  {
    assert [first, second][1..] == [second];
    assert [second][1..] == [];
    match Prepare(first, request, ctx)
    case Terminal(_) =>
    case Yield(v) =>
      var kwargs := Bind(map[], first.name, v);
      assert Gather([first, second], request, ctx, map[]) == Gather([second], request, ctx, kwargs);
      match Prepare(second, request, ctx)
      case Terminal(_) =>
      case Yield(w) =>
        assert Gather([second], request, ctx, kwargs) == Gather([], request, ctx, Bind(kwargs, second.name, w));
  }

  /** `require` over one requirement, unfolded. */
  lemma GatherSingle(only: Requirement, request: Request, ctx: Context)
    ensures Gather([only], request, ctx, map[]) ==
      match Prepare(only, request, ctx)
      case Terminal(r) => Abort(r)
      case Yield(v) => Proceed(Bind(map[], only.name, v))
  {
    assert [only][1..] == [];
  }

  /**
    `calculate_descriptor` declares `AdminAuth()` without a name, so the
    handler is called with the image only.
  */
  lemma CalculateDescriptorGetsOnlyImage(request: Request, ctx: Context)
    requires Gather(CalculateDescriptorRequirements, request, ctx, map[]).Proceed?
    ensures Gather(CalculateDescriptorRequirements, request, ctx, map[]).kwargs.Keys == {"image"}
  {
    var kwargs := Gather(CalculateDescriptorRequirements, request, ctx, map[]).kwargs;
    ArgumentsByName(CalculateDescriptorRequirements, request, ctx, map[]);
    forall n
      ensures n in kwargs <==> n == "image"
    {
      var reqs := CalculateDescriptorRequirements;
      if n == "image" {
        assert reqs[1].name == Some(n);
      }
      if Named(reqs, n) {
        var j :| 0 <= j < |reqs| && reqs[j].name == Some(n);
        assert j == 1;
      }
    }
  }

  /** POST /access/check/face. */
  method CheckAccessByFace(request: Request, ctx: Context, access: AccessControlService)
    returns (response: Response)
    ensures PrepareRoomAuth(request, ctx).Terminal? ==>
      response == PrepareRoomAuth(request, ctx).response
    ensures PrepareRoomAuth(request, ctx).Yield? && PrepareImageField(request, ctx.decoders).Terminal? ==>
      response == PrepareImageField(request, ctx.decoders).response
    ensures response.status == 200 <==>
      PrepareRoomAuth(request, ctx).Yield? && PrepareImageField(request, ctx.decoders).Yield?
    ensures PrepareRoomAuth(request, ctx).Yield? && PrepareImageField(request, ctx.decoders).Yield? ==>
      response == PydanticResponse(AccessControl.CheckAccessByFace(
        access.recognizer, access.index, access.db,
        ctx.auth.tempTokens[request.headers["Room-Token"]].roomId,
        PrepareImageField(request, ctx.decoders).value.image).ToJson(AccessCheckJson))
  {
    var gathered, _ := Require(CheckAccessByFaceRequirements, request, ctx);
    GatherPair(RoomAuth(Some("room_id")), ImageField(Some("image")), request, ctx);
    match gathered
    case Abort(r) =>
      response := r;
      if Prepare(RoomAuth(Some("room_id")), request, ctx).Terminal? {
        TerminalIsClientError(RoomAuth(Some("room_id")), request, ctx);
      }
      if Prepare(ImageField(Some("image")), request, ctx).Terminal? {
        TerminalIsClientError(ImageField(Some("image")), request, ctx);
      }
    case Proceed(kwargs) =>
      var roomId := kwargs["room_id"].roomId;
      var image := kwargs["image"].image;
      var accessCheck := AccessControl.CheckAccessByFace(access.recognizer, access.index, access.db, roomId, image);
      response := PydanticResponse(accessCheck.ToJson(AccessCheckJson));
  }

  /** POST /access/check/descriptor. */
  method CheckAccessByDescriptor(request: Request, ctx: Context, access: AccessControlService)
    returns (response: Response)
    ensures PrepareRoomAuth(request, ctx).Terminal? ==>
      response == PrepareRoomAuth(request, ctx).response
    ensures (PrepareRoomAuth(request, ctx).Yield? &&
      PreparePayload(request, FaceDescriptorModel, ctx.decoders).Terminal?) ==>
      response == PreparePayload(request, FaceDescriptorModel, ctx.decoders).response
    ensures response.status == 200 <==>
      PrepareRoomAuth(request, ctx).Yield? && PreparePayload(request, FaceDescriptorModel, ctx.decoders).Yield?
    ensures (PrepareRoomAuth(request, ctx).Yield? &&
      PreparePayload(request, FaceDescriptorModel, ctx.decoders).Yield?) ==>
      response == PydanticResponse(AccessControl.CheckAccessByDescriptor(
        access.recognizer, access.index, access.db,
        ctx.auth.tempTokens[request.headers["Room-Token"]].roomId,
        ctx.decoders.parseFaceDescriptor(request.text).value.features).ToJson(AccessCheckJson))
  {
    var gathered, _ := Require(CheckAccessByDescriptorRequirements, request, ctx);
    GatherPair(RoomAuth(Some("room_id")), PydanticPayload(Some("payload"), FaceDescriptorModel), request, ctx);
    match gathered
    case Abort(r) =>
      response := r;
      if Prepare(RoomAuth(Some("room_id")), request, ctx).Terminal? {
        TerminalIsClientError(RoomAuth(Some("room_id")), request, ctx);
      }
      if Prepare(PydanticPayload(Some("payload"), FaceDescriptorModel), request, ctx).Terminal? {
        TerminalIsClientError(PydanticPayload(Some("payload"), FaceDescriptorModel), request, ctx);
      }
    case Proceed(kwargs) =>
      var roomId := kwargs["room_id"].roomId;
      var descriptor := kwargs["payload"].payload.descriptor.features;
      var accessCheck :=
        AccessControl.CheckAccessByDescriptor(access.recognizer, access.index, access.db, roomId, descriptor);
      response := PydanticResponse(accessCheck.ToJson(AccessCheckJson));
  }

  /**
    POST /access/visit/new: the payload's user id and instant reach
    `record_visit` unchanged, with the room of the Room-Token.
  */
  method RecordVisit(request: Request, ctx: Context, access: AccessControlService)
    returns (response: Response, ghost outcome: Outcome<VisitRecording>)
    requires access.db.Valid()
    modifies access
    ensures access.db.Valid() && access.index == old(access.index)
    ensures PrepareRoomAuth(request, ctx).Terminal? ==>
      response == PrepareRoomAuth(request, ctx).response && access.db == old(access.db)
    ensures (PrepareRoomAuth(request, ctx).Yield? &&
      PreparePayload(request, VisitInfoModel, ctx.decoders).Terminal?) ==>
      response == PreparePayload(request, VisitInfoModel, ctx.decoders).response && access.db == old(access.db)
    ensures response.status == 200 <==>
      PrepareRoomAuth(request, ctx).Yield? && PreparePayload(request, VisitInfoModel, ctx.decoders).Yield?
    ensures (PrepareRoomAuth(request, ctx).Yield? &&
      PreparePayload(request, VisitInfoModel, ctx.decoders).Yield?) ==>
      var roomId := ctx.auth.tempTokens[request.headers["Room-Token"]].roomId;
      var visit := ctx.decoders.parseVisitInfo(request.text).value;
      && response == PydanticResponse(outcome.ToJson(VisitRecordingJson))
      && outcome.Ok?
      && outcome.result.allowed == PermissionExists(old(access.db), visit.userId, roomId)
      && (!outcome.result.allowed ==> access.db == old(access.db))
      && (outcome.result.allowed ==>
            outcome.result.visitId.Some? &&
            access.db == old(access.db).(visits := old(access.db.visits) +
              [RoomVisitReport(outcome.result.visitId.value, roomId, visit.userId, visit.datetime)]))
  {
    var gathered, _ := Require(RecordVisitRequirements, request, ctx);
    GatherPair(RoomAuth(Some("room_id")), PydanticPayload(Some("payload"), VisitInfoModel), request, ctx);
    match gathered
    case Abort(r) =>
      response := r;
      outcome := Error("");
      if Prepare(RoomAuth(Some("room_id")), request, ctx).Terminal? {
        TerminalIsClientError(RoomAuth(Some("room_id")), request, ctx);
      }
      if Prepare(PydanticPayload(Some("payload"), VisitInfoModel), request, ctx).Terminal? {
        TerminalIsClientError(PydanticPayload(Some("payload"), VisitInfoModel), request, ctx);
      }
    case Proceed(kwargs) =>
      var roomId := kwargs["room_id"].roomId;
      var visit := kwargs["payload"].payload.visit;
      var recording := access.RecordVisit(roomId, visit.userId, visit.datetime);
      outcome := recording;
      response := PydanticResponse(recording.ToJson(VisitRecordingJson));
  }

  /** GET /tasks/undone. */
  method GetUndoneTasks(request: Request, ctx: Context, tasks: TasksService) returns (response: Response)
    ensures PrepareRoomAuth(request, ctx).Terminal? ==>
      response == PrepareRoomAuth(request, ctx).response
    ensures response.status == 200 <==> PrepareRoomAuth(request, ctx).Yield?
    ensures PrepareRoomAuth(request, ctx).Yield? ==>
      response == PydanticResponse(Tasks.GetUndoneTasks(
        tasks.tasks, ctx.auth.tempTokens[request.headers["Room-Token"]].roomId).ToJson(TaskListJson))
  {
    var gathered, _ := Require(GetUndoneTasksRequirements, request, ctx);
    GatherSingle(RoomAuth(Some("room_id")), request, ctx);
    match gathered
    case Abort(r) =>
      response := r;
      if Prepare(RoomAuth(Some("room_id")), request, ctx).Terminal? {
        TerminalIsClientError(RoomAuth(Some("room_id")), request, ctx);
      }
    case Proceed(kwargs) =>
      var roomId := kwargs["room_id"].roomId;
      response := PydanticResponse(Tasks.GetUndoneTasks(tasks.tasks, roomId).ToJson(TaskListJson));
  }

  /** The JSON of a bare `Result`, which carries no payload. */
  function NoPayloadJson(u: ()): Json
  {
    JNull
  }

  /** POST /tasks/report: the room of the Room-Token, not a payload field, owns the report. */
  method ReportTaskPerformed(request: Request, ctx: Context, tasks: TasksService)
    returns (response: Response, ghost outcome: Outcome<()>)
    modifies tasks
    ensures PrepareRoomAuth(request, ctx).Terminal? ==>
      response == PrepareRoomAuth(request, ctx).response && tasks.tasks == old(tasks.tasks)
    ensures (PrepareRoomAuth(request, ctx).Yield? &&
      PreparePayload(request, TaskPerformingReportModel, ctx.decoders).Terminal?) ==>
      response == PreparePayload(request, TaskPerformingReportModel, ctx.decoders).response &&
      tasks.tasks == old(tasks.tasks)
    ensures response.status == 200 <==>
      PrepareRoomAuth(request, ctx).Yield? &&
      PreparePayload(request, TaskPerformingReportModel, ctx.decoders).Yield?
    ensures (PrepareRoomAuth(request, ctx).Yield? &&
      PreparePayload(request, TaskPerformingReportModel, ctx.decoders).Yield?) ==>
      var roomId := ctx.auth.tempTokens[request.headers["Room-Token"]].roomId;
      var report := ctx.decoders.parseTaskPerformingReport(request.text).value;
      var rejection := ReportRejection(old(tasks.tasks), roomId, report.taskId, report.newStatus);
      && response == PydanticResponse(outcome.ToJson(NoPayloadJson))
      && (rejection.Some? ==> outcome == Error(rejection.value) && tasks.tasks == old(tasks.tasks))
      && (rejection.None? ==>
            outcome == Plain(true) &&
            tasks.tasks == UpdateTaskStatus(old(tasks.tasks), report.taskId, report.newStatus))
  {
    var gathered, _ := Require(ReportTaskPerformedRequirements, request, ctx);
    GatherPair(RoomAuth(Some("room_id")), PydanticPayload(Some("payload"), TaskPerformingReportModel), request, ctx);
    match gathered
    case Abort(r) =>
      response := r;
      outcome := Error("");
      if Prepare(RoomAuth(Some("room_id")), request, ctx).Terminal? {
        TerminalIsClientError(RoomAuth(Some("room_id")), request, ctx);
      }
      if Prepare(PydanticPayload(Some("payload"), TaskPerformingReportModel), request, ctx).Terminal? {
        TerminalIsClientError(PydanticPayload(Some("payload"), TaskPerformingReportModel), request, ctx);
      }
    case Proceed(kwargs) =>
      var roomId := kwargs["room_id"].roomId;
      var report := kwargs["payload"].payload.report;
      var result := tasks.ReportTaskPerformed(roomId, report.taskId, report.newStatus);
      outcome := result;
      response := PydanticResponse(result.ToJson(NoPayloadJson));
  }

  /**
    POST /authorization/room/login, which has no requirements: a missing
    Login-Token header is a 400 that leaves the tables alone; otherwise the
    outcome of `log_in_room` is returned as it is.
  */
  method RoomLogin(request: Request, auth: AuthorizationService, now: int)
    returns (response: Response, ghost outcome: Outcome<TempTokenInfo>)
    requires auth.db.Valid()
    modifies auth
    ensures auth.db.Valid()
    ensures "Login-Token" !in request.headers ==>
      response == BadRequest("Login-Token header is required.") && auth.db == old(auth.db)
    ensures "Login-Token" in request.headers ==>
      var login := request.headers["Login-Token"];
      && response == PydanticResponse(outcome.ToJson(TempTokenInfoJson))
      && (login !in old(auth.db.loginTokens) ==>
            outcome == Error("Unknown room login token.") && auth.db == old(auth.db))
      && (login in old(auth.db.loginTokens) ==>
            var roomId := old(auth.db.loginTokens[login].roomId);
            && outcome.Ok?
            && outcome.result.validBefore == now + auth.tokenLifetime
            && outcome.result.tempToken !in DeleteRoomTempTokens(old(auth.db.tempTokens), roomId)
            && auth.db == old(auth.db).(tempTokens := ReissueRoomToken(
                 old(auth.db.tempTokens), roomId, outcome.result.tempToken, outcome.result.validBefore)))
  {
    var token := Header(request, "Login-Token");
    if token.None? {
      return BadRequest("Login-Token header is required."), Error("");
    }
    var login := auth.LogInRoom(token.value, now);
    outcome := login;
    response := PydanticResponse(login.ToJson(TempTokenInfoJson));
  }

  /**
    Log in, then call a room endpoint: when `RoomAuth` reads the tables that
    `room_login` left (the one authorization service of the application),
    the returned token passes for its room up to and including its
    `valid_before`, and is refused as expired after it.
  */
  lemma LoggedInTokenPassesRoomAuth(
    db: AuthTables, roomId: int, token: string, validBefore: int,
    request: Request, now: int, decoders: Decoders)
    requires token !in DeleteRoomTempTokens(db.tempTokens, roomId)
    requires "Room-Token" in request.headers && request.headers["Room-Token"] == token
    ensures var after := db.(tempTokens := ReissueRoomToken(db.tempTokens, roomId, token, validBefore));
      PrepareRoomAuth(request, Context(after, now, decoders)) ==
        if now <= validBefore then Yield(RoomIdValue(roomId))
        else Terminal(Unauthorized("Token is already invalid."))
  {
    IssuedTokenAuthorizes(db, roomId, token, validBefore, now);
  }

  /** POST /access/descriptor/calculate. */
  method CalculateDescriptor(request: Request, ctx: Context, access: AccessControlService)
    returns (response: Response)
    ensures PrepareAdminAuth(request, ctx).Terminal? ==>
      response == PrepareAdminAuth(request, ctx).response
    ensures PrepareAdminAuth(request, ctx).Yield? && PrepareImageField(request, ctx.decoders).Terminal? ==>
      response == PrepareImageField(request, ctx.decoders).response
    ensures response.status == 200 <==>
      PrepareAdminAuth(request, ctx).Yield? && PrepareImageField(request, ctx.decoders).Yield?
    ensures PrepareAdminAuth(request, ctx).Yield? && PrepareImageField(request, ctx.decoders).Yield? ==>
      response == PydanticResponse(AccessControl.CalculateDescriptor(
        access.recognizer, access.normalizer,
        PrepareImageField(request, ctx.decoders).value.image).ToJson(AnonymousDescriptorJson))
  {
    var gathered, _ := Require(CalculateDescriptorRequirements, request, ctx);
    GatherPair(AdminAuth(None), ImageField(Some("image")), request, ctx);
    match gathered
    case Abort(r) =>
      response := r;
      if Prepare(AdminAuth(None), request, ctx).Terminal? {
        TerminalIsClientError(AdminAuth(None), request, ctx);
      }
      if Prepare(ImageField(Some("image")), request, ctx).Terminal? {
        TerminalIsClientError(ImageField(Some("image")), request, ctx);
      }
    case Proceed(kwargs) =>
      var image := kwargs["image"].image;
      var descriptor := AccessControl.CalculateDescriptor(access.recognizer, access.normalizer, image);
      response := PydanticResponse(descriptor.ToJson(AnonymousDescriptorJson));
  }
}
