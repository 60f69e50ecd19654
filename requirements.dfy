/**
  The concrete request requirements (main_node/controllers/requirements.py)
  and the constructor of their common base, `ControllerRequirement`
  (main_node/controllers/utils.py:37-39). Each requirement either yields a
  value for a handler argument or a terminal error response. PIL's
  `Image.open` and pydantic's `parse_raw` are foreign code, passed in as
  the function values of `Decoders`.
*/
module Requirements {

  import opened Wrappers
  import opened Http
  import opened Authorization
  import opened AccessControl

  /** The request payload models of main_node/controllers/json_models.py. */
  datatype VisitInfo = VisitInfo(datetime: int, userId: int)
  datatype FaceDescriptor = FaceDescriptor(features: Features)
  datatype TaskPerformingReport = TaskPerformingReport(taskId: int, newStatus: string)

  /** Which pydantic model a payload requirement parses into. */
  datatype PayloadModel = VisitInfoModel | FaceDescriptorModel | TaskPerformingReportModel

  datatype Payload =
    | VisitInfoPayload(visit: VisitInfo)
    | FaceDescriptorPayload(descriptor: FaceDescriptor)
    | TaskPerformingReportPayload(report: TaskPerformingReport)

  /** `Image.open` and each model's `parse_raw`; `None` stands for the exception they raise. */
  datatype Decoders = Decoders(
    openImage: Bytes -> Option<Image>,
    parseVisitInfo: string -> Option<VisitInfo>,
    parseFaceDescriptor: string -> Option<FaceDescriptor>,
    parseTaskPerformingReport: string -> Option<TaskPerformingReport>)

  /** A requirement and its keyword-argument name (`None` by default). */
  datatype Requirement =
    | RoomAuth(name: Option<string>)
    | AdminAuth(name: Option<string>)
    | ImageField(name: Option<string>)
    | PydanticPayload(name: Option<string>, model: PayloadModel)

  /** What a requirement can hand to a handler. */
  datatype Value =
    | RoomIdValue(roomId: int)
    | AdminIdValue(adminId: Option<int>)
    | ImageValue(image: Image)
    | PayloadValue(payload: Payload)

  /** The result of `prepare_requirement`: a value, or a `Response` that ends the request. */
  datatype Prepared = Yield(value: Value) | Terminal(response: Response)

  /** What requirements may consult besides the request: the token tables and the clock. */
  datatype Context = Context(auth: AuthTables, now: int, decoders: Decoders)

  /** `RoomAuth`: header, then known token, then unexpired token; yields the token's room. */
  function PrepareRoomAuth(request: Request, ctx: Context): (p: Prepared)
    ensures "Room-Token" !in request.headers ==>
      p == Terminal(BadRequest("Room-Token header is required."))
    ensures "Room-Token" in request.headers && request.headers["Room-Token"] !in ctx.auth.tempTokens ==>
      p == Terminal(Unauthorized("Unknown Room-Token value."))
    ensures ("Room-Token" in request.headers && request.headers["Room-Token"] in ctx.auth.tempTokens &&
             ctx.auth.tempTokens[request.headers["Room-Token"]].validBefore < ctx.now) ==>
      p == Terminal(Unauthorized("Token is already invalid."))
    ensures p.Yield? <==>
      "Room-Token" in request.headers && request.headers["Room-Token"] in ctx.auth.tempTokens &&
      ctx.now <= ctx.auth.tempTokens[request.headers["Room-Token"]].validBefore
    ensures p.Yield? ==>
      p.value == RoomIdValue(ctx.auth.tempTokens[request.headers["Room-Token"]].roomId)
  {
    match Header(request, "Room-Token")
    case None => Terminal(BadRequest("Room-Token header is required."))
    case Some(token) =>
      var auth := AuthorizeRoom(ctx.auth, token, ctx.now);
      if !auth.tokenCheck.known then Terminal(Unauthorized("Unknown Room-Token value."))
      else if auth.tokenCheck.valid != Some(true) then Terminal(Unauthorized("Token is already invalid."))
      else Yield(RoomIdValue(auth.roomId.value))
  }

  /** `AdminAuth`: header, then known token; yields the (never filled-in) admin id. */
  function PrepareAdminAuth(request: Request, ctx: Context): (p: Prepared)
    ensures "Admin-Token" !in request.headers ==>
      p == Terminal(BadRequest("Admin-Token header is required."))
    ensures "Admin-Token" in request.headers && request.headers["Admin-Token"] !in ctx.auth.adminTokens ==>
      p == Terminal(Unauthorized("Unknown token."))
    ensures p.Yield? <==>
      "Admin-Token" in request.headers && request.headers["Admin-Token"] in ctx.auth.adminTokens
    ensures p.Yield? ==> p.value == AdminIdValue(None)
  {
    match Header(request, "Admin-Token")
    case None => Terminal(BadRequest("Admin-Token header is required."))
    case Some(token) =>
      var auth := AuthorizeAdmin(ctx.auth, token);
      if !auth.tokenCheck.known then Terminal(Unauthorized("Unknown token."))
      else Yield(AdminIdValue(auth.adminId))
  }

  /**
    `ImageField`: the content type is checked before the form is looked at;
    then the `image` field must exist, be a file, and decode as an image.
  */
  function PrepareImageField(request: Request, decoders: Decoders): (p: Prepared)
    ensures request.contentType != "multipart/form-data" ==>
      p == Terminal(BadRequest("Send image as multipart/form-data in field named «image»."))
    ensures request.contentType == "multipart/form-data" && "image" !in request.form ==>
      p == Terminal(BadRequest("Required «image» multipart field."))
    ensures (request.contentType == "multipart/form-data" && "image" in request.form &&
             request.form["image"].TextField?) ==>
      p == Terminal(BadRequest("Field «image» doesn't contain an image file."))
    ensures (request.contentType == "multipart/form-data" && "image" in request.form &&
             request.form["image"].FileField? && decoders.openImage(request.form["image"].file).None?) ==>
      p == Terminal(BadRequest("Cannot identify image file. It's invalid."))
    ensures p.Yield? <==>
      request.contentType == "multipart/form-data" && "image" in request.form &&
      request.form["image"].FileField? && decoders.openImage(request.form["image"].file).Some?
    ensures p.Yield? ==> p.value == ImageValue(decoders.openImage(request.form["image"].file).value)
  {
    if request.contentType != "multipart/form-data" then
      Terminal(BadRequest("Send image as multipart/form-data in field named «image»."))
    else if "image" !in request.form then
      Terminal(BadRequest("Required «image» multipart field."))
    else
      match request.form["image"]
      case TextField(_) => Terminal(BadRequest("Field «image» doesn't contain an image file."))
      case FileField(file) =>
        match decoders.openImage(file)
        case None => Terminal(BadRequest("Cannot identify image file. It's invalid."))
        case Some(image) => Yield(ImageValue(image))
  }

  /** The model's `parse_raw` on the body text. */
  function ParsePayload(model: PayloadModel, text: string, decoders: Decoders): Option<Payload>
  {
    match model
    case VisitInfoModel =>
      (match decoders.parseVisitInfo(text)
       case None => None
       case Some(v) => Some(VisitInfoPayload(v)))
    case FaceDescriptorModel =>
      (match decoders.parseFaceDescriptor(text)
       case None => None
       case Some(d) => Some(FaceDescriptorPayload(d)))
    case TaskPerformingReportModel =>
      (match decoders.parseTaskPerformingReport(text)
       case None => None
       case Some(r) => Some(TaskPerformingReportPayload(r)))
  }

  /**
    `PydanticPayload`: the content type must be JSON; a body the model does
    not accept gets one generic message; otherwise the parsed model.
  */
  function PreparePayload(request: Request, model: PayloadModel, decoders: Decoders): (p: Prepared)
    ensures request.contentType != "application/json" ==>
      p == Terminal(BadRequest("Required application/json Content-Type."))
    ensures request.contentType == "application/json" && ParsePayload(model, request.text, decoders).None? ==>
      p == Terminal(BadRequest("Json data has wrong schema or types."))
    ensures p.Yield? <==>
      request.contentType == "application/json" && ParsePayload(model, request.text, decoders).Some?
    ensures p.Yield? ==> p.value == PayloadValue(ParsePayload(model, request.text, decoders).value)
  {
    if request.contentType != "application/json" then
      Terminal(BadRequest("Required application/json Content-Type."))
    else
      match ParsePayload(model, request.text, decoders)
      case None => Terminal(BadRequest("Json data has wrong schema or types."))
      case Some(payload) => Yield(PayloadValue(payload))
  }

  /**
    `req.prepare_requirement(request)`: each kind of requirement hands over
    its own kind of value, and every response it ends a request with is a
    client error.
  */
  function Prepare(req: Requirement, request: Request, ctx: Context): (p: Prepared)
    ensures p.Yield? && req.RoomAuth? ==> p.value.RoomIdValue?
    ensures p.Yield? && req.AdminAuth? ==> p.value.AdminIdValue?
    ensures p.Yield? && req.ImageField? ==> p.value.ImageValue?
    ensures p.Yield? && req.PydanticPayload? ==> p.value.PayloadValue?
    ensures p.Yield? && req == PydanticPayload(req.name, VisitInfoModel) ==>
      p.value.payload.VisitInfoPayload?
    ensures p.Yield? && req == PydanticPayload(req.name, FaceDescriptorModel) ==>
      p.value.payload.FaceDescriptorPayload?
    ensures p.Yield? && req == PydanticPayload(req.name, TaskPerformingReportModel) ==>
      p.value.payload.TaskPerformingReportPayload?
    ensures p.Terminal? ==> p.response.status in {400, 401}
  {
    match req
    case RoomAuth(_) => PrepareRoomAuth(request, ctx)
    case AdminAuth(_) => PrepareAdminAuth(request, ctx)
    case ImageField(_) => PrepareImageField(request, ctx.decoders)
    case PydanticPayload(_, model) => PreparePayload(request, model, ctx.decoders)
  }

  /**
    Every response a requirement ends a request with is a plain-text 400
    (malformed request) or 401 (unknown or expired token).
  */
  lemma TerminalIsClientError(req: Requirement, request: Request, ctx: Context)
    requires Prepare(req, request, ctx).Terminal?
    ensures Prepare(req, request, ctx).response.status in {400, 401}
    ensures Prepare(req, request, ctx).response.body.PlainText?
    ensures Prepare(req, request, ctx).response.status == 401 ==> req.RoomAuth? || req.AdminAuth?
  {
  }

  /**
    The token requirements look only at the headers, the token tables and
    the clock: the body, its content type and its form never change what they
    return.
  */
  lemma AuthIgnoresBody(request: Request, ctx: Context, contentType: string, form: map<string, FormField>, text: string)
    ensures var other := request.(contentType := contentType, form := form, text := text);
      && PrepareRoomAuth(other, ctx) == PrepareRoomAuth(request, ctx)
      && PrepareAdminAuth(other, ctx) == PrepareAdminAuth(request, ctx)
  {
  }
}
