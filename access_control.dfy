/**
  The access-decision workflow (main_node/modules/access_control/).
  The SQL tables of access_control_repository.py are maps keyed by primary
  key plus the permission relation and the visit-report list; the face
  recognition engine and the image normaliser are foreign code, passed in as
  function values whose answers the workflow only branches on.
*/
module AccessControl {

  import opened Wrappers
  import opened Json
  import opened Outcomes
  import Decimal

  /** A face descriptor's feature vector (floats in the engine). */
  type Features = seq<real>

  /** A decoded image, as the numpy array handed to the engine. */
  datatype Image = Image(pixels: seq<int>)

  datatype User = User(id: int, name: string, surname: string, extraInfo: Option<string>)
  datatype UserFaceDescriptor = UserFaceDescriptor(id: int, features: Features, userId: int)
  datatype RoomVisitReport = RoomVisitReport(id: int, roomId: int, userId: int, datetime: int)

  datatype AccessTables = AccessTables(
    users: map<int, User>,
    descriptors: map<int, UserFaceDescriptor>,
    permissions: set<(int, int)>,  // (user id, room id)
    visits: seq<RoomVisitReport>)
  {
    /** Rows are filed under their primary key; visit ids are distinct. */
    ghost predicate Valid()
    {
      && (forall id :: id in users ==> users[id].id == id)
      && (forall id :: id in descriptors ==> descriptors[id].id == id)
      && (forall i, j :: 0 <= i < j < |visits| ==> visits[i].id != visits[j].id)
    }
  }

  /** The engine's in-memory index: descriptor id to features. */
  type DescriptorIndex = map<int, Features>

  /** A nearest-match answer of the engine. */
  datatype Recognition = Recognition(isKnownFace: bool, descriptorId: Option<int>)

  datatype FaceRecognizer = FaceRecognizer(
    checkImageNormalized: Image -> bool,
    recognize: (DescriptorIndex, Image) -> Recognition,
    checkDescriptorValid: Features -> bool,
    recognizeByDescriptor: (DescriptorIndex, Features) -> Recognition,
    calculateDescriptor: Image -> Features)

  datatype FaceImageNormalizer = FaceImageNormalizer(
    checkImageValid: Image -> bool,
    normalize: Image -> Option<Image>)

  datatype AccessCheck = AccessCheck(isKnown: bool, haveAccess: Option<bool>, user: Option<User>)
  datatype VisitRecording = VisitRecording(allowed: bool, visitId: Option<int>)
  datatype AnonymousDescriptor = AnonymousDescriptor(features: Features)

  /** `get_user_by_descriptor_id`: descriptor row, then the user row its `user_id` names. */
  function UserByDescriptorId(db: AccessTables, descriptorId: Option<int>): (u: Option<User>)
    ensures u.Some? <==>
      descriptorId.Some? && descriptorId.value in db.descriptors &&
      db.descriptors[descriptorId.value].userId in db.users
    ensures u.Some? ==> u.value == db.users[db.descriptors[descriptorId.value].userId]
  {
    match descriptorId
    case None => None
    case Some(id) =>
      if id in db.descriptors && db.descriptors[id].userId in db.users
      then Some(db.users[db.descriptors[id].userId])
      else None
  }

  /**
    `check_access_permission_exist`: some permission row has that user and
    that room (the query binds the room first and the user second).
  */
  predicate PermissionExists(db: AccessTables, userId: int, roomId: int)
    ensures PermissionExists(db, userId, roomId) <==>
      exists p :: p in db.permissions && p.0 == userId && p.1 == roomId
  {
    (userId, roomId) in db.permissions
  }

  /** The cause for a recognised descriptor that no user owns; `subject` is "Calculated" or "Provided". */
  function UnboundCause(subject: string, descriptorId: Option<int>): (c: string)
    ensures var prefix := subject + " descriptor is known, but not bound to user. (descriptor_id = ";
      && |c| > |prefix| && c[..|prefix|] == prefix && c[|c| - 1] == ')'
      && (descriptorId.None? ==> c[|prefix|..|c| - 1] == "None")
      && (descriptorId.Some? ==>
            c[|prefix|..|c| - 1] == Decimal.IntToString(descriptorId.value) &&
            (c[|prefix|] == '-' <==> descriptorId.value < 0))
  {
    subject + " descriptor is known, but not bound to user. (descriptor_id = "
      + (match descriptorId case None => "None" case Some(id) => Decimal.IntToString(id))
      + ")"
  }

  /**
    The tail both check paths share: an unrecognised face is `is_known=false`;
    a recognised descriptor without an owner is an `Error` naming it;
    otherwise the owner and whether the owner may enter the room.
  */
  function DecideAccess(db: AccessTables, roomId: int, recognition: Recognition, subject: string)
    : (r: Outcome<AccessCheck>)
    ensures !recognition.isKnownFace ==> r == Ok(AccessCheck(false, None, None))
    ensures recognition.isKnownFace && UserByDescriptorId(db, recognition.descriptorId).None? ==>
      r == Error(UnboundCause(subject, recognition.descriptorId))
    ensures recognition.isKnownFace && UserByDescriptorId(db, recognition.descriptorId).Some? ==>
      var owner := db.users[db.descriptors[recognition.descriptorId.value].userId];
      r == Ok(AccessCheck(true, Some(PermissionExists(db, owner.id, roomId)), Some(owner)))
  {
    if !recognition.isKnownFace then
      Ok(AccessCheck(false, None, None))
    else
      match UserByDescriptorId(db, recognition.descriptorId)
      case None => Error(UnboundCause(subject, recognition.descriptorId))
      case Some(user) => Ok(AccessCheck(true, Some(PermissionExists(db, user.id, roomId)), Some(user)))
  }

  /** `check_access_by_face`: a non-normalised image is refused before the engine runs. */
  function CheckAccessByFace(
    recognizer: FaceRecognizer, index: DescriptorIndex, db: AccessTables, roomId: int, image: Image)
    : (r: Outcome<AccessCheck>)
    ensures !recognizer.checkImageNormalized(image) ==> r == Error("Provided image is not normalized.")
    ensures recognizer.checkImageNormalized(image) ==>
      r == DecideAccess(db, roomId, recognizer.recognize(index, image), "Calculated")
  {
    if !recognizer.checkImageNormalized(image) then
      Error("Provided image is not normalized.")
    else
      DecideAccess(db, roomId, recognizer.recognize(index, image), "Calculated")
  }

  /** `check_access_by_descriptor`: an invalid descriptor is refused before any lookup. */
  function CheckAccessByDescriptor(
    recognizer: FaceRecognizer, index: DescriptorIndex, db: AccessTables, roomId: int, descriptor: Features)
    : (r: Outcome<AccessCheck>)
    ensures !recognizer.checkDescriptorValid(descriptor) ==> r == Error("Provided descriptor is invalid.")
    ensures recognizer.checkDescriptorValid(descriptor) ==>
      r == DecideAccess(db, roomId, recognizer.recognizeByDescriptor(index, descriptor), "Provided")
  {
    if !recognizer.checkDescriptorValid(descriptor) then
      Error("Provided descriptor is invalid.")
    else
      DecideAccess(db, roomId, recognizer.recognizeByDescriptor(index, descriptor), "Provided")
  }

  /**
    `calculate_descriptor`: takes no tables at all; an invalid image and an
    image without a face are `Error`s, otherwise the descriptor of the
    normalised image.
  */
  function CalculateDescriptor(recognizer: FaceRecognizer, normalizer: FaceImageNormalizer, image: Image)
    : (r: Outcome<AnonymousDescriptor>)
    ensures !normalizer.checkImageValid(image) ==> r == Error("Provided image is invalid.")
    ensures normalizer.checkImageValid(image) && normalizer.normalize(image).None? ==>
      r == Error("Can't normalize image. Maybe there is no face.")
    ensures r.Ok? <==> normalizer.checkImageValid(image) && normalizer.normalize(image).Some?
    ensures r.Ok? ==>
      r.result.features == recognizer.calculateDescriptor(normalizer.normalize(image).value)
  {
    if !normalizer.checkImageValid(image) then
      Error("Provided image is invalid.")
    else
      match normalizer.normalize(image)
      case None => Error("Can't normalize image. Maybe there is no face.")
      case Some(normalized) => Ok(AnonymousDescriptor(recognizer.calculateDescriptor(normalized)))
  }

  /** The cause names the descriptor id: two ids give the same cause only if they are equal. */
  lemma UnboundCauseIdentifiesDescriptor(subject: string, a: Option<int>, b: Option<int>)
    requires UnboundCause(subject, a) == UnboundCause(subject, b)
    ensures a == b
  {
    var prefix := subject + " descriptor is known, but not bound to user. (descriptor_id = ";
    var sa := match a case None => "None" case Some(id) => Decimal.IntToString(id);
    var sb := match b case None => "None" case Some(id) => Decimal.IntToString(id);
    var ca, cb := prefix + sa + ")", prefix + sb + ")";
    assert |sa| == |sb|;
    assert sa == ca[|prefix|..|ca| - 1];
    assert sb == cb[|prefix|..|cb| - 1];
    if a.Some? && b.Some? {
      Decimal.IntToStringInjective(a.value, b.value);
    }
  }

  /**
    The two check paths converge: when the engine gives the same answer for
    the image as for the descriptor, both return the same `Ok`, or both an
    `Error`.
  */
  lemma FaceAndDescriptorPathsAgree(
    recognizer: FaceRecognizer, index: DescriptorIndex, db: AccessTables, roomId: int,
    image: Image, descriptor: Features)
    requires recognizer.checkImageNormalized(image) && recognizer.checkDescriptorValid(descriptor)
    requires recognizer.recognize(index, image) == recognizer.recognizeByDescriptor(index, descriptor)
    ensures CheckAccessByFace(recognizer, index, db, roomId, image).Error? <==>
            CheckAccessByDescriptor(recognizer, index, db, roomId, descriptor).Error?
    ensures CheckAccessByFace(recognizer, index, db, roomId, image).Ok? ==>
            CheckAccessByFace(recognizer, index, db, roomId, image) ==
            CheckAccessByDescriptor(recognizer, index, db, roomId, descriptor)
  {
  }

  /**
    With well-keyed tables, a known user in an access check is the owner of
    the recognised descriptor, and `have_access` is exactly what
    `record_visit` will find for that user and room.
  */
  lemma AccessCheckNamesOwner(db: AccessTables, roomId: int, recognition: Recognition, subject: string)
    requires db.Valid()
    requires DecideAccess(db, roomId, recognition, subject).Ok?
    requires DecideAccess(db, roomId, recognition, subject).result.user.Some?
    ensures var c := DecideAccess(db, roomId, recognition, subject).result;
      && c.isKnown && recognition.descriptorId.Some?
      && recognition.descriptorId.value in db.descriptors
      && db.descriptors[recognition.descriptorId.value].userId == c.user.value.id
      && c.haveAccess == Some(PermissionExists(db, c.user.value.id, roomId))
  {
  }

  function UserJson(u: User): Json
  {
    JObject([("id", JInt(u.id)), ("name", JStr(u.name)), ("surname", JStr(u.surname)),
             ("extra_info", match u.extraInfo case None => JNull case Some(s) => JStr(s))])
  }

  function AccessCheckJson(c: AccessCheck): Json
  {
    JObject([("is_known", JBool(c.isKnown)),
             ("have_access", match c.haveAccess case None => JNull case Some(b) => JBool(b)),
             ("user", match c.user case None => JNull case Some(u) => UserJson(u))])
  }

  function VisitRecordingJson(v: VisitRecording): Json
  {
    JObject([("allowed", JBool(v.allowed)),
             ("visit_id", match v.visitId case None => JNull case Some(id) => JInt(id))])
  }

  function AnonymousDescriptorJson(d: AnonymousDescriptor): Json
  {
    JObject([("features", JArray(seq(|d.features|, i requires 0 <= i < |d.features| => JReal(d.features[i]))))])
  }

  /** The ids of the stored visit reports. */
  function VisitIds(visits: seq<RoomVisitReport>): set<int>
  {
    set i | 0 <= i < |visits| :: visits[i].id
  }

  /** An id larger than every stored report's id, hence not one of them. */
  lemma {:induction false} LargerThanAll(visits: seq<RoomVisitReport>) returns (id: int)
    ensures forall i :: 0 <= i < |visits| ==> visits[i].id < id
    ensures id !in VisitIds(visits)
  {
    if visits == [] {
      id := 0;
    } else {
      var rest := LargerThanAll(visits[..|visits| - 1]);
      var last := visits[|visits| - 1].id;
      id := if last < rest then rest else last + 1;
      assert forall i :: 0 <= i < |visits| - 1 ==> visits[i] == visits[..|visits| - 1][i];
    }
  }

  class AccessControlService {
    var db: AccessTables
    /** The recogniser's descriptor index, rebuilt by `init_service`. */
    var index: DescriptorIndex
    const recognizer: FaceRecognizer
    const normalizer: FaceImageNormalizer

    constructor (tables: AccessTables, faceRecognizer: FaceRecognizer, imageNormalizer: FaceImageNormalizer)
      ensures db == tables && index == map[]
      ensures recognizer == faceRecognizer && normalizer == imageNormalizer
    {
      db := tables;
      index := map[];
      recognizer := faceRecognizer;
      normalizer := imageNormalizer;
    }

    /**
      `record_visit`: never an `Error`. Without a permission nothing is
      written; with one, exactly one report with a fresh id is appended.
    */
    method RecordVisit(roomId: int, userId: int, datetime: int) returns (r: Outcome<VisitRecording>)
      requires db.Valid()
      modifies this
      ensures db.Valid() && index == old(index)
      ensures r.Ok?
      ensures r.result.allowed == PermissionExists(old(db), userId, roomId)
      ensures !r.result.allowed ==> r.result.visitId == None && db == old(db)
      ensures r.result.allowed ==>
        && r.result.visitId.Some?
        && r.result.visitId.value !in VisitIds(old(db.visits))
        && db == old(db).(visits := old(db.visits) +
             [RoomVisitReport(r.result.visitId.value, roomId, userId, datetime)])
    {
      if !PermissionExists(db, userId, roomId) {
        return Ok(VisitRecording(false, None));
      }
      ghost var above := LargerThanAll(db.visits);
      assert above !in VisitIds(db.visits);
      var id :| id !in VisitIds(db.visits);
      db := db.(visits := db.visits + [RoomVisitReport(id, roomId, userId, datetime)]);
      r := Ok(VisitRecording(true, Some(id)));
    }

    /**
      `_load_descriptors` (run by `init_service`): the index is replaced, in
      one call, by the `(id, features)` of every stored descriptor.
    */
    method LoadDescriptors()
      modifies this`index
      ensures index.Keys == db.descriptors.Keys
      ensures forall id :: id in index ==> index[id] == db.descriptors[id].features
    {
      index := map id | id in db.descriptors :: db.descriptors[id].features;
    }
  }
}
