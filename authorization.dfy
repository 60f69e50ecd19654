/**
  Token authorization (main_node/modules/authorization/). Three tables keyed
  by their token string stand in for the SQL tables of
  authorization_repository.py: room login tokens, room temporary tokens with
  an expiry instant, and admin tokens. Time is an integer `now`.
*/
module Authorization {

  import opened Wrappers
  import opened Json
  import opened Outcomes

  datatype RoomLoginToken = RoomLoginToken(token: string, roomId: int)
  datatype RoomTempToken = RoomTempToken(token: string, roomId: int, validBefore: int)
  datatype AdminToken = AdminToken(token: string, adminId: int)

  datatype AuthTables = AuthTables(
    tempTokens: map<string, RoomTempToken>,
    loginTokens: map<string, RoomLoginToken>,
    adminTokens: map<string, AdminToken>)
  {
    /** Every row is filed under its own token string (the primary key). */
    ghost predicate Valid()
    {
      && (forall t :: t in tempTokens ==> tempTokens[t].token == t)
      && (forall t :: t in loginTokens ==> loginTokens[t].token == t)
      && (forall t :: t in adminTokens ==> adminTokens[t].token == t)
    }
  }

  datatype TokenCheck = TokenCheck(known: bool)
  datatype TempTokenCheck = TempTokenCheck(known: bool, valid: Option<bool>)
  datatype AdminAuthorization = AdminAuthorization(tokenCheck: TokenCheck, adminId: Option<int>)
  datatype RoomAuthorization = RoomAuthorization(tokenCheck: TempTokenCheck, roomId: Option<int>)
  datatype TempTokenInfo = TempTokenInfo(tempToken: string, validBefore: int)

  function TempTokenInfoJson(info: TempTokenInfo): Json
  {
    JObject([("temp_token", JStr(info.tempToken)), ("valid_before", JInt(info.validBefore))])
  }

  /**
    `authorize_room`: an unknown token is `known=false` with nothing else;
    a known token is valid exactly when its `valid_before` is not earlier
    than `now`, and only a valid token yields its room id.
  */
  function AuthorizeRoom(db: AuthTables, token: string, now: int): (a: RoomAuthorization)
    ensures a.tokenCheck.known <==> token in db.tempTokens
    ensures token !in db.tempTokens ==> a.tokenCheck.valid == None && a.roomId == None
    ensures token in db.tempTokens ==>
      a.tokenCheck.valid == Some(now <= db.tempTokens[token].validBefore)
    ensures a.roomId.Some? <==> a.tokenCheck.valid == Some(true)
    ensures a.roomId.Some? ==> a.roomId.value == db.tempTokens[token].roomId
  {
    if token !in db.tempTokens then
      RoomAuthorization(TempTokenCheck(false, None), None)
    else if db.tempTokens[token].validBefore < now then
      RoomAuthorization(TempTokenCheck(true, Some(false)), None)
    else
      RoomAuthorization(TempTokenCheck(true, Some(true)), Some(db.tempTokens[token].roomId))
  }

  /**
    `authorize_admin`: known exactly when the token is in the admin table;
    the admin id is never filled in.
  */
  function AuthorizeAdmin(db: AuthTables, token: string): (a: AdminAuthorization)
    ensures a.tokenCheck.known <==> token in db.adminTokens
    ensures a.adminId == None
  {
    if token !in db.adminTokens then
      AdminAuthorization(TokenCheck(false), None)
    else
      AdminAuthorization(TokenCheck(true), None)
  }

  /**
    The repository finds a token row with `where "token" = $1`. With every
    row filed under its own token, the map lookups of `authorize_room`,
    `authorize_admin` and `log_in_room` find exactly the rows that query finds.
  */
  lemma {:induction false} LookupsMatchTokenColumn(db: AuthTables, token: string, now: int)
    requires db.Valid()
    ensures AuthorizeRoom(db, token, now).tokenCheck.known <==>
      exists k :: k in db.tempTokens && db.tempTokens[k].token == token
    ensures AuthorizeAdmin(db, token).tokenCheck.known <==>
      exists k :: k in db.adminTokens && db.adminTokens[k].token == token
    ensures token in db.loginTokens <==>
      exists k :: k in db.loginTokens && db.loginTokens[k].token == token
  {
    if token in db.tempTokens {
      assert db.tempTokens[token].token == token;
    }
    if token in db.adminTokens {
      assert db.adminTokens[token].token == token;
    }
    if token in db.loginTokens {
      assert db.loginTokens[token].token == token;
    }
  }

  /** The token strings of a room's temporary tokens. */
  function RoomTokens(temp: map<string, RoomTempToken>, roomId: int): set<string>
  {
    set t | t in temp && temp[t].roomId == roomId
  }

  /** `delete_room_temp_token`: drops every row of the room, keeps every other row. */
  function DeleteRoomTempTokens(temp: map<string, RoomTempToken>, roomId: int): (r: map<string, RoomTempToken>)
    ensures forall t :: t in r <==> t in temp && temp[t].roomId != roomId
    ensures forall t :: t in r ==> r[t] == temp[t]
  {
    map t | t in temp && temp[t].roomId != roomId :: temp[t]
  }

  /** The temp-token table after the room's tokens are replaced by `token`. */
  function ReissueRoomToken(temp: map<string, RoomTempToken>, roomId: int, token: string, validBefore: int)
    : map<string, RoomTempToken>
  {
    DeleteRoomTempTokens(temp, roomId)[token := RoomTempToken(token, roomId, validBefore)]
  }

  /** A string longer than every string of `used`, hence not one of them. */
  lemma {:induction false} LongerThanAll(used: set<string>) returns (t: string)
    ensures forall u :: u in used ==> |u| < |t|
    ensures t !in used
  {
    if used == {} {
      t := "";
    } else {
      var u :| u in used;
      var rest := LongerThanAll(used - {u});
      t := if |u| < |rest| then rest else seq(|u| + 1, _ => 'x');
    }
  }

  /**
    After a re-issue the room has exactly the new token, and every other
    room keeps exactly the rows it had.
  */
  lemma ReissueLeavesOneToken(temp: map<string, RoomTempToken>, roomId: int, token: string, validBefore: int)
    requires token !in DeleteRoomTempTokens(temp, roomId)
    ensures RoomTokens(ReissueRoomToken(temp, roomId, token, validBefore), roomId) == {token}
    ensures forall other, t :: other != roomId && t in RoomTokens(temp, other) ==>
      t in ReissueRoomToken(temp, roomId, token, validBefore) &&
      ReissueRoomToken(temp, roomId, token, validBefore)[t] == temp[t]
    ensures forall other :: other != roomId ==>
      RoomTokens(ReissueRoomToken(temp, roomId, token, validBefore), other) == RoomTokens(temp, other)
  {
  }

  /**
    A token just issued for a room is accepted with that room's id at every
    instant up to and including its `valid_before`, and refused as invalid
    afterwards; the room's earlier tokens are no longer known.
  */
  lemma IssuedTokenAuthorizes(db: AuthTables, roomId: int, token: string, validBefore: int, now: int)
    requires token !in DeleteRoomTempTokens(db.tempTokens, roomId)
    ensures var after := db.(tempTokens := ReissueRoomToken(db.tempTokens, roomId, token, validBefore));
      && (now <= validBefore ==>
            AuthorizeRoom(after, token, now) == RoomAuthorization(TempTokenCheck(true, Some(true)), Some(roomId)))
      && (validBefore < now ==>
            AuthorizeRoom(after, token, now) == RoomAuthorization(TempTokenCheck(true, Some(false)), None))
      && (forall earlier :: earlier in RoomTokens(db.tempTokens, roomId) && earlier != token ==>
            !AuthorizeRoom(after, earlier, now).tokenCheck.known)
  {
  }

  class AuthorizationService {
    var db: AuthTables
    /** `ROOM_TOKEN_LIFETIME`, read from the configuration. */
    const tokenLifetime: int

    constructor (tables: AuthTables, lifetime: int)
      requires tables.Valid()
      ensures db == tables && tokenLifetime == lifetime
      ensures db.Valid()
    {
      db := tables;
      tokenLifetime := lifetime;
    }

    /**
      `log_in_room`: an unknown login token is an `Error` and changes
      nothing; a known one deletes every temp token of its room, then inserts
      one new token, fresh among the remaining rows, valid before
      `now + tokenLifetime`, and returns it.
    */
    method LogInRoom(loginToken: string, now: int) returns (r: Outcome<TempTokenInfo>)
      requires db.Valid()
      modifies this
      ensures db.Valid()
      ensures loginToken !in old(db.loginTokens) ==>
        r == Error("Unknown room login token.") && db == old(db)
      ensures loginToken in old(db.loginTokens) ==>
        var roomId := old(db.loginTokens[loginToken].roomId);
        && r.Ok?
        && r.result.validBefore == now + tokenLifetime
        && r.result.tempToken !in DeleteRoomTempTokens(old(db.tempTokens), roomId)
        && r.result.tempToken in db.tempTokens
        && db.tempTokens[r.result.tempToken] == RoomTempToken(r.result.tempToken, roomId, r.result.validBefore)
        && db == old(db).(tempTokens :=
             ReissueRoomToken(old(db.tempTokens), roomId, r.result.tempToken, r.result.validBefore))
    {
      if loginToken !in db.loginTokens {
        return Error("Unknown room login token.");
      }
      var roomId := db.loginTokens[loginToken].roomId;
      db := db.(tempTokens := DeleteRoomTempTokens(db.tempTokens, roomId));
      ghost var unused := LongerThanAll(db.tempTokens.Keys);
      var token :| token !in db.tempTokens;
      var validBefore := now + tokenLifetime;
      db := db.(tempTokens := db.tempTokens[token := RoomTempToken(token, roomId, validBefore)]);
      r := Ok(TempTokenInfo(token, validBefore));
    }
  }
}
