/**
 * The task handlers of the backend (backend/internal/controllers/taskController.go).
 *
 * Every handler walks the same ladder of checks, and the first check that
 * fails decides the reply:
 *  1. the request body parses (`CreateTask`, `UpdateTask`): 400;
 *  2. the `jwt` cookie carries a valid token whose issuer is a user id;
 *  3. the user exists: 404;
 *  4. the user's role exists: 404;
 *  5. the role's permissions can be fetched: 500;
 *  6. one of them has the permission name the handler requires: 403;
 *  7. the `:id` parameter is a valid object id (`UpdateTask`, `DeleteTask`): 400;
 *  8. the database write succeeds: 500.
 * Only then does the handler succeed.
 *
 * The Mongo collections are a value `Db`, and driver failures are flags in
 * `Faults`. The JWT library's reading of the cookie is a `JwtToken` value.
 * The clock is a parameter. A handler does not perform its database write.
 * It returns the write it would perform (`Write`), together with its reply.
 */
module TaskController {
  import opened Wrappers
  import opened Models

  // ---------------------------------------------------------------- tokens

  /** The algorithm family a token's header names. */
  datatype SigningMethod = Hmac(bits: nat) | Rsa | RsaPss | Ecdsa | EdDsa | Unsigned

  /** The token claims the handlers read: the user id is the issuer, in hex. */
  datatype Claims = Claims(role: string, issuer: string)

  /**
   * What the JWT library makes of the cookie's text: either nothing
   * readable, or a header's signing method, whether the signature and
   * the registered claims check out under the server's key, and the claims.
   */
  datatype JwtToken = Unreadable | Decoded(alg: SigningMethod, verifies: bool, claims: Claims)

  datatype JwtError = MalformedToken | UnexpectedSigningMethod | VerificationFailed

  /** `ParseJWT`: only HMAC-signed tokens whose signature and claims verify are accepted. */
  function ParseJwt(token: JwtToken): (r: Result<Claims, JwtError>)
    ensures r.Success? <==> token.Decoded? && token.alg.Hmac? && token.verifies
    ensures r.Success? ==> r.value == token.claims
    ensures token.Decoded? && !token.alg.Hmac? ==> r == Failure(UnexpectedSigningMethod)
  {
    match token
    case Unreadable => Failure(MalformedToken)
    case Decoded(alg, verifies, claims) =>
      if !alg.Hmac? then Failure(UnexpectedSigningMethod)   // the key function refuses it
      else if !verifies then Failure(VerificationFailed)
      else Success(claims)
  }

  /** A request as the handlers see it. */
  datatype Request = Request(
    jwtCookie: string,   // the raw `jwt` cookie, "" when absent
    token: JwtToken,     // what the JWT library reads out of `jwtCookie`
    body: Body,          // the JSON body bound to a task record
    idParam: string)     // the `:id` route parameter

  datatype Body = Unparsable | Parsed(task: StoredTask)

  datatype TokenError = MissingToken | TokenRejected(cause: JwtError) | InvalidUserId

  /**
   * `getUserIDFromToken`: an empty cookie fails before the token is looked
   * at; then the token must parse; then its issuer must be a hex object id.
   */
  function UserIdFromToken(req: Request): (r: Result<ObjectId, TokenError>)
    ensures req.jwtCookie == "" ==> r == Failure(MissingToken)
    ensures req.jwtCookie != "" && ParseJwt(req.token).Failure? ==> r == Failure(TokenRejected(ParseJwt(req.token).error))
    ensures r.Success? <==>
              req.jwtCookie != "" && ParseJwt(req.token).Success? &&
              ObjectIdFromHex(ParseJwt(req.token).value.issuer).Some?
    ensures r.Success? ==> r.value == ObjectIdFromHex(req.token.claims.issuer).value && WellFormedId(r.value)
  {
    if req.jwtCookie == "" then Failure(MissingToken)
    else match ParseJwt(req.token)
      case Failure(e) => Failure(TokenRejected(e))
      case Success(claims) =>
        match ObjectIdFromHex(claims.issuer)
        case None => Failure(InvalidUserId)
        case Some(id) => Success(id)
  }

  // ---------------------------------------------------------------- permissions

  /** The four guarded operations. */
  datatype Operation = View | Create | Update | Delete

  /** The permission name each handler scans for. */
  function RequiredPermission(op: Operation): (r: string)
    ensures r == "view_task" <==> op == View
    ensures r == "create_task" <==> op == Create
    ensures r == "update_task_status" <==> op == Update
    ensures r == "delete_task" <==> op == Delete
  {
    match op
    case View => "view_task"
    case Create => "create_task"
    case Update => "update_task_status"
    case Delete => "delete_task"
  }

  function DeniedMessage(op: Operation): string
  {
    match op
    case View => "You do not have permission to view tasks"
    case Create => "You do not have permission to create a task"
    case Update => "You do not have permission to update this task"
    case Delete => "You do not have permission to delete this task"
  }

  /** Some permission in the list carries the name. */
  predicate Grants(perms: seq<Permission>, name: string)
  {
    exists i :: 0 <= i < |perms| && perms[i].name == name
  }

  /**
   * The `hasPermission` scan: it finds the first permission with the required
   * name and stops there, or reaches the end of the list.
   */
  method HasPermission(perms: seq<Permission>, required: string) returns (found: bool, stoppedAt: nat)
    ensures found <==> Grants(perms, required)
    ensures found ==> stoppedAt < |perms| && perms[stoppedAt].name == required
    ensures forall j :: 0 <= j < stoppedAt && j < |perms| ==> perms[j].name != required
    ensures !found ==> stoppedAt == |perms|
  {
    found := false;
    var i := 0;
    while i < |perms|
      invariant 0 <= i <= |perms|
      invariant forall j :: 0 <= j < i ==> perms[j].name != required
    {
      if perms[i].name == required {
        found := true;
        break;
      }
      i := i + 1;
    }
    stoppedAt := i;
  }

  // ---------------------------------------------------------------- the database

  /** The four collections. */
  datatype Db = Db(users: seq<User>, roles: seq<Role>, permissions: seq<Permission>, tasks: seq<StoredTask>)

  /** Which driver calls fail (cursor `Find` and `All`, and the handler's write). */
  datatype Faults = Faults(
    permissionsFind: bool,
    permissionsDecode: bool,
    tasksFind: bool,
    tasksDecode: bool,
    write: bool)

  /** An error reply: a status code and the `error` text. */
  datatype Reply = Reply(status: int, error: string)

  const StatusOK := 200
  const StatusCreated := 201
  const StatusBadRequest := 400
  const StatusUnauthorized := 401
  const StatusForbidden := 403
  const StatusNotFound := 404
  const StatusInternalServerError := 500

  /**
   * Steps 3 to 5 of the ladder: the user, its role, and the role's
   * permissions in collection order. A `FindOne` that errs for any reason
   * counts as not found.
   */
  function Lookup(db: Db, faults: Faults, userId: ObjectId): (r: Result<seq<Permission>, Reply>)
    ensures FindUser(db.users, userId).None? ==> r == Failure(Reply(StatusNotFound, "User not found"))
    ensures FindUser(db.users, userId).Some? && FindRole(db.roles, FindUser(db.users, userId).value.roleId).None? ==>
              r == Failure(Reply(StatusNotFound, "Role not found"))
    ensures r.Success? <==>
              FindUser(db.users, userId).Some? &&
              FindRole(db.roles, FindUser(db.users, userId).value.roleId).Some? &&
              !faults.permissionsFind && !faults.permissionsDecode
    ensures r.Success? ==>
              r.value == PermissionsOf(db.permissions, FindRole(db.roles, FindUser(db.users, userId).value.roleId).value)
    ensures FindUser(db.users, userId).Some? && FindRole(db.roles, FindUser(db.users, userId).value.roleId).Some? ==>
              (faults.permissionsFind ==> r == Failure(Reply(StatusInternalServerError, "Failed to retrieve permissions"))) &&
              (!faults.permissionsFind && faults.permissionsDecode ==>
                 r == Failure(Reply(StatusInternalServerError, "Failed to decode permissions")))
    ensures r.Failure? ==> r.error.status in {StatusNotFound, StatusInternalServerError}
  {
    match FindUser(db.users, userId)
    case None => Failure(Reply(StatusNotFound, "User not found"))
    case Some(user) =>
      match FindRole(db.roles, user.roleId)
      case None => Failure(Reply(StatusNotFound, "Role not found"))
      case Some(role) =>
        if faults.permissionsFind then Failure(Reply(StatusInternalServerError, "Failed to retrieve permissions"))
        else if faults.permissionsDecode then Failure(Reply(StatusInternalServerError, "Failed to decode permissions"))
        else Success(PermissionsOf(db.permissions, role))
  }

  /** Steps 3 to 6: the refusal, if any, for an authenticated user. */
  function Denial(db: Db, faults: Faults, userId: ObjectId, required: string, denied: string): (r: Option<Reply>)
    ensures r.None? <==> Lookup(db, faults, userId).Success? && Grants(Lookup(db, faults, userId).value, required)
    ensures r.Some? && r.value.status == StatusForbidden <==>
              Lookup(db, faults, userId).Success? && !Grants(Lookup(db, faults, userId).value, required)
    ensures Lookup(db, faults, userId).Failure? ==> r == Some(Lookup(db, faults, userId).error)
  {
    match Lookup(db, faults, userId)
    case Failure(reply) => Some(reply)
    case Success(perms) =>
      if Grants(perms, required) then None
      else Some(Reply(StatusForbidden, denied))
  }

  /** Steps 3 to 6 as each handler runs them, with the permission scan. */
  method Authorize(db: Db, faults: Faults, userId: ObjectId, required: string, denied: string) returns (refusal: Option<Reply>)
    ensures refusal == Denial(db, faults, userId, required, denied)
  {
    var user := FindUser(db.users, userId);
    if user.None? {
      return Some(Reply(StatusNotFound, "User not found"));
    }
    var role := FindRole(db.roles, user.value.roleId);
    if role.None? {
      return Some(Reply(StatusNotFound, "Role not found"));
    }
    if faults.permissionsFind {
      return Some(Reply(StatusInternalServerError, "Failed to retrieve permissions"));
    }
    if faults.permissionsDecode {
      return Some(Reply(StatusInternalServerError, "Failed to decode permissions"));
    }
    var permissions := PermissionsOf(db.permissions, role.value);
    var hasPermission, _ := HasPermission(permissions, required);
    if !hasPermission {
      return Some(Reply(StatusForbidden, denied));
    }
    return None;
  }

  // ---------------------------------------------------------------- handlers

  /** The JSON body of a reply. */
  datatype Payload =
    | ErrorBody(error: string)
    | MessageBody(message: string)
    | TasksBody(tasks: seq<StoredTask>)
    | CreatedBody(message: string, task: StoredTask)

  /** The database write a handler performs. */
  datatype Write = NoWrite | InsertTask(task: StoredTask) | SetFields(id: ObjectId, fields: StoredTask) | DeleteById(id: ObjectId)

  /**
   * What a handler does: a reply with the write it made, or a plain Go error
   * returned to the framework (how the framework renders that error is not
   * part of this model).
   */
  datatype HandlerResult =
    | Replied(status: int, payload: Payload, write: Write)
    | ReturnedError(error: TokenError)

  function Refused(reply: Reply): HandlerResult
  {
    Replied(reply.status, ErrorBody(reply.error), NoWrite)
  }

  /** The request's user is authenticated and holds the operation's permission, and nothing failed on the way. */
  predicate Admitted(req: Request, db: Db, faults: Faults, required: string)
  {
    && UserIdFromToken(req).Success?
    && Lookup(db, faults, UserIdFromToken(req).value).Success?
    && Grants(Lookup(db, faults, UserIdFromToken(req).value).value, required)
  }

  /** `GET /api/tasks`. */
  method GetTasks(req: Request, db: Db, faults: Faults) returns (res: HandlerResult)
    ensures UserIdFromToken(req).Failure? ==> res == ReturnedError(UserIdFromToken(req).error)
    ensures UserIdFromToken(req).Success? && Denial(db, faults, UserIdFromToken(req).value, RequiredPermission(View), DeniedMessage(View)).Some? ==>
              res == Refused(Denial(db, faults, UserIdFromToken(req).value, RequiredPermission(View), DeniedMessage(View)).value)
    ensures res.Replied? && res.status == StatusOK <==>
              Admitted(req, db, faults, RequiredPermission(View)) && !faults.tasksFind && !faults.tasksDecode
    // every stored task is listed, whoever asks
    ensures res.Replied? && res.status == StatusOK ==> res.payload == TasksBody(db.tasks)
    ensures Admitted(req, db, faults, RequiredPermission(View)) && faults.tasksFind ==>
              res == Refused(Reply(StatusInternalServerError, "Failed to retrieve tasks"))
    ensures Admitted(req, db, faults, RequiredPermission(View)) && !faults.tasksFind && faults.tasksDecode ==>
              res == Refused(Reply(StatusInternalServerError, "Failed to decode tasks"))
    ensures res.Replied? ==> res.write == NoWrite
  {
    var userId := UserIdFromToken(req);
    if userId.Failure? {
      return ReturnedError(userId.error);
    }
    var refusal := Authorize(db, faults, userId.value, RequiredPermission(View), DeniedMessage(View));
    if refusal.Some? {
      return Refused(refusal.value);
    }
    if faults.tasksFind {
      return Refused(Reply(StatusInternalServerError, "Failed to retrieve tasks"));
    }
    if faults.tasksDecode {
      return Refused(Reply(StatusInternalServerError, "Failed to decode tasks"));
    }
    return Replied(StatusOK, TasksBody(db.tasks), NoWrite);
  }

  /** The 401 text `CreateTask` replies with for each token failure. */
  function TokenMessage(e: TokenError): (r: string)
    ensures r == "Authorization token is missing" <==> e.MissingToken?
    ensures r == "Invalid or expired token" <==> e.TokenRejected?
    ensures r == "Invalid user ID in token" <==> e.InvalidUserId?
  {
    match e
    case MissingToken => "Authorization token is missing"
    case TokenRejected(_) => "Invalid or expired token"
    case InvalidUserId => "Invalid user ID in token"
  }

  /**
   * `POST /api/tasks`. Token failures are replied to with 401 here, not
   * returned as errors. The stored timestamps are the server's clock
   * readings (two readings, one per field), whatever the body said.
   */
  method CreateTask(req: Request, db: Db, faults: Faults, createdNow: Time, updatedNow: Time)
    returns (res: HandlerResult)
    ensures res.Replied?
    ensures req.body.Unparsable? ==> res == Refused(Reply(StatusBadRequest, "Invalid input"))
    ensures req.body.Parsed? && UserIdFromToken(req).Failure? ==>
              res == Refused(Reply(StatusUnauthorized, TokenMessage(UserIdFromToken(req).error)))
    ensures req.body.Parsed? && UserIdFromToken(req).Success? && Denial(db, faults, UserIdFromToken(req).value, RequiredPermission(Create), DeniedMessage(Create)).Some? ==>
              res == Refused(Denial(db, faults, UserIdFromToken(req).value, RequiredPermission(Create), DeniedMessage(Create)).value)
    ensures res.status == StatusCreated <==> req.body.Parsed? && Admitted(req, db, faults, RequiredPermission(Create)) && !faults.write
    ensures res.status == StatusCreated ==>
              var stored := req.body.task.(createdAt := createdNow, updatedAt := updatedNow);
              res.write == InsertTask(stored) && res.payload == CreatedBody("Task created successfully", stored)
    ensures req.body.Parsed? && Admitted(req, db, faults, RequiredPermission(Create)) && faults.write ==>
              res == Refused(Reply(StatusInternalServerError, "Failed to create task"))
    ensures res.write != NoWrite ==> res.status == StatusCreated
  {
    if req.body.Unparsable? {
      return Refused(Reply(StatusBadRequest, "Invalid input"));
    }
    var userId := UserIdFromToken(req);
    if userId.Failure? {
      return Refused(Reply(StatusUnauthorized, TokenMessage(userId.error)));
    }
    var refusal := Authorize(db, faults, userId.value, RequiredPermission(Create), DeniedMessage(Create));
    if refusal.Some? {
      return Refused(refusal.value);
    }
    var task := req.body.task;
    task := task.(createdAt := createdNow);
    task := task.(updatedAt := updatedNow);
    if faults.write {
      return Refused(Reply(StatusInternalServerError, "Failed to create task"));
    }
    return Replied(StatusCreated, CreatedBody("Task created successfully", task), InsertTask(task));
  }

  /**
   * `PUT /api/tasks/:id`, scanning for the permission name `required`. The update
   * `$set`s every field of the parsed body, so fields the client left out
   * are written with their zero values. An id that matches no task still
   * succeeds.
   */
  method UpdateTaskRequiring(req: Request, db: Db, faults: Faults, required: string) returns (res: HandlerResult)
    ensures req.body.Unparsable? ==> res == Refused(Reply(StatusBadRequest, "Invalid input"))
    ensures req.body.Parsed? && UserIdFromToken(req).Failure? ==> res == ReturnedError(UserIdFromToken(req).error)
    ensures req.body.Parsed? && UserIdFromToken(req).Success? && Denial(db, faults, UserIdFromToken(req).value, required, DeniedMessage(Update)).Some? ==>
              res == Refused(Denial(db, faults, UserIdFromToken(req).value, required, DeniedMessage(Update)).value)
    ensures req.body.Parsed? && Admitted(req, db, faults, required) && ObjectIdFromHex(req.idParam).None? ==>
              res == Refused(Reply(StatusBadRequest, "Invalid task ID"))
    ensures res.Replied? && res.status == StatusOK <==>
              req.body.Parsed? && Admitted(req, db, faults, required) && ObjectIdFromHex(req.idParam).Some? && !faults.write
    ensures res.Replied? && res.status == StatusOK ==>
              res.write == SetFields(ObjectIdFromHex(req.idParam).value, req.body.task) &&
              res.payload == MessageBody("Task updated successfully")
    ensures req.body.Parsed? && Admitted(req, db, faults, required) && ObjectIdFromHex(req.idParam).Some? && faults.write ==>
              res == Refused(Reply(StatusInternalServerError, "Failed to update task"))
    ensures res.Replied? && res.write != NoWrite ==> res.status == StatusOK
  {
    if req.body.Unparsable? {
      return Refused(Reply(StatusBadRequest, "Invalid input"));
    }
    var userId := UserIdFromToken(req);
    if userId.Failure? {
      return ReturnedError(userId.error);
    }
    var refusal := Authorize(db, faults, userId.value, required, DeniedMessage(Update));
    if refusal.Some? {
      return Refused(refusal.value);
    }
    var taskId := ObjectIdFromHex(req.idParam);
    if taskId.None? {
      return Refused(Reply(StatusBadRequest, "Invalid task ID"));
    }
    if faults.write {
      return Refused(Reply(StatusInternalServerError, "Failed to update task"));
    }
    return Replied(StatusOK, MessageBody("Task updated successfully"), SetFields(taskId.value, req.body.task));
  }

  /**
   * `UpdateTask` as written: it scans for `update_task_status`. A user without
   * that permission is refused with 403 before the task id is looked at, so a
   * malformed id does not get a 400.
   */
  method UpdateTask(req: Request, db: Db, faults: Faults) returns (res: HandlerResult)
    ensures req.body.Parsed? && UserIdFromToken(req).Success? &&
            Lookup(db, faults, UserIdFromToken(req).value).Success? &&
            !Grants(Lookup(db, faults, UserIdFromToken(req).value).value, "update_task_status") ==>
              res == Refused(Reply(StatusForbidden, "You do not have permission to update this task"))
    ensures res.Replied? && res.status == StatusOK ==> Admitted(req, db, faults, "update_task_status")
    ensures res.Replied? && res.status == StatusOK <==>
              req.body.Parsed? && Admitted(req, db, faults, RequiredPermission(Update)) && ObjectIdFromHex(req.idParam).Some? && !faults.write
  {
    res := UpdateTaskRequiring(req, db, faults, RequiredPermission(Update));
  }

  /** `DELETE /api/tasks/:id`. An id that matches no task still succeeds. */
  method DeleteTask(req: Request, db: Db, faults: Faults) returns (res: HandlerResult)
    ensures UserIdFromToken(req).Failure? ==> res == ReturnedError(UserIdFromToken(req).error)
    ensures UserIdFromToken(req).Success? && Denial(db, faults, UserIdFromToken(req).value, RequiredPermission(Delete), DeniedMessage(Delete)).Some? ==>
              res == Refused(Denial(db, faults, UserIdFromToken(req).value, RequiredPermission(Delete), DeniedMessage(Delete)).value)
    ensures Admitted(req, db, faults, RequiredPermission(Delete)) && ObjectIdFromHex(req.idParam).None? ==>
              res == Refused(Reply(StatusBadRequest, "Invalid task ID"))
    ensures res.Replied? && res.status == StatusOK <==>
              Admitted(req, db, faults, RequiredPermission(Delete)) && ObjectIdFromHex(req.idParam).Some? && !faults.write
    ensures res.Replied? && res.status == StatusOK ==>
              res.write == DeleteById(ObjectIdFromHex(req.idParam).value) &&
              res.payload == MessageBody("Task deleted successfully")
    ensures Admitted(req, db, faults, RequiredPermission(Delete)) && ObjectIdFromHex(req.idParam).Some? && faults.write ==>
              res == Refused(Reply(StatusInternalServerError, "Failed to delete task"))
    ensures res.Replied? && res.write != NoWrite ==> res.status == StatusOK
  {
    var userId := UserIdFromToken(req);
    if userId.Failure? {
      return ReturnedError(userId.error);
    }
    var refusal := Authorize(db, faults, userId.value, RequiredPermission(Delete), DeniedMessage(Delete));
    if refusal.Some? {
      return Refused(refusal.value);
    }
    var taskId := ObjectIdFromHex(req.idParam);
    if taskId.None? {
      return Refused(Reply(StatusBadRequest, "Invalid task ID"));
    }
    if faults.write {
      return Refused(Reply(StatusInternalServerError, "Failed to delete task"));
    }
    return Replied(StatusOK, MessageBody("Task deleted successfully"), DeleteById(taskId.value));
  }
}
