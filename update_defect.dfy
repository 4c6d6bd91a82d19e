/**
 * The update handler against the permissions that seeding creates.
 *
 * `UpdateTask` (backend/internal/controllers/taskController.go) scans the
 * user's permissions for the name `update_task_status`, while seeding
 * (backend/internal/Initialize/initialize.go) creates `view_task`,
 * `create_task`, `update_task` and `delete_task`. Unless a permission named
 * `update_task_status` was put into the collection by other means, no role
 * holds it, and every update is refused with 403, the admin's included.
 *
 * `UpdateTaskIntended` is the handler scanning for the seeded name
 * `update_task`; with it, the seeded admin role may update tasks.
 */
module UpdateDefect {
  import opened Wrappers
  import opened Models
  import opened TaskController
  import opened Seeding

  /** Grants on a role's permissions implies a permission of that name in the collection. */
  lemma GrantsNeedsName(coll: seq<Permission>, role: Role, name: string)
    requires Grants(PermissionsOf(coll, role), name)
    ensures HasPermissionNamed(coll, name)
  {
    var perms := PermissionsOf(coll, role);
    var i :| 0 <= i < |perms| && perms[i].name == name;
    assert perms[i] in perms;
    var j :| 0 <= j < |coll| && coll[j] == perms[i];
  }

  /**
   * After seeding, and unless the collection already held one, there is no
   * permission named `update_task_status`, so no role grants it.
   */
  lemma NoRoleGrantsUpdateStatus(coll: seq<Permission>, ids: seq<ObjectId>, fails: seq<bool>, role: Role)
    requires |ids| == |fails| == |PermissionSeeds|
    requires !HasPermissionNamed(coll, "update_task_status")
    ensures !Grants(PermissionsOf(SeedPermissions(coll, PermissionSeeds, ids, fails), role), "update_task_status")
  {
    var seeded := SeedPermissions(coll, PermissionSeeds, ids, fails);
    SeedingAddsOnlySeedNames(coll, ids, fails, "update_task_status");
    if Grants(PermissionsOf(seeded, role), "update_task_status") {
      GrantsNeedsName(seeded, role, "update_task_status");
      assert false;
    }
  }

  /**
   * `UpdateTask` as written, against a database whose permissions went through
   * seeding: whatever the users, roles and request, it never replies 200, and
   * an authenticated user whose permissions could be fetched gets 403.
   */
  method UpdateOnSeededPermissions(
    req: Request, users: seq<User>, roles: seq<Role>, tasks: seq<StoredTask>, faults: Faults,
    before: seq<Permission>, permissionIds: seq<ObjectId>, permissionInsertFails: seq<bool>)
    returns (res: HandlerResult)
    requires |permissionIds| == |permissionInsertFails| == |PermissionSeeds|
    requires !HasPermissionNamed(before, "update_task_status")
    ensures !(res.Replied? && res.status == StatusOK)
    ensures var db := Db(users, roles, SeedPermissions(before, PermissionSeeds, permissionIds, permissionInsertFails), tasks);
            req.body.Parsed? && UserIdFromToken(req).Success? && Lookup(db, faults, UserIdFromToken(req).value).Success? ==>
              res == Refused(Reply(StatusForbidden, "You do not have permission to update this task"))
  {
    var permissions := SeedPermissions(before, PermissionSeeds, permissionIds, permissionInsertFails);
    var db := Db(users, roles, permissions, tasks);
    var userId := UserIdFromToken(req);
    if userId.Success? {
      var user := FindUser(users, userId.value);
      if user.Some? {
        var role := FindRole(roles, user.value.roleId);
        if role.Some? {
          NoRoleGrantsUpdateStatus(before, permissionIds, permissionInsertFails, role.value);
        }
      }
    }
    res := UpdateTask(req, db, faults);
  }

  /** The update handler scanning for `update_task`, the name seeding creates. */
  method UpdateTaskIntended(req: Request, db: Db, faults: Faults) returns (res: HandlerResult)
    ensures req.body.Parsed? && UserIdFromToken(req).Success? &&
            Lookup(db, faults, UserIdFromToken(req).value).Success? &&
            !Grants(Lookup(db, faults, UserIdFromToken(req).value).value, "update_task") ==>
              res == Refused(Reply(StatusForbidden, "You do not have permission to update this task"))
    ensures res.Replied? && res.status == StatusOK <==>
              req.body.Parsed? && Admitted(req, db, faults, "update_task") && ObjectIdFromHex(req.idParam).Some? && !faults.write
    ensures res.Replied? && res.status == StatusOK ==>
              res.write == SetFields(ObjectIdFromHex(req.idParam).value, req.body.task) &&
              res.payload == MessageBody("Task updated successfully")
    ensures req.body.Parsed? && Admitted(req, db, faults, "update_task") && ObjectIdFromHex(req.idParam).Some? && faults.write ==>
              res == Refused(Reply(StatusInternalServerError, "Failed to update task"))
  {
    res := UpdateTaskRequiring(req, db, faults, "update_task");
  }

  /** The roles seeding creates in an empty roles collection when no insert fails: `admin`, then `user`. */
  lemma SeedRolesFresh(ids: seq<ObjectId>, fails: seq<bool>, admin: seq<ObjectId>, user: seq<ObjectId>)
    requires |ids| == |fails| == |RoleNames|
    requires NoneFail(fails)
    ensures SeedRoles([], RoleNames, ids, fails, admin, user) ==
              [Role(ids[0], "admin", admin), Role(ids[1], "user", user)]
  {
    SeedTwoNamesFresh("admin", "user", ids, fails, admin, user);
  }

  /** Two distinct names seeded into an empty roles collection without failures: both roles, in order. */
  lemma SeedTwoNamesFresh(a: string, b: string, ids: seq<ObjectId>, fails: seq<bool>, admin: seq<ObjectId>, user: seq<ObjectId>)
    requires a != b && |ids| == |fails| == 2 && !fails[0] && !fails[1]
    ensures SeedRoles([], [a, b], ids, fails, admin, user) ==
              [Role(ids[0], a, Assigned(a, admin, user)), Role(ids[1], b, Assigned(b, admin, user))]
  {
    var names := [a, b];
    assert names[..0] == [];
    SeedRolesStep([], names, ids, fails, admin, user, 0);
    var first := SeedRoles([], names[..1], ids[..1], fails[..1], admin, user);
    assert first == InsertRole([], a, ids[0], fails[0], admin, user);
    assert first == [Role(ids[0], a, Assigned(a, admin, user))];
    assert !HasRoleNamed(first, b);
    SeedRolesStep([], names, ids, fails, admin, user, 1);
    assert names[..2] == names && ids[..2] == ids && fails[..2] == fails;
  }

  /** The admin role, holding every listed permission, grants each name present in the collection. */
  lemma AdminGrantsEverything(permissions: seq<Permission>, id: ObjectId, name: string)
    requires HasPermissionNamed(permissions, name)
    ensures Grants(PermissionsOf(permissions, Role(id, "admin", AdminIds(permissions))), name)
  {
    var role := Role(id, "admin", AdminIds(permissions));
    var i :| 0 <= i < |permissions| && permissions[i].name == name;
    assert AdminIds(permissions)[i] == permissions[i].id;
    var perms := PermissionsOf(permissions, role);
    assert permissions[i] in perms;
    var j :| 0 <= j < |perms| && perms[j] == permissions[i];
  }

  /** The permissions a fresh seeding without failures creates. */
  function FreshPermissions(permissionIds: seq<ObjectId>): (r: seq<Permission>)
    requires |permissionIds| == |PermissionSeeds|
    ensures HasPermissionNamed(r, "update_task")
  {
    var r := SeedPermissions([], PermissionSeeds, permissionIds, [false, false, false, false]);
    SeedPermissionsPresent([], PermissionSeeds, permissionIds, [false, false, false, false]);
    assert PermissionSeeds[2].name == "update_task";
    r
  }

  /** The database a fresh seeding without failures leaves, with the given users and tasks. */
  function FreshDb(users: seq<User>, tasks: seq<StoredTask>, permissionIds: seq<ObjectId>, roleIds: seq<ObjectId>): Db
    requires |permissionIds| == |PermissionSeeds| && |roleIds| == |RoleNames|
  {
    var permissions := FreshPermissions(permissionIds);
    Db(users, SeedRoles([], RoleNames, roleIds, [false, false], AdminIds(permissions), UserIds(permissions)), permissions, tasks)
  }

  /** A user whose role is the freshly seeded admin role gets every permission, `update_task` among them. */
  lemma FreshAdminLookup(users: seq<User>, tasks: seq<StoredTask>, faults: Faults,
                         permissionIds: seq<ObjectId>, roleIds: seq<ObjectId>, userId: ObjectId)
    requires |permissionIds| == |PermissionSeeds| && |roleIds| == |RoleNames|
    requires FindUser(users, userId).Some? && FindUser(users, userId).value.roleId == roleIds[0]
    requires !faults.permissionsFind && !faults.permissionsDecode
    ensures var db := FreshDb(users, tasks, permissionIds, roleIds);
            var permissions := FreshPermissions(permissionIds);
            Lookup(db, faults, userId) == Success(PermissionsOf(permissions, Role(roleIds[0], "admin", AdminIds(permissions))))
    ensures Lookup(FreshDb(users, tasks, permissionIds, roleIds), faults, userId).Success?
    ensures Grants(Lookup(FreshDb(users, tasks, permissionIds, roleIds), faults, userId).value, "update_task")
    ensures !Grants(Lookup(FreshDb(users, tasks, permissionIds, roleIds), faults, userId).value, "update_task_status")
  {
    var permissions := FreshPermissions(permissionIds);
    var admin, user := AdminIds(permissions), UserIds(permissions);
    SeedRolesFresh(roleIds, [false, false], admin, user);
    var adminRole := Role(roleIds[0], "admin", admin);
    var roles := [adminRole, Role(roleIds[1], "user", user)];
    var db := Db(users, roles, permissions, tasks);
    assert FreshDb(users, tasks, permissionIds, roleIds) == db;
    assert FindRole(roles, roleIds[0]) == Some(adminRole);
    AdminGrantsEverything(permissions, roleIds[0], "update_task");
    assert Lookup(db, faults, userId) == Success(PermissionsOf(permissions, adminRole));
    NoRoleGrantsUpdateStatus([], permissionIds, [false, false, false, false], adminRole);
  }

  /**
   * After a fresh seeding without failures, a request from a user whose role
   * is the seeded admin role, with a valid token, a body and a valid task id:
   * the handler as written refuses it with 403, the intended handler
   * performs the update.
   */
  method FreshAdminUpdates(
    req: Request, users: seq<User>, tasks: seq<StoredTask>, faults: Faults,
    permissionIds: seq<ObjectId>, roleIds: seq<ObjectId>)
    returns (asWritten: HandlerResult, intended: HandlerResult)
    requires |permissionIds| == |PermissionSeeds| && |roleIds| == |RoleNames|
    requires req.body.Parsed? && UserIdFromToken(req).Success?
    requires FindUser(users, UserIdFromToken(req).value).Some?
    requires FindUser(users, UserIdFromToken(req).value).value.roleId == roleIds[0]
    requires ObjectIdFromHex(req.idParam).Some?
    requires !faults.permissionsFind && !faults.permissionsDecode && !faults.write
    ensures asWritten == Refused(Reply(StatusForbidden, "You do not have permission to update this task"))
    ensures intended == Replied(StatusOK, MessageBody("Task updated successfully"),
                                SetFields(ObjectIdFromHex(req.idParam).value, req.body.task))
  {
    var db := FreshDb(users, tasks, permissionIds, roleIds);
    var userId := UserIdFromToken(req).value;
    FreshAdminLookup(users, tasks, faults, permissionIds, roleIds, userId);
    intended := UpdateTaskIntended(req, db, faults);
    asWritten := UpdateTask(req, db, faults);
  }
}
