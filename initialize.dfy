/**
 * Startup seeding of permissions and roles
 * (`InitializePermissionsAndRoles`, backend/internal/Initialize/initialize.go).
 *
 * The two collections are the fields of a `Catalog` object, which the seeding
 * procedure updates in place. The ids the driver generates for inserted
 * documents are parameters. So is whether each insert fails, and whether the
 * listing of all permissions fails. A failed listing stops the process
 * (`log.Fatal`); here seeding then stops before the roles.
 *
 * The functions `SeedPermissions`, `AdminIds`, `UserIds` and `SeedRoles`
 * state what each of the procedure's loops computes. They process a prefix
 * of their input, as the loops do.
 */
module Seeding {
  import opened Wrappers
  import opened Models

  datatype PermissionSeed = PermissionSeed(name: string, description: string)

  /** The four permissions seeding creates, in this order. */
  const PermissionSeeds: seq<PermissionSeed> := [
    PermissionSeed("view_task", "Allows viewing tasks"),
    PermissionSeed("create_task", "Allows creating tasks"),
    PermissionSeed("update_task", "Allows updating tasks"),
    PermissionSeed("delete_task", "Allows deleting tasks")
  ]

  /** The two roles seeding creates, in this order. */
  const RoleNames: seq<string> := ["admin", "user"]

  /** The permission names of the seed list. */
  predicate IsSeedName(name: string)
  {
    name == "view_task" || name == "create_task" || name == "update_task" || name == "delete_task"
  }

  /** Some permission in the collection has the name (`FindOne({name})` finds a document). */
  predicate HasPermissionNamed(coll: seq<Permission>, name: string)
  {
    exists i :: 0 <= i < |coll| && coll[i].name == name
  }

  predicate HasRoleNamed(roles: seq<Role>, name: string)
  {
    exists i :: 0 <= i < |roles| && roles[i].name == name
  }

  /** Appending keeps every name that was present. */
  lemma ExtensionKeepsPermissionNames(before: seq<Permission>, after: seq<Permission>)
    requires |before| <= |after| && after[..|before|] == before
    ensures forall name :: HasPermissionNamed(before, name) ==> HasPermissionNamed(after, name)
  {
    forall name | HasPermissionNamed(before, name) ensures HasPermissionNamed(after, name) {
      var i :| 0 <= i < |before| && before[i].name == name;
      assert after[i] == after[..|before|][i];
    }
  }

  lemma ExtensionKeepsRoleNames(before: seq<Role>, after: seq<Role>)
    requires |before| <= |after| && after[..|before|] == before
    ensures forall name :: HasRoleNamed(before, name) ==> HasRoleNamed(after, name)
  {
    forall name | HasRoleNamed(before, name) ensures HasRoleNamed(after, name) {
      var i :| 0 <= i < |before| && before[i].name == name;
      assert after[i] == after[..|before|][i];
    }
  }

  /** One step of the first loop: insert the seed unless its name exists or the insert fails. */
  function InsertPermission(coll: seq<Permission>, seed: PermissionSeed, id: ObjectId, fails: bool): (r: seq<Permission>)
    ensures |coll| <= |r| <= |coll| + 1 && r[..|coll|] == coll
    ensures |r| == |coll| + 1 <==> !HasPermissionNamed(coll, seed.name) && !fails
    ensures |r| == |coll| + 1 ==> r[|coll|] == Permission(id, seed.name, seed.description)
    ensures HasPermissionNamed(r, seed.name) <==> HasPermissionNamed(coll, seed.name) || !fails
  {
    if HasPermissionNamed(coll, seed.name) || fails then coll
    else coll + [Permission(id, seed.name, seed.description)]
  }

  /**
   * The permissions collection after the first loop has handled `seeds`.
   * The old collection is kept as a prefix. Every added document comes from a
   * seed (`SeedPermissionsPresent`: every seed whose insert did not fail now
   * has its name present).
   */
  function SeedPermissions(coll: seq<Permission>, seeds: seq<PermissionSeed>, ids: seq<ObjectId>, fails: seq<bool>)
    : (r: seq<Permission>)
    requires |ids| == |seeds| == |fails|
    ensures |coll| <= |r| && r[..|coll|] == coll
    ensures forall i :: |coll| <= i < |r| ==> exists k :: 0 <= k < |seeds| && r[i].name == seeds[k].name
    // a document is added only when no document of its name existed (`SeedPermissionsAddsNamesOnce`:
    // so no name is added twice)
    ensures forall i, j :: 0 <= j < |coll| <= i < |r| ==> r[i].name != coll[j].name
    decreases |seeds|
  {
    if seeds == [] then coll
    else
      var n := |seeds| - 1;
      var before := SeedPermissions(coll, seeds[..n], ids[..n], fails[..n]);
      var after := InsertPermission(before, seeds[n], ids[n], fails[n]);
      assert forall k :: 0 <= k < n ==> seeds[..n][k] == seeds[k] && fails[..n][k] == fails[k];
      assert forall i :: 0 <= i < |before| ==> after[i] == before[i];
      assert forall i :: 0 <= i < |coll| ==> coll[i] == before[..|coll|][i];
      assert !fails[n] && !HasPermissionNamed(before, seeds[n].name) ==> after[|before|].name == seeds[n].name;
      after
  }

  /** Every seed whose insert did not fail has its name present after the first loop. */
  lemma {:induction false} SeedPermissionsPresent(coll: seq<Permission>, seeds: seq<PermissionSeed>, ids: seq<ObjectId>, fails: seq<bool>)
    requires |ids| == |seeds| == |fails|
    ensures forall k :: 0 <= k < |seeds| && !fails[k] ==> HasPermissionNamed(SeedPermissions(coll, seeds, ids, fails), seeds[k].name)
    decreases |seeds|
  {
    if seeds != [] {
      var n := |seeds| - 1;
      var before := SeedPermissions(coll, seeds[..n], ids[..n], fails[..n]);
      var after := SeedPermissions(coll, seeds, ids, fails);
      SeedPermissionsPresent(coll, seeds[..n], ids[..n], fails[..n]);
      assert after == InsertPermission(before, seeds[n], ids[n], fails[n]);
      ExtensionKeepsPermissionNames(before, after);
      forall k | 0 <= k < |seeds| && !fails[k] ensures HasPermissionNamed(after, seeds[k].name) {
        if k < n {
          assert seeds[..n][k] == seeds[k] && fails[..n][k] == fails[k];
        }
      }
    }
  }

  /** The permissions from index `from` on have pairwise distinct names. */
  ghost predicate PermissionNamesDistinctFrom(r: seq<Permission>, from: nat)
  {
    forall i, j :: from <= i < j < |r| ==> r[i].name != r[j].name
  }

  /** No name is added twice by the first loop. */
  lemma {:induction false} SeedPermissionsAddsNamesOnce(coll: seq<Permission>, seeds: seq<PermissionSeed>, ids: seq<ObjectId>, fails: seq<bool>)
    requires |ids| == |seeds| == |fails|
    ensures PermissionNamesDistinctFrom(SeedPermissions(coll, seeds, ids, fails), |coll|)
    decreases |seeds|
  {
    if seeds != [] {
      var n := |seeds| - 1;
      var before := SeedPermissions(coll, seeds[..n], ids[..n], fails[..n]);
      var after := SeedPermissions(coll, seeds, ids, fails);
      SeedPermissionsAddsNamesOnce(coll, seeds[..n], ids[..n], fails[..n]);
      assert after == InsertPermission(before, seeds[n], ids[n], fails[n]);
      forall i, j | |coll| <= i < j < |after| ensures after[i].name != after[j].name {
        assert after[i] == before[i];
        if j < |before| {
          assert after[j] == before[j];
        } else {
          assert j == |before| && after[j].name == seeds[n].name && !HasPermissionNamed(before, seeds[n].name);
          assert before[i].name != seeds[n].name;
        }
      }
    }
  }

  /** The first loop's step `k`, unfolded. */
  lemma SeedPermissionsStep(coll: seq<Permission>, seeds: seq<PermissionSeed>, ids: seq<ObjectId>, fails: seq<bool>, k: nat)
    requires |ids| == |seeds| == |fails| && k < |seeds|
    ensures SeedPermissions(coll, seeds[..k + 1], ids[..k + 1], fails[..k + 1]) ==
              InsertPermission(SeedPermissions(coll, seeds[..k], ids[..k], fails[..k]), seeds[k], ids[k], fails[k])
  {
    assert seeds[..k + 1][..k] == seeds[..k] && ids[..k + 1][..k] == ids[..k] && fails[..k + 1][..k] == fails[..k];
  }

  /** When every seed name is already present, the first loop inserts nothing. */
  lemma {:induction false} SeedPermissionsAllPresent(coll: seq<Permission>, seeds: seq<PermissionSeed>, ids: seq<ObjectId>, fails: seq<bool>)
    requires |ids| == |seeds| == |fails|
    requires forall k :: 0 <= k < |seeds| ==> HasPermissionNamed(coll, seeds[k].name)
    ensures SeedPermissions(coll, seeds, ids, fails) == coll
    decreases |seeds|
  {
    if seeds != [] {
      var n := |seeds| - 1;
      assert forall k :: 0 <= k < n ==> seeds[..n][k] == seeds[k];
      SeedPermissionsAllPresent(coll, seeds[..n], ids[..n], fails[..n]);
    }
  }

  /** No insert fails. */
  ghost predicate NoneFail(fails: seq<bool>)
  {
    forall k :: 0 <= k < |fails| ==> !fails[k]
  }

  /** Seeding permissions twice adds nothing the second time, once a first run had no failed insert. */
  lemma SeedPermissionsTwice(coll: seq<Permission>, ids1: seq<ObjectId>, ids2: seq<ObjectId>, fails: seq<bool>, fails2: seq<bool>)
    requires |ids1| == |fails| == |ids2| == |fails2| == |PermissionSeeds|
    requires NoneFail(fails)
    ensures var once := SeedPermissions(coll, PermissionSeeds, ids1, fails);
            SeedPermissions(once, PermissionSeeds, ids2, fails2) == once
  {
    var once := SeedPermissions(coll, PermissionSeeds, ids1, fails);
    SeedPermissionsPresent(coll, PermissionSeeds, ids1, fails);
    SeedPermissionsAllPresent(once, PermissionSeeds, ids2, fails2);
  }

  /** The documents the first loop inserts when none of the seeds exists and no insert fails. */
  function Inserted(seeds: seq<PermissionSeed>, ids: seq<ObjectId>): seq<Permission>
    requires |ids| == |seeds|
  {
    seq(|seeds|, k requires 0 <= k < |seeds| => Permission(ids[k], seeds[k].name, seeds[k].description))
  }

  /** With distinct seed names, none present and no failed insert, every seed is appended in order. */
  lemma {:induction false} SeedPermissionsAllMissing(coll: seq<Permission>, seeds: seq<PermissionSeed>, ids: seq<ObjectId>, fails: seq<bool>)
    requires |ids| == |seeds| == |fails|
    requires NoneFail(fails)
    requires forall a, b :: 0 <= a < b < |seeds| ==> seeds[a].name != seeds[b].name
    requires forall k :: 0 <= k < |seeds| ==> !HasPermissionNamed(coll, seeds[k].name)
    ensures SeedPermissions(coll, seeds, ids, fails) == coll + Inserted(seeds, ids)
    decreases |seeds|
  {
    if seeds == [] {
      assert coll + Inserted(seeds, ids) == coll;
    } else {
      var n := |seeds| - 1;
      assert forall k :: 0 <= k < n ==> seeds[..n][k] == seeds[k] && fails[..n][k] == fails[k];
      SeedPermissionsAllMissing(coll, seeds[..n], ids[..n], fails[..n]);
      var before := coll + Inserted(seeds[..n], ids[..n]);
      assert SeedPermissions(coll, seeds, ids, fails) == InsertPermission(before, seeds[n], ids[n], fails[n]);
      NewNameAbsent(coll, seeds, ids);
      InsertedSnoc(seeds, ids);
      var p := Permission(ids[n], seeds[n].name, seeds[n].description);
      assert !fails[n] && !HasPermissionNamed(before, seeds[n].name);
      assert InsertPermission(before, seeds[n], ids[n], fails[n]) == before + [p];
      ConcatSnoc(coll, Inserted(seeds[..n], ids[..n]), p);
    }
  }

  lemma ConcatSnoc<T>(a: seq<T>, b: seq<T>, x: T)
    ensures a + (b + [x]) == (a + b) + [x]
  {
  }

  lemma InsertedSnoc(seeds: seq<PermissionSeed>, ids: seq<ObjectId>)
    requires |ids| == |seeds| > 0
    ensures var n := |seeds| - 1;
            Inserted(seeds, ids) == Inserted(seeds[..n], ids[..n]) + [Permission(ids[n], seeds[n].name, seeds[n].description)]
  {
  }

  /** The last seed's name is in neither the old collection nor the documents inserted for the earlier seeds. */
  lemma NewNameAbsent(coll: seq<Permission>, seeds: seq<PermissionSeed>, ids: seq<ObjectId>)
    requires |ids| == |seeds| > 0
    requires forall a, b :: 0 <= a < b < |seeds| ==> seeds[a].name != seeds[b].name
    requires forall k :: 0 <= k < |seeds| ==> !HasPermissionNamed(coll, seeds[k].name)
    ensures !HasPermissionNamed(coll + Inserted(seeds[..|seeds| - 1], ids[..|seeds| - 1]), seeds[|seeds| - 1].name)
  {
    var n := |seeds| - 1;
    var added := Inserted(seeds[..n], ids[..n]);
    var before := coll + added;
    forall i | 0 <= i < |before| ensures before[i].name != seeds[n].name {
      if i < |coll| {
        assert before[i] == coll[i];
      } else {
        assert before[i] == added[i - |coll|];
        assert added[i - |coll|].name == seeds[i - |coll|].name;
      }
    }
  }

  /** The seed names are pairwise distinct. */
  lemma SeedNamesDistinct()
    ensures forall a, b :: 0 <= a < b < |PermissionSeeds| ==> PermissionSeeds[a].name != PermissionSeeds[b].name
  {
  }

  /** Seeding an empty collection without failures creates exactly the four seeds, in order, under the generated ids. */
  lemma SeedEmptyCollection(ids: seq<ObjectId>, fails: seq<bool>)
    requires |ids| == |fails| == |PermissionSeeds|
    requires NoneFail(fails)
    ensures var r := SeedPermissions([], PermissionSeeds, ids, fails);
            |r| == 4 &&
            forall k :: 0 <= k < 4 ==> r[k] == Permission(ids[k], PermissionSeeds[k].name, PermissionSeeds[k].description)
  {
    SeedNamesDistinct();
    SeedPermissionsAllMissing([], PermissionSeeds, ids, fails);
    assert [] + Inserted(PermissionSeeds, ids) == Inserted(PermissionSeeds, ids);
  }

  /** Seeding only ever adds permissions named like a seed, so a name absent before and outside the seeds stays absent. */
  lemma SeedingAddsOnlySeedNames(coll: seq<Permission>, ids: seq<ObjectId>, fails: seq<bool>, name: string)
    requires |ids| == |fails| == |PermissionSeeds|
    requires !HasPermissionNamed(coll, name) && !IsSeedName(name)
    ensures !HasPermissionNamed(SeedPermissions(coll, PermissionSeeds, ids, fails), name)
  {
    assert forall k :: 0 <= k < |PermissionSeeds| ==> IsSeedName(PermissionSeeds[k].name);
    AddsOnlyNamesOf(coll, PermissionSeeds, ids, fails, name);
  }

  /** A name absent before and from `seeds` stays absent. */
  lemma AddsOnlyNamesOf(coll: seq<Permission>, seeds: seq<PermissionSeed>, ids: seq<ObjectId>, fails: seq<bool>, name: string)
    requires |ids| == |seeds| == |fails|
    requires !HasPermissionNamed(coll, name)
    requires forall k :: 0 <= k < |seeds| ==> seeds[k].name != name
    ensures !HasPermissionNamed(SeedPermissions(coll, seeds, ids, fails), name)
  {
    var r := SeedPermissions(coll, seeds, ids, fails);
    forall i | 0 <= i < |r| ensures r[i].name != name {
      if i < |coll| {
        assert r[i] == r[..|coll|][i];
      } else {
        var k :| 0 <= k < |seeds| && r[i].name == seeds[k].name;
      }
    }
  }

  /** `adminPermissions`: the id of every permission listed, in listing order. */
  function AdminIds(listed: seq<Permission>): (r: seq<ObjectId>)
    ensures |r| == |listed|
    ensures forall i :: 0 <= i < |listed| ==> r[i] == listed[i].id
    decreases |listed|
  {
    if listed == [] then []
    else AdminIds(listed[..|listed| - 1]) + [listed[|listed| - 1].id]
  }

  /** `userPermissions`: exactly the ids of the listed permissions named `view_task`. */
  function UserIds(listed: seq<Permission>): (r: seq<ObjectId>)
    ensures |r| <= |listed|
    ensures forall x :: x in r <==> exists i :: 0 <= i < |listed| && listed[i].id == x && listed[i].name == "view_task"
    decreases |listed|
  {
    if listed == [] then []
    else
      var n := |listed| - 1;
      var before := UserIds(listed[..n]);
      assert forall i :: 0 <= i < n ==> listed[..n][i] == listed[i];
      if listed[n].name == "view_task" then before + [listed[n].id] else before
  }

  /** The permission list a new role receives: everything for `admin`, `view_task` for any other name. */
  function Assigned(name: string, admin: seq<ObjectId>, user: seq<ObjectId>): (r: seq<ObjectId>)
    ensures name == "admin" ==> r == admin
    ensures name != "admin" ==> r == user
  {
    if name == "admin" then admin else user
  }

  /** One step of the role loop: insert the role with its permissions unless its name exists or the insert fails. */
  function InsertRole(roles: seq<Role>, name: string, id: ObjectId, fails: bool, admin: seq<ObjectId>, user: seq<ObjectId>)
    : (r: seq<Role>)
    ensures |roles| <= |r| <= |roles| + 1 && r[..|roles|] == roles
    ensures |r| == |roles| + 1 <==> !HasRoleNamed(roles, name) && !fails
    ensures |r| == |roles| + 1 ==> r[|roles|] == Role(id, name, Assigned(name, admin, user))
    ensures HasRoleNamed(r, name) <==> HasRoleNamed(roles, name) || !fails
  {
    if HasRoleNamed(roles, name) || fails then roles
    else roles + [Role(id, name, Assigned(name, admin, user))]
  }

  /**
   * The roles collection after the role loop has handled `names`. The old
   * roles are kept unchanged, as a prefix. Every added role is one of
   * `names`, with the permission list for its name (`SeedRolesPresent`:
   * every name whose insert did not fail is now present).
   */
  function SeedRoles(roles: seq<Role>, names: seq<string>, ids: seq<ObjectId>, fails: seq<bool>,
                     admin: seq<ObjectId>, user: seq<ObjectId>): (r: seq<Role>)
    requires |ids| == |names| == |fails|
    ensures |roles| <= |r| && r[..|roles|] == roles
    ensures forall i :: |roles| <= i < |r| ==>
              (exists k :: 0 <= k < |names| && r[i].name == names[k]) && r[i].permissions == Assigned(r[i].name, admin, user)
    // a role is added only when no role of its name existed (`SeedRolesAddsNamesOnce`: so no name is added twice)
    ensures forall i, j :: 0 <= j < |roles| <= i < |r| ==> r[i].name != roles[j].name
    decreases |names|
  {
    if names == [] then roles
    else
      var n := |names| - 1;
      var before := SeedRoles(roles, names[..n], ids[..n], fails[..n], admin, user);
      var after := InsertRole(before, names[n], ids[n], fails[n], admin, user);
      assert forall k :: 0 <= k < n ==> names[..n][k] == names[k] && fails[..n][k] == fails[k];
      assert forall i :: 0 <= i < |before| ==> after[i] == before[i];
      assert forall i :: 0 <= i < |roles| ==> roles[i] == before[..|roles|][i];
      assert !fails[n] && !HasRoleNamed(before, names[n]) ==> after[|before|].name == names[n];
      after
  }

  /** Every role name whose insert did not fail is present after the role loop. */
  lemma {:induction false} SeedRolesPresent(roles: seq<Role>, names: seq<string>, ids: seq<ObjectId>, fails: seq<bool>,
                                            admin: seq<ObjectId>, user: seq<ObjectId>)
    requires |ids| == |names| == |fails|
    ensures forall k :: 0 <= k < |names| && !fails[k] ==> HasRoleNamed(SeedRoles(roles, names, ids, fails, admin, user), names[k])
    decreases |names|
  {
    if names != [] {
      var n := |names| - 1;
      var before := SeedRoles(roles, names[..n], ids[..n], fails[..n], admin, user);
      var after := SeedRoles(roles, names, ids, fails, admin, user);
      SeedRolesPresent(roles, names[..n], ids[..n], fails[..n], admin, user);
      assert after == InsertRole(before, names[n], ids[n], fails[n], admin, user);
      ExtensionKeepsRoleNames(before, after);
      forall k | 0 <= k < |names| && !fails[k] ensures HasRoleNamed(after, names[k]) {
        if k < n {
          assert names[..n][k] == names[k] && fails[..n][k] == fails[k];
        }
      }
    }
  }

  /** The roles from index `from` on have pairwise distinct names. */
  ghost predicate RoleNamesDistinctFrom(r: seq<Role>, from: nat)
  {
    forall i, j :: from <= i < j < |r| ==> r[i].name != r[j].name
  }

  /** No name is added twice by the role loop. */
  lemma {:induction false} SeedRolesAddsNamesOnce(roles: seq<Role>, names: seq<string>, ids: seq<ObjectId>, fails: seq<bool>,
                                                  admin: seq<ObjectId>, user: seq<ObjectId>)
    requires |ids| == |names| == |fails|
    ensures RoleNamesDistinctFrom(SeedRoles(roles, names, ids, fails, admin, user), |roles|)
    decreases |names|
  {
    if names != [] {
      var n := |names| - 1;
      var before := SeedRoles(roles, names[..n], ids[..n], fails[..n], admin, user);
      var after := SeedRoles(roles, names, ids, fails, admin, user);
      SeedRolesAddsNamesOnce(roles, names[..n], ids[..n], fails[..n], admin, user);
      assert after == InsertRole(before, names[n], ids[n], fails[n], admin, user);
      forall i, j | |roles| <= i < j < |after| ensures after[i].name != after[j].name {
        assert after[i] == before[i];
        if j < |before| {
          assert after[j] == before[j];
        } else {
          assert j == |before| && after[j].name == names[n] && !HasRoleNamed(before, names[n]);
          assert before[i].name != names[n];
        }
      }
    }
  }

  /** The role loop's step `m`, unfolded. */
  lemma SeedRolesStep(roles: seq<Role>, names: seq<string>, ids: seq<ObjectId>, fails: seq<bool>,
                      admin: seq<ObjectId>, user: seq<ObjectId>, m: nat)
    requires |ids| == |names| == |fails| && m < |names|
    ensures SeedRoles(roles, names[..m + 1], ids[..m + 1], fails[..m + 1], admin, user) ==
              InsertRole(SeedRoles(roles, names[..m], ids[..m], fails[..m], admin, user), names[m], ids[m], fails[m], admin, user)
  {
    assert names[..m + 1][..m] == names[..m] && ids[..m + 1][..m] == ids[..m] && fails[..m + 1][..m] == fails[..m];
  }

  /** When every role name is already present, the role loop inserts nothing: an existing role is never updated. */
  lemma {:induction false} SeedRolesAllPresent(roles: seq<Role>, names: seq<string>, ids: seq<ObjectId>, fails: seq<bool>,
                                               admin: seq<ObjectId>, user: seq<ObjectId>)
    requires |ids| == |names| == |fails|
    requires forall k :: 0 <= k < |names| ==> HasRoleNamed(roles, names[k])
    ensures SeedRoles(roles, names, ids, fails, admin, user) == roles
    decreases |names|
  {
    if names != [] {
      var n := |names| - 1;
      assert forall k :: 0 <= k < n ==> names[..n][k] == names[k];
      SeedRolesAllPresent(roles, names[..n], ids[..n], fails[..n], admin, user);
    }
  }

  /** The two collections seeding works on. */
  class Catalog {
    var permissions: seq<Permission>
    var roles: seq<Role>

    constructor (permissions: seq<Permission>, roles: seq<Role>)
      ensures this.permissions == permissions && this.roles == roles
    {
      this.permissions := permissions;
      this.roles := roles;
    }
  }

  /** The first loop over `seeds` (seeding passes `PermissionSeeds`): look each name up and insert the seed if missing. */
  method InsertMissingPermissions(cat: Catalog, seeds: seq<PermissionSeed>, ids: seq<ObjectId>, insertFails: seq<bool>)
    requires |ids| == |insertFails| == |seeds|
    modifies cat
    ensures cat.permissions == SeedPermissions(old(cat.permissions), seeds, ids, insertFails)
    ensures cat.roles == old(cat.roles)
  {
    ghost var start := cat.permissions;
    var k := 0;
    while k < |seeds|
      invariant 0 <= k <= |seeds|
      invariant cat.roles == old(cat.roles)
      invariant cat.permissions == SeedPermissions(start, seeds[..k], ids[..k], insertFails[..k])
    {
      var seed := seeds[k];
      ghost var prev := cat.permissions;
      var found := HasPermissionNamed(cat.permissions, seed.name);
      if !found && !insertFails[k] {
        cat.permissions := cat.permissions + [Permission(ids[k], seed.name, seed.description)];
      }
      // a failed insert is logged ("Error creating permission") and skipped
      SeedPermissionsStep(start, seeds, ids, insertFails, k);
      assert cat.permissions == InsertPermission(prev, seed, ids[k], insertFails[k]);
      k := k + 1;
    }
    assert seeds[..k] == seeds && ids[..k] == ids && insertFails[..k] == insertFails;
  }

  /** The second loop: every listed id goes to the admin list, `view_task` ids also to the user list. */
  method CollectPermissionIds(createdPermissions: seq<Permission>)
    returns (adminPermissions: seq<ObjectId>, userPermissions: seq<ObjectId>)
    ensures adminPermissions == AdminIds(createdPermissions)
    ensures userPermissions == UserIds(createdPermissions)
  {
    adminPermissions, userPermissions := [], [];
    var j := 0;
    while j < |createdPermissions|
      invariant 0 <= j <= |createdPermissions|
      invariant adminPermissions == AdminIds(createdPermissions[..j])
      invariant userPermissions == UserIds(createdPermissions[..j])
    {
      var permission := createdPermissions[j];
      assert createdPermissions[..j + 1][..j] == createdPermissions[..j];
      adminPermissions := adminPermissions + [permission.id];
      if permission.name == "view_task" {
        userPermissions := userPermissions + [permission.id];
      }
      j := j + 1;
    }
    assert createdPermissions[..j] == createdPermissions;
  }

  /**
   * The last loop over `names` (seeding passes `RoleNames`): look each name up
   * and insert the role with its permissions if missing.
   */
  method InsertMissingRoles(cat: Catalog, names: seq<string>, ids: seq<ObjectId>, insertFails: seq<bool>,
                            adminPermissions: seq<ObjectId>, userPermissions: seq<ObjectId>)
    requires |ids| == |insertFails| == |names|
    modifies cat
    ensures cat.roles == SeedRoles(old(cat.roles), names, ids, insertFails, adminPermissions, userPermissions)
    ensures cat.permissions == old(cat.permissions)
  {
    ghost var start := cat.roles;
    var m := 0;
    while m < |names|
      invariant 0 <= m <= |names|
      invariant cat.permissions == old(cat.permissions)
      invariant cat.roles == SeedRoles(start, names[..m], ids[..m], insertFails[..m], adminPermissions, userPermissions)
    {
      var name := names[m];
      ghost var prev := cat.roles;
      var found := HasRoleNamed(cat.roles, name);
      if !found {
        var permissionsToAssign := if name == "admin" then adminPermissions else userPermissions;
        if !insertFails[m] {
          cat.roles := cat.roles + [Role(ids[m], name, permissionsToAssign)];
        }
        // a failed insert is logged ("Error creating role") and skipped
      }
      SeedRolesStep(start, names, ids, insertFails, adminPermissions, userPermissions, m);
      assert cat.roles == InsertRole(prev, name, ids[m], insertFails[m], adminPermissions, userPermissions);
      m := m + 1;
    }
    assert names[..m] == names && ids[..m] == ids && insertFails[..m] == insertFails;
  }

  /**
   * Seeding: insert the missing permissions, list them all (a failed
   * listing stops the process), collect the admin and user permission ids,
   * insert the missing roles.
   */
  method InitializePermissionsAndRoles(
    cat: Catalog,
    permissionIds: seq<ObjectId>, permissionInsertFails: seq<bool>,
    listingFails: bool,
    roleIds: seq<ObjectId>, roleInsertFails: seq<bool>)
    returns (completed: bool)
    requires |permissionIds| == |permissionInsertFails| == |PermissionSeeds|
    requires |roleIds| == |roleInsertFails| == |RoleNames|
    modifies cat
    ensures cat.permissions == SeedPermissions(old(cat.permissions), PermissionSeeds, permissionIds, permissionInsertFails)
    ensures completed == !listingFails
    ensures completed ==>
              cat.roles == SeedRoles(old(cat.roles), RoleNames, roleIds, roleInsertFails,
                                     AdminIds(cat.permissions), UserIds(cat.permissions))
    ensures !completed ==> cat.roles == old(cat.roles)
  {
    InsertMissingPermissions(cat, PermissionSeeds, permissionIds, permissionInsertFails);
    if listingFails {
      // log.Fatal("Error fetching permissions:"): the process exits
      return false;
    }
    var createdPermissions := cat.permissions;
    var adminPermissions, userPermissions := CollectPermissionIds(createdPermissions);
    InsertMissingRoles(cat, RoleNames, roleIds, roleInsertFails, adminPermissions, userPermissions);
    return true;
  }
}
