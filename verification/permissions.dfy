/**
 * The command permission check of src/utility/permissions.js. A command lists the
 * Discord permissions, roles and users it requires; an empty list requires nothing.
 */
module Permissions {

  /** `{ roles, users, discordPerms }`: role ids, user ids and permission flag names. */
  datatype PermissionLists = PermissionLists(roles: seq<string>, users: seq<string>, discordPerms: seq<string>)

  /** The caller as the check sees it: user id, held role ids and held permissions. */
  datatype Caller = Caller(userId: string, heldRoles: set<string>, heldPerms: set<string>)

  /** `perms.every(p => held.has(p))`. */
  function AllHeld(perms: seq<string>, held: set<string>): bool
  {
    if |perms| == 0 then true else perms[0] in held && AllHeld(perms[1..], held)
  }

  /** `ids.some(id => held.has(id))`. */
  function AnyHeld(ids: seq<string>, held: set<string>): bool
  {
    if |ids| == 0 then false else ids[0] in held || AnyHeld(ids[1..], held)
  }

  lemma {:induction false} EveryMeansAll(perms: seq<string>, held: set<string>)
    ensures AllHeld(perms, held) <==> forall i :: 0 <= i < |perms| ==> perms[i] in held
  {
    if |perms| > 0 {
      EveryMeansAll(perms[1..], held);
      assert forall i :: 1 <= i < |perms| ==> perms[i] == perms[1..][i - 1];
    }
  }

  lemma {:induction false} SomeMeansExists(ids: seq<string>, held: set<string>)
    ensures AnyHeld(ids, held) <==> exists i :: 0 <= i < |ids| && ids[i] in held
  {
    if |ids| > 0 {
      SomeMeansExists(ids[1..], held);
      if AnyHeld(ids[1..], held) {
        var i :| 0 <= i < |ids[1..]| && ids[1..][i] in held;
        assert ids[i + 1] in held;
      }
      if exists i :: 0 <= i < |ids| && ids[i] in held {
        var i :| 0 <= i < |ids| && ids[i] in held;
        if i > 0 {
          assert ids[1..][i - 1] in held;
        }
      }
    }
  }

  /** `hasPermission(interaction, requiredPermissions)`, with its early returns. */
  function HasPermission(c: Caller, req: PermissionLists): (granted: bool)
    ensures granted <==>
      AllHeld(req.discordPerms, c.heldPerms)
      && (|req.roles| == 0 || AnyHeld(req.roles, c.heldRoles))
      && (|req.users| == 0 || c.userId in req.users)
  {
    if |req.discordPerms| > 0 && !AllHeld(req.discordPerms, c.heldPerms) then false
    else if |req.roles| > 0 && !AnyHeld(req.roles, c.heldRoles) then false
    else if |req.users| > 0 && !(c.userId in req.users) then false
    else true
  }

  /**
   * The early returns amount to three independent requirements, all of which must
   * hold: every listed permission is held, some listed role is held (when roles are
   * listed), and the caller is listed (when users are listed). Their order does not matter.
   */
  lemma HasPermissionMeaning(c: Caller, req: PermissionLists)
    ensures HasPermission(c, req) <==>
      (forall i :: 0 <= i < |req.discordPerms| ==> req.discordPerms[i] in c.heldPerms)
      && (|req.roles| == 0 || exists i :: 0 <= i < |req.roles| && req.roles[i] in c.heldRoles)
      && (|req.users| == 0 || c.userId in req.users)
  {
    EveryMeansAll(req.discordPerms, c.heldPerms);
    SomeMeansExists(req.roles, c.heldRoles);
  }

  /** Each list on its own: a missing listed permission, no listed role or an unlisted user denies. */
  lemma {:induction false} EachCheckDenies(c: Caller, req: PermissionLists)
    ensures (exists i :: 0 <= i < |req.discordPerms| && req.discordPerms[i] !in c.heldPerms) ==> !HasPermission(c, req)
    ensures (|req.roles| > 0 && forall i :: 0 <= i < |req.roles| ==> req.roles[i] !in c.heldRoles) ==> !HasPermission(c, req)
    ensures (|req.users| > 0 && c.userId !in req.users) ==> !HasPermission(c, req)
    ensures (|req.discordPerms| == 0 && |req.roles| == 0 && |req.users| == 0) ==> HasPermission(c, req)
  {
    HasPermissionMeaning(c, req);
  }
}
