/**
 * The access lists of src/utility/commandBuilder.js. A `CommandBuilder` carries the
 * roles, users and Discord permissions a command is restricted to, and decides access
 * by a rule of its own that differs from `hasPermission`: a listed user or a listed
 * role grants access outright.
 */
module CommandBuilding {
  import opened Permissions

  /**
   * `#checkAccess`: a whitelisted user passes; otherwise missing a listed Discord
   * permission denies; otherwise holding a listed role passes; otherwise only a command
   * with no restriction at all lets the caller through.
   */
  function CheckAccess(lists: PermissionLists, c: Caller): (granted: bool)
    ensures granted <==>
      c.userId in lists.users
      || (AllHeld(lists.discordPerms, c.heldPerms) && AnyHeld(lists.roles, c.heldRoles))
      || (|lists.users| == 0 && |lists.roles| == 0 && |lists.discordPerms| == 0)
  {
    if |lists.users| > 0 && c.userId in lists.users then true
    else if |lists.discordPerms| > 0 && !AllHeld(lists.discordPerms, c.heldPerms) then false
    else if |lists.roles| > 0 && AnyHeld(lists.roles, c.heldRoles) then true
    else |lists.users| == 0 && |lists.roles| == 0 && |lists.discordPerms| == 0
  }

  /**
   * The decision as one formula: the caller is listed, or holds every listed permission
   * and some listed role, or the command lists nothing.
   */
  lemma {:induction false} CheckAccessMeaning(lists: PermissionLists, c: Caller)
    ensures CheckAccess(lists, c) <==>
      c.userId in lists.users
      || ((forall i :: 0 <= i < |lists.discordPerms| ==> lists.discordPerms[i] in c.heldPerms)
          && exists i :: 0 <= i < |lists.roles| && lists.roles[i] in c.heldRoles)
      || (|lists.users| == 0 && |lists.roles| == 0 && |lists.discordPerms| == 0)
  {
    EveryMeansAll(lists.discordPerms, c.heldPerms);
    SomeMeansExists(lists.roles, c.heldRoles);
  }

  /**
   * A command restricted by Discord permissions alone admits nobody, not even a caller
   * holding every one of them: the role check is skipped and the default needs every
   * list empty.
   */
  lemma PermissionsOnlyDeniesAll(perms: seq<string>, c: Caller)
    requires |perms| > 0
    ensures !CheckAccess(PermissionLists([], [], perms), c)
  {
  }

  /**
   * Where the two checks agree and where they part: both admit everyone when nothing is
   * listed, and with only roles listed they coincide; a listed user passes `#checkAccess`
   * even without a listed permission that `hasPermission` would demand.
   */
  lemma {:induction false} CompareWithHasPermission(lists: PermissionLists, c: Caller)
    ensures (|lists.users| == 0 && |lists.discordPerms| == 0) ==> (CheckAccess(lists, c) <==> HasPermission(c, lists))
    ensures c.userId in lists.users ==> CheckAccess(lists, c)
    ensures (c.userId in lists.users && exists i :: 0 <= i < |lists.discordPerms| && lists.discordPerms[i] !in c.heldPerms)
      ==> CheckAccess(lists, c) && !HasPermission(c, lists)
  {
    HasPermissionMeaning(c, lists);
    CheckAccessMeaning(lists, c);
  }

  /** The builder; only the access lists are modelled, the slash-command data is not. */
  class CommandBuilder {
    var permissions: PermissionLists

    constructor ()
      ensures permissions == PermissionLists([], [], [])
    {
      permissions := PermissionLists([], [], []);
    }

    method SetRoles(roles: seq<string>) returns (self: CommandBuilder)
      modifies this
      ensures permissions == old(permissions).(roles := roles)
      ensures self == this
    {
      permissions := permissions.(roles := roles);
      self := this;
    }

    method SetUsers(users: seq<string>) returns (self: CommandBuilder)
      modifies this
      ensures permissions == old(permissions).(users := users)
      ensures self == this
    {
      permissions := permissions.(users := users);
      self := this;
    }

    method SetDiscordPermissions(perms: seq<string>) returns (self: CommandBuilder)
      modifies this
      ensures permissions == old(permissions).(discordPerms := perms)
      ensures self == this
    {
      permissions := permissions.(discordPerms := perms);
      self := this;
    }

    /** `hasAccess(interaction)`, with the early returns of `#checkAccess`. */
    method HasAccess(c: Caller) returns (allowed: bool)
      ensures allowed == CheckAccess(permissions, c)
      ensures c.userId in permissions.users ==> allowed
      ensures (c.userId !in permissions.users && exists i :: 0 <= i < |permissions.discordPerms| && permissions.discordPerms[i] !in c.heldPerms)
        ==> !allowed
    {
      var lists := permissions;
      CheckAccessMeaning(lists, c);
      EveryMeansAll(lists.discordPerms, c.heldPerms);
      if |lists.users| > 0 && c.userId in lists.users {
        return true;
      }
      if |lists.discordPerms| > 0 && !AllHeld(lists.discordPerms, c.heldPerms) {
        return false;
      }
      if |lists.roles| > 0 && AnyHeld(lists.roles, c.heldRoles) {
        return true;
      }
      allowed := |lists.users| == 0 && |lists.roles| == 0 && |lists.discordPerms| == 0;
    }
  }
}
