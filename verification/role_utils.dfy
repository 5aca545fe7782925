/**
 * The role helpers of src/utility/helpers/roleUtils.js over the in-memory guilds:
 * lookup by id and by name, the edit data `modifyRole` sends, the filters of
 * `getAllRoles`, the moderation hierarchy of `canModerate` and the colour-role
 * bookkeeping of `setMemberColorRole`.
 */
module RoleUtils {
  import opened Wrappers
  import opened Strings
  import opened JsonValues
  import opened Guilds

  /** The guild resolves and holds a role with this id. */
  predicate RoleIn(client: Client, guildId: string, roleId: string)
  {
    guildId in client && RoleById(client[guildId], roleId).Some?
  }

  /**
   * `getRole(guildId, roleId, { ignoreNotFound })`: missing ids throw; an unknown guild
   * or role is `null` when `ignoreNotFound`, a thrown error otherwise.
   */
  function GetRole(client: Client, guildId: string, roleId: string, ignoreNotFound: bool): (r: Result<Option<Role>>)
    ensures (guildId == "" || roleId == "") ==> r.Failure?
    ensures r.Success? && r.value.Some? ==>
      guildId in client && r.value.value in client[guildId].roles && r.value.value.id == roleId
    ensures (guildId != "" && roleId != "" && RoleIn(client, guildId, roleId)) ==> r.Success? && r.value.Some?
    ensures (guildId != "" && roleId != "" && !RoleIn(client, guildId, roleId)) ==>
      (if ignoreNotFound then r == Success(None) else r.Failure?)
  {
    if guildId == "" then Failure("Guild ID must be provided")
    else if roleId == "" then Failure("Role ID must be provided")
    else if guildId !in client then
      (if ignoreNotFound then Success(None) else Failure("Guild with ID " + guildId + " not found"))
    else match RoleById(client[guildId], roleId)
      case Some(role) => Success(Some(role))
      case None =>
        if ignoreNotFound then Success(None)
        else Failure("Role with ID " + roleId + " not found in guild " + client[guildId].name)
  }

  /** `roleExists(guildId, roleId)`: every thrown error reads as "no". */
  function RoleExists(client: Client, guildId: string, roleId: string): (b: bool)
    ensures b <==> guildId != "" && roleId != "" && RoleIn(client, guildId, roleId)
  {
    var r := GetRole(client, guildId, roleId, true);
    r.Success? && r.value.Some?
  }

  /** The name comparison of `findRoleByName`: both sides lower-cased unless case-sensitive. */
  function Fold(s: string, caseSensitive: bool): string
  {
    if caseSensitive then s else ToLower(s)
  }

  predicate NameMatches(roleName: string, query: string, exactMatch: bool, caseSensitive: bool)
  {
    if exactMatch then Fold(roleName, caseSensitive) == Fold(query, caseSensitive)
    else Contains(Fold(roleName, caseSensitive), Fold(query, caseSensitive))
  }

  /** A partial match means the (folded) query occurs at some position of the (folded) name. */
  lemma PartialMatchMeaning(roleName: string, query: string, caseSensitive: bool)
    ensures NameMatches(roleName, query, false, caseSensitive) <==>
      exists i: nat :: OccursAt(Fold(roleName, caseSensitive), Fold(query, caseSensitive), i)
  {
    ContainsMeaning(Fold(roleName, caseSensitive), Fold(query, caseSensitive));
  }

  /** Every exact match is also a partial match, under either case rule. */
  lemma ExactIsPartial(roleName: string, query: string, caseSensitive: bool)
    requires NameMatches(roleName, query, true, caseSensitive)
    ensures NameMatches(roleName, query, false, caseSensitive)
  {
    var n := Fold(roleName, caseSensitive);
    assert n[0..|n|] == n;
    ContainsAt(n, n, 0);
  }

  /** Without `caseSensitive`, names that differ only in letter case match the same queries. */
  lemma CaseInsensitiveIgnoresCase(a: string, b: string, query: string, exactMatch: bool)
    requires ToLower(a) == ToLower(b)
    ensures NameMatches(a, query, exactMatch, false) == NameMatches(b, query, exactMatch, false)
  {
  }

  /**
   * `findRoleByName(guildId, roleName, { exactMatch, caseSensitive })`: missing arguments
   * and an unknown guild throw; otherwise the first role whose name matches, or `null`.
   */
  function FindRoleByName(client: Client, guildId: string, roleName: string, exactMatch: bool, caseSensitive: bool)
    : (r: Result<Option<Role>>)
    ensures r.Failure? <==> guildId == "" || roleName == "" || guildId !in client
    ensures r.Success? && r.value.Some? ==>
      r.value.value in client[guildId].roles && NameMatches(r.value.value.name, roleName, exactMatch, caseSensitive)
    ensures r.Success? && r.value.None? ==>
      forall x :: x in client[guildId].roles ==> !NameMatches(x.name, roleName, exactMatch, caseSensitive)
    ensures r.Success? && r.value.Some? ==>
      exists i :: 0 <= i < |client[guildId].roles| && client[guildId].roles[i] == r.value.value &&
        forall j :: 0 <= j < i ==> !NameMatches(client[guildId].roles[j].name, roleName, exactMatch, caseSensitive)
  {
    if guildId == "" then Failure("Guild ID must be provided")
    else if roleName == "" then Failure("Role name must be provided")
    else if guildId !in client then Failure("Unknown Guild")
    else Success(Find(client[guildId].roles, (x: Role) => NameMatches(x.name, roleName, exactMatch, caseSensitive)))
  }

  /** The properties `modifyRole` forwards to Discord when they are defined. */
  const EditableKeys: set<string> := {"name", "color", "hoist", "mentionable", "permissions"}

  /** The edit `modifyRole` sends: the role, the changed properties and the audit-log reason. */
  datatype RoleEdit = RoleEdit(role: Role, changes: map<string, Json>, reason: Json)

  /** `editData`: built property by property, copying only those that are not `undefined`. */
  method EditData(roleData: Json) returns (editData: map<string, Json>)
    ensures forall k :: k in editData <==> k in EditableKeys && Prop(roleData, k) != Undefined
    ensures forall k :: k in editData ==> editData[k] == Prop(roleData, k)
  {
    editData := map[];
    if Prop(roleData, "name") != Undefined {
      editData := editData["name" := Prop(roleData, "name")];
    }
    if Prop(roleData, "color") != Undefined {
      editData := editData["color" := Prop(roleData, "color")];
    }
    if Prop(roleData, "hoist") != Undefined {
      editData := editData["hoist" := Prop(roleData, "hoist")];
    }
    if Prop(roleData, "mentionable") != Undefined {
      editData := editData["mentionable" := Prop(roleData, "mentionable")];
    }
    if Prop(roleData, "permissions") != Undefined {
      editData := editData["permissions" := Prop(roleData, "permissions")];
    }
  }

  /**
   * `modifyRole(guildId, roleId, roleData)`: the role must resolve (`getRole` without
   * `ignoreNotFound`); reading `roleData.name` off a `null` or `undefined` `roleData` then
   * throws; otherwise the edit carries the defined properties and the given or default reason.
   */
  method ModifyRole(client: Client, guildId: string, roleId: string, roleData: Json) returns (r: Result<RoleEdit>)
    ensures r.Success? <==> guildId != "" && roleId != "" && RoleIn(client, guildId, roleId) && !Nullish(roleData)
    ensures r.Success? ==> r.value.role.id == roleId && r.value.role in client[guildId].roles
    ensures r.Success? ==> forall k :: k in r.value.changes <==> k in EditableKeys && Prop(roleData, k) != Undefined
    ensures r.Success? ==> forall k :: k in r.value.changes ==> r.value.changes[k] == Prop(roleData, k)
    ensures r.Success? ==> "reason" !in r.value.changes
    ensures r.Success? ==> r.value.reason == Or(Prop(roleData, "reason"), Str("Role modified via roleUtils"))
  {
    var found := GetRole(client, guildId, roleId, false);
    if found.Failure? {
      return Failure(found.error);
    }
    if found.value.None? {
      return Failure("Role with ID " + roleId + " not found");
    }
    if Nullish(roleData) {
      return Failure("Cannot read properties of " + (if roleData.Null? then "null" else "undefined") + " (reading 'name')");
    }
    var editData := EditData(roleData);
    r := Success(RoleEdit(found.value.value, editData, Or(Prop(roleData, "reason"), Str("Role modified via roleUtils"))));
  }

  /** Whether `getAllRoles` with these options keeps a role of the guild with id `guildId`. */
  predicate Kept(x: Role, guildId: string, excludeEveryone: Json, excludeManaged: Json, filter: Option<Role -> bool>)
  {
    (excludeEveryone == Bool(false) || x.id != guildId)
    && (!Truthy(excludeManaged) || !x.managed)
    && (filter.None? || filter.value(x))
  }

  /** `role => role.id !== guild.id`. */
  function NotGuildRole(guildId: string): Role -> bool
  {
    (x: Role) => x.id != guildId
  }

  /** `role => !role.managed`. */
  function Unmanaged(): Role -> bool
  {
    (x: Role) => !x.managed
  }

  /** The roles the first stage keeps. */
  function StageOne(guildId: string, excludeEveryone: Json): Role -> bool
  {
    (x: Role) => excludeEveryone == Bool(false) || x.id != guildId
  }

  /** The roles the first two stages keep. */
  function StageTwo(guildId: string, excludeEveryone: Json, excludeManaged: Json): Role -> bool
  {
    (x: Role) => (excludeEveryone == Bool(false) || x.id != guildId) && (!Truthy(excludeManaged) || !x.managed)
  }

  /** The roles all three stages keep. */
  function AllStages(guildId: string, excludeEveryone: Json, excludeManaged: Json, filter: Option<Role -> bool>): Role -> bool
  {
    (x: Role) => Kept(x, guildId, excludeEveryone, excludeManaged, filter)
  }

  lemma StageOneFilters(s: seq<Role>, guildId: string, excludeEveryone: Json)
    ensures (if excludeEveryone != Bool(false) then Filter(s, NotGuildRole(guildId)) else s)
      == Filter(s, StageOne(guildId, excludeEveryone))
  {
    if excludeEveryone == Bool(false) {
      FilterAll(s, StageOne(guildId, excludeEveryone));
    } else {
      FilterSame(s, NotGuildRole(guildId), StageOne(guildId, excludeEveryone));
    }
  }

  lemma StageTwoFilters(s: seq<Role>, guildId: string, excludeEveryone: Json, excludeManaged: Json)
    ensures (var before := Filter(s, StageOne(guildId, excludeEveryone));
             if Truthy(excludeManaged) then Filter(before, Unmanaged()) else before)
      == Filter(s, StageTwo(guildId, excludeEveryone, excludeManaged))
  {
    var before := Filter(s, StageOne(guildId, excludeEveryone));
    var second := (x: Role) => !Truthy(excludeManaged) || !x.managed;
    if Truthy(excludeManaged) {
      FilterSame(before, Unmanaged(), second);
    } else {
      FilterAll(before, second);
    }
    FilterTwice(s, StageOne(guildId, excludeEveryone), second, StageTwo(guildId, excludeEveryone, excludeManaged));
  }

  lemma StageThreeFilters(s: seq<Role>, guildId: string, excludeEveryone: Json, excludeManaged: Json,
                          filter: Option<Role -> bool>)
    ensures (var before := Filter(s, StageTwo(guildId, excludeEveryone, excludeManaged));
             if filter.Some? then Filter(before, filter.value) else before)
      == Filter(s, AllStages(guildId, excludeEveryone, excludeManaged, filter))
  {
    var before := Filter(s, StageTwo(guildId, excludeEveryone, excludeManaged));
    var third := (x: Role) => filter.None? || filter.value(x);
    if filter.Some? {
      FilterSame(before, filter.value, third);
    } else {
      FilterAll(before, third);
    }
    FilterTwice(s, StageTwo(guildId, excludeEveryone, excludeManaged), third,
                AllStages(guildId, excludeEveryone, excludeManaged, filter));
  }

  /**
   * `getAllRoles(guildId, { excludeEveryone, excludeManaged, filter })`: the guild's roles,
   * narrowed by up to three successive filters; the result keeps exactly the roles
   * `Kept` accepts, in the guild's order.
   */
  method GetAllRoles(client: Client, guildId: string, excludeEveryone: Json, excludeManaged: Json,
                     filter: Option<Role -> bool>) returns (r: Result<seq<Role>>)
    ensures r.Failure? <==> guildId !in client
    ensures r.Success? ==>
      r.value == Filter(client[guildId].roles, AllStages(client[guildId].id, excludeEveryone, excludeManaged, filter))
  {
    if guildId !in client {
      return Failure("Unknown Guild");
    }
    var g := client[guildId];
    var roles := g.roles;
    if excludeEveryone != Bool(false) {
      roles := Filter(roles, NotGuildRole(g.id));
    }
    StageOneFilters(g.roles, g.id, excludeEveryone);
    if Truthy(excludeManaged) {
      roles := Filter(roles, Unmanaged());
    }
    StageTwoFilters(g.roles, g.id, excludeEveryone, excludeManaged);
    if filter.Some? {
      roles := Filter(roles, filter.value);
    }
    StageThreeFilters(g.roles, g.id, excludeEveryone, excludeManaged, filter);
    r := Success(roles);
  }

  /** What `getAllRoles` returns: the roles of the guild that pass every requested filter, and no others. */
  lemma GetAllRolesKeeps(g: Guild, excludeEveryone: Json, excludeManaged: Json, filter: Option<Role -> bool>, x: Role)
    ensures x in Filter(g.roles, AllStages(g.id, excludeEveryone, excludeManaged, filter)) <==>
      x in g.roles && (excludeEveryone == Bool(false) || x.id != g.id)
      && (!Truthy(excludeManaged) || !x.managed) && (filter.None? || filter.value(x))
  {
  }

  /** `member.roles.highest.position`: the largest position among the member's roles (0, @everyone's, for none). */
  function HighestPosition(roles: seq<Role>): (p: int)
    ensures forall x :: x in roles ==> x.position <= p
    ensures |roles| > 0 ==> exists x :: x in roles && x.position == p
    ensures |roles| == 0 ==> p == 0
  {
    if |roles| == 0 then 0
    else if |roles| == 1 then roles[0].position
    else
      var rest := HighestPosition(roles[1..]);
      if roles[0].position >= rest then roles[0].position else rest
  }

  /**
   * `canModerate(guildId, moderatorId, targetId)`: an unknown guild or member throws;
   * nobody moderates themself or the owner; the owner moderates everyone else; otherwise
   * the strictly higher top role decides.
   */
  function CanModerate(client: Client, guildId: string, moderatorId: string, targetId: string): (r: Result<bool>)
    ensures r.Failure? <==>
      guildId !in client || MemberById(client[guildId], moderatorId).None? || MemberById(client[guildId], targetId).None?
  {
    if guildId !in client then Failure("Unknown Guild")
    else
      var g := client[guildId];
      match (MemberById(g, moderatorId), MemberById(g, targetId))
      case (None, _) => Failure("Unknown Member")
      case (_, None) => Failure("Unknown Member")
      case (Some(moderator), Some(target)) =>
        if moderatorId == targetId || targetId == g.ownerId then Success(false)
        else if moderatorId == g.ownerId then Success(true)
        else Success(HighestPosition(moderator.roles) > HighestPosition(target.roles))
  }

  /** The three rules of `canModerate`, for a guild where both members resolve. */
  lemma CanModerateRules(client: Client, guildId: string, moderatorId: string, targetId: string)
    requires guildId in client
    requires MemberById(client[guildId], moderatorId).Some? && MemberById(client[guildId], targetId).Some?
    ensures moderatorId == targetId ==> CanModerate(client, guildId, moderatorId, targetId) == Success(false)
    ensures targetId == client[guildId].ownerId ==> CanModerate(client, guildId, moderatorId, targetId) == Success(false)
    ensures (moderatorId != targetId && moderatorId == client[guildId].ownerId) ==>
      CanModerate(client, guildId, moderatorId, targetId) == Success(true)
    ensures (moderatorId != client[guildId].ownerId && targetId != client[guildId].ownerId && moderatorId != targetId) ==>
      CanModerate(client, guildId, moderatorId, targetId) ==
        Success(HighestPosition(MemberById(client[guildId], moderatorId).value.roles) >
                HighestPosition(MemberById(client[guildId], targetId).value.roles))
  {
  }

  /** Moderation never runs both ways between two members. */
  lemma CanModerateAsymmetric(client: Client, guildId: string, a: string, b: string)
    ensures !(CanModerate(client, guildId, a, b) == Success(true) && CanModerate(client, guildId, b, a) == Success(true))
  {
  }

  /** Moderation is transitive: together with asymmetry, the hierarchy is a strict order. */
  lemma CanModerateTransitive(client: Client, guildId: string, a: string, b: string, c: string)
    requires CanModerate(client, guildId, a, b) == Success(true)
    requires CanModerate(client, guildId, b, c) == Success(true)
    ensures CanModerate(client, guildId, a, c) == Success(true)
  {
  }

  /** `options.rolePrefix || 'color-'`. */
  function ColorPrefix(rolePrefix: Option<string>): (p: string)
    ensures p != ""
    ensures rolePrefix.Some? && rolePrefix.value != "" ==> p == rolePrefix.value
  {
    if rolePrefix.Some? && rolePrefix.value != "" then rolePrefix.value else "color-"
  }

  /** The colour role of a user is the prefix followed by the user's id. */
  function ColorRoleName(rolePrefix: Option<string>, userId: string): (name: string)
    ensures StartsWith(name, ColorPrefix(rolePrefix))
    ensures name[|ColorPrefix(rolePrefix)|..] == userId
  {
    ColorPrefix(rolePrefix) + userId
  }

  /** Distinct users get distinct colour roles under the same prefix. */
  lemma ColorRoleNamesDistinct(rolePrefix: Option<string>, u: string, v: string)
    requires ColorRoleName(rolePrefix, u) == ColorRoleName(rolePrefix, v)
    ensures u == v
  {
    assert u == ColorRoleName(rolePrefix, u)[|ColorPrefix(rolePrefix)|..];
  }

  /** The member's roles `setMemberColorRole` removes: those with the prefix, except the user's own colour role. */
  function OtherColorRoles(memberRoles: seq<Role>, prefix: string, existing: Option<Role>): (removed: seq<Role>)
    ensures forall x :: x in removed <==>
      x in memberRoles && StartsWith(x.name, prefix) && (existing.None? || x.id != existing.value.id)
  {
    Filter(memberRoles, (x: Role) => StartsWith(x.name, prefix) && (existing.None? || x.id != existing.value.id))
  }

  /**
   * What `setMemberColorRole` does: the roles removed, and either the reused role (edited
   * to `color`, and added when missing) or the new one's name (created with `color`).
   */
  datatype ColorPlan = ColorPlan(removed: seq<Role>, reused: Option<Role>, addReused: bool, created: Option<string>,
                                 color: Json)

  /**
   * `setMemberColorRole(guildId, userId, color, { removeOtherColorRoles, rolePrefix })`:
   * an unknown guild or member throws; the user's colour role is looked up by exact,
   * case-insensitive name; other colour roles go unless `removeOtherColorRoles === false`;
   * the found role is reused, recoloured to `color` and added if the member lacks it;
   * otherwise one is created with `color`.
   */
  function SetMemberColorRole(client: Client, guildId: string, userId: string, color: Json, rolePrefix: Option<string>,
                              removeOtherColorRoles: Json): (r: Result<ColorPlan>)
    ensures r.Failure? <==> guildId !in client || MemberById(client[guildId], userId).None? || guildId == ""
    ensures r.Success? ==> (r.value.reused.Some? <==> r.value.created.None?)
    ensures r.Success? && r.value.reused.Some? ==>
      r.value.reused.value in client[guildId].roles &&
      ToLower(r.value.reused.value.name) == ToLower(ColorRoleName(rolePrefix, userId))
    ensures r.Success? ==> r.value.created.None? || r.value.created == Some(ColorRoleName(rolePrefix, userId))
    ensures r.Success? && r.value.reused.Some? ==> r.value.reused.value !in r.value.removed
    ensures r.Success? && removeOtherColorRoles == Bool(false) ==> r.value.removed == []
    ensures r.Success? ==> forall x :: x in r.value.removed ==> StartsWith(x.name, ColorPrefix(rolePrefix))
    ensures r.Success? ==> r.value.reused == FindRoleByName(client, guildId, ColorRoleName(rolePrefix, userId), true, false).value
    ensures r.Success? && removeOtherColorRoles != Bool(false) ==>
      r.value.removed == OtherColorRoles(MemberById(client[guildId], userId).value.roles, ColorPrefix(rolePrefix), r.value.reused)
    ensures r.Success? ==>
      (r.value.addReused <==>
        (r.value.reused.Some?
         && !(exists x :: x in MemberById(client[guildId], userId).value.roles && x.id == r.value.reused.value.id)))
    ensures r.Success? ==> r.value.color == color
  {
    if guildId !in client then Failure("Unknown Guild")
    else
      var g := client[guildId];
      match MemberById(g, userId)
      case None => Failure("Unknown Member")
      case Some(member) =>
        var prefix := ColorPrefix(rolePrefix);
        var name := ColorRoleName(rolePrefix, userId);
        match FindRoleByName(client, guildId, name, true, false)
        case Failure(e) => Failure(e)
        case Success(existing) =>
          var removed := if removeOtherColorRoles != Bool(false) then OtherColorRoles(member.roles, prefix, existing) else [];
          match existing
          case Some(role) =>
            Success(ColorPlan(removed, Some(role), !(exists x :: x in member.roles && x.id == role.id), None, color))
          case None => Success(ColorPlan(removed, None, false, Some(name), color))
  }
}
