/**
 * The category helpers of src/utility/helpers/categoryUtils.js over the in-memory
 * guilds: lookup by id with its type check, lookup by name, the channels under a
 * category, moving a channel, and the requests that create (private) categories.
 */
module CategoryUtils {
  import opened Wrappers
  import opened Strings
  import opened JsonValues
  import opened Guilds

  /** The id resolves, in a guild that resolves, to a category channel. */
  predicate IsCategory(client: Client, guildId: string, categoryId: string)
  {
    LookupChannel(client, guildId, categoryId).Some? && LookupChannel(client, guildId, categoryId).value.kind == GuildCategory
  }

  /**
   * `getCategory(guildId, categoryId, { ignoreNotFound })`: missing ids throw; an unknown
   * guild or channel, or a channel that is not a category, is `null` with `ignoreNotFound`
   * and a thrown error without it.
   */
  function GetCategory(client: Client, guildId: string, categoryId: string, ignoreNotFound: bool)
    : (r: Result<Option<Channel>>)
    ensures (guildId == "" || categoryId == "") ==> r.Failure?
    ensures r.Success? && r.value.Some? ==>
      r.value == LookupChannel(client, guildId, categoryId) && r.value.value.kind == GuildCategory
    ensures (guildId != "" && categoryId != "") ==> (r.Success? && r.value.Some? <==> IsCategory(client, guildId, categoryId))
    ensures (guildId != "" && categoryId != "" && !IsCategory(client, guildId, categoryId)) ==>
      (if ignoreNotFound then r == Success(None) else r.Failure?)
  {
    if guildId == "" then Failure("Guild ID must be provided")
    else if categoryId == "" then Failure("Category ID must be provided")
    else if guildId !in client then
      (if ignoreNotFound then Success(None) else Failure("Guild with ID " + guildId + " not found"))
    else match ChannelById(client[guildId], categoryId)
      case None =>
        if ignoreNotFound then Success(None)
        else Failure("Category with ID " + categoryId + " not found in guild " + client[guildId].name)
      case Some(category) =>
        if category.kind != GuildCategory then
          (if ignoreNotFound then Success(None) else Failure("Channel " + category.name + " is not a category"))
        else Success(Some(category))
  }

  /** `categoryExists(guildId, categoryId)`: every thrown error reads as "no". */
  function CategoryExists(client: Client, guildId: string, categoryId: string): (b: bool)
    ensures b <==> guildId != "" && categoryId != "" && IsCategory(client, guildId, categoryId)
  {
    var r := GetCategory(client, guildId, categoryId, true);
    r.Success? && r.value.Some?
  }

  /** The name test of `findCategoryByName`: case-insensitive, whole name or substring. */
  predicate CategoryNameMatches(name: string, query: string, exactMatch: bool)
  {
    if exactMatch then ToLower(name) == ToLower(query) else Contains(ToLower(name), ToLower(query))
  }

  /**
   * `findCategoryByName(guildId, categoryName, { exactMatch })`: missing arguments throw,
   * an unknown guild gives `null`; otherwise the first category channel whose name matches.
   */
  function FindCategoryByName(client: Client, guildId: string, categoryName: string, exactMatch: bool)
    : (r: Result<Option<Channel>>)
    ensures r.Failure? <==> guildId == "" || categoryName == ""
    ensures r.Success? && guildId !in client ==> r.value.None?
    ensures r.Success? && r.value.Some? ==>
      guildId in client && r.value.value in client[guildId].channels && r.value.value.kind == GuildCategory
      && CategoryNameMatches(r.value.value.name, categoryName, exactMatch)
    ensures r.Success? && r.value.None? && guildId in client ==>
      forall c :: c in client[guildId].channels && c.kind == GuildCategory ==> !CategoryNameMatches(c.name, categoryName, exactMatch)
  {
    if guildId == "" then Failure("Guild ID must be provided")
    else if categoryName == "" then Failure("Category name must be provided")
    else if guildId !in client then Success(None)
    else Success(Find(client[guildId].channels,
                      (c: Channel) => c.kind == GuildCategory && CategoryNameMatches(c.name, categoryName, exactMatch)))
  }

  /** The filter of `getChannelsInCategory`: the parent is the category, and the type matches when one is given. */
  function InCategory(categoryId: string, kind: Json): Channel -> bool
  {
    (c: Channel) => c.parentId == Some(categoryId) && (!Truthy(kind) || Num(c.kind) == kind)
  }

  /**
   * `getChannelsInCategory(guildId, categoryId, { type })`: `[]` when the category does not
   * resolve; otherwise the guild's channels under it, of the given type if one is given.
   */
  function GetChannelsInCategory(client: Client, guildId: string, categoryId: string, kind: Json)
    : (r: Result<seq<Channel>>)
    ensures r.Failure? <==> guildId == "" || categoryId == ""
    ensures r.Success? && !IsCategory(client, guildId, categoryId) ==> r.value == []
    ensures r.Success? && IsCategory(client, guildId, categoryId) ==>
      forall c :: c in r.value <==>
        c in client[guildId].channels && c.parentId == Some(categoryId) && (!Truthy(kind) || Num(c.kind) == kind)
  {
    match GetCategory(client, guildId, categoryId, true)
    case Failure(e) => Failure(e)
    case Success(None) => Success([])
    case Success(Some(_)) => Success(Filter(client[guildId].channels, InCategory(categoryId, kind)))
  }

  /**
   * Asking for the channels of type 0 (text channels) asks for none in particular: `0` is
   * falsy, so the type filter is skipped and every child channel is returned.
   */
  lemma {:induction false} TextTypeFilterSkipped(client: Client, guildId: string, categoryId: string)
    ensures GetChannelsInCategory(client, guildId, categoryId, Num(GuildText)) ==
            GetChannelsInCategory(client, guildId, categoryId, Undefined)
  {
    if guildId != "" && categoryId != "" && IsCategory(client, guildId, categoryId) {
      FilterSame(client[guildId].channels, InCategory(categoryId, Num(GuildText)), InCategory(categoryId, Undefined));
    }
  }

  /**
   * `moveChannelToCategory(guildId, channelId, categoryId)`: the channel must resolve and the
   * target must be a category (`getCategory` without `ignoreNotFound`); the channel then
   * has the category as its parent.
   */
  function MoveChannelToCategory(client: Client, guildId: string, channelId: string, categoryId: string)
    : (r: Result<Channel>)
    ensures r.Success? <==>
      LookupChannel(client, guildId, channelId).Some? && guildId != "" && categoryId != ""
      && IsCategory(client, guildId, categoryId)
    ensures r.Success? ==> r.value == LookupChannel(client, guildId, channelId).value.(parentId := Some(categoryId))
  {
    if guildId !in client then Failure("Unknown Guild")
    else match ChannelById(client[guildId], channelId)
      case None => Failure("Channel with ID " + channelId + " not found")
      case Some(channel) =>
        match GetCategory(client, guildId, categoryId, false)
        case Failure(e) => Failure(e)
        case Success(None) => Failure("Category with ID " + categoryId + " not found")
        case Success(Some(_)) => Success(channel.(parentId := Some(categoryId)))
  }

  /** A permission overwrite: the role or user it applies to and the permissions allowed and denied. */
  datatype Overwrite = Overwrite(id: string, allow: seq<string>, deny: seq<string>)

  const ViewChannel := "ViewChannel"

  /** The channel Discord is asked to create. */
  datatype CategoryRequest = CategoryRequest(guildId: string, name: string, kind: int, position: Option<int>,
                                             permissionOverwrites: seq<Overwrite>)

  /**
   * `createCategory(guildId, categoryName, { position, permissionOverwrites })`: both
   * arguments are required and the guild must resolve; overwrites default to none.
   */
  function CreateCategory(client: Client, guildId: string, categoryName: string, position: Option<int>,
                          permissionOverwrites: Option<seq<Overwrite>>): (r: Result<CategoryRequest>)
    ensures r.Success? <==> guildId != "" && categoryName != "" && guildId in client
    ensures r.Success? ==> r.value.kind == GuildCategory && r.value.name == categoryName && r.value.position == position
    ensures r.Success? && permissionOverwrites.None? ==> r.value.permissionOverwrites == []
    ensures r.Success? && permissionOverwrites.Some? ==> r.value.permissionOverwrites == permissionOverwrites.value
  {
    if guildId == "" then Failure("Guild ID must be provided")
    else if categoryName == "" then Failure("Category name must be provided")
    else if guildId !in client then Failure("Unknown Guild")
    else Success(CategoryRequest(guildId, categoryName, GuildCategory, position, permissionOverwrites.GetOr([])))
  }

  /**
   * The overwrites `createPrivateCategory` builds: @everyone (the role whose id is the
   * guild's) is denied ViewChannel, then each listed role and each listed user, in order,
   * is allowed it.
   */
  method PrivateOverwrites(everyoneId: string, allowRoleIds: seq<string>, allowUserIds: seq<string>)
    returns (overwrites: seq<Overwrite>)
    ensures |overwrites| == 1 + |allowRoleIds| + |allowUserIds|
    ensures overwrites[0] == Overwrite(everyoneId, [], [ViewChannel])
    ensures forall i :: 0 <= i < |allowRoleIds| ==> overwrites[1 + i] == Overwrite(allowRoleIds[i], [ViewChannel], [])
    ensures forall i :: 0 <= i < |allowUserIds| ==>
      overwrites[1 + |allowRoleIds| + i] == Overwrite(allowUserIds[i], [ViewChannel], [])
    ensures forall i :: 0 < i < |overwrites| ==> overwrites[i].deny == [] && overwrites[i].allow == [ViewChannel]
  {
    overwrites := [Overwrite(everyoneId, [], [ViewChannel])];
    for i := 0 to |allowRoleIds|
      invariant |overwrites| == 1 + i
      invariant overwrites[0] == Overwrite(everyoneId, [], [ViewChannel])
      invariant forall k :: 0 <= k < i ==> overwrites[1 + k] == Overwrite(allowRoleIds[k], [ViewChannel], [])
    {
      overwrites := overwrites + [Overwrite(allowRoleIds[i], [ViewChannel], [])];
    }
    for i := 0 to |allowUserIds|
      invariant |overwrites| == 1 + |allowRoleIds| + i
      invariant overwrites[0] == Overwrite(everyoneId, [], [ViewChannel])
      invariant forall k :: 0 <= k < |allowRoleIds| ==> overwrites[1 + k] == Overwrite(allowRoleIds[k], [ViewChannel], [])
      invariant forall k :: 0 <= k < i ==>
        overwrites[1 + |allowRoleIds| + k] == Overwrite(allowUserIds[k], [ViewChannel], [])
    {
      overwrites := overwrites + [Overwrite(allowUserIds[i], [ViewChannel], [])];
    }
    forall i | 0 < i < |overwrites|
      ensures overwrites[i].deny == [] && overwrites[i].allow == [ViewChannel]
    {
      if i <= |allowRoleIds| {
        assert overwrites[1 + (i - 1)] == Overwrite(allowRoleIds[i - 1], [ViewChannel], []);
      } else {
        var k := i - 1 - |allowRoleIds|;
        assert overwrites[1 + |allowRoleIds| + k] == Overwrite(allowUserIds[k], [ViewChannel], []);
      }
    }
  }

  /**
   * `createPrivateCategory(guildId, categoryName, { allowRoleIds, allowUserIds, position })`:
   * the guild must resolve; the category is created with the private overwrites.
   */
  method CreatePrivateCategory(client: Client, guildId: string, categoryName: string, position: Option<int>,
                               allowRoleIds: seq<string>, allowUserIds: seq<string>) returns (r: Result<CategoryRequest>)
    ensures r.Success? <==> guildId in client && guildId != "" && categoryName != ""
    ensures r.Success? ==> r.value.kind == GuildCategory && r.value.name == categoryName && r.value.position == position
    ensures r.Success? ==> |r.value.permissionOverwrites| == 1 + |allowRoleIds| + |allowUserIds|
    ensures r.Success? ==> r.value.permissionOverwrites[0] == Overwrite(client[guildId].id, [], [ViewChannel])
    ensures r.Success? ==> forall i :: 0 <= i < |allowRoleIds| ==>
      r.value.permissionOverwrites[1 + i] == Overwrite(allowRoleIds[i], [ViewChannel], [])
    ensures r.Success? ==> forall i :: 0 <= i < |allowUserIds| ==>
      r.value.permissionOverwrites[1 + |allowRoleIds| + i] == Overwrite(allowUserIds[i], [ViewChannel], [])
    ensures r.Success? ==> forall id :: id in allowRoleIds || id in allowUserIds ==>
      Overwrite(id, [ViewChannel], []) in r.value.permissionOverwrites
  {
    if guildId !in client {
      return Failure("Unknown Guild");
    }
    var overwrites := PrivateOverwrites(client[guildId].id, allowRoleIds, allowUserIds);
    forall id | id in allowRoleIds || id in allowUserIds
      ensures Overwrite(id, [ViewChannel], []) in overwrites
    {
      if id in allowRoleIds {
        var i :| 0 <= i < |allowRoleIds| && allowRoleIds[i] == id;
        assert overwrites[1 + i] == Overwrite(id, [ViewChannel], []);
      } else {
        var i :| 0 <= i < |allowUserIds| && allowUserIds[i] == id;
        assert overwrites[1 + |allowRoleIds| + i] == Overwrite(id, [ViewChannel], []);
      }
    }
    r := CreateCategory(client, guildId, categoryName, position, Some(overwrites));
  }
}
