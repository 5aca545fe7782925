/**
 * The channel helpers of src/utility/helpers/channelUtils.js over the in-memory guilds:
 * lookup by id with an optional type requirement, lookup by name, existence, and the
 * text-channel lookup used to send messages.
 */
module ChannelUtils {
  import opened Wrappers
  import opened Strings
  import opened JsonValues
  import opened Guilds
  import CategoryUtils

  /**
   * `getChannel(guildId, channelId, { ignoreNotFound, requiredTypes })`: missing ids throw;
   * an unknown guild or channel is `null` with `ignoreNotFound` and thrown without it; a
   * channel of a type outside a non-empty `requiredTypes` always throws.
   */
  function GetChannel(client: Client, guildId: string, channelId: string, ignoreNotFound: bool, requiredTypes: seq<int>)
    : (r: Result<Option<Channel>>)
    ensures (guildId == "" || channelId == "") ==> r.Failure?
    ensures r.Success? && r.value.Some? ==>
      r.value == LookupChannel(client, guildId, channelId) && (|requiredTypes| == 0 || r.value.value.kind in requiredTypes)
    ensures (guildId != "" && channelId != "" && LookupChannel(client, guildId, channelId).None?) ==>
      (if ignoreNotFound then r == Success(None) else r.Failure?)
    ensures (guildId != "" && channelId != "" && LookupChannel(client, guildId, channelId).Some?) ==>
      (r.Success? <==> |requiredTypes| == 0 || LookupChannel(client, guildId, channelId).value.kind in requiredTypes)
  {
    if guildId == "" then Failure("Guild ID must be provided")
    else if channelId == "" then Failure("Channel ID must be provided")
    else if guildId !in client then
      (if ignoreNotFound then Success(None) else Failure("Guild with ID " + guildId + " not found"))
    else match ChannelById(client[guildId], channelId)
      case None =>
        if ignoreNotFound then Success(None)
        else Failure("Channel with ID " + channelId + " not found in guild " + client[guildId].name)
      case Some(channel) =>
        if |requiredTypes| > 0 && channel.kind !in requiredTypes then
          Failure("Channel " + channel.name + " is not of required type")
        else Success(Some(channel))
  }

  /**
   * `ignoreNotFound` forgives a missing channel but not a channel of the wrong type, unlike
   * `getCategory`, which answers `null` for a non-category under the same option.
   */
  lemma {:induction false} WrongTypeStillThrows(client: Client, guildId: string, channelId: string, requiredTypes: seq<int>)
    requires guildId != "" && channelId != ""
    requires LookupChannel(client, guildId, channelId).Some?
    requires LookupChannel(client, guildId, channelId).value.kind != GuildCategory
    requires |requiredTypes| > 0 && LookupChannel(client, guildId, channelId).value.kind !in requiredTypes
    ensures GetChannel(client, guildId, channelId, true, requiredTypes).Failure?
    ensures CategoryUtils.GetCategory(client, guildId, channelId, true) == Success(None)
  {
    assert !CategoryUtils.IsCategory(client, guildId, channelId);
  }

  /** `channelExists(guildId, channelId)`: every thrown error reads as "no". */
  function ChannelExists(client: Client, guildId: string, channelId: string): (b: bool)
    ensures b <==> guildId != "" && channelId != "" && LookupChannel(client, guildId, channelId).Some?
  {
    var r := GetChannel(client, guildId, channelId, true, []);
    r.Success? && r.value.Some?
  }

  /** The name test of `findChannelByName`: exact names compare case-sensitively, partial ones ignore case. */
  predicate ChannelNameMatches(name: string, query: string, exactMatch: bool)
  {
    if exactMatch then name == query else Contains(ToLower(name), ToLower(query))
  }

  /** The filter of `findChannelByName`: the type when a (truthy) type is given, then the name. */
  function ChannelQuery(nameQuery: string, kind: Json, exactMatch: bool): Channel -> bool
  {
    (c: Channel) => (!Truthy(kind) || Num(c.kind) == kind) && ChannelNameMatches(c.name, nameQuery, exactMatch)
  }

  /**
   * `findChannelByName(guildId, nameQuery, { type, exactMatch })`: missing arguments throw,
   * a guild that does not resolve gives `null`; otherwise the first channel passing the query.
   */
  function FindChannelByName(client: Client, guildId: string, nameQuery: string, kind: Json, exactMatch: bool)
    : (r: Result<Option<Channel>>)
    ensures r.Failure? <==> guildId == "" || nameQuery == ""
    ensures r.Success? && guildId !in client ==> r.value.None?
    ensures r.Success? && r.value.Some? ==>
      guildId in client && r.value.value in client[guildId].channels
      && (!Truthy(kind) || Num(r.value.value.kind) == kind) && ChannelNameMatches(r.value.value.name, nameQuery, exactMatch)
    ensures r.Success? && r.value.None? && guildId in client ==>
      forall c :: c in client[guildId].channels && (!Truthy(kind) || Num(c.kind) == kind) ==>
        !ChannelNameMatches(c.name, nameQuery, exactMatch)
  {
    if guildId == "" then Failure("Guild ID must be provided")
    else if nameQuery == "" then Failure("Channel name query must be provided")
    else if guildId !in client then Success(None)
    else Success(Find(client[guildId].channels, ChannelQuery(nameQuery, kind, exactMatch)))
  }

  /** An exact channel-name match is case-sensitive, while the category lookup's is not. */
  lemma ExactMatchCaseRules(name: string, query: string)
    ensures ChannelNameMatches(name, query, true) <==> name == query
    ensures ToLower(name) == ToLower(query) ==> CategoryUtils.CategoryNameMatches(name, query, true)
    ensures ChannelNameMatches(name, query, false) == CategoryUtils.CategoryNameMatches(name, query, false)
  {
  }

  /** Looking for type 0 (text channels) filters nothing: `0` is falsy, so any type is accepted. */
  lemma {:induction false} TextTypeFilterSkipped(client: Client, guildId: string, nameQuery: string, exactMatch: bool)
    ensures FindChannelByName(client, guildId, nameQuery, Num(GuildText), exactMatch) ==
            FindChannelByName(client, guildId, nameQuery, Undefined, exactMatch)
  {
    if guildId != "" && nameQuery != "" && guildId in client {
      FindSame(client[guildId].channels, ChannelQuery(nameQuery, Num(GuildText), exactMatch),
               ChannelQuery(nameQuery, Undefined, exactMatch));
    }
  }

  /** The channel types `getTextChannel` accepts as able to receive messages. */
  const TextTypes: seq<int> := [0, 1, 2, 3, 4, 5, 10, 11, 12, 15]

  /**
   * `getTextChannel(guildId, channelId)`: the channel when it resolves, is of one of the
   * text types and can `send`; `null` when it does not resolve or cannot send. A resolved
   * channel of another type makes `getChannel` throw, and the error propagates.
   */
  function GetTextChannel(client: Client, guildId: string, channelId: string): (r: Result<Option<Channel>>)
    ensures r.Success? && r.value.Some? ==>
      r.value == LookupChannel(client, guildId, channelId) && r.value.value.kind in TextTypes && r.value.value.canSend
    ensures (guildId != "" && channelId != "" && LookupChannel(client, guildId, channelId).None?) ==> r == Success(None)
    ensures (guildId != "" && channelId != "" && LookupChannel(client, guildId, channelId).Some?) ==>
      (r.Failure? <==> LookupChannel(client, guildId, channelId).value.kind !in TextTypes)
    ensures (guildId == "" || channelId == "") ==> r.Failure?
  {
    match GetChannel(client, guildId, channelId, true, TextTypes)
    case Failure(e) => Failure(e)
    case Success(None) => Success(None)
    case Success(Some(channel)) => if channel.canSend then Success(Some(channel)) else Success(None)
  }

  /** A stage channel is not a text type: asking for it as a text channel throws rather than giving `null`. */
  lemma StageChannelThrows(client: Client, guildId: string, channelId: string)
    requires guildId != "" && channelId != ""
    requires LookupChannel(client, guildId, channelId).Some?
    requires LookupChannel(client, guildId, channelId).value.kind == GuildStageVoice
    ensures GetTextChannel(client, guildId, channelId).Failure?
  {
  }
}
