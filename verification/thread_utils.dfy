/**
 * The thread helpers of src/utility/helpers/threadUtils.js over the in-memory guilds:
 * lookup by id with its type check, the validated requests that create threads and
 * forum posts, and the message wrapping of `sendThreadMessage`.
 */
module ThreadUtils {
  import opened Wrappers
  import opened JsonValues
  import opened Guilds

  /** The thread channel types: public, private and announcement threads. */
  const ThreadTypes: set<int> := {PublicThread, PrivateThread, AnnouncementThread}

  /** The id resolves, in a guild that resolves, to a thread. */
  predicate IsThread(client: Client, guildId: string, threadId: string)
  {
    LookupChannel(client, guildId, threadId).Some? && LookupChannel(client, guildId, threadId).value.kind in ThreadTypes
  }

  /**
   * `getThread(guildId, threadId, { ignoreNotFound })`: missing ids throw; an unknown guild
   * or channel, or a channel that is not a thread, is `null` with `ignoreNotFound` and a
   * thrown error without it.
   */
  function GetThread(client: Client, guildId: string, threadId: string, ignoreNotFound: bool)
    : (r: Result<Option<Channel>>)
    ensures (guildId == "" || threadId == "") ==> r.Failure?
    ensures r.Success? && r.value.Some? ==>
      r.value == LookupChannel(client, guildId, threadId) && r.value.value.kind in ThreadTypes
    ensures (guildId != "" && threadId != "") ==> (r.Success? && r.value.Some? <==> IsThread(client, guildId, threadId))
    ensures (guildId != "" && threadId != "" && !IsThread(client, guildId, threadId)) ==>
      (if ignoreNotFound then r == Success(None) else r.Failure?)
  {
    if guildId == "" then Failure("Guild ID must be provided")
    else if threadId == "" then Failure("Thread ID must be provided")
    else if guildId !in client then
      (if ignoreNotFound then Success(None) else Failure("Guild with ID " + guildId + " not found"))
    else match ChannelById(client[guildId], threadId)
      case None =>
        if ignoreNotFound then Success(None)
        else Failure("Thread with ID " + threadId + " not found in guild " + client[guildId].name)
      case Some(thread) =>
        if thread.kind !in ThreadTypes then
          (if ignoreNotFound then Success(None) else Failure("Channel " + thread.name + " is not a thread"))
        else Success(Some(thread))
  }

  /** Without `ignoreNotFound`, `getThread` either throws or yields the thread. */
  lemma {:induction false} StrictGetThreadYieldsThread(client: Client, guildId: string, threadId: string)
    ensures GetThread(client, guildId, threadId, false).Success? ==> GetThread(client, guildId, threadId, false).value.Some?
    ensures GetThread(client, guildId, threadId, false).Success? <==>
      guildId != "" && threadId != "" && IsThread(client, guildId, threadId)
  {
    var r := GetThread(client, guildId, threadId, false);
    if guildId != "" && threadId != "" && !IsThread(client, guildId, threadId) {
      assert r.Failure?;
    }
  }

  /** The auto-archive durations Discord accepts, in minutes. */
  const ValidDurations: seq<int> := [60, 1440, 4320, 10080]

  /** `createThread`'s duration: the requested one when it is valid, otherwise a day (1440 minutes). */
  function AutoArchiveDuration(requested: Option<int>): (d: int)
    ensures d in ValidDurations
    ensures requested.Some? && requested.value in ValidDurations ==> d == requested.value
    ensures (requested.None? || requested.value !in ValidDurations) ==> d == 1440
  {
    if requested.Some? && requested.value != 0 && requested.value in ValidDurations then requested.value else 1440
  }

  /** The options of `createThread`; `None` is an absent property. */
  datatype ThreadOptions = ThreadOptions(name: string, message: Option<string>, private: bool,
                                         autoArchiveDuration: Option<int>, reason: Option<string>)

  /** The request Discord receives: a thread started from a message, or a new thread in the channel. */
  datatype ThreadRequest =
    | FromMessage(messageId: string, name: string, duration: int, reason: Option<string>)
    | InChannel(channelId: string, name: string, duration: int, kind: int, reason: Option<string>)

  /** Text and announcement channels are the ones that hold threads. */
  predicate HoldsThreads(client: Client, guildId: string, channelId: string)
  {
    LookupChannel(client, guildId, channelId).Some?
    && LookupChannel(client, guildId, channelId).value.kind in {GuildText, GuildAnnouncement}
  }

  /**
   * `createThread(guildId, channelId, options)`: ids and a name are required and the parent
   * must be a text or announcement channel; with a starting message the thread grows from
   * it, otherwise a new thread is created, private when asked.
   */
  function CreateThread(client: Client, guildId: string, channelId: string, o: ThreadOptions): (r: Result<ThreadRequest>)
    ensures r.Success? <==> guildId != "" && channelId != "" && o.name != "" && HoldsThreads(client, guildId, channelId)
    ensures r.Success? ==> r.value.name == o.name && r.value.duration == AutoArchiveDuration(o.autoArchiveDuration)
    ensures r.Success? ==> (r.value.FromMessage? <==> o.message.Some? && o.message.value != "")
    ensures r.Success? ==> r.value.reason == o.reason
    ensures r.Success? && r.value.FromMessage? ==> r.value.messageId == o.message.value
    ensures r.Success? && r.value.InChannel? ==>
      r.value.channelId == channelId && r.value.kind == (if o.private then PrivateThread else PublicThread)
  {
    if guildId == "" then Failure("Guild ID must be provided")
    else if channelId == "" then Failure("Channel ID must be provided")
    else if o.name == "" then Failure("Thread name must be provided")
    else if guildId !in client then Failure("Unknown Guild")
    else match ChannelById(client[guildId], channelId)
      case None => Failure("Channel with ID " + channelId + " not found")
      case Some(channel) =>
        if channel.kind !in {GuildText, GuildAnnouncement} then
          Failure("Channel " + channel.name + " does not support threads")
        else
          var duration := AutoArchiveDuration(o.autoArchiveDuration);
          if o.message.Some? && o.message.value != "" then
            Success(FromMessage(o.message.value, o.name, duration, o.reason))
          else
            Success(InChannel(channelId, o.name, duration, if o.private then PrivateThread else PublicThread, o.reason))
  }

  /** `typeof content === 'string' ? { content } : content`. */
  function MessageOptions(content: Json): (m: Json)
    ensures content.Str? ==> m.Obj? && m.fields.Keys == {"content"}
    ensures !content.Str? ==> m == content
  {
    if content.Str? then Obj(map["content" := content]) else content
  }

  /** The wrapped text is read back as the message's `content`, and wrapping twice changes nothing more. */
  lemma MessageOptionsRoundTrip(content: Json)
    ensures content.Str? ==> Prop(MessageOptions(content), "content") == content
    ensures MessageOptions(MessageOptions(content)) == MessageOptions(content)
  {
  }

  /**
   * `sendThreadMessage(guildId, threadId, content)`: the thread must resolve (`getThread`
   * without `ignoreNotFound`); it is sent the wrapped content.
   */
  function SendThreadMessage(client: Client, guildId: string, threadId: string, content: Json)
    : (r: Result<(Channel, Json)>)
    ensures r.Success? <==> guildId != "" && threadId != "" && IsThread(client, guildId, threadId)
    ensures r.Success? ==> r.value.0 == LookupChannel(client, guildId, threadId).value
    ensures r.Success? ==> r.value.1 == MessageOptions(content)
  {
    match GetThread(client, guildId, threadId, false)
    case Failure(e) => Failure(e)
    case Success(None) => Failure("Cannot read properties of null")
    case Success(Some(thread)) => Success((thread, MessageOptions(content)))
  }

  /** The options of `createForumPost`. */
  datatype ForumOptions = ForumOptions(name: string, message: Json, tags: Option<seq<string>>,
                                       autoArchiveDuration: Option<int>)

  /** The forum thread Discord is asked to create. */
  datatype ForumPost = ForumPost(forumId: string, name: string, message: Json, appliedTags: seq<string>, duration: int)

  /**
   * `createForumPost(guildId, forumId, options)`: ids, a name and a message are required and
   * the channel must be a forum; the message is wrapped like `sendThreadMessage`'s, tags
   * default to none and the duration to a day when it is absent or zero.
   */
  function CreateForumPost(client: Client, guildId: string, forumId: string, o: ForumOptions): (r: Result<ForumPost>)
    ensures r.Success? <==>
      guildId != "" && forumId != "" && o.name != "" && Truthy(o.message)
      && LookupChannel(client, guildId, forumId).Some? && LookupChannel(client, guildId, forumId).value.kind == GuildForum
    ensures r.Success? ==> r.value.name == o.name && r.value.message == MessageOptions(o.message)
    ensures r.Success? ==> r.value.appliedTags == (if o.tags.Some? then o.tags.value else [])
    ensures r.Success? && o.autoArchiveDuration.Some? && o.autoArchiveDuration.value != 0 ==>
      r.value.duration == o.autoArchiveDuration.value
    ensures r.Success? && (o.autoArchiveDuration.None? || o.autoArchiveDuration.value == 0) ==> r.value.duration == 1440
  {
    if guildId == "" then Failure("Guild ID must be provided")
    else if forumId == "" then Failure("Forum channel ID must be provided")
    else if o.name == "" then Failure("Forum post name must be provided")
    else if !Truthy(o.message) then Failure("Initial message must be provided")
    else if guildId !in client then Failure("Unknown Guild")
    else match ChannelById(client[guildId], forumId)
      case None => Failure("Channel with ID " + forumId + " not found")
      case Some(forum) =>
        if forum.kind != GuildForum then Failure("Channel " + forum.name + " is not a forum channel")
        else
          var duration := if o.autoArchiveDuration.Some? && o.autoArchiveDuration.value != 0
                          then o.autoArchiveDuration.value else 1440;
          Success(ForumPost(forumId, o.name, MessageOptions(o.message), o.tags.GetOr([]), duration))
  }

  /**
   * Forum posts do not validate the duration the way threads do: the same unsupported
   * request of 7 minutes reaches Discord for a forum post but becomes a day for a thread.
   */
  lemma ForumDurationUnchecked(client: Client, guildId: string, forumId: string, name: string, message: Json)
    requires guildId != "" && forumId != "" && name != "" && Truthy(message)
    requires LookupChannel(client, guildId, forumId).Some? && LookupChannel(client, guildId, forumId).value.kind == GuildForum
    ensures CreateForumPost(client, guildId, forumId, ForumOptions(name, message, None, Some(7))).value.duration == 7
    ensures AutoArchiveDuration(Some(7)) == 1440
  {
  }
}
