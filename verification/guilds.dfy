/**
 * The guilds the bot's client can reach, held in memory: each guild with its roles,
 * channels and members, listed in the order Discord's collections iterate them.
 * Fetching a guild, role, channel or member by id is a lookup here, and an id that
 * is not present plays the part of Discord's "unknown ..." error.
 */
module Guilds {
  import opened Wrappers

  // Discord's channel type numbers.
  const GuildText := 0
  const GuildVoice := 2
  const GuildCategory := 4
  const GuildAnnouncement := 5
  const AnnouncementThread := 10
  const PublicThread := 11
  const PrivateThread := 12
  const GuildStageVoice := 13
  const GuildForum := 15

  datatype Role = Role(id: string, name: string, position: int, managed: bool)

  /** A channel; `canSend` says whether the channel object has a `send` method. */
  datatype Channel = Channel(id: string, name: string, kind: int, parentId: Option<string>, canSend: bool)

  /** A guild member with the roles they hold. */
  datatype Member = Member(id: string, roles: seq<Role>)

  datatype Guild = Guild(id: string, name: string, ownerId: string, roles: seq<Role>,
                         channels: seq<Channel>, members: seq<Member>)

  /** The guilds `client.guilds.fetch` resolves, by id. */
  type Client = map<string, Guild>

  /** The position of the first element satisfying `p`. */
  function FindIndex<T>(s: seq<T>, p: T -> bool): (r: Option<nat>)
    ensures r.Some? ==> r.value < |s| && p(s[r.value])
    ensures r.Some? ==> forall j :: 0 <= j < r.value ==> !p(s[j])
    ensures r.None? ==> forall j :: 0 <= j < |s| ==> !p(s[j])
  {
    if |s| == 0 then None
    else if p(s[0]) then Some(0)
    else match FindIndex(s[1..], p)
      case Some(k) => Some(k + 1)
      case None => None
  }

  /** `collection.find(p)`: the first element satisfying `p`, or nothing. */
  function Find<T(!new)>(s: seq<T>, p: T -> bool): (r: Option<T>)
    ensures r.Some? ==> r.value in s && p(r.value)
    ensures r.Some? ==> exists i :: 0 <= i < |s| && s[i] == r.value && forall j :: 0 <= j < i ==> !p(s[j])
    ensures r.None? <==> forall x :: x in s ==> !p(x)
  {
    match FindIndex(s, p)
    case Some(i) => Some(s[i])
    case None => None
  }

  /** Two predicates that agree everywhere find the same element. */
  lemma {:induction false} FindSame<T(!new)>(s: seq<T>, p: T -> bool, q: T -> bool)
    requires forall x :: p(x) == q(x)
    ensures Find(s, p) == Find(s, q)
  {
    FindIndexSame(s, p, q);
  }

  lemma {:induction false} FindIndexSame<T(!new)>(s: seq<T>, p: T -> bool, q: T -> bool)
    requires forall x :: p(x) == q(x)
    ensures FindIndex(s, p) == FindIndex(s, q)
  {
    if |s| > 0 {
      FindIndexSame(s[1..], p, q);
    }
  }

  /** `collection.filter(p)`: the elements satisfying `p`, in their order. */
  function Filter<T(!new)>(s: seq<T>, p: T -> bool): (r: seq<T>)
    ensures |r| <= |s|
    ensures forall x :: x in r <==> x in s && p(x)
  {
    if |s| == 0 then [] else (if p(s[0]) then [s[0]] else []) + Filter(s[1..], p)
  }

  /** Filtering by two predicates keeps what a filter by their conjunction keeps, in the same order. */
  lemma {:induction false} FilterTwice<T(!new)>(s: seq<T>, p: T -> bool, q: T -> bool, pq: T -> bool)
    requires forall x :: pq(x) == (p(x) && q(x))
    ensures Filter(Filter(s, p), q) == Filter(s, pq)
  {
    if |s| > 0 {
      FilterTwice(s[1..], p, q, pq);
      var head := if p(s[0]) then [s[0]] else [];
      assert Filter(s, p) == head + Filter(s[1..], p);
      FilterAppend(head, Filter(s[1..], p), q);
    }
  }

  lemma {:induction false} FilterAppend<T(!new)>(a: seq<T>, b: seq<T>, p: T -> bool)
    ensures Filter(a + b, p) == Filter(a, p) + Filter(b, p)
  {
    if |a| > 0 {
      FilterAppend(a[1..], b, p);
      assert (a + b)[1..] == a[1..] + b;
    } else {
      assert a + b == b;
    }
  }

  /** Two predicates that agree everywhere filter alike. */
  lemma {:induction false} FilterSame<T(!new)>(s: seq<T>, p: T -> bool, q: T -> bool)
    requires forall x :: p(x) == q(x)
    ensures Filter(s, p) == Filter(s, q)
  {
    if |s| > 0 {
      FilterSame(s[1..], p, q);
    }
  }

  /** A predicate that holds everywhere filters nothing out. */
  lemma {:induction false} FilterAll<T(!new)>(s: seq<T>, p: T -> bool)
    requires forall x :: p(x)
    ensures Filter(s, p) == s
  {
    if |s| > 0 {
      FilterAll(s[1..], p);
      assert [s[0]] + s[1..] == s;
    }
  }

  function RoleById(g: Guild, id: string): (r: Option<Role>)
    ensures r.Some? ==> r.value in g.roles && r.value.id == id
    ensures r.None? <==> forall x :: x in g.roles ==> x.id != id
  {
    Find(g.roles, (x: Role) => x.id == id)
  }

  function ChannelById(g: Guild, id: string): (r: Option<Channel>)
    ensures r.Some? ==> r.value in g.channels && r.value.id == id
    ensures r.None? <==> forall x :: x in g.channels ==> x.id != id
  {
    Find(g.channels, (x: Channel) => x.id == id)
  }

  function MemberById(g: Guild, id: string): (r: Option<Member>)
    ensures r.Some? ==> r.value in g.members && r.value.id == id
    ensures r.None? <==> forall x :: x in g.members ==> x.id != id
  {
    Find(g.members, (x: Member) => x.id == id)
  }

  /** `client.guilds.fetch(id)` followed by `channels.fetch(channelId)`: the channel, if both resolve. */
  function LookupChannel(client: Client, guildId: string, channelId: string): (r: Option<Channel>)
    ensures r.Some? ==> guildId in client && r.value in client[guildId].channels && r.value.id == channelId
    ensures r.None? <==> guildId !in client || forall x :: x in client[guildId].channels ==> x.id != channelId
  {
    if guildId in client then ChannelById(client[guildId], channelId) else None
  }
}
