/**
 * One tick of the reconciliation sweep in src/services/moderation/TimeoutMonitor.js:
 * every stored `users_` record whose punishment is no longer backed by a live timeout
 * is cleared to `{ evading: false, time: 0 }`. The client's guild and member caches
 * and the result of `guild.members.fetch` are given as `Guilds`.
 */
module TimeoutMonitor {
  import opened Wrappers
  import opened Strings
  import opened JsonValues
  import opened Data

  /**
   * What the client can see of one guild: the member cache and, for members not in
   * it, the members a fetch would return (a fetch of any other id fails). Each member
   * is given by `communicationDisabledUntilTimestamp`, `None` for `null`.
   */
  datatype LiveGuild = LiveGuild(cached: map<string, Option<int>>, fetchable: map<string, Option<int>>)

  type Guilds = map<string, LiveGuild>

  /** The member the sweep works with: from the cache, else from a fetch, else none. */
  function ResolveMember(g: LiveGuild, userId: string): (r: Option<Option<int>>)
    ensures r.None? <==> userId !in g.cached && userId !in g.fetchable
  {
    if userId in g.cached then Some(g.cached[userId])
    else if userId in g.fetchable then Some(g.fetchable[userId])
    else None
  }

  /** `!actualTimedOut || actualTimedOut < now`: no live timeout that is still running. */
  predicate LiveTimeoutGone(actual: Option<int>, now: int)
  {
    actual.None? || actual.value == 0 || actual.value < now
  }

  /** The ids a stored key names, when it is a `users_` key of at least three parts. */
  function KeyIds(key: string): (r: Option<(string, string)>)
    ensures r.Some? <==> StartsWith(key, "users_") && |Split(key, '_')| >= 3
  {
    if !StartsWith(key, "users_") then None
    else
      var parts := Split(key, '_');
      if |parts| < 3 then None else Some((parts[1], parts[2]))
  }

  /** Whether the stored punishment is one the sweep looks at: present, with a truthy time, not evading. */
  predicate Watched(value: Json)
  {
    var p := PunishmentOf(value);
    Truthy(p) && Truthy(Prop(p, "time")) && !Truthy(Prop(p, "evading"))
  }

  /**
   * The record one loop iteration clears for the entry `key`/`value`, or `None` when
   * it skips the entry or leaves it as it is.
   */
  function ClearTarget(key: string, value: Json, guilds: Guilds, now: int): (r: Option<Handle>)
    ensures r.Some? ==> KeyIds(key).Some? && Watched(value)
    ensures r.Some? ==> r.value == UsersHandle(KeyIds(key).value.0, KeyIds(key).value.1)
  {
    match KeyIds(key)
    case None => None
    case Some((guildId, userId)) =>
      var punishment := PunishmentOf(value);
      if !Watched(value) then None
      else if guildId !in guilds then None
      else
        match ResolveMember(guilds[guildId], userId)
        case None => None
        case Some(actual) =>
          var stillTimedOut := GreaterThan(Prop(punishment, "time"), now);
          var timeoutRemovedManually := stillTimedOut && LiveTimeoutGone(actual, now);
          if !stillTimedOut || timeoutRemovedManually then Some(UsersHandle(guildId, userId)) else None
  }

  /**
   * The clear rule. For a watched `users_` record whose member can be resolved, the
   * record is cleared exactly when its stored expiry is not in the future or the live
   * timeout is absent or already over; an unknown guild or an unresolvable member
   * never clears it.
   */
  lemma ClearRule(key: string, value: Json, guilds: Guilds, now: int)
    requires KeyIds(key).Some? && Watched(value)
    ensures var (g, u) := KeyIds(key).value;
      (g !in guilds || ResolveMember(guilds[g], u).None?) ==> ClearTarget(key, value, guilds, now).None?
    ensures var (g, u) := KeyIds(key).value;
      g in guilds && ResolveMember(guilds[g], u).Some? ==>
        (ClearTarget(key, value, guilds, now).Some? <==>
          !GreaterThan(Prop(PunishmentOf(value), "time"), now) || LiveTimeoutGone(ResolveMember(guilds[g], u).value, now))
  {
  }

  /** A key that splits into exactly three parts is cleared under its own name. */
  lemma ClearsOwnKey(key: string, value: Json, guilds: Guilds, now: int)
    requires ClearTarget(key, value, guilds, now).Some?
    requires |Split(key, '_')| == 3
    ensures ClearTarget(key, value, guilds, now).value.key == key
  {
    UsersPrefixSplit(key);
    UsersKeyRederived(key);
  }

  function TargetOf(key: string, value: Json, guilds: Guilds, now: int): (r: seq<Handle>)
    ensures |r| <= 1
  {
    match ClearTarget(key, value, guilds, now)
    case Some(h) => [h]
    case None => []
  }

  /** The records one tick clears, in the order it visits `keys`. */
  function Targets(snapshot: map<string, Json>, keys: seq<string>, guilds: Guilds, now: int): seq<Handle>
    requires forall j :: 0 <= j < |keys| ==> keys[j] in snapshot
  {
    if |keys| == 0 then []
    else
      var last := keys[|keys| - 1];
      Targets(snapshot, keys[..|keys| - 1], guilds, now) + TargetOf(last, snapshot[last], guilds, now)
  }

  /** The store after clearing the records `targets` one after the other. */
  function ClearAll(entries: map<string, Json>, targets: seq<Handle>): map<string, Json>
  {
    if |targets| == 0 then entries
    else WriteUpdate(ClearAll(entries, targets[..|targets| - 1]), targets[|targets| - 1], PunishmentUpdate(false, 0))
  }

  /**
   * After the tick every cleared record reads `{ evading: false, time: 0 }`, whatever
   * order the records were cleared in, and every stored record that was not cleared
   * is exactly as before.
   */
  lemma {:induction false} ClearAllEffect(entries: map<string, Json>, targets: seq<Handle>)
    ensures forall i :: 0 <= i < |targets| ==>
      PunishmentOf(Lookup(ClearAll(entries, targets), targets[i])) == PunishmentValue(false, 0)
    ensures forall k :: k in entries && (forall i :: 0 <= i < |targets| ==> targets[i].key != k) ==>
      k in ClearAll(entries, targets) && ClearAll(entries, targets)[k] == entries[k]
  {
    if |targets| > 0 {
      var init := targets[..|targets| - 1];
      var last := targets[|targets| - 1];
      ClearAllEffect(entries, init);
      var before := ClearAll(entries, init);
      PunishmentWrite(before, last, PunishmentValue(false, 0));
      forall i | 0 <= i < |targets|
        ensures PunishmentOf(Lookup(ClearAll(entries, targets), targets[i])) == PunishmentValue(false, 0)
      {
        if targets[i].key != last.key {
          assert i < |init| && init[i] == targets[i];
        }
      }
      forall k | k in entries && (forall i :: 0 <= i < |targets| ==> targets[i].key != k)
        ensures k in ClearAll(entries, targets) && ClearAll(entries, targets)[k] == entries[k]
      {
        assert forall i :: 0 <= i < |init| ==> init[i] == targets[i];
      }
    }
  }

  /** Only records the tick clears can change: a record it leaves alone is exactly as before. */
  lemma SweepLeavesOthers(entries: map<string, Json>, keys: seq<string>, guilds: Guilds, now: int, key: string)
    requires forall j :: 0 <= j < |keys| ==> keys[j] in entries
    requires key in entries
    requires forall i :: 0 <= i < |Targets(entries, keys, guilds, now)| ==> Targets(entries, keys, guilds, now)[i].key != key
    ensures key in ClearAll(entries, Targets(entries, keys, guilds, now))
      && ClearAll(entries, Targets(entries, keys, guilds, now))[key] == entries[key]
  {
    ClearAllEffect(entries, Targets(entries, keys, guilds, now));
  }

  /** Visiting one more key extends the targets by that key's target, if any. */
  lemma TargetsStep(snapshot: map<string, Json>, keys: seq<string>, i: nat, guilds: Guilds, now: int)
    requires i < |keys|
    requires forall j :: 0 <= j < |keys| ==> keys[j] in snapshot
    ensures Targets(snapshot, keys[..i + 1], guilds, now)
      == Targets(snapshot, keys[..i], guilds, now) + TargetOf(keys[i], snapshot[keys[i]], guilds, now)
  {
    assert keys[..i + 1][..i] == keys[..i];
  }

  /** The store after one loop iteration over the entry `key`/`value`. */
  function VisitEffect(entries: map<string, Json>, key: string, value: Json, guilds: Guilds, now: int): map<string, Json>
  {
    match ClearTarget(key, value, guilds, now)
    case Some(h) => WriteUpdate(entries, h, PunishmentUpdate(false, 0))
    case None => entries
  }

  /** Clearing the records of one more visit is that visit's effect on the store so far. */
  lemma ClearAllStep(entries: map<string, Json>, targets: seq<Handle>, key: string, value: Json, guilds: Guilds, now: int)
    ensures ClearAll(entries, targets + TargetOf(key, value, guilds, now))
      == VisitEffect(ClearAll(entries, targets), key, value, guilds, now)
  {
    var extra := TargetOf(key, value, guilds, now);
    if |extra| == 0 {
      assert targets + extra == targets;
    } else {
      assert (targets + extra)[..|targets|] == targets;
    }
  }

  /** Visiting the next listed entry takes the store from one prefix of the listing to the next. */
  lemma TickStep(snapshot: map<string, Json>, keys: seq<string>, i: nat, guilds: Guilds, now: int)
    requires i < |keys|
    requires forall j :: 0 <= j < |keys| ==> keys[j] in snapshot
    ensures ClearAll(snapshot, Targets(snapshot, keys[..i + 1], guilds, now))
      == VisitEffect(ClearAll(snapshot, Targets(snapshot, keys[..i], guilds, now)), keys[i], snapshot[keys[i]], guilds, now)
  {
    TargetsStep(snapshot, keys, i, guilds, now);
    ClearAllStep(snapshot, Targets(snapshot, keys[..i], guilds, now), keys[i], snapshot[keys[i]], guilds, now);
  }

  /** The body of the `for` loop for one listed entry; each `continue` ends the visit. */
  method Visit(db: Database, key: string, value: Json, guilds: Guilds, now: int)
    modifies db
    ensures db.entries == VisitEffect(old(db.entries), key, value, guilds, now)
  {
    if !StartsWith(key, "users_") {
      return;
    }
    var parts := Split(key, '_');
    if |parts| < 3 {
      return;
    }
    var guildId, userId := parts[1], parts[2];
    assert KeyIds(key) == Some((guildId, userId));
    var punishment := PunishmentOf(value);
    if !Truthy(punishment) || !Truthy(Prop(punishment, "time")) || Truthy(Prop(punishment, "evading")) {
      return;
    }
    if guildId !in guilds {
      return;
    }
    var guild := guilds[guildId];
    var member: Option<int>;
    if userId in guild.cached {
      member := guild.cached[userId];
    } else if userId in guild.fetchable {
      member := guild.fetchable[userId];
    } else {
      return;
    }
    var until := Prop(punishment, "time");
    var stillTimedOut := GreaterThan(until, now);
    var actualTimedOut := member;
    var timeoutRemovedManually := stillTimedOut && LiveTimeoutGone(actualTimedOut, now);
    if !stillTimedOut || timeoutRemovedManually {
      db.Update(UsersHandle(guildId, userId), PunishmentUpdate(false, 0));
    }
  }

  /**
   * One tick: `keys` is the order `db.all()` lists the stored keys, each exactly
   * once. The values examined are those of that listing; each write is an `update`
   * of the current store.
   */
  method Tick(db: Database, keys: seq<string>, guilds: Guilds, now: int)
    requires forall k :: k in db.entries <==> k in keys
    requires forall i, j :: 0 <= i < j < |keys| ==> keys[i] != keys[j]
    modifies db
    ensures db.entries == ClearAll(old(db.entries), Targets(old(db.entries), keys, guilds, now))
  {
    var allEntries := db.entries;
    assert forall j :: 0 <= j < |keys| ==> keys[j] in allEntries;
    var i := 0;
    while i < |keys|
      invariant 0 <= i <= |keys|
      invariant db.entries == ClearAll(allEntries, Targets(allEntries, keys[..i], guilds, now))
    {
      var key := keys[i];
      var value := allEntries[key];
      TickStep(allEntries, keys, i, guilds, now);
      Visit(db, key, value, guilds, now);
      i := i + 1;
    }
    assert keys[..|keys|] == keys;
  }
}
