/**
 * Per-server settings (src/utility/serverSettings.js): each server's configuration is
 * one nested object stored under `servers_<guildId>`, read and written along
 * dot-separated paths such as `set.appeal.channel`.
 */
module ServerSettings {
  import opened Wrappers
  import opened Strings
  import opened JsonValues
  import opened Data

  /** The configuration an empty server starts from, `{ set: {} }`. */
  const EmptyConfig: Json := Obj(map["set" := Obj(map[])])

  /** `(await servers([guildId]).get()) || { set: {} }`. */
  function ServerConfig(entries: map<string, Json>, guildId: string): (config: Json)
    ensures Truthy(config)
    ensures ServersHandle(guildId).key !in entries ==> config == EmptyConfig
  {
    Or(Lookup(entries, ServersHandle(guildId)), EmptyConfig)
  }

  /**
   * The value found by following `parts` from `value`: `null` as soon as a nullish
   * value is met with parts still to follow, the property otherwise.
   */
  function Traverse(value: Json, parts: seq<string>): Json
    decreases |parts|
  {
    if |parts| == 0 then value
    else if Nullish(value) then Null
    else Traverse(Prop(value, parts[0]), parts[1..])
  }

  method GetServerConfig(db: Database, guildId: string) returns (config: Json)
    ensures config == ServerConfig(db.entries, guildId)
    ensures Truthy(config)
  {
    var stored := db.Get(ServersHandle(guildId));
    if Truthy(stored) {
      config := stored;
    } else {
      config := EmptyConfig;
    }
  }

  /** `getSetting(guildId, path)`. */
  method GetSetting(db: Database, guildId: string, path: string) returns (value: Json)
    ensures value == Traverse(ServerConfig(db.entries, guildId), Split(path, '.'))
  {
    var config := GetServerConfig(db, guildId);
    var parts := Split(path, '.');
    value := config;
    var i := 0;
    while i < |parts|
      invariant 0 <= i <= |parts|
      invariant Traverse(value, parts[i..]) == Traverse(config, parts)
    {
      if Nullish(value) {
        return Null;
      }
      assert parts[i..][1..] == parts[i + 1..];
      value := Prop(value, parts[i]);
      i := i + 1;
    }
  }

  /**
   * The walk and assignment of `updateSetting` on the configuration `target`: every
   * falsy intermediate becomes `{}`, the last part is assigned `value`. Assigning a
   * property of something that is not an object throws a TypeError in the module's
   * strict mode.
   */
  function SetPath(target: Json, parts: seq<string>, value: Json): (r: Result<Json>)
    requires |parts| >= 1
    ensures r.Success? ==> target.Obj? && r.value.Obj?
    ensures r.Success? ==> forall k :: k != parts[0] ==> Prop(r.value, k) == Prop(target, k)
    decreases |parts|
  {
    if !target.Obj? then Failure("TypeError: Cannot create property '" + parts[0] + "'")
    else if |parts| == 1 then Success(Obj(target.fields[parts[0] := value]))
    else
      var child := Prop(target, parts[0]);
      var next := if !Truthy(child) then Obj(map[]) else child;
      match SetPath(next, parts[1..], value)
      case Failure(e) => Failure(e)
      case Success(updated) => Success(Obj(target.fields[parts[0] := updated]))
  }

  /** After a successful write, reading the same path gives the value written. */
  lemma {:induction false} ReadYourWrite(target: Json, parts: seq<string>, value: Json)
    requires |parts| >= 1 && SetPath(target, parts, value).Success?
    ensures Traverse(SetPath(target, parts, value).value, parts) == value
    decreases |parts|
  {
    var r := SetPath(target, parts, value).value;
    if |parts| > 1 {
      var child := Prop(target, parts[0]);
      var next := if !Truthy(child) then Obj(map[]) else child;
      ReadYourWrite(next, parts[1..], value);
      assert Prop(r, parts[0]) == SetPath(next, parts[1..], value).value;
    }
  }

  /**
   * The write never fails when the first part is missing or falsy in an object: every
   * level below is created as `{}`.
   */
  lemma {:induction false} FreshPathSucceeds(target: Json, parts: seq<string>, value: Json)
    requires |parts| >= 1 && target.Obj? && !Truthy(Prop(target, parts[0]))
    ensures SetPath(target, parts, value).Success?
  {
    if |parts| > 1 {
      EmptyPathSucceeds(parts[1..], value);
    }
  }

  lemma {:induction false} EmptyPathSucceeds(parts: seq<string>, value: Json)
    requires |parts| >= 1
    ensures SetPath(Obj(map[]), parts, value).Success?
    decreases |parts|
  {
    if |parts| > 1 {
      EmptyPathSucceeds(parts[1..], value);
    }
  }

  /**
   * A path that leaves the written path at position `i`, below levels that already
   * existed, reads the same value before and after the write.
   */
  lemma {:induction false} OtherPathsKept(target: Json, parts: seq<string>, value: Json, q: seq<string>, i: nat)
    requires |parts| >= 1 && SetPath(target, parts, value).Success?
    requires i < |parts| && i < |q| && q[..i] == parts[..i] && q[i] != parts[i]
    requires forall j :: 0 < j <= i ==> Truthy(Traverse(target, parts[..j]))
    ensures Traverse(SetPath(target, parts, value).value, q) == Traverse(target, q)
    decreases i
  {
    var r := SetPath(target, parts, value).value;
    if i == 0 {
      assert Prop(r, q[0]) == Prop(target, q[0]);
    } else {
      var child := Prop(target, parts[0]);
      assert parts[..1] == [parts[0]];
      assert Traverse(target, parts[..1]) == Traverse(child, []);
      assert Truthy(child);
      assert q[0] == parts[0] by { assert q[..i][0] == parts[..i][0]; }
      forall j | 0 < j <= i - 1
        ensures Truthy(Traverse(child, parts[1..][..j]))
      {
        assert parts[..j + 1] == [parts[0]] + parts[1..][..j];
        assert parts[..j + 1][1..] == parts[1..][..j];
        assert Truthy(Traverse(target, parts[..j + 1]));
      }
      assert q[1..][..i - 1] == parts[1..][..i - 1];
      OtherPathsKept(child, parts[1..], value, q[1..], i - 1);
      assert Prop(r, parts[0]) == SetPath(child, parts[1..], value).value;
    }
  }

  /** The store after `updateSetting`: the configuration with the path set, or unchanged on a throw. */
  function UpdateEffect(entries: map<string, Json>, guildId: string, path: string, value: Json): map<string, Json>
  {
    match SetPath(ServerConfig(entries, guildId), Split(path, '.'), value)
    case Success(config) => entries[ServersHandle(guildId).key := config]
    case Failure(_) => entries
  }

  /** `getSetting` after a successful `updateSetting` on the same path returns the value written. */
  lemma {:induction false} SettingRoundTrip(entries: map<string, Json>, guildId: string, path: string, value: Json)
    requires SetPath(ServerConfig(entries, guildId), Split(path, '.'), value).Success?
    ensures Traverse(ServerConfig(UpdateEffect(entries, guildId, path, value), guildId), Split(path, '.')) == value
  {
    var config := SetPath(ServerConfig(entries, guildId), Split(path, '.'), value).value;
    assert ServerConfig(UpdateEffect(entries, guildId, path, value), guildId) == config;
    ReadYourWrite(ServerConfig(entries, guildId), Split(path, '.'), value);
  }

  /** `updateSetting(guildId, path, value)`: resolves to true after saving, or rejects. */
  method UpdateSetting(db: Database, guildId: string, path: string, value: Json) returns (r: Result<bool>)
    modifies db
    ensures db.entries == UpdateEffect(old(db.entries), guildId, path, value)
    ensures r.Success? <==> SetPath(ServerConfig(old(db.entries), guildId), Split(path, '.'), value).Success?
    ensures r.Success? ==> r.value
  {
    var currentData := GetServerConfig(db, guildId);
    var parts := Split(path, '.');
    var updated := SetPath(currentData, parts, value);
    if updated.Failure? {
      return Failure(updated.error);
    }
    db.Set(ServersHandle(guildId), updated.value);
    return Success(true);
  }
}
