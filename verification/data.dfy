/**
 * The key-value persistence layer (src/utility/database/data.js), sqlite path.
 * `createModel(base, default)(subKeys)` yields a `Handle` naming one record by the
 * key `base_sub1_sub2...`; the `Database` holds every record in a map keyed by
 * that string and offers get/set/update/delete/has and the migration loop.
 */
module Data {
  import opened Wrappers
  import opened Strings
  import opened JsonValues

  /** `createModel(baseKey, defaultValue)`. */
  datatype ModelSpec = ModelSpec(base: string, default: Json)

  /** What the model function returns for one list of subkeys. */
  datatype Handle = Handle(key: string, docId: string, collection: string, default: Json)

  /** The stored `punishment` record `{ evading, time }`, with `time` any value. */
  function PunishmentRecord(evading: bool, time: Json): Json
  {
    Obj(map["evading" := Bool(evading), "time" := time])
  }

  /** The `punishment` record with a numeric `time`. */
  function PunishmentValue(evading: bool, time: int): Json
  {
    PunishmentRecord(evading, Num(time))
  }

  /** The single-key update `{ punishment: { evading, time } }` every handler writes. */
  function PunishmentUpdate(evading: bool, time: int): map<string, Json>
  {
    map["punishment" := PunishmentValue(evading, time)]
  }

  /** The `punishment` field of a record as `data?.punishment` reads it. */
  function PunishmentOf(record: Json): Json
  {
    Prop(record, "punishment")
  }

  /** `users = createModel("users", { punishment: { evading: false, time: 0 } })`. */
  const UsersModel := ModelSpec("users", Obj(PunishmentUpdate(false, 0)))

  /**
   * `servers`, used by the settings helpers: data.js does not export it, so it is
   * modelled as a second model whose default is `null`.
   */
  const ServersModel := ModelSpec("servers", Null)

  /** Each subkey as `join` prints it: strings print as themselves, `null` as "". */
  function KeyParts(subKeys: seq<Json>): (parts: seq<string>)
    ensures |parts| == |subKeys|
    ensures forall i :: 0 <= i < |subKeys| ==> parts[i] == ToKeyPart(subKeys[i])
    ensures forall i :: 0 <= i < |subKeys| && subKeys[i].Str? ==> parts[i] == subKeys[i].s
    ensures forall i :: 0 <= i < |subKeys| && subKeys[i].Null? ==> parts[i] == ""
  {
    seq(|subKeys|, i requires 0 <= i < |subKeys| => ToKeyPart(subKeys[i]))
  }

  predicate ValidSubKeys(subKeys: seq<Json>)
  {
    |subKeys| > 0 && forall i :: 0 <= i < |subKeys| ==> !subKeys[i].Undefined?
  }

  /**
   * `createModel(base, default)(subKeys)`: throws on an empty list or an `undefined`
   * subkey; otherwise the key is the base followed by the subkeys, joined with `_`,
   * and the document id is the subkeys alone.
   */
  function Bind(m: ModelSpec, subKeys: seq<Json>): (r: Result<Handle>)
    ensures r.Failure? <==> !ValidSubKeys(subKeys)
    ensures r.Success? ==> r.value.docId == Join(KeyParts(subKeys), '_')
    ensures r.Success? ==> r.value.key == m.base + "_" + r.value.docId
    ensures r.Success? ==> r.value.collection == m.base && r.value.default == m.default
  {
    if !ValidSubKeys(subKeys) then
      Failure("[DB] Invalid subkeys for model '" + m.base + "'")
    else
      var parts := KeyParts(subKeys);
      assert Join([m.base] + parts, '_') == m.base + "_" + Join(parts, '_') by {
        assert ([m.base] + parts)[1..] == parts;
      }
      Success(Handle(Join([m.base] + parts, '_'), Join(parts, '_'), m.base, m.default))
  }

  /** `users([guildId, userId])`, which never throws for string ids. */
  function UsersHandle(guildId: string, userId: string): (h: Handle)
    ensures h.key == "users_" + guildId + "_" + userId
    ensures h.default == UsersModel.default
  {
    var r := Bind(UsersModel, [Str(guildId), Str(userId)]);
    assert KeyParts([Str(guildId), Str(userId)]) == [guildId, userId];
    assert Join([guildId, userId], '_') == guildId + "_" + userId by {
      assert [guildId, userId][1..] == [userId];
    }
    r.value
  }

  /** `servers([guildId])`. */
  function ServersHandle(guildId: string): (h: Handle)
    ensures h.key == "servers_" + guildId
    ensures h.default == Null
  {
    var r := Bind(ServersModel, [Str(guildId)]);
    assert KeyParts([Str(guildId)]) == [guildId];
    r.value
  }

  /** Splitting a users key on `_` recovers the ids when they contain no `_`. */
  lemma UsersKeySplits(guildId: string, userId: string)
    requires '_' !in guildId && '_' !in userId
    ensures Split(UsersHandle(guildId, userId).key, '_') == ["users", guildId, userId]
  {
    var parts := ["users", guildId, userId];
    assert Join(parts, '_') == "users_" + guildId + "_" + userId by {
      assert parts[1..] == [guildId, userId];
      assert [guildId, userId][1..] == [userId];
      assert Join([guildId, userId], '_') == guildId + "_" + userId;
      assert Join(parts, '_') == "users" + "_" + (guildId + "_" + userId);
    }
    SplitJoin(parts, '_');
  }

  /** A stored key that splits into exactly `users`, g and u is the key `users([g, u])` derives. */
  lemma UsersKeyRederived(key: string)
    requires |Split(key, '_')| == 3 && Split(key, '_')[0] == "users"
    ensures key == UsersHandle(Split(key, '_')[1], Split(key, '_')[2]).key
  {
    var parts := Split(key, '_');
    JoinSplit(key, '_');
    assert parts[1..] == [parts[1], parts[2]];
    assert parts[1..][1..] == [parts[2]];
    assert Join(parts[1..], '_') == parts[1] + "_" + parts[2];
    assert key == "users" + "_" + (parts[1] + "_" + parts[2]);
  }

  /** A key that starts with `users_` splits into `users` followed by the rest. */
  lemma UsersPrefixSplit(key: string)
    requires StartsWith(key, "users_")
    ensures Split(key, '_')[0] == "users"
  {
    SplitAtPrefix(key, "users", '_');
  }

  /** `model.get()`: the stored value, or the default when it is absent or nullish. */
  function Lookup(entries: map<string, Json>, h: Handle): (v: Json)
    ensures h.key !in entries ==> v == h.default
    ensures h.key in entries && !Nullish(entries[h.key]) ==> v == entries[h.key]
  {
    if h.key in entries then Coalesce(entries[h.key], h.default) else h.default
  }

  /** The record `model.update(updates)` writes: the updates merged over `(await get()) ?? {}`. */
  function Updated(entries: map<string, Json>, h: Handle, updates: map<string, Json>): Json
  {
    Merge(Coalesce(Lookup(entries, h), Obj(map[])), updates)
  }

  /** The whole store after `model.update(updates)` on the record `h` names. */
  function WriteUpdate(entries: map<string, Json>, h: Handle, updates: map<string, Json>): map<string, Json>
  {
    entries[h.key := Updated(entries, h, updates)]
  }

  /**
   * Writing `{ punishment: p }` sets exactly the `punishment` field of that one record:
   * `get` then sees `p` as the punishment, every other top-level field of the record
   * keeps its value and every other record is untouched.
   */
  lemma PunishmentWrite(entries: map<string, Json>, h: Handle, p: Json)
    ensures PunishmentOf(Lookup(WriteUpdate(entries, h, map["punishment" := p]), h)) == p
    ensures forall f :: f != "punishment" ==>
      Prop(Lookup(WriteUpdate(entries, h, map["punishment" := p]), h), f) == Prop(Coalesce(Lookup(entries, h), Obj(map[])), f)
    ensures forall k :: k in entries && k != h.key ==> WriteUpdate(entries, h, map["punishment" := p])[k] == entries[k]
  {
  }

  /**
   * `update` is a shallow merge: supplied top-level keys are replaced wholesale,
   * every other top-level key of the current record is kept.
   */
  lemma UpdateIsShallowMerge(entries: map<string, Json>, h: Handle, updates: map<string, Json>, k: string)
    requires h.key in entries && entries[h.key].Obj?
    ensures k in updates ==> Prop(Updated(entries, h, updates), k) == updates[k]
    ensures k !in updates ==> Prop(Updated(entries, h, updates), k) == Prop(entries[h.key], k)
  {
  }

  /** `update` on an absent users record merges into the users default. */
  lemma UpdateAbsentUsesDefault(entries: map<string, Json>, g: string, u: string, updates: map<string, Json>)
    requires UsersHandle(g, u).key !in entries
    ensures Updated(entries, UsersHandle(g, u), updates) == Obj(PunishmentUpdate(false, 0) + updates)
  {
  }

  /** After `delete`, `has` is false and `get` returns the default. */
  lemma DeleteRestoresDefault(entries: map<string, Json>, h: Handle)
    ensures Lookup(entries - {h.key}, h) == h.default
    ensures !(h.key in entries - {h.key})
  {
  }

  /** The result of one migration step: whether it changed the record, and the record. */
  datatype MigrationResult = MigrationResult(modified: bool, data: Json)

  type Migration = Json -> MigrationResult

  /**
   * Runs the remaining migrations in order on `current`; each one sees the data the
   * last modifying migration returned. The flag tells whether any migration modified it.
   */
  function Migrate(current: Json, updated: bool, migrations: seq<Migration>): (r: (Json, bool))
    ensures updated ==> r.1
    decreases |migrations|
  {
    if |migrations| == 0 then (current, updated)
    else
      var res := migrations[0](current);
      Migrate(if res.modified then res.data else current, updated || res.modified, migrations[1..])
  }

  /**
   * One more migration at the end of the list runs on what the others left: it sees
   * their data, replaces it only when it reports a modification, and can only set the flag.
   */
  lemma {:induction false} MigrateStep(current: Json, updated: bool, migrations: seq<Migration>, m: Migration)
    ensures var (data, flag) := Migrate(current, updated, migrations);
            var res := m(data);
            Migrate(current, updated, migrations + [m])
              == (if res.modified then res.data else data, flag || res.modified)
    decreases |migrations|
  {
    if |migrations| > 0 {
      var res := migrations[0](current);
      assert (migrations + [m])[0] == migrations[0];
      assert (migrations + [m])[1..] == migrations[1..] + [m];
      MigrateStep(if res.modified then res.data else current, updated || res.modified, migrations[1..], m);
    }
  }

  /** When no migration reports a modification, the record is not written. */
  lemma {:induction false} UnmodifiedMeansNoWrite(current: Json, migrations: seq<Migration>)
    requires forall j :: 0 <= j < |migrations| ==> !migrations[j](current).modified
    ensures Migrate(current, false, migrations) == (current, false)
  {
    if |migrations| > 0 {
      assert !migrations[0](current).modified;
      UnmodifiedMeansNoWrite(current, migrations[1..]);
    }
  }

  /** The migrations see the stored value as the shallow copy `{ ...value }`. */
  function Migrated(value: Json, migrations: seq<Migration>): (Json, bool)
  {
    Migrate(Obj(Spread(value)), false, migrations)
  }

  predicate IsUsersKey(key: string)
  {
    StartsWith(key, "users_")
  }

  /** Whether the migration loop writes the entry stored under `key`. */
  predicate Rewritten(entries: map<string, Json>, key: string, migrations: seq<Migration>)
  {
    key in entries && IsUsersKey(key) && Migrated(entries[key], migrations).1
  }

  /** The store after the migration loop has visited the keys in `visited`. */
  function MigratedEntries(entries: map<string, Json>, visited: seq<string>, migrations: seq<Migration>): (r: map<string, Json>)
    ensures r.Keys == entries.Keys
    ensures forall k :: k in entries && !(k in visited && Rewritten(entries, k, migrations)) ==> r[k] == entries[k]
  {
    map k | k in entries :: if k in visited && Rewritten(entries, k, migrations) then Migrated(entries[k], migrations).0 else entries[k]
  }

  /** How many of the visited keys the migration loop rewrote. */
  function CountRewritten(entries: map<string, Json>, visited: seq<string>, migrations: seq<Migration>): (n: nat)
    ensures n <= |visited|
  {
    if |visited| == 0 then 0
    else
      CountRewritten(entries, visited[..|visited| - 1], migrations)
      + (if Rewritten(entries, visited[|visited| - 1], migrations) then 1 else 0)
  }

  /** Visiting one more key changes at most that key's entry and adds at most one to the count. */
  lemma MigrationStep(entries: map<string, Json>, keys: seq<string>, i: nat, migrations: seq<Migration>)
    requires i < |keys| && keys[i] in entries
    requires forall a, b :: 0 <= a < b < |keys| ==> keys[a] != keys[b]
    ensures MigratedEntries(entries, keys[..i], migrations)[keys[i]] == entries[keys[i]]
    ensures MigratedEntries(entries, keys[..i + 1], migrations)
      == MigratedEntries(entries, keys[..i], migrations)[keys[i] :=
           if Rewritten(entries, keys[i], migrations) then Migrated(entries[keys[i]], migrations).0 else entries[keys[i]]]
    ensures CountRewritten(entries, keys[..i + 1], migrations)
      == CountRewritten(entries, keys[..i], migrations) + (if Rewritten(entries, keys[i], migrations) then 1 else 0)
  {
    assert keys[..i + 1][..i] == keys[..i];
    assert keys[i] !in keys[..i];
    assert forall k :: k in keys[..i + 1] <==> k in keys[..i] || k == keys[i];
  }

  class Database {
    var entries: map<string, Json>

    constructor ()
      ensures entries == map[]
    {
      entries := map[];
    }

    method Get(h: Handle) returns (v: Json)
      ensures v == Lookup(entries, h)
    {
      if h.key in entries && !Nullish(entries[h.key]) {
        v := entries[h.key];
      } else {
        v := h.default;
      }
    }

    method Set(h: Handle, value: Json)
      modifies this
      ensures entries == old(entries)[h.key := value]
    {
      entries := entries[h.key := value];
    }

    method Update(h: Handle, updates: map<string, Json>)
      modifies this
      ensures entries == WriteUpdate(old(entries), h, updates)
    {
      var current := Get(h);
      if Nullish(current) {
        current := Obj(map[]);
      }
      entries := entries[h.key := Merge(current, updates)];
    }

    method Delete(h: Handle)
      modifies this
      ensures entries == old(entries) - {h.key}
    {
      entries := entries - {h.key};
    }

    method Has(h: Handle) returns (present: bool)
      ensures present <==> h.key in entries && !Nullish(entries[h.key])
    {
      present := h.key in entries && !Nullish(entries[h.key]);
    }

    /** The inner loop of `migrateData`: every migration in turn on `{ ...value }`. */
    static method RunMigrations(value: Json, migrations: seq<Migration>) returns (data: Json, updated: bool)
      ensures (data, updated) == Migrated(value, migrations)
    {
      updated := false;
      data := Obj(Spread(value));
      var j := 0;
      while j < |migrations|
        invariant 0 <= j <= |migrations|
        invariant Migrate(data, updated, migrations[j..]) == Migrated(value, migrations)
      {
        var result := migrations[j](data);
        if result.modified {
          data := result.data;
          updated := true;
        }
        assert migrations[j..][1..] == migrations[j + 1..];
        j := j + 1;
      }
    }

    /**
     * `migrateData(migrations)`: `keys` is the enumeration `db.all()` yields, every
     * stored key exactly once. Only `users_` records are considered; a record is
     * written only when some migration modified it; the result counts those writes.
     */
    method MigrateData(keys: seq<string>, migrations: seq<Migration>) returns (totalMigrated: nat)
      requires forall k :: k in entries <==> k in keys
      requires forall i, j :: 0 <= i < j < |keys| ==> keys[i] != keys[j]
      modifies this
      ensures entries == MigratedEntries(old(entries), keys, migrations)
      ensures totalMigrated == CountRewritten(old(entries), keys, migrations)
    {
      ghost var original := entries;
      totalMigrated := 0;
      var i := 0;
      while i < |keys|
        invariant 0 <= i <= |keys|
        invariant entries == MigratedEntries(original, keys[..i], migrations)
        invariant totalMigrated == CountRewritten(original, keys[..i], migrations)
      {
        var key := keys[i];
        MigrationStep(original, keys, i, migrations);
        if IsUsersKey(key) {
          var currentValue, updated := RunMigrations(entries[key], migrations);
          if updated {
            entries := entries[key := currentValue];
            totalMigrated := totalMigrated + 1;
          }
        }
        i := i + 1;
      }
      assert keys[..|keys|] == keys;
    }
  }
}
