/**
 * The JSON file helpers of src/utility/helpers/file.js. The data directory is a map from
 * absolute paths to parsed file contents; reading a missing file first creates it as
 * `{}`, and `getUserData` / `updateUserData` work on the `users` object of a file.
 */
module FileHelpers {
  import opened Wrappers
  import opened JsonValues

  /** POSIX `path.isAbsolute`. */
  predicate IsAbsolute(p: string)
  {
    |p| > 0 && p[0] == '/'
  }

  /**
   * `getFullFilePath(filePath)`: an absolute path is kept as it is; a relative one is
   * resolved against the data directory (`path.resolve(baseDir, filePath)`).
   */
  function FullFilePath(baseDir: string, filePath: string): (full: string)
    ensures IsAbsolute(filePath) ==> full == filePath
    ensures !IsAbsolute(filePath) ==> |full| >= |baseDir| && full[..|baseDir|] == baseDir
    ensures !IsAbsolute(filePath) && filePath != "" ==> full[|baseDir|..] == "/" + filePath
  {
    if IsAbsolute(filePath) then filePath
    else if filePath == "" then baseDir
    else baseDir + "/" + filePath
  }

  /** Resolving a resolved path again changes nothing: the data directory is never prefixed twice. */
  lemma FullFilePathIdempotent(baseDir: string, filePath: string)
    requires IsAbsolute(baseDir)
    ensures IsAbsolute(FullFilePath(baseDir, filePath))
    ensures FullFilePath(baseDir, FullFilePath(baseDir, filePath)) == FullFilePath(baseDir, filePath)
  {
  }

  /** `ensureFileExists(full, {})`: the files, with `{}` written at `full` when nothing is there. */
  function Ensured(files: map<string, Json>, full: string): (r: map<string, Json>)
    ensures full in r
    ensures full in files ==> r == files
    ensures full !in files ==> r[full] == Obj(map[])
    ensures forall q :: q != full ==> (q in r <==> q in files) && (q in files ==> r[q] == files[q])
  {
    if full in files then files else files[full := Obj(map[])]
  }

  /** `data.users[userId]`. */
  function UserEntry(data: Json, userId: string): Json
  {
    Prop(Prop(data, "users"), userId)
  }

  /** The users of a file, with `data.users = {}` applied when it is falsy. */
  function UsersOf(data: Json): map<string, Json>
  {
    var users := Prop(data, "users");
    if users.Obj? then users.fields else map[]
  }

  /**
   * The file contents `getUserData` leaves: unchanged when the user has an entry, otherwise
   * with a shallow copy of the template stored for the user. A file that is not an object,
   * or whose `users` is a truthy non-object, cannot take the assignment and throws.
   */
  function GetUserEffect(data: Json, userId: string, template: map<string, Json>): (r: Result<Json>)
    ensures r.Failure? <==> !data.Obj? || (Truthy(Prop(data, "users")) && !Prop(data, "users").Obj?)
  {
    if !data.Obj? then Failure("Cannot create property 'users'")
    else if Truthy(Prop(data, "users")) && !Prop(data, "users").Obj? then Failure("Cannot create property on users")
    else if Truthy(UserEntry(data, userId)) then Success(data)
    else Success(Obj(data.fields["users" := Obj(UsersOf(data)[userId := Obj(template)])]))
  }

  /**
   * What `getUserData` promises: the user ends with an entry (the existing one, or a copy
   * of the template), no other user and no other property of the file changes, and the
   * file is rewritten only when the entry was missing.
   */
  lemma GetUserEffectMeaning(data: Json, userId: string, template: map<string, Json>)
    requires GetUserEffect(data, userId, template).Success?
    ensures var after := GetUserEffect(data, userId, template).value;
      && UserEntry(after, userId) == (if Truthy(UserEntry(data, userId)) then UserEntry(data, userId) else Obj(template))
      && (Truthy(UserEntry(data, userId)) <==> after == data)
      && (forall u :: u != userId && u in UsersOf(data) ==> u in UsersOf(after) && UsersOf(after)[u] == UsersOf(data)[u])
      && (forall k :: k != "users" ==> Prop(after, k) == Prop(data, k))
  {
    var after := GetUserEffect(data, userId, template).value;
    if !Truthy(UserEntry(data, userId)) {
      assert Prop(after, "users") == Obj(UsersOf(data)[userId := Obj(template)]);
      assert UserEntry(after, userId) == Obj(template);
      assert after != data by {
        assert UserEntry(after, userId) != UserEntry(data, userId);
      }
    }
  }

  /** A second `getUserData` for the same user finds the entry the first one stored, and writes nothing. */
  lemma {:induction false} GetUserEffectIdempotent(data: Json, userId: string, template: map<string, Json>)
    requires GetUserEffect(data, userId, template).Success?
    ensures var after := GetUserEffect(data, userId, template).value;
      GetUserEffect(after, userId, template) == Success(after)
  {
    GetUserEffectMeaning(data, userId, template);
  }

  /**
   * The file contents `updateUserData` writes: nothing (`None`) when the user has no entry;
   * otherwise the user's entry replaced by what the callback makes of it.
   */
  function UpdateEffect(data: Json, userId: string, update: Json -> Json): (r: Result<Option<Json>>)
    ensures r.Failure? <==> !data.Obj?
  {
    if !data.Obj? then Failure("Cannot create property 'users'")
    else if !Truthy(UserEntry(data, userId)) then Success(None)
    else Success(Some(Obj(data.fields["users" := Obj(UsersOf(data)[userId := update(UserEntry(data, userId))])])))
  }

  /** `updateUserData` changes the one user's entry and nothing else; a missing user changes nothing. */
  lemma UpdateEffectMeaning(data: Json, userId: string, update: Json -> Json)
    requires data.Obj?
    ensures UpdateEffect(data, userId, update).value.None? <==> !Truthy(UserEntry(data, userId))
    ensures UpdateEffect(data, userId, update).value.Some? ==>
      var after := UpdateEffect(data, userId, update).value.value;
      && UserEntry(after, userId) == update(UserEntry(data, userId))
      && (forall u :: u != userId && u in UsersOf(data) ==> u in UsersOf(after) && UsersOf(after)[u] == UsersOf(data)[u])
      && (forall k :: k != "users" ==> Prop(after, k) == Prop(data, k))
  {
    if Truthy(UserEntry(data, userId)) {
      var after := UpdateEffect(data, userId, update).value.value;
      assert Prop(after, "users") == Obj(UsersOf(data)[userId := update(UserEntry(data, userId))]);
    }
  }

  /** The data directory: parsed JSON files by absolute path. */
  class DataFiles {
    const baseDir: string
    var files: map<string, Json>

    constructor (baseDir: string, files: map<string, Json>)
      requires IsAbsolute(baseDir)
      ensures this.baseDir == baseDir && this.files == files
    {
      this.baseDir := baseDir;
      this.files := files;
    }

    /** `readJSON(filePath)`: the file's contents, after creating it as `{}` when missing. */
    method ReadJSON(filePath: string) returns (data: Json)
      modifies this
      ensures files == Ensured(old(files), FullFilePath(baseDir, filePath))
      ensures data == files[FullFilePath(baseDir, filePath)]
    {
      var full := FullFilePath(baseDir, filePath);
      if full !in files {
        files := files[full := Obj(map[])];
      }
      data := files[full];
    }

    /** `writeJSON(filePath, data)`: replaces the file's contents. */
    method WriteJSON(filePath: string, data: Json)
      modifies this
      ensures files == old(files)[FullFilePath(baseDir, filePath) := data]
    {
      var full := FullFilePath(baseDir, filePath);
      files := files[full := data];
    }

    /**
     * `getUserData(filePath, userId, defaultTemplate)`: the user's entry, stored from the
     * template (and the file rewritten) when missing.
     */
    method GetUserData(filePath: string, userId: string, template: map<string, Json>) returns (r: Result<Json>)
      modifies this
      ensures var full := FullFilePath(baseDir, filePath);
        var data := Ensured(old(files), full)[full];
        match GetUserEffect(data, userId, template)
        case Failure(_) => r.Failure? && files == Ensured(old(files), full)
        case Success(after) => r == Success(UserEntry(after, userId)) && files == Ensured(old(files), full)[full := after]
    {
      var data := ReadJSON(filePath);
      var original := data;
      if !data.Obj? {
        return Failure("Cannot create property 'users'");
      }
      if !Truthy(Prop(data, "users")) {
        data := Obj(data.fields["users" := Obj(map[])]);
      }
      var users := Prop(data, "users");
      if !users.Obj? {
        return Failure("Cannot create property on users");
      }
      assert users.fields == UsersOf(original);
      if !Truthy(Prop(users, userId)) {
        users := Obj(users.fields[userId := Obj(template)]);
        data := Obj(data.fields["users" := users]);
        assert data == GetUserEffect(original, userId, template).value;
        WriteJSON(filePath, data);
      } else {
        var full := FullFilePath(baseDir, filePath);
        assert files == files[full := data];
      }
      r := Success(Prop(users, userId));
    }

    /**
     * `updateUserData(filePath, userId, updateCallback)`: `false`, writing nothing, when the
     * user has no entry; otherwise the entry is updated in place, the file rewritten, `true`.
     */
    method UpdateUserData(filePath: string, userId: string, update: Json -> Json) returns (r: Result<bool>)
      modifies this
      ensures var full := FullFilePath(baseDir, filePath);
        var data := Ensured(old(files), full)[full];
        match UpdateEffect(data, userId, update)
        case Failure(_) => r.Failure? && files == Ensured(old(files), full)
        case Success(None) => r == Success(false) && files == Ensured(old(files), full)
        case Success(Some(after)) => r == Success(true) && files == Ensured(old(files), full)[full := after]
    {
      var data := ReadJSON(filePath);
      if !data.Obj? {
        return Failure("Cannot create property 'users'");
      }
      if !Truthy(Prop(data, "users")) {
        data := Obj(data.fields["users" := Obj(map[])]);
      }
      var users := Prop(data, "users");
      if !Truthy(Prop(users, userId)) {
        return Success(false);
      }
      users := Obj(users.fields[userId := update(Prop(users, userId))]);
      data := Obj(data.fields["users" := users]);
      WriteJSON(filePath, data);
      r := Success(true);
    }
  }
}
