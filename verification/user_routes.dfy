/**
 * The user routes of the backend: registration, profile update and password
 * change. The new ObjectId, the clock and werkzeug's salted hashing are
 * parameters; a request body that is not a JSON object is not modelled.
 */
module UserRoutes {
  import opened Wrappers
  import opened Json
  import opened Text
  import Seqs
  import opened BackendStore

  /** `name[:2].upper()`, with ASCII case mapping. */
  function Avatar(name: string): (a: string)
    ensures |a| == if |name| < 2 then |name| else 2
    ensures forall i :: 0 <= i < |a| ==> a[i] == UpperChar(name[i])
  {
    Upper(Seqs.Take(name, 2))
  }

  /** Some stored user has exactly this email (`find_one({'email': ...})`). */
  predicate EmailTaken(db: Db, email: Json)
  {
    exists u :: u in db.users && db.users[u].email == email
  }

  /** `not data or not data.get('email') or not data.get('password') or not data.get('name')`. */
  predicate RegisterIncomplete(data: Option<Dict>)
  {
    data.None? || data.value == []
    || !PyGetTruthy(data.value, "email") || !PyGetTruthy(data.value, "password") || !PyGetTruthy(data.value, "name")
  }

  /**
   * POST /api/register. `newId` is the id MongoDB assigns, `hash` stands for
   * generate_password_hash. A name or password that is not a string makes the
   * hashing or `.upper()` raise before the try block, which Flask answers with 500.
   */
  function Register(db: Db, data: Option<Dict>, newId: UserId, hash: string -> string, now: int): (r: (Db, Reply))
    requires newId !in db.users && newId !in db.settings
    ensures r.1.status in {201, 400, 409, 500}
    ensures r.1.status == 400 <==> RegisterIncomplete(data)
    ensures r.1.status == 409 <==> !RegisterIncomplete(data) && EmailTaken(db, Get(data.value, "email").value)
    ensures r.1.status == 500 <==>
      && !RegisterIncomplete(data) && !EmailTaken(db, Get(data.value, "email").value)
      && !(Get(data.value, "name").value.JStr? && Get(data.value, "password").value.JStr?)
    ensures r.1.status != 201 ==> r.0 == db
    ensures r.1.status == 201 ==>
      && data.Some? && HasKey(data.value, "name") && HasKey(data.value, "email") && HasKey(data.value, "password")
      && var name := Get(data.value, "name").value;
      && var email := Get(data.value, "email").value;
      && var password := Get(data.value, "password").value;
      && name.JStr? && password.JStr? && name.s != []
      && r.0.users == db.users[newId := UserDoc(name.s, email, hash(password.s), StandardRole, Avatar(name.s))]
      && r.0.accounts == db.accounts + [DefaultAccount(newId)]
      && r.0.settings == db.settings[newId := DefaultSettings(now)]
  {
    if RegisterIncomplete(data) then (db, Reply(400, "Missing required fields"))
    else
      var d := data.value;
      var email := Get(d, "email").value;
      var name := Get(d, "name").value;
      var password := Get(d, "password").value;
      if EmailTaken(db, email) then (db, Reply(409, "User already exists"))
      else if !password.JStr? || !name.JStr? then (db, Reply(500, "Internal Server Error"))
      else
        var user := UserDoc(name.s, email, hash(password.s), StandardRole, Avatar(name.s));
        var db' := Db(db.users[newId := user], db.accounts + [DefaultAccount(newId)], db.settings[newId := DefaultSettings(now)]);
        (db', Reply(201, "User registered successfully"))
  }

  /** Once a registration succeeds, the same request with another id is refused as a duplicate. */
  lemma RegisterTwiceConflicts(db: Db, data: Option<Dict>, id1: UserId, id2: UserId, hash: string -> string, now: int)
    requires id1 !in db.users && id1 !in db.settings
    requires Register(db, data, id1, hash, now).1.status == 201
    requires var db1 := Register(db, data, id1, hash, now).0; id2 !in db1.users && id2 !in db1.settings
    ensures var db1 := Register(db, data, id1, hash, now).0;
      Register(db1, data, id2, hash, now).1 == Reply(409, "User already exists")
  {
    var db1 := Register(db, data, id1, hash, now).0;
    assert db1.users[id1].email == Get(data.value, "email").value;
  }

  /** The registered user carries the role and avatar derived from its name, and a cash account. */
  lemma RegisterExample(hash: string -> string)
    ensures var data := [("name", JStr("ada lovelace")), ("email", JStr("ada@example.com")), ("password", JStr("analytical"))];
      var r := Register(Db(map[], [], map[]), Some(data), "u1", hash, 0);
      && r.1.status == 201
      && r.0.users["u1"].avatar == "AD"
      && r.0.users["u1"].role == "Standard User"
      && r.0.accounts == [AccountDoc("u1", Some("Cash Account"), Some("Cash"), Some(1000.0), Some("USD"))]
  {
    var data := [("name", JStr("ada lovelace")), ("email", JStr("ada@example.com")), ("password", JStr("analytical"))];
    assert Get(data, "email") == Some(JStr("ada@example.com"));
    assert Get(data, "password") == Some(JStr("analytical"));
    assert Get(data, "name") == Some(JStr("ada lovelace"));
    assert Avatar("ada lovelace") == "AD";
  }

  /**
   * PUT /api/settings/profile for the authenticated user `uid`. Only a truthy
   * name is taken; it rewrites the avatar too. `modified_count` is zero when
   * both values were already stored, which the route answers with 304.
   */
  function UpdateProfile(db: Db, uid: UserId, data: Option<Dict>): (r: (Db, Reply))
    requires uid in db.users
    ensures r.1.status in {200, 304, 400, 500}
    ensures r.1.status == 400 <==> data.None? || data.value == [] || !PyGetTruthy(data.value, "name")
    ensures r.1.status == 500 <==> data.Some? && PyGetTruthy(data.value, "name") && !Get(data.value, "name").value.JStr?
    ensures r.1.status in {304, 400, 500} ==> r.0 == db
    ensures r.1.status in {200, 304} ==>
      && data.Some? && HasKey(data.value, "name") && Get(data.value, "name").value.JStr?
      && var name := Get(data.value, "name").value.s;
      && var after := db.users[uid].(name := name, avatar := Avatar(name));
      && (r.1.status == 200 <==> after != db.users[uid])
      && r.0 == db.(users := db.users[uid := after])
  {
    if data.None? || data.value == [] then (db, Reply(400, "No profile data provided"))
    else if !PyGetTruthy(data.value, "name") then (db, Reply(400, "No valid profile fields to update"))
    else
      var name := Get(data.value, "name").value;
      if !name.JStr? then (db, Reply(500, "Internal Server Error"))
      else
        var before := db.users[uid];
        var after := before.(name := name.s, avatar := Avatar(name.s));
        if after != before then (db.(users := db.users[uid := after]), Reply(200, "Profile updated successfully"))
        else (db, Reply(304, "No changes made to profile"))
  }

  /** Registration and a later profile update derive the avatar from the name in the same way. */
  lemma ProfileAvatarMatchesRegistration(db: Db, data: Option<Dict>, newId: UserId, hash: string -> string, now: int)
    requires newId !in db.users && newId !in db.settings
    requires Register(db, data, newId, hash, now).1.status == 201
    ensures var db1 := Register(db, data, newId, hash, now).0;
      newId in db1.users && UpdateProfile(db1, newId, data).1.status == 304
  {
  }

  /** Python `len()` of a JSON value; numbers, booleans and null have none. */
  function PyLen(v: Json): (r: Option<nat>)
    ensures r.Some? <==> v.JStr? || v.JArray? || v.JObject?
  {
    match v
    case JStr(s) => Some(|s|)
    case JArray(items) => Some(|items|)
    case JObject(entries) => Some(|entries|)
    case _ => None
  }

  predicate PasswordFieldsMissing(data: Option<Dict>)
  {
    data.None? || data.value == [] || !PyGetTruthy(data.value, "current_password") || !PyGetTruthy(data.value, "new_password")
  }

  /**
   * PUT /api/settings/password for `uid`. `verify` stands for
   * check_password_hash and `newHash` for the fresh salted hash of the new
   * password. The checks run in a fixed order: missing fields (400), wrong
   * current password (401), short new password (400). A value of the wrong
   * type makes the hashing or `len` raise, which Flask answers with 500.
   */
  function UpdatePassword(db: Db, uid: UserId, data: Option<Dict>, verify: (string, string) -> bool, newHash: string): (r: (Db, Reply))
    requires uid in db.users
    ensures r.1.status in {200, 304, 400, 401, 500}
    ensures PasswordFieldsMissing(data) ==> r.1 == Reply(400, "Current password and new password are required")
    ensures !PasswordFieldsMissing(data) ==>
      var current := Get(data.value, "current_password").value;
      var proposed := Get(data.value, "new_password").value;
      && (!current.JStr? ==> r.1.status == 500)
      && (current.JStr? && !verify(db.users[uid].passwordHash, current.s) ==> r.1 == Reply(401, "Current password is incorrect"))
      && (current.JStr? && verify(db.users[uid].passwordHash, current.s) ==>
            && (PyLen(proposed).None? ==> r.1.status == 500)
            && (PyLen(proposed).Some? && PyLen(proposed).value < 8 ==> r.1 == Reply(400, "Password must be at least 8 characters long"))
            && (PyLen(proposed).Some? && PyLen(proposed).value >= 8 && !proposed.JStr? ==> r.1.status == 500)
            && (proposed.JStr? && |proposed.s| >= 8 ==> r.1.status in {200, 304}))
    ensures r.1.status != 200 ==> r.0 == db
    ensures r.1.status == 200 ==>
      && db.users[uid].passwordHash != newHash
      && r.0 == db.(users := db.users[uid := db.users[uid].(passwordHash := newHash)])
    ensures r.1.status == 304 ==> db.users[uid].passwordHash == newHash
  {
    if PasswordFieldsMissing(data) then (db, Reply(400, "Current password and new password are required"))
    else
      var current := Get(data.value, "current_password").value;
      var proposed := Get(data.value, "new_password").value;
      if !current.JStr? then (db, Reply(500, "Internal Server Error"))
      else if !verify(db.users[uid].passwordHash, current.s) then (db, Reply(401, "Current password is incorrect"))
      else if PyLen(proposed).None? then (db, Reply(500, "Internal Server Error"))
      else if PyLen(proposed).value < 8 then (db, Reply(400, "Password must be at least 8 characters long"))
      else if !proposed.JStr? then (db, Reply(500, "Internal Server Error"))
      else
        var before := db.users[uid];
        if before.passwordHash != newHash then
          (db.(users := db.users[uid := before.(passwordHash := newHash)]), Reply(200, "Password updated successfully"))
        else (db, Reply(304, "No changes made to password"))
  }

  /** A wrong current password is reported before a too-short new one. */
  lemma WrongPasswordBeforeLength(db: Db, uid: UserId, verify: (string, string) -> bool, newHash: string)
    requires uid in db.users
    requires !verify(db.users[uid].passwordHash, "guess")
    ensures UpdatePassword(db, uid, Some([("current_password", JStr("guess")), ("new_password", JStr("short"))]), verify, newHash).1.status == 401
  {
    var d := [("current_password", JStr("guess")), ("new_password", JStr("short"))];
    assert Get(d, "current_password") == Some(JStr("guess"));
    assert Get(d, "new_password") == Some(JStr("short"));
  }

  /** With the right current password, a seven-character new password is refused and nothing is written. */
  lemma SevenCharactersRefused(db: Db, uid: UserId, verify: (string, string) -> bool, newHash: string)
    requires uid in db.users
    requires verify(db.users[uid].passwordHash, "secret")
    ensures var r := UpdatePassword(db, uid, Some([("current_password", JStr("secret")), ("new_password", JStr("1234567"))]), verify, newHash);
      r.1.status == 400 && r.0 == db
  {
    var d := [("current_password", JStr("secret")), ("new_password", JStr("1234567"))];
    assert Get(d, "current_password") == Some(JStr("secret"));
    assert Get(d, "new_password") == Some(JStr("1234567"));
  }
}
