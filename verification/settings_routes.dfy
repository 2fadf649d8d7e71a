/**
 * The settings routes of the backend: theme, notifications, privacy and
 * dashboard preferences. The notification and privacy routes accept both the
 * backend's snake_case keys and the UI's camelCase keys, coerce every value
 * with Python's bool() and write only `section.<key>` and `updated_at`.
 */
module SettingsRoutes {
  import opened Wrappers
  import opened Json
  import opened BackendStore

  const Themes: seq<string> := ["light", "dark", "system"]

  datatype Section = Notifications | Privacy

  /** The keys a section accepts, snake_case first and then the UI's camelCase spellings. */
  function ValidFields(s: Section): seq<string>
  {
    match s
    case Notifications =>
      ["email", "push", "budget_alerts", "transaction_alerts", "goal_reminders",
       "investment_opportunities", "monthly_reports",
       "goalReminders", "budgetAlerts", "investmentOpportunities", "monthlyReports"]
    case Privacy =>
      ["share_analytics", "two_factor_auth", "third_party_integrations", "public_profile",
       "analyticsSharing", "twoFactorAuth", "thirdPartyIntegrations", "publicProfile"]
  }

  /** The keys stored in the section. */
  function StoredFields(s: Section): set<string>
  {
    match s
    case Notifications =>
      {"email", "push", "budget_alerts", "transaction_alerts", "goal_reminders",
       "investment_opportunities", "monthly_reports"}
    case Privacy => {"share_analytics", "two_factor_auth", "third_party_integrations", "public_profile"}
  }

  /** `field_mappings.get(key, key)`. */
  function Rename(s: Section, key: string): (k: string)
    ensures key in ValidFields(s) ==> k in StoredFields(s)
  {
    match s
    case Notifications =>
      if key == "goalReminders" then "goal_reminders"
      else if key == "budgetAlerts" then "budget_alerts"
      else if key == "investmentOpportunities" then "investment_opportunities"
      else if key == "monthlyReports" then "monthly_reports"
      else key
    case Privacy =>
      if key == "analyticsSharing" then "share_analytics"
      else if key == "twoFactorAuth" then "two_factor_auth"
      else if key == "thirdPartyIntegrations" then "third_party_integrations"
      else if key == "publicProfile" then "public_profile"
      else key
  }

  predicate Recognised(s: Section, key: string)
  {
    key in ValidFields(s)
  }

  /** Some accepted entry of the request targets key k. */
  predicate Writes(data: seq<(string, Json)>, accept: string -> bool, rename: string -> string, k: string)
  {
    exists i :: 0 <= i < |data| && accept(data[i].0) && rename(data[i].0) == k
  }

  /** Entry i of the request is the last accepted entry writing its target key. */
  predicate LastWriter(data: seq<(string, Json)>, accept: string -> bool, rename: string -> string, i: int)
  {
    && 0 <= i < |data|
    && accept(data[i].0)
    && forall j :: i < j < |data| && accept(data[j].0) ==> rename(data[j].0) != rename(data[i].0)
  }

  /**
   * `for key, value in data.items(): if key in valid: updates[rename(key)] = bool(value)`:
   * a target key is written exactly when some accepted request key maps to it,
   * and the last such request entry decides its value.
   */
  function CollectUpdates(data: seq<(string, Json)>, accept: string -> bool, rename: string -> string): (u: map<string, bool>)
    ensures forall k :: k in u <==> Writes(data, accept, rename, k)
    ensures forall i :: LastWriter(data, accept, rename, i) ==>
      rename(data[i].0) in u && u[rename(data[i].0)] == PyTruthy(data[i].1)
    decreases |data|
  {
    if data == [] then map[]
    else
      var init := data[..|data| - 1];
      var u := CollectUpdates(init, accept, rename);
      var last := data[|data| - 1];
      WritesSnoc(data, accept, rename);
      LastWriterSnoc(data, accept, rename);
      if accept(last.0) then u[rename(last.0) := PyTruthy(last.1)] else u
  }

  lemma WritesSnoc(data: seq<(string, Json)>, accept: string -> bool, rename: string -> string)
    requires data != []
    ensures forall k :: Writes(data, accept, rename, k) <==>
      Writes(data[..|data| - 1], accept, rename, k) || (accept(data[|data| - 1].0) && rename(data[|data| - 1].0) == k)
  {
    var n := |data| - 1;
    var init := data[..n];
    forall k
      ensures Writes(data, accept, rename, k) <==> Writes(init, accept, rename, k) || (accept(data[n].0) && rename(data[n].0) == k)
    {
      if Writes(data, accept, rename, k) {
        var i :| 0 <= i < |data| && accept(data[i].0) && rename(data[i].0) == k;
        if i < n {
          assert init[i] == data[i];
        }
      }
      if Writes(init, accept, rename, k) {
        var i :| 0 <= i < |init| && accept(init[i].0) && rename(init[i].0) == k;
        assert init[i] == data[i];
      }
    }
  }

  lemma LastWriterSnoc(data: seq<(string, Json)>, accept: string -> bool, rename: string -> string)
    requires data != []
    ensures forall i :: LastWriter(data, accept, rename, i) && i < |data| - 1 ==>
      LastWriter(data[..|data| - 1], accept, rename, i) && data[i] == data[..|data| - 1][i]
    ensures forall i :: LastWriter(data, accept, rename, i) && i < |data| - 1 ==>
      !(accept(data[|data| - 1].0) && rename(data[|data| - 1].0) == rename(data[i].0))
  {
  }

  /** The `$set` entries of one section: only stored keys, and the last spelling sent decides each value. */
  function SectionUpdates(s: Section, data: seq<(string, Json)>): (u: map<string, bool>)
    ensures forall k :: k in u ==> k in StoredFields(s)
    ensures forall k :: k in u <==> exists i :: 0 <= i < |data| && Recognised(s, data[i].0) && Rename(s, data[i].0) == k
  {
    CollectUpdates(data, k => Recognised(s, k), k => Rename(s, k))
  }

  /** `any(field in data for field in valid_fields)`. */
  predicate AnyRecognised(s: Section, data: seq<(string, Json)>)
  {
    exists f :: f in ValidFields(s) && HasKey(data, f)
  }

  function SuccessMessage(s: Section): string
  {
    match s
    case Notifications => "Notification settings updated successfully"
    case Privacy => "Privacy settings updated successfully"
  }

  function MissingMessage(s: Section): string
  {
    match s
    case Notifications => "At least one valid notification setting must be provided"
    case Privacy => "At least one valid privacy setting must be provided"
  }

  function SectionOf(doc: SettingsDoc, s: Section): map<string, Json>
  {
    match s
    case Notifications => doc.notifications
    case Privacy => doc.privacy
  }

  function WithSection(doc: SettingsDoc, s: Section, m: map<string, Json>): SettingsDoc
  {
    match s
    case Notifications => doc.(notifications := m)
    case Privacy => doc.(privacy := m)
  }

  /** `$set` of `section.<key>` for every update: keys not updated keep their value. */
  function ApplyUpdates(before: map<string, Json>, u: map<string, bool>): (m: map<string, Json>)
    ensures m.Keys == before.Keys + u.Keys
    ensures forall k :: k in u ==> m[k] == JBool(u[k])
    ensures forall k :: k in before && k !in u ==> m[k] == before[k]
  {
    map k | k in before.Keys + u.Keys :: if k in u then JBool(u[k]) else before[k]
  }

  /** PUT /api/settings/notifications and PUT /api/settings/privacy. */
  function UpdateSection(db: Db, uid: UserId, s: Section, data: Option<Dict>, now: int): (r: (Db, Reply))
    ensures r.1.status in {200, 400, 404}
    ensures r.1.status == 400 <==> data.None? || data.value == [] || !AnyRecognised(s, data.value)
    ensures r.1.status == 404 <==> data.Some? && data.value != [] && AnyRecognised(s, data.value) && uid !in db.settings
    ensures r.1.status != 200 ==> r.0 == db
    ensures r.1.status == 200 ==> data.Some? && uid in db.settings && uid in r.0.settings
    ensures r.1.status == 200 && data.Some? && uid in db.settings && uid in r.0.settings ==>
      var before := db.settings[uid];
      var after := r.0.settings[uid];
      var u := SectionUpdates(s, data.value);
      && r.0.users == db.users && r.0.accounts == db.accounts
      && r.0.settings.Keys == db.settings.Keys
      && (forall v :: v in db.settings && v != uid ==> r.0.settings[v] == db.settings[v])
      && after == WithSection(before, s, SectionOf(after, s)).(updatedAt := Some(now))
      && SectionOf(after, s).Keys == SectionOf(before, s).Keys + u.Keys
      && (forall k :: k in u ==> SectionOf(after, s)[k] == JBool(u[k]))
      && (forall k :: k in SectionOf(before, s) && k !in u ==> SectionOf(after, s)[k] == SectionOf(before, s)[k])
  {
    if data.None? || data.value == [] then (db, Reply(400, "No data provided"))
    else if !AnyRecognised(s, data.value) then (db, Reply(400, MissingMessage(s)))
    else if uid !in db.settings then (db, Reply(404, "Settings not found"))
    else
      var before := db.settings[uid];
      var u := SectionUpdates(s, data.value);
      var after := WithSection(before, s, ApplyUpdates(SectionOf(before, s), u)).(updatedAt := Some(now));
      var db' := db.(settings := db.settings[uid := after]);
      (db', Reply(200, if after != before then SuccessMessage(s) else "No changes made"))
  }

  /** A recognised key always produces an update, so a 200 writes at least one section key. */
  lemma RecognisedKeyWrites(s: Section, data: seq<(string, Json)>)
    requires AnyRecognised(s, data)
    ensures SectionUpdates(s, data) != map[]
  {
    var f :| f in ValidFields(s) && HasKey(data, f);
    var i :| 0 <= i < |data| && data[i].0 == f;
    assert Rename(s, data[i].0) in SectionUpdates(s, data);
  }

  /** Both spellings of a key map to the same field; the entry that comes later in the body wins. */
  lemma LaterSpellingWins()
    ensures var u := SectionUpdates(Notifications, [("goal_reminders", JBool(true)), ("goalReminders", JNum(0.0))]);
      "goal_reminders" in u && !u["goal_reminders"]
  {
    var d := [("goal_reminders", JBool(true)), ("goalReminders", JNum(0.0))];
    var accept := k => Recognised(Notifications, k);
    var rename := k => Rename(Notifications, k);
    assert accept(d[1].0);
    assert rename(d[1].0) == "goal_reminders";
    assert LastWriter(d, accept, rename, 1);
    var u := CollectUpdates(d, accept, rename);
    assert u["goal_reminders"] == PyTruthy(d[1].1);
  }

  /** The same two entries in the other order give the other value. */
  lemma LaterSpellingWinsReversed()
    ensures var u := SectionUpdates(Notifications, [("goalReminders", JNum(0.0)), ("goal_reminders", JBool(true))]);
      "goal_reminders" in u && u["goal_reminders"]
  {
    var d := [("goalReminders", JNum(0.0)), ("goal_reminders", JBool(true))];
    var accept := k => Recognised(Notifications, k);
    var rename := k => Rename(Notifications, k);
    assert accept(d[1].0);
    assert rename(d[1].0) == "goal_reminders";
    assert LastWriter(d, accept, rename, 1);
    var u := CollectUpdates(d, accept, rename);
    assert u["goal_reminders"] == PyTruthy(d[1].1);
  }

  const DashboardFields: seq<string> := ["show_accounts", "show_transactions", "show_budgets", "show_goals", "compact_view"]

  /** The dashboard `$set` entries: the five known keys that are present, values copied as sent. */
  function DashboardUpdates(data: Dict): (u: map<string, Json>)
    ensures forall k :: k in u <==> k in DashboardFields && HasKey(data, k)
    ensures forall i :: 0 <= i < |data| && data[i].0 in DashboardFields ==> data[i].0 in u && u[data[i].0] == data[i].1
  {
    forall i | 0 <= i < |data| ensures Get(data, data[i].0) == Some(data[i].1) {
      GetUnique(data, i);
    }
    map k | k in DashboardFields && HasKey(data, k) :: Get(data, k).value
  }

  /** PUT /api/settings/dashboard: no check that any known key is present. */
  function UpdateDashboard(db: Db, uid: UserId, data: Option<Dict>, now: int): (r: (Db, Reply))
    ensures r.1.status in {200, 400, 404}
    ensures r.1.status == 400 <==> data.None? || data.value == []
    ensures r.1.status == 404 <==> data.Some? && data.value != [] && uid !in db.settings
    ensures r.1.status != 200 ==> r.0 == db
    ensures r.1.status == 200 ==> data.Some? && uid in db.settings && uid in r.0.settings
    ensures r.1.status == 200 && data.Some? && uid in db.settings && uid in r.0.settings ==>
      var before := db.settings[uid];
      var after := r.0.settings[uid];
      var u := DashboardUpdates(data.value);
      && r.0.users == db.users && r.0.accounts == db.accounts
      && r.0.settings == db.settings[uid := after]
      && after == before.(dashboard := after.dashboard, updatedAt := Some(now))
      && after.dashboard.Keys == before.dashboard.Keys + u.Keys
      && (forall k :: k in u ==> after.dashboard[k] == u[k])
      && (forall k :: k in before.dashboard && k !in u ==> after.dashboard[k] == before.dashboard[k])
  {
    if data.None? || data.value == [] then (db, Reply(400, "No data provided"))
    else if uid !in db.settings then (db, Reply(404, "Settings not found"))
    else
      var before := db.settings[uid];
      var u := DashboardUpdates(data.value);
      var dash := map k | k in before.dashboard.Keys + u.Keys :: if k in u then u[k] else before.dashboard[k];
      var after := before.(dashboard := dash, updatedAt := Some(now));
      (db.(settings := db.settings[uid := after]),
       Reply(200, if after != before then "Dashboard settings updated successfully" else "No changes made"))
  }

  /** A request with only unknown keys still succeeds and only touches the timestamp. */
  lemma UnknownDashboardKeysOnlyTouchTimestamp(db: Db, uid: UserId, now: int)
    requires uid in db.settings
    ensures var r := UpdateDashboard(db, uid, Some([("theme", JStr("dark"))]), now);
      r.1.status == 200 && r.0.settings[uid] == db.settings[uid].(updatedAt := Some(now))
  {
    var before := db.settings[uid];
    var r := UpdateDashboard(db, uid, Some([("theme", JStr("dark"))]), now);
    assert DashboardUpdates([("theme", JStr("dark"))]) == map[];
    assert r.0.settings[uid].dashboard == before.dashboard;
  }

  /** PUT /api/settings/theme: only the three known themes are stored, upserting a document if needed. */
  function UpdateTheme(db: Db, uid: UserId, data: Option<Dict>, now: int): (r: (Db, Reply))
    ensures r.1.status in {200, 304, 400}
    ensures r.1.status == 400 <==>
      data.None? || !HasKey(data.value, "theme") || !(Get(data.value, "theme").value.JStr? && Get(data.value, "theme").value.s in Themes)
    ensures r.1.status == 400 ==> r.0 == db
    ensures r.1.status != 400 ==>
      var t := Get(data.value, "theme").value.s;
      && uid in r.0.settings && r.0.settings[uid].theme == Some(t) && r.0.settings[uid].updatedAt == Some(now)
      && r.0.users == db.users && r.0.accounts == db.accounts
      && r.0.settings == db.settings[uid := r.0.settings[uid]]
      && (uid in db.settings ==> r.0.settings[uid] == db.settings[uid].(theme := Some(t), updatedAt := Some(now)))
    ensures r.1.status == 304 ==> r.0 == db
  {
    if data.None? || !HasKey(data.value, "theme") then (db, Reply(400, "Theme is required"))
    else
      var theme := Get(data.value, "theme").value;
      if !(theme.JStr? && theme.s in Themes) then
        (db, Reply(400, "Invalid theme value. Must be \"light\", \"dark\", or \"system\""))
      else if uid in db.settings then
        var before := db.settings[uid];
        var after := before.(theme := Some(theme.s), updatedAt := Some(now));
        if after != before then (db.(settings := db.settings[uid := after]), Reply(200, "Theme updated successfully"))
        else (db, Reply(304, "No changes made to theme"))
      else
        var after := SettingsDoc(Some(theme.s), None, None, map[], map[], map[], Some(now));
        (db.(settings := db.settings[uid := after]), Reply(200, "Theme updated successfully"))
  }
}
