/**
 * The backend's MongoDB collections as in-memory values, the documents they
 * hold and the (status, message) pair every route answers with. Documents are
 * keyed by the owning user's id; ObjectId generation, timestamps and password
 * hashing happen outside the model and arrive as parameters.
 */
module BackendStore {
  import opened Wrappers
  import opened Json
  import opened Text

  type UserId = string

  datatype UserDoc = UserDoc(name: string, email: Json, passwordHash: string, role: string, avatar: string)

  /** An account document; `None` fields are absent from the document. */
  datatype AccountDoc = AccountDoc(userId: UserId, name: Option<string>, kind: Option<string>, balance: Option<real>, currency: Option<string>)

  /** A settings document; `None` fields are absent from the document. */
  datatype SettingsDoc = SettingsDoc(
    theme: Option<string>,
    currency: Option<string>,
    language: Option<string>,
    notifications: map<string, Json>,
    privacy: map<string, Json>,
    dashboard: map<string, Json>,
    updatedAt: Option<int>)

  datatype Db = Db(users: map<UserId, UserDoc>, accounts: seq<AccountDoc>, settings: map<UserId, SettingsDoc>)

  datatype Reply = Reply(status: int, message: string)

  const StandardRole := "Standard User"

  /** The settings document a new user starts with. */
  function DefaultSettings(now: int): SettingsDoc
  {
    SettingsDoc(
      Some("light"), Some("USD"), Some("English"),
      map["email" := JBool(true), "push" := JBool(true), "budget_alerts" := JBool(true),
          "transaction_alerts" := JBool(true), "goal_reminders" := JBool(true),
          "investment_opportunities" := JBool(false), "monthly_reports" := JBool(true)],
      map["share_analytics" := JBool(false), "two_factor_auth" := JBool(false),
          "third_party_integrations" := JBool(false), "public_profile" := JBool(false)],
      map["show_accounts" := JBool(true), "show_transactions" := JBool(true), "show_budgets" := JBool(true),
          "show_goals" := JBool(true), "compact_view" := JBool(false)],
      Some(now))
  }

  /** The cash account every new user gets. */
  function DefaultAccount(uid: UserId): AccountDoc
  {
    AccountDoc(uid, Some("Cash Account"), Some("Cash"), Some(1000.0), Some("USD"))
  }

  /**
   * The token the `token_required` decorator reads: the second space-separated
   * piece of the Authorization header. A missing or empty header is refused
   * with 'Token is missing'; a header without a space fails the lookup, which
   * the decorator reports as an invalid token. Both are 401 answers.
   */
  function TokenFromHeader(header: Option<string>): (r: Result<string, Reply>)
    ensures header.None? || header.value == [] ==> r == Failure(Reply(401, "Token is missing"))
    ensures r.Failure? ==> r.error.status == 401
    ensures r.Success? <==> header.Some? && ' ' in header.value
    ensures r.Success? ==> ' ' !in r.value
    ensures r.Success? ==>
      var h := header.value;
      exists i :: 0 <= i < |h| && h[i] == ' ' && ' ' !in h[..i] && r.value <= h[i + 1..]
        && (|r.value| == |h[i + 1..]| || h[i + 1 + |r.value|] == ' ')
  {
    if header.None? || header.value == [] then Failure(Reply(401, "Token is missing"))
    else
      var h := header.value;
      var pieces := Split(h, ' ');
      SplitCount(h, ' ');
      if |pieces| < 2 then
        SpaceSplitsTwice(h);
        Failure(Reply(401, "Invalid token: list index out of range"))
      else
        SecondPiece(h);
        Success(pieces[1])
  }

  lemma SpaceSplitsTwice(h: string)
    ensures ' ' in h ==> |Split(h, ' ')| >= 2
  {
    if ' ' in h {
      SecondPiece(h);
    }
  }

  /** The second piece of a header with a space lies right after its first space and runs to the next one or the end. */
  lemma SecondPiece(h: string)
    requires ' ' in h
    ensures var i := FirstIndex(h, ' ');
      var pieces := Split(h, ' ');
      && |pieces| >= 2 && pieces[1] <= h[i + 1..]
      && (|pieces[1]| == |h[i + 1..]| || h[i + 1 + |pieces[1]|] == ' ')
  {
    var i := FirstIndex(h, ' ');
    assert h == h[..i] + [' '] + h[i + 1..];
    SplitAfterPiece(h[..i], ' ', h[i + 1..]);
    SplitFirstPiece(h[i + 1..], ' ');
  }
}
