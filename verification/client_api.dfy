/**
 * The client's dashboard API helpers: how a response becomes a value or an
 * error, how the transactions query string is built, and the headers every
 * request carries. The fetch itself and the parsing of the body are outside
 * the model; the body arrives as a JSON value.
 */
module DashboardClient {
  import opened Wrappers
  import opened Json
  import opened Text
  import opened Seqs
  import opened BackendStore

  /** Why `handleResponse` rejects: an Error built from a value, or reading `.message` of a null body. */
  datatype ApiError = Rejected(message: Json) | NullBody

  const DefaultError := JStr("An error occurred")

  /**
   * `handleResponse`: an ok response yields its body; otherwise the body's
   * `message` if truthy, else the default text, is thrown.
   */
  function HandleResponse(ok: bool, data: Json): (r: Result<Json, ApiError>)
    ensures ok ==> r == Success(data)
    ensures !ok ==> r.Failure?
    ensures !ok && data.JNull? ==> r == Failure(NullBody)
    ensures !ok && !data.JNull? ==>
      && r.Failure? && r.error.Rejected?
      && (if Member(data, "message").Some? && JsTruthy(Member(data, "message").value)
          then r.error.message == Member(data, "message").value
          else r.error.message == DefaultError)
  {
    if ok then Success(data)
    else if data.JNull? then Failure(NullBody)
    else
      var m := Member(data, "message");
      Failure(Rejected(if m.Some? && JsTruthy(m.value) then m.value else DefaultError))
  }

  /** A rejected response always carries a truthy message, and the server's own message when it sent one. */
  lemma RejectionMessageIsTruthy(data: Json, text: string)
    ensures !data.JNull? ==> var r := HandleResponse(false, data); JsTruthy(r.error.message)
    ensures text != [] ==> HandleResponse(false, JObject([("message", JStr(text))])) == Failure(Rejected(JStr(text)))
    ensures HandleResponse(false, JObject([("message", JStr(""))])) == Failure(Rejected(DefaultError))
  {
  }

  /** The optional `params` of `getTransactions`; `None` is undefined. */
  datatype TxnParams = TxnParams(limit: Option<int>, skip: Option<int>, category: Option<string>, kind: Option<string>)

  predicate TruthyInt(o: Option<int>) { o.Some? && o.value != 0 }
  predicate TruthyStr(o: Option<string>) { o.Some? && o.value != [] }

  /** The first value stored under key in a list of pairs. */
  function Lookup(pairs: seq<(string, string)>, key: string): (r: Option<string>)
    ensures r.Some? <==> exists i :: 0 <= i < |pairs| && pairs[i].0 == key
  {
    if pairs == [] then None
    else if pairs[0].0 == key then Some(pairs[0].1)
    else Lookup(pairs[1..], key)
  }

  /** The position of a parameter in the fixed append order. */
  function Rank(key: string): int
  {
    if key == "limit" then 0 else if key == "skip" then 1 else if key == "category" then 2 else 3
  }

  /** Whether the parameter under key is truthy, and so appended. */
  predicate Present(p: TxnParams, key: string)
  {
    if key == "limit" then TruthyInt(p.limit)
    else if key == "skip" then TruthyInt(p.skip)
    else if key == "category" then TruthyStr(p.category)
    else TruthyStr(p.kind)
  }

  /** The text appended for the parameter under key: `toString()` for the numbers, the string itself otherwise. */
  function ParamValue(p: TxnParams, key: string): string
  {
    if key == "limit" then (if p.limit.Some? then IntToString(p.limit.value) else "")
    else if key == "skip" then (if p.skip.Some? then IntToString(p.skip.value) else "")
    else if key == "category" then p.category.GetOr("")
    else p.kind.GetOr("")
  }

  const ParamKeys: seq<string> := ["limit", "skip", "category", "type"]

  function Param(p: TxnParams, key: string): seq<(string, string)>
  {
    if Present(p, key) then [(key, ParamValue(p, key))] else []
  }

  /** Each entry is an appended parameter with its value, and the keys follow the append order. */
  predicate AppendedInOrder(p: TxnParams, r: seq<(string, string)>)
  {
    && (forall i :: 0 <= i < |r| ==> r[i].0 in ParamKeys && Present(p, r[i].0) && r[i].1 == ParamValue(p, r[i].0))
    && (forall i, j :: 0 <= i < j < |r| ==> Rank(r[i].0) < Rank(r[j].0))
  }

  /** The `URLSearchParams` entries, appended in the order limit, skip, category, type, each only when truthy. */
  function QueryPairs(p: TxnParams): (r: seq<(string, string)>)
    ensures |r| <= 4
    ensures AppendedInOrder(p, r)
  {
    var r1 := Param(p, "limit");
    AppendParam(p, [], "limit");
    assert [] + r1 == r1;
    var r2 := r1 + Param(p, "skip");
    AppendParam(p, r1, "skip");
    var r3 := r2 + Param(p, "category");
    AppendParam(p, r2, "category");
    var r4 := r3 + Param(p, "type");
    AppendParam(p, r3, "type");
    r4
  }

  /** Appending a parameter whose rank is above every key so far keeps the order. */
  lemma AppendParam(p: TxnParams, r: seq<(string, string)>, key: string)
    requires key in ParamKeys && AppendedInOrder(p, r)
    requires forall i :: 0 <= i < |r| ==> Rank(r[i].0) < Rank(key)
    ensures AppendedInOrder(p, r + Param(p, key))
    ensures |r + Param(p, key)| <= |r| + 1
    ensures forall i :: 0 <= i < |r + Param(p, key)| ==> Rank((r + Param(p, key))[i].0) <= Rank(key)
  {
  }

  /** Every truthy parameter is appended, with its value, and no other. */
  lemma {:induction false} QueryPairsComplete(p: TxnParams, key: string)
    requires key in ParamKeys
    ensures Lookup(QueryPairs(p), key) == if Present(p, key) then Some(ParamValue(p, key)) else None
  {
    var r := QueryPairs(p);
    if Present(p, key) {
      var i := ParamPosition(p, key);
      UniqueKeyValue(r, i);
    }
  }

  /** Where a truthy parameter sits in the list. */
  lemma {:induction false} ParamPosition(p: TxnParams, key: string) returns (i: nat)
    requires key in ParamKeys && Present(p, key)
    ensures i < |QueryPairs(p)| && QueryPairs(p)[i] == (key, ParamValue(p, key))
  {
    var l, s, c, t := Param(p, "limit"), Param(p, "skip"), Param(p, "category"), Param(p, "type");
    var r := QueryPairs(p);
    assert r == l + s + c + t;
    if key == "limit" {
      i := 0;
      MiddleElement([], l, s + c + t);
    } else if key == "skip" {
      i := |l|;
      MiddleElement(l, s, c + t);
    } else if key == "category" {
      i := |l + s|;
      MiddleElement(l + s, c, t);
    } else {
      i := |l + s + c|;
      MiddleElement(l + s + c, t, []);
    }
  }

  lemma MiddleElement<X>(a: seq<X>, m: seq<X>, b: seq<X>)
    requires |m| == 1
    ensures (a + m + b)[|a|] == m[0]
    ensures a + m + b == a + (m + b) && (a + m + b) + [] == a + m + b && [] + a == a
  {
  }

  function Render(pair: (string, string)): string
  {
    pair.0 + "=" + pair.1
  }

  /** `queryParams.toString()`, without percent-encoding. */
  function QueryString(p: TxnParams): (qs: string)
    ensures qs == [] <==> QueryPairs(p) == []
  {
    var parts := Map(QueryPairs(p), Render);
    assert parts != [] ==> parts[0] <= Join(parts, "&") && |parts[0]| >= 1;
    Join(parts, "&")
  }

  /** The path `getTransactions` fetches: '?' and the query only when some parameter was appended. */
  function TransactionsPath(apiUrl: string, p: TxnParams): (url: string)
    ensures var base := apiUrl + "/dashboard/transactions";
      && base <= url
      && (url == base <==> !TruthyInt(p.limit) && !TruthyInt(p.skip) && !TruthyStr(p.category) && !TruthyStr(p.kind))
      && (url != base ==> url == base + "?" + QueryString(p))
  {
    var qs := QueryString(p);
    var base := apiUrl + "/dashboard/transactions";
    if qs != [] then
      assert QueryPairs(p) != [];
      base + "?" + qs
    else base
  }

  /** Zero, an empty string and undefined are all left out of the query. */
  lemma FalsyParametersAreOmitted(apiUrl: string)
    ensures TransactionsPath(apiUrl, TxnParams(Some(0), Some(0), Some(""), None)) == apiUrl + "/dashboard/transactions"
  {
  }

  /** All four parameters set: they come out in the fixed order, the numbers in decimal. */
  lemma QueryOrderExample()
    ensures QueryPairs(TxnParams(Some(20), Some(40), Some("Food"), Some("expense")))
      == [("limit", "20"), ("skip", "40"), ("category", "Food"), ("type", "expense")]
  {
    assert IntToString(20) == "20" by {
      assert NatToString(20) == NatToString(2) + [DigitChar(0)];
    }
    assert IntToString(40) == "40" by {
      assert NatToString(40) == NatToString(4) + [DigitChar(0)];
    }
  }

  /** Splitting a rendered query on '&' and each piece on '=' recovers the parameter list. */
  function ParseQuery(qs: string): seq<(string, string)>
  {
    if qs == [] then [] else Map(Split(qs, '&'), ParsePair)
  }

  function ParsePair(piece: string): (string, string)
  {
    var f := Split(piece, '=');
    (f[0], if |f| > 1 then f[1] else [])
  }

  /** A value the query string carries unambiguously without percent-encoding. */
  predicate Plain(s: string)
  {
    '&' !in s && '=' !in s
  }

  /**
   * Reading the query back gives exactly the appended parameters, provided the
   * category and type contain neither '&' nor '='.
   */
  lemma {:induction false} QueryRoundTrip(p: TxnParams)
    requires p.category.Some? ==> Plain(p.category.value)
    requires p.kind.Some? ==> Plain(p.kind.value)
    ensures ParseQuery(QueryString(p)) == QueryPairs(p)
  {
    var pairs := QueryPairs(p);
    var parts := Map(pairs, Render);
    RenderedPartsParse(p);
    if pairs != [] {
      SplitJoin(parts, '&');
      ParsePieces(parts, pairs);
    }
  }

  /** Every rendered entry is free of '&' and parses back to its entry. */
  lemma {:induction false} RenderedPartsParse(p: TxnParams)
    requires p.category.Some? ==> Plain(p.category.value)
    requires p.kind.Some? ==> Plain(p.kind.value)
    ensures var pairs := QueryPairs(p);
      forall i :: 0 <= i < |pairs| ==> '&' !in Map(pairs, Render)[i] && ParsePair(Map(pairs, Render)[i]) == pairs[i]
  {
    var pairs := QueryPairs(p);
    var parts := Map(pairs, Render);
    forall i | 0 <= i < |pairs|
      ensures '&' !in parts[i] && ParsePair(parts[i]) == pairs[i]
    {
      ParamValuePlain(p, pairs[i].0);
      RenderedPairParses(pairs[i].0, pairs[i].1);
    }
  }

  lemma {:induction false} ParsePieces(parts: seq<string>, pairs: seq<(string, string)>)
    requires |parts| == |pairs|
    requires forall i :: 0 <= i < |pairs| ==> ParsePair(parts[i]) == pairs[i]
    ensures Map(parts, ParsePair) == pairs
  {
  }

  /** The numbers render as digits and a sign, so only the strings can hold a separator. */
  lemma ParamValuePlain(p: TxnParams, key: string)
    requires p.category.Some? ==> Plain(p.category.value)
    requires p.kind.Some? ==> Plain(p.kind.value)
    ensures Plain(ParamValue(p, key))
  {
    if key == "limit" && p.limit.Some? {
      IntToStringChars(p.limit.value);
    } else if key == "skip" && p.skip.Some? {
      IntToStringChars(p.skip.value);
    }
  }

  /** One rendered `key=value` piece splits back into its key and value. */
  lemma RenderedPairParses(k: string, v: string)
    requires Plain(k) && Plain(v)
    ensures '&' !in Render((k, v)) && ParsePair(Render((k, v))) == (k, v)
  {
    assert Render((k, v)) == Join([k, v], "=") by {
      assert [k, v][1..] == [v];
    }
    SplitJoin([k, v], '=');
  }

  /** In the parameter list each key occurs once, so the entry at i holds the looked-up value. */
  lemma {:induction false} UniqueKeyValue(pairs: seq<(string, string)>, i: nat)
    requires i < |pairs|
    requires forall a, b :: 0 <= a < b < |pairs| ==> Rank(pairs[a].0) < Rank(pairs[b].0)
    ensures Lookup(pairs, pairs[i].0) == Some(pairs[i].1)
  {
    if i > 0 {
      assert Rank(pairs[0].0) < Rank(pairs[i].0);
      var rest := pairs[1..];
      assert rest[i - 1] == pairs[i];
      UniqueKeyValue(rest, i - 1);
    }
  }

  /** The endpoints of the dashboard API client. */
  datatype Endpoint = SummaryEndpoint | AccountsEndpoint | TransactionsEndpoint(params: TxnParams) | BudgetsEndpoint | GoalsEndpoint

  datatype Request = Request(url: string, verb: string, headers: seq<(string, string)>)

  function AuthorizationHeader(token: string): string
  {
    "Bearer " + token
  }

  /** The request each API function sends: a GET with the bearer token and a JSON content type. */
  function BuildRequest(apiUrl: string, token: string, e: Endpoint): (r: Request)
    ensures r.verb == "GET"
    ensures Lookup(r.headers, "Authorization") == Some(AuthorizationHeader(token))
    ensures Lookup(r.headers, "Content-Type") == Some("application/json")
    ensures apiUrl + "/dashboard/" <= r.url
  {
    var url := match e
      case SummaryEndpoint => apiUrl + "/dashboard/summary"
      case AccountsEndpoint => apiUrl + "/dashboard/accounts"
      case TransactionsEndpoint(p) => TransactionsPath(apiUrl, p)
      case BudgetsEndpoint => apiUrl + "/dashboard/budgets"
      case GoalsEndpoint => apiUrl + "/dashboard/goals";
    assert apiUrl + "/dashboard/transactions" == apiUrl + "/dashboard/" + "transactions";
    Request(url, "GET", [("Authorization", AuthorizationHeader(token)), ("Content-Type", "application/json")])
  }

  /** The backend reads back the very token the client sent, for any token without spaces (a JWT has none). */
  lemma BearerTokenRoundTrip(apiUrl: string, token: string, e: Endpoint)
    requires ' ' !in token
    ensures TokenFromHeader(Lookup(BuildRequest(apiUrl, token, e).headers, "Authorization")) == Success(token)
  {
    var h := AuthorizationHeader(token);
    assert h == Join(["Bearer", token], [' ']) by {
      assert ["Bearer", token][1..] == [token];
    }
    SplitJoin(["Bearer", token], ' ');
  }
}
