/** `YNABClient`: choosing and normalising the access token, configuring the API client,
    the `since_date` argument and client-side end-date filter of `get_transactions`, and
    taking `data.budgets` out of the decoded `get_budgets` response. */
module Ynab {
  import opened Wrappers
  import opened Json
  import opened Dates
  import opened Strings
  import opened Filtering

  /** The `ValueError` raised when no token can be found. */
  datatype ConfigurationError = ConfigurationError(message: string)

  const MissingTokenMessage: string := "YNAB_ACCESS_TOKEN environment variable is not set and no api_key provided."

  /** Python truthiness of an optional string: present and non-empty. */
  predicate Truthy(s: Option<string>)
  {
    s.Some? && s.value != ""
  }

  /** `api_key or os.getenv("YNAB_ACCESS_TOKEN")`, then the emptiness check; `env` is the
      environment variable's value, `None` when it is not set. */
  function ResolveKey(apiKey: Option<string>, env: Option<string>): (r: Result<string, ConfigurationError>)
    ensures r.Failure? <==> !Truthy(apiKey) && !Truthy(env)
    ensures r.Failure? ==> r.error.message == MissingTokenMessage
    ensures r.Success? ==> r.value != ""
    ensures Truthy(apiKey) ==> r == Success(apiKey.value)
    ensures !Truthy(apiKey) && Truthy(env) ==> r == Success(env.value)
  {
    var chosen := if Truthy(apiKey) then apiKey else env;
    if !Truthy(chosen) then Failure(ConfigurationError(MissingTokenMessage))
    else Success(chosen.value)
  }

  const BearerPrefix: string := "bearer "

  const BearerUpper: string := "BEARER "

  /** `key.lower().startswith("bearer ")`: the key begins with `bearer `, each of its
      letters in either case. */
  predicate HasBearerPrefix(key: string)
    ensures HasBearerPrefix(key) <==>
      |key| >= 7 && forall i :: 0 <= i < 7 ==> key[i] == BearerPrefix[i] || key[i] == BearerUpper[i]
  {
    BearerAnyCase(key);
    StartsWith(Lower(key), BearerPrefix)
  }

  /** The prefix test matches `bearer ` in any mixture of letter cases, and nothing else. */
  lemma BearerAnyCase(key: string)
    ensures StartsWith(Lower(key), BearerPrefix) <==>
      |key| >= 7 && forall i :: 0 <= i < 7 ==> key[i] == BearerPrefix[i] || key[i] == BearerUpper[i]
  {
    if |key| >= 7 {
      var low := Lower(key);
      forall i | 0 <= i < 7
        ensures low[i] == BearerPrefix[i] <==> key[i] == BearerPrefix[i] || key[i] == BearerUpper[i]
      {
        LowerCharIs(key[i], BearerPrefix[i]);
        if i < 6 {
          assert BearerUpper[i] as int == BearerPrefix[i] as int - 32 && 'a' <= BearerPrefix[i] <= 'z';
        } else {
          assert BearerUpper[i] == BearerPrefix[i] == ' ';
        }
      }
      assert low[..7] == BearerPrefix <==> forall i :: 0 <= i < 7 ==> low[i] == BearerPrefix[i];
    }
  }

  /** The stored token: after a `bearer ` prefix in any letter case, the rest of the key with
      its surrounding whitespace removed; any other key unchanged. */
  function NormalizeKey(key: string): (r: string)
    ensures HasBearerPrefix(key) ==>
      && |key| >= 7
      && (exists i :: SpaceFramed(key[7..], r, i))
      && (r == [] || (!IsSpace(r[0]) && !IsSpace(r[|r| - 1])))
    ensures !HasBearerPrefix(key) ==> r == key
  {
    if HasBearerPrefix(key) then Strip(key[7..]) else key
  }

  /** Seven characters that lower-case to `bearer `, followed by `k`, normalise to `k`
      stripped. */
  lemma BearerStripped(p: string, k: string)
    requires |p| == 7 && Lower(p) == BearerPrefix
    ensures NormalizeKey(p + k) == Strip(k)
  {
    var key := p + k;
    assert Lower(key)[..7] == Lower(p) by {
      forall i | 0 <= i < 7 ensures Lower(key)[..7][i] == Lower(p)[i] {
        assert key[i] == p[i];
      }
    }
    assert key[7..] == k;
  }

  /** The token after the prefix is kept exactly, whatever whitespace pads it. */
  lemma BearerPaddingDropped(p: string, lead: string, token: string, trail: string)
    requires |p| == 7 && Lower(p) == BearerPrefix
    requires AllSpace(lead) && AllSpace(trail)
    requires token == [] || (!IsSpace(token[0]) && !IsSpace(token[|token| - 1]))
    ensures NormalizeKey(p + (lead + token + trail)) == token
  {
    BearerStripped(p, lead + token + trail);
    StripPadded(lead, token, trail);
  }

  /** `Bearer ` and `bearer ` both lower-case to the prefix. */
  lemma BearerSpellings()
    ensures Lower("Bearer ") == BearerPrefix && Lower("bearer ") == BearerPrefix
  {
  }

  /** `abc123` has no whitespace to strip. */
  lemma ExampleTokenStripped()
    ensures Strip("abc123") == "abc123"
  {
    assert AllSpace("");
    StripPadded("", "abc123", "");
    assert "" + "abc123" + "" == "abc123";
  }

  /** `Bearer abc123` stores `abc123`. */
  lemma CapitalBearerExample()
    ensures NormalizeKey("Bearer " + "abc123") == "abc123"
  {
    BearerSpellings();
    BearerStripped("Bearer ", "abc123");
    ExampleTokenStripped();
  }

  /** `bearer abc123` stores `abc123`. */
  lemma LowerBearerExample()
    ensures NormalizeKey("bearer " + "abc123") == "abc123"
  {
    BearerSpellings();
    BearerStripped("bearer ", "abc123");
    ExampleTokenStripped();
  }

  /** `abc123` is stored as it is. */
  lemma PlainKeyExample()
    ensures NormalizeKey("abc123") == "abc123"
  {
  }

  /** The emptiness check comes before the prefix is removed: a bare `Bearer ` is accepted
      and stores the empty token. */
  lemma BareBearerAccepted(env: Option<string>)
    ensures ResolveKey(Some("Bearer "), env) == Success("Bearer ")
    ensures NormalizeKey("Bearer ") == ""
  {
    BearerStripped("Bearer ", "");
    assert "Bearer " + "" == "Bearer ";
  }

  /** `ynab_api.Configuration`: the token slots of the SDK's configuration object. */
  class Configuration {
    var apiKey: map<string, string>
    var apiKeyPrefix: map<string, string>

    constructor ()
      ensures apiKey == map[] && apiKeyPrefix == map[]
    {
      apiKey := map[];
      apiKeyPrefix := map[];
    }
  }

  /** One transaction as the SDK returns it: its `date` and its other attributes. */
  datatype YnabTransaction = YnabTransaction(date: Date, attributes: map<string, Json>)

  /** The SDK's `TransactionsApi.get_transactions(budget_id, **kwargs)`, as the list of
      transactions its response carries. */
  type TransactionsApi = (string, map<string, Date>) -> seq<YnabTransaction>

  /** The keyword arguments `get_transactions` passes upstream. */
  function SinceArgs(start: Option<Date>): (r: map<string, Date>)
    ensures "since_date" in r <==> start.Some?
    ensures r.Keys <= {"since_date"}
    ensures start.Some? ==> r["since_date"] == start.value
  {
    if start.Some? then map["since_date" := start.value] else map[]
  }

  /** `t.date <= d`. */
  function KeepUntil(d: Date): YnabTransaction -> bool
  {
    (t: YnabTransaction) => t.date <= d
  }

  /** The client-side end-date filter, applied only when an end date is given. */
  function UpToEnd(ts: seq<YnabTransaction>, end: Option<Date>): (r: seq<YnabTransaction>)
    ensures |r| <= |ts| && forall t :: t in r ==> t in ts
    ensures end.Some? ==> forall t :: t in r ==> t.date <= end.value
  {
    if end.None? then ts else Filter(ts, KeepUntil(end.value))
  }

  /** Without an end date the upstream list is returned unchanged: no client-side filter
      on the start date either. */
  lemma NoEndUnchanged(ts: seq<YnabTransaction>)
    ensures UpToEnd(ts, None) == ts
  {
  }

  /** With an end date the result keeps exactly the transactions dated on or before it, at
      their upstream positions and in upstream order. */
  lemma UpToEndExact(ts: seq<YnabTransaction>, end: Date)
    ensures var r, idx := UpToEnd(ts, Some(end)), SelectedIndices(ts, KeepUntil(end));
      && (forall t :: t in r <==> t in ts && t.date <= end)
      && |idx| == |r|
      && (forall k :: 0 <= k < |idx| ==> idx[k] < |ts| && r[k] == ts[idx[k]])
      && StrictlyIncreasing(idx)
      && (forall i :: 0 <= i < |ts| ==> (ts[i].date <= end <==> i in idx))
  {
    var p := KeepUntil(end);
    forall t ensures t in Filter(ts, p) <==> t in ts && t.date <= end {
      FilterMembership(ts, p, t);
    }
    FilterSelectsExactly(ts, p);
  }

  /** Filtering the result again with the same end date changes nothing. */
  lemma UpToEndIdempotent(ts: seq<YnabTransaction>, end: Option<Date>)
    ensures UpToEnd(UpToEnd(ts, end), end) == UpToEnd(ts, end)
  {
    if end.Some? {
      FilterIdempotent(ts, KeepUntil(end.value));
    }
  }

  /** `YNABClient`: the normalised token and the SDK configuration holding it. */
  class Client {
    var apiKey: string
    var configuration: Configuration

    /** The steps of `__init__` after a token has been found. */
    constructor Init(key: string)
      ensures apiKey == NormalizeKey(key)
      ensures fresh(configuration)
      ensures configuration.apiKey == map["bearer" := apiKey]
      ensures configuration.apiKeyPrefix == map["bearer" := "Bearer"]
    {
      var conf := new Configuration();
      apiKey := key;
      configuration := conf;
      new;
      var stored := apiKey;
      if HasBearerPrefix(stored) {
        stored := Strip(stored[7..]);
      }
      assert stored == NormalizeKey(key);
      apiKey := stored;
      configuration.apiKey := configuration.apiKey["bearer" := apiKey];
      configuration.apiKeyPrefix := configuration.apiKeyPrefix["bearer" := "Bearer"];
    }

    /** `YNABClient(api_key)` with the environment value `env`: the `ValueError` when no
      token is found, otherwise a client holding the normalised token. */
    static method Create(apiKey: Option<string>, env: Option<string>) returns (r: Result<Client, ConfigurationError>)
      ensures r.Failure? <==> !Truthy(apiKey) && !Truthy(env)
      ensures r.Failure? ==> r.error.message == MissingTokenMessage
      ensures r.Success? ==>
        && fresh(r.value) && fresh(r.value.configuration)
        && r.value.apiKey == NormalizeKey(ResolveKey(apiKey, env).value)
        && r.value.configuration.apiKey == map["bearer" := r.value.apiKey]
        && r.value.configuration.apiKeyPrefix == map["bearer" := "Bearer"]
    {
      var key := ResolveKey(apiKey, env);
      if key.Failure? {
        r := Failure(key.error);
      } else {
        var client := new Client.Init(key.value);
        r := Success(client);
      }
    }

    /** `get_transactions`: `since_date` is passed upstream only when a start date is given,
        and the end date is applied to the upstream list afterwards. */
    method GetTransactions(budgetId: string, start: Option<Date>, end: Option<Date>, upstream: TransactionsApi)
      returns (r: seq<YnabTransaction>)
      ensures r == UpToEnd(upstream(budgetId, SinceArgs(start)), end)
    {
      var kwargs: map<string, Date> := map[];
      if start.Some? {
        kwargs := kwargs["since_date" := start.value];
      }
      var transactions := upstream(budgetId, kwargs);
      if end.Some? {
        transactions := Filter(transactions, KeepUntil(end.value));
      }
      r := transactions;
    }
  }

  /** `SimpleNamespace(**b)`: a record whose attributes are the budget object's fields. */
  datatype Budget = Budget(attributes: map<string, Json>)

  /** The Python exceptions the extraction can raise: a missing key, or a value of the
      named type where a mapping or an iterable of mappings is needed. */
  datatype BudgetsError = KeyError(key: string) | TypeError(typeName: string)

  /** `v[key]` on a decoded JSON value. */
  function Subscript(v: Json, key: string): (r: Result<Json, BudgetsError>)
    ensures r.Success? <==> v.JObj? && key in v.fields
    ensures r.Success? ==> r.value == v.fields[key]
    ensures v.JObj? && key !in v.fields ==> r == Failure(KeyError(key))
    ensures !v.JObj? ==> r == Failure(TypeError(PythonTypeName(v)))
  {
    if !v.JObj? then Failure(TypeError(PythonTypeName(v)))
    else if key !in v.fields then Failure(KeyError(key))
    else Success(v.fields[key])
  }

  /** Element `k` is the first that is not an object. */
  predicate FirstNonObjectAt(items: seq<Json>, k: int)
  {
    0 <= k < |items| && !items[k].JObj? && forall j :: 0 <= j < k ==> items[j].JObj?
  }

  /** `[SimpleNamespace(**b) for b in items]`: stops at the first element that is not an
      object. */
  function Namespaces(items: seq<Json>): (r: Result<seq<Budget>, BudgetsError>)
    ensures r.Success? <==> forall i :: 0 <= i < |items| ==> items[i].JObj?
    ensures r.Success? ==>
      && |r.value| == |items|
      && forall i :: 0 <= i < |items| ==> r.value[i] == Budget(items[i].fields)
    ensures r.Failure? ==>
      exists k :: FirstNonObjectAt(items, k) && r.error == TypeError(PythonTypeName(items[k]))
  {
    if items == [] then Success([])
    else if !items[0].JObj? then
      assert FirstNonObjectAt(items, 0);
      Failure(TypeError(PythonTypeName(items[0])))
    else
      match Namespaces(items[1..])
      case Failure(e) =>
        var k :| FirstNonObjectAt(items[1..], k) && e == TypeError(PythonTypeName(items[1..][k]));
        assert items[k + 1] == items[1..][k];
        assert forall j :: 1 <= j < k + 1 ==> items[j] == items[1..][j - 1];
        assert FirstNonObjectAt(items, k + 1);
        Failure(e)
      case Success(bs) =>
        assert forall i :: 1 <= i < |items| ==> items[i] == items[1..][i - 1];
        Success([Budget(items[0].fields)] + bs)
  }

  /** Iterating `data.budgets` and unpacking each element: a list yields its elements; an
      empty object or string yields nothing; a non-empty object or string yields strings,
      which cannot be unpacked; any other value is not iterable. */
  function BudgetRecords(budgets: Json): (r: Result<seq<Budget>, BudgetsError>)
    ensures budgets.JArr? ==> r == Namespaces(budgets.items)
    ensures (budgets.JObj? && budgets.fields == map[]) || (budgets.JStr? && budgets.s == "") ==> r == Success([])
  {
    match budgets
    case JArr(items) => Namespaces(items)
    case JObj(fields) => if fields == map[] then Success([]) else Failure(TypeError("str"))
    case JStr(s) => if s == "" then Success([]) else Failure(TypeError("str"))
    case _ => Failure(TypeError(PythonTypeName(budgets)))
  }

  /** `get_budgets` on the decoded response document. */
  function ExtractBudgets(doc: Json): (r: Result<seq<Budget>, BudgetsError>)
    ensures !doc.JObj? ==> r == Failure(TypeError(PythonTypeName(doc)))
    ensures doc.JObj? && "data" !in doc.fields ==> r == Failure(KeyError("data"))
    ensures doc.JObj? && "data" in doc.fields && !doc.fields["data"].JObj? ==>
      r == Failure(TypeError(PythonTypeName(doc.fields["data"])))
    ensures doc.JObj? && "data" in doc.fields && doc.fields["data"].JObj? && "budgets" !in doc.fields["data"].fields ==>
      r == Failure(KeyError("budgets"))
    ensures doc.JObj? && "data" in doc.fields && doc.fields["data"].JObj? && "budgets" in doc.fields["data"].fields ==>
      r == BudgetRecords(doc.fields["data"].fields["budgets"])
  {
    match Subscript(doc, "data")
    case Failure(e) => Failure(e)
    case Success(data) =>
      match Subscript(data, "budgets")
      case Failure(e) => Failure(e)
      case Success(budgets) => BudgetRecords(budgets)
  }

  /** A list of budget objects under `data.budgets` gives one record per element, in order,
      each with that element's fields. */
  lemma BudgetsOnePerElement(doc: Json, items: seq<Json>)
    requires doc.JObj? && "data" in doc.fields
    requires doc.fields["data"].JObj? && "budgets" in doc.fields["data"].fields
    requires doc.fields["data"].fields["budgets"] == JArr(items)
    requires forall i :: 0 <= i < |items| ==> items[i].JObj?
    ensures var r := ExtractBudgets(doc);
      && r.Success?
      && |r.value| == |items|
      && forall i :: 0 <= i < |items| ==> r.value[i].attributes == items[i].fields
  {
  }

  /** Only `data.budgets` is read: documents that agree on it, whatever their other fields
      (such as `default_budget`), give the same result. */
  lemma OnlyBudgetsRead(d1: map<string, Json>, d2: map<string, Json>, data1: map<string, Json>, data2: map<string, Json>)
    requires "data" in d1 && d1["data"] == JObj(data1)
    requires "data" in d2 && d2["data"] == JObj(data2)
    requires "budgets" in data1 <==> "budgets" in data2
    requires "budgets" in data1 ==> data1["budgets"] == data2["budgets"]
    ensures ExtractBudgets(JObj(d1)) == ExtractBudgets(JObj(d2))
  {
  }

  /** A document without `data`, or whose `data` lacks `budgets`, raises `KeyError` for
      that key. */
  lemma MissingKeyRaises(doc: map<string, Json>)
    ensures "data" !in doc ==> ExtractBudgets(JObj(doc)) == Failure(KeyError("data"))
    ensures "data" in doc && doc["data"].JObj? && "budgets" !in doc["data"].fields ==>
      ExtractBudgets(JObj(doc)) == Failure(KeyError("budgets"))
  {
  }
}
