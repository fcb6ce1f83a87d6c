/**
 * The remote data gateway of js/api.js: the ordered query parameters of the
 * three GET endpoints, the POST body of `addTransaction`, and the mapping of a
 * response text to a result that never throws. `fetch`, URL encoding and
 * `JSON.parse` are not part of this model; the parser is a parameter.
 */
module Api {
  import opened Js

  /** The entries of a `URLSearchParams` object, in order. */
  type Params = seq<(string, string)>

  /** Entries other than those named `name`, in order. */
  function WithoutName(ps: Params, name: string): (r: Params)
    ensures name !in Names(r)
  {
    if ps == [] then []
    else if ps[0].0 == name then WithoutName(ps[1..], name)
    else [ps[0]] + WithoutName(ps[1..], name)
  }

  /**
   * `URLSearchParams.set(name, value)` as the WHATWG URL Standard defines it:
   * the first entry with that name takes the value and later ones are removed;
   * without such an entry the pair is appended.
   */
  function SetParam(ps: Params, name: string, value: string): Params
  {
    if ps == [] then [(name, value)]
    else if ps[0].0 == name then [(name, value)] + WithoutName(ps[1..], name)
    else [ps[0]] + SetParam(ps[1..], name, value)
  }

  /** After `set`, the name holds exactly the new value once, and every other name reads as before. */
  lemma {:induction false} SetParamGet(ps: Params, name: string, value: string, other: string)
    ensures Get(SetParam(ps, name, value), other) == if other == name then Some(value) else Get(ps, other)
  {
    if ps != [] && ps[0].0 != name {
      SetParamGet(ps[1..], name, value, other);
    } else if ps != [] && other != name {
      WithoutNameGet(ps[1..], name, other);
    }
  }

  lemma {:induction false} WithoutNameGet(ps: Params, name: string, other: string)
    requires other != name
    ensures Get(WithoutName(ps, name), other) == Get(ps, other)
  {
    if ps != [] {
      WithoutNameGet(ps[1..], name, other);
    }
  }

  /** Setting a name that is not present yet appends it. */
  lemma {:induction false} SetParamAppends(ps: Params, name: string, value: string)
    requires name !in Names(ps)
    ensures SetParam(ps, name, value) == ps + [(name, value)]
  {
    if ps != [] {
      assert Names(ps) == [ps[0].0] + Names(ps[1..]);
      SetParamAppends(ps[1..], name, value);
      assert [ps[0]] + (ps[1..] + [(name, value)]) == ps + [(name, value)];
    }
  }

  /** A mutable `URLSearchParams` object. */
  class SearchParams {
    var entries: Params

    constructor ()
      ensures entries == []
    {
      entries := [];
    }

    method Set(name: string, value: string)
      modifies this
      ensures entries == SetParam(old(entries), name, value)
    {
      entries := SetParam(entries, name, value);
    }
  }

  /** The pair `(name, value)` when the optional value is truthy, nothing otherwise. */
  function IfTruthy(name: string, value: Option<string>): (r: Params)
    ensures Names(r) == if Truthy(value) then [name] else []
  {
    if Truthy(value) then [(name, value.value)] else []
  }

  /** `action=getSummary`, then `type` when it is truthy, then `key`. */
  function SummaryQuery(filterType: Option<string>, apiKey: string): Params
  {
    [("action", "getSummary")] + IfTruthy("type", filterType) + [("key", apiKey)]
  }

  /** The optional filters of `getTransactions(filters)`. */
  datatype Filters = Filters(txType: Option<string>, date: Option<string>, from: Option<string>, to: Option<string>)

  const NoFilters := Filters(None, None, None, None)

  /** `action=getTransactions` and `key`, then each truthy filter of `type`, `date`, `from`, `to`. */
  function TransactionsQuery(filters: Filters, apiKey: string): Params
  {
    [("action", "getTransactions"), ("key", apiKey)]
      + IfTruthy("type", filters.txType) + IfTruthy("date", filters.date)
      + IfTruthy("from", filters.from) + IfTruthy("to", filters.to)
  }

  /** `getTransactions()` with the default `filters = {}` sends only the action and the key. */
  lemma NoFiltersQuery(apiKey: string)
    ensures TransactionsQuery(NoFilters, apiKey) == [("action", "getTransactions"), ("key", apiKey)]
  {
  }

  /** Exactly `action=getCategories` and `key`. */
  function CategoriesQuery(apiKey: string): Params
  {
    [("action", "getCategories"), ("key", apiKey)]
  }

  /** Query parameters of `getSummary(type)`, built by successive `set` calls. */
  method SummaryParams(filterType: Option<string>, apiKey: string) returns (ps: Params)
    ensures ps == SummaryQuery(filterType, apiKey)
  {
    var p := new SearchParams();
    SetParamAppends([], "action", "getSummary");
    p.Set("action", "getSummary");
    ghost var names := ["action"];
    assert Names(p.entries) == names;
    if Truthy(filterType) {
      SetParamAppends(p.entries, "type", filterType.value);
      NamesAppend(p.entries, [("type", filterType.value)]);
      p.Set("type", filterType.value);
      names := names + ["type"];
    }
    assert p.entries == [("action", "getSummary")] + IfTruthy("type", filterType);
    assert Names(p.entries) == names;
    SetParamAppends(p.entries, "key", apiKey);
    p.Set("key", apiKey);
    ps := p.entries;
  }

  /** `if (value) params.set(name, value)` */
  function SetIfTruthy(ps: Params, name: string, value: Option<string>): Params
  {
    if Truthy(value) then SetParam(ps, name, value.value) else ps
  }

  /** On entries that do not hold `name`, the conditional `set` appends the optional pair. */
  lemma SetIfTruthyAppends(q: Params, name: string, value: Option<string>)
    requires name !in Names(q)
    ensures SetIfTruthy(q, name, value) == q + IfTruthy(name, value)
    ensures Names(q + IfTruthy(name, value)) == Names(q) + Names(IfTruthy(name, value))
  {
    if Truthy(value) {
      SetParamAppends(q, name, value.value);
    }
    NamesAppend(q, IfTruthy(name, value));
  }

  /** The same step, tracking a bound on the names present so far. */
  lemma SetIfTruthyStep(q: Params, name: string, value: Option<string>, known: set<string>)
    requires forall n :: n in Names(q) ==> n in known
    requires name !in known
    ensures SetIfTruthy(q, name, value) == q + IfTruthy(name, value)
    ensures forall n :: n in Names(q + IfTruthy(name, value)) ==> n in known + {name}
  {
    SetIfTruthyAppends(q, name, value);
  }

  /** The `set` calls of `getTransactions` in order yield the expected list. */
  lemma TransactionsSets(filters: Filters, apiKey: string)
    ensures var q0 := SetParam(SetParam([], "action", "getTransactions"), "key", apiKey);
            var q1 := SetIfTruthy(q0, "type", filters.txType);
            var q2 := SetIfTruthy(q1, "date", filters.date);
            var q3 := SetIfTruthy(q2, "from", filters.from);
            SetIfTruthy(q3, "to", filters.to) == TransactionsQuery(filters, apiKey)
  {
    var base: Params := [("action", "getTransactions"), ("key", apiKey)];
    assert SetParam([], "action", "getTransactions") == [("action", "getTransactions")];
    assert SetParam([("action", "getTransactions")], "key", apiKey) == base;
    var known := {"action", "key"};
    assert Names(base) == ["action", "key"];
    SetIfTruthyStep(base, "type", filters.txType, known);
    var q1 := base + IfTruthy("type", filters.txType);
    known := known + {"type"};
    SetIfTruthyStep(q1, "date", filters.date, known);
    var q2 := q1 + IfTruthy("date", filters.date);
    known := known + {"date"};
    SetIfTruthyStep(q2, "from", filters.from, known);
    var q3 := q2 + IfTruthy("from", filters.from);
    known := known + {"from"};
    SetIfTruthyStep(q3, "to", filters.to, known);
  }

  /** Query parameters of `getTransactions(filters)`, built by successive `set` calls. */
  method TransactionsParams(filters: Filters, apiKey: string) returns (ps: Params)
    ensures ps == TransactionsQuery(filters, apiKey)
  {
    var p := new SearchParams();
    p.Set("action", "getTransactions");
    p.Set("key", apiKey);
    ghost var q := p.entries;
    if Truthy(filters.txType) {
      p.Set("type", filters.txType.value);
    }
    assert p.entries == SetIfTruthy(q, "type", filters.txType);
    q := p.entries;
    if Truthy(filters.date) {
      p.Set("date", filters.date.value);
    }
    assert p.entries == SetIfTruthy(q, "date", filters.date);
    q := p.entries;
    if Truthy(filters.from) {
      p.Set("from", filters.from.value);
    }
    assert p.entries == SetIfTruthy(q, "from", filters.from);
    q := p.entries;
    if Truthy(filters.to) {
      p.Set("to", filters.to.value);
    }
    assert p.entries == SetIfTruthy(q, "to", filters.to);
    TransactionsSets(filters, apiKey);
    ps := p.entries;
  }

  /** Query parameters of `getCategories()`, built by successive `set` calls. */
  method CategoriesParams(apiKey: string) returns (ps: Params)
    ensures ps == CategoriesQuery(apiKey)
  {
    var p := new SearchParams();
    SetParamAppends([], "action", "getCategories");
    p.Set("action", "getCategories");
    assert Names(p.entries) == ["action"];
    SetParamAppends(p.entries, "key", apiKey);
    p.Set("key", apiKey);
    ps := p.entries;
  }

  /** The filter value as it appears in a request: only when truthy. */
  function Sent(value: Option<string>): Option<string>
  {
    if Truthy(value) then value else None
  }

  /**
   * Appending an optional parameter under a name outside `known`, a bound on
   * the names present, keeps the names distinct and adds at most that name.
   */
  lemma AppendOptionalNames(q: Params, name: string, value: Option<string>, known: set<string>)
    requires forall n :: n in Names(q) ==> n in known
    requires name !in known
    ensures Distinct(Names(q)) ==> Distinct(Names(q + IfTruthy(name, value)))
    ensures forall n :: n in Names(q + IfTruthy(name, value)) ==> n in known + {name}
  {
    NamesAppend(q, IfTruthy(name, value));
  }

  /** Appending an optional parameter under a new name leaves the other lookups unchanged. */
  lemma AppendOptionalGet(q: Params, name: string, value: Option<string>, known: set<string>, other: string)
    requires forall n :: n in Names(q) ==> n in known
    requires name !in known
    ensures Get(q + IfTruthy(name, value), other) == if other == name then Sent(value) else Get(q, other)
  {
    GetAppend(q, IfTruthy(name, value), other);
  }

  /**
   * Every GET request carries the API key and its action, never repeats a
   * parameter, and sends each optional filter exactly when it is truthy.
   */
  lemma SummaryQueryLookups(filterType: Option<string>, apiKey: string)
    ensures var q := SummaryQuery(filterType, apiKey);
            && Get(q, "key") == Some(apiKey)
            && Get(q, "action") == Some("getSummary")
            && Get(q, "type") == Sent(filterType)
            && Distinct(Names(q))
  {
    var base: Params := [("action", "getSummary")];
    assert Names(base) == ["action"];
    AppendOptionalNames(base, "type", filterType, {"action"});
    AppendOptionalGet(base, "type", filterType, {"action"}, "type");
    AppendOptionalGet(base, "type", filterType, {"action"}, "action");
    var q1 := base + IfTruthy("type", filterType);
    assert Names(q1) == ["action"] + Names(IfTruthy("type", filterType));
    NamesAppend(q1, [("key", apiKey)]);
    GetAppend(q1, [("key", apiKey)], "key");
    GetAppend(q1, [("key", apiKey)], "action");
    GetAppend(q1, [("key", apiKey)], "type");
  }

  lemma TransactionsQueryLookups(filters: Filters, apiKey: string)
    ensures var q := TransactionsQuery(filters, apiKey);
            && Get(q, "key") == Some(apiKey)
            && Get(q, "action") == Some("getTransactions")
            && Get(q, "type") == Sent(filters.txType)
            && Get(q, "date") == Sent(filters.date)
            && Get(q, "from") == Sent(filters.from)
            && Get(q, "to") == Sent(filters.to)
            && Distinct(Names(q))
  {
    TransactionsQueryDistinct(filters, apiKey);
    TransactionsQueryGet(filters, apiKey, "action");
    TransactionsQueryGet(filters, apiKey, "key");
    TransactionsQueryGet(filters, apiKey, "type");
    TransactionsQueryGet(filters, apiKey, "date");
    TransactionsQueryGet(filters, apiKey, "from");
    TransactionsQueryGet(filters, apiKey, "to");
  }

  lemma TransactionsQueryDistinct(filters: Filters, apiKey: string)
    ensures Distinct(Names(TransactionsQuery(filters, apiKey)))
  {
    var base: Params := [("action", "getTransactions"), ("key", apiKey)];
    var q1 := base + IfTruthy("type", filters.txType);
    var q2 := q1 + IfTruthy("date", filters.date);
    var q3 := q2 + IfTruthy("from", filters.from);
    assert Names(base) == ["action", "key"];
    AppendOptionalNames(base, "type", filters.txType, {"action", "key"});
    AppendOptionalNames(q1, "date", filters.date, {"action", "key", "type"});
    AppendOptionalNames(q2, "from", filters.from, {"action", "key", "type", "date"});
    AppendOptionalNames(q3, "to", filters.to, {"action", "key", "type", "date", "from"});
  }

  lemma TransactionsQueryGet(filters: Filters, apiKey: string, other: string)
    ensures Get(TransactionsQuery(filters, apiKey), other) == LookupOf(filters, apiKey, other)
  {
    var base: Params := [("action", "getTransactions"), ("key", apiKey)];
    assert Names(base) == ["action", "key"];
    assert Get(base, other) == if other == "action" then Some("getTransactions")
                               else if other == "key" then Some(apiKey) else None;
    var known := {"action", "key"};
    AppendOptionalGet(base, "type", filters.txType, known, other);
    AppendOptionalNames(base, "type", filters.txType, known);
    var q1 := base + IfTruthy("type", filters.txType);
    known := known + {"type"};
    AppendOptionalGet(q1, "date", filters.date, known, other);
    AppendOptionalNames(q1, "date", filters.date, known);
    var q2 := q1 + IfTruthy("date", filters.date);
    known := known + {"date"};
    AppendOptionalGet(q2, "from", filters.from, known, other);
    AppendOptionalNames(q2, "from", filters.from, known);
    var q3 := q2 + IfTruthy("from", filters.from);
    known := known + {"from"};
    AppendOptionalGet(q3, "to", filters.to, known, other);
  }


  /** What `TransactionsQuery(filters, apiKey)` holds under each parameter name. */
  function LookupOf(filters: Filters, apiKey: string, name: string): Option<string>
  {
    if name == "action" then Some("getTransactions")
    else if name == "key" then Some(apiKey)
    else if name == "type" then Sent(filters.txType)
    else if name == "date" then Sent(filters.date)
    else if name == "from" then Sent(filters.from)
    else if name == "to" then Sent(filters.to)
    else None
  }

  lemma CategoriesQueryLookups(apiKey: string)
    ensures Get(CategoriesQuery(apiKey), "key") == Some(apiKey)
    ensures Get(CategoriesQuery(apiKey), "action") == Some("getCategories")
    ensures Distinct(Names(CategoriesQuery(apiKey)))
  {
    assert Names(CategoriesQuery(apiKey)) == ["action", "key"];
  }

  /** The POST body of `addTransaction(payload)`: `Object.assign({}, payload, {action, key})`. */
  function AddTransactionBody(payload: seq<(string, Json)>, apiKey: string): seq<(string, Json)>
  {
    Assign(Assign([], payload), [("action", JStr("addTransaction")), ("key", JStr(apiKey))])
  }

  /**
   * Every payload field reaches the body unchanged, except that `action` and
   * `key` are forced to the action name and the API key.
   */
  lemma AddTransactionBodyGet(payload: seq<(string, Json)>, apiKey: string, name: string)
    requires Distinct(Names(payload))
    ensures Get(AddTransactionBody(payload, apiKey), name) ==
              if name == "action" then Some(JStr("addTransaction"))
              else if name == "key" then Some(JStr(apiKey))
              else Get(payload, name)
  {
    var forced := [("action", JStr("addTransaction")), ("key", JStr(apiKey))];
    assert Names(forced) == ["action", "key"];
    assert Get(forced, "action") == Some(JStr("addTransaction"));
    assert Get(forced, "key") == Some(JStr(apiKey));
    AssignGet([], payload, name);
    AssignGet(Assign([], payload), forced, name);
  }

  /** The body's keys: the payload's in their order, then `action` and `key` unless already present. */
  lemma AddTransactionBodyNames(payload: seq<(string, Json)>, apiKey: string)
    requires Distinct(Names(payload))
    ensures Names(AddTransactionBody(payload, apiKey)) == Names(payload) + NewNames(Names(payload), ["action", "key"])
  {
    var forced := [("action", JStr("addTransaction")), ("key", JStr(apiKey))];
    var copy := Assign([], payload);
    assert Names(copy) == Names(payload) by {
      AssignNames([], payload);
      NewNamesOfDistinct([], Names(payload));
      assert [] + Names(payload) == Names(payload);
    }
    assert Names(forced) == ["action", "key"];
    AssignNames(copy, forced);
  }

  /** Adding distinct, unknown names keeps all of them. */
  lemma {:induction false} NewNamesOfDistinct(known: seq<string>, added: seq<string>)
    requires Distinct(added)
    requires forall n :: n in added ==> n !in known
    ensures NewNames(known, added) == added
    decreases |added|
  {
    if added != [] {
      var rest := added[1..];
      assert Distinct(rest) by {
        forall i, j | 0 <= i < j < |rest| ensures rest[i] != rest[j] {
          assert rest[i] == added[i + 1] && rest[j] == added[j + 1];
        }
      }
      forall n | n in rest ensures n !in known + [added[0]] {
        var j :| 0 <= j < |rest| && rest[j] == n;
        assert added[j + 1] == n;
      }
      NewNamesOfDistinct(known + [added[0]], rest);
    }
  }

  /** The object `parseTextResponse` returns for a body that is not JSON. */
  function InvalidJsonFailure(txt: string): Json
  {
    JObj([("success", JBool(false)), ("message", JStr("Invalid JSON response")), ("raw", JStr(txt))])
  }

  lemma InvalidJsonFailureFields(txt: string)
    ensures Get(InvalidJsonFailure(txt).fields, "success") == Some(JBool(false))
    ensures Get(InvalidJsonFailure(txt).fields, "message") == Some(JStr("Invalid JSON response"))
    ensures Get(InvalidJsonFailure(txt).fields, "raw") == Some(JStr(txt))
  {
    var f := InvalidJsonFailure(txt).fields;
    assert f[1..] == [("message", JStr("Invalid JSON response")), ("raw", JStr(txt))];
    assert f[1..][1..] == [("raw", JStr(txt))];
    assert Get(f[1..][1..], "raw") == Some(JStr(txt));
    assert Get(f[1..], "raw") == Some(JStr(txt));
  }

  /** The caller's test `res && res.success`. */
  predicate Succeeded(res: Json)
  {
    && JsonTruthy(res)
    && res.JObj?
    && var s := Get(res.fields, "success"); s.Some? && JsonTruthy(s.value)
  }

  /** `parseTextResponse`: the parsed value, or a failure object carrying the raw text. */
  function ParseTextResponse(txt: string, parse: string -> Option<Json>): (r: Json)
    ensures parse(txt).Some? ==> r == parse(txt).value
    ensures parse(txt).None? ==> r == InvalidJsonFailure(txt)
    ensures parse(txt).None? ==>
              && !Succeeded(r)
              && r.JObj?
              && Get(r.fields, "message") == Some(JStr("Invalid JSON response"))
              && Get(r.fields, "raw") == Some(JStr(txt))
    ensures Succeeded(r) ==> parse(txt) == Some(r)
  {
    match parse(txt)
    case Some(j) => j
    case None => InvalidJsonFailureFields(txt); InvalidJsonFailure(txt)
  }
}
