/**
 * The dashboard logic of js/app.js: currency formatting, the submission
 * payload and its validation, the submit button's two states, the derived
 * credit balance, the expense filter, and the two refresh flows that write
 * balances, render the expense chart and fill the transaction table. Network
 * replies are parameters; the DOM is a set of element ids, the text written
 * to each, and the rows of each table.
 */
module App {
  import opened Js
  import opened Records
  import opened Charts
  import Api

  /** `CONFIG.CURRENCY_SYMBOL` and the digit grouping of `toLocaleString('en-IN')`. */
  datatype Currency = Currency(symbol: string, grouping: real -> string)

  /** `formatCurrency(val)`: total, with non-numeric input shown as zero. */
  function FormatCurrency(val: Number, cur: Currency): (r: string)
    ensures |r| >= |cur.symbol| && r[..|cur.symbol|] == cur.symbol
  {
    cur.symbol + cur.grouping(OrZero(val))
  }

  /** NaN formats exactly as zero does, and formatting only ever sees the coerced number. */
  lemma FormatCoercesToZero(val: Number, cur: Currency)
    ensures FormatCurrency(NaN, cur) == FormatCurrency(Num(0.0), cur)
    ensures FormatCurrency(val, cur) == FormatCurrency(Num(OrZero(val)), cur)
  {
  }

  /** The derived credit balance: whatever flow cash and bank do not account for. */
  function Credit(s: Summary): (r: real)
    ensures r + s.cashBalance + s.bankBalance == s.totalIncome - s.totalExpense
  {
    (s.totalIncome - s.totalExpense) - (s.cashBalance + s.bankBalance)
  }

  /** `txs.filter(t => t.entryType === "Expense")` */
  function Expenses(txs: seq<Transaction>): (r: seq<Transaction>)
    ensures forall i :: 0 <= i < |r| ==> r[i].entryType == "Expense"
    ensures forall t :: multiset(r)[t] == if t.entryType == "Expense" then multiset(txs)[t] else 0
  {
    if txs == [] then []
    else
      assert txs == [txs[0]] + txs[1..];
      (if txs[0].entryType == "Expense" then [txs[0]] else []) + Expenses(txs[1..])
  }

  /** The filter keeps the original order: filtering distributes over concatenation. */
  lemma {:induction false} ExpensesAppend(a: seq<Transaction>, b: seq<Transaction>)
    ensures Expenses(a + b) == Expenses(a) + Expenses(b)
  {
    if a == [] {
      assert a + b == b;
    } else {
      assert (a + b)[0] == a[0] && (a + b)[1..] == a[1..] + b;
      ExpensesAppend(a[1..], b);
    }
  }

  // ---------------------------------------------------------------------
  // Submission

  /**
   * The form fields as read: strings for the text fields and the amount
   * after `Number(...)`.
   */
  datatype FormInput = FormInput(
    txType: string, entryType: string, category: string, mode: string,
    amount: Number, description: string)

  datatype Payload = Payload(
    txType: string, entryType: string, category: string, mode: string,
    amount: real, description: string, date: string,
    status: string, relatedParty: string, addedBy: string)

  /** `(new Date()).toISOString().slice(0, 10)` given the ISO time stamp. */
  function DatePart(isoNow: string): (r: string)
    ensures |r| <= 10 && |r| <= |isoNow| && r == isoNow[..|r|]
    ensures |isoNow| >= 10 ==> |r| == 10
  {
    if |isoNow| <= 10 then isoNow else isoNow[..10]
  }

  /** The payload object of the submit handler, with its defaults and fixed fields. */
  function BuildPayload(input: FormInput, isoNow: string): (p: Payload)
    ensures p.txType == (if input.txType != "" then input.txType else "Personal")
    ensures p.entryType == (if input.entryType != "" then input.entryType else "Expense")
    ensures p.category == (if input.category != "" then input.category else "Uncategorized")
    ensures p.mode == (if input.mode != "" then input.mode else "Cash")
    ensures p.amount == OrZero(input.amount) && p.description == input.description
    ensures p.status == "Paid" && p.relatedParty == "" && p.addedBy == "Admin"
    ensures p.date == DatePart(isoNow)
    ensures p.txType != "" && p.entryType != "" && p.category != "" && p.mode != ""
  {
    Payload(
      OrDefault(input.txType, "Personal"),
      OrDefault(input.entryType, "Expense"),
      OrDefault(input.category, "Uncategorized"),
      OrDefault(input.mode, "Cash"),
      OrZero(input.amount),
      OrDefault(input.description, ""),
      DatePart(isoNow),
      "Paid", "", "Admin")
  }

  /** The handler's guard: every required field truthy (a zero amount is falsy). */
  predicate PassesValidation(p: Payload)
  {
    p.txType != "" && p.entryType != "" && p.category != "" && p.mode != "" && p.amount != 0.0
  }

  /** With the defaults in place, validation rejects exactly the zero (or non-numeric) amounts. */
  lemma ValidationRejectsOnlyZeroAmount(input: FormInput, isoNow: string)
    ensures PassesValidation(BuildPayload(input, isoNow)) <==> OrZero(input.amount) != 0.0
  {
  }

  /** The payload as the plain object handed to `addTransaction`. */
  function PayloadFields(p: Payload): seq<(string, Json)>
  {
    [("type", JStr(p.txType)), ("entryType", JStr(p.entryType)), ("category", JStr(p.category)),
     ("mode", JStr(p.mode)), ("amount", JNum(p.amount)), ("description", JStr(p.description)),
     ("date", JStr(p.date)), ("status", JStr(p.status)), ("relatedParty", JStr(p.relatedParty)),
     ("addedBy", JStr(p.addedBy))]
  }

  /** The payload's keys, in the order of the object literal. */
  const PayloadNames := ["type", "entryType", "category", "mode", "amount", "description", "date",
                         "status", "relatedParty", "addedBy"]

  lemma PayloadFieldNames(p: Payload)
    ensures Names(PayloadFields(p)) == PayloadNames
    ensures Distinct(PayloadNames)
  {
    var f := PayloadFields(p);
    forall k | 0 <= k < |f| ensures Names(f)[k] == PayloadNames[k] {
      NameAt(f, k);
    }
  }

  /**
   * The body posted for a submitted payload: all ten payload fields with
   * their values, in order, followed by the action name and the API key.
   */
  lemma PostedBody(p: Payload, apiKey: string)
    ensures Names(Api.AddTransactionBody(PayloadFields(p), apiKey)) == PayloadNames + ["action", "key"]
    ensures forall k :: 0 <= k < |PayloadFields(p)| ==>
              Get(Api.AddTransactionBody(PayloadFields(p), apiKey), PayloadFields(p)[k].0) == Some(PayloadFields(p)[k].1)
    ensures Get(Api.AddTransactionBody(PayloadFields(p), apiKey), "action") == Some(JStr("addTransaction"))
    ensures Get(Api.AddTransactionBody(PayloadFields(p), apiKey), "key") == Some(JStr(apiKey))
  {
    var f := PayloadFields(p);
    PayloadFieldNames(p);
    Api.AddTransactionBodyNames(f, apiKey);
    Api.NewNamesOfDistinct(PayloadNames, ["action", "key"]);
    Api.AddTransactionBodyGet(f, apiKey, "action");
    Api.AddTransactionBodyGet(f, apiKey, "key");
    forall k | 0 <= k < |f|
      ensures Get(Api.AddTransactionBody(f, apiKey), f[k].0) == Some(f[k].1)
    {
      Api.AddTransactionBodyGet(f, apiKey, f[k].0);
      GetDistinctAt(f, k);
      NameAt(f, k);
    }
  }

  /**
   * The submit button. Its text and `disabled` flag are the handler's
   * state; `sent` records the payloads handed to `addTransaction`.
   */
  class SubmitButton {
    var disabled: bool
    var text: string
    ghost var sent: seq<Payload>

    predicate Idle()
      reads this
    {
      !disabled && text == "Add Transaction"
    }

    predicate Sending()
      reads this
    {
      disabled && text == "Saving..."
    }

    /** The button is either idle or sending, and only payloads that passed the guard are ever sent. */
    ghost predicate Valid()
      reads this
    {
      && (Idle() || Sending())
      && forall i :: 0 <= i < |sent| ==> PassesValidation(sent[i])
    }

    constructor ()
      ensures Idle() && Valid() && sent == []
    {
      disabled, text := false, "Add Transaction";
      sent := [];
    }

    /**
     * The submit handler up to the `await`: builds the payload, stops on a
     * failed guard (the alert), otherwise disables the button and sends.
     */
    method Submit(input: FormInput, isoNow: string) returns (p: Option<Payload>)
      requires Valid()
      modifies this
      ensures Valid()
      ensures p.Some? <==> OrZero(input.amount) != 0.0
      ensures p.Some? ==> p.value == BuildPayload(input, isoNow) && Sending() && sent == old(sent) + [p.value]
      ensures p.None? ==> disabled == old(disabled) && text == old(text) && sent == old(sent)
    {
      var payload := BuildPayload(input, isoNow);
      ValidationRejectsOnlyZeroAmount(input, isoNow);
      if !PassesValidation(payload) {
        return None;
      }
      disabled := true;
      text := "Saving...";
      sent := sent + [payload];
      return Some(payload);
    }

    /**
     * The handler after the `await`: `reply` is the parsed reply, or `None`
     * when the call threw. The `finally` block re-enables the button in every
     * case; the dashboard is refreshed only on `res && res.success`.
     */
    method Settle(reply: Option<Json>) returns (refresh: bool)
      requires Valid()
      modifies this
      ensures Valid()
      ensures Idle() && sent == old(sent)
      ensures refresh <==> reply.Some? && Api.Succeeded(reply.value)
    {
      refresh := false;
      if reply.Some? && Api.Succeeded(reply.value) {
        refresh := true;
      }
      disabled := false;
      text := "Add Transaction";
    }
  }

  // ---------------------------------------------------------------------
  // Table

  /** One row of a transaction table, as the cells' text. */
  datatype Row = Row(date: string, category: string, entryType: string, mode: string, amount: string)

  /** A template literal shows a missing category as "undefined". */
  function Display(o: Option<string>): string
  {
    match o
    case Some(s) => s
    case None => "undefined"
  }

  function RowOf(t: Transaction, cur: Currency): Row
  {
    Row(t.date, Display(t.category), t.entryType, t.mode, FormatCurrency(t.amount, cur))
  }

  function RowsOf(txs: seq<Transaction>, cur: Currency): (r: seq<Row>)
    ensures |r| == |txs|
    ensures forall i :: 0 <= i < |txs| ==> r[i] == RowOf(txs[i], cur)
  {
    if txs == [] then [] else [RowOf(txs[0], cur)] + RowsOf(txs[1..], cur)
  }

  /** Rows of a concatenation are the rows of each part, in order. */
  lemma {:induction false} RowsOfAppend(a: seq<Transaction>, b: seq<Transaction>, cur: Currency)
    ensures RowsOf(a + b, cur) == RowsOf(a, cur) + RowsOf(b, cur)
  {
    if a == [] {
      assert a + b == b;
    } else {
      assert (a + b)[1..] == a[1..] + b;
      RowsOfAppend(a[1..], b, cur);
    }
  }

  /** Dates never increase along the sequence (string comparison, as the comparator does). */
  ghost predicate NewestFirst(s: seq<Transaction>)
  {
    forall i, j :: 0 <= i < j < |s| ==> !StrLess(s[i].date, s[j].date)
  }

  /** Dates never increase between positions `lo` and `hi` of `s`. */
  ghost predicate NewestFirstBetween(s: seq<Transaction>, lo: int, hi: int)
    requires 0 <= lo <= hi <= |s|
  {
    forall k, l :: lo <= k < l < hi ==> !StrLess(s[k].date, s[l].date)
  }

  /** Exchanges two neighbours. */
  method SwapDown(a: array<Transaction>, j: nat)
    requires 0 < j < a.Length
    modifies a
    ensures a[..] == old(a[..])[j - 1 := old(a[j])][j := old(a[j - 1])]
    ensures multiset(a[..]) == multiset(old(a[..]))
  {
    a[j - 1], a[j] := a[j], a[j - 1];
  }

  /**
   * Halfway through a pass that inserts the element now at `j`: the part
   * before `j` and the part from `j` to `i` are each newest first, and
   * everything before `j` is not older than anything after it.
   */
  ghost predicate Inserting(s: seq<Transaction>, j: int, i: int)
    requires 0 <= j <= i < |s|
  {
    && NewestFirstBetween(s, 0, j)
    && NewestFirstBetween(s, j, i + 1)
    && forall k, l :: 0 <= k < j < l <= i ==> !StrLess(s[k].date, s[l].date)
  }

  lemma InsertingStart(s: seq<Transaction>, i: int)
    requires 0 <= i < |s| && NewestFirst(s[..i])
    ensures Inserting(s, i, i)
  {
    assert forall k :: 0 <= k < i ==> s[..i][k] == s[k];
  }

  /** Moving the inserted element one place left keeps the pass's invariant. */
  lemma InsertingStep(s: seq<Transaction>, j: int, i: int)
    requires 0 < j <= i < |s| && Inserting(s, j, i)
    requires StrLess(s[j - 1].date, s[j].date)
    ensures Inserting(s[j - 1 := s[j]][j := s[j - 1]], j - 1, i)
  {
    StrLessAsymmetric(s[j - 1].date, s[j].date);
  }

  /** The pass stops at the start or below an element that is not older: the prefix is sorted. */
  lemma InsertingDone(s: seq<Transaction>, j: int, i: int)
    requires 0 <= j <= i < |s| && Inserting(s, j, i)
    requires j == 0 || !StrLess(s[j - 1].date, s[j].date)
    ensures NewestFirst(s[..i + 1])
  {
    forall k | 0 <= k < j
      ensures !StrLess(s[k].date, s[j].date)
    {
      if k < j - 1 {
        NotLessTransitive(s[k].date, s[j - 1].date, s[j].date);
      }
    }
    assert NewestFirstBetween(s, 0, i + 1);
  }

  /**
   * One pass of the sort: the element at `i` moves left past every
   * neighbour whose date is smaller, so `a[..i + 1]` becomes newest first.
   */
  method InsertNewest(a: array<Transaction>, i: nat)
    requires i < a.Length
    requires NewestFirst(a[..i])
    modifies a
    ensures NewestFirst(a[..i + 1])
    ensures multiset(a[..]) == multiset(old(a[..]))
    ensures a[i + 1..] == old(a[i + 1..])
  {
    InsertingStart(a[..], i);
    var j := i;
    while 0 < j && StrLess(a[j - 1].date, a[j].date)
      invariant 0 <= j <= i
      invariant multiset(a[..]) == multiset(old(a[..]))
      invariant a[i + 1..] == old(a[i + 1..])
      invariant Inserting(a[..], j, i)
    {
      InsertingStep(a[..], j, i);
      SwapDown(a, j);
      j := j - 1;
    }
    InsertingDone(a[..], j, i);
  }

  /**
   * `txs.sort((a, b) => (a.date < b.date ? 1 : -1))`: an element moves before
   * its left neighbour exactly when the comparator puts it first, that is when
   * the neighbour's date is smaller.
   */
  method SortNewestFirst(a: array<Transaction>)
    modifies a
    ensures NewestFirst(a[..])
    ensures multiset(a[..]) == multiset(old(a[..]))
  {
    var i := 0;
    while i < a.Length
      invariant 0 <= i <= a.Length
      invariant NewestFirst(a[..i])
      invariant multiset(a[..]) == multiset(old(a[..]))
    {
      InsertNewest(a, i);
      i := i + 1;
    }
    assert a[..i] == a[..];
  }

  // ---------------------------------------------------------------------
  // Pages

  /** The balance and total elements one flow writes. */
  datatype TextIds = TextIds(cash: string, bank: string, credit: string, totalExpense: string, totalIncome: string)

  /** One entry of `fetchData`'s id map. */
  datatype PageIds = PageIds(text: TextIds, chartId: string, tableId: string)

  /** The elements of the main dashboard. */
  const MainIds := TextIds("cashBalance", "bankBalance", "creditBalance", "totalExpense", "totalIncome")
  const MainChart := "expenseChart"

  /** `map[type]` in `fetchData`: ids for the two known page types, nothing otherwise. */
  function PageIdsFor(txType: string): (r: Option<PageIds>)
    ensures r.Some? <==> txType == "Personal" || txType == "Business"
  {
    if txType == "Personal" then
      Some(PageIds(TextIds("personalCash", "personalBank", "personalCredit", "personalTotalExpense", "personalTotalIncome"),
                   "personalChart", "personalTable"))
    else if txType == "Business" then
      Some(PageIds(TextIds("businessCash", "businessBank", "businessCredit", "businessTotalExpense", "businessTotalIncome"),
                   "businessChart", "businessTable"))
    else None
  }

  /** The five `setText` calls, as (element id, text) pairs in call order. */
  function SummaryLines(ids: TextIds, s: Summary, cur: Currency): seq<(string, string)>
  {
    [(ids.cash, "Cash: " + FormatCurrency(Num(s.cashBalance), cur)),
     (ids.bank, "Bank: " + FormatCurrency(Num(s.bankBalance), cur)),
     (ids.credit, "Credit: " + FormatCurrency(Num(Credit(s)), cur)),
     (ids.totalExpense, "Total Expense: " + FormatCurrency(Num(s.totalExpense), cur)),
     (ids.totalIncome, "Total Income: " + FormatCurrency(Num(s.totalIncome), cur))]
  }

  /** The text of each element after a series of `setText` calls; ids without an element are skipped. */
  function SetTexts(texts: map<string, string>, elements: set<string>, lines: seq<(string, string)>): map<string, string>
    decreases |lines|
  {
    if lines == [] then texts
    else
      var before := SetTexts(texts, elements, Init(lines));
      if Last(lines).0 in elements then before[Last(lines).0 := Last(lines).1] else before
  }

  /**
   * With distinct ids, an element that exists ends up showing its line's text,
   * and every other element keeps what it showed.
   */
  lemma {:induction false} SetTextsAt(texts: map<string, string>, elements: set<string>, lines: seq<(string, string)>, id: string)
    requires Distinct(Names(lines))
    ensures id in elements && id in Names(lines) ==>
              id in SetTexts(texts, elements, lines) && Some(SetTexts(texts, elements, lines)[id]) == Get(lines, id)
    ensures !(id in elements && id in Names(lines)) ==>
              (id in SetTexts(texts, elements, lines) <==> id in texts) &&
              (id in texts ==> SetTexts(texts, elements, lines)[id] == texts[id])
    decreases |lines|
  {
    if lines != [] {
      var init, last := Init(lines), Last(lines);
      assert lines == init + [last];
      NamesAppend(init, [last]);
      GetAppend(init, [last], id);
      var names := Names(lines);
      assert names == Names(init) + [last.0];
      assert Distinct(Names(init)) by {
        forall i, j | 0 <= i < j < |Names(init)| ensures Names(init)[i] != Names(init)[j] {
          assert Names(init)[i] == names[i] && Names(init)[j] == names[j];
        }
      }
      assert last.0 !in Names(init) by {
        forall i | 0 <= i < |Names(init)| ensures Names(init)[i] != last.0 {
          assert Names(init)[i] == names[i] && last.0 == names[|names| - 1];
        }
      }
      SetTextsAt(texts, elements, init, id);
    }
  }

  /** The five text ids in call order. */
  function IdList(ids: TextIds): seq<string>
  {
    [ids.cash, ids.bank, ids.credit, ids.totalExpense, ids.totalIncome]
  }

  /** Neither page of the id map, nor the main dashboard, names one element twice. */
  lemma KnownIdsDistinct(txType: string)
    ensures Distinct(IdList(MainIds))
    ensures PageIdsFor(txType).Some? ==> Distinct(IdList(PageIdsFor(txType).value.text))
  {
  }

  lemma SummaryLinesNames(ids: TextIds, s: Summary, cur: Currency)
    ensures Names(SummaryLines(ids, s, cur)) == IdList(ids)
  {
    var lines := SummaryLines(ids, s, cur);
    assert Names(lines[4..]) == [ids.totalIncome] by {
      assert lines[4..][1..] == [];
    }
    assert Names(lines[3..]) == [ids.totalExpense] + Names(lines[4..]) by {
      assert lines[3..][1..] == lines[4..];
    }
    assert Names(lines[2..]) == [ids.credit] + Names(lines[3..]) by {
      assert lines[2..][1..] == lines[3..];
    }
    assert Names(lines[1..]) == [ids.bank] + Names(lines[2..]) by {
      assert lines[1..][1..] == lines[2..];
    }
  }

  /**
   * After the balance lines are written with distinct ids, each existing
   * element shows its label and formatted amount; in particular the credit
   * element shows the derived credit, the balance that cash and bank do not
   * account for.
   */
  lemma SummaryTexts(texts: map<string, string>, elements: set<string>, ids: TextIds, s: Summary, cur: Currency)
    requires Distinct(IdList(ids))
    ensures var r := SetTexts(texts, elements, SummaryLines(ids, s, cur));
            && (ids.cash in elements ==> ids.cash in r && r[ids.cash] == "Cash: " + FormatCurrency(Num(s.cashBalance), cur))
            && (ids.bank in elements ==> ids.bank in r && r[ids.bank] == "Bank: " + FormatCurrency(Num(s.bankBalance), cur))
            && (ids.credit in elements ==> ids.credit in r && r[ids.credit] == "Credit: " + FormatCurrency(Num(Credit(s)), cur))
            && (ids.totalExpense in elements ==>
                  ids.totalExpense in r && r[ids.totalExpense] == "Total Expense: " + FormatCurrency(Num(s.totalExpense), cur))
            && (ids.totalIncome in elements ==>
                  ids.totalIncome in r && r[ids.totalIncome] == "Total Income: " + FormatCurrency(Num(s.totalIncome), cur))
  {
    var lines := SummaryLines(ids, s, cur);
    SummaryLinesNames(ids, s, cur);
    forall k | 0 <= k < 5
      ensures lines[k].0 in elements ==>
                (lines[k].0 in SetTexts(texts, elements, lines) && SetTexts(texts, elements, lines)[lines[k].0] == lines[k].1)
    {
      GetDistinctAt(lines, k);
      SetTextsAt(texts, elements, lines, lines[k].0);
    }
    assert lines[1].0 == ids.bank && lines[2].0 == ids.credit && lines[3].0 == ids.totalExpense;
  }

  /** Elements outside the five ids keep their text. */
  lemma SummaryTextsElsewhere(texts: map<string, string>, elements: set<string>, ids: TextIds, s: Summary, cur: Currency, id: string)
    requires Distinct(IdList(ids))
    requires id !in IdList(ids)
    ensures var r := SetTexts(texts, elements, SummaryLines(ids, s, cur));
            (id in r <==> id in texts) && (id in texts ==> r[id] == texts[id])
  {
    SummaryLinesNames(ids, s, cur);
    SetTextsAt(texts, elements, SummaryLines(ids, s, cur), id);
  }

  /**
   * A reply as the flows see it: `Failed` when `Api.Succeeded` rejects it,
   * otherwise its `data` field (`None` when absent); `ReplyOf` is that map.
   */
  datatype Reply<T> = Failed | Ok(data: Option<T>)

  /** The flows' test `res && res.success` on a parsed reply, then `res.data`. */
  function ReplyOf(res: Json): (r: Reply<Json>)
    ensures r.Failed? <==> !Api.Succeeded(res)
    ensures r.Ok? ==> res.JObj? && r.data == Get(res.fields, "data")
  {
    if Api.Succeeded(res) then Ok(Get(res.fields, "data")) else Failed
  }

  /** A reply whose text does not parse is always a failed reply. */
  lemma UnparsableReplyFails(txt: string, parse: string -> Option<Json>)
    requires parse(txt).None?
    ensures ReplyOf(Api.ParseTextResponse(txt, parse)) == Failed
  {
  }

  /** How a flow ends: normally, or with a rejected promise (reading a field of missing `data`). */
  datatype Outcome = Completed | Threw

  /**
   * The DOM as the flows see it: which element ids exist, the text each
   * text element was given, the rows of each table body, and the chart registry.
   */
  class Page {
    const elements: set<string>
    var texts: map<string, string>
    var tables: map<string, seq<Row>>
    const registry: ChartRegistry

    ghost predicate Valid()
      reads this, registry
    {
      registry.Valid()
    }

    constructor(elements: set<string>)
      ensures Valid()
      ensures this.elements == elements && texts == map[] && tables == map[]
      ensures fresh(registry) && registry.charts == map[]
    {
      this.elements := elements;
      texts := map[];
      tables := map[];
      registry := new ChartRegistry();
    }

    /** `setText(id, txt)`: writes only when the element exists. */
    method SetText(id: string, txt: string)
      modifies this
      ensures texts == if id in elements then old(texts)[id := txt] else old(texts)
      ensures tables == old(tables)
    {
      if id in elements {
        texts := texts[id := txt];
      }
    }

    /** The five balance lines of either flow. */
    method WriteSummary(ids: TextIds, s: Summary, cur: Currency)
      modifies this
      ensures texts == SetTexts(old(texts), elements, SummaryLines(ids, s, cur))
      ensures tables == old(tables)
    {
      ghost var lines := SummaryLines(ids, s, cur);
      ghost var before := texts;
      SetText(ids.cash, "Cash: " + FormatCurrency(Num(s.cashBalance), cur));
      assert texts == SetTexts(before, elements, lines[..1]) by {
        assert Init(lines[..1]) == [];
      }
      SetText(ids.bank, "Bank: " + FormatCurrency(Num(s.bankBalance), cur));
      assert texts == SetTexts(before, elements, lines[..2]) by {
        assert Init(lines[..2]) == lines[..1];
      }
      var creditVal := (s.totalIncome - s.totalExpense) - (s.cashBalance + s.bankBalance);
      SetText(ids.credit, "Credit: " + FormatCurrency(Num(creditVal), cur));
      assert texts == SetTexts(before, elements, lines[..3]) by {
        assert Init(lines[..3]) == lines[..2];
      }
      SetText(ids.totalExpense, "Total Expense: " + FormatCurrency(Num(s.totalExpense), cur));
      assert texts == SetTexts(before, elements, lines[..4]) by {
        assert Init(lines[..4]) == lines[..3];
      }
      SetText(ids.totalIncome, "Total Income: " + FormatCurrency(Num(s.totalIncome), cur));
      assert Init(lines) == lines[..4];
    }

    /** Clears the table body and appends one row per transaction, in array order. */
    method FillTable(tableId: string, rows: array<Transaction>, cur: Currency)
      modifies this
      ensures tables == old(tables)[tableId := RowsOf(rows[..], cur)]
      ensures texts == old(texts)
    {
      tables := tables[tableId := []];
      var i := 0;
      while i < rows.Length
        invariant 0 <= i <= rows.Length
        invariant tables == old(tables)[tableId := RowsOf(rows[..i], cur)]
        invariant texts == old(texts)
      {
        tables := tables[tableId := tables[tableId] + [RowOf(rows[i], cur)]];
        assert rows[..i + 1] == rows[..i] + [rows[i]];
        RowsOfAppend(rows[..i], [rows[i]], cur);
        assert RowsOf([rows[i]], cur) == [RowOf(rows[i], cur)];
        i := i + 1;
      }
      assert rows[..i] == rows[..];
    }

    /**
     * `refreshMainDashboard()` given the two replies. Missing summary data
     * makes the flow throw before anything is written; a failed reply is
     * logged and the flow goes on. The chart shows the expenses of the
     * fetched list (`data || []`).
     */
    method RefreshMainDashboard(summary: Reply<Summary>, txs: Reply<seq<Transaction>>, cur: Currency)
      returns (outcome: Outcome)
      requires Valid()
      modifies this, registry
      ensures Valid()
      ensures outcome == Threw <==> summary == Ok(None)
      ensures texts == if summary.Ok? && summary.data.Some?
                       then SetTexts(old(texts), elements, SummaryLines(MainIds, summary.data.value, cur))
                       else old(texts)
      ensures tables == old(tables)
      ensures outcome == Completed && txs.Ok? && MainChart in elements ==>
                var drawn := Drawn(Expenses(txs.data.GetOr([])));
                var h := ChartHandle(old(registry.nextSerial), MainChart, drawn.0, drawn.1);
                && registry.charts == old(registry.charts)[MainChart := h]
                && registry.events == old(registry.events) + Replacement(old(registry.charts), h)
      ensures !(outcome == Completed && txs.Ok? && MainChart in elements) ==>
                registry.charts == old(registry.charts) && registry.events == old(registry.events)
    {
      if summary.Ok? {
        if summary.data.None? {
          return Threw;
        }
        WriteSummary(MainIds, summary.data.value, cur);
      }
      if txs.Ok? {
        var list := txs.data.GetOr([]);
        registry.Render(Expenses(list), MainChart, MainChart in elements);
      }
      return Completed;
    }

    /**
     * `fetchData(type)` given the two replies. Nothing is written when the
     * summary fails or the type is neither "Personal" nor "Business"; the
     * table, when the page has it, shows the fetched list newest first
     * (`shown` is the order the sort produced).
     */
    method FetchData(txType: string, summary: Reply<Summary>, txs: Reply<seq<Transaction>>, cur: Currency)
      returns (outcome: Outcome, ghost shown: seq<Transaction>)
      requires Valid()
      modifies this, registry
      ensures Valid()
      ensures outcome == Threw <==> summary == Ok(None) && PageIdsFor(txType).Some?
      ensures texts == if summary.Ok? && summary.data.Some? && PageIdsFor(txType).Some?
                       then SetTexts(old(texts), elements, SummaryLines(PageIdsFor(txType).value.text, summary.data.value, cur))
                       else old(texts)
      ensures var ids := PageIdsFor(txType);
              if summary.Ok? && summary.data.Some? && ids.Some? && txs.Ok? && ids.value.chartId in elements
              then
                var drawn := Drawn(Expenses(txs.data.GetOr([])));
                var h := ChartHandle(old(registry.nextSerial), ids.value.chartId, drawn.0, drawn.1);
                && registry.charts == old(registry.charts)[ids.value.chartId := h]
                && registry.events == old(registry.events) + Replacement(old(registry.charts), h)
              else
                registry.charts == old(registry.charts) && registry.events == old(registry.events)
      ensures var ids := PageIdsFor(txType);
              if summary.Ok? && summary.data.Some? && ids.Some? && txs.Ok? && ids.value.tableId in elements
              then
                && tables == old(tables)[ids.value.tableId := RowsOf(shown, cur)]
                && NewestFirst(shown)
                && multiset(shown) == multiset(txs.data.GetOr([]))
              else
                tables == old(tables)
    {
      shown := [];
      if summary.Failed? {
        return Completed, shown;
      }
      var ids := PageIdsFor(txType);
      if ids.None? {
        return Completed, shown;
      }
      if summary.data.None? {
        return Threw, shown;
      }
      var page := ids.value;
      WriteSummary(page.text, summary.data.value, cur);
      if txs.Ok? {
        shown := ShowTransactions(page, txs.data.GetOr([]), cur);
      }
      return Completed, shown;
    }

    /**
     * The part of `fetchData` after a successful transactions reply: the
     * expense chart, then the table (when the page has it) sorted newest first.
     */
    method ShowTransactions(page: PageIds, list: seq<Transaction>, cur: Currency) returns (ghost shown: seq<Transaction>)
      requires Valid()
      modifies this, registry
      ensures Valid()
      ensures texts == old(texts)
      ensures if page.chartId in elements
              then
                var h := ChartHandle(old(registry.nextSerial), page.chartId, Drawn(Expenses(list)).0, Drawn(Expenses(list)).1);
                && registry.charts == old(registry.charts)[page.chartId := h]
                && registry.events == old(registry.events) + Replacement(old(registry.charts), h)
              else
                registry.charts == old(registry.charts) && registry.events == old(registry.events)
      ensures if page.tableId in elements
              then
                && tables == old(tables)[page.tableId := RowsOf(shown, cur)]
                && NewestFirst(shown)
                && multiset(shown) == multiset(list)
              else
                tables == old(tables)
    {
      shown := [];
      registry.Render(Expenses(list), page.chartId, page.chartId in elements);
      if page.tableId in elements {
        var rows := new Transaction[|list|](i requires 0 <= i < |list| => list[i]);
        assert rows[..] == list;
        SortNewestFirst(rows);
        FillTable(page.tableId, rows, cur);
        shown := rows[..];
      }
    }
  }
}
