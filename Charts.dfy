/**
 * The expense chart of js/charts.js: transactions are folded into an
 * insertion-ordered object from category to summed amount, an empty result
 * becomes a single placeholder slice, and a registry keyed by canvas id keeps
 * at most one live chart per canvas. Chart.js itself is not part of this
 * model: constructing a chart yields a fresh handle recording what it draws.
 */
module Charts {
  import opened Js
  import opened Records

  const Uncategorized := "Uncategorized"
  const Placeholder := "No expenses"

  /** `(t.category || 'Uncategorized').toString()` */
  function CategoryOf(t: Transaction): (r: string)
    ensures r != ""
    ensures r == Uncategorized || (t.category.Some? && r == t.category.value)
  {
    if Truthy(t.category) then t.category.value else Uncategorized
  }

  /** `Number(t.amount) || 0` */
  function AmountOf(t: Transaction): real
  {
    OrZero(t.amount)
  }

  /** The categories of `txs`, each once, in the order they first occur. */
  function Categories(txs: seq<Transaction>): (r: seq<string>)
    ensures Distinct(r)
    ensures |r| <= |txs|
  {
    if txs == [] then []
    else
      var r := Categories(Init(txs));
      var c := CategoryOf(Last(txs));
      if c in r then r else r + [c]
  }

  /** The sum of the coerced amounts of the transactions in category `c`. */
  function CategoryTotal(txs: seq<Transaction>, c: string): real
  {
    if txs == [] then 0.0
    else CategoryTotal(Init(txs), c) + (if CategoryOf(Last(txs)) == c then AmountOf(Last(txs)) else 0.0)
  }

  /** The sum of the coerced amounts of all transactions. */
  function TotalAmount(txs: seq<Transaction>): real
  {
    if txs == [] then 0.0 else TotalAmount(Init(txs)) + AmountOf(Last(txs))
  }

  function Sum(xs: seq<real>): real
  {
    if xs == [] then 0.0 else xs[0] + Sum(xs[1..])
  }

  /** The per-category totals for the given labels, in label order. */
  function Totals(txs: seq<Transaction>, labels: seq<string>): (r: seq<real>)
    ensures |r| == |labels|
    ensures forall i :: 0 <= i < |labels| ==> r[i] == CategoryTotal(txs, labels[i])
  {
    if labels == [] then [] else [CategoryTotal(txs, labels[0])] + Totals(txs, labels[1..])
  }

  /** A category no transaction has sums to zero. */
  lemma {:induction false} NotACategoryTotal(txs: seq<Transaction>, c: string)
    requires c !in Categories(txs)
    ensures CategoryTotal(txs, c) == 0.0
  {
    if txs != [] {
      NotACategoryTotal(Init(txs), c);
    }
  }

  /** `finalLabels` / `finalData`: a single placeholder slice of value 1 when there is nothing to show. */
  function ChartData(labels: seq<string>, data: seq<real>): (r: (seq<string>, seq<real>))
    ensures |r.0| > 0 && |r.1| > 0
    ensures |labels| == |data| ==> |r.0| == |r.1|
  {
    (if |labels| > 0 then labels else [Placeholder], if |data| > 0 then data else [1.0])
  }

  /** What the chart for `txs` draws. */
  function Drawn(txs: seq<Transaction>): (seq<string>, seq<real>)
  {
    ChartData(Categories(txs), Totals(txs, Categories(txs)))
  }

  /** The position of the first transaction in category `c`, or `|txs|` when there is none. */
  function FirstIndex(txs: seq<Transaction>, c: string): (r: nat)
    ensures r <= |txs|
    ensures r < |txs| ==> CategoryOf(txs[r]) == c
    ensures forall k :: 0 <= k < r ==> CategoryOf(txs[k]) != c
  {
    if txs == [] then 0
    else if CategoryOf(txs[0]) == c then 0
    else 1 + FirstIndex(txs[1..], c)
  }

  lemma {:induction false} FirstIndexSnoc(txs: seq<Transaction>, t: Transaction, c: string)
    ensures FirstIndex(txs + [t], c) ==
              if FirstIndex(txs, c) < |txs| then FirstIndex(txs, c)
              else if CategoryOf(t) == c then |txs| else |txs| + 1
  {
    if txs != [] {
      assert (txs + [t])[1..] == txs[1..] + [t];
      FirstIndexSnoc(txs[1..], t, c);
    }
  }

  /** A label is present exactly when some transaction has that category. */
  lemma {:induction false} CategoriesFirstIndex(txs: seq<Transaction>, c: string)
    ensures c in Categories(txs) <==> FirstIndex(txs, c) < |txs|
  {
    if txs != [] {
      var init, last := Init(txs), Last(txs);
      CategoriesFirstIndex(init, c);
      assert c in Categories(txs) <==> c in Categories(init) || CategoryOf(last) == c;
      InitLast(txs);
      FirstIndexSnoc(init, last, c);
    }
  }

  /** Every label is the category of some transaction, and every transaction's category is a label. */
  lemma CategoriesAreKeys(txs: seq<Transaction>, c: string)
    ensures c in Categories(txs) <==> exists i :: 0 <= i < |txs| && CategoryOf(txs[i]) == c
  {
    CategoriesFirstIndex(txs, c);
  }

  /** No transactions, no labels; some transactions, some labels. */
  lemma CategoriesEmpty(txs: seq<Transaction>)
    ensures Categories(txs) == [] <==> txs == []
  {
    if txs != [] {
      CategoriesAreKeys(txs, CategoryOf(txs[0]));
    }
  }

  /** The labels appear in the order in which their categories first occur. */
  lemma {:induction false} CategoriesInFirstOccurrenceOrder(txs: seq<Transaction>, i: nat, j: nat)
    requires i < j < |Categories(txs)|
    ensures FirstIndex(txs, Categories(txs)[i]) < FirstIndex(txs, Categories(txs)[j]) < |txs|
  {
    var p, t := Init(txs), Last(txs);
    assert txs == p + [t];
    var L := Categories(p);
    var a, b := Categories(txs)[i], Categories(txs)[j];
    FirstIndexSnoc(p, t, a);
    FirstIndexSnoc(p, t, b);
    if j < |L| {
      CategoriesInFirstOccurrenceOrder(p, i, j);
    } else {
      // `b` is the category `t` introduced; `a` was already there
      assert b == CategoryOf(t) && b !in L && a == L[i];
      CategoriesFirstIndex(p, a);
      CategoriesFirstIndex(p, b);
    }
  }

  lemma {:induction false} SumAppend(xs: seq<real>, ys: seq<real>)
    ensures Sum(xs + ys) == Sum(xs) + Sum(ys)
  {
    if xs != [] {
      assert (xs + ys)[1..] == xs[1..] + ys;
      SumAppend(xs[1..], ys);
    } else {
      assert xs + ys == ys;
    }
  }

  /** Adding one transaction adds its amount to the total of its own label and leaves every other label's total alone. */
  lemma TotalsSnocAt(txs: seq<Transaction>, t: Transaction, labels: seq<string>, i: nat)
    requires i < |labels|
    ensures Totals(txs + [t], labels)[i] == Totals(txs, labels)[i] + if labels[i] == CategoryOf(t) then AmountOf(t) else 0.0
  {
    CategoryTotalSnoc(txs, t, labels[i]);
  }

  /** Over distinct labels, one more transaction adds its amount to the sum of the totals exactly when its category is a label. */
  lemma {:induction false} TotalsSnoc(txs: seq<Transaction>, t: Transaction, labels: seq<string>)
    requires Distinct(labels)
    ensures Sum(Totals(txs + [t], labels)) ==
              Sum(Totals(txs, labels)) + if CategoryOf(t) in labels then AmountOf(t) else 0.0
  {
    if labels != [] {
      var rest := labels[1..];
      assert Distinct(rest) by {
        forall x, y | 0 <= x < y < |rest| ensures rest[x] != rest[y] {
          assert rest[x] == labels[x + 1] && rest[y] == labels[y + 1];
        }
      }
      assert labels[0] !in rest by {
        forall y | 0 <= y < |rest| ensures rest[y] != labels[0] {
          assert rest[y] == labels[y + 1];
        }
      }
      assert Init(txs + [t]) == txs && Last(txs + [t]) == t;
      TotalsSnoc(txs, t, rest);
    }
  }

  lemma TotalsAppend(txs: seq<Transaction>, labels: seq<string>, c: string)
    ensures Totals(txs, labels + [c]) == Totals(txs, labels) + [CategoryTotal(txs, c)]
  {
  }

  /** The slices of the chart add up to the sum of all coerced amounts. */
  lemma {:induction false} TotalsSumToTotalAmount(txs: seq<Transaction>)
    ensures Sum(Totals(txs, Categories(txs))) == TotalAmount(txs)
  {
    if txs != [] {
      var p, t := Init(txs), Last(txs);
      assert txs == p + [t];
      var L := Categories(p);
      TotalsSumToTotalAmount(p);
      TotalsSnoc(p, t, L);
      if CategoryOf(t) !in L {
        TotalsAppend(txs, L, CategoryOf(t));
        SumAppend(Totals(txs, L), [CategoryTotal(txs, CategoryOf(t))]);
        NotACategoryTotal(p, CategoryOf(t));
      }
    }
  }

  /**
   * No transactions draw exactly the placeholder slice of value 1; otherwise
   * the chart draws the labels and totals unchanged, so the placeholder label
   * can only appear as a real category.
   */
  lemma DrawnPlaceholder(txs: seq<Transaction>)
    ensures txs == [] ==> Drawn(txs) == ([Placeholder], [1.0])
    ensures txs != [] ==> Drawn(txs) == (Categories(txs), Totals(txs, Categories(txs)))
    ensures txs != [] && Placeholder in Drawn(txs).0 ==>
              exists i :: 0 <= i < |txs| && CategoryOf(txs[i]) == Placeholder
  {
    CategoriesEmpty(txs);
    CategoriesAreKeys(txs, Placeholder);
  }

  /** Every key of `agg` holds the total of its category in `txs`. */
  ghost predicate TotalsMatch(agg: seq<(string, real)>, txs: seq<Transaction>)
  {
    forall c {:trigger Get(agg, c)} :: c in Names(agg) ==> Get(agg, c) == Some(CategoryTotal(txs, c))
  }

  /** `agg` holds, in first-occurrence order, every category of `txs` with its total. */
  ghost predicate Aggregated(agg: seq<(string, real)>, txs: seq<Transaction>)
  {
    Names(agg) == Categories(txs) && TotalsMatch(agg, txs)
  }

  /** Between the two statements of the loop body: `t`'s category has a slot, the totals still omit `t`. */
  ghost predicate Pending(agg: seq<(string, real)>, txs: seq<Transaction>, t: Transaction)
  {
    Names(agg) == Categories(txs + [t]) && TotalsMatch(agg, txs)
  }

  /** One more transaction adds a label exactly when its category is new. */
  lemma CategoriesSnoc(txs: seq<Transaction>, t: Transaction)
    ensures Categories(txs + [t]) ==
              if CategoryOf(t) in Categories(txs) then Categories(txs) else Categories(txs) + [CategoryOf(t)]
  {
    assert Init(txs + [t]) == txs && Last(txs + [t]) == t;
  }

  /** One more transaction adds its amount to its own category's total only. */
  lemma CategoryTotalSnoc(txs: seq<Transaction>, t: Transaction, c: string)
    ensures CategoryTotal(txs + [t], c) == CategoryTotal(txs, c) + if CategoryOf(t) == c then AmountOf(t) else 0.0
  {
    assert Init(txs + [t]) == txs && Last(txs + [t]) == t;
  }

  /** `if (!agg[cat]) agg[cat] = 0;` on a missing or zero slot. */
  lemma ResetSlot(agg: seq<(string, real)>, txs: seq<Transaction>, t: Transaction)
    requires Aggregated(agg, txs)
    requires Get(agg, CategoryOf(t)) == None || Get(agg, CategoryOf(t)) == Some(0.0)
    ensures Pending(Put(agg, CategoryOf(t), 0.0), txs, t)
  {
    var cat := CategoryOf(t);
    var agg' := Put(agg, cat, 0.0);
    CategoriesSnoc(txs, t);
    PutNames(agg, cat, 0.0);
    if cat !in Names(agg) {
      NotACategoryTotal(txs, cat);
    }
    forall c | c in Names(agg')
      ensures Get(agg', c) == Some(CategoryTotal(txs, c))
    {
      PutGet(agg, cat, 0.0, c);
    }
  }

  /** `if (!agg[cat]) ...` on a slot that already holds a non-zero total does nothing. */
  lemma KeepSlot(agg: seq<(string, real)>, txs: seq<Transaction>, t: Transaction)
    requires Aggregated(agg, txs)
    requires Get(agg, CategoryOf(t)).Some?
    ensures Pending(agg, txs, t)
  {
    CategoriesSnoc(txs, t);
  }

  /** `agg[cat] += amt;` completes the step for `t`. */
  lemma AddToSlot(agg: seq<(string, real)>, txs: seq<Transaction>, t: Transaction)
    requires Pending(agg, txs, t)
    ensures Get(agg, CategoryOf(t)).Some?
    ensures Aggregated(Put(agg, CategoryOf(t), Get(agg, CategoryOf(t)).value + AmountOf(t)), txs + [t])
  {
    var cat := CategoryOf(t);
    assert cat in Names(agg) by {
      CategoriesSnoc(txs, t);
    }
    var updated := Get(agg, cat).value + AmountOf(t);
    assert Names(Put(agg, cat, updated)) == Names(agg) by {
      PutNames(agg, cat, updated);
    }
    AddedTotals(agg, txs, t, updated);
  }

  /** Adding the amount to the slot of `t`'s category makes every slot count `t`. */
  lemma AddedTotals(agg: seq<(string, real)>, txs: seq<Transaction>, t: Transaction, updated: real)
    requires TotalsMatch(agg, txs)
    requires CategoryOf(t) in Names(agg)
    requires updated == Get(agg, CategoryOf(t)).value + AmountOf(t)
    ensures TotalsMatch(Put(agg, CategoryOf(t), updated), txs + [t])
  {
    forall c | c in Names(Put(agg, CategoryOf(t), updated))
      ensures Get(Put(agg, CategoryOf(t), updated), c) == Some(CategoryTotal(txs + [t], c))
    {
      assert c in Names(agg) by {
        PutNames(agg, CategoryOf(t), updated);
      }
      AddedTotalAt(agg, txs, t, c, updated);
    }
  }

  /** One slot after the update: `t`'s own slot grows by its amount, the others stay. */
  lemma AddedTotalAt(agg: seq<(string, real)>, txs: seq<Transaction>, t: Transaction, c: string, updated: real)
    requires Get(agg, c) == Some(CategoryTotal(txs, c))
    requires updated == CategoryTotal(txs, CategoryOf(t)) + AmountOf(t)
    ensures Get(Put(agg, CategoryOf(t), updated), c) == Some(CategoryTotal(txs + [t], c))
  {
    PutGet(agg, CategoryOf(t), updated, c);
    CategoryTotalSnoc(txs, t, c);
  }

  /**
   * The `forEach` callback: `agg[cat]` is reset when falsy, then the
   * transaction's amount is added to it.
   */
  method Tally(agg: seq<(string, real)>, t: Transaction, ghost seen: seq<Transaction>) returns (r: seq<(string, real)>)
    requires Aggregated(agg, seen)
    ensures Aggregated(r, seen + [t])
  {
    var cat := CategoryOf(t);
    var amt := AmountOf(t);
    r := agg;
    var current := Get(r, cat);
    if current == None || current == Some(0.0) {
      ResetSlot(r, seen, t);
      r := Put(r, cat, 0.0);
    } else {
      KeepSlot(r, seen, t);
    }
    AddToSlot(r, seen, t);
    r := Put(r, cat, Get(r, cat).value + amt);
  }

  /**
   * The aggregation loop of `renderExpenseChart`: `agg` is a plain object
   * updated in place, `labels` are its keys and `data` their values.
   */
  method AggregateByCategory(txs: seq<Transaction>) returns (labels: seq<string>, data: seq<real>)
    ensures labels == Categories(txs)
    ensures |data| == |labels|
    ensures forall i :: 0 <= i < |labels| ==> data[i] == CategoryTotal(txs, labels[i])
  {
    var agg: seq<(string, real)> := [];
    ghost var seen: seq<Transaction> := [];
    var i := 0;
    while i < |txs|
      invariant 0 <= i <= |txs|
      invariant seen == txs[..i]
      invariant Aggregated(agg, seen)
    {
      agg := Tally(agg, txs[i], seen);
      seen := seen + [txs[i]];
      assert seen == txs[..i + 1];
      i := i + 1;
    }
    assert seen == txs;
    labels := Names(agg);
    // `labels.map(l => agg[l])`
    data := seq(|labels|, j requires 0 <= j < |labels| => Get(agg, labels[j]).value);
  }

  /** A chart instance: a fresh serial number, its canvas, and what it draws. */
  datatype ChartHandle = ChartHandle(serial: nat, canvasId: string, labels: seq<string>, data: seq<real>)

  /** What happens to chart instances, in order: `new Chart(...)` and `destroy()`. */
  datatype Event = Created(chart: ChartHandle) | Destroyed(chart: ChartHandle)

  /** `h` has been constructed in `events` and not destroyed since. */
  ghost predicate LiveIn(events: seq<Event>, h: ChartHandle)
  {
    if events == [] then false
    else if Last(events) == Created(h) then true
    else if Last(events) == Destroyed(h) then false
    else LiveIn(Init(events), h)
  }

  function CreatedCount(events: seq<Event>): nat
  {
    if events == [] then 0 else CreatedCount(Init(events)) + if Last(events).Created? then 1 else 0
  }

  /**
   * Every chart is constructed with the next serial on a canvas that has no
   * live chart at that moment, and only a live chart is destroyed.
   */
  ghost predicate Disciplined(events: seq<Event>)
  {
    events == [] ||
    (Disciplined(Init(events)) &&
     match Last(events)
     case Created(h) =>
       && h.serial == CreatedCount(Init(events))
       && forall g :: LiveIn(Init(events), g) ==> g.canvasId != h.canvasId
     case Destroyed(h) => LiveIn(Init(events), h))
  }

  /** `charts` holds, under its canvas id, exactly the live charts of `events`. */
  ghost predicate Tracks(charts: map<string, ChartHandle>, events: seq<Event>)
  {
    && (forall id :: id in charts ==> charts[id].canvasId == id && LiveIn(events, charts[id]))
    && (forall h :: LiveIn(events, h) ==> h.canvasId in charts && charts[h.canvasId] == h)
  }

  /** The registry invariant over the registry's state as values. */
  ghost predicate RegistryInvariant(charts: map<string, ChartHandle>, events: seq<Event>, nextSerial: nat)
  {
    Disciplined(events) && nextSerial == CreatedCount(events) && Tracks(charts, events)
  }

  /** What replacing the chart of `h`'s canvas by `h` does: the old chart, if any, is destroyed, then `h` is constructed. */
  function Replacement(charts: map<string, ChartHandle>, h: ChartHandle): seq<Event>
  {
    (if h.canvasId in charts then [Destroyed(charts[h.canvasId])] else []) + [Created(h)]
  }

  /** In a disciplined history, two live charts on one canvas are the same chart. */
  lemma {:induction false} OneLivePerCanvas(events: seq<Event>, h1: ChartHandle, h2: ChartHandle)
    requires Disciplined(events)
    requires LiveIn(events, h1) && LiveIn(events, h2) && h1.canvasId == h2.canvasId
    ensures h1 == h2
  {
    var p := Init(events);
    if h1 != Last(events).chart && h2 != Last(events).chart {
      OneLivePerCanvas(p, h1, h2);
    }
  }

  /** Every prefix of a disciplined history is disciplined. */
  lemma {:induction false} DisciplinedPrefix(events: seq<Event>, k: nat)
    requires Disciplined(events) && k <= |events|
    ensures Disciplined(events[..k])
    decreases |events|
  {
    if k < |events| {
      assert events[..k] == Init(events)[..k];
      DisciplinedPrefix(Init(events), k);
    } else {
      assert events[..k] == events;
    }
  }

  /** At every moment of a disciplined history, a canvas has at most one live chart. */
  lemma OneLivePerCanvasAlways(events: seq<Event>, k: nat, h1: ChartHandle, h2: ChartHandle)
    requires Disciplined(events) && k <= |events|
    requires LiveIn(events[..k], h1) && LiveIn(events[..k], h2) && h1.canvasId == h2.canvasId
    ensures h1 == h2
  {
    DisciplinedPrefix(events, k);
    OneLivePerCanvas(events[..k], h1, h2);
  }

  /** Each construction in a disciplined history happens on a canvas whose previous chart is already destroyed. */
  lemma CreatedOnFreeCanvas(events: seq<Event>, i: nat, g: ChartHandle)
    requires Disciplined(events) && i < |events| && events[i].Created?
    requires LiveIn(events[..i], g)
    ensures g.canvasId != events[i].chart.canvasId
  {
    DisciplinedPrefix(events, i + 1);
    assert Init(events[..i + 1]) == events[..i] && Last(events[..i + 1]) == events[i];
  }

  /** Constructing a chart while the canvas's old chart is still live breaks the discipline. */
  lemma CreateBeforeDestroyRejected(charts: map<string, ChartHandle>, events: seq<Event>, nextSerial: nat, h: ChartHandle)
    requires RegistryInvariant(charts, events, nextSerial)
    requires h.canvasId in charts
    ensures !Disciplined(events + [Created(h)])
  {
    InitLastSnoc(events, Created(h));
    assert LiveIn(events, charts[h.canvasId]);
  }

  /** `CHARTS[canvasId].destroy(); CHARTS[canvasId] = null;`: the canvas is left without a live chart. */
  lemma DestroyStep(charts: map<string, ChartHandle>, events: seq<Event>, canvasId: string)
    requires Disciplined(events) && Tracks(charts, events) && canvasId in charts
    ensures var after := events + [Destroyed(charts[canvasId])];
            && Disciplined(after)
            && CreatedCount(after) == CreatedCount(events)
            && Tracks(charts - {canvasId}, after)
  {
    var d := charts[canvasId];
    var after := events + [Destroyed(d)];
    InitLastSnoc(events, Destroyed(d));
    forall g ensures LiveIn(after, g) <==> g != d && LiveIn(events, g) {
    }
    forall g | LiveIn(events, g) && g != d ensures g.canvasId != canvasId {
    }
  }

  /** `CHARTS[canvasId] = new Chart(...)` on a canvas without a live chart. */
  lemma CreateStep(charts: map<string, ChartHandle>, events: seq<Event>, h: ChartHandle)
    requires Disciplined(events) && Tracks(charts, events)
    requires h.canvasId !in charts && h.serial == CreatedCount(events)
    ensures var after := events + [Created(h)];
            && Disciplined(after)
            && CreatedCount(after) == CreatedCount(events) + 1
            && Tracks(charts[h.canvasId := h], after)
  {
    var after := events + [Created(h)];
    InitLastSnoc(events, Created(h));
    forall g ensures LiveIn(after, g) <==> g == h || LiveIn(events, g) {
    }
  }

  /** Destroying the registered chart of the canvas, if any, then storing a fresh one keeps the invariant. */
  lemma ReplaceKeepsInvariant(charts: map<string, ChartHandle>, events: seq<Event>, nextSerial: nat,
                              canvasId: string, labels: seq<string>, data: seq<real>)
    requires RegistryInvariant(charts, events, nextSerial)
    ensures var h := ChartHandle(nextSerial, canvasId, labels, data);
            RegistryInvariant(charts[canvasId := h], events + Replacement(charts, h), nextSerial + 1)
  {
    var h := ChartHandle(nextSerial, canvasId, labels, data);
    if canvasId in charts {
      var mid := events + [Destroyed(charts[canvasId])];
      DestroyStep(charts, events, canvasId);
      CreateStep(charts - {canvasId}, mid, h);
      assert (charts - {canvasId})[canvasId := h] == charts[canvasId := h];
      assert mid + [Created(h)] == events + Replacement(charts, h);
    } else {
      CreateStep(charts, events, h);
      assert events + Replacement(charts, h) == events + [Created(h)];
    }
  }

  /** The module-level `CHARTS` object: at most one chart per canvas id. */
  class ChartRegistry {
    var charts: map<string, ChartHandle>
    /** Serial number of the next chart to construct (`new Chart` always yields a fresh instance). */
    var nextSerial: nat
    /** Every construction and every call of `destroy()`, in order. */
    ghost var events: seq<Event>

    /** A chart is live from its construction until `destroy()` is called on it. */
    ghost predicate Live(h: ChartHandle)
      reads this
    {
      LiveIn(events, h)
    }

    ghost predicate Valid()
      reads this
    {
      RegistryInvariant(charts, events, nextSerial)
    }

    constructor ()
      ensures Valid()
      ensures charts == map[] && events == [] && nextSerial == 0
    {
      charts, nextSerial := map[], 0;
      events := [];
    }

    /** The registered chart of a canvas is the one live chart bound to it. */
    lemma OneLiveChartPerCanvas(h1: ChartHandle, h2: ChartHandle)
      requires Valid()
      requires Live(h1) && Live(h2) && h1.canvasId == h2.canvasId
      ensures h1 == h2
    {
      OneLivePerCanvas(events, h1, h2);
    }

    /**
     * `renderExpenseChart(txs, canvasId)`; `canvasPresent` says whether the
     * page has a canvas with that id. An existing chart is destroyed (its
     * errors ignored) before the new one is constructed and stored.
     */
    method Render(txs: seq<Transaction>, canvasId: string, canvasPresent: bool)
      requires Valid()
      modifies this
      ensures Valid()
      ensures !canvasPresent ==>
                charts == old(charts) && events == old(events) && nextSerial == old(nextSerial)
      ensures canvasPresent ==>
                var h := ChartHandle(old(nextSerial), canvasId, Drawn(txs).0, Drawn(txs).1);
                && charts == old(charts)[canvasId := h]
                && events == old(events) + Replacement(old(charts), h)
                && nextSerial == old(nextSerial) + 1
    {
      if !canvasPresent {
        return;
      }
      var labels, data := AggregateByCategory(txs);
      assert data == Totals(txs, labels);
      var drawn := ChartData(labels, data);
      Replace(canvasId, drawn.0, drawn.1);
    }

    /** `if (CHARTS[canvasId]) { try { CHARTS[canvasId].destroy(); } catch (err) {} CHARTS[canvasId] = null; }` then `CHARTS[canvasId] = new Chart(...)`. */
    method Replace(canvasId: string, labels: seq<string>, data: seq<real>)
      requires Valid()
      modifies this
      ensures Valid()
      ensures var h := ChartHandle(old(nextSerial), canvasId, labels, data);
              && charts == old(charts)[canvasId := h]
              && events == old(events) + Replacement(old(charts), h)
              && nextSerial == old(nextSerial) + 1
    {
      if canvasId in charts {
        DestroyStep(charts, events, canvasId);
        events := events + [Destroyed(charts[canvasId])];
        charts := charts - {canvasId};
      }
      var chart := ChartHandle(nextSerial, canvasId, labels, data);
      CreateStep(charts, events, chart);
      events := events + [Created(chart)];
      charts, nextSerial := charts[canvasId := chart], nextSerial + 1;
      assert events == old(events) + Replacement(old(charts), chart);
      assert charts == old(charts)[canvasId := chart];
    }
  }
}
