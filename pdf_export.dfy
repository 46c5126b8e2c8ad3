/**
 * The arithmetic and the composition behind src/components/ui/PDFExport.tsx: the
 * statistics of the current month, the revenue per month for the chart, the rows of
 * the three tables, the currency and locale defaults, and the page footers.
 *
 * Dates stay opaque strings. `monthOf` stands for reading a date's local month and
 * year (None for a date JavaScript cannot read), `labelOf` for its French month-year
 * label, `dateText` for its French short form.
 */
module PdfExport {
  import opened Wrappers
  import opened Seqs
  import opened Types

  /** A calendar month, as `getFullYear()` and `getMonth()` (0 to 11) give it. */
  datatype YearMonth = YearMonth(year: int, month: int)

  datatype MonthlyStats = MonthlyStats(
    totalAmount: real, invoiceCount: nat, averageInvoice: real, largestInvoice: real)

  datatype MonthlyReport = MonthlyReport(currentMonthInvoices: seq<Invoice>, monthlyStats: MonthlyStats)

  function InMonth(monthOf: string -> Option<YearMonth>, current: YearMonth): Invoice -> bool {
    (inv: Invoice) => monthOf(inv.date) == Some(current)
  }

  /** The reduce that adds the `total` of each invoice, left to right. */
  function SumTotals(invoices: seq<Invoice>): real
    decreases |invoices|
  {
    if invoices == [] then 0.0
    else SumTotals(invoices[..|invoices| - 1]) + invoices[|invoices| - 1].total
  }

  /** The reduce with `Math.max`, starting from 0. */
  function LargestTotal(invoices: seq<Invoice>): real
    decreases |invoices|
  {
    if invoices == [] then 0.0
    else
      var rest, last := LargestTotal(invoices[..|invoices| - 1]), invoices[|invoices| - 1].total;
      if rest >= last then rest else last
  }

  lemma {:induction false} SumTotalsAppend(a: seq<Invoice>, b: seq<Invoice>)
    ensures SumTotals(a + b) == SumTotals(a) + SumTotals(b)
    decreases |b|
  {
    if b == [] {
      assert a + b == a;
    } else {
      assert (a + b)[..|a + b| - 1] == a + b[..|b| - 1];
      SumTotalsAppend(a, b[..|b| - 1]);
    }
  }

  /** The largest total is max(0, every total): no total exceeds it, it is not negative,
      and unless it is 0 some invoice has it. */
  lemma {:induction false} LargestTotalBounds(invoices: seq<Invoice>)
    ensures LargestTotal(invoices) >= 0.0
    ensures forall k :: 0 <= k < |invoices| ==> invoices[k].total <= LargestTotal(invoices)
    ensures LargestTotal(invoices) == 0.0 || exists k :: 0 <= k < |invoices| && invoices[k].total == LargestTotal(invoices)
    decreases |invoices|
  {
    if invoices != [] {
      var init := invoices[..|invoices| - 1];
      LargestTotalBounds(init);
      assert forall k :: 0 <= k < |init| ==> init[k] == invoices[k];
    }
  }

  /** The sum of the totals is at most their count times the largest. */
  lemma {:induction false} SumAtMostCountTimesLargest(invoices: seq<Invoice>)
    ensures SumTotals(invoices) <= (|invoices| as real) * LargestTotal(invoices)
    decreases |invoices|
  {
    if invoices != [] {
      var init, last := invoices[..|invoices| - 1], invoices[|invoices| - 1];
      SumAtMostCountTimesLargest(init);
      LargestTotalBounds(init);
      var n, m, m' := |init| as real, LargestTotal(init), LargestTotal(invoices);
      assert m <= m' && last.total <= m';
      assert n * m <= n * m';
      assert SumTotals(invoices) == SumTotals(init) + last.total;
      assert SumTotals(invoices) <= n * m' + m';
      assert (|invoices| as real) * m' == n * m' + m';
    }
  }

  /** `averageInvoice`: the total divided by the count, or 0 for an empty month. */
  function Average(total: real, count: nat): (r: real)
    ensures count > 0 ==> r * (count as real) == total
    ensures count == 0 ==> r == 0.0
  {
    if count > 0 then total / (count as real) else 0.0
  }

  lemma QuotientAtMost(total: real, count: nat, bound: real)
    requires count > 0 && total <= (count as real) * bound
    ensures Average(total, count) <= bound
  {
    var n := count as real;
    var a := Average(total, count);
    if a > bound {
      assert a * n > bound * n;
    }
  }

  /** `generateMonthlyReport`: the invoices of the current month and their statistics. */
  function GenerateMonthlyReport(data: AppData, monthOf: string -> Option<YearMonth>, current: YearMonth): (r: MonthlyReport)
    ensures forall x ::
      multiset(r.currentMonthInvoices)[x] == if monthOf(x.date) == Some(current) then multiset(data.invoices)[x] else 0
    ensures IsSubsequence(r.currentMonthInvoices, data.invoices)
    ensures r.monthlyStats.invoiceCount == |r.currentMonthInvoices|
    ensures r.monthlyStats.totalAmount == SumTotals(r.currentMonthInvoices)
    ensures r.monthlyStats.averageInvoice == Average(r.monthlyStats.totalAmount, r.monthlyStats.invoiceCount)
    ensures r.monthlyStats.largestInvoice == LargestTotal(r.currentMonthInvoices)
    ensures r.monthlyStats.largestInvoice >= 0.0
    ensures forall x :: x in r.currentMonthInvoices ==> x.total <= r.monthlyStats.largestInvoice
    ensures r.monthlyStats.largestInvoice == 0.0 ||
      exists x :: x in r.currentMonthInvoices && x.total == r.monthlyStats.largestInvoice
  {
    var inMonth := Filter(data.invoices, InMonth(monthOf, current));
    LargestTotalBounds(inMonth);
    var total := SumTotals(inMonth);
    MonthlyReport(inMonth, MonthlyStats(
      totalAmount := total,
      invoiceCount := |inMonth|,
      averageInvoice := Average(total, |inMonth|),
      largestInvoice := LargestTotal(inMonth)))
  }

  /** Over any invoices, the average never exceeds the largest total. */
  lemma AverageAtMostLargestTotal(invoices: seq<Invoice>)
    ensures Average(SumTotals(invoices), |invoices|) <= LargestTotal(invoices)
  {
    if |invoices| > 0 {
      SumAtMostCountTimesLargest(invoices);
      QuotientAtMost(SumTotals(invoices), |invoices|, LargestTotal(invoices));
    } else {
      assert LargestTotal(invoices) == 0.0;
    }
  }

  /** In the report, the average never exceeds the largest invoice. */
  lemma AverageAtMostLargest(data: AppData, monthOf: string -> Option<YearMonth>, current: YearMonth)
    ensures var s := GenerateMonthlyReport(data, monthOf, current).monthlyStats;
            s.averageInvoice <= s.largestInvoice
  {
    AverageAtMostLargestTotal(GenerateMonthlyReport(data, monthOf, current).currentMonthInvoices);
  }

  // Revenue per month, for the chart.

  /** The month label of each invoice, in order. */
  function MonthLabels(invoices: seq<Invoice>, labelOf: string -> string): (r: seq<string>)
    ensures |r| == |invoices|
    decreases |invoices|
  {
    if invoices == [] then []
    else MonthLabels(invoices[..|invoices| - 1], labelOf) + [labelOf(invoices[|invoices| - 1].date)]
  }

  /** The label at each position is the label of the invoice there. */
  lemma {:induction false} MonthLabelsAt(invoices: seq<Invoice>, labelOf: string -> string)
    ensures forall k :: 0 <= k < |invoices| ==> MonthLabels(invoices, labelOf)[k] == labelOf(invoices[k].date)
    decreases |invoices|
  {
    if invoices != [] {
      var init := invoices[..|invoices| - 1];
      MonthLabelsAt(init, labelOf);
      assert forall k :: 0 <= k < |init| ==> init[k] == invoices[k];
    }
  }

  /** The keys of the accumulator: the month labels with repeats dropped. */
  function FirstSeenLabels(invoices: seq<Invoice>, labelOf: string -> string): seq<string> {
    Dedup(MonthLabels(invoices, labelOf))
  }

  /** Every month label appears once among the keys, in order of first occurrence, and
      nothing else does. */
  lemma FirstSeenLabelsOrder(invoices: seq<Invoice>, labelOf: string -> string)
    ensures Distinct(FirstSeenLabels(invoices, labelOf))
    ensures forall l :: l in FirstSeenLabels(invoices, labelOf) <==> exists k :: 0 <= k < |invoices| && labelOf(invoices[k].date) == l
    ensures var r, ls := FirstSeenLabels(invoices, labelOf), MonthLabels(invoices, labelOf);
            forall i, j :: 0 <= i < j < |r| ==> IndexOf(ls, r[i]) < IndexOf(ls, r[j])
  {
    var ls := MonthLabels(invoices, labelOf);
    DedupFirstOccurrenceOrder(ls);
    MonthLabelsAt(invoices, labelOf);
    forall l ensures l in ls <==> exists k :: 0 <= k < |invoices| && labelOf(invoices[k].date) == l {
      if l in ls {
        var k :| 0 <= k < |ls| && ls[k] == l;
        assert labelOf(invoices[k].date) == l;
      }
    }
  }

  /** The sum of the totals of the invoices that carry `tag`. */
  function LabelTotal(invoices: seq<Invoice>, labelOf: string -> string, tag: string): real
    decreases |invoices|
  {
    if invoices == [] then 0.0
    else
      var last := invoices[|invoices| - 1];
      LabelTotal(invoices[..|invoices| - 1], labelOf, tag) + (if labelOf(last.date) == tag then last.total else 0.0)
  }

  function HasLabel(labelOf: string -> string, tag: string): Invoice -> bool {
    (inv: Invoice) => labelOf(inv.date) == tag
  }

  /** A tag's value is the sum of the totals of exactly the invoices with that tag. */
  lemma {:induction false} LabelTotalIsFilteredSum(invoices: seq<Invoice>, labelOf: string -> string, tag: string)
    ensures LabelTotal(invoices, labelOf, tag) == SumTotals(Filter(invoices, HasLabel(labelOf, tag)))
    decreases |invoices|
  {
    if invoices != [] {
      var init, last := invoices[..|invoices| - 1], invoices[|invoices| - 1];
      assert invoices == init + [last];
      LabelTotalIsFilteredSum(init, labelOf, tag);
      FilterAppend(init, [last], HasLabel(labelOf, tag));
      SumTotalsAppend(Filter(init, HasLabel(labelOf, tag)), Filter([last], HasLabel(labelOf, tag)));
    }
  }

  lemma {:induction false} LabelTotalOfAbsent(invoices: seq<Invoice>, labelOf: string -> string, tag: string)
    requires tag !in MonthLabels(invoices, labelOf)
    ensures LabelTotal(invoices, labelOf, tag) == 0.0
    decreases |invoices|
  {
    if invoices != [] {
      var init := invoices[..|invoices| - 1];
      assert MonthLabels(invoices, labelOf) == MonthLabels(init, labelOf) + [labelOf(invoices[|invoices| - 1].date)];
      LabelTotalOfAbsent(init, labelOf, tag);
    }
  }

  /** The sum of the tag values over a list of labels. */
  function SumOverLabels(invoices: seq<Invoice>, labelOf: string -> string, labels: seq<string>): real
    decreases |labels|
  {
    if labels == [] then 0.0
    else SumOverLabels(invoices, labelOf, labels[..|labels| - 1]) + LabelTotal(invoices, labelOf, labels[|labels| - 1])
  }

  /** One more invoice adds its total to the value of its own tag, if that tag is listed once. */
  lemma {:induction false} SumOverLabelsStep(invoices: seq<Invoice>, x: Invoice, labelOf: string -> string, labels: seq<string>)
    requires Distinct(labels)
    ensures SumOverLabels(invoices + [x], labelOf, labels) ==
      SumOverLabels(invoices, labelOf, labels) + (if labelOf(x.date) in labels then x.total else 0.0)
    decreases |labels|
  {
    if labels != [] {
      var init, last := labels[..|labels| - 1], labels[|labels| - 1];
      assert labels == init + [last];
      assert Distinct(init);
      SumOverLabelsStep(invoices, x, labelOf, init);
      assert (invoices + [x])[..|invoices|] == invoices;
    }
  }

  /** One more invoice adds its label at the end, unless the label was already seen. */
  lemma FirstSeenLabelsStep(invoices: seq<Invoice>, x: Invoice, labelOf: string -> string)
    ensures var keys := FirstSeenLabels(invoices, labelOf);
            FirstSeenLabels(invoices + [x], labelOf) ==
              if labelOf(x.date) in keys then keys else keys + [labelOf(x.date)]
  {
    var ls := MonthLabels(invoices, labelOf);
    assert (invoices + [x])[..|invoices|] == invoices;
    assert MonthLabels(invoices + [x], labelOf) == ls + [labelOf(x.date)];
    assert (ls + [labelOf(x.date)])[..|ls|] == ls;
  }

  lemma LabelTotalStep(invoices: seq<Invoice>, x: Invoice, labelOf: string -> string, tag: string)
    ensures LabelTotal(invoices + [x], labelOf, tag) ==
      LabelTotal(invoices, labelOf, tag) + (if labelOf(x.date) == tag then x.total else 0.0)
  {
    assert (invoices + [x])[..|invoices|] == invoices;
  }

  /** One more invoice adds its total to the sum of the monthly values. */
  lemma GroupingStep(invoices: seq<Invoice>, x: Invoice, labelOf: string -> string)
    ensures SumOverLabels(invoices + [x], labelOf, FirstSeenLabels(invoices + [x], labelOf)) ==
      SumOverLabels(invoices, labelOf, FirstSeenLabels(invoices, labelOf)) + x.total
  {
    var keys, l := FirstSeenLabels(invoices, labelOf), labelOf(x.date);
    SumOverLabelsStep(invoices, x, labelOf, keys);
    FirstSeenLabelsStep(invoices, x, labelOf);
    if l !in keys {
      var keys' := keys + [l];
      assert keys'[..|keys|] == keys;
      assert SumOverLabels(invoices + [x], labelOf, keys') ==
        SumOverLabels(invoices + [x], labelOf, keys) + LabelTotal(invoices + [x], labelOf, l);
      LabelTotalStep(invoices, x, labelOf, l);
      LabelTotalOfAbsent(invoices, labelOf, l);
    }
  }

  /** The monthly values add up to the total over all invoices. */
  lemma {:induction false} GroupingPreservesTotal(invoices: seq<Invoice>, labelOf: string -> string)
    ensures SumOverLabels(invoices, labelOf, FirstSeenLabels(invoices, labelOf)) == SumTotals(invoices)
    decreases |invoices|
  {
    if invoices != [] {
      var init, x := invoices[..|invoices| - 1], invoices[|invoices| - 1];
      assert invoices == init + [x];
      GroupingPreservesTotal(init, labelOf);
      GroupingStep(init, x, labelOf);
    }
  }

  /** The sum of a list of amounts. */
  function SumReals(values: seq<real>): real
    decreases |values|
  {
    if values == [] then 0.0 else SumReals(values[..|values| - 1]) + values[|values| - 1]
  }

  lemma {:induction false} SumOfLabelValues(invoices: seq<Invoice>, labelOf: string -> string, labels: seq<string>, values: seq<real>)
    requires |values| == |labels|
    requires forall k :: 0 <= k < |labels| ==> values[k] == LabelTotal(invoices, labelOf, labels[k])
    ensures SumReals(values) == SumOverLabels(invoices, labelOf, labels)
    decreases |labels|
  {
    if labels != [] {
      SumOfLabelValues(invoices, labelOf, labels[..|labels| - 1], values[..|values| - 1]);
    }
  }



  /** The accumulator object the reduce builds, as a map from month label to summed total.
      `if (!acc[m]) acc[m] = 0` only matters for a missing key: a key holding 0 is reset
      to the 0 it already holds. */
  function LabelTotals(invoices: seq<Invoice>, labelOf: string -> string): map<string, real>
    decreases |invoices|
  {
    if invoices == [] then map[]
    else
      var last := invoices[|invoices| - 1];
      AddTotal(LabelTotals(invoices[..|invoices| - 1], labelOf), labelOf(last.date), last.total)
  }

  /** One invoice added to the accumulator: its total goes to its label, which starts at 0
      when missing; every other key keeps its value. */
  function AddTotal(acc: map<string, real>, l: string, total: real): (r: map<string, real>)
    ensures r.Keys == acc.Keys + {l}
    ensures r[l] == (if l in acc then acc[l] else 0.0) + total
    ensures forall k :: k in acc && k != l ==> r[k] == acc[k]
  {
    acc[l := (if l in acc then acc[l] else 0.0) + total]
  }

  /** The accumulator has a key for each month label and nothing else, and each key holds
      the sum of the totals of the invoices with that label. */
  lemma {:induction false} LabelTotalsAgree(invoices: seq<Invoice>, labelOf: string -> string)
    ensures forall l :: l in LabelTotals(invoices, labelOf) <==> l in MonthLabels(invoices, labelOf)
    ensures forall l :: l in LabelTotals(invoices, labelOf) ==>
      LabelTotals(invoices, labelOf)[l] == LabelTotal(invoices, labelOf, l)
    decreases |invoices|
  {
    if invoices != [] {
      var init, x := invoices[..|invoices| - 1], invoices[|invoices| - 1];
      assert invoices == init + [x];
      LabelTotalsAgree(init, labelOf);
      assert MonthLabels(invoices, labelOf) == MonthLabels(init, labelOf) + [labelOf(x.date)];
      if labelOf(x.date) !in LabelTotals(init, labelOf) {
        LabelTotalOfAbsent(init, labelOf, labelOf(x.date));
      }
    }
  }

  /** A label is a key of the accumulator exactly when it is among the first-seen labels. */
  lemma LabelTotalsHasKey(invoices: seq<Invoice>, labelOf: string -> string, l: string)
    ensures l in LabelTotals(invoices, labelOf) <==> l in FirstSeenLabels(invoices, labelOf)
  {
    LabelTotalsAgree(invoices, labelOf);
  }

  /** Every key in the list of first-seen labels is a key of the accumulator. */
  lemma KeysOfLabelTotals(invoices: seq<Invoice>, labelOf: string -> string)
    ensures var keys := FirstSeenLabels(invoices, labelOf);
            forall k :: 0 <= k < |keys| ==> keys[k] in LabelTotals(invoices, labelOf)
  {
    LabelTotalsAgree(invoices, labelOf);
  }

  /** `Object.values`: the values of an object, in the order of its keys. */
  function ObjectValues(keys: seq<string>, acc: map<string, real>): seq<real>
    requires forall k :: 0 <= k < |keys| ==> keys[k] in acc
  {
    seq(|keys|, k requires 0 <= k < |keys| => acc[keys[k]])
  }

  /** The chart's data points: for each month label, in key order, the summed total of
      the invoices with that label; together they add up to the total of all invoices. */
  function ChartValues(invoices: seq<Invoice>, labelOf: string -> string): (values: seq<real>)
    ensures |values| == |FirstSeenLabels(invoices, labelOf)|
    ensures forall k :: 0 <= k < |values| ==>
      values[k] == LabelTotal(invoices, labelOf, FirstSeenLabels(invoices, labelOf)[k])
    ensures SumReals(values) == SumTotals(invoices)
  {
    var labels := FirstSeenLabels(invoices, labelOf);
    LabelTotalsAgree(invoices, labelOf);
    var values := ObjectValues(labels, LabelTotals(invoices, labelOf));
    SumOfLabelValues(invoices, labelOf, labels, values);
    GroupingPreservesTotal(invoices, labelOf);
    values
  }

  /** What one more invoice of the list does to the keys and to the accumulator. */
  lemma RevenuePrefixStep(invoices: seq<Invoice>, i: int, labelOf: string -> string)
    requires 0 <= i < |invoices|
    ensures var m, keys, acc := labelOf(invoices[i].date), FirstSeenLabels(invoices[..i], labelOf), LabelTotals(invoices[..i], labelOf);
            && FirstSeenLabels(invoices[..i + 1], labelOf) == (if m in acc then keys else keys + [m])
            && LabelTotals(invoices[..i + 1], labelOf) == AddTotal(acc, m, invoices[i].total)
  {
    LabelTotalsHasKey(invoices[..i], labelOf, labelOf(invoices[i].date));
    KeysPrefixStep(invoices, i, labelOf);
    LabelTotalsPrefixStep(invoices, i, labelOf);
  }

  lemma KeysPrefixStep(invoices: seq<Invoice>, i: int, labelOf: string -> string)
    requires 0 <= i < |invoices|
    ensures var m, keys := labelOf(invoices[i].date), FirstSeenLabels(invoices[..i], labelOf);
            FirstSeenLabels(invoices[..i + 1], labelOf) == if m in keys then keys else keys + [m]
  {
    assert invoices[..i + 1] == invoices[..i] + [invoices[i]];
    FirstSeenLabelsStep(invoices[..i], invoices[i], labelOf);
  }

  lemma LabelTotalsPrefixStep(invoices: seq<Invoice>, i: int, labelOf: string -> string)
    requires 0 <= i < |invoices|
    ensures var m, acc := labelOf(invoices[i].date), LabelTotals(invoices[..i], labelOf);
            LabelTotals(invoices[..i + 1], labelOf) == AddTotal(acc, m, invoices[i].total)
  {
    assert invoices[..i + 1][..i] == invoices[..i];
  }

  /** Writing a key twice keeps the second value. */
  lemma UpdateTwice(m: map<string, real>, k: string, a: real, b: real)
    ensures m[k := a][k := b] == m[k := b]
  {
  }

  /**
   * The callback of the reduce: `if (!acc[monthYear]) acc[monthYear] = 0;` and then
   * `acc[monthYear] += total`, on an object whose keys, in insertion order, are `keys`.
   * The reset only has an effect when the key is missing, which makes it a new key.
   */
  method AddToMonth(keys: seq<string>, acc: map<string, real>, monthYear: string, total: real)
    returns (keys': seq<string>, acc': map<string, real>)
    ensures keys' == if monthYear in acc then keys else keys + [monthYear]
    ensures acc' == AddTotal(acc, monthYear, total)
  {
    keys', acc' := keys, acc;
    if monthYear !in acc' || acc'[monthYear] == 0.0 {
      if monthYear !in acc' {
        keys' := keys' + [monthYear];
      }
      acc' := acc'[monthYear := 0.0];
      UpdateTwice(acc, monthYear, 0.0, 0.0 + total);
    }
    acc' := acc'[monthYear := acc'[monthYear] + total];
  }

  /**
   * The reduce in `generateRevenueChart`: an object from month label to summed total,
   * read back with `Object.keys` and `Object.values`. The object is a map plus the
   * order in which its keys were inserted.
   */
  method MonthlyRevenue(invoices: seq<Invoice>, labelOf: string -> string) returns (labels: seq<string>, values: seq<real>)
    ensures labels == FirstSeenLabels(invoices, labelOf)
    ensures values == ChartValues(invoices, labelOf)
  {
    var keys: seq<string> := [];
    var acc: map<string, real> := map[];
    var i := 0;
    while i < |invoices|
      invariant 0 <= i <= |invoices|
      invariant keys == FirstSeenLabels(invoices[..i], labelOf)
      invariant acc == LabelTotals(invoices[..i], labelOf)
    {
      var invoice := invoices[i];
      var monthYear := labelOf(invoice.date);
      RevenuePrefixStep(invoices, i, labelOf);
      keys, acc := AddToMonth(keys, acc, monthYear, invoice.total);
      i := i + 1;
    }
    assert invoices[..i] == invoices;
    KeysOfLabelTotals(invoices, labelOf);
    labels := keys;
    values := ObjectValues(keys, acc);
  }

  // The tables and the currency settings.

  /** `x || fallback` on an optional text: the fallback when the text is absent or empty. */
  function OrElse(text: Option<string>, fallback: string): (r: string)
    ensures text.Some? && text.value != "" ==> r == text.value
    ensures text.None? || text.value == "" ==> r == fallback
  {
    if text.Some? && text.value != "" then text.value else fallback
  }

  /** `data.settings?.currency || 'EUR'` */
  function CurrencyCode(settings: Option<Settings>): (r: string)
    ensures r != ""
    ensures settings.Some? && settings.value.currency != "" ==> r == settings.value.currency
    ensures settings.None? || settings.value.currency == "" ==> r == "EUR"
  {
    if settings.Some? && settings.value.currency != "" then settings.value.currency else "EUR"
  }

  /** `data.settings?.currencyFormat || 'fr-FR'`, the locale of every amount. */
  function AmountLocale(settings: Option<Settings>): (r: string)
    ensures r != ""
    ensures settings.Some? && settings.value.currencyFormat != "" ==> r == settings.value.currencyFormat
    ensures settings.None? || settings.value.currencyFormat == "" ==> r == "fr-FR"
  {
    if settings.Some? && settings.value.currencyFormat != "" then settings.value.currencyFormat else "fr-FR"
  }

  /** Rows of the "Nom, Email, Téléphone, Adresse" table. */
  datatype ClientRow = ClientRow(name: string, email: string, phone: string, address: string)
  /** Rows of the "Projet, Client, Statut, Budget" table. */
  datatype ProjectRow = ProjectRow(name: string, client: string, status: string, budget: real)
  /** Rows of the "Date, Client, Référence, Montant" table. */
  datatype InvoiceRow = InvoiceRow(date: string, client: string, reference: string, amount: real)

  /** One row per client, in order; a missing or empty phone or address reads "N/A". */
  function ClientRows(clients: seq<Client>): (rows: seq<ClientRow>)
    ensures |rows| == |clients|
    ensures forall k :: 0 <= k < |rows| ==>
      && rows[k].name == clients[k].name && rows[k].email == clients[k].email
      && rows[k].phone == OrElse(clients[k].phone, "N/A")
      && rows[k].address == OrElse(clients[k].address, "N/A")
  {
    seq(|clients|, k requires 0 <= k < |clients| =>
      ClientRow(clients[k].name, clients[k].email, OrElse(clients[k].phone, "N/A"), OrElse(clients[k].address, "N/A")))
  }

  /** One row per project, in order; a project without a budget shows 0. */
  function ProjectRows(projects: seq<Project>): (rows: seq<ProjectRow>)
    ensures |rows| == |projects|
    ensures forall k :: 0 <= k < |rows| ==>
      && rows[k].name == projects[k].name && rows[k].client == projects[k].client
      && rows[k].status == projects[k].status
      && rows[k].budget == (if projects[k].budget.Some? then projects[k].budget.value else 0.0)
  {
    seq(|projects|, k requires 0 <= k < |projects| =>
      ProjectRow(projects[k].name, projects[k].client, projects[k].status,
        if projects[k].budget.Some? then projects[k].budget.value else 0.0))
  }

  /** One row per invoice of the month, in order; a missing or empty reference reads "N/A". */
  function InvoiceRows(invoices: seq<Invoice>, dateText: string -> string): (rows: seq<InvoiceRow>)
    ensures |rows| == |invoices|
    ensures forall k :: 0 <= k < |rows| ==>
      && rows[k].date == dateText(invoices[k].date) && rows[k].client == invoices[k].client
      && rows[k].reference == OrElse(invoices[k].reference, "N/A")
      && rows[k].amount == invoices[k].total
  {
    seq(|invoices|, k requires 0 <= k < |invoices| =>
      InvoiceRow(dateText(invoices[k].date), invoices[k].client, OrElse(invoices[k].reference, "N/A"), invoices[k].total))
  }

  function SumRowAmounts(rows: seq<InvoiceRow>): real
    decreases |rows|
  {
    if rows == [] then 0.0 else SumRowAmounts(rows[..|rows| - 1]) + rows[|rows| - 1].amount
  }

  /** The amounts of the invoice table add up to the invoices' totals. */
  lemma {:induction false} InvoiceRowsSum(invoices: seq<Invoice>, dateText: string -> string)
    ensures SumRowAmounts(InvoiceRows(invoices, dateText)) == SumTotals(invoices)
    decreases |invoices|
  {
    if invoices != [] {
      var init := invoices[..|invoices| - 1];
      assert InvoiceRows(invoices, dateText)[..|init|] == InvoiceRows(init, dateText);
      InvoiceRowsSum(init, dateText);
    }
  }

  // The report as composed by `handleExportPDF`, page by page.

  datatype Summary = Summary(
    period: YearMonth, businessName: string, profession: string,
    stats: MonthlyStats, clientCount: nat, projectCount: nat)

  datatype RevenueChart = RevenueChart(labels: seq<string>, values: seq<real>)

  datatype Report = Report(
    currency: string, locale: string, summary: Summary,
    clientRows: seq<ClientRow>, projectRows: seq<ProjectRow>,
    invoiceRows: seq<InvoiceRow>, invoiceFootTotal: real,
    chart: Option<RevenueChart>)

  /**
   * What the five sections of the report show: the month's synthesis, the clients, the
   * projects, the month's invoices with a total row, and the revenue chart when the
   * canvas could be drawn (`chartDrawn`).
   */
  function ComposeReport(data: AppData, monthOf: string -> Option<YearMonth>, current: YearMonth,
                         labelOf: string -> string, dateText: string -> string, chartDrawn: bool): (r: Report)
    ensures r.currency == CurrencyCode(data.settings) && r.locale == AmountLocale(data.settings)
    ensures r.summary.stats == GenerateMonthlyReport(data, monthOf, current).monthlyStats
    ensures r.summary.businessName == data.businessInfo.name && r.summary.profession == data.businessInfo.profession
    ensures r.summary.clientCount == |data.clients| && r.summary.projectCount == |data.projects|
    ensures r.clientRows == ClientRows(data.clients) && r.projectRows == ProjectRows(data.projects)
    ensures r.invoiceRows == InvoiceRows(GenerateMonthlyReport(data, monthOf, current).currentMonthInvoices, dateText)
    ensures |r.invoiceRows| == r.summary.stats.invoiceCount
    ensures r.invoiceFootTotal == r.summary.stats.totalAmount == SumRowAmounts(r.invoiceRows)
    ensures r.chart.Some? <==> chartDrawn
    ensures r.chart.Some? ==>
      r.chart.value.labels == FirstSeenLabels(data.invoices, labelOf) &&
      r.chart.value.values == ChartValues(data.invoices, labelOf)
  {
    var report := GenerateMonthlyReport(data, monthOf, current);
    InvoiceRowsSum(report.currentMonthInvoices, dateText);
    Report(
      currency := CurrencyCode(data.settings),
      locale := AmountLocale(data.settings),
      summary := Summary(current, data.businessInfo.name, data.businessInfo.profession,
        report.monthlyStats, |data.clients|, |data.projects|),
      clientRows := ClientRows(data.clients),
      projectRows := ProjectRows(data.projects),
      invoiceRows := InvoiceRows(report.currentMonthInvoices, dateText),
      invoiceFootTotal := report.monthlyStats.totalAmount,
      chart := if chartDrawn then Some(RevenueChart(FirstSeenLabels(data.invoices, labelOf), ChartValues(data.invoices, labelOf))) else None)
  }

  // Page numbers.

  function DigitChar(d: nat): (c: char)
    requires d < 10
    ensures '0' <= c <= '9' && c as int - '0' as int == d
  {
    ('0' as int + d) as char
  }

  /** The decimal writing of `n`, as a template literal prints it. */
  function DecimalString(n: nat): (r: string)
    ensures |r| >= 1
    ensures forall k :: 0 <= k < |r| ==> '0' <= r[k] <= '9'
    ensures r[0] == '0' ==> n == 0
    decreases n
  {
    if n < 10 then [DigitChar(n)] else DecimalString(n / 10) + [DigitChar(n % 10)]
  }

  /** The number that a string of decimal digits denotes. */
  function DigitsValue(s: string): int
    decreases |s|
  {
    if s == [] then 0 else DigitsValue(s[..|s| - 1]) * 10 + (s[|s| - 1] as int - '0' as int)
  }

  /** Reading the digits back gives the number. */
  lemma {:induction false} DecimalStringRoundTrip(n: nat)
    ensures DigitsValue(DecimalString(n)) == n
    decreases n
  {
    var r := DecimalString(n);
    if n >= 10 {
      var q, d := n / 10, n % 10;
      DecimalStringRoundTrip(q);
      assert r == DecimalString(q) + [DigitChar(d)];
      assert r[..|r| - 1] == DecimalString(q);
      assert DigitsValue(r) == DigitsValue(DecimalString(q)) * 10 + d;
      assert q * 10 + d == n;
    }
  }

  /** `Page ${i} sur ${pageCount}` */
  function FooterText(page: nat, pageCount: nat): string {
    "Page " + DecimalString(page) + " sur " + DecimalString(pageCount)
  }

  /**
   * The part of a jsPDF document the footers work on: the texts drawn on each page, in
   * drawing order, and the page that drawing goes to (numbered from 1, as jsPDF does).
   */
  class PdfDocument {
    var pages: seq<seq<string>>
    var currentPage: nat

    ghost predicate Valid()
      reads this
    {
      1 <= currentPage <= |pages|
    }

    /** `new jsPDF()`: one empty page, the current one. */
    constructor ()
      ensures Valid() && pages == [[]] && currentPage == 1
    {
      pages := [[]];
      currentPage := 1;
    }

    /** `addPage`: a new empty page at the end becomes the current one. */
    method AddPage()
      requires Valid()
      modifies this
      ensures Valid() && pages == old(pages) + [[]] && currentPage == |pages|
    {
      pages := pages + [[]];
      currentPage := |pages|;
    }

    function NumberOfPages(): nat
      reads this
    {
      |pages|
    }

    /** `setPage`: drawing goes to page `n`. */
    method SetPage(n: nat)
      requires Valid() && 1 <= n <= |pages|
      modifies this`currentPage
      ensures Valid() && currentPage == n
    {
      currentPage := n;
    }

    /** `text`: the text is drawn on the current page, after what is already there. */
    method Text(t: string)
      requires Valid()
      modifies this`pages
      ensures Valid()
      ensures pages == old(pages)[currentPage - 1 := old(pages)[currentPage - 1] + [t]]
    {
      pages := pages[currentPage - 1 := pages[currentPage - 1] + [t]];
    }
  }

  /**
   * The closing loop of `handleExportPDF`: with N the number of pages at that point, page
   * i (from 1 to N) gets "Page i sur N" drawn last, nothing else is drawn, and drawing is
   * left on page N.
   */
  method StampFooters(doc: PdfDocument)
    requires doc.Valid()
    modifies doc
    ensures doc.Valid() && |doc.pages| == |old(doc.pages)|
    ensures forall k :: 0 <= k < |doc.pages| ==>
      doc.pages[k] == old(doc.pages)[k] + [FooterText(k + 1, |doc.pages|)]
    ensures doc.currentPage == |doc.pages|
  {
    var pageCount := doc.NumberOfPages();
    var i := 1;
    while i <= pageCount
      invariant 1 <= i <= pageCount + 1
      invariant doc.Valid() && |doc.pages| == pageCount
      invariant i > 1 ==> doc.currentPage == i - 1
      invariant forall k :: 0 <= k < i - 1 ==> doc.pages[k] == old(doc.pages)[k] + [FooterText(k + 1, pageCount)]
      invariant forall k :: i - 1 <= k < pageCount ==> doc.pages[k] == old(doc.pages)[k]
    {
      doc.SetPage(i);
      doc.Text(FooterText(i, pageCount));
      i := i + 1;
    }
  }
}
