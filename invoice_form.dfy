/**
 * The submit handler of src/components/forms/InvoiceForm.tsx: the invoice total
 * computed from the form's lines, and the load / replace-or-append / save cycle.
 */
module InvoiceForm {
  import opened Wrappers
  import opened Seqs
  import opened Store

  /** The values react-hook-form hands to the submit handler. */
  datatype InvoiceFormData = InvoiceFormData(
    clientId: string, date: string, dueDate: string, status: InvoiceStatus, items: seq<Item>)

  /** The line the "add an item" button appends, and the one a new form starts with. */
  const BlankItem: Item := Item("", 1.0, 0.0)

  /** `calculateTotal`: the reduce that adds quantity times price of each line, left to right. */
  function CalculateTotal(items: seq<Item>): real
    decreases |items|
  {
    if items == [] then 0.0
    else
      var last := items[|items| - 1];
      CalculateTotal(items[..|items| - 1]) + last.quantity * last.price
  }

  /** The constraints the form puts on a line: a description, a quantity of at least 1
      and a price of at least 0. */
  predicate ItemAllowed(item: Item) {
    item.description != "" && item.quantity >= 1.0 && item.price >= 0.0
  }

  lemma {:induction false} CalculateTotalAppend(a: seq<Item>, b: seq<Item>)
    ensures CalculateTotal(a + b) == CalculateTotal(a) + CalculateTotal(b)
    decreases |b|
  {
    if b == [] {
      assert a + b == a;
    } else {
      assert (a + b)[..|a + b| - 1] == a + b[..|b| - 1];
      CalculateTotalAppend(a, b[..|b| - 1]);
    }
  }

  /** Lines the form accepts never give a negative total. */
  lemma {:induction false} CalculateTotalNonNegative(items: seq<Item>)
    requires forall k :: 0 <= k < |items| ==> ItemAllowed(items[k])
    ensures CalculateTotal(items) >= 0.0
    decreases |items|
  {
    if items != [] {
      var last := items[|items| - 1];
      CalculateTotalNonNegative(items[..|items| - 1]);
      assert last.quantity * last.price >= 0.0;
    }
  }

  /** A freshly appended blank line does not change the total. */
  lemma BlankItemAddsNothing(items: seq<Item>)
    ensures CalculateTotal(items + [BlankItem]) == CalculateTotal(items)
  {
    assert (items + [BlankItem])[..|items|] == items;
  }

  /** The record the handler builds: the id of the invoice being edited (unless it is
      the empty string) or a fresh one, the form's values with ISO dates, and the total.
      `iso` stands for `new Date(x).toISOString()`, None where that throws a RangeError
      on a date it cannot read; the handler then stops and builds nothing. */
  function NewInvoice(form: InvoiceFormData, editing: Option<Invoice>, freshId: string, iso: string -> Option<string>): (r: Option<Invoice>)
    ensures r.Some? <==> iso(form.date).Some? && iso(form.dueDate).Some?
    ensures r.Some? ==> r.value.amount == CalculateTotal(form.items)
    ensures r.Some? && editing.Some? && editing.value.id != "" ==> r.value.id == editing.value.id
    ensures r.Some? && (editing.None? || editing.value.id == "") ==> r.value.id == freshId
    ensures r.Some? ==> r.value.clientId == form.clientId && r.value.status == form.status && r.value.items == form.items
    ensures r.Some? ==> Some(r.value.date) == iso(form.date) && Some(r.value.dueDate) == iso(form.dueDate)
  {
    var date := iso(form.date);
    if date.None? then None
    else
      var dueDate := iso(form.dueDate);
      if dueDate.None? then None
      else
        Some(Invoice(
          id := if editing.Some? && editing.value.id != "" then editing.value.id else freshId,
          clientId := form.clientId,
          amount := CalculateTotal(form.items),
          status := form.status,
          date := date.value,
          dueDate := dueDate.value,
          items := form.items))
  }

  /** The invoices after a submission: appended when creating; when editing, the first
      invoice with the edited id is replaced, and nothing changes if there is none. */
  function InvoicesAfterSubmit(invoices: seq<Invoice>, editing: Option<Invoice>, saved: Invoice): (r: seq<Invoice>)
    ensures editing.None? ==> r == invoices + [saved]
    ensures editing.Some? ==> |r| == |invoices|
    ensures editing.Some? && FindIndex(invoices, InvoiceIdIs(editing.value.id)) == -1 ==> r == invoices
    ensures editing.Some? ==>
      var k := FindIndex(invoices, InvoiceIdIs(editing.value.id));
      k != -1 ==> r[k] == saved && forall j :: 0 <= j < |r| && j != k ==> r[j] == invoices[j]
  {
    if editing.None? then invoices + [saved]
    else ReplaceFirst(invoices, InvoiceIdIs(editing.value.id), saved)
  }

  /**
   * `onSubmitForm`: loads the data, builds the record, replaces the edited invoice in
   * place (or appends the new one), saves the data, and hands back the record it built.
   * When a date cannot be read the handler throws before saving: the slot is untouched
   * and no record is handed back.
   */
  method SubmitInvoice(store: DataStore, form: InvoiceFormData, editing: Option<Invoice>, freshId: string, iso: string -> Option<string>)
    returns (saved: Option<Invoice>)
    modifies store`slot
    ensures saved == NewInvoice(form, editing, freshId, iso)
    ensures saved.None? ==> store.slot == old(store.slot)
    ensures saved.Some? ==> store.slot == old(store.SavedSlot(
      store.Loaded().(invoices := InvoicesAfterSubmit(store.Loaded().invoices, editing, saved.value))))
  {
    var appData := store.LoadData();
    saved := NewInvoice(form, editing, freshId, iso);
    if saved.None? {
      return;
    }
    var newInvoice := saved.value;
    if editing.Some? {
      var index := FindIndex(appData.invoices, InvoiceIdIs(editing.value.id));
      if index != -1 {
        appData := appData.(invoices := appData.invoices[index := newInvoice]);
      }
    } else {
      appData := appData.(invoices := appData.invoices + [newInvoice]);
    }
    store.SaveData(appData);
  }
}
