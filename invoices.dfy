/** Invoice data (src/types/invoice.ts), the form-to-invoice conversion of
    src/services/pdfService.tsx and the line-item form of
    src/components/InvoiceForm.tsx. Money is an exact `real`; the ids and dates
    the source takes from the clock are parameters. */
module Invoices {
  import opened Wrappers

  /** A line as the form holds it (`Omit<InvoiceItem, "amount">`). */
  datatype FormItem = FormItem(id: string, description: string, quantity: real, rate: real)

  /** A line of a generated invoice. */
  datatype InvoiceItem = InvoiceItem(id: string, description: string, quantity: real, rate: real, amount: real)

  datatype Party = Party(name: string, address: string, email: string, phone: Option<string>)

  datatype InvoiceFormData = InvoiceFormData(
    invoiceNumber: string, date: string, dueDate: string,
    fromName: string, fromAddress: string, fromEmail: string, fromPhone: Option<string>,
    toName: string, toAddress: string, toEmail: string, toPhone: Option<string>,
    items: seq<FormItem>, taxRate: real, currency: string, notes: Option<string>)

  /** A generated invoice; `date` and `dueDate` stand for the parsed dates. */
  datatype Invoice = Invoice(
    id: string, invoiceNumber: string, date: string, dueDate: string,
    from: Party, to: Party, items: seq<InvoiceItem>,
    subtotal: real, taxRate: real, taxAmount: real, total: real,
    currency: string, notes: Option<string>)

  // ---- pdfService.convertFormDataToInvoice ----

  function WithAmount(it: FormItem): InvoiceItem {
    InvoiceItem(it.id, it.description, it.quantity, it.rate, it.quantity * it.rate)
  }

  /** `formData.items.map(item => ({...item, amount: item.quantity * item.rate}))`. */
  function ItemsWithAmounts(items: seq<FormItem>): seq<InvoiceItem> {
    if |items| == 0 then [] else [WithAmount(items[0])] + ItemsWithAmounts(items[1..])
  }

  /** `items.reduce((sum, item) => sum + item.amount, 0)` (exact, so the fold's
      direction does not matter). */
  function SumAmounts(items: seq<InvoiceItem>): real {
    if |items| == 0 then 0.0 else items[0].amount + SumAmounts(items[1..])
  }

  /** `convertFormDataToInvoice`; `id`, `date` and `dueDate` are what the source
      builds from `Date.now()` and `new Date(...)`. */
  function ConvertFormDataToInvoice(form: InvoiceFormData, id: string, date: string, dueDate: string): Invoice {
    var items := ItemsWithAmounts(form.items);
    var subtotal := SumAmounts(items);
    var taxAmount := subtotal * form.taxRate / 100.0;
    Invoice(id, form.invoiceNumber, date, dueDate,
            Party(form.fromName, form.fromAddress, form.fromEmail, form.fromPhone),
            Party(form.toName, form.toAddress, form.toEmail, form.toPhone),
            items, subtotal, form.taxRate, taxAmount, subtotal + taxAmount,
            form.currency, form.notes)
  }

  // ---- InvoiceForm.calculate* ----

  /** `calculateSubtotal`: the sum of quantity × rate over the form's lines. */
  function FormSubtotal(items: seq<FormItem>): real {
    if |items| == 0 then 0.0 else items[0].quantity * items[0].rate + FormSubtotal(items[1..])
  }

  function CalculateSubtotal(form: InvoiceFormData): real { FormSubtotal(form.items) }

  function CalculateTaxAmount(form: InvoiceFormData): real { CalculateSubtotal(form) * form.taxRate / 100.0 }

  function CalculateTotal(form: InvoiceFormData): real { CalculateSubtotal(form) + CalculateTaxAmount(form) }

  /** The "Generate Invoice PDF" button is disabled when the total is zero. */
  predicate SubmitDisabled(form: InvoiceFormData) { CalculateTotal(form) == 0.0 }

  /** No negative quantity, rate or tax rate anywhere in the form. */
  predicate NonNegative(form: InvoiceFormData) {
    form.taxRate >= 0.0 &&
    forall i :: 0 <= i < |form.items| ==> form.items[i].quantity >= 0.0 && form.items[i].rate >= 0.0
  }

  // ---- properties of the conversion ----

  /** Each generated line is its form line plus `amount = quantity × rate`;
      count and order are kept. */
  lemma {:induction false} ItemsWithAmountsSpec(items: seq<FormItem>)
    ensures |ItemsWithAmounts(items)| == |items|
    ensures forall i :: 0 <= i < |items| ==>
      var r := ItemsWithAmounts(items)[i];
      r.id == items[i].id && r.description == items[i].description &&
      r.quantity == items[i].quantity && r.rate == items[i].rate &&
      r.amount == items[i].quantity * items[i].rate
  {
    if |items| > 0 {
      ItemsWithAmountsSpec(items[1..]);
      assert forall i :: 1 <= i < |items| ==> ItemsWithAmounts(items)[i] == ItemsWithAmounts(items[1..])[i - 1];
    }
  }

  /** The invoice's subtotal is the form's subtotal. */
  lemma {:induction false} SubtotalAgrees(items: seq<FormItem>)
    ensures SumAmounts(ItemsWithAmounts(items)) == FormSubtotal(items)
  {
    if |items| > 0 {
      SubtotalAgrees(items[1..]);
      assert ItemsWithAmounts(items)[1..] == ItemsWithAmounts(items[1..]);
    }
  }

  /** The form's subtotal, tax and total are those of the invoice it generates;
      tax is subtotal × taxRate / 100 and total is subtotal + tax; every party field
      and the number, tax rate, currency and notes are copied from the form. */
  lemma ConvertSpec(form: InvoiceFormData, id: string, date: string, dueDate: string)
    ensures var inv := ConvertFormDataToInvoice(form, id, date, dueDate);
      && inv.subtotal == CalculateSubtotal(form)
      && inv.taxAmount == CalculateTaxAmount(form) == inv.subtotal * form.taxRate / 100.0
      && inv.total == CalculateTotal(form) == inv.subtotal + inv.taxAmount
      && inv.from == Party(form.fromName, form.fromAddress, form.fromEmail, form.fromPhone)
      && inv.to == Party(form.toName, form.toAddress, form.toEmail, form.toPhone)
      && inv.invoiceNumber == form.invoiceNumber && inv.taxRate == form.taxRate
      && inv.currency == form.currency && inv.notes == form.notes
      && inv.id == id && inv.date == date && inv.dueDate == dueDate
  {
    SubtotalAgrees(form.items);
  }

  /** With tax rate 0 the total is the subtotal. */
  lemma ZeroTaxTotalIsSubtotal(form: InvoiceFormData)
    requires form.taxRate == 0.0
    ensures CalculateTotal(form) == CalculateSubtotal(form)
    ensures CalculateTaxAmount(form) == 0.0
  {
  }

  lemma {:induction false} FormSubtotalNonNegative(items: seq<FormItem>)
    requires forall i :: 0 <= i < |items| ==> items[i].quantity >= 0.0 && items[i].rate >= 0.0
    ensures FormSubtotal(items) >= 0.0
  {
    if |items| > 0 {
      assert items[0].quantity * items[0].rate >= 0.0;
      FormSubtotalNonNegative(items[1..]);
    }
  }

  /** With no negative numbers, 0 ≤ subtotal ≤ total. */
  lemma SubtotalWithinTotal(form: InvoiceFormData)
    requires NonNegative(form)
    ensures 0.0 <= CalculateSubtotal(form) <= CalculateTotal(form)
  {
    FormSubtotalNonNegative(form.items);
    assert CalculateSubtotal(form) * form.taxRate >= 0.0;
  }

  /** With no negative numbers the subtotal is zero exactly when every line's
      quantity × rate is zero. */
  lemma {:induction false} FormSubtotalZero(items: seq<FormItem>)
    requires forall i :: 0 <= i < |items| ==> items[i].quantity >= 0.0 && items[i].rate >= 0.0
    ensures FormSubtotal(items) == 0.0 <==> forall i :: 0 <= i < |items| ==> items[i].quantity * items[i].rate == 0.0
  {
    if |items| > 0 {
      assert items[0].quantity * items[0].rate >= 0.0;
      FormSubtotalNonNegative(items[1..]);
      FormSubtotalZero(items[1..]);
      assert forall i :: 1 <= i < |items| ==> items[i] == items[1..][i - 1];
    }
  }

  /** With no negative numbers the button is disabled exactly when every line
      contributes nothing. */
  lemma DisabledIffNothingCharged(form: InvoiceFormData)
    requires NonNegative(form)
    ensures SubmitDisabled(form) <==>
      forall i :: 0 <= i < |form.items| ==> form.items[i].quantity * form.items[i].rate == 0.0
  {
    FormSubtotalZero(form.items);
    FormSubtotalNonNegative(form.items);
    var s := CalculateSubtotal(form);
    assert s * form.taxRate >= 0.0;
    assert CalculateTotal(form) == s * (1.0 + form.taxRate / 100.0);
  }

  // ---- handleSubmit ----

  /** An item the submit handler accepts. */
  predicate ValidItem(it: FormItem) {
    it.description != "" && it.quantity > 0.0 && it.rate > 0.0
  }

  /** `items.every(item => !item.description || item.quantity <= 0 || item.rate <= 0)`. */
  function EveryInvalid(items: seq<FormItem>): bool {
    if |items| == 0 then true else !ValidItem(items[0]) && EveryInvalid(items[1..])
  }

  datatype SubmitResult = Generate(data: InvoiceFormData) | Alert(text: string)

  const MissingParties := "Please fill in all required fields (From and To information)"
  const NoValidItem := "Please add at least one valid item"

  /** `handleSubmit`'s checks, in order: the four party fields, then the items. */
  function Validate(form: InvoiceFormData): SubmitResult {
    if form.fromName == "" || form.fromEmail == "" || form.toName == "" || form.toEmail == "" then
      Alert(MissingParties)
    else if |form.items| == 0 || EveryInvalid(form.items) then
      Alert(NoValidItem)
    else Generate(form)
  }

  lemma {:induction false} EveryInvalidSpec(items: seq<FormItem>)
    ensures EveryInvalid(items) <==> forall i :: 0 <= i < |items| ==> !ValidItem(items[i])
  {
    if |items| > 0 {
      EveryInvalidSpec(items[1..]);
      assert forall i :: 1 <= i < |items| ==> items[i] == items[1..][i - 1];
    }
  }

  /** The form is handed on unchanged exactly when the four party fields are filled
      and at least one item is valid; the addresses and phones are not checked.
      The party check comes first. */
  lemma ValidateSpec(form: InvoiceFormData)
    ensures Validate(form).Generate? <==>
      form.fromName != "" && form.fromEmail != "" && form.toName != "" && form.toEmail != "" &&
      exists i :: 0 <= i < |form.items| && ValidItem(form.items[i])
    ensures Validate(form).Generate? ==> Validate(form).data == form
    ensures (form.fromName == "" || form.fromEmail == "" || form.toName == "" || form.toEmail == "") ==>
      Validate(form) == Alert(MissingParties)
  {
    EveryInvalidSpec(form.items);
  }

  /** A form the handler accepts, with no negative numbers, never has its button
      disabled. */
  lemma AcceptedFormIsEnabled(form: InvoiceFormData)
    requires NonNegative(form) && Validate(form).Generate?
    ensures !SubmitDisabled(form)
  {
    ValidateSpec(form);
    var i :| 0 <= i < |form.items| && ValidItem(form.items[i]);
    assert form.items[i].quantity * form.items[i].rate > 0.0;
    DisabledIffNothingCharged(form);
  }

  // ---- line-item edits ----

  /** `items.filter(item => item.id !== id)`. */
  function WithoutItem(items: seq<FormItem>, id: string): seq<FormItem> {
    if |items| == 0 then [] else (if items[0].id == id then [] else [items[0]]) + WithoutItem(items[1..], id)
  }

  /** The value an `updateItem` call writes. */
  datatype ItemUpdate = Description(text: string) | Quantity(q: real) | Rate(r: real)

  function Updated(it: FormItem, u: ItemUpdate): FormItem {
    match u
    case Description(t) => it.(description := t)
    case Quantity(q) => it.(quantity := q)
    case Rate(r) => it.(rate := r)
  }

  /** `items.map(item => item.id === id ? {...item, [field]: value} : item)`. */
  function ItemsUpdated(items: seq<FormItem>, id: string, u: ItemUpdate): seq<FormItem> {
    if |items| == 0 then []
    else [if items[0].id == id then Updated(items[0], u) else items[0]] + ItemsUpdated(items[1..], id, u)
  }

  /** `removeItem(id)` keeps exactly the lines with another id ... */
  lemma {:induction false} WithoutItemMembers(items: seq<FormItem>, id: string)
    ensures forall x :: x in WithoutItem(items, id) <==> x in items && x.id != id
  {
    if |items| > 0 {
      WithoutItemMembers(items[1..], id);
      assert items == [items[0]] + items[1..];
    }
  }

  /** ... in their order. */
  lemma {:induction false} WithoutItemConcat(a: seq<FormItem>, b: seq<FormItem>, id: string)
    ensures WithoutItem(a + b, id) == WithoutItem(a, id) + WithoutItem(b, id)
  {
    if |a| > 0 {
      assert (a + b)[1..] == a[1..] + b;
      WithoutItemConcat(a[1..], b, id);
    } else {
      assert a + b == b;
    }
  }

  /** `updateItem(id, field, v)` changes only `field` of the lines carrying `id`;
      all other lines and fields, the length and the order are kept. */
  lemma {:induction false} ItemsUpdatedSpec(items: seq<FormItem>, id: string, u: ItemUpdate)
    ensures var r := ItemsUpdated(items, id, u);
      && |r| == |items|
      && (forall i :: 0 <= i < |items| && items[i].id != id ==> r[i] == items[i])
      && (forall i :: 0 <= i < |items| && items[i].id == id ==>
            && r[i].id == id
            && (if u.Description? then r[i].description == u.text else r[i].description == items[i].description)
            && (if u.Quantity? then r[i].quantity == u.q else r[i].quantity == items[i].quantity)
            && (if u.Rate? then r[i].rate == u.r else r[i].rate == items[i].rate))
  {
    if |items| > 0 {
      ItemsUpdatedSpec(items[1..], id, u);
      assert forall i :: 1 <= i < |items| ==> ItemsUpdated(items, id, u)[i] == ItemsUpdated(items[1..], id, u)[i - 1];
    }
  }

  // ---- initial state ----

  /** The `initialData` prop: any field may be left out. */
  datatype InitialData = InitialData(
    invoiceNumber: Option<string>, date: Option<string>, dueDate: Option<string>,
    fromName: Option<string>, fromAddress: Option<string>, fromEmail: Option<string>, fromPhone: Option<string>,
    toName: Option<string>, toAddress: Option<string>, toEmail: Option<string>, toPhone: Option<string>,
    items: Option<seq<FormItem>>, taxRate: Option<real>, currency: Option<string>, notes: Option<string>)

  const NoInitialData := InitialData(None, None, None, None, None, None, None, None, None, None, None,
                                     None, None, None, None)

  const DefaultItem := FormItem("1", "", 1.0, 0.0)

  /** The form's first state: each given truthy field, else its default. An item
      list that is given is kept even when empty (an array is always truthy).
      `generatedNumber`, `today` and `in30Days` are the clock-derived defaults. */
  function InitialFormData(init: InitialData, generatedNumber: string, today: string, in30Days: string): InvoiceFormData {
    InvoiceFormData(
      OrElse(init.invoiceNumber, generatedNumber), OrElse(init.date, today), OrElse(init.dueDate, in30Days),
      OrElse(init.fromName, ""), OrElse(init.fromAddress, ""), OrElse(init.fromEmail, ""), Some(OrElse(init.fromPhone, "")),
      OrElse(init.toName, ""), OrElse(init.toAddress, ""), OrElse(init.toEmail, ""), Some(OrElse(init.toPhone, "")),
      init.items.GetOr([DefaultItem]),
      if init.taxRate.Some? && init.taxRate.value != 0.0 then init.taxRate.value else 0.0,
      OrElse(init.currency, "USD"), Some(OrElse(init.notes, "")))
  }

  /** Without initial data the form has the one default line, tax rate 0 and
      currency USD; its total is 0, so its button starts disabled, and it would be
      refused on submit. */
  lemma DefaultFormSpec(generatedNumber: string, today: string, in30Days: string)
    ensures var f := InitialFormData(NoInitialData, generatedNumber, today, in30Days);
      && f.items == [FormItem("1", "", 1.0, 0.0)] && f.taxRate == 0.0 && f.currency == "USD"
      && SubmitDisabled(f) && Validate(f).Alert?
  {
    var f := InitialFormData(NoInitialData, generatedNumber, today, in30Days);
    assert FormSubtotal(f.items) == 1.0 * 0.0 + FormSubtotal([]);
  }

  /** The form component's state: its `formData`, replaced by each handler. */
  class InvoiceForm {
    var formData: InvoiceFormData

    constructor (init: InitialData, generatedNumber: string, today: string, in30Days: string)
      ensures formData == InitialFormData(init, generatedNumber, today, in30Days)
    {
      formData := InitialFormData(init, generatedNumber, today, in30Days);
    }

    /** `addItem`; `newId` is the source's `Date.now().toString()`. */
    method AddItem(newId: string)
      modifies this
      ensures formData == old(formData).(items := old(formData.items) + [FormItem(newId, "", 1.0, 0.0)])
    {
      formData := formData.(items := formData.items + [FormItem(newId, "", 1.0, 0.0)]);
    }

    method RemoveItem(id: string)
      modifies this
      ensures formData == old(formData).(items := WithoutItem(old(formData.items), id))
    {
      formData := formData.(items := WithoutItem(formData.items, id));
    }

    method UpdateItem(id: string, u: ItemUpdate)
      modifies this
      ensures formData == old(formData).(items := ItemsUpdated(old(formData.items), id, u))
    {
      formData := formData.(items := ItemsUpdated(formData.items, id, u));
    }

    /** `handleSubmit`: hands the form on, or raises the first alert. */
    method HandleSubmit() returns (r: SubmitResult)
      ensures r == Validate(formData)
      ensures r.Generate? ==> r.data == formData
      ensures r.Generate? <==>
        formData.fromName != "" && formData.fromEmail != "" && formData.toName != "" && formData.toEmail != "" &&
        exists i :: 0 <= i < |formData.items| && ValidItem(formData.items[i])
      ensures r.Alert? ==> r.text == MissingParties || r.text == NoValidItem
    {
      if formData.fromName == "" || formData.fromEmail == "" || formData.toName == "" || formData.toEmail == "" {
        return Alert(MissingParties);
      }
      EveryInvalidSpec(formData.items);
      if |formData.items| == 0 || EveryInvalid(formData.items) {
        return Alert(NoValidItem);
      }
      return Generate(formData);
    }
  }
}
