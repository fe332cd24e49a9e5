/**
 * The invoice creation form: an editable list of line items that never becomes empty,
 * and the subtotal, discount, VAT and total computed from it. Amounts are exact reals.
 */
module InvoiceForm {
  import opened Wrappers
  import opened Text
  import InvoicesRoute

  /** Quantities come from `parseInt(...) || 0`, prices from `parseFloat(...) || 0`. */
  datatype LineItem = LineItem(name: string, nameAr: string, quantity: int, unitPrice: real, total: real)

  datatype DiscountType = Fixed | Percentage

  /** The part of the settings document the form reads. */
  datatype VatSettings = VatSettings(vatEnabled: bool, vatPercentage: real)

  /** An edit made through `updateItem(index, field, value)`. */
  datatype Edit =
    | SetName(name: string)
    | SetNameAr(nameAr: string)
    | SetQuantity(quantity: int)
    | SetUnitPrice(unitPrice: real)

  /** `{ name: '', nameAr: '', quantity: 1, unitPrice: 0, total: 0 }` */
  const BlankItem: LineItem := LineItem("", "", 1, 0.0, 0.0)

  /** An item's total is its quantity times its unit price. */
  predicate LineConsistent(i: LineItem) { i.total == i.quantity as real * i.unitPrice }

  /** The item after an edit: a quantity or price edit recomputes the total, a name edit
      leaves it. */
  function Edited(item: LineItem, e: Edit): (r: LineItem)
    ensures e.SetName? || e.SetNameAr? ==> r.total == item.total
    ensures e.SetQuantity? || e.SetUnitPrice? ==> LineConsistent(r)
    ensures LineConsistent(item) ==> LineConsistent(r)
  {
    match e
    case SetName(n) => item.(name := n)
    case SetNameAr(n) => item.(nameAr := n)
    case SetQuantity(q) => item.(quantity := q, total := q as real * item.unitPrice)
    case SetUnitPrice(p) => item.(unitPrice := p, total := item.quantity as real * p)
  }

  /** `items.reduce((sum, i) => sum + i.total, 0)` */
  function Subtotal(items: seq<LineItem>): real {
    if items == [] then 0.0 else Subtotal(items[..|items| - 1]) + items[|items| - 1].total
  }

  /** `discountType === 'percentage' ? (subtotal * discount) / 100 : discount` */
  function DiscountAmount(subtotal: real, discount: real, kind: DiscountType): real {
    if kind == Percentage then subtotal * discount / 100.0 else discount
  }

  /** `settings?.vatEnabled ? (afterDiscount * (settings.vatPercentage || 15)) / 100 : 0` */
  function VatAmount(afterDiscount: real, settings: Option<VatSettings>): real {
    if settings.Some? && settings.value.vatEnabled then
      afterDiscount * (if settings.value.vatPercentage != 0.0 then settings.value.vatPercentage else 15.0) / 100.0
    else 0.0
  }

  /** `total = afterDiscount + vatAmount` */
  function Total(items: seq<LineItem>, discount: real, kind: DiscountType, settings: Option<VatSettings>): real {
    var afterDiscount := Subtotal(items) - DiscountAmount(Subtotal(items), discount, kind);
    afterDiscount + VatAmount(afterDiscount, settings)
  }

  /** Without VAT (disabled, or settings not loaded) the total is the discounted
      subtotal; with VAT it is that amount raised by the rate, 15% when the stored rate
      is zero. */
  lemma TotalFormula(items: seq<LineItem>, discount: real, kind: DiscountType, settings: Option<VatSettings>)
    ensures var after := Subtotal(items) - DiscountAmount(Subtotal(items), discount, kind);
            && (settings.None? || !settings.value.vatEnabled ==> Total(items, discount, kind, settings) == after)
            && (settings.Some? && settings.value.vatEnabled && settings.value.vatPercentage == 0.0 ==>
                  Total(items, discount, kind, settings) == after * 1.15)
            && (settings.Some? && settings.value.vatEnabled && settings.value.vatPercentage != 0.0 ==>
                  Total(items, discount, kind, settings) == after * (1.0 + settings.value.vatPercentage / 100.0))
  {
  }

  /** Nothing clamps the discount: a fixed discount above the subtotal gives a negative
      total. */
  lemma NegativeTotal(items: seq<LineItem>, discount: real, settings: Option<VatSettings>)
    requires discount > Subtotal(items)
    requires settings.None? || !settings.value.vatEnabled || settings.value.vatPercentage >= 0.0
    ensures Total(items, discount, Fixed, settings) < 0.0
  {
    var after := Subtotal(items) - discount;
    assert Total(items, discount, Fixed, settings) == after + VatAmount(after, settings);
    if settings.Some? && settings.value.vatEnabled {
      var rate := if settings.value.vatPercentage != 0.0 then settings.value.vatPercentage else 15.0;
      assert VatAmount(after, settings) == after * rate / 100.0;
      MulNegNonneg(after, rate);
    }
  }

  lemma MulNegNonneg(a: real, b: real)
    requires a < 0.0 && b >= 0.0
    ensures a * b / 100.0 <= 0.0
  {
  }

  /** With consistent lines the subtotal is the sum of quantity times price. */
  function PriceSum(items: seq<LineItem>): real {
    if items == [] then 0.0
    else PriceSum(items[..|items| - 1]) + items[|items| - 1].quantity as real * items[|items| - 1].unitPrice
  }

  lemma {:induction false} SubtotalIsPriceSum(items: seq<LineItem>)
    requires forall i :: 0 <= i < |items| ==> LineConsistent(items[i])
    ensures Subtotal(items) == PriceSum(items)
    decreases |items|
  {
    if items != [] {
      SubtotalIsPriceSum(items[..|items| - 1]);
    }
  }

  /** `items.some(i => !i.nameAr && !i.name)` */
  predicate Unnamed(i: LineItem) { i.name == "" && i.nameAr == "" }

  /** The checks of `handleSave`: a customer name that is not blank, and a name in one
      language or the other on every item. */
  predicate CanSave(customerName: string, items: seq<LineItem>) {
    !Blank(customerName) && forall i :: 0 <= i < |items| ==> !Unnamed(items[i])
  }

  /** The request body the form posts, reduced to what the route reads. */
  function SaveBody(invoiceNumber: string, customerName: string, customerPhone: string,
                    customerEmail: string, items: seq<LineItem>, discount: real, kind: DiscountType,
                    settings: Option<VatSettings>): InvoicesRoute.InvoiceBody
  {
    InvoicesRoute.InvoiceBody(Some(invoiceNumber), Some(customerName), Some(customerPhone),
                              Some(customerEmail), Some(ItemBodies(items)), Some(Subtotal(items)),
                              Some(if kind == Fixed then "fixed" else "percentage"),
                              Some(Total(items, discount, kind, settings)))
  }

  /** The items as they are serialised: every field is present. */
  function ItemBodies(items: seq<LineItem>): seq<InvoicesRoute.ItemBody> {
    seq(|items|, k requires 0 <= k < |items| =>
      InvoicesRoute.ItemBody(Some(items[k].name), Some(items[k].nameAr), Some(items[k].quantity as real),
                             Some(items[k].unitPrice), Some(items[k].total)))
  }

  /** A form that passes its checks posts a body the route inserts exactly when the
      number it ends up with is non-empty and unused: the name, complete items, both
      amounts and a known discount type are always there. */
  lemma SavedBodyInsertable(invoiceNumber: string, customerName: string, customerPhone: string,
                            customerEmail: string, items: seq<LineItem>, discount: real,
                            kind: DiscountType, settings: Option<VatSettings>,
                            number: string, used: set<string>)
    requires CanSave(customerName, items)
    ensures var b := SaveBody(invoiceNumber, customerName, customerPhone, customerEmail,
                              items, discount, kind, settings);
            InvoicesRoute.Insertable(Some(number), b, used) <==> number != "" && number !in used
  {
  }

  class Form {
    var items: seq<LineItem>
    var customerName: string
    var discount: real
    var discountType: DiscountType
    var settings: Option<VatSettings>

    /** The list is never empty and every line total matches its quantity and price. */
    ghost predicate Valid()
      reads this
    {
      |items| >= 1 && forall i :: 0 <= i < |items| ==> LineConsistent(items[i])
    }

    /** One blank item, no discount, settings not yet loaded. */
    constructor()
      ensures Valid() && items == [BlankItem] && customerName == "" && discount == 0.0
      ensures discountType == Fixed && settings.None?
    {
      items := [BlankItem];
      customerName := "";
      discount := 0.0;
      discountType := Fixed;
      settings := None;
    }

    method AddItem()
      requires Valid()
      modifies this`items
      ensures Valid() && items == old(items) + [BlankItem]
    {
      items := items + [BlankItem];
    }

    /** `removeItem(index)`: refused while one item is left; otherwise drops the item at
        `index`, if there is one. */
    method RemoveItem(index: int)
      requires Valid()
      modifies this`items
      ensures Valid()
      ensures |old(items)| == 1 ==> items == old(items)
      ensures |old(items)| > 1 && 0 <= index < |old(items)| ==>
                items == old(items)[..index] + old(items)[index + 1..]
      ensures !(0 <= index < |old(items)|) ==> items == old(items)
    {
      if |items| == 1 {
        return;
      }
      if 0 <= index < |items| {
        items := items[..index] + items[index + 1..];
      }
    }

    /** `updateItem(index, field, value)` for an index the list renders. */
    method UpdateItem(index: nat, e: Edit)
      requires Valid() && index < |items|
      modifies this`items
      ensures Valid()
      ensures items == old(items)[index := Edited(old(items)[index], e)]
    {
      items := items[index := Edited(items[index], e)];
    }

    /** The total shown under the items. */
    function CurrentTotal(): real
      reads this
    {
      Total(items, discount, discountType, settings)
    }
  }

  /** Removal never empties the list, whatever is removed and how often. */
  method RemoveAll(form: Form, n: nat)
    requires form.Valid()
    modifies form
    ensures form.Valid() && |form.items| >= 1
  {
    var k := 0;
    while k < n
      invariant form.Valid()
    {
      form.RemoveItem(0);
      k := k + 1;
    }
  }
}
