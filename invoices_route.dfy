/**
 * The invoices API route's `POST`: a bounded loop that draws invoice numbers from a
 * counter until one is free, the insert, and the customer's loyalty update.
 *
 * The counter is the settings document's `invoicePrefix` and `invoiceNextNumber`,
 * read by an upsert that returns the document as it was before the increment. The
 * database may throw during the loop; `failAt` says at which attempt, and `now` is the
 * clock's millisecond reading used by the fallback number.
 */
module InvoicesRoute {
  import opened Wrappers
  import opened Text
  import opened Customers

  /** The counter fields; either may be missing from the stored document. */
  datatype Counter = Counter(prefix: Option<string>, next: Option<nat>)

  /** `settingsDoc?.invoicePrefix || 'INV'` */
  function PrefixOf(doc: Option<Counter>): string {
    if doc.Some? then OrElse(doc.value.prefix, "INV") else "INV"
  }

  /** `settingsDoc?.invoiceNextNumber ?? 1` */
  function NumberOf(doc: Option<Counter>): nat {
    if doc.Some? && doc.value.next.Some? then doc.value.next.value else 1
  }

  /** The upsert with `$inc: { invoiceNextNumber: 1 }`: a missing document or field
      counts from zero. */
  function Bump(doc: Option<Counter>): (r: Option<Counter>)
    ensures r.Some? && r.value.next.Some?
    ensures doc.Some? ==> r.value.prefix == doc.value.prefix
  {
    match doc
    case None => Some(Counter(None, Some(1)))
    case Some(Counter(p, n)) => Some(Counter(p, Some(if n.Some? then n.value + 1 else 1)))
  }

  /** `${prefix}-${String(num).padStart(4, '0')}` */
  function Candidate(doc: Option<Counter>): string {
    PrefixOf(doc) + "-" + PadStart(NatToString(NumberOf(doc)), 4)
  }

  /** The counter after `k` increments. */
  function BumpN(doc: Option<Counter>, k: nat): Option<Counter> {
    if k == 0 then doc else Bump(BumpN(doc, k - 1))
  }

  const MaxAttempts: nat := 20

  /** What the allocation leaves: the invoice number and the counter. */
  datatype Allocation = Allocation(number: Option<string>, counter: Option<Counter>)

  /** The number chosen from attempt `k` on, given the invoice numbers already used.
      A fault ends the loop and falls back to `INV-<now>` unless the body gave a number. */
  function Allocate(doc: Option<Counter>, used: set<string>, body: Option<string>,
                    failAt: Option<nat>, now: nat, k: nat): Allocation
    decreases MaxAttempts - k
  {
    if k >= MaxAttempts then Allocation(body, doc)
    else if failAt == Some(k) then
      Allocation(if Truthy(body) then body else Some("INV-" + NatToString(now)), doc)
    else if Candidate(doc) !in used then Allocation(Some(Candidate(doc)), Bump(doc))
    else Allocate(Bump(doc), used, body, failAt, now, k + 1)
  }

  /** A number drawn from the counter is never one already used: without a fault the
      result is the body's number or a fresh candidate. */
  lemma {:induction false} AllocateFresh(doc: Option<Counter>, used: set<string>, body: Option<string>,
                                         now: nat, k: nat)
    ensures var a := Allocate(doc, used, body, None, now, k);
            a.number == body || (a.number.Some? && a.number.value !in used)
    decreases MaxAttempts - k
  {
    var c := Candidate(doc);
    if k < MaxAttempts && c in used {
      AllocateFresh(Bump(doc), used, body, now, k + 1);
    }
  }

  /** The candidate of each attempt is the counter after as many increments. */
  lemma {:induction false} AllocateTaken(doc: Option<Counter>, used: set<string>, body: Option<string>,
                                         now: nat, k: nat)
    requires k <= MaxAttempts
    requires forall m :: 0 <= m < MaxAttempts - k ==> Candidate(BumpN(doc, m)) in used
    ensures Allocate(doc, used, body, None, now, k) == Allocation(body, BumpN(doc, MaxAttempts - k))
    decreases MaxAttempts - k
  {
    if k < MaxAttempts {
      assert Candidate(BumpN(doc, 0)) in used;
      forall m | 0 <= m < MaxAttempts - (k + 1) ensures Candidate(BumpN(Bump(doc), m)) in used {
        assert Candidate(BumpN(doc, m + 1)) in used;
        BumpNShift(doc, m);
      }
      AllocateTaken(Bump(doc), used, body, now, k + 1);
      BumpNShift(doc, MaxAttempts - (k + 1));
    }
  }

  lemma {:induction false} BumpNShift(doc: Option<Counter>, k: nat)
    ensures BumpN(Bump(doc), k) == BumpN(doc, k + 1)
    decreases k
  {
    if k > 0 {
      BumpNShift(doc, k - 1);
    }
  }

  /** On a fresh database the first two attempts both read 1: the first upsert returns
      nothing and the second the document holding 1. */
  lemma CounterRepeatsOne()
    ensures Candidate(None) == "INV-0001"
    ensures Candidate(Bump(None)) == "INV-0001"
    ensures Candidate(Bump(Bump(None))) == "INV-0002"
  {
    assert NatToString(1) == "1";
    assert NatToString(2) == "2";
    assert Zeros(3) == "000";
  }

  /** Distinct counter values give distinct candidates under the same prefix: the
      zero-padded digits read back as the number. */
  lemma CandidateInjective(a: Option<Counter>, b: Option<Counter>)
    requires PrefixOf(a) == PrefixOf(b) && NumberOf(a) != NumberOf(b)
    ensures Candidate(a) != Candidate(b)
  {
    var pa := PadStart(NatToString(NumberOf(a)), 4);
    var pb := PadStart(NatToString(NumberOf(b)), 4);
    PaddedValue(NumberOf(a));
    PaddedValue(NumberOf(b));
    var head := PrefixOf(a) + "-";
    assert Candidate(a) == head + pa && Candidate(b) == head + pb;
    assert pa != pb;
    assert Candidate(a)[|head|..] == pa && Candidate(b)[|head|..] == pb;
  }

  lemma PaddedValue(n: nat)
    ensures AllDigits(PadStart(NatToString(n), 4))
    ensures DigitsValue(PadStart(NatToString(n), 4)) == n
  {
    var s := NatToString(n);
    NatToStringValue(n);
    if |s| < 4 {
      LeadingZerosValue(4 - |s|, s);
    }
  }

  /** An invoice document, reduced to what the route reads or the schema checks. */
  datatype Invoice = Invoice(invoiceNumber: string, customerName: string, customerPhone: string,
                             subtotal: real, total: real)

  /** A line item of the body; `None` is a missing field. */
  datatype ItemBody = ItemBody(
    name: Option<string>,
    nameAr: Option<string>,
    quantity: Option<real>,
    unitPrice: Option<real>,
    total: Option<real>)

  /** The JSON body; `None` is a missing field. */
  datatype InvoiceBody = InvoiceBody(
    invoiceNumber: Option<string>,
    customerName: Option<string>,
    customerPhone: Option<string>,
    customerEmail: Option<string>,
    items: Option<seq<ItemBody>>,
    subtotal: Option<real>,
    discountType: Option<string>,
    total: Option<real>)

  datatype Response = Created(invoice: Invoice) | Failed(status: nat, error: string)

  const MsgCreateFailed: string := "Failed to create invoice"

  /** `body.total || 0` */
  function Amount(total: Option<real>): real {
    if total.Some? then total.value else 0.0
  }

  /** `Math.floor(amount / 10)`: one point per ten spent. */
  function InvoicePoints(amount: real): (p: int)
    ensures 10 * p <= amount.Floor && amount < (10 * p + 10) as real
  {
    (amount / 10.0).Floor
  }

  /** The existing customer's update: one more order, the amount added, points at one
      per ten, the tier recomputed, name and email overwritten only when supplied. */
  function InvoiceCredit(c: Customer, body: InvoiceBody): (r: Customer)
    ensures r.totalOrders == c.totalOrders + 1
    ensures r.totalSpent == c.totalSpent + Amount(body.total)
    ensures r.loyaltyPoints == c.loyaltyPoints + InvoicePoints(Amount(body.total))
    ensures r.loyaltyTier == CalculateTier(r.totalSpent)
    ensures r.name == OrElse(body.customerName, c.name) && r.email == OrElse(body.customerEmail, c.email)
    ensures r.phone == c.phone && r.city == c.city && r.address == c.address
  {
    var spent := c.totalSpent + Amount(body.total);
    c.(totalOrders := c.totalOrders + 1,
       totalSpent := spent,
       loyaltyPoints := c.loyaltyPoints + InvoicePoints(Amount(body.total)),
       loyaltyTier := CalculateTier(spent),
       name := OrElse(body.customerName, c.name),
       email := OrElse(body.customerEmail, c.email))
  }

  /** A customer created from an invoice; the name defaults to "customer". */
  function NewInvoiceCustomer(body: InvoiceBody): (r: Customer)
    requires Truthy(body.customerPhone)
    ensures r.phone == body.customerPhone.value && r.totalOrders == 1
    ensures r.totalSpent == Amount(body.total) && r.loyaltyTier == CalculateTier(r.totalSpent)
    ensures r.name == OrElse(body.customerName, "عميل")
  {
    var spent := Amount(body.total);
    Customer(OrElse(body.customerName, "عميل"), body.customerPhone.value, OrElse(body.customerEmail, ""),
             "", "", 1, spent, CalculateTier(spent), InvoicePoints(spent))
  }

  /** By phone when one is given, by name otherwise. */
  function QueryKey(body: InvoiceBody): Key
    requires Truthy(body.customerPhone) || Truthy(body.customerName)
  {
    if Truthy(body.customerPhone) then ByPhone(body.customerPhone.value) else ByName(body.customerName.value)
  }

  /** The customer collection after the loyalty update. */
  function InvoiceCustomers(cs: seq<Customer>, body: InvoiceBody): (r: seq<Customer>)
    ensures |cs| <= |r| <= |cs| + 1
  {
    if !Truthy(body.customerPhone) && !Truthy(body.customerName) then cs
    else match FirstMatch(cs, QueryKey(body))
      case Some(i) => cs[i := InvoiceCredit(cs[i], body)]
      case None => if Truthy(body.customerPhone) then cs + [NewInvoiceCustomer(body)] else cs
  }

  /** The update keeps every stored tier at or below what its spending warrants. */
  lemma InvoiceCustomersTierNotAhead(cs: seq<Customer>, body: InvoiceBody)
    requires forall i :: 0 <= i < |cs| ==> TierNotAhead(cs[i])
    ensures forall i :: 0 <= i < |InvoiceCustomers(cs, body)| ==> TierNotAhead(InvoiceCustomers(cs, body)[i])
  {
  }

  /** After an invoice with a phone, a customer with that phone exists: the first one
      found is credited, or a new one is created. */
  lemma InvoiceWithPhoneRecordsCustomer(cs: seq<Customer>, body: InvoiceBody)
    requires Truthy(body.customerPhone)
    ensures FirstMatch(InvoiceCustomers(cs, body), ByPhone(body.customerPhone.value)).Some?
  {
    var key := ByPhone(body.customerPhone.value);
    var r := InvoiceCustomers(cs, body);
    match FirstMatch(cs, key)
    case Some(i) =>
      assert Matches(r[i], key);
    case None =>
      assert Matches(r[|cs|], key);
  }

  /** Without a phone, a name that matches nobody creates nobody. */
  lemma InvoiceWithoutPhoneCreatesNobody(cs: seq<Customer>, body: InvoiceBody)
    requires !Truthy(body.customerPhone)
    ensures |InvoiceCustomers(cs, body)| == |cs|
  {
  }

  /** The item sub-schema: quantity, unit price and total are required. */
  predicate ItemComplete(item: ItemBody) {
    item.quantity.Some? && item.unitPrice.Some? && item.total.Some?
  }

  /** A missing `items` defaults to the empty list; a given one needs every item complete. */
  predicate ItemsComplete(items: Option<seq<ItemBody>>) {
    items.None? || forall k :: 0 <= k < |items.value| ==> ItemComplete(items.value[k])
  }

  /** `enum: ['fixed', 'percentage']`; a missing value takes the default `fixed`. */
  predicate DiscountTypeValid(d: Option<string>) {
    d.None? || d.value == "fixed" || d.value == "percentage"
  }

  /** Whether the insert passes the schema: a non-empty unique number, a non-empty
      customer name, complete items, the required amounts and a known discount type. */
  predicate Insertable(number: Option<string>, body: InvoiceBody, used: set<string>) {
    Truthy(number) && number.value !in used && Truthy(body.customerName)
    && ItemsComplete(body.items)
    && body.subtotal.Some? && body.total.Some?
    && DiscountTypeValid(body.discountType)
  }

  class InvoiceDb {
    var counter: Option<Counter>
    var invoices: seq<Invoice>

    function Used(): set<string>
      reads this
    {
      set i | 0 <= i < |invoices| :: invoices[i].invoiceNumber
    }

    /** Invoice numbers are unique: the schema's unique index. */
    ghost predicate Valid()
      reads this
    {
      forall i, j :: 0 <= i < j < |invoices| ==> invoices[i].invoiceNumber != invoices[j].invoiceNumber
    }

    constructor(counter: Option<Counter>)
      ensures Valid() && this.counter == counter && invoices == []
    {
      this.counter := counter;
      invoices := [];
    }

    /** The allocation loop of `POST`. */
    method AllocateNumber(body: Option<string>, failAt: Option<nat>, now: nat)
      returns (number: Option<string>)
      modifies this`counter
      ensures Allocation(number, counter) == Allocate(old(counter), Used(), body, failAt, now, 0)
    {
      number := body;
      var attempts := 0;
      var failed := false;
      while attempts < MaxAttempts
        invariant 0 <= attempts <= MaxAttempts
        invariant Allocate(old(counter), Used(), body, failAt, now, 0)
                  == Allocate(counter, Used(), body, failAt, now, attempts)
        invariant number == body
      {
        if failAt == Some(attempts) {
          failed := true;
          break;
        }
        var candidate := Candidate(counter);
        counter := Bump(counter);
        var taken := candidate in Used();
        if !taken {
          number := Some(candidate);
          return;
        }
        attempts := attempts + 1;
      }
      if failed && !Truthy(number) {
        number := Some("INV-" + NatToString(now));
      }
    }

    /** `POST /api/invoices` with the customer update against `customers`.
        `customerFault` says whether the database throws during that update, which the
        route logs and ignores. */
    method Post(body: InvoiceBody, failAt: Option<nat>, now: nat, customerFault: bool,
                customers: CustomerStore)
      returns (resp: Response)
      requires Valid()
      modifies this, customers
      ensures Valid()
      ensures var a := Allocate(old(counter), old(Used()), body.invoiceNumber, failAt, now, 0);
              && counter == a.counter
              && (resp.Created? <==> Insertable(a.number, body, old(Used())))
              && (resp.Created? ==>
                    && resp.invoice == Invoice(a.number.value, body.customerName.value,
                                               OrElse(body.customerPhone, ""), body.subtotal.value,
                                               body.total.value)
                    && invoices == old(invoices) + [resp.invoice]
                    && customers.customers ==
                         (if customerFault then old(customers.customers)
                          else InvoiceCustomers(old(customers.customers), body)))
              && (resp.Failed? ==>
                    && resp == Failed(500, MsgCreateFailed)
                    && invoices == old(invoices) && customers.customers == old(customers.customers))
    {
      var number := AllocateNumber(body.invoiceNumber, failAt, now);
      if !Insertable(number, body, Used()) {
        return Failed(500, MsgCreateFailed);
      }
      var invoice := Invoice(number.value, body.customerName.value, OrElse(body.customerPhone, ""),
                             body.subtotal.value, body.total.value);
      assert forall i :: 0 <= i < |invoices| ==> invoices[i].invoiceNumber in Used();
      invoices := invoices + [invoice];
      if !customerFault {
        RecordCustomer(customers, body);
      }
      resp := Created(invoice);
    }
  }

  /** The loyalty update of `POST`. */
  method RecordCustomer(store: CustomerStore, body: InvoiceBody)
    modifies store
    ensures store.customers == InvoiceCustomers(old(store.customers), body)
  {
    if !Truthy(body.customerPhone) && !Truthy(body.customerName) {
      return;
    }
    var idx := store.FindOne(QueryKey(body));
    if idx.Some? {
      var i := idx.value;
      store.customers := store.customers[i := InvoiceCredit(store.customers[i], body)];
    } else if Truthy(body.customerPhone) {
      store.customers := store.customers + [NewInvoiceCustomer(body)];
    }
  }
}
