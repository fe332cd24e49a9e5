/**
 * The orders API route: `GET` filters by status and order number and lists newest
 * first; `POST` inserts the order and then credits the customer matched by phone, at a
 * different point rate and with a different tier rule from the invoice route.
 *
 * The order number is built from the clock and is a parameter here.
 */
module OrdersRoute {
  import opened Wrappers
  import opened Seqs
  import opened Customers
  import InvoicesRoute

  datatype Order = Order(orderNumber: string, customerName: string, customerPhone: string,
                         total: real, status: string)

  /** `body.customer`: the order's customer sub-document. */
  datatype CustomerBody = CustomerBody(
    name: Option<string>,
    phone: Option<string>,
    email: Option<string>,
    city: Option<string>,
    address: Option<string>)

  /** An entry of `body.items`; `None` is a missing field. */
  datatype ItemBody = ItemBody(name: Option<string>, price: Option<real>, quantity: Option<real>)

  /** The JSON body, reduced to what the route and the schema look at. */
  datatype OrderBody = OrderBody(
    customer: Option<CustomerBody>,
    items: Option<seq<ItemBody>>,
    subtotal: Option<real>,
    total: Option<real>,
    status: Option<string>)

  /** The schema's required `customer.name` and `customer.phone` are given and non-empty. */
  predicate HasCustomer(body: OrderBody) {
    body.customer.Some? && Truthy(body.customer.value.name) && Truthy(body.customer.value.phone)
  }

  datatype Response = Created(order: Order) | Failed(status: nat, error: string)

  const MsgCreateFailed: string := "Failed to create order"

  predicate IsOrderStatus(s: string) {
    s in ["pending", "confirmed", "processing", "shipped", "delivered", "cancelled"]
  }

  /** The item sub-schema: a non-empty name, a price and a quantity are required. */
  predicate ItemComplete(item: ItemBody) {
    Truthy(item.name) && item.price.Some? && item.quantity.Some?
  }

  /** A missing `items` defaults to the empty list; a given one needs every item complete. */
  predicate ItemsComplete(items: Option<seq<ItemBody>>) {
    items.None? || forall k :: 0 <= k < |items.value| ==> ItemComplete(items.value[k])
  }

  /** The schema's checks: required non-empty customer name and phone, complete items,
      required amounts, a status from the enumeration when one is given, and a unique
      order number. */
  predicate Insertable(body: OrderBody, number: string, numbers: set<string>) {
    && HasCustomer(body)
    && ItemsComplete(body.items)
    && body.subtotal.Some? && body.total.Some?
    && (body.status.None? || IsOrderStatus(body.status.value))
    && number !in numbers
  }

  /** `Math.floor(total)`: one point per unit spent. */
  function OrderPoints(total: real): (p: int)
    ensures p as real <= total < p as real + 1.0
  {
    total.Floor
  }

  /** The existing customer's update: one more order, the total added, the points, and
      the tier raised by the threshold chain only from 500 on. */
  function OrderCredit(c: Customer, total: real): (r: Customer)
    ensures r.totalOrders == c.totalOrders + 1 && r.totalSpent == c.totalSpent + total
    ensures r.loyaltyPoints == c.loyaltyPoints + OrderPoints(total)
    ensures r.totalSpent >= 500.0 ==> r.loyaltyTier == CalculateTier(r.totalSpent)
    ensures r.totalSpent < 500.0 ==> r.loyaltyTier == c.loyaltyTier
    ensures r.name == c.name && r.phone == c.phone && r.email == c.email
  {
    var spent := c.totalSpent + total;
    var tier :=
      if spent >= 5000.0 then Platinum
      else if spent >= 2000.0 then Gold
      else if spent >= 500.0 then Silver
      else c.loyaltyTier;
    c.(totalOrders := c.totalOrders + 1, totalSpent := spent,
       loyaltyPoints := c.loyaltyPoints + OrderPoints(total), loyaltyTier := tier)
  }

  /** A customer created from an order: no tier is given, so the schema's bronze. */
  function NewOrderCustomer(body: OrderBody): (r: Customer)
    requires HasCustomer(body) && body.total.Some?
    ensures r.loyaltyTier == Bronze && r.totalOrders == 1
    ensures r.totalSpent == body.total.value && r.loyaltyPoints == OrderPoints(body.total.value)
    ensures r.email == OrElse(body.customer.value.email, "") && r.city == OrElse(body.customer.value.city, "")
    ensures r.address == OrElse(body.customer.value.address, "")
  {
    Customer(body.customer.value.name.value, body.customer.value.phone.value, OrElse(body.customer.value.email, ""),
             OrElse(body.customer.value.city, ""), OrElse(body.customer.value.address, ""),
             1, body.total.value, Bronze, OrderPoints(body.total.value))
  }

  /** The customer collection after an accepted order. */
  function OrderCustomers(cs: seq<Customer>, body: OrderBody): (r: seq<Customer>)
    requires HasCustomer(body) && body.total.Some?
    ensures |cs| <= |r| <= |cs| + 1
  {
    match FirstMatch(cs, ByPhone(body.customer.value.phone.value))
    case Some(i) => cs[i := OrderCredit(cs[i], body.total.value)]
    case None => cs + [NewOrderCustomer(body)]
  }

  /** The order route's tier rule agrees with the invoice route's function from 500 on,
      and below 500 leaves the stored tier alone. */
  lemma OrderTierRule(c: Customer, total: real)
    ensures var r := OrderCredit(c, total);
            r.loyaltyTier == if r.totalSpent >= 500.0 then CalculateTier(r.totalSpent) else c.loyaltyTier
  {
  }

  /** For non-negative totals the stored tier never gets ahead of the spending: the chain
      only raises it, and below 500 the old tier was already at most what less spending
      warranted. */
  lemma OrderCreditTierNotAhead(c: Customer, total: real)
    requires TierNotAhead(c) && total >= 0.0
    ensures TierNotAhead(OrderCredit(c, total))
  {
    TierMonotone(c.totalSpent, c.totalSpent + total);
  }

  /** A negative total (the route does not reject one) can leave a tier above what the
      spending warrants: a gold customer at 2000 stays gold after falling below 500. */
  lemma NegativeTotalKeepsTier(c: Customer)
    requires c.totalSpent == 2000.0 && c.loyaltyTier == Gold
    ensures OrderCredit(c, -1600.0).loyaltyTier == Gold
    ensures !TierNotAhead(OrderCredit(c, -1600.0))
  {
  }

  /** A customer created by an order is bronze whatever it spent, where the invoice route
      would have started it at the tier its total warrants. */
  lemma NewOrderCustomerBronze(body: OrderBody)
    requires HasCustomer(body) && body.total.Some?
    requires body.total.value >= 500.0
    ensures NewOrderCustomer(body).loyaltyTier == Bronze
    ensures Rank(CalculateTier(body.total.value)) > Rank(NewOrderCustomer(body).loyaltyTier)
  {
  }

  /** The order rate is ten times the invoice rate: for the same amount an order earns
      ten times the points the invoice route gives, plus at most nine. */
  lemma OrderPointsTenfold(amount: real)
    ensures 10 * InvoicesRoute.InvoicePoints(amount) <= OrderPoints(amount)
    ensures OrderPoints(amount) <= 10 * InvoicesRoute.InvoicePoints(amount) + 9
  {
  }

  /** An order's customer is found by phone only: a customer with the same name but
      another phone is not credited, and a new one is created. */
  lemma MatchedByPhoneOnly(c: Customer, body: OrderBody)
    requires HasCustomer(body) && body.total.Some?
    requires c.name == body.customer.value.name.value && c.phone != body.customer.value.phone.value
    ensures OrderCustomers([c], body) == [c, NewOrderCustomer(body)]
  {
  }

  /** The status filter of `GET`: none when missing, empty or `'all'`. */
  function StatusFilter(status: Option<string>): (r: Option<string>)
    ensures status.None? || status == Some("") || status == Some("all") ==> r.None?
    ensures r.Some? ==> r == status
  {
    if status.Some? && status.value != "" && status.value != "all" then status else None
  }

  predicate MatchesQuery(o: Order, status: Option<string>, orderNumber: Option<string>) {
    && (StatusFilter(status).Some? ==> o.status == StatusFilter(status).value)
    && (orderNumber.Some? && orderNumber.value != "" ==> o.orderNumber == orderNumber.value)
  }

  /** `GET /api/orders`: the matching orders, newest first. */
  function ListOrders(orders: seq<Order>, status: Option<string>, orderNumber: Option<string>): (r: seq<Order>)
    ensures forall x :: x in r <==> x in orders && MatchesQuery(x, status, orderNumber)
  {
    var f := Filter(orders, (o: Order) => MatchesQuery(o, status, orderNumber));
    assert forall x :: x in Reverse(f) <==> x in multiset(f);
    Reverse(f)
  }

  /** `'all'` lists the same orders as no status at all. */
  lemma StatusAllIsUnfiltered(orders: seq<Order>, orderNumber: Option<string>)
    ensures ListOrders(orders, Some("all"), orderNumber) == ListOrders(orders, None, orderNumber)
  {
    FilterExt(orders, (o: Order) => MatchesQuery(o, Some("all"), orderNumber),
              (o: Order) => MatchesQuery(o, None, orderNumber));
  }

  /** An order added after the others that matches the query is listed first, ahead of
      the earlier matches in their newest-first order. */
  lemma ListOrdersNewestFirst(orders: seq<Order>, o: Order, status: Option<string>, orderNumber: Option<string>)
    requires MatchesQuery(o, status, orderNumber)
    ensures ListOrders(orders + [o], status, orderNumber) == [o] + ListOrders(orders, status, orderNumber)
  {
    var p := (x: Order) => MatchesQuery(x, status, orderNumber);
    FilterAppend(orders, [o], p);
    assert Filter([o], p) == [o];
    ReverseSnoc(Filter(orders, p), o);
  }

  class OrderDb {
    var orders: seq<Order>

    function Numbers(): set<string>
      reads this
    {
      set i | 0 <= i < |orders| :: orders[i].orderNumber
    }

    constructor()
      ensures orders == []
    {
      orders := [];
    }

    /** `POST /api/orders`: insert, then credit or create the customer. */
    method Post(body: OrderBody, orderNumber: string, customers: CustomerStore)
      returns (resp: Response)
      modifies this, customers
      ensures resp.Created? <==> Insertable(body, orderNumber, old(Numbers()))
      ensures resp.Created? ==>
                && resp.order == Order(orderNumber, body.customer.value.name.value, body.customer.value.phone.value,
                                       body.total.value, OrElse(body.status, "pending"))
                && orders == old(orders) + [resp.order]
                && customers.customers == OrderCustomers(old(customers.customers), body)
      ensures resp.Failed? ==>
                resp == Failed(500, MsgCreateFailed)
                && orders == old(orders) && customers.customers == old(customers.customers)
    {
      if !Insertable(body, orderNumber, Numbers()) {
        return Failed(500, MsgCreateFailed);
      }
      var order := Order(orderNumber, body.customer.value.name.value, body.customer.value.phone.value,
                         body.total.value, OrElse(body.status, "pending"));
      orders := orders + [order];
      var idx := customers.FindOne(ByPhone(body.customer.value.phone.value));
      if idx.Some? {
        var i := idx.value;
        customers.customers := customers.customers[i := OrderCredit(customers.customers[i], body.total.value)];
      } else {
        customers.customers := customers.customers + [NewOrderCustomer(body)];
      }
      resp := Created(order);
    }
  }
}
