/**
 * The customer collection both sale routes update: a customer document, the four
 * loyalty tiers, the invoice route's tier function and the lookup `findOne` performs.
 */
module Customers {
  import opened Wrappers

  datatype Tier = Bronze | Silver | Gold | Platinum

  function Rank(t: Tier): nat {
    match t
    case Bronze => 0
    case Silver => 1
    case Gold => 2
    case Platinum => 3
  }

  /** `calculateLoyaltyTier(totalSpent)` */
  function CalculateTier(totalSpent: real): Tier {
    if totalSpent >= 5000.0 then Platinum
    else if totalSpent >= 2000.0 then Gold
    else if totalSpent >= 500.0 then Silver
    else Bronze
  }

  /** The thresholds, in both directions. */
  lemma TierThresholds(s: real)
    ensures CalculateTier(s) == Platinum <==> s >= 5000.0
    ensures CalculateTier(s) == Gold <==> 2000.0 <= s < 5000.0
    ensures CalculateTier(s) == Silver <==> 500.0 <= s < 2000.0
    ensures CalculateTier(s) == Bronze <==> s < 500.0
  {
  }

  /** Spending more never lowers the tier. */
  lemma TierMonotone(a: real, b: real)
    requires a <= b
    ensures Rank(CalculateTier(a)) <= Rank(CalculateTier(b))
  {
  }

  /** A customer document; amounts are exact reals. */
  datatype Customer = Customer(
    name: string,
    phone: string,
    email: string,
    city: string,
    address: string,
    totalOrders: int,
    totalSpent: real,
    loyaltyTier: Tier,
    loyaltyPoints: int)

  /** A stored tier is never above the one the amount spent warrants. */
  predicate TierNotAhead(c: Customer) {
    Rank(c.loyaltyTier) <= Rank(CalculateTier(c.totalSpent))
  }

  /** A JavaScript string that is truthy: present and non-empty. */
  predicate Truthy(s: Option<string>) { s.Some? && s.value != "" }

  /** `s || fallback` */
  function OrElse(s: Option<string>, fallback: string): (r: string)
    ensures Truthy(s) ==> r == s.value
    ensures !Truthy(s) ==> r == fallback
  {
    if Truthy(s) then s.value else fallback
  }

  /** The filter of a `findOne` on the collection. */
  datatype Key = ByPhone(phone: string) | ByName(name: string)

  predicate Matches(c: Customer, key: Key) {
    match key
    case ByPhone(p) => c.phone == p
    case ByName(n) => c.name == n
  }

  /** `findOne(query)`: the first matching document in collection order. */
  function FirstMatch(cs: seq<Customer>, key: Key): (r: Option<nat>)
    ensures r.Some? ==> r.value < |cs| && Matches(cs[r.value], key)
    ensures r.Some? ==> forall j :: 0 <= j < r.value ==> !Matches(cs[j], key)
    ensures r.None? ==> forall j :: 0 <= j < |cs| ==> !Matches(cs[j], key)
  {
    if cs == [] then None
    else if Matches(cs[0], key) then Some(0)
    else match FirstMatch(cs[1..], key)
      case None => None
      case Some(i) => Some(i + 1)
  }

  class CustomerStore {
    var customers: seq<Customer>

    constructor()
      ensures customers == []
    {
      customers := [];
    }

    /** `Customer.findOne(query)` as a scan of the collection. */
    method FindOne(key: Key) returns (idx: Option<nat>)
      ensures idx == FirstMatch(customers, key)
    {
      var i := 0;
      while i < |customers|
        invariant 0 <= i <= |customers|
        invariant forall j :: 0 <= j < i ==> !Matches(customers[j], key)
      {
        if Matches(customers[i], key) {
          FirstMatchAt(customers, key, i);
          return Some(i);
        }
        i := i + 1;
      }
      FirstMatchNone(customers, key);
      return None;
    }
  }

  lemma {:induction false} FirstMatchAt(cs: seq<Customer>, key: Key, i: nat)
    requires i < |cs| && Matches(cs[i], key)
    requires forall j :: 0 <= j < i ==> !Matches(cs[j], key)
    ensures FirstMatch(cs, key) == Some(i)
    decreases i
  {
    if i > 0 {
      FirstMatchAt(cs[1..], key, i - 1);
    }
  }

  lemma {:induction false} FirstMatchNone(cs: seq<Customer>, key: Key)
    requires forall j :: 0 <= j < |cs| ==> !Matches(cs[j], key)
    ensures FirstMatch(cs, key) == None
    decreases |cs|
  {
    if cs != [] {
      FirstMatchNone(cs[1..], key);
    }
  }
}
