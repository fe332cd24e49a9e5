/**
 * The worker dashboard layout: the navigation list built from the worker's page access
 * and the rule that marks the current item.
 */
module WorkerLayout {
  import opened Wrappers
  import opened Text
  import opened Seqs

  /** A navigation link: its path and its Arabic caption (`label`). */
  datatype NavItem = NavItem(href: string, caption: string)

  const Home: NavItem := NavItem("/worker/dashboard", "الرئيسية")
  const Scan: NavItem := NavItem("/worker/dashboard/scan", "تسجيل الحضور")

  /** `PAGE_MAP[key]`: the five pages a worker can be given. */
  function PageMap(key: string): Option<NavItem> {
    match key
    case "invoices" => Some(NavItem("/worker/dashboard/invoices", "الفواتير"))
    case "products" => Some(NavItem("/worker/dashboard/products", "المنتجات"))
    case "orders" => Some(NavItem("/worker/dashboard/orders", "الطلبات"))
    case "customers" => Some(NavItem("/worker/dashboard/customers", "العملاء"))
    case "settings" => Some(NavItem("/worker/dashboard/settings", "الإعدادات"))
    case _ => None
  }

  predicate IsPageKey(key: string) { PageMap(key).Some? }

  /** `keys.map(key => PAGE_MAP[key]).filter(Boolean)` */
  function MappedKeys(keys: seq<string>): seq<NavItem> {
    if keys == [] then []
    else match PageMap(keys[0])
      case Some(item) => [item] + MappedKeys(keys[1..])
      case None => MappedKeys(keys[1..])
  }

  /** One page item per known key. */
  lemma {:induction false} MappedKeysCount(keys: seq<string>)
    ensures |MappedKeys(keys)| == Count(keys, IsPageKey)
    decreases |keys|
  {
    if keys != [] {
      MappedKeysCount(keys[1..]);
      assert Filter(keys, IsPageKey) == (if IsPageKey(keys[0]) then [keys[0]] else []) + Filter(keys[1..], IsPageKey);
    }
  }

  /** `allowedNavItems`: home, then the scan page, then the worker's pages in the order
      of `pageAccess`; `pageAccess || []`. */
  function NavItems(pageAccess: Option<seq<string>>): seq<NavItem> {
    [Home, Scan] + MappedKeys(if pageAccess.Some? then pageAccess.value else [])
  }

  /** The list always opens with home and the scan page, and holds two items more than
      the worker has known page keys. */
  lemma NavItemsShape(pageAccess: Option<seq<string>>)
    ensures var items := NavItems(pageAccess);
            var keys := if pageAccess.Some? then pageAccess.value else [];
            && |items| >= 2 && items[0] == Home && items[1] == Scan
            && |items| == 2 + Count(keys, IsPageKey)
  {
    MappedKeysCount(if pageAccess.Some? then pageAccess.value else []);
  }

  /** Mapping distributes over concatenation, so the pages keep the order of their keys
      and an unknown key in between changes nothing. */
  lemma {:induction false} MappedKeysAppend(a: seq<string>, b: seq<string>)
    ensures MappedKeys(a + b) == MappedKeys(a) + MappedKeys(b)
    decreases |a|
  {
    if a == [] {
      assert a + b == b;
    } else {
      assert (a + b)[0] == a[0];
      assert (a + b)[1..] == a[1..] + b;
      MappedKeysAppend(a[1..], b);
    }
  }

  lemma MappedKeysDropsUnknown(a: seq<string>, key: string, b: seq<string>)
    requires !IsPageKey(key)
    ensures MappedKeys(a + [key] + b) == MappedKeys(a + b)
  {
    MappedKeysAppend(a + [key], b);
    MappedKeysAppend(a, [key]);
    MappedKeysAppend(a, b);
    assert MappedKeys([key]) == [];
  }

  /** With only known keys, the i-th page item is the i-th key's page. */
  lemma {:induction false} MappedKnownKeys(keys: seq<string>)
    requires forall i :: 0 <= i < |keys| ==> IsPageKey(keys[i])
    ensures |MappedKeys(keys)| == |keys|
    ensures forall i :: 0 <= i < |keys| ==> PageMap(keys[i]) == Some(MappedKeys(keys)[i])
    decreases |keys|
  {
    if keys != [] {
      MappedKnownKeys(keys[1..]);
      assert MappedKeys(keys) == [PageMap(keys[0]).value] + MappedKeys(keys[1..]);
    }
  }

  /** `pathname === href || (href !== '/worker/dashboard' && pathname.startsWith(href))` */
  predicate IsActive(pathname: string, href: string) {
    pathname == href || (href != Home.href && StartsWith(pathname, href))
  }

  /** The home item is active only on its own path; any other item on its path or any
      path that begins with it. */
  lemma IsActiveRule(pathname: string, href: string)
    ensures href == Home.href ==> (IsActive(pathname, href) <==> pathname == href)
    ensures href != Home.href ==> (IsActive(pathname, href) <==> StartsWith(pathname, href))
  {
    if pathname == href {
      assert pathname[..|href|] == href;
    }
  }

  /** The prefix is textual, not by path segment: a longer page name that begins with an
      item's page name marks the item too, and home is not active below itself. */
  lemma IsActiveTextualPrefix()
    ensures IsActive("/worker/dashboard/ordersX", "/worker/dashboard/orders")
    ensures !IsActive("/worker/dashboard/scan", Home.href)
  {
    assert "/worker/dashboard/ordersX"[..|"/worker/dashboard/orders"|] == "/worker/dashboard/orders";
  }
}
