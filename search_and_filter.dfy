/** The report and search handlers of routes/searchAndFilter.js: building the
    keyword search pattern, the low-stock listing, the dashboard figures and
    the purchase history. All of them only compute values from the product
    and order collections. */
module SearchAndFilter {
  import opened Common
  import opened Catalog
  import opened OrderRoutes

  // ---------------------------------------------------------------------
  // Whitespace, as JavaScript's `\s` and `String.prototype.trim` see it

  /** The characters JavaScript's `\s` matches and `trim` removes: the
      WhiteSpace and LineTerminator characters of the ECMAScript
      specification (sections 12.2 and 12.3 of ECMA-262). */
  predicate IsSpace(c: char)
  {
    || c == '\t' || c == '\n' || c == '\U{000B}' || c == '\U{000C}' || c == '\r' || c == ' '
    || c == '\U{00A0}' || c == '\U{1680}' || ('\U{2000}' <= c <= '\U{200A}')
    || c == '\U{2028}' || c == '\U{2029}' || c == '\U{202F}' || c == '\U{205F}'
    || c == '\U{3000}' || c == '\U{FEFF}'
  }

  /** Leading whitespace removed. */
  function TrimStart(s: string): (r: string)
    ensures r == [] || !IsSpace(r[0])
    ensures |r| <= |s| && r == s[|s| - |r|..]
    ensures forall i :: 0 <= i < |s| - |r| ==> IsSpace(s[i])
  {
    if s != [] && IsSpace(s[0]) then TrimStart(s[1..]) else s
  }

  /** Trailing whitespace removed. */
  function TrimEnd(s: string): (r: string)
    ensures r == [] || !IsSpace(r[|r| - 1])
    ensures |r| <= |s| && r == s[..|r|]
    ensures forall i :: |r| <= i < |s| ==> IsSpace(s[i])
  {
    if s != [] && IsSpace(s[|s| - 1]) then TrimEnd(s[..|s| - 1]) else s
  }

  /** `String.prototype.trim`. */
  function Trim(s: string): (r: string)
    ensures r == [] || (!IsSpace(r[0]) && !IsSpace(r[|r| - 1]))
    ensures |r| <= |s|
    ensures r == [] <==> forall i :: 0 <= i < |s| ==> IsSpace(s[i])
  {
    TrimEnd(TrimStart(s))
  }

  /** `s.replace(/\s+/g, "")`: every whitespace character removed. */
  function StripSpaces(s: string): (r: string)
    ensures |r| <= |s|
    ensures forall i :: 0 <= i < |r| ==> !IsSpace(r[i])
  {
    if s == [] then []
    else (if IsSpace(s[0]) then [] else [s[0]]) + StripSpaces(s[1..])
  }

  function NotSpace(c: char): bool
  {
    !IsSpace(c)
  }

  lemma {:induction false} StripSpacesAppend(a: string, b: string)
    ensures StripSpaces(a + b) == StripSpaces(a) + StripSpaces(b)
  {
    if a == [] {
      assert a + b == b;
    } else {
      assert (a + b)[0] == a[0];
      assert (a + b)[1..] == a[1..] + b;
      StripSpacesAppend(a[1..], b);
    }
  }

  /** Stripping whitespace keeps exactly the other characters, in order. */
  lemma {:induction false} StripSpacesKeepsTheRest(s: string)
    ensures StripSpaces(s) == Select(s, NotSpace)
  {
    if s != [] {
      StripSpacesKeepsTheRest(s[1..]);
    }
  }

  lemma {:induction false} StripIgnoresTrimStart(s: string)
    ensures StripSpaces(TrimStart(s)) == StripSpaces(s)
  {
    if s != [] && IsSpace(s[0]) {
      StripIgnoresTrimStart(s[1..]);
    }
  }

  lemma {:induction false} StripIgnoresTrimEnd(s: string)
    ensures StripSpaces(TrimEnd(s)) == StripSpaces(s)
  {
    if s != [] && IsSpace(s[|s| - 1]) {
      var init := s[..|s| - 1];
      assert s == init + [s[|s| - 1]];
      StripSpacesAppend(init, [s[|s| - 1]]);
      assert StripSpaces([s[|s| - 1]]) == [];
      StripIgnoresTrimEnd(init);
    }
  }

  /** `query.trim().replace(/\s+/g, "")`. */
  function Sanitize(query: string): (r: string)
    ensures forall i :: 0 <= i < |r| ==> !IsSpace(r[i])
  {
    StripSpaces(Trim(query))
  }

  /** The sanitized query is the query with all its whitespace removed: the
      trim before the replace changes nothing. */
  lemma SanitizeStripsAllSpaces(query: string)
    ensures Sanitize(query) == StripSpaces(query)
    ensures Sanitize(query) == Select(query, NotSpace)
  {
    StripIgnoresTrimStart(query);
    StripIgnoresTrimEnd(TrimStart(query));
    StripSpacesKeepsTheRest(query);
  }

  // ---------------------------------------------------------------------
  // The search pattern

  /** The regular-expression text `\s*` placed between the characters. */
  const SpaceGap: string := "\\s*"

  /** `s.split("")`: one string per character. */
  function Chars(s: string): (parts: seq<string>)
    ensures |parts| == |s|
    ensures forall i :: 0 <= i < |s| ==> parts[i] == [s[i]]
  {
    seq(|s|, i requires 0 <= i < |s| => [s[i]])
  }

  /** `Array.prototype.join(sep)`. */
  function Join(parts: seq<string>, sep: string): (r: string)
    ensures |parts| >= 1 ==> parts[0] <= r
  {
    if parts == [] then ""
    else if |parts| == 1 then parts[0]
    else parts[0] + sep + Join(parts[1..], sep)
  }

  /** `sanitizedQuery.split("").join("\\s*")`. */
  function Pattern(s: string): (r: string)
    ensures s == [] <==> r == []
    ensures s != [] ==> r[0] == s[0]
  {
    Join(Chars(s), SpaceGap)
  }

  /** The pattern is the first character, then the gap and the pattern of
      the rest. */
  lemma PatternUnfolds(s: string)
    requires |s| >= 2
    ensures Pattern(s) == [s[0]] + SpaceGap + Pattern(s[1..])
  {
    assert Chars(s)[1..] == Chars(s[1..]);
  }

  /** The pattern ends with the query's last character: no gap trails it. */
  lemma {:induction false} PatternEndsWithLastChar(s: string)
    requires s != []
    ensures Pattern(s)[|Pattern(s)| - 1] == s[|s| - 1]
  {
    if |s| >= 2 {
      PatternUnfolds(s);
      PatternEndsWithLastChar(s[1..]);
    } else {
      assert Pattern(s) == s;
    }
  }

  /** n characters give a pattern of n + 3(n - 1) characters. */
  lemma {:induction false} PatternLength(s: string)
    ensures |Pattern(s)| == if s == [] then 0 else |s| + 3 * (|s| - 1)
  {
    if |s| >= 2 {
      PatternUnfolds(s);
      PatternLength(s[1..]);
    }
  }

  /** Every fourth character of a pattern, starting with the first. */
  function EveryFourth(p: string): string
  {
    if p == [] then []
    else [p[0]] + (if |p| > 4 then EveryFourth(p[4..]) else [])
  }

  /** The query characters stand at positions 0, 4, 8, ... of the pattern,
      in order, and nothing else does. */
  lemma {:induction false} PatternKeepsQuery(s: string)
    ensures EveryFourth(Pattern(s)) == s
  {
    if |s| >= 2 {
      PatternUnfolds(s);
      var p := Pattern(s);
      PatternLength(s[1..]);
      assert p[0] == s[0];
      assert p[4..] == Pattern(s[1..]);
      PatternKeepsQuery(s[1..]);
      assert s == [s[0]] + s[1..];
    } else if |s| == 1 {
      assert Pattern(s) == s;
    }
  }

  /** Between two query characters stands exactly the gap `\s*`. */
  lemma {:induction false} PatternGaps(s: string, k: nat)
    requires k + 1 < |s|
    ensures |Pattern(s)| > 4 * k + 4
    ensures Pattern(s)[4 * k] == s[k]
    ensures Pattern(s)[4 * k + 1..4 * k + 4] == SpaceGap
    ensures Pattern(s)[4 * k + 4] == s[k + 1]
  {
    PatternUnfolds(s);
    var p := Pattern(s);
    var rest := Pattern(s[1..]);
    assert p[4..] == rest;
    if k > 0 {
      PatternGaps(s[1..], k - 1);
      assert p[4 * k + 1..4 * k + 4] == rest[4 * (k - 1) + 1..4 * (k - 1) + 4];
    } else {
      assert p[1..4] == SpaceGap;
    }
  }

  /** The product query: one pattern for the name and for the description,
      both matched case-insensitively (`$options: "i"`). */
  datatype ProductQuery = ProductQuery(namePattern: string, descriptionPattern: string, ignoreCase: bool)

  /** GET /search: an absent or empty query is refused before any lookup. */
  function BuildQuery(query: Option<string>): (r: Outcome<ProductQuery>)
    ensures r.BadRequest? <==> query.None? || query.value == ""
    ensures r.Ok? || r.BadRequest?
    ensures r.Ok? ==> r.value.namePattern == r.value.descriptionPattern
    ensures r.Ok? ==> r.value.namePattern == Pattern(Sanitize(query.value)) && r.value.ignoreCase
  {
    match query
    case None => BadRequest
    case Some(q) =>
      if q == "" then BadRequest
      else
        var pattern := Pattern(Sanitize(q));
        Ok(ProductQuery(pattern, pattern, true))
  }

  /** The products whose name or description the query's patterns match;
      `matches(pattern, text)` stands for the store's case-insensitive
      regular-expression test. */
  function Matching(catalog: seq<Product>, q: ProductQuery, matches: (string, string) -> bool): (r: seq<Product>)
    ensures forall p :: p in r ==> p in catalog
    ensures forall p :: p in catalog ==>
              (p in r <==> matches(q.namePattern, p.name) || matches(q.descriptionPattern, p.description))
  {
    Select(catalog, (p: Product) => matches(q.namePattern, p.name) || matches(q.descriptionPattern, p.description))
  }

  /** GET /search: the matching products, or "no products found". The query
      text goes into the pattern unescaped, so a query such as "(" gives a
      pattern the store refuses as a regular expression (`valid` says which
      patterns it accepts); the store's error lands in the catch block. */
  function Search(query: Option<string>, catalog: seq<Product>, matches: (string, string) -> bool,
                  valid: string -> bool)
    : (r: Outcome<seq<Product>>)
    ensures r.BadRequest? <==> query.None? || query.value == ""
    ensures r.Error? <==> BuildQuery(query).Ok? && !valid(BuildQuery(query).value.namePattern)
    ensures r.Ok? ==> r.value == Matching(catalog, BuildQuery(query).value, matches) && r.value != []
    ensures r.NotFound? ==> BuildQuery(query).Ok? && Matching(catalog, BuildQuery(query).value, matches) == []
    ensures r.Ok? || r.NotFound? || r.BadRequest? || r.Error?
  {
    match BuildQuery(query)
    case Ok(q) =>
      if !valid(q.namePattern) then Error
      else
        var found := Matching(catalog, q, matches);
        if found == [] then NotFound(NoProducts) else Ok(found)
    case _ => BadRequest
  }

  /** A search with a pattern the store accepts answers with exactly the
      products that match the pattern in their name or their description; a
      pattern the store refuses makes the search fail. */
  lemma SearchFindsExactlyTheMatches(query: Option<string>, catalog: seq<Product>,
                                     matches: (string, string) -> bool, valid: string -> bool, p: Product)
    requires query.Some? && query.value != ""
    requires p in catalog
    ensures var pattern := Pattern(StripSpaces(query.value));
      var r := Search(query, catalog, matches, valid);
      && (!valid(pattern) <==> r == Error)
      && (valid(pattern) && (matches(pattern, p.name) || matches(pattern, p.description)) <==> r.Ok? && p in r.value)
  {
    SanitizeStripsAllSpaces(query.value);
    var q := BuildQuery(query).value;
    assert q.namePattern == q.descriptionPattern == Pattern(StripSpaces(query.value));
    var found := Matching(catalog, q, matches);
    assert p in found <==> matches(q.namePattern, p.name) || matches(q.descriptionPattern, p.description);
  }

  // ---------------------------------------------------------------------
  // Low stock and the dashboard

  /** The stock level below which a product counts as low on stock. */
  const LowStockLimit: int := 10

  function IsLowStock(p: Product): bool
  {
    p.stock < LowStockLimit
  }

  /** `Product.find({ stock: { $lt: 10 } })`. */
  function LowStockProducts(catalog: seq<Product>): (r: seq<Product>)
    ensures forall p :: p in r ==> p in catalog && p.stock < 10
    ensures forall p :: p in catalog && p.stock < 10 ==> p in r
  {
    Select(catalog, IsLowStock)
  }

  /** GET /products/low-stock (admin). */
  function LowStock(catalog: seq<Product>): (r: Outcome<seq<Product>>)
    ensures r.Ok? ==> r.value == LowStockProducts(catalog) && r.value != []
    ensures !r.Ok? ==> r == NotFound(NoLowStock)
    ensures r.NotFound? <==> forall p :: p in catalog ==> p.stock >= 10
  {
    var found := LowStockProducts(catalog);
    if found == [] then NotFound(NoLowStock)
    else
      assert found[0] in catalog && found[0].stock < 10;
      Ok(found)
  }

  /** The sum of `totalAmount` over the orders. */
  function SumAmounts(orders: seq<Order>): (total: int)
    ensures (forall i :: 0 <= i < |orders| ==> orders[i].totalAmount >= 0) ==> total >= 0
    ensures (forall i :: 0 <= i < |orders| ==> orders[i].totalAmount == 0) ==> total == 0
  {
    if orders == [] then 0 else orders[0].totalAmount + SumAmounts(orders[1..])
  }

  /** `Order.aggregate([{ $group: { _id: null, total: { $sum: "$totalAmount" } } }])`:
      no group at all when there are no orders. */
  function RevenueGroups(orders: seq<Order>): (groups: seq<int>)
    ensures |groups| <= 1
    ensures groups == [] <==> orders == []
  {
    if orders == [] then [] else [SumAmounts(orders)]
  }

  /** `revenue[0]?.total || 0`. */
  function Revenue(orders: seq<Order>): (total: int)
    ensures total == SumAmounts(orders)
    ensures orders == [] ==> total == 0
  {
    var groups := RevenueGroups(orders);
    if groups == [] || groups[0] == 0 then 0 else groups[0]
  }

  datatype Stats = Stats(totalProducts: nat, totalOrders: nat, lowStockCount: nat, totalRevenue: int)

  /** GET /stats/dashboard (admin). The low-stock count is a separate count
      query; it agrees with the low-stock listing. */
  function Dashboard(catalog: seq<Product>, orders: seq<Order>): (st: Stats)
    ensures st.totalProducts == |catalog| && st.totalOrders == |orders|
    ensures st.lowStockCount == |LowStockProducts(catalog)|
    ensures st.totalRevenue == SumAmounts(orders)
  {
    CountWhereIsSelectLength(catalog, IsLowStock);
    Stats(|catalog|, |orders|, CountWhere(catalog, IsLowStock), Revenue(orders))
  }

  lemma {:induction false} SumAmountsAppend(orders: seq<Order>, o: Order)
    ensures SumAmounts(orders + [o]) == SumAmounts(orders) + o.totalAmount
  {
    if orders != [] {
      assert (orders + [o])[1..] == orders[1..] + [o];
      SumAmountsAppend(orders[1..], o);
    } else {
      assert [o][1..] == [];
    }
  }

  lemma {:induction false} SumAmountsReplace(orders: seq<Order>, i: nat, o: Order)
    requires i < |orders| && o.totalAmount == orders[i].totalAmount
    ensures SumAmounts(orders[i := o]) == SumAmounts(orders)
  {
    if i > 0 {
      assert orders[i := o][1..] == orders[1..][i - 1 := o];
      SumAmountsReplace(orders[1..], i - 1, o);
    } else {
      assert orders[i := o][1..] == orders[1..];
    }
  }

  /** A placed order adds its frozen total to the revenue. */
  lemma PlacingAddsToRevenue(orders: seq<Order>, catalog: seq<Product>, id: OrderId, user: UserId,
                             product: string, quantity: Option<int>, address: Address,
                             paymentMethod: Option<string>, now: Time, p: Product)
    requires FindByName(catalog, product) == Some(p)
    ensures var s := PlaceOrder(orders, catalog, id, user, product, quantity, address, paymentMethod, now);
      Revenue(s.orders) == Revenue(orders) + p.price * DefaultQuantity(quantity)
  {
    var s := PlaceOrder(orders, catalog, id, user, product, quantity, address, paymentMethod, now);
    SumAmountsAppend(orders, s.result.value);
  }

  /** Status updates, cancellations and address changes never change the
      revenue: an order's total is frozen when it is placed. */
  lemma UpdatesKeepRevenue(orders: seq<Order>, id: OrderId, status: string, address: Address)
    ensures Revenue(UpdateStatus(orders, id, status).orders) == Revenue(orders)
    ensures Revenue(CancelOrder(orders, id).orders) == Revenue(orders)
    ensures Revenue(UpdateAddress(orders, id, address).orders) == Revenue(orders)
  {
    match FindOrder(orders, id)
    case Some(i) =>
      SumAmountsReplace(orders, i, orders[i].(orderStatus := status));
      SumAmountsReplace(orders, i, orders[i].(orderStatus := Cancelled));
      SumAmountsReplace(orders, i, orders[i].(shippingAddress := address));
    case None =>
  }

  // ---------------------------------------------------------------------
  // Purchase history

  /** Newest first: `createdAt` never increases along the sequence. */
  ghost predicate NewestFirst(orders: seq<Order>)
  {
    forall i, j :: 0 <= i < j < |orders| ==> orders[i].createdAt >= orders[j].createdAt
  }

  /** Insert an order into a newest-first sequence. */
  function InsertByDate(o: Order, sorted: seq<Order>): (r: seq<Order>)
    requires NewestFirst(sorted)
    ensures NewestFirst(r)
    ensures multiset(r) == multiset(sorted) + multiset{o}
    ensures forall x :: x in r ==> x == o || x in sorted
  {
    if sorted == [] || sorted[0].createdAt <= o.createdAt then [o] + sorted
    else
      var rest := InsertByDate(o, sorted[1..]);
      assert sorted == [sorted[0]] + sorted[1..];
      assert forall x :: x in rest ==> x.createdAt <= sorted[0].createdAt;
      [sorted[0]] + rest
  }

  /** `.sort({ createdAt: -1 })`: the same orders, newest first. */
  function SortNewestFirst(orders: seq<Order>): (r: seq<Order>)
    ensures NewestFirst(r)
    ensures multiset(r) == multiset(orders)
  {
    if orders == [] then []
    else
      assert orders == [orders[0]] + orders[1..];
      InsertByDate(orders[0], SortNewestFirst(orders[1..]))
  }

  /** `Order.find({ user: userId })`. */
  function OrdersOf(orders: seq<Order>, user: UserId): (mine: seq<Order>)
    ensures forall o | o in mine :: o in orders && o.user == user
    ensures forall o | o in orders && o.user == user :: o in mine
    ensures mine == [] <==> forall i :: 0 <= i < |orders| ==> orders[i].user != user
  {
    var mine := Select(orders, (o: Order) => o.user == user);
    assert mine != [] ==> mine[0] in orders && mine[0].user == user;
    assert forall i :: 0 <= i < |orders| && orders[i].user == user ==> orders[i] in mine;
    mine
  }

  /** GET /user/:id/purchase-history: only the user themself may look, and
      gets their orders newest first. */
  function PurchaseHistory(caller: UserId, user: UserId, orders: seq<Order>): (r: Outcome<seq<Order>>)
    ensures r.Forbidden? <==> caller != user
    ensures r.Ok? || r.Forbidden? || r == NotFound(NoHistory)
    ensures r.Ok? ==> NewestFirst(r.value) && multiset(r.value) == multiset(OrdersOf(orders, user))
    ensures caller == user ==> (r.NotFound? <==> OrdersOf(orders, user) == [])
  {
    if caller != user then Forbidden
    else
      var mine := OrdersOf(orders, user);
      var history := SortNewestFirst(mine);
      assert history == [] <==> multiset(mine) == multiset{};
      if history == [] then NotFound(NoHistory) else Ok(history)
  }

  /** The history holds exactly the user's orders; it is missing only when
      the user has none. */
  lemma PurchaseHistoryHoldsOwnOrders(user: UserId, orders: seq<Order>, o: Order)
    requires o in orders
    ensures var r := PurchaseHistory(user, user, orders);
      && (o.user == user <==> r.Ok? && o in r.value)
      && (r.NotFound? <==> forall x :: x in orders ==> x.user != user)
  {
    var r := PurchaseHistory(user, user, orders);
    var mine := OrdersOf(orders, user);
    if r.Ok? {
      assert o in r.value <==> o in multiset(r.value);
      assert o in mine <==> o in multiset(mine);
      assert r.value[0] in multiset(mine);
      assert r.value[0] in orders && r.value[0].user == user;
    } else {
      assert multiset(mine) == multiset([]);
      assert mine == [];
    }
  }
}
