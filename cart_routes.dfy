/** The cart handlers of routes/cartRoutes.js. Each handler loads a user's
    cart, edits its items and its stored `totalPrice` in place and saves or
    deletes it. The pure functions below say what each handler does to the
    cart collection; the `CartStore` class at the end performs the same edits
    step by step and is proved to agree with them. */
module CartRoutes {
  import opened Common
  import opened Catalog

  /** A cart line item (models/cart.js): the product's id, its name when it
      was added, and the quantity. */
  datatype Item = Item(product: ProductId, name: string, quantity: int)

  /** A cart (models/cart.js) with its stored, incrementally kept total. */
  datatype Cart = Cart(user: UserId, items: seq<Item>, totalPrice: int)

  /** The cart collection: at most one cart per user, by find-or-create. */
  type Carts = map<UserId, Cart>

  /** The collection after a handler has run, and the handler's answer. */
  datatype CartStep = CartStep(carts: Carts, result: Outcome<Cart>)

  /** `items.findIndex(item => item.name === name)`: line items are matched
      by name, not by product id. */
  function IndexOfName(items: seq<Item>, name: string): (r: Option<nat>)
    ensures r.Some? ==> r.value < |items| && items[r.value].name == name
    ensures r.Some? ==> forall j :: 0 <= j < r.value ==> items[j].name != name
    ensures r.None? ==> forall j :: 0 <= j < |items| ==> items[j].name != name
  {
    FirstIndex(items, (it: Item) => it.name == name)
  }

  /** `items.splice(i, 1)`: the items without the one at index i, the others
      in their order. */
  function RemoveAt(items: seq<Item>, i: nat): (r: seq<Item>)
    requires i < |items|
    ensures |r| == |items| - 1
    ensures forall j :: 0 <= j < i ==> r[j] == items[j]
    ensures forall j :: i <= j < |r| ==> r[j] == items[j + 1]
    ensures multiset(r) + multiset{items[i]} == multiset(items)
  {
    assert items == items[..i] + [items[i]] + items[i + 1..];
    items[..i] + items[i + 1..]
  }

  // ---------------------------------------------------------------------
  // What a cart is worth at the catalog's prices

  /** Quantity times the item's current catalog price. */
  function LineTotal(catalog: seq<Product>, it: Item): int
  {
    it.quantity * PriceOf(catalog, it.name)
  }

  /** The sum of the line totals: what `totalPrice` is meant to hold. */
  function Value(catalog: seq<Product>, items: seq<Item>): int
  {
    if items == [] then 0 else LineTotal(catalog, items[0]) + Value(catalog, items[1..])
  }

  lemma {:induction false} ValueAppend(catalog: seq<Product>, a: seq<Item>, b: seq<Item>)
    ensures Value(catalog, a + b) == Value(catalog, a) + Value(catalog, b)
  {
    if a == [] {
      assert a + b == b;
    } else {
      assert (a + b)[0] == a[0];
      assert (a + b)[1..] == a[1..] + b;
      ValueAppend(catalog, a[1..], b);
    }
  }

  /** Removing a line takes exactly its line total off the value. */
  lemma ValueRemoveAt(catalog: seq<Product>, items: seq<Item>, i: nat)
    requires i < |items|
    ensures Value(catalog, RemoveAt(items, i)) == Value(catalog, items) - LineTotal(catalog, items[i])
  {
    var tail := [items[i]] + items[i + 1..];
    assert items == items[..i] + tail;
    assert tail[1..] == items[i + 1..];
    ValueAppend(catalog, items[..i], tail);
    ValueAppend(catalog, items[..i], items[i + 1..]);
  }

  /** Raising one line's quantity by d raises the value by d times that
      line's price. */
  lemma {:induction false} ValueBumpAt(catalog: seq<Product>, items: seq<Item>, i: nat, d: int)
    requires i < |items|
    ensures Value(catalog, items[i := items[i].(quantity := items[i].quantity + d)])
         == Value(catalog, items) + d * PriceOf(catalog, items[i].name)
  {
    var bumped := items[i := items[i].(quantity := items[i].quantity + d)];
    var price := PriceOf(catalog, items[i].name);
    if i == 0 {
      assert bumped[1..] == items[1..];
      assert (items[0].quantity + d) * price == items[0].quantity * price + d * price;
    } else {
      assert bumped[1..] == items[1..][i - 1 := items[i].(quantity := items[i].quantity + d)];
      ValueBumpAt(catalog, items[1..], i - 1, d);
    }
  }

  /** Appending a line adds its line total. */
  lemma ValueAppendOne(catalog: seq<Product>, items: seq<Item>, it: Item)
    ensures Value(catalog, items + [it]) == Value(catalog, items) + LineTotal(catalog, it)
  {
    ValueAppend(catalog, items, [it]);
    assert [it][1..] == [];
  }

  /** Every stored total equals the value of its cart's items. */
  ghost predicate Consistent(catalog: seq<Product>, carts: Carts)
  {
    forall u :: u in carts ==> carts[u].totalPrice == Value(catalog, carts[u].items)
  }

  /** Every stored cart belongs to the user it is filed under and has at
      least one item. */
  ghost predicate WellFormed(carts: Carts)
  {
    forall u :: u in carts ==> carts[u].user == u && carts[u].items != []
  }

  // ---------------------------------------------------------------------
  // The handlers, as functions of the cart collection

  /** GET /: the user's cart, or "Your cart is empty" when there is none. */
  function GetCart(carts: Carts, user: UserId): (r: Outcome<Cart>)
    ensures r.Ok? <==> user in carts
    ensures r.Ok? ==> r.value == carts[user]
    ensures !r.Ok? ==> r == NotFound(EmptyCart)
  {
    if user in carts then Ok(carts[user]) else NotFound(EmptyCart)
  }

  /** POST /add: find-or-create the user's cart and add `quantity` (defaulted)
      of the product named `product`. An unknown name makes the handler throw
      before its not-found check, so the answer is Error. */
  function AddItem(carts: Carts, catalog: seq<Product>, user: UserId, product: string,
                   quantity: Option<int>): (s: CartStep)
    ensures s.result.Error? <==> FindByName(catalog, product).None?
    ensures s.result.Ok? || s.result.Error?
    ensures s.result.Error? ==> s.carts == carts
    ensures s.result.Ok? ==> s.carts == carts[user := s.result.value]
  {
    match FindByName(catalog, product)
    case None => CartStep(carts, Error)
    case Some(p) =>
      var q := DefaultQuantity(quantity);
      var line := Item(p.id, p.name, q);
      var cart :=
        if user !in carts then Cart(user, [line], p.price * q)
        else
          var c := carts[user];
          (match IndexOfName(c.items, p.name)
           case Some(i) =>
             c.(items := c.items[i := c.items[i].(quantity := c.items[i].quantity + q)],
                totalPrice := c.totalPrice + p.price * q)
           case None =>
             c.(items := c.items + [line], totalPrice := c.totalPrice + p.price * q));
      CartStep(carts[user := cart], Ok(cart))
  }

  /** DELETE /remove/:productId: take the first item named like the product
      out of the cart and subtract its quantity at the current price; delete
      the cart when it becomes empty. */
  function RemoveItem(carts: Carts, catalog: seq<Product>, user: UserId, productId: ProductId): (s: CartStep)
    ensures s.result.Ok? || s.result.NotFound?
    ensures s.result.Ok? ==>
              && user in carts
              && s.carts == carts[user := s.result.value]
              && s.result.value.user == carts[user].user
              && s.result.value.items != []
              && |s.result.value.items| == |carts[user].items| - 1
              && multiset(s.result.value.items) < multiset(carts[user].items)
    ensures s.result == NotFound(EmptyCart) ==> user in carts && |carts[user].items| == 1 && s.carts == carts - {user}
    ensures s.result.NotFound? && s.result != NotFound(EmptyCart) ==> s.carts == carts
  {
    if user !in carts then CartStep(carts, NotFound(NoCart))
    else match FindById(catalog, productId)
      case None => CartStep(carts, NotFound(NoProduct))
      case Some(p) =>
        var c := carts[user];
        match IndexOfName(c.items, p.name)
        case None => CartStep(carts, NotFound(NoItem))
        case Some(i) =>
          var c' := c.(items := RemoveAt(c.items, i),
                       totalPrice := c.totalPrice - c.items[i].quantity * p.price);
          if c'.items == [] then CartStep(carts - {user}, NotFound(EmptyCart))
          else CartStep(carts[user := c'], Ok(c'))
  }

  /** PUT /update/:productId: take the item out as in remove, then append it
      again with the new quantity (not defaulted) at the current price. */
  function UpdateItem(carts: Carts, catalog: seq<Product>, user: UserId, productId: ProductId,
                      quantity: int): (s: CartStep)
    ensures s.result.Ok? || s.result.NotFound?
    ensures s.result.Ok? ==>
              && user in carts
              && s.carts == carts[user := s.result.value]
              && s.result.value.user == carts[user].user
              && |s.result.value.items| == |carts[user].items| > 0
              && s.result.value.items[|s.result.value.items| - 1].product == productId
              && s.result.value.items[|s.result.value.items| - 1].quantity == quantity
    ensures s.result.NotFound? ==> s.carts == carts && s.result != NotFound(EmptyCart)
  {
    if user !in carts then CartStep(carts, NotFound(NoCart))
    else match FindById(catalog, productId)
      case None => CartStep(carts, NotFound(NoProduct))
      case Some(p) =>
        var c := carts[user];
        match IndexOfName(c.items, p.name)
        case None => CartStep(carts, NotFound(NoItem))
        case Some(i) =>
          var c' := c.(items := RemoveAt(c.items, i) + [Item(productId, p.name, quantity)],
                       totalPrice := c.totalPrice - c.items[i].quantity * p.price + p.price * quantity);
          CartStep(carts[user := c'], Ok(c'))
  }

  /** DELETE /clear: delete the user's cart, answering with the deleted cart. */
  function ClearCart(carts: Carts, user: UserId): (s: CartStep)
    ensures s.carts == carts - {user}
    ensures s.result.Ok? <==> user in carts
    ensures s.result.Ok? ==> s.result.value == carts[user]
    ensures !s.result.Ok? ==> s.result == NotFound(NoCart)
  {
    if user !in carts then CartStep(carts, NotFound(NoCart))
    else CartStep(carts - {user}, Ok(carts[user]))
  }

  /** PUT /total/:userId (admin): overwrite the stored total. With no cart the
      handler reads a field of `undefined` and throws, so the answer is Error;
      an unchanged total is refused. */
  function SetTotal(carts: Carts, user: UserId, totalPrice: int): (s: CartStep)
    ensures user !in carts ==> s == CartStep(carts, Error)
    ensures user in carts && carts[user].totalPrice == totalPrice ==> s == CartStep(carts, NoChange)
    ensures user in carts && carts[user].totalPrice != totalPrice ==> s.result.Ok?
    ensures s.result.Ok? ==>
              && s.carts == carts[user := s.result.value]
              && s.result.value == carts[user].(totalPrice := totalPrice)
              && carts[user].totalPrice != totalPrice
  {
    if user !in carts then CartStep(carts, Error)
    else if totalPrice == carts[user].totalPrice then CartStep(carts, NoChange)
    else
      var c := carts[user].(totalPrice := totalPrice);
      CartStep(carts[user := c], Ok(c))
  }

  // ---------------------------------------------------------------------
  // What each handler does to a cart

  /** Add with no cart creates one holding exactly the new line. */
  lemma AddCreatesCart(carts: Carts, catalog: seq<Product>, user: UserId, product: string,
                       quantity: Option<int>, p: Product)
    requires user !in carts
    requires FindByName(catalog, product) == Some(p)
    ensures var s := AddItem(carts, catalog, user, product, quantity);
      var q := DefaultQuantity(quantity);
      && s.result == Ok(Cart(user, [Item(p.id, product, q)], p.price * q))
      && s.carts == carts[user := s.result.value]
  {
  }

  /** Add of a name the cart already holds raises that item's quantity and
      the total, and changes no other item. */
  lemma AddMergesSameName(carts: Carts, catalog: seq<Product>, user: UserId, product: string,
                          quantity: Option<int>, p: Product, i: nat)
    requires user in carts
    requires FindByName(catalog, product) == Some(p)
    requires i < |carts[user].items| && carts[user].items[i].name == product
    requires forall j :: 0 <= j < i ==> carts[user].items[j].name != product
    ensures var s := AddItem(carts, catalog, user, product, quantity);
      var before := carts[user].items;
      var q := DefaultQuantity(quantity);
      && s.result == Ok(carts[user].(items := before[i := before[i].(quantity := before[i].quantity + q)],
                                     totalPrice := carts[user].totalPrice + p.price * q))
      && s.carts == carts[user := s.result.value]
  {
    assert IndexOfName(carts[user].items, p.name) == Some(i);
  }

  /** Add of a name the cart does not hold appends a line at the end. */
  lemma AddAppendsNewName(carts: Carts, catalog: seq<Product>, user: UserId, product: string,
                          quantity: Option<int>, p: Product)
    requires user in carts
    requires FindByName(catalog, product) == Some(p)
    requires forall j :: 0 <= j < |carts[user].items| ==> carts[user].items[j].name != product
    ensures var s := AddItem(carts, catalog, user, product, quantity);
      var q := DefaultQuantity(quantity);
      && s.result == Ok(carts[user].(items := carts[user].items + [Item(p.id, product, q)],
                                     totalPrice := carts[user].totalPrice + p.price * q))
      && s.carts == carts[user := s.result.value]
  {
  }

  /** Remove answers one distinct not-found reason per missing piece, and
      leaves the collection as it was. */
  lemma RemoveFailures(carts: Carts, catalog: seq<Product>, user: UserId, productId: ProductId)
    ensures var s := RemoveItem(carts, catalog, user, productId);
      && (s.result == NotFound(NoCart) <==> user !in carts)
      && (s.result == NotFound(NoProduct) <==> user in carts && FindById(catalog, productId).None?)
      && (s.result == NotFound(NoItem) <==>
            user in carts && FindById(catalog, productId).Some?
            && forall j :: 0 <= j < |carts[user].items| ==>
                 carts[user].items[j].name != FindById(catalog, productId).value.name)
      && (s.result in {NotFound(NoCart), NotFound(NoProduct), NotFound(NoItem)} ==> s.carts == carts)
  {
    if user in carts && FindById(catalog, productId).Some? {
      var name := FindById(catalog, productId).value.name;
      if IndexOfName(carts[user].items, name).Some? {
        var i := IndexOfName(carts[user].items, name).value;
        assert carts[user].items[i].name == name;
      }
    }
  }

  /** A successful remove deletes the first item of the product's name,
      keeps the others in order and subtracts its quantity at the current
      price; an emptied cart is deleted. */
  lemma RemoveTakesFirstMatch(carts: Carts, catalog: seq<Product>, user: UserId, productId: ProductId,
                              p: Product, i: nat)
    requires user in carts
    requires FindById(catalog, productId) == Some(p)
    requires i < |carts[user].items| && carts[user].items[i].name == p.name
    requires forall j :: 0 <= j < i ==> carts[user].items[j].name != p.name
    ensures var s := RemoveItem(carts, catalog, user, productId);
      var before := carts[user].items;
      var rest := RemoveAt(before, i);
      var total := carts[user].totalPrice - before[i].quantity * p.price;
      && (rest == [] ==> s == CartStep(carts - {user}, NotFound(EmptyCart)))
      && (rest != [] ==> s.result == Ok(carts[user].(items := rest, totalPrice := total))
                         && s.carts == carts[user := s.result.value])
  {
    assert IndexOfName(carts[user].items, p.name) == Some(i);
  }

  /** A successful update moves the product's line to the end with the new
      quantity, corrects the total by the difference at the current price,
      and keeps the cart even when the quantity is zero. */
  lemma UpdateMovesLineToEnd(carts: Carts, catalog: seq<Product>, user: UserId, productId: ProductId,
                             quantity: int, p: Product, i: nat)
    requires user in carts
    requires FindById(catalog, productId) == Some(p)
    requires i < |carts[user].items| && carts[user].items[i].name == p.name
    requires forall j :: 0 <= j < i ==> carts[user].items[j].name != p.name
    ensures var s := UpdateItem(carts, catalog, user, productId, quantity);
      var before := carts[user].items;
      && s.result.Ok?
      && s.result.value.items == RemoveAt(before, i) + [Item(productId, p.name, quantity)]
      && s.result.value.totalPrice
         == carts[user].totalPrice - before[i].quantity * p.price + quantity * p.price
      && s.carts == carts[user := s.result.value]
  {
    assert IndexOfName(carts[user].items, p.name) == Some(i);
  }

  /** Update fails exactly as remove does, with the collection unchanged. */
  lemma UpdateFailsLikeRemove(carts: Carts, catalog: seq<Product>, user: UserId, productId: ProductId,
                              quantity: int)
    ensures var s := UpdateItem(carts, catalog, user, productId, quantity);
      var r := RemoveItem(carts, catalog, user, productId);
      && (s.result.NotFound? <==> r.result in {NotFound(NoCart), NotFound(NoProduct), NotFound(NoItem)})
      && (s.result.NotFound? ==> s == r)
      && (s.result.Ok? || s.result.NotFound?)
  {
  }

  // ---------------------------------------------------------------------
  // The stored total tracks the items

  /** Add keeps every stored total equal to the value of its items. */
  lemma AddKeepsTotals(carts: Carts, catalog: seq<Product>, user: UserId, product: string,
                       quantity: Option<int>)
    requires Consistent(catalog, carts)
    ensures Consistent(catalog, AddItem(carts, catalog, user, product, quantity).carts)
  {
    var s := AddItem(carts, catalog, user, product, quantity);
    if FindByName(catalog, product).Some? {
      var p := FindByName(catalog, product).value;
      var q := DefaultQuantity(quantity);
      assert PriceOf(catalog, p.name) == p.price;
      var c := s.result.value;
      if user !in carts {
        assert c.items == [Item(p.id, p.name, q)];
        assert c.items[1..] == [];
        assert c.totalPrice == Value(catalog, c.items);
      } else {
        var old_ := carts[user];
        match IndexOfName(old_.items, p.name)
        case Some(i) =>
          ValueBumpAt(catalog, old_.items, i, q);
          assert p.price * q == q * p.price;
        case None =>
          ValueAppendOne(catalog, old_.items, Item(p.id, p.name, q));
      }
    }
  }

  /** With one product per name, remove keeps every stored total equal to
      the value of its items. */
  lemma RemoveKeepsTotals(carts: Carts, catalog: seq<Product>, user: UserId, productId: ProductId)
    requires UniqueNames(catalog)
    requires Consistent(catalog, carts)
    ensures Consistent(catalog, RemoveItem(carts, catalog, user, productId).carts)
  {
    if user in carts && FindById(catalog, productId).Some? {
      var p := FindById(catalog, productId).value;
      var c := carts[user];
      match IndexOfName(c.items, p.name)
      case Some(i) =>
        NameLookupFindsEachProduct(catalog, p);
        ValueRemoveAt(catalog, c.items, i);
      case None =>
    }
  }

  /** With one product per name, update keeps every stored total equal to
      the value of its items. */
  lemma UpdateKeepsTotals(carts: Carts, catalog: seq<Product>, user: UserId, productId: ProductId,
                          quantity: int)
    requires UniqueNames(catalog)
    requires Consistent(catalog, carts)
    ensures Consistent(catalog, UpdateItem(carts, catalog, user, productId, quantity).carts)
  {
    if user in carts && FindById(catalog, productId).Some? {
      var p := FindById(catalog, productId).value;
      var c := carts[user];
      match IndexOfName(c.items, p.name)
      case Some(i) =>
        NameLookupFindsEachProduct(catalog, p);
        ValueRemoveAt(catalog, c.items, i);
        ValueAppendOne(catalog, RemoveAt(c.items, i), Item(productId, p.name, quantity));
        assert p.price * quantity == quantity * p.price;
      case None =>
    }
  }

  /** Clear keeps the remaining totals consistent; the admin override is the
      one handler that can break them. */
  lemma ClearKeepsTotals(carts: Carts, catalog: seq<Product>, user: UserId)
    requires Consistent(catalog, carts)
    ensures Consistent(catalog, ClearCart(carts, user).carts)
  {
  }

  /** Overwriting a consistent cart's total with a different value leaves a
      total that no longer matches its items. */
  lemma SetTotalBreaksTotals(carts: Carts, catalog: seq<Product>, user: UserId, totalPrice: int)
    requires Consistent(catalog, carts)
    requires user in carts && carts[user].totalPrice != totalPrice
    ensures !Consistent(catalog, SetTotal(carts, user, totalPrice).carts)
  {
    var s := SetTotal(carts, user, totalPrice);
    assert user in s.carts && s.carts[user].totalPrice != Value(catalog, s.carts[user].items);
  }

  /** Add keeps each cart filed under its owner and non-empty. */
  lemma AddKeepsCartsWellFormed(carts: Carts, catalog: seq<Product>, user: UserId, product: string,
                                quantity: Option<int>)
    requires WellFormed(carts)
    ensures WellFormed(AddItem(carts, catalog, user, product, quantity).carts)
  {
    var s := AddItem(carts, catalog, user, product, quantity);
    if s.result.Ok? && user in carts {
      assert |s.result.value.items| >= |carts[user].items|;
    }
  }

  /** Remove never leaves an empty cart behind: the emptied cart is deleted. */
  lemma RemoveKeepsCartsWellFormed(carts: Carts, catalog: seq<Product>, user: UserId, productId: ProductId)
    requires WellFormed(carts)
    ensures WellFormed(RemoveItem(carts, catalog, user, productId).carts)
  {
  }

  /** Update, clear and the admin override keep each cart filed under its
      owner and non-empty. */
  lemma OtherHandlersKeepCartsWellFormed(carts: Carts, catalog: seq<Product>, user: UserId,
                                         productId: ProductId, quantity: int, totalPrice: int)
    requires WellFormed(carts)
    ensures WellFormed(UpdateItem(carts, catalog, user, productId, quantity).carts)
    ensures WellFormed(ClearCart(carts, user).carts)
    ensures WellFormed(SetTotal(carts, user, totalPrice).carts)
  {
  }

  // ---------------------------------------------------------------------
  // Sequences of handlers

  /** Clearing twice: the second clear finds no cart. */
  lemma ClearTwiceFindsNoCart(carts: Carts, user: UserId)
    ensures ClearCart(ClearCart(carts, user).carts, user) == CartStep(carts - {user}, NotFound(NoCart))
  {
  }

  /** Adding a product to a user with no cart and removing it again deletes
      the cart and leaves the collection as it was, even when other products
      share its name: the new cart's only line carries that name. */
  lemma AddThenRemoveRestores(carts: Carts, catalog: seq<Product>, user: UserId, p: Product,
                              quantity: Option<int>)
    requires UniqueIds(catalog)
    requires p in catalog
    requires user !in carts
    ensures var added := AddItem(carts, catalog, user, p.name, quantity);
      RemoveItem(added.carts, catalog, user, p.id) == CartStep(carts, NotFound(EmptyCart))
  {
    IdLookupFindsEachProduct(catalog, p);
    var added := AddItem(carts, catalog, user, p.name, quantity);
    assert added.carts[user].items[0].name == p.name;
    assert IndexOfName(added.carts[user].items, p.name) == Some(0);
    assert added.carts - {user} == carts;
  }

  // ---------------------------------------------------------------------
  // The handlers as in-place edits of a stored collection

  class CartStore {
    var carts: Carts

    constructor()
      ensures carts == map[]
    {
      carts := map[];
    }

    /** GET / */
    method Show(user: UserId) returns (r: Outcome<Cart>)
      ensures r == GetCart(carts, user)
    {
      if user !in carts {
        return NotFound(EmptyCart);
      }
      r := Ok(carts[user]);
    }

    /** POST /add */
    method Add(catalog: seq<Product>, user: UserId, product: string, quantity: Option<int>)
      returns (r: Outcome<Cart>)
      modifies this
      ensures CartStep(carts, r) == AddItem(old(carts), catalog, user, product, quantity)
    {
      var found := FindByName(catalog, product);
      if found.None? {
        // the handler reads `_id` of an undefined first result and throws
        return Error;
      }
      var p := found.value;
      var q := DefaultQuantity(quantity);
      var delta := p.price * q;
      if user !in carts {
        var created := Cart(user, [Item(p.id, p.name, q)], delta);
        carts := carts[user := created];
        return Ok(created);
      }
      var cart := carts[user];
      var index := IndexOfName(cart.items, p.name);
      if index.Some? {
        var i := index.value;
        var items := cart.items;
        items := items[i := items[i].(quantity := items[i].quantity + q)];
        cart := cart.(items := items);
      } else {
        cart := cart.(items := cart.items + [Item(p.id, p.name, q)]);
      }
      cart := cart.(totalPrice := cart.totalPrice + delta);
      carts := carts[user := cart];
      r := Ok(cart);
    }

    /** DELETE /remove/:productId */
    method Remove(catalog: seq<Product>, user: UserId, productId: ProductId) returns (r: Outcome<Cart>)
      modifies this
      ensures CartStep(carts, r) == RemoveItem(old(carts), catalog, user, productId)
    {
      if user !in carts {
        return NotFound(NoCart);
      }
      var cart := carts[user];
      var info := FindById(catalog, productId);
      if info.None? {
        return NotFound(NoProduct);
      }
      var p := info.value;
      var index := IndexOfName(cart.items, p.name);
      if index.None? {
        return NotFound(NoItem);
      }
      var i := index.value;
      var removed := cart.items[i];
      cart := cart.(items := RemoveAt(cart.items, i));
      cart := cart.(totalPrice := cart.totalPrice - removed.quantity * p.price);
      carts := carts[user := cart];
      if |cart.items| == 0 {
        carts := carts - {user};
        return NotFound(EmptyCart);
      }
      r := Ok(cart);
    }

    /** PUT /update/:productId */
    method Update(catalog: seq<Product>, user: UserId, productId: ProductId, quantity: int)
      returns (r: Outcome<Cart>)
      modifies this
      ensures CartStep(carts, r) == UpdateItem(old(carts), catalog, user, productId, quantity)
    {
      if user !in carts {
        return NotFound(NoCart);
      }
      var cart := carts[user];
      var info := FindById(catalog, productId);
      if info.None? {
        return NotFound(NoProduct);
      }
      var p := info.value;
      var index := IndexOfName(cart.items, p.name);
      if index.None? {
        return NotFound(NoItem);
      }
      var i := index.value;
      var removed := cart.items[i];
      cart := cart.(items := RemoveAt(cart.items, i));
      cart := cart.(totalPrice := cart.totalPrice - removed.quantity * p.price);
      cart := cart.(items := cart.items + [Item(productId, p.name, quantity)]);
      cart := cart.(totalPrice := cart.totalPrice + p.price * quantity);
      carts := carts[user := cart];
      r := Ok(cart);
    }

    /** DELETE /clear */
    method Clear(user: UserId) returns (r: Outcome<Cart>)
      modifies this
      ensures CartStep(carts, r) == ClearCart(old(carts), user)
    {
      if user !in carts {
        return NotFound(NoCart);
      }
      r := Ok(carts[user]);
      carts := carts - {user};
    }

    /** PUT /total/:userId (admin) */
    method OverrideTotal(user: UserId, totalPrice: int) returns (r: Outcome<Cart>)
      modifies this
      ensures CartStep(carts, r) == SetTotal(old(carts), user, totalPrice)
    {
      if user !in carts {
        // the handler reads `totalPrice` of an undefined first result and throws
        return Error;
      }
      if totalPrice == carts[user].totalPrice {
        return NoChange;
      }
      var cart := carts[user].(totalPrice := totalPrice);
      carts := carts[user := cart];
      r := Ok(cart);
    }
  }
}
