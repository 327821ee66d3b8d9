/** Shared vocabulary of the route handlers: optional request fields, handler
    outcomes, and the JavaScript array operations the handlers rely on
    (`findIndex`, `filter`) and the store's `countDocuments`. */
module Common {

  type UserId = string

  datatype Option<+T> = None | Some(value: T)

  /** Why a handler answered "not found". Each reason stands for one of the
      distinct not-found answers of the route handlers. */
  datatype Missing =
    | NoCart        // "Cart not found"
    | EmptyCart     // "Your cart is empty" / "Cart is empty"
    | NoProduct     // "no such Product" / "Product not found"
    | NoItem        // "no such item in cart" / "Item not found in cart"
    | NoOrder       // "order not found"
    | NoOrders      // "No orders yet"
    | NoProducts    // "no products found"
    | NoLowStock    // "No low stock products found"
    | NoHistory     // "No purchase history found"

  /** The outcome of one handler, in place of an HTTP status and a message. */
  datatype Outcome<+T> =
    | Ok(value: T)
    | NotFound(what: Missing)
    | BadRequest
    | Forbidden
    | NoChange
    | Error        // an exception caught by the handler's catch block

  /** A request's `quantity` after `if (!quantity) defQuantity = 1`: an absent
      or zero quantity becomes 1, every other value (negative ones included)
      is kept. */
  function DefaultQuantity(quantity: Option<int>): (q: int)
    ensures quantity.None? ==> q == 1
    ensures quantity == Some(0) ==> q == 1
    ensures quantity.Some? && quantity.value != 0 ==> q == quantity.value
    ensures q != 0
  {
    match quantity
    case Some(n) => if n == 0 then 1 else n
    case None => 1
  }

  /** `Array.prototype.findIndex`: the index of the first element that
      matches, `None` standing for -1. */
  function FirstIndex<T>(s: seq<T>, matches: T -> bool): (r: Option<nat>)
    ensures r.Some? ==> r.value < |s| && matches(s[r.value])
    ensures r.Some? ==> forall j :: 0 <= j < r.value ==> !matches(s[j])
    ensures r.None? ==> forall j :: 0 <= j < |s| ==> !matches(s[j])
  {
    if s == [] then None
    else if matches(s[0]) then Some(0)
    else match FirstIndex(s[1..], matches)
      case Some(k) => Some(k + 1)
      case None => None
  }

  /** `Array.prototype.filter` (and a store `find` with a filter): the
      elements that are kept, in their original order. */
  function Select<T>(s: seq<T>, keep: T -> bool): (r: seq<T>)
    ensures |r| <= |s|
    ensures forall x | x in r :: x in s && keep(x)
    ensures forall x | x in s && keep(x) :: x in r
    ensures multiset(r) <= multiset(s)
  {
    if s == [] then []
    else
      assert s == [s[0]] + s[1..];
      if keep(s[0]) then [s[0]] + Select(s[1..], keep)
      else Select(s[1..], keep)
  }

  /** Filtering keeps order and multiplicity: the kept elements of two
      pieces, one after the other, are the kept elements of the whole. */
  lemma {:induction false} SelectAppend<T>(a: seq<T>, b: seq<T>, keep: T -> bool)
    ensures Select(a + b, keep) == Select(a, keep) + Select(b, keep)
  {
    if a != [] {
      SelectAppend(a[1..], b, keep);
      assert (a + b)[1..] == a[1..] + b;
    } else {
      assert a + b == b;
    }
  }

  /** A store's `countDocuments(filter)`: how many elements match. */
  function CountWhere<T>(s: seq<T>, keep: T -> bool): (n: nat)
    ensures n <= |s|
    ensures n == 0 <==> forall i :: 0 <= i < |s| ==> !keep(s[i])
    ensures n == |s| <==> forall i :: 0 <= i < |s| ==> keep(s[i])
  {
    if s == [] then 0
    else (if keep(s[0]) then 1 else 0) + CountWhere(s[1..], keep)
  }

  /** Counting the matches and listing them agree. */
  lemma {:induction false} CountWhereIsSelectLength<T>(s: seq<T>, keep: T -> bool)
    ensures CountWhere(s, keep) == |Select(s, keep)|
  {
    if s != [] {
      CountWhereIsSelectLength(s[1..], keep);
    }
  }
}
