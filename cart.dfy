/**
 * The cart page of src/components/Cart.jsx: the join of the server's cart entries
 * to the products shipped with them, the totals shown in the order summary, the
 * page's load / refetch / place-order handlers, and the decision of where to
 * send the browser after a purchase. Also the lookup of a product's cart
 * quantity that the catalog and product pages share.
 */
module Cart {
  import opened Wrappers
  import opened Strings
  import opened Api
  import opened ProductJoin
  import UserStorage

  /** One entry of the server's cart: `{id, productId, quantity}`. */
  datatype CartEntry = CartEntry(id: int, productId: int, quantity: int)

  /** `{...product, quantity, cartItemId}`: a product as it sits in the cart. */
  datatype CartLine = CartLine(product: Product, quantity: int, cartItemId: int)

  /** The body of the load-cart endpoint: `{cart, ceremics}`. */
  datatype CartResponse = CartResponse(cart: seq<CartEntry>, ceremics: seq<RawItem>)

  // ---------------------------------------------------------------- the join

  /** Each entry paired with the first product of its id; entries with no product are dropped. */
  function JoinCart(products: seq<Product>, entries: seq<CartEntry>): (r: seq<CartLine>)
    ensures |r| <= |entries|
    ensures |r| == |entries| <==> forall i :: 0 <= i < |entries| ==> FindProduct(products, entries[i].productId).Some?
  {
    var productIdOf := (e: CartEntry) => e.productId;
    var build := (p: Product, e: CartEntry) => CartLine(p, e.quantity, e.id);
    JoinLength(products, entries, productIdOf, build);
    JoinByProduct(products, entries, productIdOf, build)
  }

  /**
   * A line is in the cart exactly when some entry found its product; the line carries
   * that entry's quantity and id and the first product with the entry's product id.
   */
  lemma {:induction false} CartLines(products: seq<Product>, entries: seq<CartEntry>)
    ensures forall l :: l in JoinCart(products, entries) <==>
              exists i :: 0 <= i < |entries| && FindProduct(products, entries[i].productId) == Some(l.product)
                          && l.quantity == entries[i].quantity && l.cartItemId == entries[i].id
  {
    var f := (e: CartEntry) => e.productId;
    var g := (p: Product, e: CartEntry) => CartLine(p, e.quantity, e.id);
    forall l {
      JoinMembership(products, entries, f, g, l);
    }
  }

  /** An entry whose product is unknown vanishes without disturbing the order of the others. */
  lemma {:induction false} JoinCartDropsUnresolved(products: seq<Product>, before: seq<CartEntry>, e: CartEntry, after: seq<CartEntry>)
    requires FindProduct(products, e.productId).None?
    ensures JoinCart(products, before + [e] + after) == JoinCart(products, before) + JoinCart(products, after)
  {
    var f := (e: CartEntry) => e.productId;
    var g := (p: Product, e: CartEntry) => CartLine(p, e.quantity, e.id);
    JoinAppend(products, before + [e], after, f, g);
    JoinAppend(products, before, [e], f, g);
  }

  // ---------------------------------------------------------------- totals

  /** `calculateSubtotal`: the sum of unit price times quantity. */
  function Subtotal(lines: seq<CartLine>): int {
    if lines == [] then 0 else lines[0].product.UnitPrice() * lines[0].quantity + Subtotal(lines[1..])
  }

  /** `calculateTotalItems`: the sum of the quantities. */
  function TotalItems(lines: seq<CartLine>): int {
    if lines == [] then 0 else lines[0].quantity + TotalItems(lines[1..])
  }

  /** The "You saved" figure: what the discounts take off, line by line. */
  function Savings(lines: seq<CartLine>): int {
    if lines == [] then 0
    else
      var p := lines[0].product;
      (if p.hasDiscount then (p.price - p.discountedPrice) * lines[0].quantity else 0) + Savings(lines[1..])
  }

  /** What the cart would cost at list price. */
  function ListTotal(lines: seq<CartLine>): int {
    if lines == [] then 0 else lines[0].product.price * lines[0].quantity + ListTotal(lines[1..])
  }

  const Shipping := 0

  /** The order total: shipping is free, so it is the subtotal. */
  function Total(lines: seq<CartLine>): (t: int)
    ensures t == Subtotal(lines)
  {
    Subtotal(lines) + Shipping
  }

  /** What the buyer pays plus what the discounts save is the list price of the cart. */
  lemma {:induction false} SubtotalPlusSavings(lines: seq<CartLine>)
    ensures Subtotal(lines) + Savings(lines) == ListTotal(lines)
  {
    if lines != [] {
      SubtotalPlusSavings(lines[1..]);
      var p := lines[0].product;
      var q := lines[0].quantity;
      if p.hasDiscount {
        assert p.discountedPrice * q + (p.price - p.discountedPrice) * q == p.price * q;
      }
    }
  }

  /** The three folds add up over a split of the cart, as a left-to-right `reduce` does. */
  lemma {:induction false} TotalsAppend(a: seq<CartLine>, b: seq<CartLine>)
    ensures Subtotal(a + b) == Subtotal(a) + Subtotal(b)
    ensures TotalItems(a + b) == TotalItems(a) + TotalItems(b)
    ensures Savings(a + b) == Savings(a) + Savings(b)
  {
    if a == [] {
      assert a + b == b;
    } else {
      assert (a + b)[1..] == a[1..] + b;
      TotalsAppend(a[1..], b);
    }
  }

  /** A cart with no discounted product saves nothing, and one whose lines all hold an item counts at least one item per line. */
  lemma {:induction false} PlainCartTotals(lines: seq<CartLine>)
    ensures (forall i :: 0 <= i < |lines| ==> !lines[i].product.hasDiscount) ==> Savings(lines) == 0
    ensures (forall i :: 0 <= i < |lines| ==> lines[i].quantity >= 1) ==> TotalItems(lines) >= |lines|
  {
    if lines != [] {
      assert forall i :: 1 <= i < |lines| ==> lines[i] == lines[1..][i - 1];
      PlainCartTotals(lines[1..]);
    }
  }

  /** Line prices within the discount bounds make savings non-negative and the subtotal at most list price. */
  lemma {:induction false} SavingsNonNegative(lines: seq<CartLine>)
    requires forall i :: 0 <= i < |lines| ==> lines[i].quantity >= 0
    requires forall i :: 0 <= i < |lines| ==> lines[i].product.discountedPrice <= lines[i].product.price
    ensures Savings(lines) >= 0 && Subtotal(lines) <= ListTotal(lines)
  {
    if lines != [] {
      assert forall i :: 1 <= i < |lines| ==> lines[i] == lines[1..][i - 1];
      SavingsNonNegative(lines[1..]);
      var p := lines[0].product;
      assert (p.price - p.discountedPrice) * lines[0].quantity >= 0;
      SubtotalPlusSavings(lines);
    }
  }

  // ---------------------------------------------------------------- cart lookup

  /** Whether a product is in the cart, and its quantity there (0 when it is not). */
  datatype CartStatus = CartStatus(isInCart: bool, quantity: int)

  /** `cart?.find(item => item.id === productId)` and `cartItem?.quantity || 0`. */
  function CartQuantity(cart: seq<CartLine>, productId: int): (r: CartStatus)
    ensures !r.isInCart <==> forall i :: 0 <= i < |cart| ==> cart[i].product.id != productId
    ensures !r.isInCart ==> r.quantity == 0
    ensures r.isInCart ==> exists k :: 0 <= k < |cart| && cart[k].product.id == productId && r.quantity == cart[k].quantity
                                       && forall j :: 0 <= j < k ==> cart[j].product.id != productId
  {
    if cart == [] then CartStatus(false, 0)
    else if cart[0].product.id == productId then CartStatus(true, cart[0].quantity)
    else
      var r := CartQuantity(cart[1..], productId);
      assert forall i :: 1 <= i < |cart| ==> cart[i] == cart[1..][i - 1];
      if r.isInCart then
        var k :| 0 <= k < |cart[1..]| && cart[1..][k].product.id == productId && r.quantity == cart[1..][k].quantity
                 && forall j :: 0 <= j < k ==> cart[1..][j].product.id != productId;
        assert cart[k + 1] == cart[1..][k];
        r
      else r
  }

  // ---------------------------------------------------------------- post-purchase navigation

  /** What the redirect timer does: nothing, or a `pushState` (after `onNavigate('thank-you')` or with a `popstate`). */
  datatype Navigation = Stay | Go(notifyThankYou: bool, path: string, popstate: bool)

  const ThankYouPath := "/Ceremic/thank-you"

  predicate IsAbsoluteHttp(url: string) {
    StartsWith(url, "http://") || StartsWith(url, "https://")
  }

  /**
   * Where the browser goes after a purchase, given the configured redirect target and
   * whether an `onNavigate` callback was passed. An external http(s) target is never
   * pushed: with a callback the thank-you page is shown instead, without one nothing happens.
   */
  function PostPurchaseNavigation(configured: Option<string>, hasNavigate: bool): (r: Navigation)
    ensures r.Go? ==> StartsWith(r.path, "/") && !IsAbsoluteHttp(r.path)
    ensures configured.None? || AllSpace(configured.value) ==> r == Stay
    ensures configured.Some? && IsAbsoluteHttp(Trim(configured.value)) ==>
              r == (if hasNavigate then Go(true, ThankYouPath, false) else Stay)
    ensures configured.Some? && !AllSpace(configured.value) && !IsAbsoluteHttp(Trim(configured.value)) ==>
              r.Go? && r.notifyThankYou == hasNavigate && r.popstate == !hasNavigate &&
              r.path == FullPath(Trim(configured.value))
  {
    if configured.None? then Stay
    else
      var url := Trim(configured.value);
      TrimEmptyIff(configured.value);
      if url == "" then Stay
      else if IsAbsoluteHttp(url) then
        LocalPathIsNotHttp(ThankYouPath);
        (if hasNavigate then Go(true, ThankYouPath, false) else Stay)
      else
        Go(hasNavigate, FullPath(url), !hasNavigate)
  }

  /** `redirectUrl.startsWith('/') ? redirectUrl : `/${redirectUrl}``. */
  function FullPath(url: string): (p: string)
    ensures StartsWith(p, "/") && !IsAbsoluteHttp(p)
    ensures StartsWith(url, "/") ==> p == url
    ensures !StartsWith(url, "/") ==> p == "/" + url
  {
    var p := if StartsWith(url, "/") then url else "/" + url;
    LocalPathIsNotHttp(p);
    p
  }

  /** A path that starts with `/` is not an absolute http(s) URL. */
  lemma {:induction false} LocalPathIsNotHttp(p: string)
    requires p != [] && p[0] == '/'
    ensures StartsWith(p, "/") && !IsAbsoluteHttp(p)
  {
    assert p[..1] == "/";
  }

  // ---------------------------------------------------------------- the page's state

  const LoadFailed := "Failed to load cart. Please try again."
  const LoginToOrder := "Please login to place an order"
  const CartIsEmpty := "Your cart is empty"
  const OrderFailed := "Failed to place order. Please try again."

  /** The cart the server describes, as the page shows it. */
  function CartFromResponse(reply: CartResponse, now: string): (r: seq<CartLine>)
    ensures |r| <= |reply.cart|
  {
    JoinCart(TransformCollections(reply.ceremics, now), reply.cart)
  }

  class CartPage {
    var cartItems: seq<CartLine>
    var loading: bool
    var error: Option<string>
    var orderPlacing: bool
    var orderSuccess: bool

    constructor ()
      ensures cartItems == [] && loading && error == None && !orderPlacing && !orderSuccess
    {
      cartItems, loading, error, orderPlacing, orderSuccess := [], true, None, false, false;
    }

    /**
     * The mount effect `fetchCartData`: with a session it asks the server for the cart
     * (`reply` is that call's result) and replaces the page's cart by the joined lines.
     */
    method FetchCartData(store: UserStorage.Store, reply: Outcome<CartResponse>, now: string) returns (requested: bool)
      requires store.Valid()
      modifies this
      ensures requested <==> store.IsUserLoggedIn() && store.GetUserData().Some?
      ensures !loading && orderPlacing == old(orderPlacing) && orderSuccess == old(orderSuccess)
      ensures !requested ==> cartItems == old(cartItems) && error == old(error)
      ensures requested && reply.Returned? ==> cartItems == CartFromResponse(reply.value, now) && error == None
      ensures requested && reply.Threw? ==> cartItems == [] && error == Some(LoadFailed)
    {
      requested := false;
      if !store.IsUserLoggedIn() {
        loading := false;
        return;
      }
      var userData := store.GetUserData();
      if userData.None? {
        loading := false;
        return;
      }
      requested := true;
      loading := true;
      error := None;
      match reply {
        case Returned(body) =>
          cartItems := CartFromResponse(body, now);
        case Threw(_) =>
          error := Some(LoadFailed);
          cartItems := [];
      }
      loading := false;
    }

    /** `refetchCart`: reloads the cart; a failed call leaves everything as it was. */
    method RefetchCart(store: UserStorage.Store, reply: Outcome<CartResponse>, now: string) returns (requested: bool)
      requires store.Valid()
      modifies this
      ensures requested <==> store.GetUserData().Some?
      ensures requested && reply.Returned? ==> cartItems == CartFromResponse(reply.value, now)
      ensures !(requested && reply.Returned?) ==> cartItems == old(cartItems)
      ensures loading == old(loading) && error == old(error)
      ensures orderPlacing == old(orderPlacing) && orderSuccess == old(orderSuccess)
    {
      var userData := store.GetUserData();
      requested := userData.Some?;
      if requested && reply.Returned? {
        cartItems := CartFromResponse(reply.value, now);
      }
    }

    /**
     * `handlePlaceOrder`: refuses without a session, then refuses an empty cart, and only
     * then calls the order endpoint (`placed` says whether that call resolved). A resolved
     * call, whatever its body, is a success and schedules the post-purchase redirect.
     */
    method PlaceOrder(store: UserStorage.Store, placed: bool) returns (requested: bool, redirectScheduled: bool)
      requires store.Valid()
      modifies this
      ensures requested <==> store.GetUserData().Some? && old(cartItems) != []
      ensures store.GetUserData().None? ==> error == Some(LoginToOrder)
      ensures store.GetUserData().Some? && old(cartItems) == [] ==> error == Some(CartIsEmpty)
      ensures !requested ==> orderPlacing == old(orderPlacing) && orderSuccess == old(orderSuccess)
      ensures requested ==> !orderPlacing
      ensures requested && placed ==> orderSuccess && error == None
      ensures requested && !placed ==> orderSuccess == old(orderSuccess) && error == Some(OrderFailed)
      ensures redirectScheduled <==> requested && placed
      ensures cartItems == old(cartItems) && loading == old(loading)
    {
      requested, redirectScheduled := false, false;
      var userData := store.GetUserData();
      if userData.None? {
        error := Some(LoginToOrder);
        return;
      }
      if |cartItems| == 0 {
        error := Some(CartIsEmpty);
        return;
      }
      requested := true;
      orderPlacing := true;
      error := None;
      if placed {
        orderSuccess := true;
        redirectScheduled := true;
      } else {
        error := Some(OrderFailed);
      }
      orderPlacing := false;
    }
  }
}
