/** The shop page of the web app (static/app.js): the favourites and the
    cart the page keeps for one user, and the decisions its buttons take
    before they call the server. The page's lists are reassigned from the
    server after every change; rendering, pop-ups and the catalogue are not
    modelled. */
module Client {
  import opened Models
  import opened WebApp

  /** The id the page sends as `user_id`: the Telegram user's id, or the
      fixed test id 123456 when there is none or it is 0 (app.js:2). */
  const FallbackUserId := 123456

  function ClientUserId(telegramUserId: Option<int>): (r: int)
    ensures r != 0
    ensures telegramUserId.Some? && telegramUserId.value != 0 ==> r == telegramUserId.value
    ensures r != FallbackUserId ==> telegramUserId == Some(r)
  {
    if telegramUserId.Some? && telegramUserId.value != 0 then telegramUserId.value else FallbackUserId
  }

  /** The favourites one user sees: the products of that user's pairs. */
  function UserFavorites(pairs: set<Pair>, userId: int): (r: set<int>)
    ensures forall p {:trigger p in r} :: p in r <==> (userId, p) in pairs
  {
    set pair | pair in pairs && pair.0 == userId :: pair.1
  }

  /** The cart one user sees: product to quantity. */
  function UserCart(cart: map<Pair, int>, userId: int): (r: map<int, int>)
    ensures forall p {:trigger p in r} :: p in r <==> (userId, p) in cart
    ensures forall p {:trigger r[p]} :: p in r ==> r[p] == cart[(userId, p)]
  {
    map pair | pair in cart && pair.0 == userId :: pair.1 := cart[pair]
  }

  /** Setting one pair's quantity changes that product in its user's
      view. */
  lemma {:induction false} UserCartSet(cart: map<Pair, int>, userId: int, productId: int, quantity: int)
    ensures UserCart(cart[(userId, productId) := quantity], userId) == UserCart(cart, userId)[productId := quantity]
  {
    var after := cart[(userId, productId) := quantity];
    var view := UserCart(cart, userId)[productId := quantity];
    forall p | p in view
      ensures (userId, p) in after
    {
      if p != productId {
        assert (userId, p) in cart;
      }
    }
    assert UserCart(after, userId).Keys == view.Keys;
  }

  /** Adding an amount to one pair adds it to that product in its user's
      view. */
  lemma {:induction false} UserCartAdd(cart: map<Pair, int>, userId: int, productId: int, amount: int)
    ensures UserCart(AddAmount(cart, (userId, productId), amount), userId) == AddAmount(UserCart(cart, userId), productId, amount)
  {
    var pair := (userId, productId);
    UserCartSet(cart, userId, productId, (if pair in cart then cart[pair] else 0) + amount);
  }

  /** ... and no other user's view. */
  lemma {:induction false} UserCartSetElsewhere(cart: map<Pair, int>, userId: int, productId: int, quantity: int, other: int)
    requires other != userId
    ensures UserCart(cart[(userId, productId) := quantity], other) == UserCart(cart, other)
  {
    var after := cart[(userId, productId) := quantity];
    forall p | p in UserCart(cart, other)
      ensures (other, p) in after
    {
      assert (other, p) in cart;
    }
    assert UserCart(after, other).Keys == UserCart(cart, other).Keys;
  }

  /** Removing one pair removes that product from its user's view. */
  lemma {:induction false} UserCartRemove(cart: map<Pair, int>, userId: int, productId: int)
    ensures UserCart(cart - {(userId, productId)}, userId) == UserCart(cart, userId) - {productId}
  {
    var after := cart - {(userId, productId)};
    forall p | p in UserCart(cart, userId) - {productId}
      ensures (userId, p) in after
    {
      assert (userId, p) in cart;
    }
    assert UserCart(after, userId).Keys == (UserCart(cart, userId) - {productId}).Keys;
  }

  /** ... and touches no other user's view. */
  lemma {:induction false} UserCartRemoveElsewhere(cart: map<Pair, int>, userId: int, productId: int, other: int)
    requires other != userId
    ensures UserCart(cart - {(userId, productId)}, other) == UserCart(cart, other)
  {
    var after := cart - {(userId, productId)};
    forall p | p in UserCart(cart, other)
      ensures (other, p) in after
    {
      assert (other, p) in cart;
    }
    assert UserCart(after, other).Keys == UserCart(cart, other).Keys;
  }

  /** Clearing one user's pairs empties that user's view. */
  lemma UserCartClear(cart: map<Pair, int>, userId: int)
    ensures UserCart(WithoutUser(cart, userId), userId) == map[]
  {
  }

  /** ... and touches no other user's view. */
  lemma {:induction false} UserCartClearElsewhere(cart: map<Pair, int>, userId: int, other: int)
    requires other != userId
    ensures UserCart(WithoutUser(cart, userId), other) == UserCart(cart, other)
  {
    var after := WithoutUser(cart, userId);
    forall p | p in UserCart(cart, other)
      ensures (other, p) in after
    {
      assert (other, p) in cart;
    }
    assert UserCart(after, other).Keys == UserCart(cart, other).Keys;
  }

  /** Adding or removing one pair of favourites changes that product in its
      user's view. */
  lemma {:induction false} UserFavoritesChange(pairs: set<Pair>, userId: int, productId: int)
    ensures UserFavorites(pairs + {(userId, productId)}, userId) == UserFavorites(pairs, userId) + {productId}
    ensures UserFavorites(pairs - {(userId, productId)}, userId) == UserFavorites(pairs, userId) - {productId}
  {
    assert (userId, productId) in pairs + {(userId, productId)};
    forall p | p in UserFavorites(pairs, userId)
      ensures (userId, p) in pairs
    {
    }
  }

  /** ... and no other user's view. */
  lemma {:induction false} UserFavoritesChangeElsewhere(pairs: set<Pair>, userId: int, productId: int, other: int)
    requires other != userId
    ensures UserFavorites(pairs + {(userId, productId)}, other) == UserFavorites(pairs, other)
    ensures UserFavorites(pairs - {(userId, productId)}, other) == UserFavorites(pairs, other)
  {
    forall p | p in UserFavorites(pairs, other)
      ensures (other, p) in pairs - {(userId, productId)}
    {
    }
  }

  /** Every quantity in a cart view is at least one. */
  ghost predicate QuantitiesPositive(cart: map<int, int>)
  {
    forall p :: p in cart ==> cart[p] >= 1
  }

  /** What updateCart asks the server to do. */
  datatype CartRequest = NoRequest | RemoveRequest | AddRequest(quantity: int)

  /** The decision of updateCart (app.js:125-140): nothing for a product not
      in the page's cart, a removal when the new quantity would be zero or
      less, and otherwise an addition of the change itself. */
  function UpdateRequest(cart: map<int, int>, productId: int, delta: int): (r: CartRequest)
    ensures r == NoRequest <==> productId !in cart
    ensures r == RemoveRequest <==> productId in cart && cart[productId] + delta <= 0
    ensures r.AddRequest? <==> productId in cart && cart[productId] + delta >= 1
    ensures r.AddRequest? ==> r.quantity == delta
  {
    if productId !in cart then NoRequest
    else if cart[productId] + delta <= 0 then RemoveRequest
    else AddRequest(delta)
  }

  /** The cart a request leaves for the user, when the page was in step with
      the server. */
  function AfterRequest(cart: map<int, int>, productId: int, r: CartRequest): map<int, int>
    requires r.AddRequest? ==> productId in cart
  {
    match r
    case NoRequest => cart
    case RemoveRequest => cart - {productId}
    case AddRequest(q) => cart[productId := cart[productId] + q]
  }

  /** updateCart never leaves a quantity below one. */
  lemma {:induction false} UpdateKeepsQuantitiesPositive(cart: map<int, int>, productId: int, delta: int)
    requires QuantitiesPositive(cart)
    ensures QuantitiesPositive(AfterRequest(cart, productId, UpdateRequest(cart, productId, delta)))
  {
    var r := UpdateRequest(cart, productId, delta);
    var after := AfterRequest(cart, productId, r);
    if r.AddRequest? {
      assert after[productId] == cart[productId] + delta;
    }
  }

  /** updateCart changes one product only: it is removed exactly when its
      quantity would drop below one, and otherwise gets the new quantity. */
  lemma {:induction false} UpdateChangesOneProduct(cart: map<int, int>, productId: int, delta: int)
    ensures var after := AfterRequest(cart, productId, UpdateRequest(cart, productId, delta));
      && (productId in after <==> productId in cart && cart[productId] + delta >= 1)
      && (productId in after ==> after[productId] == cart[productId] + delta)
      && (forall p :: p != productId ==> (p in after <==> p in cart) && (p in after ==> after[p] == cart[p]))
  {
    var r := UpdateRequest(cart, productId, delta);
    var after := AfterRequest(cart, productId, r);
    if r.AddRequest? {
      assert after[productId] == cart[productId] + delta;
    }
  }

  /** The page of one user over the web app's tables. */
  class ShopPage {
    const server: WebStore
    const userId: int
    var favorites: set<int>
    var cart: map<int, int>

    /** The page shows what the server holds for its user. */
    ghost predicate Synced()
      reads this, server
      requires server.Valid()
    {
      favorites == UserFavorites(server.FavoritePairs(), userId)
      && cart == UserCart(server.Cart(), userId)
    }

    /** The module-level state as the script starts (app.js:1-6). */
    constructor (server: WebStore, telegramUserId: Option<int>)
      ensures this.server == server && userId == ClientUserId(telegramUserId)
      ensures favorites == {} && cart == map[]
    {
      this.server := server;
      userId := ClientUserId(telegramUserId);
      favorites, cart := {}, map[];
    }

    /** loadFavorites (app.js:22-27): the list is replaced by the user's
        favourites on the server. */
    method LoadFavorites()
      modifies this`favorites
      ensures favorites == UserFavorites(server.FavoritePairs(), userId)
    {
      favorites := UserFavorites(server.FavoritePairs(), userId);
    }

    /** loadCart (app.js:29-34): the list is replaced by the user's cart on
        the server. */
    method LoadCart()
      requires server.Valid()
      modifies this`cart
      ensures cart == UserCart(server.Cart(), userId)
    {
      cart := UserCart(server.Cart(), userId);
    }

    /** The DOMContentLoaded handler (app.js:8-13): after it the page is in
        step with the server. */
    method Load()
      requires server.Valid()
      modifies this`favorites, this`cart
      ensures Synced()
    {
      LoadFavorites();
      LoadCart();
    }

    /** The POST to /cart/add followed by loadCart, shared by addToCart and
        updateCart. */
    method PostAdd(productId: int, quantity: int)
      requires server.Valid()
      modifies server`cartItems, server`nextCartItemId, this`cart
      ensures server.Valid()
      ensures server.Cart() == AddAmount(old(server.Cart()), (userId, productId), quantity)
      ensures cart == UserCart(server.Cart(), userId)
      ensures old(Synced()) ==>
        && Synced()
        && cart == AddAmount(old(cart), productId, quantity)
    {
      ghost var before := server.Cart();
      server.AddToCart(userId, productId, Some(quantity));
      LoadCart();
      UserCartAdd(before, userId, productId, quantity);
    }

    /** addToCart (app.js:106-114): one more of the product, then reload. */
    method AddToCart(productId: int)
      requires server.Valid()
      modifies server`cartItems, server`nextCartItemId, this`cart
      ensures server.Valid()
      ensures server.Cart() == AddAmount(old(server.Cart()), (userId, productId), 1)
      ensures cart == UserCart(server.Cart(), userId)
      ensures old(Synced()) ==>
        && Synced()
        && cart == AddAmount(old(cart), productId, 1)
      ensures old(Synced() && QuantitiesPositive(cart)) ==> QuantitiesPositive(cart)
    {
      PostAdd(productId, 1);
    }

    /** removeFromCart (app.js:116-123): the product leaves the cart, then
        reload. */
    method RemoveFromCart(productId: int)
      requires server.Valid()
      modifies server`cartItems, this`cart
      ensures server.Valid()
      ensures server.Cart() == old(server.Cart()) - {(userId, productId)}
      ensures cart == UserCart(server.Cart(), userId)
      ensures old(Synced()) ==> Synced() && cart == old(cart) - {productId}
      ensures old(Synced() && QuantitiesPositive(cart)) ==> QuantitiesPositive(cart)
    {
      server.RemoveFromCart(userId, productId);
      LoadCart();
      UserCartRemove(old(server.Cart()), userId, productId);
    }

    /** updateCart (app.js:125-140): the request UpdateRequest chooses,
        then reload; a product not in the page's cart is left alone. When
        the page was in step with the server, the cart afterwards is the
        one the request means, so no quantity falls below one. */
    method UpdateCart(productId: int, delta: int)
      requires server.Valid()
      modifies server`cartItems, server`nextCartItemId, this`cart
      ensures server.Valid()
      ensures productId in old(cart) ==> cart == UserCart(server.Cart(), userId)
      ensures productId !in old(cart) ==>
        server.cartItems == old(server.cartItems) && server.nextCartItemId == old(server.nextCartItemId) && cart == old(cart)
      ensures productId in old(cart) && old(cart)[productId] + delta <= 0 ==>
        server.Cart() == old(server.Cart()) - {(userId, productId)}
      ensures productId in old(cart) && old(cart)[productId] + delta >= 1 ==>
        server.Cart() == AddAmount(old(server.Cart()), (userId, productId), delta)
      ensures old(Synced()) ==>
        && Synced()
        && cart == AfterRequest(old(cart), productId, UpdateRequest(old(cart), productId, delta))
      ensures old(Synced() && QuantitiesPositive(cart)) ==> QuantitiesPositive(cart)
    {
      ghost var before, synced := cart, Synced();
      var request := UpdateRequest(cart, productId, delta);
      match request
      case NoRequest =>
      case RemoveRequest =>
        ghost var expected := AfterRequest(before, productId, request);
        assert expected == before - {productId};
        RemoveFromCart(productId);
        assert synced ==> cart == expected;
        if synced && QuantitiesPositive(before) {
          UpdateKeepsQuantitiesPositive(before, productId, delta);
        }
      case AddRequest(q) =>
        ghost var expected := AfterRequest(before, productId, request);
        assert expected == AddAmount(before, productId, q);
        PostAdd(productId, q);
        assert synced ==> cart == expected;
        if synced && QuantitiesPositive(before) {
          UpdateKeepsQuantitiesPositive(before, productId, delta);
        }
    }

    /** toggleFavorite (app.js:142-154): remove the product from the
        favourites if the page lists it, add it otherwise, then reload.
        From a page in step with the server, the product's membership
        flips and nothing else changes. */
    method ToggleFavorite(productId: int)
      requires server.Valid()
      modifies server`favorites, server`nextFavoriteId, this`favorites
      ensures server.Valid()
      ensures productId in old(favorites) ==> server.FavoritePairs() == old(server.FavoritePairs()) - {(userId, productId)}
      ensures productId !in old(favorites) ==> server.FavoritePairs() == old(server.FavoritePairs()) + {(userId, productId)}
      ensures favorites == UserFavorites(server.FavoritePairs(), userId)
      ensures old(Synced()) ==>
        && Synced()
        && (productId in favorites <==> productId !in old(favorites))
        && favorites - {productId} == old(favorites) - {productId}
    {
      var status: AddStatus;
      if productId in favorites {
        status := server.RemoveFavorite(userId, productId);
      } else {
        status := server.AddFavorite(userId, productId);
      }
      LoadFavorites();
      UserFavoritesChange(old(server.FavoritePairs()), userId, productId);
    }

    /** checkout (app.js:168-184): an empty cart is refused and nothing is
        sent; otherwise the user's cart is cleared on the server and the
        page's cart reloads empty. Other users' carts stay. */
    method Checkout()
      requires server.Valid()
      modifies server`cartItems, this`cart
      ensures server.Valid()
      ensures |old(cart)| == 0 ==> server.cartItems == old(server.cartItems) && cart == old(cart)
      ensures |old(cart)| != 0 ==>
        && server.Cart() == WithoutUser(old(server.Cart()), userId)
        && cart == map[]
        && forall other :: other != userId ==> UserCart(server.Cart(), other) == UserCart(old(server.Cart()), other)
    {
      if |cart| == 0 {
        return;
      }
      server.ClearCart(userId);
      LoadCart();
      UserCartClear(old(server.Cart()), userId);
      forall other | other != userId
        ensures UserCart(server.Cart(), other) == UserCart(old(server.Cart()), other)
      {
        UserCartClearElsewhere(old(server.Cart()), userId, other);
      }
    }
  }
}
