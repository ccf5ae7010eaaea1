/** The favourites and cart endpoints of the web app (webapp/app.py), over
    the `favorites` and `cart_items` tables. The schema puts no UNIQUE
    constraint on (user_id, product_id) in either table (models.py:108-126):
    one row per pair is kept only by the endpoints looking before they
    insert, and that is the invariant proved here. User keys are opaque
    integers. */
module WebApp {
  import opened Models

  /** A (user_id, product_id) pair. */
  type Pair = (int, int)

  function FavoriteKey(r: FavoriteRow): Pair
  {
    (r.userId, r.productId)
  }

  function CartKey(r: CartItemRow): Pair
  {
    (r.userId, r.productId)
  }

  ghost predicate FavoritePairsUnique(rows: map<int, FavoriteRow>)
  {
    forall a, b {:trigger FavoriteKey(rows[a]), FavoriteKey(rows[b])} :: a in rows && b in rows && FavoriteKey(rows[a]) == FavoriteKey(rows[b]) ==> a == b
  }

  ghost predicate CartPairsUnique(rows: map<int, CartItemRow>)
  {
    forall a, b {:trigger CartKey(rows[a]), CartKey(rows[b])} :: a in rows && b in rows && CartKey(rows[a]) == CartKey(rows[b]) ==> a == b
  }

  /** The pairs the favourites table holds. */
  function FavoritesOf(rows: map<int, FavoriteRow>): set<Pair>
  {
    set k | k in rows :: FavoriteKey(rows[k])
  }

  /** The pairs the cart table holds. */
  function CartPairs(rows: map<int, CartItemRow>): set<Pair>
  {
    set k | k in rows :: CartKey(rows[k])
  }

  /** The quantity of the one row holding the pair. */
  function QuantityOf(rows: map<int, CartItemRow>, pair: Pair): int
    requires CartPairsUnique(rows) && pair in CartPairs(rows)
  {
    var k :| k in rows && CartKey(rows[k]) == pair;
    rows[k].quantity
  }

  /** The quantity the cart table holds for each pair; one row per pair
      makes it a function. */
  function CartOf(rows: map<int, CartItemRow>): map<Pair, int>
    requires CartPairsUnique(rows)
  {
    map pair | pair in CartPairs(rows) :: QuantityOf(rows, pair)
  }

  /** Every row shows in the cart with its quantity, and every pair of the
      cart comes from a row. */
  lemma CartOfRows(rows: map<int, CartItemRow>)
    requires CartPairsUnique(rows)
    ensures forall k :: k in rows ==> CartKey(rows[k]) in CartOf(rows) && CartOf(rows)[CartKey(rows[k])] == rows[k].quantity
    ensures forall pair :: pair in CartOf(rows) ==> exists k :: k in rows && CartKey(rows[k]) == pair
  {
  }

  /** Inserting a row for a pair not yet present adds that pair. */
  lemma FavoritesOfInsert(rows: map<int, FavoriteRow>, k: int, row: FavoriteRow)
    requires FavoritePairsUnique(rows) && k !in rows && FavoriteKey(row) !in FavoritesOf(rows)
    ensures FavoritePairsUnique(rows[k := row])
    ensures FavoritesOf(rows[k := row]) == FavoritesOf(rows) + {FavoriteKey(row)}
  {
    var after := rows[k := row];
    forall j | j in rows
      ensures FavoriteKey(rows[j]) != FavoriteKey(row)
    {
      assert FavoriteKey(rows[j]) in FavoritesOf(rows);
    }
    assert after[k] == row;
    forall pair | pair in FavoritesOf(rows)
      ensures pair in FavoritesOf(after)
    {
      var j :| j in rows && FavoriteKey(rows[j]) == pair;
      assert after[j] == rows[j];
    }
  }

  /** Deleting the one row of a pair removes exactly that pair. */
  lemma FavoritesOfRemove(rows: map<int, FavoriteRow>, k: int)
    requires FavoritePairsUnique(rows) && k in rows
    ensures FavoritePairsUnique(rows - {k})
    ensures FavoritesOf(rows - {k}) == FavoritesOf(rows) - {FavoriteKey(rows[k])}
  {
    var after := rows - {k};
    forall pair | pair in FavoritesOf(rows) - {FavoriteKey(rows[k])}
      ensures pair in FavoritesOf(after)
    {
      var j :| j in rows && FavoriteKey(rows[j]) == pair;
      assert j in after;
    }
  }

  /** Inserting a row for a pair not yet present gives that pair the row's
      quantity and leaves every other pair as it was. */
  lemma CartOfInsert(rows: map<int, CartItemRow>, k: int, row: CartItemRow)
    requires CartPairsUnique(rows) && k !in rows && CartKey(row) !in CartOf(rows)
    ensures CartPairsUnique(rows[k := row])
    ensures CartOf(rows[k := row]) == CartOf(rows)[CartKey(row) := row.quantity]
  {
    CartOfRows(rows);
    CartInsertUnique(rows, k, row);
    CartInsertCovers(rows, CartOf(rows), k, row);
    CartOfExtensional(rows[k := row], CartOf(rows)[CartKey(row) := row.quantity]);
  }

  /** The rows of the table with one more row, against the cart with one
      more pair. */
  lemma CartInsertCovers(rows: map<int, CartItemRow>, cart: map<Pair, int>, k: int, row: CartItemRow)
    requires k !in rows && CartKey(row) !in cart
    requires forall j :: j in rows ==> CartKey(rows[j]) in cart && cart[CartKey(rows[j])] == rows[j].quantity
    requires forall pair :: pair in cart ==> exists j :: j in rows && CartKey(rows[j]) == pair
    ensures var after, c := rows[k := row], cart[CartKey(row) := row.quantity];
      && (forall j :: j in after ==> CartKey(after[j]) in c && c[CartKey(after[j])] == after[j].quantity)
      && (forall pair :: pair in c ==> exists j :: j in after && CartKey(after[j]) == pair)
  {
    var after, c := rows[k := row], cart[CartKey(row) := row.quantity];
    forall j | j in after
      ensures CartKey(after[j]) in c && c[CartKey(after[j])] == after[j].quantity
    {
      if j != k {
        assert after[j] == rows[j];
      }
    }
    forall pair | pair in c
      ensures exists j :: j in after && CartKey(after[j]) == pair
    {
      if pair == CartKey(row) {
        assert after[k] == row;
      } else {
        var j :| j in rows && CartKey(rows[j]) == pair;
        assert after[j] == rows[j];
      }
    }
  }

  /** A quantity map after adding an amount at one key, a missing key
      counting as zero. */
  function AddAmount<K>(m: map<K, int>, key: K, amount: int): map<K, int>
  {
    m[key := (if key in m then m[key] else 0) + amount]
  }

  /** The cart of every user but one. */
  function WithoutUser(cart: map<Pair, int>, userId: int): map<Pair, int>
  {
    map pair | pair in cart && pair.0 != userId :: cart[pair]
  }

  /** A row whose pair no other row has keeps the pairs unique. */
  lemma CartInsertUnique(rows: map<int, CartItemRow>, k: int, row: CartItemRow)
    requires CartPairsUnique(rows) && k !in rows
    requires forall j :: j in rows ==> CartKey(rows[j]) != CartKey(row)
    ensures CartPairsUnique(rows[k := row])
  {
  }

  /** Changing the quantity of a row changes that pair's quantity only. */
  lemma CartOfUpdate(rows: map<int, CartItemRow>, k: int, quantity: int)
    requires CartPairsUnique(rows) && k in rows
    ensures CartPairsUnique(rows[k := rows[k].(quantity := quantity)])
    ensures CartOf(rows[k := rows[k].(quantity := quantity)]) == CartOf(rows)[CartKey(rows[k]) := quantity]
  {
    var after := rows[k := rows[k].(quantity := quantity)];
    assert forall j :: j in after ==> CartKey(after[j]) == CartKey(rows[j]);
    CartOfExtensional(after, CartOf(rows)[CartKey(rows[k]) := quantity]);
  }

  /** Deleting the one row of a pair removes exactly that pair. */
  lemma CartOfRemove(rows: map<int, CartItemRow>, k: int)
    requires CartPairsUnique(rows) && k in rows
    ensures CartPairsUnique(rows - {k})
    ensures CartOf(rows - {k}) == CartOf(rows) - {CartKey(rows[k])}
  {
    var after := rows - {k};
    forall pair | pair in CartOf(rows) - {CartKey(rows[k])}
      ensures exists j :: j in after && CartKey(after[j]) == pair
    {
      var j :| j in rows && CartKey(rows[j]) == pair;
      assert j in after;
    }
    CartOfExtensional(after, CartOf(rows) - {CartKey(rows[k])});
  }

  /** Deleting every row of one user removes that user's pairs and no
      other. */
  lemma CartOfWithoutUser(rows: map<int, CartItemRow>, userId: int)
    requires CartPairsUnique(rows)
    ensures CartPairsUnique(map k | k in rows && rows[k].userId != userId :: rows[k])
    ensures CartOf(map k | k in rows && rows[k].userId != userId :: rows[k]) == WithoutUser(CartOf(rows), userId)
  {
    var after := map k | k in rows && rows[k].userId != userId :: rows[k];
    var expected := WithoutUser(CartOf(rows), userId);
    forall pair | pair in expected
      ensures exists j :: j in after && CartKey(after[j]) == pair
    {
      var j :| j in rows && CartKey(rows[j]) == pair;
      assert j in after;
    }
    CartOfExtensional(after, expected);
  }

  /** A map of pairs equals the cart of a table when every row is in it
      with its quantity and every pair in it has a row. */
  lemma CartOfExtensional(rows: map<int, CartItemRow>, c: map<Pair, int>)
    requires CartPairsUnique(rows)
    requires forall k :: k in rows ==> CartKey(rows[k]) in c && c[CartKey(rows[k])] == rows[k].quantity
    requires forall pair :: pair in c ==> exists k :: k in rows && CartKey(rows[k]) == pair
    ensures CartOf(rows) == c
  {
    var d := CartOf(rows);
    CartOfRows(rows);
    forall pair | pair in d
      ensures pair in c && d[pair] == c[pair]
    {
      var k :| k in rows && CartKey(rows[k]) == pair;
    }
    assert d.Keys == c.Keys;
  }

  /** The `favorites` table: keyed by its primary key, every key below the
      next one to hand out, one row per pair. */
  ghost predicate FavoriteTableValid(rows: map<int, FavoriteRow>, nextId: int)
  {
    && 1 <= nextId
    && (forall k :: k in rows ==> rows[k].id == k && 1 <= k < nextId)
    && FavoritePairsUnique(rows)
  }

  /** The `cart_items` table, likewise. */
  ghost predicate CartTableValid(rows: map<int, CartItemRow>, nextId: int)
  {
    && 1 <= nextId
    && (forall k :: k in rows ==> rows[k].id == k && 1 <= k < nextId)
    && CartPairsUnique(rows)
  }

  lemma FavoriteInsertValid(rows: map<int, FavoriteRow>, nextId: int, userId: int, productId: int)
    requires FavoriteTableValid(rows, nextId) && (userId, productId) !in FavoritesOf(rows)
    ensures FavoriteTableValid(rows[nextId := FavoriteRow(nextId, userId, productId)], nextId + 1)
    ensures FavoritesOf(rows[nextId := FavoriteRow(nextId, userId, productId)]) == FavoritesOf(rows) + {(userId, productId)}
  {
    FavoritesOfInsert(rows, nextId, FavoriteRow(nextId, userId, productId));
  }

  lemma FavoriteRemoveValid(rows: map<int, FavoriteRow>, nextId: int, k: int)
    requires FavoriteTableValid(rows, nextId) && k in rows
    ensures FavoriteTableValid(rows - {k}, nextId)
    ensures FavoritesOf(rows - {k}) == FavoritesOf(rows) - {FavoriteKey(rows[k])}
  {
    FavoritesOfRemove(rows, k);
  }

  lemma CartInsertValid(rows: map<int, CartItemRow>, nextId: int, userId: int, productId: int, quantity: int)
    requires CartTableValid(rows, nextId) && (userId, productId) !in CartOf(rows)
    ensures CartTableValid(rows[nextId := CartItemRow(nextId, userId, productId, quantity)], nextId + 1)
    ensures CartOf(rows[nextId := CartItemRow(nextId, userId, productId, quantity)]) == CartOf(rows)[(userId, productId) := quantity]
  {
    CartOfInsert(rows, nextId, CartItemRow(nextId, userId, productId, quantity));
  }

  lemma CartIncrementValid(rows: map<int, CartItemRow>, nextId: int, k: int, pair: Pair, delta: int)
    requires CartTableValid(rows, nextId) && k in rows && CartKey(rows[k]) == pair
    ensures pair in CartOf(rows)
    ensures CartTableValid(rows[k := rows[k].(quantity := rows[k].quantity + delta)], nextId)
    ensures CartOf(rows[k := rows[k].(quantity := rows[k].quantity + delta)])
         == CartOf(rows)[pair := CartOf(rows)[pair] + delta]
  {
    CartOfRows(rows);
    CartOfUpdate(rows, k, rows[k].quantity + delta);
  }

  lemma CartRemoveValid(rows: map<int, CartItemRow>, nextId: int, k: int)
    requires CartTableValid(rows, nextId) && k in rows
    ensures CartTableValid(rows - {k}, nextId)
    ensures CartOf(rows - {k}) == CartOf(rows) - {CartKey(rows[k])}
  {
    CartOfRemove(rows, k);
  }

  lemma CartWithoutUserValid(rows: map<int, CartItemRow>, nextId: int, userId: int)
    requires CartTableValid(rows, nextId)
    ensures CartTableValid(map k | k in rows && rows[k].userId != userId :: rows[k], nextId)
    ensures CartOf(map k | k in rows && rows[k].userId != userId :: rows[k]) == WithoutUser(CartOf(rows), userId)
  {
    CartOfWithoutUser(rows, userId);
  }

  datatype AddStatus = Success | AlreadyExists

  /** The two tables and the keys the database hands out next. */
  class WebStore {
    var favorites: map<int, FavoriteRow>
    var cartItems: map<int, CartItemRow>
    var nextFavoriteId: int
    var nextCartItemId: int

    ghost predicate Valid()
      reads this
    {
      FavoriteTableValid(favorites, nextFavoriteId) && CartTableValid(cartItems, nextCartItemId)
    }

    function FavoritePairs(): set<Pair>
      reads this
    {
      FavoritesOf(favorites)
    }

    function Cart(): map<Pair, int>
      reads this
      requires Valid()
    {
      CartOf(cartItems)
    }

    constructor ()
      ensures Valid() && favorites == map[] && cartItems == map[]
    {
      favorites, cartItems := map[], map[];
      nextFavoriteId, nextCartItemId := 1, 1;
    }

    /** The row `select(Favorite).where(user_id, product_id)` finds; there is
        at most one, so `scalar_one_or_none` never raises. */
    method FindFavorite(userId: int, productId: int) returns (k: Option<int>)
      ensures k.None? <==> (userId, productId) !in FavoritePairs()
      ensures k.Some? ==> k.value in favorites && FavoriteKey(favorites[k.value]) == (userId, productId)
    {
      if exists j :: j in favorites && FavoriteKey(favorites[j]) == (userId, productId) {
        var j :| j in favorites && FavoriteKey(favorites[j]) == (userId, productId);
        k := Some(j);
      } else {
        k := None;
      }
    }

    /** The row `select(CartItem).where(user_id, product_id)` finds. */
    method FindCartItem(userId: int, productId: int) returns (k: Option<int>)
      requires Valid()
      ensures k.None? <==> (userId, productId) !in Cart()
      ensures k.None? ==> forall j :: j in cartItems ==> CartKey(cartItems[j]) != (userId, productId)
      ensures k.Some? ==> k.value in cartItems && CartKey(cartItems[k.value]) == (userId, productId)
    {
      CartOfRows(cartItems);
      if exists j :: j in cartItems && CartKey(cartItems[j]) == (userId, productId) {
        var j :| j in cartItems && CartKey(cartItems[j]) == (userId, productId);
        k := Some(j);
      } else {
        k := None;
      }
    }

    /** add_favorite (app.py:93-109): a pair already there is reported and
        nothing is written; otherwise exactly one row is inserted. Either
        way the pair is a favourite afterwards, so adding twice is adding
        once. */
    method AddFavorite(userId: int, productId: int) returns (status: AddStatus)
      requires Valid()
      modifies this`favorites, this`nextFavoriteId
      ensures Valid()
      ensures status == AlreadyExists <==> (userId, productId) in old(FavoritePairs())
      ensures status == AlreadyExists ==> favorites == old(favorites) && nextFavoriteId == old(nextFavoriteId)
      ensures status == Success ==>
        && favorites == old(favorites)[old(nextFavoriteId) := FavoriteRow(old(nextFavoriteId), userId, productId)]
        && nextFavoriteId == old(nextFavoriteId) + 1
      ensures FavoritePairs() == old(FavoritePairs()) + {(userId, productId)}
    {
      var existing := FindFavorite(userId, productId);
      if existing.Some? {
        return AlreadyExists;
      }
      FavoriteInsertValid(favorites, nextFavoriteId, userId, productId);
      favorites := favorites[nextFavoriteId := FavoriteRow(nextFavoriteId, userId, productId)];
      nextFavoriteId := nextFavoriteId + 1;
      status := Success;
    }

    /** remove_favorite (app.py:112-127): deletes the pair's row if there
        is one, and always reports success; every other row stays. */
    method RemoveFavorite(userId: int, productId: int) returns (status: AddStatus)
      requires Valid()
      modifies this`favorites
      ensures Valid()
      ensures status == Success
      ensures FavoritePairs() == old(FavoritePairs()) - {(userId, productId)}
      ensures forall k :: k in favorites <==> k in old(favorites) && FavoriteKey(old(favorites)[k]) != (userId, productId)
      ensures forall k :: k in favorites ==> favorites[k] == old(favorites)[k]
    {
      var existing := FindFavorite(userId, productId);
      if existing.Some? {
        FavoriteRemoveValid(favorites, nextFavoriteId, existing.value);
        favorites := favorites - {existing.value};
      } else {
        assert forall k :: k in favorites ==> FavoriteKey(favorites[k]) in FavoritePairs();
      }
      status := Success;
    }

    /** add_to_cart (app.py:130-149): the pair's quantity grows by the
        given amount (1 when none is given), or a row is inserted with that
        amount; never a second row for a pair. The sign of the amount is
        not checked. */
    method AddToCart(userId: int, productId: int, quantity: Option<int>)
      requires Valid()
      modifies this`cartItems, this`nextCartItemId
      ensures Valid()
      ensures Cart() == AddAmount(old(Cart()), (userId, productId), if quantity.Some? then quantity.value else DefaultQuantity)
      ensures (userId, productId) in old(Cart()) ==>
        cartItems.Keys == old(cartItems).Keys && nextCartItemId == old(nextCartItemId)
      ensures (userId, productId) !in old(Cart()) ==>
        cartItems.Keys == old(cartItems).Keys + {old(nextCartItemId)} && nextCartItemId == old(nextCartItemId) + 1
      ensures forall k :: k in old(cartItems) && CartKey(old(cartItems)[k]) != (userId, productId) ==>
        k in cartItems && cartItems[k] == old(cartItems)[k]
    {
      var q := if quantity.Some? then quantity.value else DefaultQuantity;
      var existing := FindCartItem(userId, productId);
      ghost var rows := cartItems;
      if existing.Some? {
        var k := existing.value;
        ghost var after := rows[k := rows[k].(quantity := rows[k].quantity + q)];
        CartIncrementValid(rows, nextCartItemId, k, (userId, productId), q);
        cartItems := cartItems[k := cartItems[k].(quantity := cartItems[k].quantity + q)];
        assert cartItems == after;
      } else {
        ghost var after := rows[nextCartItemId := CartItemRow(nextCartItemId, userId, productId, q)];
        CartInsertValid(rows, nextCartItemId, userId, productId, q);
        cartItems := cartItems[nextCartItemId := CartItemRow(nextCartItemId, userId, productId, q)];
        assert cartItems == after;
        nextCartItemId := nextCartItemId + 1;
      }
    }

    /** remove_from_cart (app.py:152-167): deletes only the pair's row, if
        any. */
    method RemoveFromCart(userId: int, productId: int)
      requires Valid()
      modifies this`cartItems
      ensures Valid()
      ensures Cart() == old(Cart()) - {(userId, productId)}
      ensures forall k :: k in cartItems <==> k in old(cartItems) && CartKey(old(cartItems)[k]) != (userId, productId)
      ensures forall k :: k in cartItems ==> cartItems[k] == old(cartItems)[k]
    {
      var existing := FindCartItem(userId, productId);
      if existing.Some? {
        CartRemoveValid(cartItems, nextCartItemId, existing.value);
        cartItems := cartItems - {existing.value};
      } else {
        assert Cart() - {(userId, productId)} == Cart();
      }
    }

    /** clear_cart (app.py:170-184): deletes the user's rows one by one and
        commits once; other users' rows stay. */
    method ClearCart(userId: int)
      requires Valid()
      modifies this`cartItems
      ensures Valid()
      ensures cartItems == map k | k in old(cartItems) && old(cartItems)[k].userId != userId :: old(cartItems)[k]
      ensures Cart() == WithoutUser(old(Cart()), userId)
    {
      var rows := cartItems;
      var id := 1;
      while id < nextCartItemId
        invariant 1 <= id <= nextCartItemId
        invariant rows == map k | k in old(cartItems) && (id <= k || old(cartItems)[k].userId != userId) :: old(cartItems)[k]
      {
        if id in rows && rows[id].userId == userId {
          rows := rows - {id};
        }
        id := id + 1;
      }
      CartWithoutUserValid(cartItems, nextCartItemId, userId);
      cartItems := rows;
    }
  }
}
