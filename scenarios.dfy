/** Runs of the handlers that follow from their contracts alone: a seller
    registration end to end, a second application after a rejection,
    repeated approval and approval followed by rejection, and shopping
    sessions on the web app. */
module Scenarios {
  import opened Models
  import opened Handlers
  import Keyboards
  import WebApp
  import Client

  /** In a valid users table, looking up the Telegram id of a row finds
      that row. */
  lemma FoundUser(users: map<int, UserRow>, nextId: int, k: int)
    requires UsersValid(users, nextId) && k in users
    ensures UserByTelegram(users, users[k].telegramId) == Some(users[k])
  {
    var r := UserByTelegram(users, users[k].telegramId);
    var j :| j in users && users[j] == r.value;
  }

  /** A new user registers as a seller, skipping the tax id with an empty
      message: one pending application with no tax id, the dialogue idle,
      and asking again shows the pending screen. */
  method RegistrationWithoutTaxId(bot: SellerBot, from: Sender)
    requires bot.Valid()
    requires UserByTelegram(bot.users, from.telegramId).None?
    requires !HasApplication(bot.sellers, bot.nextUserId)
    requires bot.ConversationOf(from.telegramId) == Idle
    modifies bot
  {
    var userId := bot.nextUserId;
    var menu := bot.Start(from);
    assert userId in bot.users && bot.users[userId].role == User && bot.users[userId].telegramId == from.telegramId;
    FoundUser(bot.users, bot.nextUserId, userId);

    var started := bot.BecomeSeller(from.telegramId);
    assert started == CollectionStarted;
    var reply := bot.ProcessCompanyName(from.telegramId, Some("Acme Co"));
    reply := bot.ProcessIin(from.telegramId, Some(""));
    var applicationId := bot.nextSellerId;
    reply := bot.ProcessDescription(from.telegramId, Some("sells widgets"));
    assert reply == Submitted;
    assert bot.sellers[applicationId] == SellerRow(applicationId, userId, "Acme Co", None, Some("sells widgets"), Pending, None);
    assert bot.ConversationOf(from.telegramId) == Idle;

    assert HasPendingApplication(bot.sellers, userId);
    started := bot.BecomeSeller(from.telegramId);
    assert started == PendingShown;
  }

  /** A rejected applicant may start the dialogue again, but the UNIQUE
      user_id makes its last step fail every time: no second application,
      and the dialogue stays at the description question. */
  method ReapplicationAfterRejection(bot: SellerBot, userId: int, applicationId: int)
    requires bot.Valid() && userId in bot.users && bot.users[userId].role == User
    requires applicationId in bot.sellers && bot.sellers[applicationId].userId == userId
    requires bot.sellers[applicationId].status == Rejected
    requires bot.ConversationOf(bot.users[userId].telegramId) == Idle
    modifies bot
  {
    var telegramId := bot.users[userId].telegramId;
    FoundUser(bot.users, bot.nextUserId, userId);
    assert !HasPendingApplication(bot.sellers, userId);
    ghost var sellers := bot.sellers;

    var started := bot.BecomeSeller(telegramId);
    assert started == CollectionStarted;
    var reply := bot.ProcessCompanyName(telegramId, Some("Second try Ltd"));
    reply := bot.ProcessIin(telegramId, None);
    assert HasApplication(bot.sellers, userId);
    reply := bot.ProcessDescription(telegramId, Some("second try"));
    assert reply == Failed(IntegrityError);
    assert bot.sellers == sellers;
    assert bot.ConversationOf(telegramId).step == Some(Description);
  }

  /** Pressing an approve button a second time changes nothing more and
      gets the same reply. */
  method ApproveTwice(bot: SellerBot, sellerId: int)
    requires bot.Valid()
    modifies bot`users, bot`sellers
  {
    ApproveDataRoute(sellerId);
    var first := bot.ApproveSeller(Keyboards.ApproveData(sellerId));
    ghost var users, sellers := bot.users, bot.sellers;
    var second := bot.ApproveSeller(Keyboards.ApproveData(sellerId));
    if sellerId in sellers {
      var s := sellers[sellerId];
      assert s.(status := Approved) == s;
      StoreSame(sellers, sellerId);
      if s.userId in users {
        assert users[s.userId].(role := Seller) == users[s.userId];
        StoreSame(users, s.userId);
      }
    }
    assert second == first && bot.sellers == sellers && bot.users == users;
  }

  /** Storing back the value a map already holds leaves the map as it was. */
  lemma StoreSame<K, V>(m: map<K, V>, k: K)
    requires k in m
    ensures m[k := m[k]] == m
  {
    assert m[k := m[k]].Keys == m.Keys;
  }

  /** Rejecting an application after approving it leaves it REJECTED and
      its owner a SELLER. */
  method ApproveThenReject(bot: SellerBot, sellerId: int)
    requires bot.Valid() && sellerId in bot.sellers && bot.sellers[sellerId].userId in bot.users
    modifies bot`users, bot`sellers
  {
    ghost var owner := bot.sellers[sellerId].userId;
    ApproveDataRoute(sellerId);
    RejectDataRoute(sellerId);
    var reviewed := bot.ApproveSeller(Keyboards.ApproveData(sellerId));
    assert bot.users[owner].role == Seller;
    reviewed := bot.RejectSeller(Keyboards.RejectData(sellerId));
    assert bot.sellers[sellerId].status == Rejected;
    assert bot.users[owner].role == Seller;
  }

  /** Adding a key a map does not hold and removing it again gives the
      map back. */
  lemma SetThenRemove(m: map<int, int>, k: int, v: int)
    requires k !in m
    ensures m[k := v] - {k} == m
  {
    assert (m[k := v] - {k}).Keys == m.Keys;
  }

  /** On a page in step with the server, adding a product the cart does
      not hold and then pressing "-" once leaves the cart as it was. */
  method AddThenDecrement(page: Client.ShopPage, productId: int)
    requires page.server.Valid() && page.Synced() && productId !in page.cart
    modifies page`cart, page.server`cartItems, page.server`nextCartItemId
  {
    ghost var before := page.cart;
    page.AddToCart(productId);
    ghost var added := page.cart;
    assert added == before[productId := 1];
    assert Client.UpdateRequest(added, productId, -1) == Client.RemoveRequest;
    page.UpdateCart(productId, -1);
    assert page.cart == added - {productId};
    SetThenRemove(before, productId, 1);
  }

  /** Flipping one element's membership twice, and nothing else, gives
      the set back. */
  lemma FlipTwice(before: set<int>, middle: set<int>, after: set<int>, x: int)
    requires (x in middle <==> x !in before) && middle - {x} == before - {x}
    requires (x in after <==> x !in middle) && after - {x} == middle - {x}
    ensures after == before
  {
    forall y ensures y in after <==> y in before {
      if y != x {
        assert y in after <==> y in after - {x};
        assert y in before <==> y in before - {x};
      }
    }
    assert after == before;
  }

  /** On a page in step with the server, toggling a product twice leaves
      the favourites as they were. */
  method ToggleTwice(page: Client.ShopPage, productId: int)
    requires page.server.Valid() && page.Synced()
    modifies page`favorites, page.server`favorites, page.server`nextFavoriteId
  {
    ghost var before := page.favorites;
    page.ToggleFavorite(productId);
    ghost var middle := page.favorites;
    page.ToggleFavorite(productId);
    FlipTwice(before, middle, page.favorites, productId);
  }

  /** The cart endpoint itself checks no sign: a negative amount for a new
      pair stores a negative quantity. The owner's page then shows it, and
      even its "+" button asks for a removal, since -3 + 1 is below one. */
  method NegativeQuantityStored()
  {
    var store := new WebApp.WebStore();
    store.AddToCart(42, 7, Some(-3));
    assert store.Cart() == map[(42, 7) := -3];
    var page := new Client.ShopPage(store, Some(42));
    page.Load();
    assert page.cart[7] == -3;
    assert Client.UpdateRequest(page.cart, 7, 1) == Client.RemoveRequest;
  }
}
