/** The inline keyboards the bot attaches to its replies (bot/keyboards.py).
    Every row of these keyboards holds exactly one button, so a keyboard is
    modelled as the sequence of its buttons, top to bottom. */
module Keyboards {
  import Numerals

  /** What pressing a button does: send callback data back to the bot, or
      open the web app at a URL. */
  datatype Action = Callback(data: string) | WebApp(url: string)

  datatype Button = Button(text: string, action: Action)

  /** The callback data of a keyboard, in order, skipping web-app buttons. */
  function CallbackData(kb: seq<Button>): (r: seq<string>)
    ensures |r| <= |kb|
    ensures (forall i :: 0 <= i < |kb| ==> kb[i].action.Callback?) ==> |r| == |kb|
  {
    if |kb| == 0 then []
    else (if kb[0].action.Callback? then [kb[0].action.data] else []) + CallbackData(kb[1..])
  }

  const BackToMainMenu := Button("🔙 Назад", Callback("main_menu"))
  const OrderHistoryButton := Button("📜 История покупок", Callback("order_history"))
  const RecommendationsButton := Button("💎 Рекомендации", Callback("recommendations"))
  const BecomeSellerButton := Button("🏪 Стать продавцом", Callback("become_seller"))
  const MyProductsButton := Button("📦 Мои товары", Callback("my_products"))
  const SalesStatsButton := Button("📊 Статистика продаж", Callback("sales_stats"))

  /** get_main_menu_webapp (keyboards.py:27-39): the shop as a web app at the
      configured WEBAPP_URL, then favourites, cart and profile. */
  function MainMenuWebApp(webappUrl: string): (kb: seq<Button>)
    ensures |kb| == 4 && kb[0].action == WebApp(webappUrl)
    ensures CallbackData(kb) == ["favorites", "cart", "profile"]
  {
    var kb := [ Button("🛍️ Открыть магазин", WebApp(webappUrl)),
                Button("⭐ Избранное", Callback("favorites")),
                Button("🛒 Корзина", Callback("cart")),
                Button("👤 Личный кабинет", Callback("profile")) ];
    assert CallbackData(kb[3..]) == ["profile"];
    assert CallbackData(kb[2..]) == ["cart", "profile"];
    assert CallbackData(kb[1..]) == ["favorites", "cart", "profile"];
    kb
  }

  /** get_profile_menu (keyboards.py:42-56), built by successive appends:
      order history and recommendations first, the back button last, and in
      between `become_seller` for "user", `my_products` and `sales_stats`
      for "seller", and nothing for any other role string. */
  method ProfileMenu(userRole: string) returns (kb: seq<Button>)
    ensures |kb| >= 3
    ensures kb[0] == OrderHistoryButton && kb[1] == RecommendationsButton
    ensures kb[|kb| - 1] == BackToMainMenu
    ensures userRole == "user" <==> kb[2..|kb| - 1] == [BecomeSellerButton]
    ensures userRole == "seller" <==> kb[2..|kb| - 1] == [MyProductsButton, SalesStatsButton]
    ensures userRole != "user" && userRole != "seller" <==> |kb| == 3
  {
    kb := [];
    kb := kb + [OrderHistoryButton];
    kb := kb + [RecommendationsButton];
    if userRole == "user" {
      kb := kb + [BecomeSellerButton];
    } else if userRole == "seller" {
      kb := kb + [MyProductsButton];
      kb := kb + [SalesStatsButton];
    }
    kb := kb + [BackToMainMenu];
  }

  /** get_admin_menu (keyboards.py:59-68). */
  function AdminMenu(): (kb: seq<Button>)
    ensures |kb| == 4
    ensures CallbackData(kb) == ["admin_sellers", "admin_products", "admin_orders", "main_menu"]
  {
    var kb := [ Button("👥 Продавцы", Callback("admin_sellers")),
                Button("📦 Все товары", Callback("admin_products")),
                Button("🛒 Все заказы", Callback("admin_orders")),
                BackToMainMenu ];
    assert CallbackData(kb[3..]) == ["main_menu"];
    assert CallbackData(kb[2..]) == ["admin_orders", "main_menu"];
    assert CallbackData(kb[1..]) == ["admin_products", "admin_orders", "main_menu"];
    kb
  }

  /** The callback data of the approve and reject buttons: the prefix
      followed by `str(seller_id)`. */
  function ApproveData(sellerId: int): string
  {
    "approve_seller_" + Numerals.FormatInt(sellerId)
  }

  function RejectData(sellerId: int): string
  {
    "reject_seller_" + Numerals.FormatInt(sellerId)
  }

  /** get_seller_approval_keyboard (keyboards.py:71-79): approve, reject,
      back to the list of applications. */
  function SellerApprovalKeyboard(sellerId: int): (kb: seq<Button>)
    ensures |kb| == 3
    ensures CallbackData(kb) == [ApproveData(sellerId), RejectData(sellerId), "admin_sellers"]
  {
    var kb := [ Button("✅ Одобрить", Callback(ApproveData(sellerId))),
                Button("❌ Отклонить", Callback(RejectData(sellerId))),
                Button("🔙 Назад", Callback("admin_sellers")) ];
    assert CallbackData(kb[2..]) == ["admin_sellers"];
    assert CallbackData(kb[1..]) == [RejectData(sellerId), "admin_sellers"];
    kb
  }

  /** get_back_keyboard (keyboards.py:82-88). */
  function BackKeyboard(): (kb: seq<Button>)
    ensures |kb| == 1
    ensures CallbackData(kb) == ["main_menu"]
  {
    [BackToMainMenu]
  }
}
