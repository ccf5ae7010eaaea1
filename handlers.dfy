/** The bot's handlers for registration, seller applications and their
    review (bot/handlers.py), over an in-memory database (the `users` and
    `sellers` tables, a commit taking effect at once) and the per-user
    conversation storage of the dialogue framework. */
module Handlers {
  import opened Models
  import Numerals
  import Keyboards

  /** BecomeSellerState (handlers.py:14-17): the three questions of the
      seller-registration dialogue. No step stored means idle. */
  datatype Step = CompanyName | Iin | Description

  /** One key of the dialogue's data dictionary: never written, or written
      with a text that may be absent (a message without text). */
  datatype Slot = Unset | Given(value: Option<string>)

  /** What the conversation storage keeps per user: the current step and the
      collected data. Setting the step keeps the data; clearing resets both. */
  datatype Conversation = Conversation(step: Option<Step>, companyName: Slot, iin: Slot)

  const Idle := Conversation(None, Unset, Unset)

  /** `data.get(key)`: an unwritten key reads as None. */
  function SlotValue(slot: Slot): Option<string>
  {
    match slot
    case Unset => None
    case Given(v) => v
  }

  /** The sender of a message or a button press. */
  datatype Sender = Sender(telegramId: int, username: Option<string>, firstName: Option<string>, lastName: Option<string>)

  /** The exceptions a handler can end in. */
  datatype Fault =
    | IntegrityError   // a NOT NULL or UNIQUE constraint refused the commit
    | KeyError         // a key missing from the dialogue data
    | ValueError       // `int(...)` of text that is not a number
    | AttributeError   // a reply built from an application that was not found

  datatype BecomeSellerReply = NotRegistered | NotABuyer | PendingShown | CollectionStarted

  datatype MessageReply =
    | Welcome(menu: seq<Keyboards.Button>)
    | AskIin
    | AskDescription
    | Submitted
    | Failed(fault: Fault)
    | Unhandled

  /** The admin screen of applications and the keyboard under it: the
      administrator menu for the empty screen, the back button for the list.
      No screen carries an approve or reject button. */
  datatype AdminSellersReply =
    | Forbidden
    | NoApplications(menu: seq<Keyboards.Button>)
    | Applications(rows: seq<SellerRow>, menu: seq<Keyboards.Button>)

  datatype ReviewReply = Reviewed(companyName: string) | ReviewFailed(fault: Fault)

  datatype ProfileReply = UserNotFound | Profile(roleText: string, menu: seq<Keyboards.Button>)

  /** The tax-id step (handlers.py:117): an empty or absent text is stored
      as None, any other text as it is. */
  function IinValue(text: Option<string>): (r: Option<string>)
    ensures r.None? <==> text.None? || text.value == ""
    ensures r.Some? ==> r == text
  {
    if text.Some? && text.value != "" then text else None
  }

  /** The role line of the profile screen (handlers.py:67-71). */
  function RoleText(role: UserRole): (t: string)
    ensures role == User ==> t == "Покупатель"
    ensures role == Seller ==> t == "Продавец"
    ensures role == Admin ==> t == "Администратор"
  {
    match role
    case User => "Покупатель"
    case Seller => "Продавец"
    case Admin => "Администратор"
  }

  predicate StartsWith(s: string, prefix: string)
  {
    |prefix| <= |s| && s[..|prefix|] == prefix
  }

  /** `s.split(sep)[-1]`: the text after the last separator, or all of `s`
      when it holds none. */
  function LastField(s: string, sep: char): (r: string)
    ensures sep !in r
    ensures |r| <= |s| && r == s[|s| - |r|..]
    ensures |r| < |s| ==> s[|s| - |r| - 1] == sep
    decreases |s|
  {
    if |s| == 0 then ""
    else if s[|s| - 1] == sep then ""
    else
      var init := s[..|s| - 1];
      var r := LastField(init, sep);
      assert s[|s| - |r| - 1..] == init[|init| - |r|..] + [s[|s| - 1]];
      r + [s[|s| - 1]]
  }

  /** `int(callback.data.split("_")[-1])` (handlers.py:174, 193); None where
      Python raises ValueError. */
  function SellerIdOf(data: string): Option<int>
  {
    Numerals.ParseInt(LastField(data, '_'))
  }

  /** The id is found exactly when the text after the last '_' (all of the
      data when it has none) is an optional sign followed by digits; an
      unsigned one gives a non-negative id. */
  lemma SellerIdOfDefined(data: string)
    ensures var t := LastField(data, '_');
      && '_' !in t
      && (SellerIdOf(data).Some? <==> Numerals.IsDigits(t) || (|t| > 1 && (t[0] == '-' || t[0] == '+') && Numerals.IsDigits(t[1..])))
      && (SellerIdOf(data).Some? && Numerals.IsDigits(t) ==> SellerIdOf(data).value >= 0)
  {
  }

  /** The callback handlers in the order they are registered; the first
      whose filter matches takes the button press. */
  datatype CallbackRoute =
    | MainMenuRoute | ProfileRoute | BecomeSellerRoute | AdminSellersRoute
    | ApproveRoute | RejectRoute | FavoritesRoute | CartRoute
    | OrderHistoryRoute | RecommendationsRoute | NoRoute

  /** Callback dispatch (handlers.py:45, 57, 82, 144, 172, 191, 206, 212,
      218, 224): exact matches, except the three prefix filters. */
  function RouteCallback(data: string): (r: CallbackRoute)
    ensures r == AdminSellersRoute ==> StartsWith(data, "admin_sellers")
    ensures r == ApproveRoute ==> StartsWith(data, "approve_seller_")
    ensures r == RejectRoute ==> StartsWith(data, "reject_seller_")
  {
    if data == "main_menu" then MainMenuRoute
    else if data == "profile" then ProfileRoute
    else if data == "become_seller" then BecomeSellerRoute
    else if StartsWith(data, "admin_sellers") then AdminSellersRoute
    else if StartsWith(data, "approve_seller_") then ApproveRoute
    else if StartsWith(data, "reject_seller_") then RejectRoute
    else if data == "favorites" then FavoritesRoute
    else if data == "cart" then CartRoute
    else if data == "order_history" then OrderHistoryRoute
    else if data == "recommendations" then RecommendationsRoute
    else NoRoute
  }

  /** Splitting on the separator finds exactly the text written after the
      last separator of the prefix. */
  lemma {:induction false} LastFieldAfterSeparator(prefix: string, t: string, sep: char)
    requires |prefix| > 0 && prefix[|prefix| - 1] == sep
    requires sep !in t
    ensures LastField(prefix + t, sep) == t
    decreases |t|
  {
    var s := prefix + t;
    if |t| == 0 {
      assert s == prefix;
    } else {
      assert s[|s| - 1] == t[|t| - 1];
      assert s[..|s| - 1] == prefix + t[..|t| - 1];
      LastFieldAfterSeparator(prefix, t[..|t| - 1], sep);
      assert t == t[..|t| - 1] + [t[|t| - 1]];
    }
  }

  /** The handler of a button built as prefix + `str(id)` reads back that
      id, whatever prefix ending in '_' the button carries. */
  lemma {:induction false} SellerIdAfterPrefix(prefix: string, sellerId: int)
    requires |prefix| > 0 && prefix[|prefix| - 1] == '_'
    ensures SellerIdOf(prefix + Numerals.FormatInt(sellerId)) == Some(sellerId)
  {
    LastFieldAfterSeparator(prefix, Numerals.FormatInt(sellerId), '_');
    Numerals.ParseFormatRoundTrip(sellerId);
  }

  /** The approve button's data is taken by the approve handler, which
      reads back the id the button was built from. */
  lemma ApproveDataRoute(sellerId: int)
    ensures RouteCallback(Keyboards.ApproveData(sellerId)) == ApproveRoute
    ensures SellerIdOf(Keyboards.ApproveData(sellerId)) == Some(sellerId)
  {
    var data := Keyboards.ApproveData(sellerId);
    assert StartsWith(data, "approve_seller_") && data[0] == 'a' && data[1] == 'p' by {
      assert data[..15] == "approve_seller_";
    }
    assert data != "main_menu" && data != "profile" && data != "become_seller";
    assert !StartsWith(data, "admin_sellers") by {
      assert data[1] != "admin_sellers"[1];
    }
    SellerIdAfterPrefix("approve_seller_", sellerId);
  }

  /** The same for the reject button and the reject handler. */
  lemma RejectDataRoute(sellerId: int)
    ensures RouteCallback(Keyboards.RejectData(sellerId)) == RejectRoute
    ensures SellerIdOf(Keyboards.RejectData(sellerId)) == Some(sellerId)
  {
    var data := Keyboards.RejectData(sellerId);
    assert StartsWith(data, "reject_seller_") && data[0] == 'r' by {
      assert data[..14] == "reject_seller_";
    }
    assert data != "main_menu" && data != "profile" && data != "become_seller";
    assert !StartsWith(data, "admin_sellers") && !StartsWith(data, "approve_seller_") by {
      assert data[0] != "admin_sellers"[0] && data[0] != "approve_seller_"[0];
    }
    SellerIdAfterPrefix("reject_seller_", sellerId);
  }

  /** The buttons of the approval keyboard reach the approve, reject and
      list handlers, and the first two hand back the very id they were
      built from (keyboards.py:74-76 with handlers.py:144, 172-174, 191-193). */
  lemma ApprovalKeyboardRoundTrip(sellerId: int)
    ensures var data := Keyboards.CallbackData(Keyboards.SellerApprovalKeyboard(sellerId));
      && RouteCallback(data[0]) == ApproveRoute && SellerIdOf(data[0]) == Some(sellerId)
      && RouteCallback(data[1]) == RejectRoute && SellerIdOf(data[1]) == Some(sellerId)
      && RouteCallback(data[2]) == AdminSellersRoute
  {
    var kb := Keyboards.SellerApprovalKeyboard(sellerId);
    assert Keyboards.CallbackData(kb) == [Keyboards.ApproveData(sellerId), Keyboards.RejectData(sellerId), "admin_sellers"];
    BackToListRoute();
    ApproveDataRoute(sellerId);
    RejectDataRoute(sellerId);
  }

  /** The back button of the approval keyboard returns to the list. */
  lemma BackToListRoute()
    ensures RouteCallback("admin_sellers") == AdminSellersRoute
  {
    assert "admin_sellers" != "become_seller" by {
      assert "admin_sellers"[0] != "become_seller"[0];
    }
  }

  /** Four buttons of the menus are answered by no handler: the seller's
      "my products" and "sales statistics", and the administrator's
      "all products" and "all orders". */
  lemma UnansweredMenuButtons()
    ensures RouteCallback(Keyboards.MyProductsButton.action.data) == NoRoute
    ensures RouteCallback(Keyboards.SalesStatsButton.action.data) == NoRoute
    ensures RouteCallback(Keyboards.AdminMenu()[1].action.data) == NoRoute
    ensures RouteCallback(Keyboards.AdminMenu()[2].action.data) == NoRoute
  {
    assert "admin_products"[..13][6] != "admin_sellers"[6];
  }

  /** The query of admin_sellers (handlers.py:153-154) and the loop over its
      rows (handlers.py:163-166): every pending application, each once, in
      the order of their keys, and nothing else. */
  method PendingApplications(sellers: map<int, SellerRow>, nextId: int) returns (rows: seq<SellerRow>)
    requires forall k :: k in sellers ==> sellers[k].id == k && 1 <= k < nextId
    ensures forall i :: 0 <= i < |rows| ==> rows[i].id in sellers && sellers[rows[i].id] == rows[i] && rows[i].status == Pending
    ensures forall k :: k in sellers && sellers[k].status == Pending ==> sellers[k] in rows
    ensures forall i, j :: 0 <= i < j < |rows| ==> rows[i].id < rows[j].id
  {
    rows := [];
    var k := 1;
    while k < nextId
      invariant 1 <= k && (k <= nextId || k == 1)
      invariant forall i :: 0 <= i < |rows| ==> rows[i].id in sellers && sellers[rows[i].id] == rows[i] && rows[i].status == Pending
      invariant forall i :: 0 <= i < |rows| ==> rows[i].id < k
      invariant forall j :: j in sellers && j < k && sellers[j].status == Pending ==> sellers[j] in rows
      invariant forall i, j :: 0 <= i < j < |rows| ==> rows[i].id < rows[j].id
    {
      if k in sellers && sellers[k].status == Pending {
        rows := rows + [sellers[k]];
      }
      k := k + 1;
    }
  }

  /** Roles stay as they were, for every user that was there. */
  ghost predicate RolesKept(before: map<int, UserRow>, after: map<int, UserRow>)
  {
    forall k :: k in before ==> k in after && after[k].role == before[k].role
  }

  /** The bot's state: the two tables it writes, the keys the database will
      hand out next, and the conversation storage keyed by Telegram id. */
  class SellerBot {
    const webappUrl: string
    var users: map<int, UserRow>
    var sellers: map<int, SellerRow>
    var nextUserId: int
    var nextSellerId: int
    var conversations: map<int, Conversation>

    /** The table constraints, and: every user with role SELLER has an
        application row (only approval makes a seller). */
    ghost predicate Valid()
      reads this
    {
      && UsersValid(users, nextUserId)
      && SellersValid(sellers, nextSellerId)
      && (forall k :: k in users && users[k].role == Seller ==> HasApplication(sellers, k))
    }

    /** The conversation of a user; one never stored is idle. */
    function ConversationOf(telegramId: int): Conversation
      reads this
    {
      if telegramId in conversations then conversations[telegramId] else Idle
    }

    /** The bot starts over an existing database and an empty conversation
        storage (memory storage does not survive a restart). */
    constructor (webappUrl: string, users: map<int, UserRow>, sellers: map<int, SellerRow>, nextUserId: int, nextSellerId: int)
      requires UsersValid(users, nextUserId) && SellersValid(sellers, nextSellerId)
      requires forall k :: k in users && users[k].role == Seller ==> HasApplication(sellers, k)
      ensures Valid()
      ensures this.webappUrl == webappUrl && this.users == users && this.sellers == sellers
      ensures this.nextUserId == nextUserId && this.nextSellerId == nextSellerId
      ensures conversations == map[]
    {
      this.webappUrl := webappUrl;
      this.users := users;
      this.sellers := sellers;
      this.nextUserId := nextUserId;
      this.nextSellerId := nextSellerId;
      this.conversations := map[];
    }

    /** `select(User).where(User.telegram_id == ...).scalar_one_or_none()`. */
    method FindUser(telegramId: int) returns (r: Option<UserRow>)
      requires Valid()
      ensures r == UserByTelegram(users, telegramId)
      ensures r.Some? ==> r.value.id in users && users[r.value.id] == r.value
    {
      if exists k :: k in users && users[k].telegramId == telegramId {
        var k :| k in users && users[k].telegramId == telegramId;
        r := Some(users[k]);
      } else {
        r := None;
      }
    }

    /** `select(Seller).where(Seller.user_id == ...).scalar_one_or_none()`. */
    method FindApplication(userId: int) returns (r: Option<SellerRow>)
      requires Valid()
      ensures r.None? <==> !HasApplication(sellers, userId)
      ensures r.Some? ==> r.value.id in sellers && sellers[r.value.id] == r.value && r.value.userId == userId
    {
      if exists k :: k in sellers && sellers[k].userId == userId {
        var k :| k in sellers && sellers[k].userId == userId;
        r := Some(sellers[k]);
      } else {
        r := None;
      }
    }

    /** cmd_start (handlers.py:20-42): registers the sender with the default
        role unless a user with that Telegram id exists, whose row is then
        left as it is; answers with the administrator menu for an
        administrator and the main menu otherwise. */
    method Start(from: Sender) returns (menu: seq<Keyboards.Button>)
      requires Valid()
      modifies this`users, this`nextUserId
      ensures Valid()
      ensures old(UserByTelegram(users, from.telegramId)).Some? ==>
        users == old(users) && nextUserId == old(nextUserId)
      ensures old(UserByTelegram(users, from.telegramId)).None? ==>
        && users == old(users)[old(nextUserId) := UserRow(old(nextUserId), from.telegramId, from.username, from.firstName, from.lastName, DefaultRole)]
        && nextUserId == old(nextUserId) + 1
      ensures UserByTelegram(users, from.telegramId).Some?
      ensures menu == if UserByTelegram(users, from.telegramId).value.role == Admin
                      then Keyboards.AdminMenu() else Keyboards.MainMenuWebApp(webappUrl)
    {
      var user := FindUser(from.telegramId);
      var role: UserRole;
      if user.None? {
        var id := nextUserId;
        assert forall k :: k in users ==> users[k].telegramId != from.telegramId;
        var row := UserRow(id, from.telegramId, from.username, from.firstName, from.lastName, DefaultRole);
        users := users[id := row];
        nextUserId := nextUserId + 1;
        assert users[id].telegramId == from.telegramId;
        role := row.role;
        assert UserByTelegram(users, from.telegramId) == Some(row);
      } else {
        role := user.value.role;
      }
      if role == Admin {
        menu := Keyboards.AdminMenu();
      } else {
        menu := Keyboards.MainMenuWebApp(webappUrl);
      }
    }

    /** show_profile (handlers.py:57-79): the role line and the profile menu
        for the role's string; nothing for an unknown sender. */
    method ShowProfile(telegramId: int) returns (reply: ProfileReply)
      requires Valid()
      ensures UserByTelegram(users, telegramId).None? <==> reply == UserNotFound
      ensures reply.Profile? ==>
        var role := UserByTelegram(users, telegramId).value.role;
        && reply.roleText == RoleText(role)
        && |reply.menu| >= 3
        && reply.menu[0] == Keyboards.OrderHistoryButton
        && reply.menu[1] == Keyboards.RecommendationsButton
        && reply.menu[|reply.menu| - 1] == Keyboards.BackToMainMenu
        && (role == User <==> reply.menu[2..|reply.menu| - 1] == [Keyboards.BecomeSellerButton])
        && (role == Seller <==> reply.menu[2..|reply.menu| - 1] == [Keyboards.MyProductsButton, Keyboards.SalesStatsButton])
        && (role == Admin <==> |reply.menu| == 3)
    {
      var user := FindUser(telegramId);
      if user.None? {
        reply := UserNotFound;
      } else {
        var menu := Keyboards.ProfileMenu(user.value.role.Value());
        reply := Profile(RoleText(user.value.role), menu);
      }
    }

    /** become_seller (handlers.py:82-105): refused to an unknown sender
        and to anyone whose role is not USER; a user with a pending
        application is shown that; anyone else starts the dialogue at the
        company-name question, the collected data kept as it was. Neither
        table changes. */
    method BecomeSeller(telegramId: int) returns (reply: BecomeSellerReply)
      requires Valid()
      modifies this`conversations
      ensures Valid()
      ensures var u := UserByTelegram(users, telegramId);
        && (u.None? ==> reply == NotRegistered)
        && (u.Some? && u.value.role != User ==> reply == NotABuyer)
        && (u.Some? && u.value.role == User && HasPendingApplication(sellers, u.value.id) ==> reply == PendingShown)
        && (u.Some? && u.value.role == User && !HasPendingApplication(sellers, u.value.id) ==> reply == CollectionStarted)
      ensures reply == CollectionStarted ==>
        conversations == old(conversations)[telegramId := old(ConversationOf(telegramId)).(step := Some(CompanyName))]
      ensures reply != CollectionStarted ==> conversations == old(conversations)
    {
      var user := FindUser(telegramId);
      if user.None? {
        return NotRegistered;
      }
      if user.value.role != User {
        return NotABuyer;
      }
      var existing := FindApplication(user.value.id);
      if existing.Some? && existing.value.status == Pending {
        return PendingShown;
      }
      assert !HasPendingApplication(sellers, user.value.id);
      conversations := conversations[telegramId := ConversationOf(telegramId).(step := Some(CompanyName))];
      reply := CollectionStarted;
    }

    /** process_company_name (handlers.py:108-112): stores the text as it
        came and moves on to the tax-id question. */
    method ProcessCompanyName(telegramId: int, text: Option<string>) returns (reply: MessageReply)
      requires ConversationOf(telegramId).step == Some(CompanyName)
      modifies this`conversations
      ensures reply == AskIin
      ensures conversations == old(conversations)[telegramId :=
        old(ConversationOf(telegramId)).(step := Some(Iin), companyName := Given(text))]
    {
      var c := ConversationOf(telegramId);
      conversations := conversations[telegramId := c.(companyName := Given(text))];
      conversations := conversations[telegramId := ConversationOf(telegramId).(step := Some(Iin))];
      reply := AskIin;
    }

    /** process_iin (handlers.py:115-119): stores the tax id, None for an
        empty or absent text, and moves on to the description question. */
    method ProcessIin(telegramId: int, text: Option<string>) returns (reply: MessageReply)
      requires ConversationOf(telegramId).step == Some(Iin)
      modifies this`conversations
      ensures reply == AskDescription
      ensures conversations == old(conversations)[telegramId :=
        old(ConversationOf(telegramId)).(step := Some(Description), iin := Given(IinValue(text)))]
    {
      var c := ConversationOf(telegramId);
      conversations := conversations[telegramId := c.(iin := Given(IinValue(text)))];
      conversations := conversations[telegramId := ConversationOf(telegramId).(step := Some(Description))];
      reply := AskDescription;
    }

    /** process_description (handlers.py:122-141). For a registered sender
        it inserts one pending application with the collected company name
        and tax id and the message as description; the dialogue is then
        cleared, and also when the sender is not registered. A missing
        company-name key, a company name that is not text (NOT NULL) or a
        second application of the same user (UNIQUE user_id, whatever the
        first one's status) raise before the dialogue is cleared: nothing
        changes and the dialogue stays at this step. */
    method ProcessDescription(telegramId: int, text: Option<string>) returns (reply: MessageReply)
      requires Valid()
      requires ConversationOf(telegramId).step == Some(Description)
      modifies this`sellers, this`nextSellerId, this`conversations
      ensures Valid()
      ensures var c := old(ConversationOf(telegramId));
              var u := UserByTelegram(users, telegramId);
        && (u.None? ==>
              reply == Submitted && sellers == old(sellers) && nextSellerId == old(nextSellerId)
              && conversations == old(conversations)[telegramId := Idle])
        && (u.Some? && c.companyName == Unset ==>
              reply == Failed(KeyError) && sellers == old(sellers) && nextSellerId == old(nextSellerId)
              && conversations == old(conversations))
        && (u.Some? && c.companyName.Given? && (c.companyName.value.None? || HasApplication(old(sellers), u.value.id)) ==>
              reply == Failed(IntegrityError) && sellers == old(sellers) && nextSellerId == old(nextSellerId)
              && conversations == old(conversations))
        && (u.Some? && c.companyName.Given? && c.companyName.value.Some? && !HasApplication(old(sellers), u.value.id) ==>
              && reply == Submitted
              && sellers == old(sellers)[old(nextSellerId) := SellerRow(old(nextSellerId), u.value.id, c.companyName.value.value,
                                                                        SlotValue(c.iin), text, DefaultSellerStatus, None)]
              && nextSellerId == old(nextSellerId) + 1
              && conversations == old(conversations)[telegramId := Idle])
    {
      var c := ConversationOf(telegramId);
      var user := FindUser(telegramId);
      if user.Some? {
        if c.companyName == Unset {
          return Failed(KeyError);
        }
        var existing := FindApplication(user.value.id);
        if c.companyName.value.None? || existing.Some? {
          return Failed(IntegrityError);
        }
        var id := nextSellerId;
        assert forall k :: k in sellers ==> sellers[k].userId != user.value.id;
        ghost var before := sellers;
        sellers := sellers[id := SellerRow(id, user.value.id, c.companyName.value.value, SlotValue(c.iin), text, DefaultSellerStatus, None)];
        nextSellerId := nextSellerId + 1;
        ApplicationsKept(before, sellers);
      }
      conversations := conversations[telegramId := Idle];
      reply := Submitted;
    }

    /** Message dispatch: `/start` is answered in any dialogue step (its
        handler has no state filter and is registered first) and leaves the
        dialogue where it was; any other message goes to the handler of the
        current step, and is not handled by these handlers when idle. No
        message changes a role. */
    method OnMessage(from: Sender, text: Option<string>) returns (reply: MessageReply)
      requires Valid()
      modifies this
      ensures Valid()
      ensures RolesKept(old(users), users)
      ensures text == Some("/start") ==>
        && conversations == old(conversations) && sellers == old(sellers) && nextSellerId == old(nextSellerId)
        && (old(UserByTelegram(users, from.telegramId)).Some? ==>
              users == old(users) && nextUserId == old(nextUserId))
        && (old(UserByTelegram(users, from.telegramId)).None? ==>
              && users == old(users)[old(nextUserId) := UserRow(old(nextUserId), from.telegramId, from.username, from.firstName, from.lastName, DefaultRole)]
              && nextUserId == old(nextUserId) + 1)
        && UserByTelegram(users, from.telegramId).Some?
        && reply == Welcome(if UserByTelegram(users, from.telegramId).value.role == Admin
                            then Keyboards.AdminMenu() else Keyboards.MainMenuWebApp(webappUrl))
      ensures text != Some("/start") && old(ConversationOf(from.telegramId)).step.None? ==>
        reply == Unhandled && unchanged(this)
      ensures text != Some("/start") ==> users == old(users) && nextUserId == old(nextUserId)
      ensures text != Some("/start") && old(ConversationOf(from.telegramId)).step == Some(CompanyName) ==>
        && reply == AskIin && sellers == old(sellers) && nextSellerId == old(nextSellerId)
        && conversations == old(conversations)[from.telegramId :=
             old(ConversationOf(from.telegramId)).(step := Some(Iin), companyName := Given(text))]
      ensures text != Some("/start") && old(ConversationOf(from.telegramId)).step == Some(Iin) ==>
        && reply == AskDescription && sellers == old(sellers) && nextSellerId == old(nextSellerId)
        && conversations == old(conversations)[from.telegramId :=
             old(ConversationOf(from.telegramId)).(step := Some(Description), iin := Given(IinValue(text)))]
      ensures text != Some("/start") && old(ConversationOf(from.telegramId)).step == Some(Description) ==>
        var c := old(ConversationOf(from.telegramId));
        var u := UserByTelegram(users, from.telegramId);
        && (u.None? ==>
              reply == Submitted && sellers == old(sellers) && nextSellerId == old(nextSellerId)
              && conversations == old(conversations)[from.telegramId := Idle])
        && (u.Some? && c.companyName == Unset ==>
              reply == Failed(KeyError) && sellers == old(sellers) && nextSellerId == old(nextSellerId)
              && conversations == old(conversations))
        && (u.Some? && c.companyName.Given? && (c.companyName.value.None? || HasApplication(old(sellers), u.value.id)) ==>
              reply == Failed(IntegrityError) && sellers == old(sellers) && nextSellerId == old(nextSellerId)
              && conversations == old(conversations))
        && (u.Some? && c.companyName.Given? && c.companyName.value.Some? && !HasApplication(old(sellers), u.value.id) ==>
              && reply == Submitted
              && sellers == old(sellers)[old(nextSellerId) := SellerRow(old(nextSellerId), u.value.id, c.companyName.value.value,
                                                                        SlotValue(c.iin), text, DefaultSellerStatus, None)]
              && nextSellerId == old(nextSellerId) + 1
              && conversations == old(conversations)[from.telegramId := Idle])
    {
      if text == Some("/start") {
        var menu := Start(from);
        reply := Welcome(menu);
        return;
      }
      match ConversationOf(from.telegramId).step
      case None =>
        reply := Unhandled;
      case Some(CompanyName) =>
        reply := ProcessCompanyName(from.telegramId, text);
      case Some(Iin) =>
        reply := ProcessIin(from.telegramId, text);
      case Some(Description) =>
        reply := ProcessDescription(from.telegramId, text);
    }

    /** admin_sellers (handlers.py:144-169): refused unless the sender is a
        registered administrator; otherwise every pending application, in
        key order, under the back button, or the empty-list screen under the
        administrator menu. Nothing is written. */
    method AdminSellers(telegramId: int) returns (reply: AdminSellersReply)
      requires Valid()
      ensures var u := UserByTelegram(users, telegramId);
        reply == Forbidden <==> u.None? || u.value.role != Admin
      ensures reply.NoApplications? <==>
        reply != Forbidden && forall k :: k in sellers ==> sellers[k].status != Pending
      ensures reply.NoApplications? ==> reply.menu == Keyboards.AdminMenu()
      ensures reply.Applications? ==> reply.menu == Keyboards.BackKeyboard()
      ensures reply.Applications? ==>
        && |reply.rows| > 0
        && (forall i :: 0 <= i < |reply.rows| ==> reply.rows[i] in sellers.Values && reply.rows[i].status == Pending)
        && (forall k :: k in sellers && sellers[k].status == Pending ==> sellers[k] in reply.rows)
        && (forall i, j :: 0 <= i < j < |reply.rows| ==> reply.rows[i].id < reply.rows[j].id)
    {
      var user := FindUser(telegramId);
      if user.None? || user.value.role != Admin {
        return Forbidden;
      }
      var rows := PendingApplications(sellers, nextSellerId);
      if |rows| == 0 {
        reply := NoApplications(Keyboards.AdminMenu());
      } else {
        assert rows[0].id in sellers && sellers[rows[0].id].status == Pending;
        reply := Applications(rows, Keyboards.BackKeyboard());
      }
    }

    /** approve_seller (handlers.py:172-188), reached by callback data that
        starts with `approve_seller_`. The caller's role is not checked, nor
        the application's status. A found application becomes APPROVED and
        its owner, if the row exists, becomes a SELLER, in one commit;
        `approved_at` is left as it was. An unparsable id, or an id of no
        application, changes nothing and the reply fails. */
    method ApproveSeller(data: string) returns (reply: ReviewReply)
      requires Valid()
      requires StartsWith(data, "approve_seller_")
      modifies this`users, this`sellers
      ensures Valid()
      ensures SellerIdOf(data).None? ==>
        reply == ReviewFailed(ValueError) && users == old(users) && sellers == old(sellers)
      ensures SellerIdOf(data).Some? && SellerIdOf(data).value !in old(sellers) ==>
        reply == ReviewFailed(AttributeError) && users == old(users) && sellers == old(sellers)
      ensures SellerIdOf(data).Some? && SellerIdOf(data).value in old(sellers) ==>
        var s := old(sellers)[SellerIdOf(data).value];
        && reply == Reviewed(s.companyName)
        && sellers == old(sellers)[s.id := s.(status := Approved)]
        && users == if s.userId in old(users) then old(users)[s.userId := old(users)[s.userId].(role := Seller)] else old(users)
    {
      var id := SellerIdOf(data);
      if id.None? {
        return ReviewFailed(ValueError);
      }
      if id.value !in sellers {
        return ReviewFailed(AttributeError);
      }
      var seller := sellers[id.value];
      assert seller.id == id.value;
      ghost var before := sellers;
      sellers := sellers[id.value := seller.(status := Approved)];
      ApplicationsKept(before, sellers);
      if seller.userId in users {
        assert sellers[id.value].userId == seller.userId;
        users := users[seller.userId := users[seller.userId].(role := Seller)];
      }
      reply := Reviewed(seller.companyName);
    }

    /** reject_seller (handlers.py:191-203): like approval, but the status
        becomes REJECTED and no role changes. */
    method RejectSeller(data: string) returns (reply: ReviewReply)
      requires Valid()
      requires StartsWith(data, "reject_seller_")
      modifies this`sellers
      ensures Valid()
      ensures SellerIdOf(data).None? ==> reply == ReviewFailed(ValueError) && sellers == old(sellers)
      ensures SellerIdOf(data).Some? && SellerIdOf(data).value !in old(sellers) ==>
        reply == ReviewFailed(AttributeError) && sellers == old(sellers)
      ensures SellerIdOf(data).Some? && SellerIdOf(data).value in old(sellers) ==>
        var s := old(sellers)[SellerIdOf(data).value];
        reply == Reviewed(s.companyName) && sellers == old(sellers)[s.id := s.(status := Rejected)]
    {
      var id := SellerIdOf(data);
      if id.None? {
        return ReviewFailed(ValueError);
      }
      if id.value !in sellers {
        return ReviewFailed(AttributeError);
      }
      var seller := sellers[id.value];
      ghost var before := sellers;
      sellers := sellers[id.value := seller.(status := Rejected)];
      ApplicationsKept(before, sellers);
      reply := Reviewed(seller.companyName);
    }
  }
}
