# StarssGifts marketplace core in Dafny

This project models the core of StarssGifts, a Telegram marketplace. It has three parts:

- **Bot handlers** (`bot/handlers.py`). A user registers with `/start` and applies to become a seller through a three-question dialogue: company name, tax id (IIN), description. An administrator lists pending applications; separate callback handlers approve or reject an application by id. The model is the class `Handlers.SellerBot`. It holds the `users` and `sellers` tables as maps from primary key to row, the next keys the database will hand out, and the dialogue framework's per-user conversation storage. Callback dispatch is the function `Handlers.RouteCallback`.
- **Keyboards** (`bot/keyboards.py`). These are the inline keyboards attached to the replies. Each is modelled as its sequence of buttons. The profile menu is built by appends, so it is a method.
- **Web shop**. The endpoints for favourites and the cart (`webapp/app.py`) are the class `WebApp.WebStore` over the `favorites` and `cart_items` tables. The shop page script (`static/app.js`) is the class `Client.ShopPage`. It keeps the page's favourites list and cart between requests and talks to one `WebStore`.

The record types, enums and column defaults are in `Models` (`database/models.py`). Python's `str(int)` and `int(str)`, as used for the approval buttons' callback data, are in `Numerals`. `Scenarios` walks through example runs that follow from the contracts alone:

- registration without a tax id;
- re-application after a rejection;
- approving twice; approving and then rejecting;
- add-then-decrement and toggle-twice on a page;
- a negative quantity accepted by the cart endpoint, which the owner's page then can only remove.

Main properties proved:

- Every approve or reject button of the approval keyboard reaches its own handler, which reads back the same id (`ApprovalKeyboardRoundTrip`, with `int(str(n)) == n`). No screen of the bot shows that keyboard, though (see below).
- Every handler keeps two table invariants:
  - `telegram_id` is unique, and `sellers.user_id` is unique;
  - every SELLER has an application row.
- No message changes a role.
- The cart and favourites endpoints keep one row per (user, product) pair, even though the schema does not enforce it.
- Each cart or favourites endpoint changes exactly one pair (or one user's pairs), and no other user's view.
- A page that is in step with the server stays in step after each action.
- `updateCart` never leaves a quantity below one.

Where the documented behaviour and the code differ, the model follows the code:

- A rejected applicant can start the dialogue again. The final insert always fails on the UNIQUE `sellers.user_id`, so nothing is stored and the dialogue stays at the description step.
- Rejecting an already approved application sets its status to REJECTED but leaves the user a SELLER. The invariant that is kept is "every SELLER has an application row", not "every SELLER is approved".
- The approve and reject handlers do not check the caller's role or the application's status.
- For an id with no application, approve and reject change nothing, and building the reply raises AttributeError.
- `approved_at` is never set.
- No handler attaches the approval keyboard: `get_seller_approval_keyboard` is imported (bot/handlers.py:9) but never called. The application list comes with the back button and the empty screen with the administrator menu (bot/handlers.py:157, 168). So `approve_seller` and `reject_seller` are reached only by callback data that no keyboard of the bot sends. `AdminSellers` states these menus.
- The web endpoints store the Telegram id the page sends as `user_id`, not a `users` key. SQLite does not enforce the foreign key by default, so user keys in `WebApp` are opaque integers.

## Model

| member | source | states |
|---|---|---|
| Models.RoleOfValue | database/models.py:10-13 | exactly "user", "seller" and "admin" name a role, and the role found has that value |
| Models.StatusOfValue | database/models.py:16-19 | exactly "pending", "approved" and "rejected" name a status, and the status found has that value |
| Models.UserByTelegram | database/models.py:32-33 | the lookup by telegram_id finds a row iff some row has that Telegram id, and the row found is in the table with that id |
| Models.ApplicationsKept | bot/handlers.py:179-185 | an update that keeps every application row and its owner keeps every user's application |
| Numerals.FormatInt | bot/keyboards.py:74-75 | `str(n)` is digits, preceded by '-' exactly for negative n, and never contains '_' |
| Numerals.ParseInt | bot/handlers.py:174 | `int(s)` succeeds iff s is an optional sign followed by ASCII digits; an unsigned numeral gives a non-negative value |
| Numerals.FormatNatRoundTrip | bot/keyboards.py:74-75 | the digits of `str(n)` for n >= 0 have value n |
| Numerals.ParseFormatRoundTrip | bot/keyboards.py:74-75 | `int(str(n)) == n` for every integer n |
| Keyboards.CallbackData | bot/keyboards.py:27-88 | a keyboard's callback data is at most one entry per button, and exactly one per button when none opens the web app |
| Keyboards.MainMenuWebApp | bot/keyboards.py:27-39 | four buttons: the shop web app at the configured URL, then callbacks favorites, cart, profile |
| Keyboards.ProfileMenu | bot/keyboards.py:42-56 | order history and recommendations first, back last; become_seller iff role "user"; my_products and sales_stats iff role "seller"; nothing in between for any other role |
| Keyboards.AdminMenu | bot/keyboards.py:59-68 | callbacks admin_sellers, admin_products, admin_orders, main_menu |
| Keyboards.SellerApprovalKeyboard | bot/keyboards.py:71-79 | callbacks approve_seller_{id}, reject_seller_{id}, admin_sellers |
| Keyboards.BackKeyboard | bot/keyboards.py:82-88 | exactly one button, with the main_menu callback |
| Handlers.IinValue | bot/handlers.py:117 | the stored tax id is None iff the text is absent or empty, and is the text otherwise |
| Handlers.RoleText | bot/handlers.py:67-71 | the profile's role line for each of the three roles |
| Handlers.LastField | bot/handlers.py:174 | `s.split(sep)[-1]` is a suffix of s without sep, preceded by sep when it is not all of s |
| Handlers.RouteCallback | bot/handlers.py:45-224 | the admin_sellers, approve and reject handlers take only data that starts with their prefix |
| Handlers.SellerIdOfDefined | bot/handlers.py:174 | `int(data.split("_")[-1])` succeeds iff the text after the last '_' is an optional sign followed by digits (otherwise ValueError); that text holds no '_', and an unsigned one gives a non-negative id |
| Handlers.LastFieldAfterSeparator | bot/handlers.py:174 | splitting prefix + t, where the prefix ends in the separator and t has none, gives back t |
| Handlers.SellerIdAfterPrefix | bot/handlers.py:174 | the id parsed from a prefix ending in '_' followed by `str(n)` is n |
| Handlers.ApproveDataRoute | bot/keyboards.py:74 | the approve button's data reaches approve_seller, not an earlier handler, and that handler reads back the id |
| Handlers.RejectDataRoute | bot/keyboards.py:75 | the reject button's data reaches reject_seller, not an earlier handler, and that handler reads back the id |
| Handlers.ApprovalKeyboardRoundTrip | bot/keyboards.py:71-79 | the three approval buttons reach approve, reject and the list; approve and reject read back exactly the seller id the keyboard was built from |
| Handlers.UnansweredMenuButtons | bot/keyboards.py:51-64 | my_products, sales_stats, admin_products and admin_orders reach no handler |
| Handlers.PendingApplications | bot/handlers.py:153-166 | every pending application, each once, in increasing key order, and nothing else |
| Handlers.SellerBot.constructor | bot/handlers.py:14-17 | the bot starts over valid tables with an empty conversation storage, so every dialogue is idle |
| Handlers.SellerBot.FindUser | bot/handlers.py:24-25 | the row with the sender's Telegram id, if any (at most one exists) |
| Handlers.SellerBot.FindApplication | bot/handlers.py:95-96 | the user's application row iff the user has one |
| Handlers.SellerBot.Start | bot/handlers.py:20-42 | an unknown sender is inserted with the default role and the next key, and a known one is left alone; the admin menu iff the user is an administrator, the web-app main menu otherwise; invariants kept |
| Handlers.SellerBot.ShowProfile | bot/handlers.py:57-79 | not found iff no row; otherwise the role line and the profile menu for that role: order history, recommendations, the role's buttons, back |
| Handlers.SellerBot.BecomeSeller | bot/handlers.py:82-105 | unknown sender, a role other than USER, a pending application, or the dialogue started at the company name with the collected data kept; only the last case changes the conversation |
| Handlers.SellerBot.ProcessCompanyName | bot/handlers.py:108-112 | stores the text, even an absent one, and moves to the tax-id step |
| Handlers.SellerBot.ProcessIin | bot/handlers.py:115-119 | stores IinValue of the text and moves to the description step |
| Handlers.SellerBot.ProcessDescription | bot/handlers.py:122-141 | unknown sender: dialogue cleared; missing key: KeyError; absent company name or an existing application: IntegrityError, with nothing changed; otherwise one pending row with the collected data and the dialogue cleared |
| Handlers.SellerBot.OnMessage | bot/handlers.py:20-141 | `/start` is answered in every step with Start's user insert and menu, and leaves the dialogue as it was; other messages get the current step's handler's full outcome (including the description step's inserted row and its error cases) and are unhandled when idle; the id counters change only where the step's handler inserts a row; no role changes; invariants kept |
| Handlers.SellerBot.AdminSellers | bot/handlers.py:144-169 | forbidden iff the sender is not a registered administrator; the empty screen under the administrator menu iff nothing is pending; otherwise every pending application in key order under the back button; never an approve or reject button |
| Handlers.SellerBot.ApproveSeller | bot/handlers.py:172-188 | unparsable id: ValueError; unknown id: AttributeError; in both cases nothing changes; otherwise the status becomes APPROVED and the owner, if present, becomes SELLER; invariants kept |
| Handlers.SellerBot.RejectSeller | bot/handlers.py:191-203 | the same error cases; otherwise the status becomes REJECTED and the users table is untouched |
| WebApp.CartOfRows | database/models.py:120-126 | every cart row shows in the cart with its quantity, and every pair of the cart comes from a row |
| WebApp.FavoritesOfInsert | webapp/app.py:105-107 | inserting a row for a new pair keeps pairs unique and adds exactly that pair |
| WebApp.FavoritesOfRemove | webapp/app.py:123-125 | deleting a row removes exactly its pair |
| WebApp.CartOfInsert | webapp/app.py:144-146 | inserting a row for a new pair keeps pairs unique and sets exactly that pair to the row's quantity |
| WebApp.CartOfUpdate | webapp/app.py:142-143 | changing a row's quantity changes exactly its pair's quantity |
| WebApp.CartOfRemove | webapp/app.py:163-165 | deleting a row removes exactly its pair |
| WebApp.CartOfWithoutUser | webapp/app.py:175-183 | deleting every row of a user removes that user's pairs and no other pair |
| WebApp.WebStore.constructor | database/models.py:108-126 | empty favourites and cart tables satisfy the table invariants |
| WebApp.WebStore.FindFavorite | webapp/app.py:99-102 | finds a row iff the pair is a favourite, and the row found holds the pair |
| WebApp.WebStore.FindCartItem | webapp/app.py:137-140 | finds a row iff the pair is in the cart; none found means no row holds the pair |
| WebApp.WebStore.AddFavorite | webapp/app.py:93-109 | already_exists iff the pair was present, with nothing changed; otherwise one new row; the pairs become old + {pair}; pairs stay unique |
| WebApp.WebStore.RemoveFavorite | webapp/app.py:112-127 | always success; the pairs become old - {pair}; every other row is kept as it was |
| WebApp.WebStore.AddToCart | webapp/app.py:130-149 | a present pair's quantity grows by the amount (default 1), with no new row; an absent pair gets a new row with the amount under the next key; every other row is kept at its key |
| WebApp.WebStore.RemoveFromCart | webapp/app.py:152-167 | the pair leaves the cart; every other row is kept as it was |
| WebApp.WebStore.ClearCart | webapp/app.py:170-184 | exactly the user's rows are deleted; the cart becomes the old cart without that user's pairs |
| Client.ClientUserId | static/app.js:2 | the Telegram id when present and non-zero, else 123456; never 0 |
| Client.UserFavorites | webapp/app.py:46-66 | the products `get_favorites` returns for a user are exactly those of the user's favourite pairs |
| Client.UserCart | webapp/app.py:69-90 | `get_cart` for a user holds a product iff the user's pair is in the cart, with that pair's quantity |
| Client.UserCartSet | webapp/app.py:69-90 | setting one pair's quantity sets that product in its user's cart view, the rest of the view unchanged |
| Client.UserCartAdd | webapp/app.py:138-146 | adding an amount to one pair adds it to that product in its user's view |
| Client.UserCartSetElsewhere | webapp/app.py:69-90 | setting one pair's quantity leaves every other user's cart view unchanged |
| Client.UserCartRemove | webapp/app.py:69-90 | removing one pair removes exactly that product from its user's view |
| Client.UserCartRemoveElsewhere | webapp/app.py:69-90 | removing one pair leaves every other user's cart view unchanged |
| Client.UserCartClear | webapp/app.py:69-90 | after clearing a user, that user's view is empty |
| Client.UserCartClearElsewhere | webapp/app.py:69-90 | clearing a user leaves every other user's cart view unchanged |
| Client.UserFavoritesChange | webapp/app.py:46-66 | adding or removing one favourite pair adds or removes exactly that product in its user's view |
| Client.UserFavoritesChangeElsewhere | webapp/app.py:46-66 | adding or removing one favourite pair leaves every other user's view unchanged |
| Client.UpdateRequest | static/app.js:125-140 | no request iff the product is not in the page's cart; removal iff the new quantity would be at most 0; otherwise an addition of the change |
| Client.UpdateKeepsQuantitiesPositive | static/app.js:125-140 | after updateCart, every quantity is at least one when it was before |
| Client.UpdateChangesOneProduct | static/app.js:125-140 | updateCart keeps the product iff its new quantity is at least one, then with that quantity, and leaves every other product as it was |
| Client.ShopPage.constructor | static/app.js:1-6 | user id from ClientUserId, and empty favourites and cart |
| Client.ShopPage.LoadFavorites | static/app.js:22-27 | the page's favourites become the user's favourites on the server |
| Client.ShopPage.LoadCart | static/app.js:29-34 | the page's cart becomes the user's cart on the server |
| Client.ShopPage.Load | static/app.js:8-13 | after loading, the page is in step with the server |
| Client.ShopPage.PostAdd | static/app.js:132-137 | the server's pair grows by the amount or is created with it; the page reloads, stays in step, and changes only that product |
| Client.ShopPage.AddToCart | static/app.js:106-114 | one more of the product on the server and on an in-step page; quantities stay positive |
| Client.ShopPage.RemoveFromCart | static/app.js:116-123 | the product leaves the server cart and the in-step page's cart |
| Client.ShopPage.UpdateCart | static/app.js:125-140 | nothing for a product not shown; removal when the new quantity is at most 0; otherwise adds the change; after any request the page's cart is reloaded from the server; an in-step page stays in step and keeps quantities positive |
| Client.ShopPage.ToggleFavorite | static/app.js:142-154 | the server's favourite pair flips according to the page's list; an in-step page's favourites flip that product only |
| Client.ShopPage.Checkout | static/app.js:168-184 | an empty page cart changes nothing; otherwise the server deletes exactly the user's cart rows and the page's cart reloads empty; other users' carts stay |

## Left out

- I/O, the network and `async`: each request and its reload are one atomic step. In `checkout` the clear is not awaited and the popup shows first. Interleaving with other clients is not modelled.
- Concurrent requests: two simultaneous adds of a new pair would insert two rows, since no UNIQUE constraint exists. The one-row-per-pair invariant holds only for requests run one at a time.
- Floating point: `price`, `commission_rate` and the cart totals are not modelled.
- Timestamps: `created_at`, `approved_at` contents and `strftime` are not modelled.
- The catalog, products and orders (`Product`, `Order`, `OrderItem`, `/catalog`, `loadCatalog`). The page's views assume every favourite and cart product exists, although the endpoints join with `products` and would drop rows whose product is missing; `get_favorites` also joins `sellers` (webapp/app.py:51) and would drop a favourite whose product's seller is missing.
- DOM rendering, popups and `showSection`. The exact reply texts are modelled as reply outcomes; of the texts, only the role line is kept.
- Reply keyboards: only those of `Start`, `ShowProfile` and `AdminSellers` are modelled. The keyboards attached by become_seller (bot/handlers.py:99, 104), process_description (141), approve_seller (187) and reject_seller (202) are not part of `BecomeSellerReply`, `MessageReply` and `ReviewReply`.
- `get_main_menu` (bot/keyboards.py:14-24) is a reply keyboard that no handler uses.
- The order of the pending applications: the query at bot/handlers.py:153 has no ORDER BY, so the source promises no order. The model fixes increasing key order, the order of a plain table scan.
- `show_main_menu` (bot/handlers.py:45-54) is modelled only as a route. It picks the administrator menu or the web-app main menu by the stored role, the same choice `SellerBot.Start` makes and states.
- The stub handlers for favourites, cart, order history and recommendations (bot/handlers.py:206-227) are modelled only as routes, because they only send fixed texts.
- The 64-byte limit on callback data.
- Numerals.ParseInt: Python's `int()` also accepts surrounding whitespace, underscores between digits and non-ASCII digits. The model rejects these; data split on '_' never holds an underscore.
- JSON bodies with a missing or ill-typed key: a null `quantity` would raise TypeError on an existing row. A key that is present is modelled as `Some`; a missing `quantity` is `None`, which means 1.
- Integer width: SQLite's 64-bit integers and JavaScript numbers are modelled as unbounded integers.
- Array order: the page's `favorites` and `cart` arrays are modelled as a set and a map, since the script only looks items up by id.
- WebApp.WebStore.ClearCart: it deletes the user's rows in key order rather than in query-result order. Only the final state is stated.
- Handlers.RouteCallback: its contract states only the prefix condition for the three prefix handlers. The exact first-match order is in its body, and the lemmas about the approval buttons rely on it.
- Bot start-up (bot/main.py) and settings (bot/config.py) are not part of this model. `ADMIN_ID` in bot/config.py:9 is read by nothing; the administrator is recognised by the stored role, as the handlers do.
- Database sessions: no middleware is registered and `start_polling` passes no session, yet the handlers take `session: AsyncSession` (bot/handlers.py:21, 83, 123, 145, 173, 192). The model assumes a session over the tables is supplied for each update.
