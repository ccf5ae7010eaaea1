/** The relational schema of the marketplace: the two enums, the four records
    the handlers touch, their column defaults and the constraints the tables
    keep (database/models.py). Tables are maps from primary key to row. */
module Models {

  datatype Option<+T> = None | Some(value: T)

  /** UserRole (models.py:10-13). */
  datatype UserRole = User | Seller | Admin {
    /** The string the enum member stands for (`role.value`). */
    function Value(): string {
      match this
      case User => "user"
      case Seller => "seller"
      case Admin => "admin"
    }
  }

  /** SellerStatus (models.py:16-19). */
  datatype SellerStatus = Pending | Approved | Rejected {
    function Value(): string {
      match this
      case Pending => "pending"
      case Approved => "approved"
      case Rejected => "rejected"
    }
  }

  /** `UserRole(s)`: looking a role up by its value, the inverse of the
      value string show_profile hands to the profile menu. Exactly the three
      values name a role. */
  function RoleOfValue(s: string): (r: Option<UserRole>)
    ensures r.Some? ==> r.value.Value() == s
    ensures r.None? <==> forall role: UserRole :: role.Value() != s
  {
    if s == "user" then Some(User)
    else if s == "seller" then Some(Seller)
    else if s == "admin" then Some(Admin)
    else None
  }

  /** `SellerStatus(s)`: the same for the application status. */
  function StatusOfValue(s: string): (r: Option<SellerStatus>)
    ensures r.Some? ==> r.value.Value() == s
    ensures r.None? <==> forall status: SellerStatus :: status.Value() != s
  {
    if s == "pending" then Some(Pending)
    else if s == "approved" then Some(Approved)
    else if s == "rejected" then Some(Rejected)
    else None
  }

  /** Column defaults (models.py:37, 54, 126). */
  const DefaultRole: UserRole := User
  const DefaultSellerStatus: SellerStatus := Pending
  const DefaultQuantity: int := 1

  /** A `users` row; `created_at` is not modelled. */
  datatype UserRow = UserRow(
    id: int,
    telegramId: int,
    username: Option<string>,
    firstName: Option<string>,
    lastName: Option<string>,
    role: UserRole)

  /** A `sellers` row. `company_name` is NOT NULL, so it is a plain string;
      `approved_at` is an opaque timestamp that may be null;
      `commission_rate` and `created_at` are not modelled. */
  datatype SellerRow = SellerRow(
    id: int,
    userId: int,
    companyName: string,
    iin: Option<string>,
    description: Option<string>,
    status: SellerStatus,
    approvedAt: Option<int>)

  /** A `favorites` row. */
  datatype FavoriteRow = FavoriteRow(id: int, userId: int, productId: int)

  /** A `cart_items` row. */
  datatype CartItemRow = CartItemRow(id: int, userId: int, productId: int, quantity: int)

  /** The `users` table: keyed by its primary key, every key below the next
      key to hand out, and `telegram_id` UNIQUE (models.py:32-33). */
  ghost predicate UsersValid(users: map<int, UserRow>, nextId: int)
  {
    && 1 <= nextId
    && (forall k :: k in users ==> users[k].id == k && 1 <= k < nextId)
    && (forall a, b :: a in users && b in users && users[a].telegramId == users[b].telegramId ==> a == b)
  }

  /** The `sellers` table: keyed by its primary key and `user_id` UNIQUE,
      so at most one application per user whatever its status
      (models.py:49-50). The foreign key to `users` is declared but SQLite
      does not enforce it by default, so it is not assumed. */
  ghost predicate SellersValid(sellers: map<int, SellerRow>, nextId: int)
  {
    && 1 <= nextId
    && (forall k :: k in sellers ==> sellers[k].id == k && 1 <= k < nextId)
    && (forall a, b :: a in sellers && b in sellers && sellers[a].userId == sellers[b].userId ==> a == b)
  }

  /** Whether the user has an application row at all. */
  ghost predicate HasApplication(sellers: map<int, SellerRow>, userId: int)
  {
    exists k :: k in sellers && sellers[k].userId == userId
  }

  /** Whether the user has an application row in status `pending`. */
  ghost predicate HasPendingApplication(sellers: map<int, SellerRow>, userId: int)
  {
    exists k :: k in sellers && sellers[k].userId == userId && sellers[k].status == Pending
  }

  /** The row of the user with the given Telegram id, if there is one
      (`select(User).where(User.telegram_id == ...)`). */
  ghost function UserByTelegram(users: map<int, UserRow>, telegramId: int): (r: Option<UserRow>)
    ensures r.Some? <==> exists k :: k in users && users[k].telegramId == telegramId
    ensures r.Some? ==> r.value in users.Values && r.value.telegramId == telegramId
  {
    if exists k :: k in users && users[k].telegramId == telegramId then
      var k :| k in users && users[k].telegramId == telegramId;
      Some(users[k])
    else
      None
  }

  /** An update that keeps every application row and its owner keeps every
      user's application: nothing in the handlers deletes one. */
  lemma ApplicationsKept(before: map<int, SellerRow>, after: map<int, SellerRow>)
    requires forall k :: k in before ==> k in after && after[k].userId == before[k].userId
    ensures forall u :: HasApplication(before, u) ==> HasApplication(after, u)
  {
    forall u | HasApplication(before, u)
      ensures HasApplication(after, u)
    {
      var k :| k in before && before[k].userId == u;
      assert k in after && after[k].userId == u;
    }
  }
}
