/** The static site's "mock backend": the registered users, the signed-in user,
    the orders, the cart and the per-user wishlists, which the source keeps as
    JSON under separate local-storage keys. Here they are one record, and each
    operation returns the record it would leave behind. Generated ids and
    timestamps are parameters. */
module StaticStore {
  import opened Common
  import opened Catalogue
  import opened StaticCart
  import opened Orders

  /** A registered user as stored in the users list. */
  datatype User = User(
    id: string,
    name: string,
    email: string,
    phone: string,
    password: string,
    role: string,
    addresses: seq<string>,
    createdAt: string)

  function UserEmail(u: User): string
  {
    u.email
  }

  function UserCredentials(u: User): (string, string)
  {
    (u.email, u.password)
  }

  /** The signed-in user's record (the avatar, always null, is left out). */
  datatype Session = Session(id: string, name: string, email: string, phone: string, role: string, addresses: seq<string>)

  datatype Store = Store(
    users: seq<User>,
    session: Option<Session>,
    orders: seq<Order>,
    cart: seq<StoredLine>,
    wishlists: map<string, seq<ProductId>>)

  /** `role || 'customer'`. */
  function DefaultRole(role: string): (r: string)
    ensures r != ""
    ensures role != "" ==> r == role
    ensures role == "" ==> r == "customer"
  {
    if role == "" then "customer" else role
  }

  /** The session record both sign-in paths build from a stored user. */
  function SessionOf(u: User): Session
  {
    Session(u.id, u.name, u.email, u.phone, DefaultRole(u.role), u.addresses)
  }

  /** The fields a registration form hands over; `role` is "" when missing. */
  datatype Registration = Registration(name: string, email: string, phone: string, password: string, role: string)

  datatype RegisterOutcome = EmailTaken | Registered(user: User)

  /** `registerUser`: refuses an email that is already registered; otherwise
      appends one user (role defaulted, no addresses) and signs them in. */
  function RegisterUser(st: Store, data: Registration, newId: string, createdAt: string): (r: (RegisterOutcome, Store))
    ensures r.0.EmailTaken? <==> exists i :: 0 <= i < |st.users| && st.users[i].email == data.email
    ensures r.0.EmailTaken? ==> r.1 == st
    ensures r.0.Registered? ==>
      && r.0.user == User(newId, data.name, data.email, data.phone, data.password, DefaultRole(data.role), [], createdAt)
      && r.1 == st.(users := st.users + [r.0.user], session := Some(SessionOf(r.0.user)))
  {
    if FindIndex(st.users, UserEmail, data.email) != -1 then (EmailTaken, st)
    else
      var u := User(newId, data.name, data.email, data.phone, data.password, DefaultRole(data.role), [], createdAt);
      (Registered(u), st.(users := st.users + [u], session := Some(SessionOf(u))))
  }

  /** Registration keeps every email registered at most once. */
  lemma RegisterKeepsEmailsUnique(st: Store, data: Registration, newId: string, createdAt: string)
    requires UniqueKeys(st.users, UserEmail)
    ensures UniqueKeys(RegisterUser(st, data, newId, createdAt).1.users, UserEmail)
  {
    var r := RegisterUser(st, data, newId, createdAt);
    if r.0.Registered? {
      AppendFreshUnique(st.users, UserEmail, r.0.user);
    }
  }

  /** `loginUser`: the first user with both the email and the password becomes
      the session; otherwise nothing changes. */
  function LoginUser(st: Store, email: string, password: string): (r: (Option<Session>, Store))
    ensures r.0.None? <==> forall i :: 0 <= i < |st.users| ==> st.users[i].email != email || st.users[i].password != password
    ensures r.0.None? ==> r.1 == st
    ensures r.0.Some? ==> r.1 == st.(session := r.0)
    ensures r.0.Some? ==> exists i :: (0 <= i < |st.users| && st.users[i].email == email && st.users[i].password == password
      && r.0.value == SessionOf(st.users[i])
      && forall j :: 0 <= j < i ==> st.users[j].email != email || st.users[j].password != password)
  {
    var k := FindIndex(st.users, UserCredentials, (email, password));
    if k == -1 then (None, st)
    else (Some(SessionOf(st.users[k])), st.(session := Some(SessionOf(st.users[k]))))
  }

  /** A freshly registered user can sign in with the same email and password,
      and gets the session registration created. */
  lemma RegisterThenLogin(st: Store, data: Registration, newId: string, createdAt: string)
    requires RegisterUser(st, data, newId, createdAt).0.Registered?
    ensures var r := RegisterUser(st, data, newId, createdAt);
      LoginUser(r.1, data.email, data.password).0 == Some(SessionOf(r.0.user))
  {
    var r := RegisterUser(st, data, newId, createdAt);
    var users := r.1.users;
    var k := FindIndex(users, UserCredentials, (data.email, data.password));
    assert users[|st.users|] == r.0.user;
    assert forall i :: 0 <= i < |st.users| ==> users[i].email != data.email;
    assert k == |st.users|;
  }

  /** `getUserOrders`: the stored orders of the signed-in user, in stored order;
      nothing when signed out. */
  function GetUserOrders(st: Store): (r: seq<Order>)
    ensures st.session.None? ==> r == []
    ensures st.session.Some? ==>
      && (forall i :: 0 <= i < |r| ==> r[i] in st.orders && r[i].userId == st.session.value.id)
      && (forall i :: 0 <= i < |st.orders| && st.orders[i].userId == st.session.value.id ==> st.orders[i] in r)
      && Subseq(r, st.orders)
      && |r| == CountKey(st.orders, OrderUserId, st.session.value.id)
  {
    match st.session
    case None => []
    case Some(u) => FilterKey(st.orders, OrderUserId, u.id, true)
  }

  /** The `orderData` spread into a new order. Fields it does not carry are None;
      an `id`, `userId` or `status` it does carry is spread over the generated
      one, and the status is then overwritten again. */
  datatype OrderData = OrderData(
    items: seq<StoredLine>,
    total: int,
    deliveryAddress: string,
    id: Option<string>,
    userId: Option<string>,
    status: Option<OrderStatus>)

  /** `createOrder`: refused when signed out (nothing stored); otherwise appends
      one pending order and empties the cart. The two timestamps come from two
      separate clock reads, so they are separate parameters. */
  function CreateOrder(st: Store, data: OrderData, generatedId: string, createdAt: string, updatedAt: string): (r: (Option<Order>, Store))
    ensures r.0.None? <==> st.session.None?
    ensures r.0.None? ==> r.1 == st
    ensures r.0.Some? ==>
      var o := r.0.value;
      && o.status == Pending
      && o.items == data.items && o.total == data.total && o.deliveryAddress == data.deliveryAddress
      && o.userId == (if data.userId.Some? then data.userId.value else st.session.value.id)
      && o.id == (if data.id.Some? then data.id.value else generatedId)
      && o.createdAt == createdAt && o.updatedAt == updatedAt
      && r.1 == st.(orders := st.orders + [o], cart := [])
  {
    match st.session
    case None => (None, st)
    case Some(u) =>
      var o := Order(
        if data.id.Some? then data.id.value else generatedId,
        if data.userId.Some? then data.userId.value else u.id,
        data.items, data.total, Pending, data.deliveryAddress, createdAt, updatedAt);
      (Some(o), st.(orders := st.orders + [o], cart := []))
  }

  /** An order placed without a `userId` of its own is listed last among the
      signed-in user's orders, after the ones they had. */
  lemma CreateOrderThenList(st: Store, data: OrderData, generatedId: string, createdAt: string, updatedAt: string)
    requires st.session.Some? && data.userId.None?
    ensures var r := CreateOrder(st, data, generatedId, createdAt, updatedAt);
      GetUserOrders(r.1) == GetUserOrders(st) + [r.0.value]
  {
    var r := CreateOrder(st, data, generatedId, createdAt, updatedAt);
    var o := r.0.value;
    FilterKeyAppend(st.orders, [o], OrderUserId, st.session.value.id, true);
    assert FilterKey([o], OrderUserId, st.session.value.id, true) == [o] by {
      assert [o][1..] == [];
    }
  }

  function Ident(id: ProductId): ProductId
  {
    id
  }

  /** `getWishlist`: the signed-in user's list, empty when signed out or never written. */
  function Wishlist(st: Store): seq<ProductId>
  {
    match st.session
    case None => []
    case Some(u) => if u.id in st.wishlists then st.wishlists[u.id] else []
  }

  /** `isInWishlist`. */
  function IsInWishlist(st: Store, id: ProductId): (r: bool)
    ensures r ==> st.session.Some?
    ensures r <==> exists i :: 0 <= i < |Wishlist(st)| && Wishlist(st)[i] == id
  {
    id in Wishlist(st)
  }

  /** `addToWishlist`: succeeds only when signed in and the id is not listed yet,
      and then appends it; otherwise nothing changes. */
  function AddToWishlist(st: Store, id: ProductId): (r: (bool, Store))
    ensures r.0 <==> st.session.Some? && !IsInWishlist(st, id)
    ensures !r.0 ==> r.1 == st
    ensures r.0 ==> Wishlist(r.1) == Wishlist(st) + [id]
    ensures r.0 ==> r.1.wishlists == st.wishlists[st.session.value.id := Wishlist(r.1)]
    ensures r.1.users == st.users && r.1.session == st.session && r.1.orders == st.orders && r.1.cart == st.cart
  {
    match st.session
    case None => (false, st)
    case Some(u) =>
      var list := Wishlist(st);
      if id in list then (false, st)
      else (true, st.(wishlists := st.wishlists[u.id := list + [id]]))
  }

  /** `removeFromWishlist`: when signed in, every occurrence of the id goes and
      the rest keep their order. */
  function RemoveFromWishlist(st: Store, id: ProductId): (r: (bool, Store))
    ensures r.0 <==> st.session.Some?
    ensures !r.0 ==> r.1 == st
    ensures !IsInWishlist(r.1, id)
    ensures r.0 ==> Subseq(Wishlist(r.1), Wishlist(st))
    ensures r.0 ==> |Wishlist(r.1)| == |Wishlist(st)| - CountKey(Wishlist(st), Ident, id)
    ensures r.0 ==> r.1.wishlists == st.wishlists[st.session.value.id := Wishlist(r.1)]
    ensures forall i :: 0 <= i < |Wishlist(st)| && Wishlist(st)[i] != id ==> IsInWishlist(r.1, Wishlist(st)[i])
    ensures r.1.users == st.users && r.1.session == st.session && r.1.orders == st.orders && r.1.cart == st.cart
  {
    match st.session
    case None => (false, st)
    case Some(u) =>
      var list := FilterKey(Wishlist(st), Ident, id, false);
      (true, st.(wishlists := st.wishlists[u.id := list]))
  }

  /** A wishlist without duplicates keeps having none through additions and removals. */
  lemma WishlistStaysDuplicateFree(st: Store, id: ProductId)
    requires UniqueKeys(Wishlist(st), Ident)
    ensures UniqueKeys(Wishlist(AddToWishlist(st, id).1), Ident)
    ensures UniqueKeys(Wishlist(RemoveFromWishlist(st, id).1), Ident)
  {
    if AddToWishlist(st, id).0 {
      AppendFreshUnique(Wishlist(st), Ident, id);
    }
    if st.session.Some? {
      FilterKeyUnique(Wishlist(st), Ident, id, false);
    }
  }

  /** `clearCart`: the stored cart is gone, so the cart reads back empty. */
  function ClearCart(st: Store): (r: Store)
    ensures r.cart == [] && CartCount(r.cart) == 0 && CartTotal(r.cart) == 0
    ensures r.(cart := st.cart) == st
  {
    st.(cart := [])
  }
}
