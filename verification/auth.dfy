/** The session store shared by every page: the signed-in user and the
    shopping cart, each mirrored into the browser's key/value storage under
    the keys "user" and "cart" so that a reload can restore them. Stored
    values are kept as the values themselves; their JSON text is not
    modelled. */
module Auth {
  import opened Opt
  import Catalog

  /** A signed-in user as the login and registration pages build it. */
  datatype Identity = Identity(id: int, name: string, email: string, role: string)

  /** What can be stored under a storage key. */
  datatype Value = UserValue(user: Identity) | CartValue(items: seq<Catalog.Product>)

  /** What submitting the sign-in or registration form leads to: a user to
      sign in and the page to go to, or a message to show. */
  datatype Outcome =
    | SignedIn(user: Identity, destination: string)
    | Refused(message: string)

  const UserKey := "user"
  const CartKey := "cart"

  /** Storage whose two keys, when present, hold values of the right kind. */
  predicate WellShaped(storage: map<string, Value>)
  {
    && (UserKey in storage ==> storage[UserKey].UserValue?)
    && (CartKey in storage ==> storage[CartKey].CartValue?)
  }

  /** The two keys of the session removed from the storage. */
  function Cleared(storage: map<string, Value>): (r: map<string, Value>)
    ensures UserKey !in r && CartKey !in r
    ensures forall k :: k in storage && k != UserKey && k != CartKey ==> k in r && r[k] == storage[k]
    ensures forall k :: k in r ==> k in storage
  {
    storage - {UserKey, CartKey}
  }

  /** Clearing twice is clearing once: signing out again changes nothing. */
  lemma ClearedIdempotent(storage: map<string, Value>)
    ensures Cleared(Cleared(storage)) == Cleared(storage)
  {
  }

  /** Adding the same product twice leaves two more copies of it. */
  lemma {:induction false} AppendTwice(cart: seq<Catalog.Product>, p: Catalog.Product)
    ensures multiset((cart + [p]) + [p])[p] == multiset(cart)[p] + 2
    ensures ((cart + [p]) + [p])[..|cart|] == cart
  {
    assert (cart + [p]) + [p] == cart + [p, p];
  }

  /** The provider's state: the user (`None` for signed out), the cart, and
      the storage it writes through to. */
  class AuthProvider {
    var user: Option<Identity>
    var cart: seq<Catalog.Product>
    var storage: map<string, Value>

    /** Memory and storage agree: a user exactly when "user" is stored,
        and the stored cart, when there is one, is the cart. */
    ghost predicate Synced()
      reads this
    {
      && (user.None? <==> UserKey !in storage)
      && (user.Some? ==> storage[UserKey] == UserValue(user.value))
      && (CartKey in storage ==> storage[CartKey] == CartValue(cart))
      && (CartKey !in storage ==> cart == [])
    }

    /** Mounting the provider: starts signed out with an empty cart, then
        restores the user and the cart from storage when they are there. */
    constructor(stored: map<string, Value>)
      ensures storage == stored
      ensures user == if UserKey in stored && stored[UserKey].UserValue? then Some(stored[UserKey].user) else None
      ensures cart == if CartKey in stored && stored[CartKey].CartValue? then stored[CartKey].items else []
      ensures WellShaped(stored) ==> Synced()
    {
      storage := stored;
      user := None;
      cart := [];
      if UserKey in stored && stored[UserKey].UserValue? {
        user := Some(stored[UserKey].user);
      }
      if CartKey in stored && stored[CartKey].CartValue? {
        cart := stored[CartKey].items;
      }
    }

    /** Signs `u` in and stores it; the cart is left alone. */
    method Login(u: Identity)
      modifies this
      ensures user == Some(u)
      ensures storage == old(storage)[UserKey := UserValue(u)]
      ensures cart == old(cart)
      ensures old(Synced()) ==> Synced()
    {
      user := Some(u);
      storage := storage[UserKey := UserValue(u)];
    }

    /** Signs out, empties the cart and removes both keys. */
    method Logout()
      modifies this
      ensures user == None && cart == []
      ensures storage == Cleared(old(storage))
      ensures Synced()
    {
      user := None;
      cart := [];
      storage := storage - {UserKey, CartKey};
    }

    /** Appends `product` to the cart and stores the new cart. */
    method AddToCart(product: Catalog.Product)
      modifies this
      ensures cart == old(cart) + [product]
      ensures storage == old(storage)[CartKey := CartValue(cart)]
      ensures user == old(user)
      ensures old(Synced()) ==> Synced()
    {
      var updatedCart := cart + [product];
      cart := updatedCart;
      storage := storage[CartKey := CartValue(updatedCart)];
    }
  }

  /** Signing out twice leaves the same state as signing out once. */
  method LogoutTwice(session: AuthProvider)
    modifies session
    ensures session.user == None && session.cart == []
    ensures session.storage == Cleared(old(session.storage))
  {
    session.Logout();
    ghost var once := session.storage;
    session.Logout();
    ClearedIdempotent(once);
  }
}
