/**
 * The store of src/store.js: the cart slice preloaded from storage, the
 * dispatch of a cart action through an Immer-style draft, and the subscriber
 * that mirrors the cart into storage. A published cart slice is an object
 * (`CartState`), so "the cart reference did not change" is Dafny reference
 * equality: a reducer that modifies nothing leaves the very same object.
 */
module Store {
  import opened Wrappers
  import opened CartSlice
  import opened Storage
  import CartProperties

  /** `PERSIST_KEY`: the only key the store reads, writes or removes. */
  const PersistKey := "cart"

  /** The cart slice object of the store's state, frozen once published. */
  class CartState {
    const value: Cart

    constructor (value: Cart)
      ensures this.value == value
    {
      this.value := value;
    }
  }

  /** The persisted record mirrors the cart: present exactly when the cart has items, and then the cart itself. */
  ghost predicate Mirrors(entries: map<string, Entry>, c: Cart) {
    var k := StorageKey(PersistKey);
    if c.items == [] then k !in entries else k in entries && entries[k] == Serialized(c)
  }

  class Store {
    /** `store.getState().cart`. */
    var cart: CartState
    /** The subscriber's `currentCart`: the cart reference it saw last. */
    var currentCart: CartState
    const storage: LocalStorage

    /** Creating the store: the cart slice is `loadState("cart")` when that gives a record, else the empty cart. */
    constructor (storage: LocalStorage, readFault: bool)
      ensures this.storage == storage
      ensures fresh(cart) && currentCart == cart
      ensures cart.value == if readFault then InitialCart else Lookup(storage.entries, PersistKey).GetOr(InitialCart)
      ensures storage.entries == old(storage.entries)
    {
      var preloaded := storage.LoadState(Some(PersistKey), readFault);
      var initial := new CartState(preloaded.GetOr(InitialCart));
      this.storage := storage;
      cart := initial;
      currentCart := initial;
    }

    /**
     * The persistence subscriber. An unchanged cart reference touches nothing;
     * otherwise an empty cart removes the record and a non-empty one saves the
     * whole cart. Only the cart's key is ever touched.
     */
    method Notify(fault: bool)
      modifies this`currentCart, storage
      ensures currentCart == cart
      ensures old(currentCart) == cart ==> storage.entries == old(storage.entries)
      ensures old(currentCart) != cart && cart.value.items == [] ==>
        storage.entries == if fault then old(storage.entries) else Removed(old(storage.entries), PersistKey)
      ensures old(currentCart) != cart && cart.value.items != [] ==>
        storage.entries == if fault then old(storage.entries) else Saved(old(storage.entries), PersistKey, cart.value)
      ensures storage.entries - {StorageKey(PersistKey)} == old(storage.entries) - {StorageKey(PersistKey)}
      ensures !fault && old(currentCart) != cart ==> Mirrors(storage.entries, cart.value)
    {
      var previous := currentCart;
      currentCart := cart;
      if previous == currentCart {
        return;
      }
      if currentCart.value.items == [] {
        storage.RemoveState(Some(PersistKey), fault);
        return;
      }
      storage.SaveState(currentCart.value, Some(PersistKey), fault);
    }

    /**
     * `store.dispatch(a)`: the cart reducer runs on a draft of the cart slice,
     * a modified draft is published as a new object, and then the subscriber runs.
     */
    method Dispatch(a: Action, fault: bool)
      requires currentCart == cart
      modifies this, storage
      ensures currentCart == cart
      ensures cart.value.items == Reduce(old(cart.value.items), a)
      ensures Replaces(old(cart.value.items), a) ==> fresh(cart)
      ensures !Replaces(old(cart.value.items), a) ==> cart == old(cart) && storage.entries == old(storage.entries)
      ensures WellFormed(old(cart.value.items)) ==> WellFormed(cart.value.items)
      ensures !fault && (Replaces(old(cart.value.items), a) || old(Mirrors(storage.entries, cart.value))) ==>
        Mirrors(storage.entries, cart.value)
      ensures fault ==> storage.entries == old(storage.entries)
      ensures storage.entries - {StorageKey(PersistKey)} == old(storage.entries) - {StorageKey(PersistKey)}
    {
      var draft := new CartDraft(cart.value);
      draft.Apply(a);
      if draft.modified {
        cart := new CartState(Cart(draft.items));
      }
      if WellFormed(old(cart.value.items)) {
        CartProperties.ReduceKeepsWellFormed(old(cart.value.items), a);
      }
      Notify(fault);
    }
  }

  /** A second notification with the same cart performs no storage operation. */
  method NotifyTwice(s: Store, first: bool, second: bool) returns (ghost afterFirst: map<string, Entry>)
    modifies s, s.storage
    ensures s.currentCart == s.cart == old(s.cart)
    ensures s.storage.entries == afterFirst
  {
    s.Notify(first);
    afterFirst := s.storage.entries;
    s.Notify(second);
  }

  /**
   * With storage that works: after `clearCart` the record is absent, and after
   * adding a product to the empty cart the record exists and loads back as the cart.
   */
  method ClearThenAdd(s: Store, p: Product) returns (ghost afterClear: map<string, Entry>)
    requires s.currentCart == s.cart && p.id.Some?
    modifies s, s.storage
    ensures StorageKey(PersistKey) !in afterClear
    ensures |s.cart.value.items| == 1
    ensures StorageKey(PersistKey) in s.storage.entries
    ensures Lookup(s.storage.entries, PersistKey) == Some(s.cart.value)
  {
    s.Dispatch(ClearCart, false);
    afterClear := s.storage.entries;
    s.Dispatch(AddToCart(Bare(p)), false);
    assert s.storage.entries[StorageKey(PersistKey)] == Serialized(s.cart.value);
  }
}
