/**
 * The server-cart query and its mutations (`src/hooks/useCart.ts`): the cached `["cart"]`
 * snapshot is written only by a successful add or update whose response carries a cart; every
 * successful mutation invalidates the query. Also the auth-gated guest-cart helpers.
 */
module CartQueries {
  import opened Wrappers
  import opened Domain
  import opened GuestCart

  /** What a mutation does to the query cache, in order. */
  datatype CacheEvent = SetData(data: CartResponse) | Invalidate | Refetch

  /** A server cart command, as sent. */
  datatype CartCommand =
    | AddCommand(productId: string, quantity: int)
    | UpdateCommand(productId: string, quantity: int)
    | RemoveCommand(productId: string)
    | ClearCommand

  /** `cartData?.cart?.items || []`: the lines of a cached snapshot. */
  function CachedItems(cartData: Option<CartResponse>): seq<CartItem> {
    if cartData.Some? && cartData.value.cart.Some? then cartData.value.cart.value.items else []
  }

  /** The quantity an add sends: `quantity || 1`, with a missing quantity as 0. */
  function AddQuantity(quantity: int): (q: int)
    ensures quantity != 0 ==> q == quantity
    ensures quantity == 0 ==> q == 1
  {
    if quantity != 0 then quantity else 1
  }

  /** The `onSuccess` of add and update: the snapshot when it carries a cart, then invalidate and refetch. */
  function WriteBackEvents(data: CartResponse): seq<CacheEvent> {
    if data.cart.Some? then [SetData(data), Invalidate, Refetch] else [Invalidate, Refetch]
  }

  /** A snapshot is written exactly when the response carries a cart, and the write-back always
      ends by invalidating and then refetching. */
  lemma WriteBackEventsShape(data: CartResponse)
    ensures var r := WriteBackEvents(data);
      ((exists k :: 0 <= k < |r| && r[k].SetData?) <==> data.cart.Some?)
      && |r| >= 2 && r[|r| - 2] == Invalidate && r[|r| - 1] == Refetch
  {
    var r := WriteBackEvents(data);
    if data.cart.Some? {
      assert r[0].SetData?;
    }
  }

  /** The snapshot a sequence of cache events leaves, starting from `snapshot`. */
  function SnapshotAfter(snapshot: Option<CartResponse>, events: seq<CacheEvent>): Option<CartResponse>
    decreases |events|
  {
    if events == [] then snapshot
    else SnapshotAfter(if events[0].SetData? then Some(events[0].data) else snapshot, events[1..])
  }

  /** A successful add or update leaves in the cache exactly the response it received, when that
      response carries a cart, and the previous snapshot otherwise; there is no local patching. */
  lemma WriteBackSnapshot(snapshot: Option<CartResponse>, data: CartResponse)
    ensures data.cart.Some? ==> SnapshotAfter(snapshot, WriteBackEvents(data)) == Some(data)
    ensures data.cart.None? ==> SnapshotAfter(snapshot, WriteBackEvents(data)) == snapshot
  {
    var r := WriteBackEvents(data);
    var tail: seq<CacheEvent> := [Refetch];
    assert tail[1..] == [];
    assert SnapshotAfter(Some(data), tail) == Some(data);
    assert SnapshotAfter(snapshot, tail) == snapshot;
    if data.cart.Some? {
      assert r[1..] == [Invalidate, Refetch] && r[1..][1..] == tail;
      assert SnapshotAfter(Some(data), r[1..]) == Some(data);
    } else {
      assert r[1..] == tail;
    }
  }

  /** The react-query cache entry `["cart"]` and the log of what has been done to it. */
  class QueryCache {
    var snapshot: Option<CartResponse>
    var events: seq<CacheEvent>

    constructor ()
      ensures snapshot == None && events == []
    {
      snapshot := None;
      events := [];
    }

    /** `useCart()`: the query runs only for a signed-in user; a fetch that fails keeps the data. */
    method RunCartQuery(isAuthenticated: bool, fetched: Result<CartResponse, Thrown>)
      modifies this
      ensures !isAuthenticated ==> snapshot == old(snapshot)
      ensures isAuthenticated && fetched.Success? ==> snapshot == Some(fetched.value)
      ensures isAuthenticated && fetched.Failure? ==> snapshot == old(snapshot)
      ensures events == old(events)
    {
      if isAuthenticated && fetched.Success? {
        snapshot := Some(fetched.value);
      }
    }

    method Record(event: CacheEvent)
      modifies this
      ensures events == old(events) + [event]
      ensures snapshot == (if event.SetData? then Some(event.data) else old(snapshot))
    {
      if event.SetData? {
        snapshot := Some(event.data);
      }
      events := events + [event];
    }

    /** `useAddToCart`: send `quantity || 1`; on success write the response back. */
    method AddToCart(productId: string, quantity: int, answer: Result<CartResponse, Thrown>)
      returns (command: CartCommand)
      modifies this
      ensures command == AddCommand(productId, AddQuantity(quantity))
      ensures answer.Success? ==>
        events == old(events) + WriteBackEvents(answer.value)
        && snapshot == SnapshotAfter(old(snapshot), WriteBackEvents(answer.value))
      ensures answer.Failure? ==> events == old(events) && snapshot == old(snapshot)
    {
      command := AddCommand(productId, AddQuantity(quantity));
      if answer.Success? {
        WriteBack(answer.value);
      }
    }

    /** `useUpdateCartItem`: send the quantity as given; on success write the response back. */
    method UpdateCartItem(productId: string, quantity: int, answer: Result<CartResponse, Thrown>)
      returns (command: CartCommand)
      modifies this
      ensures command == UpdateCommand(productId, quantity)
      ensures answer.Success? ==>
        events == old(events) + WriteBackEvents(answer.value)
        && snapshot == SnapshotAfter(old(snapshot), WriteBackEvents(answer.value))
      ensures answer.Failure? ==> events == old(events) && snapshot == old(snapshot)
    {
      command := UpdateCommand(productId, quantity);
      if answer.Success? {
        WriteBack(answer.value);
      }
    }

    method WriteBack(data: CartResponse)
      modifies this
      ensures events == old(events) + WriteBackEvents(data)
      ensures snapshot == SnapshotAfter(old(snapshot), WriteBackEvents(data))
    {
      WriteBackSnapshot(snapshot, data);
      if data.cart.Some? {
        Record(SetData(data));
      }
      Record(Invalidate);
      Record(Refetch);
    }

    /** `useRemoveFromCart`: on success invalidate and refetch; the snapshot is not written. */
    method RemoveFromCart(productId: string, answer: Result<CartResponse, Thrown>)
      returns (command: CartCommand)
      modifies this
      ensures command == RemoveCommand(productId)
      ensures snapshot == old(snapshot)
      ensures answer.Success? ==> events == old(events) + [Invalidate, Refetch]
      ensures answer.Failure? ==> events == old(events)
    {
      command := RemoveCommand(productId);
      if answer.Success? {
        Record(Invalidate);
        Record(Refetch);
      }
    }

    /** `useClearCart`: on success only invalidate. */
    method ClearCart(answer: Result<CartResponse, Thrown>) returns (command: CartCommand)
      modifies this
      ensures command == ClearCommand
      ensures snapshot == old(snapshot)
      ensures answer.Success? ==> events == old(events) + [Invalidate]
      ensures answer.Failure? ==> events == old(events)
    {
      command := ClearCommand;
      if answer.Success? {
        Record(Invalidate);
      }
    }
  }

  // ---------------------------------------------------------------------------------------
  // `useGuestCart`: guest helpers that do nothing for a signed-in user
  // ---------------------------------------------------------------------------------------

  /** `items`: the stored guest cart, or nothing for a signed-in user. */
  method GuestItems(isAuthenticated: bool, store: GuestCartStore) returns (items: seq<GuestLine>)
    ensures isAuthenticated ==> items == []
    ensures !isAuthenticated ==> items == store.Lines()
  {
    if isAuthenticated {
      return [];
    }
    items := store.GetGuestCart();
  }

  method GuestAddItem(isAuthenticated: bool, store: GuestCartStore, product: Product, quantity: int := 1)
    modifies store
    ensures isAuthenticated ==> store.stored == old(store.stored)
    ensures !isAuthenticated ==> store.stored == Some(AddLine(old(store.Lines()), SlugOrId(product), quantity))
  {
    if !isAuthenticated {
      var productSlug := SlugOrId(product);
      store.AddToGuestCart(productSlug, quantity);
    }
  }

  method GuestUpdateQuantity(isAuthenticated: bool, store: GuestCartStore, productSlug: string, quantity: int)
    modifies store
    ensures isAuthenticated ==> store.stored == old(store.stored)
    ensures !isAuthenticated ==> store.stored == StoredAfterUpdate(old(store.stored), productSlug, quantity)
  {
    if !isAuthenticated {
      store.UpdateGuestCartItem(productSlug, quantity);
    }
  }

  method GuestRemoveItem(isAuthenticated: bool, store: GuestCartStore, productSlug: string)
    modifies store
    ensures isAuthenticated ==> store.stored == old(store.stored)
    ensures !isAuthenticated ==> store.stored == Some(RemoveSlug(old(store.Lines()), productSlug))
  {
    if !isAuthenticated {
      store.RemoveFromGuestCart(productSlug);
    }
  }

  method GuestClearCart(isAuthenticated: bool, store: GuestCartStore)
    modifies store
    ensures isAuthenticated ==> store.stored == old(store.stored)
    ensures !isAuthenticated ==> store.stored == None
  {
    if !isAuthenticated {
      store.ClearGuestCart();
    }
  }
}
