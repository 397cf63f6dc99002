/**
 * The local cart store (`src/store/cartStore.ts`): a list of full cart lines and a loading flag.
 * For guests every operation writes the guest cart and then edits the local list the same way;
 * for signed-in users it sends the server command and, when that succeeds, reloads the server cart.
 */
module LocalCart {
  import opened Wrappers
  import opened Text
  import opened Domain
  import opened GuestCart
  import Totals

  /** The guest-cart key of a local line, `item.product.slug || item.product._id`. */
  function KeyOf(item: CartItem): string {
    SlugOrId(item.product)
  }

  /** The guest lines a local list stands for, line by line. */
  function AsGuestLines(items: seq<CartItem>): seq<GuestLine> {
    seq(|items|, k requires 0 <= k < |items| => GuestLine(KeyOf(items[k]), items[k].quantity))
  }

  predicate UniqueIds(items: seq<CartItem>) {
    forall i, j :: 0 <= i < j < |items| ==> items[i].product.id != items[j].product.id
  }

  /** The local list and the stored guest cart agree line by line, one line per product. */
  predicate InSync(items: seq<CartItem>, lines: seq<GuestLine>) {
    lines == AsGuestLines(items) && Unique(lines) && Positive(lines) && UniqueIds(items)
  }

  /** `items.find(item => item.product._id === productId)`, as the index of the first match. */
  function IndexOfId(items: seq<CartItem>, productId: string): (r: Option<nat>)
    ensures r.Some? ==> r.value < |items| && items[r.value].product.id == productId
    ensures r.Some? ==> forall j :: 0 <= j < r.value ==> items[j].product.id != productId
    ensures r.None? <==> forall j :: 0 <= j < |items| ==> items[j].product.id != productId
  {
    if |items| == 0 then None
    else if items[0].product.id == productId then Some(0)
    else match IndexOfId(items[1..], productId)
      case Some(i) => Some(i + 1)
      case None => None
  }

  predicate HasKey(items: seq<CartItem>, key: string) {
    exists k :: 0 <= k < |items| && KeyOf(items[k]) == key
  }

  /** The guest branch of `addItem` on the local list: every line with the product's key is
      incremented, or the product is appended as a new line. */
  function AddLocal(items: seq<CartItem>, product: Product, quantity: int): seq<CartItem> {
    var key := SlugOrId(product);
    if HasKey(items, key) then
      seq(|items|, k requires 0 <= k < |items| =>
        if KeyOf(items[k]) == key then items[k].(quantity := items[k].quantity + quantity) else items[k])
    else items + [CartItem(product, quantity)]
  }

  /** `items.map(item => item._id === productId ? { ...item, quantity } : item)`. */
  function SetQuantityById(items: seq<CartItem>, productId: string, quantity: int): seq<CartItem> {
    seq(|items|, k requires 0 <= k < |items| =>
      if items[k].product.id == productId then items[k].(quantity := quantity) else items[k])
  }

  /** `.filter(item => item.quantity > 0)`. */
  function KeepPositive(items: seq<CartItem>): (r: seq<CartItem>)
    ensures forall k :: 0 <= k < |r| ==> r[k].quantity > 0
  {
    if |items| == 0 then []
    else
      var last := items[|items| - 1];
      KeepPositive(items[..|items| - 1]) + (if last.quantity > 0 then [last] else [])
  }

  /** `items.filter(item => item.product._id !== productId)`. */
  function RemoveById(items: seq<CartItem>, productId: string): (r: seq<CartItem>)
    ensures forall k :: 0 <= k < |r| ==> r[k].product.id != productId
  {
    if |items| == 0 then []
    else
      var last := items[|items| - 1];
      RemoveById(items[..|items| - 1], productId) + (if last.product.id != productId then [last] else [])
  }

  /** The guest branch of `updateQuantity` on the local list. */
  function UpdateLocal(items: seq<CartItem>, productId: string, quantity: int): seq<CartItem> {
    KeepPositive(SetQuantityById(items, productId, quantity))
  }

  /** What `loadCart` leaves in `items` for a signed-in user: the server cart's lines, or nothing
      when the request throws or the response carries no cart. */
  function ServerItems(fetched: Result<CartResponse, Thrown>): seq<CartItem> {
    match fetched
    case Success(response) => if response.cart.Some? then response.cart.value.items else []
    case Failure(_) => []
  }

  /** What `loadCart` leaves in `items`. */
  function LoadedItems(isAuthenticated: bool, guestLines: seq<GuestLine>, catalog: Catalog,
                       fetched: Result<CartResponse, Thrown>): seq<CartItem>
  {
    if isAuthenticated then ServerItems(fetched) else ResolveLines(guestLines, catalog)
  }

  // ---------------------------------------------------------------------------------------
  // The local list and the guest cart stay in step
  // ---------------------------------------------------------------------------------------

  lemma AsGuestLinesAppend(items: seq<CartItem>, item: CartItem)
    ensures AsGuestLines(items + [item]) == AsGuestLines(items) + [GuestLine(KeyOf(item), item.quantity)]
  {
  }

  lemma AsGuestLinesInit(items: seq<CartItem>)
    requires |items| > 0
    ensures AsGuestLines(items[..|items| - 1]) == AsGuestLines(items)[..|items| - 1]
  {
  }

  /** The same product is the same line to the local list and to the guest cart: its id and
      its key pick out the same lines. */
  predicate Agrees(items: seq<CartItem>, product: Product) {
    forall k :: 0 <= k < |items| ==> (items[k].product.id == product.id <==> KeyOf(items[k]) == SlugOrId(product))
  }

  /** A guest `addItem` of a positive quantity does to the local list what it does to the stored
      guest cart, so a list in step with the storage stays in step. */
  lemma AddKeepsInSync(items: seq<CartItem>, lines: seq<GuestLine>, product: Product, quantity: int)
    requires InSync(items, lines) && quantity >= 1 && Agrees(items, product)
    ensures InSync(AddLocal(items, product, quantity), AddLine(lines, SlugOrId(product), quantity))
  {
    var key := SlugOrId(product);
    var r := AddLocal(items, product, quantity);
    var g := AddLine(lines, key, quantity);
    AddLineKeepsUnique(lines, key, quantity);
    match IndexOf(lines, key)
    case Some(i) =>
      assert KeyOf(items[i]) == key;
      assert HasKey(items, key);
      forall k | 0 <= k < |items| ensures r[k] == (if k == i then items[i].(quantity := items[i].quantity + quantity) else items[k]) {
        if k != i {
          assert lines[k].productSlug != lines[i].productSlug;
        }
      }
      assert AsGuestLines(r) == g;
    case None =>
      assert !HasKey(items, key) by {
        forall k | 0 <= k < |items| ensures KeyOf(items[k]) != key {
          assert lines[k].productSlug == KeyOf(items[k]);
        }
      }
      AsGuestLinesAppend(items, CartItem(product, quantity));
      assert forall k :: 0 <= k < |items| ==> items[k].product.id != product.id;
  }

  /** Removal by id on the list and by key in the storage remove the same lines when ids and keys
      pick out the same lines. */
  lemma {:induction false} RemoveMirrors(items: seq<CartItem>, productId: string, key: string)
    requires forall k :: 0 <= k < |items| ==> (items[k].product.id == productId <==> KeyOf(items[k]) == key)
    ensures AsGuestLines(RemoveById(items, productId)) == RemoveSlug(AsGuestLines(items), key)
    decreases |items|
  {
    if |items| > 0 {
      var n := |items|;
      var init := items[..n - 1];
      var last := items[n - 1];
      RemoveMirrors(init, productId, key);
      AsGuestLinesInit(items);
      if last.product.id != productId {
        AsGuestLinesAppend(RemoveById(init, productId), last);
      } else {
        assert RemoveById(items, productId) == RemoveById(init, productId) + [];
        assert RemoveSlug(AsGuestLines(items), key) == RemoveSlug(AsGuestLines(init), key) + [];
      }
    }
  }

  lemma RemovedIdsUnique(items: seq<CartItem>, productId: string)
    requires UniqueIds(items)
    ensures UniqueIds(RemoveById(items, productId))
    decreases |items|
  {
    if |items| > 0 {
      var init := items[..|items| - 1];
      var last := items[|items| - 1];
      RemovedIdsUnique(init, productId);
      RemovedAreFrom(init, productId);
      var front := RemoveById(init, productId);
      if last.product.id != productId {
        assert RemoveById(items, productId) == front + [last];
        forall i | 0 <= i < |front| ensures front[i].product.id != last.product.id {
          assert front[i] in front;
          var k :| 0 <= k < |init| && init[k] == front[i];
          assert items[k] == init[k];
        }
      } else {
        assert RemoveById(items, productId) == front + [];
      }
    }
  }

  lemma {:induction false} RemovedAreFrom(items: seq<CartItem>, productId: string)
    ensures forall x :: x in RemoveById(items, productId) ==> x in items
    decreases |items|
  {
    if |items| > 0 {
      RemovedAreFrom(items[..|items| - 1], productId);
    }
  }

  /** On a list in step with the storage, ids and keys pick out the same lines. */
  lemma IdsMatchKeys(items: seq<CartItem>, lines: seq<GuestLine>, i: nat)
    requires InSync(items, lines) && i < |items|
    ensures forall k :: 0 <= k < |items| ==>
      (items[k].product.id == items[i].product.id <==> KeyOf(items[k]) == KeyOf(items[i]))
  {
    forall k | 0 <= k < |items|
      ensures items[k].product.id == items[i].product.id <==> KeyOf(items[k]) == KeyOf(items[i])
    {
      assert lines[k].productSlug == KeyOf(items[k]) && lines[i].productSlug == KeyOf(items[i]);
    }
  }

  /** A guest `removeItem` of a line that is present does the same to the list and the storage. */
  lemma RemoveKeepsInSync(items: seq<CartItem>, lines: seq<GuestLine>, productId: string, i: nat)
    requires InSync(items, lines) && IndexOfId(items, productId) == Some(i)
    ensures InSync(RemoveById(items, productId), RemoveSlug(lines, KeyOf(items[i])))
  {
    IdsMatchKeys(items, lines, i);
    RemoveMirrors(items, productId, KeyOf(items[i]));
    RemoveKeepsUnique(lines, KeyOf(items[i]));
    RemovedArePositive(lines, KeyOf(items[i]));
    RemovedIdsUnique(items, productId);
  }

  /** Dropping non-positive lines after setting one product's quantity: for a quantity of 0 or
      less that is the removal of the product; otherwise nothing is dropped. */
  lemma {:induction false} KeepPositiveAfterSet(items: seq<CartItem>, productId: string, quantity: int)
    requires forall k :: 0 <= k < |items| ==> items[k].quantity > 0
    ensures quantity <= 0 ==> UpdateLocal(items, productId, quantity) == RemoveById(items, productId)
    ensures quantity > 0 ==> UpdateLocal(items, productId, quantity) == SetQuantityById(items, productId, quantity)
    decreases |items|
  {
    if |items| > 0 {
      var n := |items|;
      var init := items[..n - 1];
      KeepPositiveAfterSet(init, productId, quantity);
      assert SetQuantityById(items, productId, quantity)[..n - 1] == SetQuantityById(init, productId, quantity);
    }
  }

  /** A guest `updateQuantity` of a line that is present does the same to the list and the
      storage, for positive quantities and for those that remove the line. */
  lemma UpdateKeepsInSync(items: seq<CartItem>, lines: seq<GuestLine>, productId: string, quantity: int, i: nat)
    requires InSync(items, lines) && IndexOfId(items, productId) == Some(i)
    ensures InSync(UpdateLocal(items, productId, quantity), UpdateLine(lines, KeyOf(items[i]), quantity))
  {
    var key := KeyOf(items[i]);
    FirstKeyOfFirstId(items, lines, productId, i);
    assert forall k :: 0 <= k < |items| ==> items[k].quantity == lines[k].quantity;
    KeepPositiveAfterSet(items, productId, quantity);
    if quantity <= 0 {
      UpdateNonPositiveIsRemove(lines, key, quantity);
      RemoveKeepsInSync(items, lines, productId, i);
    } else {
      SetKeepsInSync(items, lines, productId, quantity, i);
    }
  }

  /** On a list in step with the storage, the line found by id is the line found by its key. */
  lemma FirstKeyOfFirstId(items: seq<CartItem>, lines: seq<GuestLine>, productId: string, i: nat)
    requires InSync(items, lines) && IndexOfId(items, productId) == Some(i)
    ensures IndexOf(lines, KeyOf(items[i])) == Some(i)
  {
    var key := KeyOf(items[i]);
    assert lines[i].productSlug == key;
    forall j | 0 <= j < i ensures lines[j].productSlug != key {
      assert lines[j].productSlug != lines[i].productSlug;
    }
  }

  lemma SetKeepsInSync(items: seq<CartItem>, lines: seq<GuestLine>, productId: string, quantity: int, i: nat)
    requires InSync(items, lines) && IndexOfId(items, productId) == Some(i) && quantity > 0
    requires IndexOf(lines, KeyOf(items[i])) == Some(i)
    ensures InSync(SetQuantityById(items, productId, quantity), UpdateLine(lines, KeyOf(items[i]), quantity))
  {
    var key := KeyOf(items[i]);
    UpdatePositive(lines, key, quantity, i);
    var r := SetQuantityById(items, productId, quantity);
    var g := UpdateLine(lines, key, quantity);
    forall k | 0 <= k < |items| ensures AsGuestLines(r)[k] == g[k] {
      if k != i {
        assert items[k].product.id != items[i].product.id;
      }
    }
    assert AsGuestLines(r) == g;
  }

  /** A guest cart read back through a catalog whose products carry the keys they are looked up
      by is the list that mirrors it. */
  lemma {:induction false} LoadMirrors(lines: seq<GuestLine>, catalog: Catalog)
    requires forall s :: s in catalog ==> SlugOrId(catalog[s]) == s
    requires forall k :: 0 <= k < |lines| ==> Resolvable(lines[k], catalog)
    ensures AsGuestLines(ResolveLines(lines, catalog)) == lines
    decreases |lines|
  {
    if |lines| > 0 {
      var init := lines[..|lines| - 1];
      var last := lines[|lines| - 1];
      LoadMirrors(init, catalog);
      AsGuestLinesAppend(ResolveLines(init, catalog), CartItem(catalog[last.productSlug], last.quantity));
      assert lines == init + [last];
    }
  }

  /** The item count of a list is the count of the guest lines it mirrors. */
  lemma {:induction false} ItemCountIsGuestCount(items: seq<CartItem>)
    ensures Totals.ItemCount(items) == GuestCount(AsGuestLines(items))
    decreases |items|
  {
    if |items| > 0 {
      ItemCountIsGuestCount(items[..|items| - 1]);
      AsGuestLinesInit(items);
    }
  }

  /** A guest `addItem` of `quantity` raises `getItemCount()` by exactly `quantity`. */
  lemma AddRaisesItemCount(items: seq<CartItem>, lines: seq<GuestLine>, product: Product, quantity: int)
    requires InSync(items, lines) && quantity >= 1 && Agrees(items, product)
    ensures Totals.ItemCount(AddLocal(items, product, quantity)) == Totals.ItemCount(items) + quantity
  {
    AddKeepsInSync(items, lines, product, quantity);
    ItemCountIsGuestCount(items);
    ItemCountIsGuestCount(AddLocal(items, product, quantity));
    AddLineQuantities(lines, SlugOrId(product), quantity, SlugOrId(product));
  }

  // ---------------------------------------------------------------------------------------
  // The store
  // ---------------------------------------------------------------------------------------

  /** `useCartStore`: the local lines, the loading flag and the guest cart service it writes. */
  class CartStore {
    var items: seq<CartItem>
    var isLoading: bool
    const guest: GuestCartStore

    constructor (guest: GuestCartStore)
      ensures items == [] && !isLoading && this.guest == guest
    {
      items := [];
      isLoading := false;
      this.guest := guest;
    }

    /** `getTotal`: the sum of price times quantity over the lines. */
    function GetTotal(): int
      reads this
    {
      Totals.Subtotal(items)
    }

    /** `getItemCount`: the sum of the quantities. */
    function GetItemCount(): int
      reads this
    {
      Totals.ItemCount(items)
    }

    /** `loadCart`: for a guest, the resolvable guest lines with their products; for a signed-in
        user, the server cart's lines, or none when the request or the response fails. */
    method LoadCart(isAuthenticated: bool, catalog: Catalog, fetched: Result<CartResponse, Thrown>)
      modifies this
      ensures items == LoadedItems(isAuthenticated, old(guest.Lines()), catalog, fetched)
      ensures !isLoading
    {
      isLoading := true;
      if !isAuthenticated {
        var guestCart := guest.GetGuestCart();
        items := ResolveGuestCart(guestCart, catalog);
        isLoading := false;
        return;
      }
      items := ServerItems(fetched);
      isLoading := false;
    }

    /** A server command followed, when it succeeds, by a reload of the server cart; a command
        that throws leaves the lines as they were. */
    method RunServerCommand(answer: Result<CartResponse, Thrown>, fetched: Result<CartResponse, Thrown>)
      modifies this
      ensures items == (if answer.Success? then ServerItems(fetched) else old(items))
      ensures !isLoading
    {
      isLoading := true;
      if answer.Success? {
        LoadCart(true, map[], fetched);
      }
      isLoading := false;
    }

    /** `addItem`: a guest's product goes to the guest cart under its key and the local list
        gains it the same way; a signed-in user's goes to the server cart. */
    method AddItem(isAuthenticated: bool, product: Product, answer: Result<CartResponse, Thrown>,
                   fetched: Result<CartResponse, Thrown>, quantity: int := 1)
      modifies this, guest
      ensures !isAuthenticated ==> guest.stored == Some(AddLine(old(guest.Lines()), SlugOrId(product), quantity))
      ensures !isAuthenticated ==> items == AddLocal(old(items), product, quantity) && isLoading == old(isLoading)
      ensures isAuthenticated ==> guest.stored == old(guest.stored) && !isLoading
      ensures isAuthenticated ==> items == (if answer.Success? then ServerItems(fetched) else old(items))
    {
      if !isAuthenticated {
        var productSlug := SlugOrId(product);
        guest.AddToGuestCart(productSlug, quantity);
        items := AddLocal(items, product, quantity);
        return;
      }
      RunServerCommand(answer, fetched);
    }

    /** `updateQuantity`: for a guest, a line that is present gets the new quantity in the guest
        cart and locally, where lines left at 0 or below are dropped; an absent id changes nothing. */
    method UpdateQuantity(isAuthenticated: bool, productId: string, quantity: int,
                          answer: Result<CartResponse, Thrown>, fetched: Result<CartResponse, Thrown>)
      modifies this, guest
      ensures !isAuthenticated && IndexOfId(old(items), productId).None?
        ==> items == old(items) && guest.stored == old(guest.stored) && isLoading == old(isLoading)
      ensures !isAuthenticated && IndexOfId(old(items), productId).Some? ==>
        var key := KeyOf(old(items)[IndexOfId(old(items), productId).value]);
        guest.stored == StoredAfterUpdate(old(guest.stored), key, quantity)
        && items == UpdateLocal(old(items), productId, quantity) && isLoading == old(isLoading)
      ensures isAuthenticated ==> guest.stored == old(guest.stored) && !isLoading
      ensures isAuthenticated ==> items == (if answer.Success? then ServerItems(fetched) else old(items))
    {
      if !isAuthenticated {
        var item := IndexOfId(items, productId);
        if item.Some? {
          var productSlug := KeyOf(items[item.value]);
          guest.UpdateGuestCartItem(productSlug, quantity);
          items := UpdateLocal(items, productId, quantity);
        }
        return;
      }
      RunServerCommand(answer, fetched);
    }

    /** `removeItem`: for a guest, a line that is present leaves the guest cart under its key
        and the local list under its id; an absent id changes nothing. */
    method RemoveItem(isAuthenticated: bool, productId: string,
                      answer: Result<CartResponse, Thrown>, fetched: Result<CartResponse, Thrown>)
      modifies this, guest
      ensures !isAuthenticated && IndexOfId(old(items), productId).None?
        ==> items == old(items) && guest.stored == old(guest.stored) && isLoading == old(isLoading)
      ensures !isAuthenticated && IndexOfId(old(items), productId).Some? ==>
        var key := KeyOf(old(items)[IndexOfId(old(items), productId).value]);
        guest.stored == Some(RemoveSlug(old(guest.Lines()), key))
        && items == RemoveById(old(items), productId) && isLoading == old(isLoading)
      ensures isAuthenticated ==> guest.stored == old(guest.stored) && !isLoading
      ensures isAuthenticated ==> items == (if answer.Success? then ServerItems(fetched) else old(items))
    {
      if !isAuthenticated {
        var item := IndexOfId(items, productId);
        if item.Some? {
          var productSlug := KeyOf(items[item.value]);
          guest.RemoveFromGuestCart(productSlug);
          items := RemoveById(items, productId);
        }
        return;
      }
      RunServerCommand(answer, fetched);
    }

    /** `clearCart`: a guest's storage key is deleted and the list emptied. */
    method ClearCart(isAuthenticated: bool, answer: Result<CartResponse, Thrown>,
                     fetched: Result<CartResponse, Thrown>)
      modifies this, guest
      ensures !isAuthenticated ==> guest.stored == None && items == [] && isLoading == old(isLoading)
      ensures isAuthenticated ==> guest.stored == old(guest.stored) && !isLoading
      ensures isAuthenticated ==> items == (if answer.Success? then ServerItems(fetched) else old(items))
    {
      if !isAuthenticated {
        guest.ClearGuestCart();
        items := [];
        return;
      }
      RunServerCommand(answer, fetched);
    }

    /** `syncGuestCart`: post the guest cart; when the post succeeds the guest cart is cleared and
        the cart reloaded, and when it throws the lines and the guest cart are left as they were. */
    method SyncGuestCart(isAuthenticated: bool, catalog: Catalog, answer: Result<CartResponse, Thrown>,
                         fetched: Result<CartResponse, Thrown>) returns (sent: seq<SyncItem>)
      modifies this, guest
      ensures sent == SyncItems(old(guest.Lines()), catalog)
      ensures answer.Success? ==>
        guest.stored == None && items == LoadedItems(isAuthenticated, [], catalog, fetched)
      ensures answer.Failure? ==> guest.stored == old(guest.stored) && items == old(items)
      ensures !isLoading
    {
      isLoading := true;
      var response;
      sent, response := guest.SyncGuestCart(catalog, answer);
      if response.Success? {
        LoadCart(isAuthenticated, catalog, fetched);
      }
      isLoading := false;
    }
  }
}
