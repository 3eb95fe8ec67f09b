/**
 * The cart engine of src/slices/cartSlice.js: the value helpers, the line-item
 * data model, one specification function per reducer, and the reducers
 * themselves as methods of an Immer-style draft that records whether any
 * assignment changed the state.
 *
 * Prices and subtotals are whole cents, so `toCurrency(price * qty)` is exact
 * multiplication. A JavaScript number handed to `safeNumber` is `Num`: absent,
 * not finite (NaN, Infinity, or a string `Number` cannot read), or finite.
 */
module CartSlice {
  import opened Wrappers

  // ---------- values ----------

  datatype Num<T> = Undefined | NonFinite | Finite(value: T)

  /** A product id as it arrives: a JavaScript number (an integer here) or a string. */
  datatype RawId = NumId(n: int) | StrId(s: string)

  /** `safeNumber(v, fallback)`: the number when it is finite, otherwise the fallback. */
  function SafeNumber<T>(v: Num<T>, fallback: T): T {
    match v
    case Finite(x) => x
    case _ => fallback
  }

  function DigitChar(d: nat): (c: char)
    requires d < 10
    ensures '0' <= c <= '9'
  {
    ('0' as int + d) as char
  }

  /** Decimal digits of a natural number, most significant first, no leading zero. */
  function Digits(n: nat): (s: string)
    ensures 1 <= |s|
    ensures forall i :: 0 <= i < |s| ==> '0' <= s[i] <= '9'
    ensures |s| == 1 <==> n < 10
    decreases n
  {
    if n < 10 then [DigitChar(n)] else Digits(n / 10) + [DigitChar(n % 10)]
  }

  /** `String(n)` for an integer-valued number. */
  function IntToString(n: int): string {
    if n < 0 then "-" + Digits(-n) else Digits(n)
  }

  /** `normalizeId`: ids are compared as strings, so 1 and "1" match. */
  function NormalizeId(id: RawId): string {
    match id
    case NumId(n) => IntToString(n)
    case StrId(s) => s
  }

  /** `toCurrency(price * qty)`: with whole cents the rounding to two decimals is exact. */
  function Recalc(priceCents: int, qty: int): int {
    priceCents * qty
  }

  // ---------- data model ----------

  /** A catalog product as the views pass it in; `thumbnail` is an alternative image. */
  datatype Product = Product(
    id: Option<RawId>,
    title: Option<string>,
    price: Num<int>,
    image: Option<string>,
    thumbnail: Option<string>)

  /** One product's line in the cart; `subtotal` is derived from `price` and `quantity`. */
  datatype LineItem = LineItem(
    id: RawId,
    title: string,
    price: int,
    image: string,
    quantity: int,
    subtotal: int)

  /** The cart slice `{ items }`. */
  datatype Cart = Cart(items: seq<LineItem>)

  const InitialCart := Cart([])

  /**
   * The payload of `addToCart`: none at all, a bare product (which has no
   * `quantity` field), or a `{ product, quantity }` bundle. A bundle whose
   * `product` is absent is itself taken as the product, and it has no `id`.
   */
  datatype AddPayload =
    | NoPayload
    | Bare(product: Product)
    | Bundle(bundled: Option<Product>, quantity: Num<real>)

  /** The payload of `updateQuantity`, `{ id, quantity }`; an absent payload has neither. */
  datatype UpdatePayload = UpdatePayload(id: Option<RawId>, quantity: Num<real>)

  /** The four reducers of the slice, and any action of another slice. */
  datatype Action =
    | AddToCart(add: AddPayload)
    | UpdateQuantity(update: UpdatePayload)
    | RemoveFromCart(target: Option<RawId>)
    | ClearCart
    | Unrelated

  function ItemKey(it: LineItem): string { NormalizeId(it.id) }

  // ---------- cart invariants ----------

  /** No two line items share a normalized id. */
  predicate Unique(items: seq<LineItem>) {
    forall i, j :: 0 <= i < j < |items| ==> ItemKey(items[i]) != ItemKey(items[j])
  }

  predicate ItemInvariant(it: LineItem) {
    1 <= it.quantity && it.subtotal == Recalc(it.price, it.quantity)
  }

  predicate WellFormed(items: seq<LineItem>) {
    Unique(items) && forall x :: x in items ==> ItemInvariant(x)
  }

  /** The upper half of `1 <= quantity <= 99`; the code keeps it unless a first add asks for more. */
  predicate Capped(items: seq<LineItem>) {
    forall x :: x in items ==> x.quantity <= 99
  }

  // ---------- scans ----------

  /** `items.find(it => normalizeId(it.id) === id)`, as the index of the first match. */
  function FirstIndexOf(items: seq<LineItem>, id: string): (r: Option<nat>)
    ensures r.Some? ==> r.value < |items| && ItemKey(items[r.value]) == id
    ensures r.Some? ==> forall j :: 0 <= j < r.value ==> ItemKey(items[j]) != id
    ensures r.None? ==> forall j :: 0 <= j < |items| ==> ItemKey(items[j]) != id
  {
    if items == [] then None
    else if ItemKey(items[0]) == id then Some(0)
    else
      match FirstIndexOf(items[1..], id)
      case None => None
      case Some(k) => Some(k + 1)
  }

  /** `items.filter(it => normalizeId(it.id) !== id)`. */
  function Without(items: seq<LineItem>, id: string): seq<LineItem>
    decreases |items|
  {
    if items == [] then []
    else
      var last := items[|items| - 1];
      Without(items[..|items| - 1], id) + (if ItemKey(last) != id then [last] else [])
  }

  method Find(items: seq<LineItem>, id: string) returns (r: Option<nat>)
    ensures r == FirstIndexOf(items, id)
  {
    var i := 0;
    while i < |items|
      invariant 0 <= i <= |items|
      invariant forall j :: 0 <= j < i ==> ItemKey(items[j]) != id
    {
      if ItemKey(items[i]) == id {
        return Some(i);
      }
      i := i + 1;
    }
    return None;
  }

  method Filter(items: seq<LineItem>, id: string) returns (kept: seq<LineItem>)
    ensures kept == Without(items, id)
  {
    kept := [];
    var i := 0;
    while i < |items|
      invariant 0 <= i <= |items|
      invariant kept == Without(items[..i], id)
    {
      assert items[..i + 1][..i] == items[..i];
      if ItemKey(items[i]) != id {
        kept := kept + [items[i]];
      }
      i := i + 1;
    }
    assert items[..i] == items;
  }

  // ---------- reducer specifications ----------

  /** `payload.quantity`: only a bundle carries one. */
  function QuantityField(payload: AddPayload): Num<real> {
    match payload
    case Bundle(_, q) => q
    case _ => Undefined
  }

  /** `payload.product ?? payload`, kept only when it can be a product. */
  function ResolveProduct(payload: AddPayload): Option<Product> {
    match payload
    case NoPayload => None
    case Bare(p) => Some(p)
    case Bundle(p, _) => p
  }

  /** `Math.max(1, Math.floor(safeNumber(payload.quantity, 1)))`. */
  function QuantityToAdd(payload: AddPayload): (r: int)
    ensures 1 <= r
    ensures QuantityField(payload).Finite? ==> r == Max(1, QuantityField(payload).value.Floor)
    ensures !QuantityField(payload).Finite? ==> r == 1
  {
    Max(1, SafeNumber(QuantityField(payload), 1.0).Floor)
  }

  /** The line item `addToCart` pushes for a product that is not in the cart yet. */
  function NewItem(p: Product, unitPrice: int, qty: int): LineItem
    requires p.id.Some?
  {
    LineItem(
      id := p.id.value,
      title := p.title.GetOr("Untitled product"),
      price := unitPrice,
      image := p.image.GetOr(p.thumbnail.GetOr("/placeholder-200.png")),
      quantity := qty,
      subtotal := Recalc(unitPrice, qty))
  }

  /** The item with a new quantity and its subtotal recomputed from its stored price. */
  function Requantified(it: LineItem, qty: int): LineItem {
    it.(quantity := qty, subtotal := Recalc(it.price, qty))
  }

  /** The items after `addToCart(payload)`. */
  function AddedItems(items: seq<LineItem>, payload: AddPayload): seq<LineItem> {
    var product := ResolveProduct(payload);
    if product.None? || product.value.id.None? then items
    else
      var p := product.value;
      var id := NormalizeId(p.id.value);
      var k := QuantityToAdd(payload);
      match FirstIndexOf(items, id)
      case Some(i) => items[i := Requantified(items[i], Min(99, items[i].quantity + k))]
      case None => items + [NewItem(p, SafeNumber(p.price, 0), k)]
  }

  /** `Math.floor(safeNumber(quantity, 0))` of `updateQuantity`. */
  function QuantityToSet(payload: UpdatePayload): int {
    SafeNumber(payload.quantity, 0.0).Floor
  }

  /** The items after `updateQuantity(payload)`. */
  function UpdatedItems(items: seq<LineItem>, payload: UpdatePayload): seq<LineItem> {
    match payload.id
    case None => items
    case Some(raw) =>
      var id := NormalizeId(raw);
      var q := QuantityToSet(payload);
      if q <= 0 then Without(items, id)
      else
        match FirstIndexOf(items, id)
        case None => items
        case Some(i) => items[i := Requantified(items[i], Min(99, q))]
  }

  /** `normalizeId(action.payload)` of `removeFromCart`: an absent payload reads "undefined". */
  function RemoveKey(target: Option<RawId>): string {
    match target
    case None => "undefined"
    case Some(raw) => NormalizeId(raw)
  }

  /** The cart slice reducer. */
  function Reduce(items: seq<LineItem>, a: Action): seq<LineItem> {
    match a
    case AddToCart(p) => AddedItems(items, p)
    case UpdateQuantity(p) => UpdatedItems(items, p)
    case RemoveFromCart(t) => Without(items, RemoveKey(t))
    case ClearCart => []
    case Unrelated => items
  }

  /**
   * Whether the reducer publishes a new cart object. Assigning a field the value
   * it already holds leaves an Immer draft unmodified; a push, or assigning
   * `state.items` a new array (`filter`, `[]`), always modifies it.
   */
  function Replaces(items: seq<LineItem>, a: Action): bool {
    match a
    case AddToCart(p) => AddedItems(items, p) != items
    case UpdateQuantity(p) => (p.id.Some? && QuantityToSet(p) <= 0) || UpdatedItems(items, p) != items
    case RemoveFromCart(_) => true
    case ClearCart => true
    case Unrelated => false
  }

  // ---------- the reducers on a draft ----------

  /** The draft of the cart slice a reducer mutates. */
  class CartDraft {
    var items: seq<LineItem>
    /** Immer's flag: some assignment stored a value different from the one it replaced. */
    var modified: bool

    constructor (base: Cart)
      ensures items == base.items && !modified
    {
      items := base.items;
      modified := false;
    }

    /** `it.quantity = q` on the draft of line `i`. */
    method AssignQuantity(i: nat, q: int)
      requires i < |items|
      modifies this
      ensures items == old(items)[i := old(items)[i].(quantity := q)]
      ensures modified == (old(modified) || old(items)[i].quantity != q)
    {
      if items[i].quantity != q {
        modified := true;
      }
      items := items[i := items[i].(quantity := q)];
    }

    /** `it.subtotal = s` on the draft of line `i`. */
    method AssignSubtotal(i: nat, s: int)
      requires i < |items|
      modifies this
      ensures items == old(items)[i := old(items)[i].(subtotal := s)]
      ensures modified == (old(modified) || old(items)[i].subtotal != s)
    {
      if items[i].subtotal != s {
        modified := true;
      }
      items := items[i := items[i].(subtotal := s)];
    }

    method AddToCart(payload: AddPayload)
      modifies this
      ensures items == AddedItems(old(items), payload)
      ensures modified == (old(modified) || items != old(items))
    {
      var quantityToAdd := QuantityToAdd(payload);
      var product := ResolveProduct(payload);
      if product.None? || product.value.id.None? {
        return;
      }
      var p := product.value;
      var id := NormalizeId(p.id.value);
      var unitPrice := SafeNumber(p.price, 0);
      var existing := Find(items, id);
      if existing.Some? {
        var i := existing.value;
        ghost var before := items;
        // `existing.quantity || 0` is the quantity itself, an integer
        AssignQuantity(i, Min(99, items[i].quantity + quantityToAdd));
        AssignSubtotal(i, Recalc(items[i].price, items[i].quantity));
        assert items == before[i := Requantified(before[i], items[i].quantity)];
        assert items != before <==> items[i] != before[i];
      } else {
        items := items + [NewItem(p, unitPrice, quantityToAdd)];
        modified := true;
      }
    }

    method UpdateQuantity(payload: UpdatePayload)
      modifies this
      ensures items == UpdatedItems(old(items), payload)
      ensures modified == (old(modified) || (payload.id.Some? && QuantityToSet(payload) <= 0) || items != old(items))
    {
      if payload.id.None? {
        return;
      }
      var id := NormalizeId(payload.id.value);
      var q := QuantityToSet(payload);
      if q <= 0 {
        items := Filter(items, id);
        modified := true;
        return;
      }
      var found := Find(items, id);
      if found.None? {
        return;
      }
      var i := found.value;
      ghost var before := items;
      AssignQuantity(i, Min(99, q));
      AssignSubtotal(i, Recalc(items[i].price, items[i].quantity));
      assert items == before[i := Requantified(before[i], Min(99, q))];
      assert items != before <==> items[i] != before[i];
    }

    method RemoveFromCart(target: Option<RawId>)
      modifies this
      ensures items == Without(old(items), RemoveKey(target))
      ensures modified
    {
      var id := RemoveKey(target);
      items := Filter(items, id);
      modified := true;
    }

    method ClearCart()
      modifies this
      ensures items == [] && modified
    {
      items := [];
      modified := true;
    }

    /** The slice reducer applied to the draft: one of the four, or nothing for another slice's action. */
    method Apply(a: Action)
      modifies this
      ensures items == Reduce(old(items), a)
      ensures modified == (old(modified) || Replaces(old(items), a))
    {
      match a
      case AddToCart(p) => AddToCart(p);
      case UpdateQuantity(p) => UpdateQuantity(p);
      case RemoveFromCart(t) => RemoveFromCart(t);
      case ClearCart => ClearCart();
      case Unrelated =>
    }
  }
}
