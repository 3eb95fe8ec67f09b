/**
 * What the reducers of src/slices/cartSlice.js promise, stated over their
 * specification functions in CartSlice: id normalization, merging and capping
 * in `addToCart`, deletion and capping in `updateQuantity`, exact filtering in
 * `removeFromCart`, and that every reducer keeps a well-formed cart well-formed.
 */
module CartProperties {
  import opened Wrappers
  import opened CartSlice

  // ---------- id normalization ----------

  lemma {:induction false} DigitsInjective(a: nat, b: nat)
    requires Digits(a) == Digits(b)
    ensures a == b
    decreases a
  {
    if a >= 10 && b >= 10 {
      var da, db := Digits(a), Digits(b);
      assert da[|da| - 1] == DigitChar(a % 10) && db[|db| - 1] == DigitChar(b % 10);
      assert Digits(a / 10) == da[..|da| - 1] == db[..|db| - 1] == Digits(b / 10);
      DigitsInjective(a / 10, b / 10);
    } else if a < 10 && b < 10 {
      assert Digits(a)[0] == DigitChar(a) && Digits(b)[0] == DigitChar(b);
    }
  }

  /** The number a string of decimal digits denotes, most significant digit first. */
  function DecimalValue(s: string): int {
    if s == [] then 0 else DecimalValue(s[..|s| - 1]) * 10 + (s[|s| - 1] as int - '0' as int)
  }

  /** `Digits(n)` is the decimal numeral of n, with no leading zero. */
  lemma {:induction false} DigitsIsDecimalNumeral(n: nat)
    ensures DecimalValue(Digits(n)) == n
    ensures n >= 10 ==> Digits(n)[0] != '0'
    decreases n
  {
    var d := Digits(n);
    if n >= 10 {
      DigitsIsDecimalNumeral(n / 10);
      assert d[..|d| - 1] == Digits(n / 10);
      assert d[0] == Digits(n / 10)[0];
    } else {
      assert d[..|d| - 1] == [];
    }
  }

  /** `IntToString(n)` is n's numeral: a minus sign exactly for negative n, then the digits of |n|. */
  lemma IntToStringIsNumeral(n: int)
    ensures n < 0 ==> IntToString(n) == "-" + Digits(-n) && DecimalValue(Digits(-n)) == -n
    ensures n >= 0 ==> IntToString(n) == Digits(n) && DecimalValue(Digits(n)) == n
  {
    if n < 0 {
      DigitsIsDecimalNumeral(-n);
    } else {
      DigitsIsDecimalNumeral(n);
    }
  }

  lemma IntToStringSign(n: int)
    ensures IntToString(n)[0] == '-' <==> n < 0
  {
    if n >= 0 {
      assert IntToString(n)[0] == Digits(n)[0] && '0' <= Digits(n)[0] <= '9';
    }
  }

  /** Two numeric ids share a line exactly when they are the same number. */
  lemma NumericIdsCollideOnlyWhenEqual(a: int, b: int)
    ensures NormalizeId(NumId(a)) == NormalizeId(NumId(b)) <==> a == b
  {
    IntToStringSign(a);
    IntToStringSign(b);
    if IntToString(a) == IntToString(b) {
      if a < 0 && b < 0 {
        assert Digits(-a) == IntToString(a)[1..] == IntToString(b)[1..] == Digits(-b);
        DigitsInjective(-a, -b);
      } else if a >= 0 && b >= 0 {
        DigitsInjective(a, b);
      }
    }
  }

  /** A numeric id and a string id share a line exactly when the string is the number's decimal form. */
  lemma NumericAndStringIdsMatch(n: int, s: string)
    ensures NormalizeId(NumId(n)) == NormalizeId(StrId(s)) <==> s == IntToString(n)
    ensures NormalizeId(NumId(7)) == NormalizeId(StrId("7"))
    ensures NormalizeId(NumId(-42)) == "-42"
  {
    assert Digits(7) == "7";
    assert Digits(42) == Digits(4) + [DigitChar(2)] == "42";
  }

  // ---------- filtering ----------

  lemma {:induction false} WithoutMembership(items: seq<LineItem>, id: string, x: LineItem)
    ensures x in Without(items, id) <==> x in items && ItemKey(x) != id
    decreases |items|
  {
    if items != [] {
      var init := items[..|items| - 1];
      assert items == init + [items[|items| - 1]];
      WithoutMembership(init, id, x);
    }
  }

  lemma {:induction false} WithoutAbsentKey(items: seq<LineItem>, id: string)
    requires forall j :: 0 <= j < |items| ==> ItemKey(items[j]) != id
    ensures Without(items, id) == items
    decreases |items|
  {
    if items != [] {
      var init := items[..|items| - 1];
      WithoutAbsentKey(init, id);
      assert items == init + [items[|items| - 1]];
    }
  }

  lemma {:induction false} WithoutKeepsUnique(items: seq<LineItem>, id: string)
    requires Unique(items)
    ensures Unique(Without(items, id))
    decreases |items|
  {
    if items != [] {
      var n := |items|;
      var init, last := items[..n - 1], items[n - 1];
      WithoutKeepsUnique(init, id);
      if ItemKey(last) != id {
        var w := Without(init, id);
        forall k | 0 <= k < |w| ensures ItemKey(w[k]) != ItemKey(last) {
          WithoutMembership(init, id, w[k]);
          var m :| 0 <= m < |init| && init[m] == w[k];
          assert items[m] == init[m];
        }
      }
    }
  }

  /** On a cart with unique ids, removing the line at index `i` keeps the others in order. */
  lemma {:induction false} WithoutSplicesOut(items: seq<LineItem>, id: string, i: nat)
    requires Unique(items)
    requires i < |items| && ItemKey(items[i]) == id
    ensures Without(items, id) == items[..i] + items[i + 1..]
    decreases |items|
  {
    var n := |items|;
    var init := items[..n - 1];
    if i == n - 1 {
      WithoutAbsentKey(init, id);
    } else {
      assert Unique(init);
      WithoutSplicesOut(init, id, i);
      assert items[..i] + items[i + 1..] == init[..i] + init[i + 1..] + [items[n - 1]];
    }
  }

  lemma WithoutKeepsWellFormed(items: seq<LineItem>, id: string)
    requires WellFormed(items)
    ensures WellFormed(Without(items, id))
  {
    WithoutKeepsUnique(items, id);
    forall x | x in Without(items, id) ensures ItemInvariant(x) {
      WithoutMembership(items, id, x);
    }
  }

  /** In a cart with unique ids, the first match of a key is its only match. */
  lemma FirstIndexIsTheMatch(items: seq<LineItem>, id: string, i: nat)
    requires Unique(items)
    requires i < |items| && ItemKey(items[i]) == id
    ensures FirstIndexOf(items, id) == Some(i)
  {
  }

  lemma ReplacingKeepsWellFormed(items: seq<LineItem>, i: nat, it: LineItem)
    requires WellFormed(items)
    requires i < |items| && ItemKey(it) == ItemKey(items[i]) && ItemInvariant(it)
    ensures WellFormed(items[i := it])
  {
    var r := items[i := it];
    forall x | x in r ensures ItemInvariant(x) {
      var m :| 0 <= m < |r| && r[m] == x;
      if m != i {
        assert items[m] == x;
      }
    }
  }

  // ---------- addToCart ----------

  /** Without a resolved product carrying an id, `addToCart` changes nothing and publishes nothing. */
  lemma AddIgnoresPayloadWithoutId(items: seq<LineItem>, payload: AddPayload)
    requires ResolveProduct(payload).None? || ResolveProduct(payload).value.id.None?
    ensures Reduce(items, AddToCart(payload)) == items
    ensures !Replaces(items, AddToCart(payload))
  {
  }

  /**
   * Adding an id already in the cart appends nothing: that line's quantity is
   * raised by the amount added up to 99, its stored price is kept, its subtotal
   * is recomputed, and every other line is untouched.
   */
  lemma AddMergesIntoExistingLine(items: seq<LineItem>, payload: AddPayload, i: nat)
    requires Unique(items)
    requires ResolveProduct(payload).Some? && ResolveProduct(payload).value.id.Some?
    requires i < |items| && ItemKey(items[i]) == NormalizeId(ResolveProduct(payload).value.id.value)
    ensures var r := AddedItems(items, payload);
      && |r| == |items|
      && r[i].quantity == Min(99, items[i].quantity + QuantityToAdd(payload))
      && r[i].quantity <= 99
      && r[i].price == items[i].price
      && r[i].subtotal == Recalc(items[i].price, r[i].quantity)
      && r[i] == items[i].(quantity := r[i].quantity, subtotal := r[i].subtotal)
      && (forall j :: 0 <= j < |r| && j != i ==> r[j] == items[j])
  {
    FirstIndexIsTheMatch(items, ItemKey(items[i]), i);
  }

  /**
   * Adding an id not yet in the cart appends exactly one line at the end: the raw
   * id, the title or a placeholder, the coerced price or 0, the amount added
   * (not capped at 99 on this path) and the subtotal of the two.
   */
  lemma AddAppendsNewLine(items: seq<LineItem>, payload: AddPayload)
    requires ResolveProduct(payload).Some? && ResolveProduct(payload).value.id.Some?
    requires forall j :: 0 <= j < |items| ==> ItemKey(items[j]) != NormalizeId(ResolveProduct(payload).value.id.value)
    ensures var p := ResolveProduct(payload).value;
      var r := AddedItems(items, payload);
      && |r| == |items| + 1
      && r[..|items|] == items
      && r[|items|].id == p.id.value
      && r[|items|].title == (if p.title.Some? then p.title.value else "Untitled product")
      && r[|items|].price == (if p.price.Finite? then p.price.value else 0)
      && r[|items|].image ==
        (if p.image.Some? then p.image.value else if p.thumbnail.Some? then p.thumbnail.value else "/placeholder-200.png")
      && r[|items|].quantity == QuantityToAdd(payload)
      && r[|items|].subtotal == r[|items|].price * r[|items|].quantity
  {
    var r := AddedItems(items, payload);
    assert r[..|items|] == items;
  }

  lemma AddKeepsWellFormed(items: seq<LineItem>, payload: AddPayload)
    requires WellFormed(items)
    ensures WellFormed(AddedItems(items, payload))
  {
    var product := ResolveProduct(payload);
    if product.Some? && product.value.id.Some? {
      var p := product.value;
      var id := NormalizeId(p.id.value);
      match FirstIndexOf(items, id)
      case Some(i) =>
        assert items[i] in items;
        ReplacingKeepsWellFormed(items, i, Requantified(items[i], Min(99, items[i].quantity + QuantityToAdd(payload))));
      case None =>
        var r := AddedItems(items, payload);
        assert r == items + [NewItem(p, SafeNumber(p.price, 0), QuantityToAdd(payload))];
        forall x | x in r ensures ItemInvariant(x) {
          assert x in items || x == r[|items|];
        }
    }
  }

  /**
   * Two adds of the same normalized id leave exactly one line for it, with a
   * quantity of at most 99, whatever amounts were asked for.
   */
  lemma SecondAddIsCapped(items: seq<LineItem>, first: AddPayload, second: AddPayload)
    requires WellFormed(items)
    requires ResolveProduct(first).Some? && ResolveProduct(first).value.id.Some?
    requires ResolveProduct(second).Some? && ResolveProduct(second).value.id.Some?
    requires NormalizeId(ResolveProduct(first).value.id.value) == NormalizeId(ResolveProduct(second).value.id.value)
    ensures var id := NormalizeId(ResolveProduct(first).value.id.value);
      var r := AddedItems(AddedItems(items, first), second);
      exists i :: 0 <= i < |r| && ItemKey(r[i]) == id && r[i].quantity <= 99
        && forall j :: 0 <= j < |r| && j != i ==> ItemKey(r[j]) != id
  {
    var id := NormalizeId(ResolveProduct(first).value.id.value);
    var mid := AddedItems(items, first);
    AddKeepsWellFormed(items, first);
    var i: nat := if FirstIndexOf(items, id).Some? then FirstIndexOf(items, id).value else |items|;
    assert i < |mid| && ItemKey(mid[i]) == id;
    AddMergesIntoExistingLine(mid, second, i);
    AddKeepsWellFormed(mid, second);
    var r := AddedItems(mid, second);
    assert ItemKey(r[i]) == id;
    forall j | 0 <= j < |r| && j != i ensures ItemKey(r[j]) != id {
      if j < i {
        assert ItemKey(r[j]) != ItemKey(r[i]);
      } else {
        assert ItemKey(r[i]) != ItemKey(r[j]);
      }
    }
  }

  /** The first add of a new id is not capped: 150 units of a new product make a line of 150. */
  lemma FirstAddIsNotCapped(p: Product)
    requires p.id.Some?
    ensures AddedItems([], Bundle(Some(p), Finite(150.0)))[0].quantity == 150
  {
  }

  // ---------- updateQuantity ----------

  lemma UpdateWithoutIdIsNoop(items: seq<LineItem>, q: Num<real>)
    ensures Reduce(items, UpdateQuantity(UpdatePayload(None, q))) == items
    ensures !Replaces(items, UpdateQuantity(UpdatePayload(None, q)))
  {
  }

  /**
   * A quantity whose floor is at most 0, or one that is not a finite number,
   * removes every line with that id and keeps all the others.
   */
  lemma UpdateNonPositiveRemoves(items: seq<LineItem>, payload: UpdatePayload, x: LineItem)
    requires payload.id.Some?
    requires !payload.quantity.Finite? || payload.quantity.value.Floor <= 0
    ensures var id := NormalizeId(payload.id.value);
      var r := UpdatedItems(items, payload);
      && r == Without(items, id)
      && (x in r <==> x in items && ItemKey(x) != id)
  {
    WithoutMembership(items, NormalizeId(payload.id.value), x);
  }

  /**
   * A positive quantity sets the matching line's quantity to at most 99 and its
   * subtotal from its stored price; every other line is untouched.
   */
  lemma UpdatePositiveSetsQuantity(items: seq<LineItem>, payload: UpdatePayload, i: nat)
    requires Unique(items)
    requires payload.id.Some? && payload.quantity.Finite? && payload.quantity.value.Floor > 0
    requires i < |items| && ItemKey(items[i]) == NormalizeId(payload.id.value)
    ensures var r := UpdatedItems(items, payload);
      && |r| == |items|
      && r[i].quantity == Min(99, payload.quantity.value.Floor)
      && 1 <= r[i].quantity <= 99
      && r[i].subtotal == Recalc(items[i].price, r[i].quantity)
      && r[i] == items[i].(quantity := r[i].quantity, subtotal := r[i].subtotal)
      && (forall j :: 0 <= j < |r| && j != i ==> r[j] == items[j])
  {
    FirstIndexIsTheMatch(items, ItemKey(items[i]), i);
  }

  lemma UpdateUnknownIdIsNoop(items: seq<LineItem>, payload: UpdatePayload)
    requires payload.id.Some? && QuantityToSet(payload) > 0
    requires forall j :: 0 <= j < |items| ==> ItemKey(items[j]) != NormalizeId(payload.id.value)
    ensures UpdatedItems(items, payload) == items
    ensures !Replaces(items, UpdateQuantity(payload))
  {
  }

  lemma UpdateKeepsWellFormed(items: seq<LineItem>, payload: UpdatePayload)
    requires WellFormed(items)
    ensures WellFormed(UpdatedItems(items, payload))
  {
    if payload.id.Some? {
      var id := NormalizeId(payload.id.value);
      var q := QuantityToSet(payload);
      if q <= 0 {
        WithoutKeepsWellFormed(items, id);
      } else if FirstIndexOf(items, id).Some? {
        var i := FirstIndexOf(items, id).value;
        ReplacingKeepsWellFormed(items, i, Requantified(items[i], Min(99, q)));
      }
    }
  }

  // ---------- removeFromCart and clearCart ----------

  /** `removeFromCart` keeps exactly the lines whose normalized id differs from the target. */
  lemma RemoveDeletesExactly(items: seq<LineItem>, target: Option<RawId>, x: LineItem)
    ensures var r := Reduce(items, RemoveFromCart(target));
      && (x in r <==> x in items && ItemKey(x) != RemoveKey(target))
      && |r| <= |items|
  {
    WithoutMembership(items, RemoveKey(target), x);
    WithoutIsShorter(items, RemoveKey(target));
  }

  lemma {:induction false} WithoutIsShorter(items: seq<LineItem>, id: string)
    ensures |Without(items, id)| <= |items|
    decreases |items|
  {
    if items != [] {
      WithoutIsShorter(items[..|items| - 1], id);
    }
  }

  /** On a cart with unique ids, `removeFromCart` of a present id drops that one line, order kept. */
  lemma RemoveKeepsOrder(items: seq<LineItem>, target: Option<RawId>, i: nat)
    requires Unique(items)
    requires i < |items| && ItemKey(items[i]) == RemoveKey(target)
    ensures Reduce(items, RemoveFromCart(target)) == items[..i] + items[i + 1..]
  {
    WithoutSplicesOut(items, RemoveKey(target), i);
  }

  lemma RemoveAbsentIsNoop(items: seq<LineItem>, target: Option<RawId>)
    requires forall j :: 0 <= j < |items| ==> ItemKey(items[j]) != RemoveKey(target)
    ensures Reduce(items, RemoveFromCart(target)) == items
  {
    WithoutAbsentKey(items, RemoveKey(target));
  }

  /** `clearCart` empties the cart, and a second clear gives the same empty cart. */
  lemma ClearIsIdempotent(items: seq<LineItem>)
    ensures Reduce(items, ClearCart) == []
    ensures Reduce(Reduce(items, ClearCart), ClearCart) == Reduce(items, ClearCart)
  {
  }

  // ---------- all reducers ----------

  /** Every reducer keeps ids unique, quantities at least 1 and subtotals derived. */
  lemma ReduceKeepsWellFormed(items: seq<LineItem>, a: Action)
    requires WellFormed(items)
    ensures WellFormed(Reduce(items, a))
  {
    match a
    case AddToCart(p) => AddKeepsWellFormed(items, p);
    case UpdateQuantity(p) => UpdateKeepsWellFormed(items, p);
    case RemoveFromCart(t) => WithoutKeepsWellFormed(items, RemoveKey(t));
    case ClearCart =>
    case Unrelated =>
  }

  /**
   * The cap holds after every reducer when it held before, provided an add
   * does not ask for more than 99 units: the merge and the update cap, the
   * filters only drop lines, and only a new line takes its amount uncapped.
   */
  lemma ReduceKeepsCapped(items: seq<LineItem>, a: Action)
    requires Capped(items)
    requires a.AddToCart? ==> QuantityToAdd(a.add) <= 99
    ensures Capped(Reduce(items, a))
  {
    var r := Reduce(items, a);
    match a
    case AddToCart(p) =>
      forall j | 0 <= j < |r| ensures r[j].quantity <= 99 {
        if j < |items| { assert items[j] in items; }
      }
    case UpdateQuantity(p) =>
      if p.id.Some? && QuantityToSet(p) <= 0 {
        forall x | x in r ensures x.quantity <= 99 {
          WithoutMembership(items, NormalizeId(p.id.value), x);
        }
      } else {
        forall j | 0 <= j < |r| ensures r[j].quantity <= 99 {
          if j < |items| { assert items[j] in items; }
        }
      }
    case RemoveFromCart(t) =>
      forall x | x in r ensures x.quantity <= 99 {
        WithoutMembership(items, RemoveKey(t), x);
      }
    case ClearCart =>
    case Unrelated =>
  }

  /**
   * Adding product 7 by number and then setting the quantity of id "7" by
   * string acts on the same line: no duplicate is created.
   */
  lemma NumericAddThenStringUpdate(p: Product)
    requires p.id == Some(NumId(7))
    ensures var r := Reduce(Reduce([], AddToCart(Bare(p))), UpdateQuantity(UpdatePayload(Some(StrId("7")), Finite(3.0))));
      |r| == 1 && r[0].id == NumId(7) && r[0].quantity == 3 && r[0].subtotal == Recalc(r[0].price, 3)
  {
    NumericAndStringIdsMatch(7, "7");
    var one := Reduce([], AddToCart(Bare(p)));
    assert one == [NewItem(p, SafeNumber(p.price, 0), 1)];
    assert ItemKey(one[0]) == "7";
    var update := UpdatePayload(Some(StrId("7")), Finite(3.0));
    assert QuantityToSet(update) == 3;
    FirstIndexIsTheMatch(one, "7", 0);
    assert UpdatedItems(one, update) == [Requantified(one[0], 3)];
  }

  /** The product of the scenario below: id "1", "Shirt", 19.99. */
  function Shirt(): Product { Product(Some(StrId("1")), Some("Shirt"), Finite(1999), None, None) }

  /** A shirt at 19.99 added twice with the default quantity is one line of 2 at 39.98. */
  lemma ShirtAddedTwice()
    ensures var twice := Reduce(Reduce([], AddToCart(Bare(Shirt()))), AddToCart(Bare(Shirt())));
      |twice| == 1 && twice[0].id == StrId("1") && twice[0].quantity == 2 && twice[0].subtotal == 3998
  {
    var once := Reduce([], AddToCart(Bare(Shirt())));
    assert once == [NewItem(Shirt(), 1999, 1)];
    FirstIndexIsTheMatch(once, "1", 0);
    assert Reduce(once, AddToCart(Bare(Shirt()))) == [Requantified(once[0], 2)];
  }

  /** Setting the shirt line's quantity to 101 caps it at 99, subtotal 1979.01; removing it empties the cart. */
  lemma ShirtCappedThenRemoved(line: LineItem)
    requires line.id == StrId("1") && line.price == 1999
    ensures var capped := Reduce([line], UpdateQuantity(UpdatePayload(Some(StrId("1")), Finite(101.0))));
      && |capped| == 1 && capped[0].quantity == 99 && capped[0].subtotal == 197901
      && Reduce(capped, RemoveFromCart(Some(StrId("1")))) == []
  {
    var update := UpdatePayload(Some(StrId("1")), Finite(101.0));
    assert QuantityToSet(update) == 101;
    FirstIndexIsTheMatch([line], "1", 0);
    var capped := Reduce([line], UpdateQuantity(update));
    assert capped == [Requantified(line, 99)];
    WithoutSplicesOut(capped, "1", 0);
    assert capped[..0] + capped[1..] == [];
  }
}
