/**
 * The cart of `src/context/CartContext.js`: a pure reducer over the ordered
 * list of cart lines, the queries and price folds derived from it, the guarded
 * commands the provider exposes, and the provider itself as a class that holds
 * the lines and mirrors them into durable storage after every change.
 */
module Cart {
  import opened Wrappers
  import opened Products
  import Seqs
  import Helpers

  /** A cart line: the product as it was when first added (`{...product, quantity}`). */
  datatype Line = Line(product: Product, quantity: int) {
    function Id(): int {
      product.id
    }
  }

  /** The actions `cartReducer` understands, plus any other action type. */
  datatype Action =
    | AddToCart(product: Product, quantity: int)
    | RemoveFromCart(productId: int)
    | UpdateQuantity(productId: int, quantity: int)
    | ClearCart
    | LoadCart(loaded: Option<seq<Line>>)
    | Unknown(kind: string)

  // ----- the reducer -----

  /** `items.find(item => item.id === id)`: the first line with that id. */
  function Find(items: seq<Line>, id: int): (r: Option<Line>)
    ensures r.Some? ==> r.value in items && r.value.Id() == id
    ensures r.Some? ==> exists i :: (0 <= i < |items| && items[i] == r.value &&
                                     forall j :: 0 <= j < i ==> items[j].Id() != id)
    ensures r.None? <==> forall i :: 0 <= i < |items| ==> items[i].Id() != id
  {
    if items == [] then None
    else if items[0].Id() == id then Some(items[0])
    else Find(items[1..], id)
  }

  /** The `map` of ADD_TO_CART: every line with the id gains `q`. */
  function AddQuantity(items: seq<Line>, id: int, q: int): (r: seq<Line>)
    ensures |r| == |items|
    ensures forall i :: 0 <= i < |items| ==> r[i].product == items[i].product
    ensures forall i :: 0 <= i < |items| ==>
      r[i].quantity == if items[i].Id() == id then items[i].quantity + q else items[i].quantity
  {
    if items == [] then []
    else
      var head := if items[0].Id() == id then items[0].(quantity := items[0].quantity + q) else items[0];
      [head] + AddQuantity(items[1..], id, q)
  }

  /** The `map` of UPDATE_QUANTITY: every line with the id gets quantity `q`. */
  function SetQuantity(items: seq<Line>, id: int, q: int): (r: seq<Line>)
    ensures |r| == |items|
    ensures forall i :: 0 <= i < |items| ==> r[i].product == items[i].product
    ensures forall i :: 0 <= i < |items| ==>
      r[i].quantity == if items[i].Id() == id then q else items[i].quantity
  {
    if items == [] then []
    else
      var head := if items[0].Id() == id then items[0].(quantity := q) else items[0];
      [head] + SetQuantity(items[1..], id, q)
  }

  function OtherThan(id: int): Line -> bool {
    (l: Line) => l.Id() != id
  }

  /** The `filter` of REMOVE_FROM_CART. */
  function Without(items: seq<Line>, id: int): seq<Line> {
    Seqs.Filter(items, OtherThan(id))
  }

  /** `cartReducer`, on the `items` of the state (the state has no other field). */
  function Reduce(items: seq<Line>, action: Action): (r: seq<Line>)
    ensures action.AddToCart? ==> |r| == |items| + if IsInCart(items, action.product.id) then 0 else 1
    ensures action.RemoveFromCart? ==> !IsInCart(r, action.productId) && |r| <= |items|
    ensures action.UpdateQuantity? && action.quantity <= 0 ==> !IsInCart(r, action.productId)
    ensures action.UpdateQuantity? && action.quantity > 0 ==> |r| == |items|
  {
    match action
    case AddToCart(p, q) =>
      if Find(items, p.id).Some? then AddQuantity(items, p.id, q) else items + [Line(p, q)]
    case RemoveFromCart(id) => Without(items, id)
    case UpdateQuantity(id, q) => if q <= 0 then Without(items, id) else SetQuantity(items, id, q)
    case ClearCart => []
    case LoadCart(loaded) => loaded.GetOr([])
    case Unknown(_) => items
  }

  // ----- queries and price folds -----

  /** `isInCart`: some line has the id. */
  predicate IsInCart(items: seq<Line>, id: int)
    ensures IsInCart(items, id) <==> exists i :: 0 <= i < |items| && items[i].Id() == id
  {
    Find(items, id).Some?
  }

  /** `getCartItemQuantity`: the first matching line's quantity, or 0. */
  function QuantityOf(items: seq<Line>, id: int): (r: int)
    ensures !IsInCart(items, id) ==> r == 0
    ensures IsInCart(items, id) ==> exists i :: (0 <= i < |items| && items[i].Id() == id &&
                                                 r == items[i].quantity && forall j :: 0 <= j < i ==> items[j].Id() != id)
  {
    match Find(items, id)
    case Some(l) => l.quantity
    case None => 0
  }

  /** `getItemCount`: the sum of the quantities. */
  function ItemCount(items: seq<Line>): (r: int)
    ensures PositiveQuantities(items) ==> r >= |items|
  {
    if items == [] then 0 else items[0].quantity + ItemCount(items[1..])
  }

  /** The discounted INR price of one unit of a line. */
  function UnitPrice(l: Line): real {
    Helpers.CalculateDiscountedPrice(l.product.price, OrZero(l.product.discountPercentage))
  }

  function LineTotal(l: Line): real {
    UnitPrice(l) * l.quantity as real
  }

  /** `getCartTotal` and `getCartSubtotal`: the sum of the line totals. */
  function Subtotal(items: seq<Line>): real {
    if items == [] then 0.0 else LineTotal(items[0]) + Subtotal(items[1..])
  }

  /** `getCartGST`. */
  function Gst(items: seq<Line>): real {
    Helpers.CalculateGst(Subtotal(items))
  }

  /** `getCartGrandTotal`: subtotal plus GST; no shipping term. */
  function GrandTotal(items: seq<Line>): (r: real)
    ensures Subtotal(items) >= 0.0 ==> Subtotal(items) <= r <= 2.0 * Subtotal(items)
  {
    Subtotal(items) + Gst(items)
  }

  // ----- invariants -----

  ghost predicate UniqueIds(items: seq<Line>) {
    forall i, j :: 0 <= i < j < |items| ==> items[i].Id() != items[j].Id()
  }

  ghost predicate PositiveQuantities(items: seq<Line>) {
    forall i :: 0 <= i < |items| ==> items[i].quantity >= 1
  }

  /** No two lines share an id and every quantity is at least 1. */
  ghost predicate WellFormed(items: seq<Line>) {
    UniqueIds(items) && PositiveQuantities(items)
  }

  /** Every line's quantity is within the stock recorded in its snapshot. */
  ghost predicate WithinStock(items: seq<Line>) {
    forall i :: 0 <= i < |items| ==> items[i].quantity <= StockOrZero(items[i].product)
  }

  // ----- reducer properties -----

  /** ADD_TO_CART of a product already in the cart adds the quantity to that
      line only; the number and order of lines do not change. */
  lemma AddExistingLine(items: seq<Line>, p: Product, q: int)
    requires IsInCart(items, p.id)
    ensures var r := Reduce(items, AddToCart(p, q));
      |r| == |items| &&
      forall i :: 0 <= i < |items| ==>
        r[i] == if items[i].Id() == p.id then items[i].(quantity := items[i].quantity + q) else items[i]
  {
  }

  /** ADD_TO_CART of a new product appends one line carrying it and the quantity. */
  lemma AddNewLine(items: seq<Line>, p: Product, q: int)
    requires !IsInCart(items, p.id)
    ensures Reduce(items, AddToCart(p, q)) == items + [Line(p, q)]
  {
  }

  /** REMOVE_FROM_CART leaves no line with the id and keeps every other line,
      in order; an absent id leaves the lines unchanged. */
  lemma RemoveLine(items: seq<Line>, id: int)
    ensures var r := Reduce(items, RemoveFromCart(id));
      Seqs.SubsequenceOf(r, items) &&
      (forall l :: l in r <==> l in items && l.Id() != id)
    ensures forall l :: (multiset(Reduce(items, RemoveFromCart(id)))[l] ==
                         if l.Id() != id then multiset(items)[l] else 0)
    ensures !IsInCart(items, id) ==> Reduce(items, RemoveFromCart(id)) == items
  {
    Seqs.FilterIsSubsequence(items, OtherThan(id));
    forall l ensures multiset(Without(items, id))[l] == if l.Id() != id then multiset(items)[l] else 0 {
      Seqs.FilterCount(items, OtherThan(id), l);
    }
    forall l ensures l in Without(items, id) <==> l in items && l.Id() != id {
      Seqs.FilterMembership(items, OtherThan(id), l);
    }
    if !IsInCart(items, id) {
      Seqs.FilterKeepsAll(items, OtherThan(id));
    }
  }

  /** UPDATE_QUANTITY to zero or below is REMOVE_FROM_CART; a positive quantity
      replaces the quantity of the matching line and nothing else, whatever
      the stock. */
  lemma UpdateLine(items: seq<Line>, id: int, q: int)
    ensures q <= 0 ==> Reduce(items, UpdateQuantity(id, q)) == Reduce(items, RemoveFromCart(id))
    ensures q > 0 ==> var r := Reduce(items, UpdateQuantity(id, q));
      |r| == |items| &&
      forall i :: 0 <= i < |items| ==>
        r[i] == if items[i].Id() == id then items[i].(quantity := q) else items[i]
  {
  }

  /** CLEAR_CART empties the cart, LOAD_CART installs the loaded lines verbatim
      (none loaded means empty) and an unknown action changes nothing. */
  lemma ClearLoadUnknown(items: seq<Line>, loaded: seq<Line>, kind: string)
    ensures Reduce(items, ClearCart) == []
    ensures Reduce(items, LoadCart(Some(loaded))) == loaded
    ensures Reduce(items, LoadCart(None)) == []
    ensures Reduce(items, Unknown(kind)) == items
  {
  }

  // ----- query properties -----

  /** With unique ids, the quantity of an id is that of its line. */
  lemma {:induction false} QuantityOfLine(items: seq<Line>, i: int)
    requires UniqueIds(items) && 0 <= i < |items|
    ensures QuantityOf(items, items[i].Id()) == items[i].quantity
  {
    if i > 0 {
      assert items[0].Id() != items[i].Id();
      QuantityOfLine(items[1..], i - 1);
    }
  }

  /** The subtotal is not negative when no line total is (a discount above
      100% would make one negative). */
  lemma {:induction false} SubtotalNonNegative(items: seq<Line>)
    requires forall i :: 0 <= i < |items| ==> LineTotal(items[i]) >= 0.0
    ensures Subtotal(items) >= 0.0
  {
    if items != [] {
      assert forall i :: 0 <= i < |items[1..]| ==> items[1..][i] == items[i + 1];
      SubtotalNonNegative(items[1..]);
      assert LineTotal(items[0]) >= 0.0;
    }
  }

  /** The grand total is the subtotal with 18% GST added and nothing else. */
  lemma GrandTotalIsSubtotalWithGst(items: seq<Line>)
    ensures GrandTotal(items) == Subtotal(items) * 1.18
  {
  }

  lemma {:induction false} SubtotalAppend(items: seq<Line>, l: Line)
    ensures Subtotal(items + [l]) == Subtotal(items) + LineTotal(l)
    ensures ItemCount(items + [l]) == ItemCount(items) + l.quantity
  {
    if items != [] {
      assert (items + [l])[1..] == items[1..] + [l];
      SubtotalAppend(items[1..], l);
    }
  }

  lemma {:induction false} AddQuantityAbsent(items: seq<Line>, id: int, q: int)
    requires !IsInCart(items, id)
    ensures AddQuantity(items, id, q) == items
  {
    assert forall i :: 0 <= i < |items| ==> AddQuantity(items, id, q)[i] == items[i];
  }

  lemma LineTotalBump(l: Line, q: int)
    ensures LineTotal(l.(quantity := l.quantity + q)) == LineTotal(l) + LineTotal(l.(quantity := q))
  {
    assert UnitPrice(l.(quantity := q)) == UnitPrice(l);
    var p := UnitPrice(l);
    assert UnitPrice(l.(quantity := l.quantity + q)) == p;
    assert p * (l.quantity + q) as real == p * l.quantity as real + p * q as real;
  }

  lemma TailUnique(items: seq<Line>)
    requires items != [] && UniqueIds(items)
    ensures UniqueIds(items[1..])
    ensures !IsInCart(items[1..], items[0].Id())
  {
    forall i, j | 0 <= i < j < |items[1..]| ensures items[1..][i].Id() != items[1..][j].Id() {
      assert items[1..][i] == items[i + 1] && items[1..][j] == items[j + 1];
    }
    forall i | 0 <= i < |items[1..]| ensures items[1..][i].Id() != items[0].Id() {
      assert items[1..][i] == items[i + 1];
    }
  }

  /** Adding to an existing line raises the item count by the quantity and the
      subtotal by that line's unit price times the quantity. */
  lemma AddExistingTotals(items: seq<Line>, k: int, q: int)
    requires UniqueIds(items) && 0 <= k < |items|
    ensures ItemCount(AddQuantity(items, items[k].Id(), q)) == ItemCount(items) + q
    ensures Subtotal(AddQuantity(items, items[k].Id(), q)) == Subtotal(items) + LineTotal(items[k].(quantity := q))
  {
    AddExistingCount(items, k, q);
    AddExistingSubtotal(items, k, q);
  }

  lemma {:induction false} AddExistingCount(items: seq<Line>, k: int, q: int)
    requires UniqueIds(items) && 0 <= k < |items|
    ensures ItemCount(AddQuantity(items, items[k].Id(), q)) == ItemCount(items) + q
  {
    var id := items[k].Id();
    var r := AddQuantity(items, id, q);
    assert r[1..] == AddQuantity(items[1..], id, q);
    TailUnique(items);
    if k == 0 {
      AddQuantityAbsent(items[1..], id, q);
      assert r[0] == items[0].(quantity := items[0].quantity + q);
    } else {
      assert items[1..][k - 1] == items[k];
      AddExistingCount(items[1..], k - 1, q);
      assert r[0] == items[0];
    }
  }

  lemma {:induction false} AddExistingSubtotal(items: seq<Line>, k: int, q: int)
    requires UniqueIds(items) && 0 <= k < |items|
    ensures Subtotal(AddQuantity(items, items[k].Id(), q)) == Subtotal(items) + LineTotal(items[k].(quantity := q))
  {
    var id := items[k].Id();
    var r := AddQuantity(items, id, q);
    assert r[1..] == AddQuantity(items[1..], id, q);
    TailUnique(items);
    if k == 0 {
      AddQuantityAbsent(items[1..], id, q);
      assert r[0] == items[0].(quantity := items[0].quantity + q);
      LineTotalBump(items[0], q);
    } else {
      assert items[1..][k - 1] == items[k];
      AddExistingSubtotal(items[1..], k - 1, q);
      assert items[0].Id() != id;
      assert r[0] == items[0];
    }
  }

  /** ADD_TO_CART raises the item count by the quantity and the subtotal by the
      quantity at the unit price of the line it lands on: the existing line's
      snapshot price, or the new product's. */
  lemma AddTotals(items: seq<Line>, p: Product, q: int)
    requires UniqueIds(items)
    ensures ItemCount(Reduce(items, AddToCart(p, q))) == ItemCount(items) + q
    ensures forall k :: 0 <= k < |items| && items[k].Id() == p.id ==>
      Subtotal(Reduce(items, AddToCart(p, q))) == Subtotal(items) + LineTotal(items[k].(quantity := q))
    ensures !IsInCart(items, p.id) ==>
      Subtotal(Reduce(items, AddToCart(p, q))) == Subtotal(items) + LineTotal(Line(p, q))
  {
    var r := Reduce(items, AddToCart(p, q));
    if IsInCart(items, p.id) {
      assert r == AddQuantity(items, p.id, q);
      var k :| 0 <= k < |items| && items[k].Id() == p.id;
      AddExistingTotals(items, k, q);
      forall k' | 0 <= k' < |items| && items[k'].Id() == p.id
        ensures Subtotal(r) == Subtotal(items) + LineTotal(items[k'].(quantity := q))
      {
        assert k' == k;
      }
    } else {
      assert r == items + [Line(p, q)];
      SubtotalAppend(items, Line(p, q));
    }
  }

  /** Removing a line lowers the item count by its quantity. */
  lemma {:induction false} RemoveTotals(items: seq<Line>, id: int)
    requires UniqueIds(items)
    ensures ItemCount(Without(items, id)) == ItemCount(items) - QuantityOf(items, id)
    ensures Subtotal(Without(items, id)) ==
      Subtotal(items) - (match Find(items, id) case Some(l) => LineTotal(l) case None => 0.0)
  {
    if items != [] {
      TailUnique(items);
      RemoveTotals(items[1..], id);
      if items[0].Id() == id {
        Seqs.FilterKeepsAll(items[1..], OtherThan(id));
      }
    }
  }

  /** Removing lines keeps the ids unique and the quantities positive. */
  lemma {:induction false} WithoutWellFormed(items: seq<Line>, id: int)
    requires WellFormed(items)
    ensures WellFormed(Without(items, id))
  {
    if items != [] {
      TailUnique(items);
      WithoutWellFormed(items[1..], id);
      var rest := Without(items[1..], id);
      if items[0].Id() != id {
        assert Without(items, id) == [items[0]] + rest;
        forall j | 0 <= j < |rest| ensures rest[j].Id() != items[0].Id() {
          assert rest[j] in items[1..];
        }
      }
    }
  }

  // ----- the guarded commands of the provider -----

  /** What `addToCart` returns: nothing (no product or a non-positive
      quantity), `false` (declined for stock) or `true` (dispatched). */
  datatype AddOutcome = Ignored | Declined | Added

  /** The checks of `addToCart` before it dispatches: the quantity already in
      the cart plus the requested one must not exceed the product's stock as
      passed in now (a missing stock counts as zero). */
  function AddGuard(items: seq<Line>, product: Option<Product>, quantity: int): (r: AddOutcome)
    ensures r == Ignored <==> product.None? || quantity <= 0
    ensures r == Declined <==> (product.Some? && quantity > 0 &&
                                QuantityOf(items, product.value.id) + quantity > StockOrZero(product.value))
    ensures r == Added <==> (product.Some? && quantity > 0 &&
                             QuantityOf(items, product.value.id) + quantity <= StockOrZero(product.value))
  {
    if product.None? || quantity <= 0 then Ignored
    else if QuantityOf(items, product.value.id) + quantity > StockOrZero(product.value) then Declined
    else Added
  }

  /** The commands the provider exposes to the pages. */
  datatype Command =
    | Add(product: Option<Product>, quantity: int)
    | Remove(productId: int)
    | Update(productId: int, quantity: int)
    | Clear

  /** The lines after one command: `addToCart` dispatches only when its guard
      passes, `updateQuantity` ignores negative quantities, the others always
      dispatch. */
  function Execute(items: seq<Line>, c: Command): (r: seq<Line>)
    ensures c.Remove? ==> !IsInCart(r, c.productId)
    ensures c.Update? && c.quantity == 0 ==> !IsInCart(r, c.productId)
    ensures c.Update? && c.quantity != 0 ==> |r| == |items|
    ensures c.Clear? ==> r == []
  {
    match c
    case Add(p, q) => if AddGuard(items, p, q) == Added then Reduce(items, AddToCart(p.value, q)) else items
    case Remove(id) => Reduce(items, RemoveFromCart(id))
    case Update(id, q) => if q < 0 then items else Reduce(items, UpdateQuantity(id, q))
    case Clear => Reduce(items, ClearCart)
  }

  /** The lines after a sequence of commands, first to last. */
  function Run(items: seq<Line>, cs: seq<Command>): seq<Line>
    decreases |cs|
  {
    if cs == [] then items else Run(Execute(items, cs[0]), cs[1..])
  }

  lemma {:induction false} AddQuantityRaisesFirst(items: seq<Line>, id: int, q: int)
    requires IsInCart(items, id)
    ensures QuantityOf(AddQuantity(items, id, q), id) == QuantityOf(items, id) + q
  {
    if items[0].Id() != id {
      AddQuantityRaisesFirst(items[1..], id, q);
      assert AddQuantity(items, id, q)[1..] == AddQuantity(items[1..], id, q);
    }
  }

  lemma {:induction false} AppendedLineQuantity(items: seq<Line>, l: Line)
    requires !IsInCart(items, l.Id())
    ensures QuantityOf(items + [l], l.Id()) == l.quantity
  {
    if items != [] {
      assert (items + [l])[1..] == items[1..] + [l];
      AppendedLineQuantity(items[1..], l);
    }
  }

  /** `addToCart` as the pages see it: an accepted add raises the quantity the
      cart reports for the product by exactly the requested amount, and an
      ignored or declined add leaves the cart as it was. Duplicate ids, which
      a loaded cart may hold, do not change this. */
  lemma AddCommandEffect(items: seq<Line>, product: Option<Product>, q: int)
    ensures AddGuard(items, product, q) == Added ==>
      QuantityOf(Execute(items, Add(product, q)), product.value.id) == QuantityOf(items, product.value.id) + q
    ensures AddGuard(items, product, q) != Added ==> Execute(items, Add(product, q)) == items
  {
    if AddGuard(items, product, q) == Added {
      var p := product.value;
      if IsInCart(items, p.id) {
        AddQuantityRaisesFirst(items, p.id, q);
      } else {
        AppendedLineQuantity(items, Line(p, q));
      }
    }
  }

  /** Every command keeps ids unique and quantities positive. */
  lemma ExecutePreservesWellFormed(items: seq<Line>, c: Command)
    requires WellFormed(items)
    ensures WellFormed(Execute(items, c))
  {
    match c
    case Add(p, q) =>
      if AddGuard(items, p, q) == Added && !IsInCart(items, p.value.id) {
        var r := items + [Line(p.value, q)];
        assert r == Reduce(items, AddToCart(p.value, q));
        assert forall i :: 0 <= i < |items| ==> r[i] == items[i];
      }
    case Remove(id) =>
      WithoutWellFormed(items, id);
    case Update(id, q) =>
      if q == 0 {
        WithoutWellFormed(items, id);
      }
    case Clear =>
  }

  /** From any well-formed cart (the empty one included), every sequence of
      commands leaves a well-formed cart. */
  lemma {:induction false} RunPreservesWellFormed(items: seq<Line>, cs: seq<Command>)
    requires WellFormed(items)
    ensures WellFormed(Run(items, cs))
    decreases |cs|
  {
    if cs != [] {
      ExecutePreservesWellFormed(items, cs[0]);
      RunPreservesWellFormed(Execute(items, cs[0]), cs[1..]);
    }
  }

  /** Every line with the id records the same stock as the product. */
  ghost predicate SnapshotsAgree(items: seq<Line>, p: Product) {
    forall i :: 0 <= i < |items| && items[i].Id() == p.id ==> StockOrZero(items[i].product) == StockOrZero(p)
  }

  /** `addToCart` keeps every line within its recorded stock, provided the
      product passed in records the same stock as the line it lands on. */
  lemma AddPreservesWithinStock(items: seq<Line>, p: Product, q: int)
    requires UniqueIds(items) && WithinStock(items) && SnapshotsAgree(items, p)
    ensures WithinStock(Execute(items, Add(Some(p), q)))
  {
    if AddGuard(items, Some(p), q) == Added {
      var r := Execute(items, Add(Some(p), q));
      if IsInCart(items, p.id) {
        forall i | 0 <= i < |r| ensures r[i].quantity <= StockOrZero(r[i].product) {
          if items[i].Id() == p.id {
            QuantityOfLine(items, i);
          }
        }
      } else {
        assert r == items + [Line(p, q)];
        assert QuantityOf(items, p.id) == 0;
      }
    }
  }

  /** The merged line keeps the snapshot taken when the product was first
      added while the guard reads the stock passed in now, so a product whose
      stock went up can push a line past the stock its snapshot records. */
  lemma StaleSnapshotExceedsStock()
    ensures var before := Product(1, "Phone", 10.0, None, None, Some(5), "smartphones");
      var now := before.(stock := Some(10));
      var items := Execute([], Add(Some(before), 2));
      WithinStock(items) &&
      !WithinStock(Execute(items, Add(Some(now), 8)))
  {
    var before := Product(1, "Phone", 10.0, None, None, Some(5), "smartphones");
    var now := before.(stock := Some(10));
    assert AddGuard([], Some(before), 2) == Added;
    var items := Execute([], Add(Some(before), 2));
    assert items == [Line(before, 2)];
    assert QuantityOf(items, 1) == 2;
    assert AddGuard(items, Some(now), 8) == Added;
    assert AddQuantity(items, 1, 8) == [Line(before, 10)];
    assert Execute(items, Add(Some(now), 8)) == [Line(before, 10)];
  }

  /** `updateQuantity` does not look at stock at all. */
  lemma UpdateIgnoresStock()
    ensures var p := Product(1, "Phone", 10.0, None, None, Some(5), "smartphones");
      Execute([Line(p, 1)], Update(1, 100)) == [Line(p, 100)] &&
      !WithinStock(Execute([Line(p, 1)], Update(1, 100)))
  {
    var p := Product(1, "Phone", 10.0, None, None, Some(5), "smartphones");
    assert Execute([Line(p, 1)], Update(1, 100)) == [Line(p, 100)];
  }

  /** A negative stock is shown as low stock, yet nothing can be added. */
  lemma NegativeStockShownButDeclined(items: seq<Line>, p: Product, q: int)
    requires StockOrZero(p) < 0 && q > 0 && PositiveQuantities(items)
    ensures Helpers.GetStockStatus(StockOrZero(p)) == Helpers.LowStock
    ensures AddGuard(items, Some(p), q) == Declined
  {
    match Find(items, p.id)
    case Some(l) =>
      var i :| 0 <= i < |items| && items[i] == l;
    case None =>
  }

  /** Adding twice merges into one line; updating to zero empties the cart. */
  lemma AddTwiceThenUpdateToZero()
    ensures var p := Product(7, "Lamp", 20.0, Some(10.0), None, Some(5), "home-decoration");
      Run([], [Add(Some(p), 2), Add(Some(p), 2)]) == [Line(p, 4)] &&
      Run([], [Add(Some(p), 2), Add(Some(p), 2), Add(Some(p), 2)]) == [Line(p, 4)] &&
      Run([], [Add(Some(p), 2), Add(Some(p), 2), Update(7, 0)]) == []
  {
    var p := Product(7, "Lamp", 20.0, Some(10.0), None, Some(5), "home-decoration");
    var add := Add(Some(p), 2);
    var one := Execute([], add);
    assert one == [Line(p, 2)];
    var two := Execute(one, add);
    assert two == [Line(p, 4)];
    RunTwoThen([], add, add, add);
    assert Execute(two, add) == two;
    RunTwoThen([], add, add, Update(7, 0));
    assert Execute(two, Update(7, 0)) == [] by {
      assert Without(two, 7) == Seqs.Filter(two[1..], OtherThan(7));
    }
    assert Run([], [add, add]) == Run(two, []) by {
      assert [add, add][1..] == [add];
    }
  }

  lemma RunTwoThen(items: seq<Line>, a: Command, b: Command, c: Command)
    ensures Run(items, [a, b, c]) == Execute(Execute(Execute(items, a), b), c)
  {
    var x := Execute(items, a);
    var y := Execute(x, b);
    assert Run(items, [a, b, c]) == Run(x, [b, c]) by { assert [a, b, c][1..] == [b, c]; }
    assert Run(x, [b, c]) == Run(y, [c]) by { assert [b, c][1..] == [c]; }
    assert Run(y, [c]) == Run(Execute(y, c), []) by { assert [c][1..] == []; }
  }

  // ----- the provider -----

  /** The durable copy under `shophub_react_cart`: missing, not parseable,
      or parsed into lines. */
  datatype Stored = Absent | Unparsable | Saved(lines: seq<Line>)

  /** The lines the mount effect loads: the parsed lines, or the initial empty
      cart when nothing is stored or parsing fails. */
  function Restore(saved: Stored): (r: seq<Line>)
    ensures saved.Saved? ==> r == saved.lines
    ensures !saved.Saved? ==> r == []
  {
    if saved.Saved? then Reduce([], LoadCart(Some(saved.lines))) else []
  }

  /** `CartProvider`: the lines of its state and the durable copy the persist
      effect writes after every change. */
  class CartStore {
    var items: seq<Line>
    var storage: Stored

    /** The durable copy always holds the current lines. */
    ghost predicate Valid()
      reads this
    {
      storage == Saved(items)
    }

    /** Mounting: load what was saved, then persist the resulting lines, so an
        unparseable copy is replaced by the empty cart. */
    constructor(saved: Stored)
      ensures items == Restore(saved)
      ensures Valid()
    {
      items := Restore(saved);
      storage := Saved(items);
    }

    method Dispatch(action: Action)
      modifies this
      ensures items == Reduce(old(items), action)
      ensures Valid()
    {
      items := Reduce(items, action);
      storage := Saved(items);
    }

    /** `addToCart`: checks presence, quantity (one unless given) and stock, then dispatches. */
    method AddToCart(product: Option<Product>, quantity: int := 1) returns (outcome: AddOutcome)
      modifies this
      requires Valid()
      ensures outcome == AddGuard(old(items), product, quantity)
      ensures items == Execute(old(items), Add(product, quantity))
      ensures Valid()
    {
      if product.None? || quantity <= 0 {
        return Ignored;
      }
      var p := product.value;
      var existing := Find(items, p.id);
      var current := if existing.Some? then existing.value.quantity else 0;
      if current + quantity > StockOrZero(p) {
        return Declined;
      }
      Dispatch(Action.AddToCart(p, quantity));
      outcome := Added;
    }

    /** `removeFromCart`. */
    method RemoveFromCart(productId: int)
      modifies this
      ensures items == Execute(old(items), Remove(productId))
      ensures Valid()
    {
      Dispatch(Action.RemoveFromCart(productId));
    }

    /** `updateQuantity`: negative quantities are ignored. */
    method UpdateQuantity(productId: int, quantity: int)
      modifies this
      requires Valid()
      ensures items == Execute(old(items), Update(productId, quantity))
      ensures Valid()
    {
      if quantity < 0 {
        return;
      }
      Dispatch(Action.UpdateQuantity(productId, quantity));
    }

    /** `clearCart`. */
    method ClearCart()
      modifies this
      ensures items == [] && Valid()
    {
      Dispatch(Action.ClearCart);
    }

    /** `getCartTotal`: the left-to-right `reduce` over the lines. */
    method GetCartTotal() returns (total: real)
      ensures total == Subtotal(items)
    {
      total := 0.0;
      var i := 0;
      while i < |items|
        invariant 0 <= i <= |items|
        invariant total == Subtotal(items[..i])
      {
        assert items[..i + 1] == items[..i] + [items[i]];
        SubtotalAppend(items[..i], items[i]);
        total := total + LineTotal(items[i]);
        i := i + 1;
      }
      assert items[..i] == items;
    }

    /** `getItemCount`: the left-to-right `reduce` of the quantities. */
    method GetItemCount() returns (count: int)
      ensures count == ItemCount(items)
    {
      count := 0;
      var i := 0;
      while i < |items|
        invariant 0 <= i <= |items|
        invariant count == ItemCount(items[..i])
      {
        assert items[..i + 1] == items[..i] + [items[i]];
        SubtotalAppend(items[..i], items[i]);
        count := count + items[i].quantity;
        i := i + 1;
      }
      assert items[..i] == items;
    }
  }
}
