/** The cart engine of the billing screen: the cart updaters that
    `addToCart`, `updateQuantity`, `updateDiscount` and `removeFromCart` hand
    to `setCart`, the invariants they keep, the totals computation with its
    rounding, the product search and Enter-key resolution, the invoice
    snapshot taken at checkout and the message placeholders. */
module Billing {
  import opened Types
  import opened Collections
  import opened Text

  function Max(a: int, b: int): (r: int)
    ensures r >= a && r >= b && (r == a || r == b)
  {
    if a < b then b else a
  }

  /** The line is bound to a serial number (its `selectedImei` is truthy). */
  predicate HasImei(item: CartItem) {
    Truthy(item.selectedImei)
  }

  /** Some line of the cart is bound to exactly this serial. */
  predicate ImeiInCart(cart: seq<CartItem>, imei: string) {
    exists i :: 0 <= i < |cart| && cart[i].selectedImei == Some(imei)
  }

  /** A line that further units of `id` may be merged into. */
  predicate IsOpenLine(item: CartItem, id: string) {
    item.product.id == id && !HasImei(item)
  }

  /** `prev.find(item => item.id === id && !item.selectedImei)`, as an index or -1. */
  function FindOpenLine(cart: seq<CartItem>, id: string): int {
    FirstIndex(cart, (item: CartItem) => IsOpenLine(item, id))
  }

  /** A fresh line: the product snapshot, quantity 1 and no discount. */
  function NewLine(product: Product, cartId: string, imei: Option<string>): CartItem {
    CartItem(product, cartId, 1, 0.0, imei)
  }

  /** One more unit on every line carrying `cartId`. */
  function IncrementLine(cart: seq<CartItem>, cartId: string): seq<CartItem> {
    seq(|cart|, i requires 0 <= i < |cart| =>
      if cart[i].cartId == cartId then cart[i].(quantity := cart[i].quantity + 1) else cart[i])
  }

  /** The cart after `addToCart(product, scannedImei)`; `freshId` stands for `crypto.randomUUID()`.
      An out-of-stock product and a serial already in the cart leave it unchanged. */
  function AddToCart(cart: seq<CartItem>, product: Product, scannedImei: Option<string>, freshId: string): (r: seq<CartItem>)
    ensures product.stock <= 0 ==> r == cart
    ensures |r| == |cart| || |r| == |cart| + 1
    ensures forall i :: 0 <= i < |cart| ==> r[i] == cart[i] || r[i] == cart[i].(quantity := cart[i].quantity + 1)
    ensures |r| == |cart| + 1 ==>
      r[|cart|] == NewLine(product, freshId, if Truthy(scannedImei) then scannedImei else None)
  {
    if product.stock <= 0 then cart
    else if Truthy(scannedImei) then
      if ImeiInCart(cart, scannedImei.value) then cart
      else cart + [NewLine(product, freshId, scannedImei)]
    else
      var k := FindOpenLine(cart, product.id);
      if k >= 0 then
        if cart[k].quantity >= product.stock then cart
        else IncrementLine(cart, cart[k].cartId)
      else cart + [NewLine(product, freshId, None)]
  }

  /** The per-line step of `updateQuantity`: a serial line never grows; the
      new quantity is at least 1 and is refused when above the line's stock snapshot. */
  function QuantityUpdated(item: CartItem, delta: int): (r: CartItem)
    ensures HasImei(item) && delta > 0 ==> r == item
    ensures r == item || r == item.(quantity := Max(1, item.quantity + delta))
    ensures r != item ==> 1 <= r.quantity <= item.product.stock
    ensures !(HasImei(item) && delta > 0) && Max(1, item.quantity + delta) <= item.product.stock ==>
      r.quantity == Max(1, item.quantity + delta)
  {
    if HasImei(item) && delta > 0 then item
    else
      var q := Max(1, item.quantity + delta);
      if q > item.product.stock then item else item.(quantity := q)
  }

  /** The cart after `updateQuantity(cartId, delta)`. */
  function UpdateQuantity(cart: seq<CartItem>, cartId: string, delta: int): (r: seq<CartItem>)
    ensures |r| == |cart|
    ensures forall i :: 0 <= i < |cart| && cart[i].cartId != cartId ==> r[i] == cart[i]
    ensures forall i :: 0 <= i < |cart| ==>
      r[i] == cart[i] || r[i] == cart[i].(quantity := Max(1, cart[i].quantity + delta))
    ensures forall i :: 0 <= i < |cart| && r[i] != cart[i] ==>
      cart[i].cartId == cartId && 1 <= r[i].quantity <= cart[i].product.stock
    ensures forall i :: 0 <= i < |cart| && HasImei(cart[i]) ==> r[i].quantity <= Max(1, cart[i].quantity)
    ensures forall i :: 0 <= i < |cart| ==>
      (cart[i].cartId == cartId && !(HasImei(cart[i]) && delta > 0) && Max(1, cart[i].quantity + delta) <= cart[i].product.stock
       ==> r[i].quantity == Max(1, cart[i].quantity + delta))
  {
    seq(|cart|, i requires 0 <= i < |cart| =>
      if cart[i].cartId == cartId then QuantityUpdated(cart[i], delta) else cart[i])
  }

  /** `Math.min(100, Math.max(0, d))`. */
  function ClampDiscount(d: real): (r: real)
    ensures 0.0 <= r <= 100.0
    ensures 0.0 <= d <= 100.0 ==> r == d
    ensures d < 0.0 ==> r == 0.0
    ensures d > 100.0 ==> r == 100.0
  {
    if d < 0.0 then 0.0 else if d > 100.0 then 100.0 else d
  }

  /** The cart after `updateDiscount(cartId, d)`. */
  function UpdateDiscount(cart: seq<CartItem>, cartId: string, d: real): (r: seq<CartItem>)
    ensures |r| == |cart|
    ensures forall i :: 0 <= i < |cart| && cart[i].cartId != cartId ==> r[i] == cart[i]
    ensures forall i :: 0 <= i < |cart| && cart[i].cartId == cartId ==>
      r[i] == cart[i].(discount := r[i].discount) && 0.0 <= r[i].discount <= 100.0
    ensures forall i :: 0 <= i < |cart| && cart[i].cartId == cartId && 0.0 <= d <= 100.0 ==>
      r[i].discount == d
    ensures forall i :: 0 <= i < |cart| && cart[i].cartId == cartId ==>
      r[i] == cart[i].(discount := ClampDiscount(d))
  {
    seq(|cart|, i requires 0 <= i < |cart| =>
      if cart[i].cartId == cartId then cart[i].(discount := ClampDiscount(d)) else cart[i])
  }

  /** The cart after `removeFromCart(cartId)`. */
  function RemoveFromCart(cart: seq<CartItem>, cartId: string): (r: seq<CartItem>)
    ensures IsSubsequence(r, cart)
    ensures forall x :: x in r <==> x in cart && x.cartId != cartId
  {
    Filter(cart, (item: CartItem) => item.cartId != cartId)
  }

  // ---------------------------------------------------------------------
  // Cart invariants

  predicate DistinctCartIds(a: CartItem, b: CartItem) {
    a.cartId != b.cartId
  }

  predicate DistinctImeis(a: CartItem, b: CartItem) {
    HasImei(a) && HasImei(b) ==> a.selectedImei != b.selectedImei
  }

  predicate LineOk(item: CartItem) {
    && 1 <= item.quantity
    && (HasImei(item) ==> item.quantity == 1)
    && 0.0 <= item.discount <= 100.0
  }

  predicate ValidLines(cart: seq<CartItem>) {
    forall i :: 0 <= i < |cart| ==> LineOk(cart[i])
  }

  /** What every cart the billing screen builds satisfies: distinct line ids,
      no serial on two lines, serial lines of quantity 1, quantities of at
      least 1 and discounts within [0, 100]. */
  predicate WellFormed(cart: seq<CartItem>) {
    && Pairwise(cart, DistinctCartIds)
    && Pairwise(cart, DistinctImeis)
    && ValidLines(cart)
  }

  /** No line asks for more than the stock recorded in its snapshot. */
  predicate WithinStock(cart: seq<CartItem>) {
    forall i :: 0 <= i < |cart| ==> cart[i].quantity <= cart[i].product.stock
  }

  predicate FreshCartId(cart: seq<CartItem>, id: string) {
    forall i :: 0 <= i < |cart| ==> cart[i].cartId != id
  }

  /** The lines a non-serial add of `product` may merge into recorded at least
      the stock `product` now has (they are snapshots of the same catalogue entry). */
  predicate SnapshotsCover(cart: seq<CartItem>, product: Product) {
    forall i :: 0 <= i < |cart| && IsOpenLine(cart[i], product.id) ==> product.stock <= cart[i].product.stock
  }

  // ---------------------------------------------------------------------
  // addToCart

  lemma AddRejectsOutOfStock(cart: seq<CartItem>, product: Product, imei: Option<string>, freshId: string)
    requires product.stock <= 0
    ensures AddToCart(cart, product, imei, freshId) == cart
  {
  }

  lemma AddRejectsDuplicateImei(cart: seq<CartItem>, product: Product, imei: string, freshId: string)
    requires imei != ""
    requires exists i :: 0 <= i < |cart| && cart[i].selectedImei == Some(imei)
    ensures AddToCart(cart, product, Some(imei), freshId) == cart
  {
  }

  /** A new serial appends exactly one line, quantity 1, no discount, bound to it. */
  lemma AddImeiAppends(cart: seq<CartItem>, product: Product, imei: string, freshId: string)
    requires product.stock > 0 && imei != ""
    requires forall i :: 0 <= i < |cart| ==> cart[i].selectedImei != Some(imei)
    ensures var r := AddToCart(cart, product, Some(imei), freshId);
      && |r| == |cart| + 1
      && r[..|cart|] == cart
      && r[|cart|] == CartItem(product, freshId, 1, 0.0, Some(imei))
  {
  }

  /** A non-serial add onto an existing non-serial line of the same product:
      refused at the stock limit, otherwise that line alone gains one unit. */
  lemma {:induction false} AddMerges(cart: seq<CartItem>, product: Product, imei: Option<string>, freshId: string, k: nat)
    requires product.stock > 0 && !Truthy(imei)
    requires Pairwise(cart, DistinctCartIds)
    requires k < |cart| && IsOpenLine(cart[k], product.id)
    requires forall j :: 0 <= j < k ==> !IsOpenLine(cart[j], product.id)
    ensures var r := AddToCart(cart, product, imei, freshId);
      && |r| == |cart|
      && (cart[k].quantity >= product.stock ==> r == cart)
      && (cart[k].quantity < product.stock ==>
            && r[k] == cart[k].(quantity := cart[k].quantity + 1)
            && forall j :: 0 <= j < |cart| && j != k ==> r[j] == cart[j])
  {
    var f := (item: CartItem) => IsOpenLine(item, product.id);
    var m := FirstIndex(cart, f);
    assert f(cart[k]);
    assert m == k;
    forall j | 0 <= j < |cart| && j != k ensures cart[j].cartId != cart[k].cartId {
      if j < k { assert DistinctCartIds(cart[j], cart[k]); } else { assert DistinctCartIds(cart[k], cart[j]); }
    }
  }

  /** A non-serial add with no line to merge into appends one plain line. */
  lemma AddAppendsPlain(cart: seq<CartItem>, product: Product, imei: Option<string>, freshId: string)
    requires product.stock > 0 && !Truthy(imei)
    requires forall j :: 0 <= j < |cart| ==> !IsOpenLine(cart[j], product.id)
    ensures AddToCart(cart, product, imei, freshId) == cart + [CartItem(product, freshId, 1, 0.0, None)]
  {
    var f := (item: CartItem) => IsOpenLine(item, product.id);
    var m := FirstIndex(cart, f);
    assert m >= 0 ==> f(cart[m]);
  }

  lemma AppendLineWellFormed(cart: seq<CartItem>, line: CartItem)
    requires WellFormed(cart) && LineOk(line) && FreshCartId(cart, line.cartId)
    requires HasImei(line) ==> forall i :: 0 <= i < |cart| ==> cart[i].selectedImei != line.selectedImei
    ensures WellFormed(cart + [line])
  {
    var r := cart + [line];
    forall i, j | 0 <= i < j < |r| ensures DistinctCartIds(r[i], r[j]) && DistinctImeis(r[i], r[j]) {
      if j < |cart| {
        assert DistinctCartIds(cart[i], cart[j]) && DistinctImeis(cart[i], cart[j]);
      }
    }
  }

  /** Every add keeps the cart invariant, given a fresh line id. */
  lemma AddPreservesWellFormed(cart: seq<CartItem>, product: Product, imei: Option<string>, freshId: string)
    requires WellFormed(cart) && FreshCartId(cart, freshId)
    ensures WellFormed(AddToCart(cart, product, imei, freshId))
  {
    if product.stock > 0 {
      if Truthy(imei) {
        if !ImeiInCart(cart, imei.value) {
          AppendLineWellFormed(cart, NewLine(product, freshId, imei));
        }
      } else {
        var k := FindOpenLine(cart, product.id);
        if k >= 0 {
          if cart[k].quantity < product.stock {
            AddMerges(cart, product, imei, freshId, k);
            var r := AddToCart(cart, product, imei, freshId);
            assert !HasImei(cart[k]);
            forall i, j | 0 <= i < j < |r| ensures DistinctCartIds(r[i], r[j]) && DistinctImeis(r[i], r[j]) {
              assert DistinctCartIds(cart[i], cart[j]) && DistinctImeis(cart[i], cart[j]);
            }
            assert LineOk(cart[k]);
          }
        } else {
          AppendLineWellFormed(cart, NewLine(product, freshId, None));
        }
      }
    }
  }

  /** Every add keeps each line within its stock snapshot, provided the lines it
      may merge into recorded at least the product's current stock. */
  lemma AddPreservesWithinStock(cart: seq<CartItem>, product: Product, imei: Option<string>, freshId: string)
    requires WithinStock(cart) && SnapshotsCover(cart, product)
    requires Pairwise(cart, DistinctCartIds)
    ensures WithinStock(AddToCart(cart, product, imei, freshId))
  {
    if product.stock > 0 && !Truthy(imei) {
      var k := FindOpenLine(cart, product.id);
      if k >= 0 && cart[k].quantity < product.stock {
        AddMerges(cart, product, imei, freshId, k);
      }
    }
  }

  /** The cart never holds two lines bound to the same serial. */
  lemma AddNeverDuplicatesImei(cart: seq<CartItem>, product: Product, imei: Option<string>, freshId: string,
                               i: nat, j: nat)
    requires WellFormed(cart) && FreshCartId(cart, freshId)
    requires var r := AddToCart(cart, product, imei, freshId);
      i < j < |r| && HasImei(r[i]) && HasImei(r[j])
    ensures var r := AddToCart(cart, product, imei, freshId);
      r[i].selectedImei != r[j].selectedImei
  {
    AddPreservesWellFormed(cart, product, imei, freshId);
    var r := AddToCart(cart, product, imei, freshId);
    assert DistinctImeis(r[i], r[j]);
  }

  // ---------------------------------------------------------------------
  // updateQuantity, updateDiscount, removeFromCart

  lemma UpdateQuantityPreserves(cart: seq<CartItem>, cartId: string, delta: int)
    requires WellFormed(cart)
    ensures WellFormed(UpdateQuantity(cart, cartId, delta))
    ensures WithinStock(cart) ==> WithinStock(UpdateQuantity(cart, cartId, delta))
  {
    var r := UpdateQuantity(cart, cartId, delta);
    forall i, j | 0 <= i < j < |r| ensures DistinctCartIds(r[i], r[j]) && DistinctImeis(r[i], r[j]) {
      assert DistinctCartIds(cart[i], cart[j]) && DistinctImeis(cart[i], cart[j]);
    }
    forall i | 0 <= i < |r| ensures LineOk(r[i]) {
      assert LineOk(cart[i]);
    }
  }

  lemma UpdateDiscountPreserves(cart: seq<CartItem>, cartId: string, d: real)
    requires WellFormed(cart)
    ensures WellFormed(UpdateDiscount(cart, cartId, d))
    ensures WithinStock(cart) ==> WithinStock(UpdateDiscount(cart, cartId, d))
  {
    var r := UpdateDiscount(cart, cartId, d);
    forall i, j | 0 <= i < j < |r| ensures DistinctCartIds(r[i], r[j]) && DistinctImeis(r[i], r[j]) {
      assert DistinctCartIds(cart[i], cart[j]) && DistinctImeis(cart[i], cart[j]);
    }
    forall i | 0 <= i < |r| ensures LineOk(r[i]) {
      assert LineOk(cart[i]);
    }
  }

  lemma RemovePreserves(cart: seq<CartItem>, cartId: string)
    requires WellFormed(cart)
    ensures WellFormed(RemoveFromCart(cart, cartId))
    ensures WithinStock(cart) ==> WithinStock(RemoveFromCart(cart, cartId))
  {
    var r := RemoveFromCart(cart, cartId);
    SubsequencePairwise(r, cart, DistinctCartIds);
    SubsequencePairwise(r, cart, DistinctImeis);
    forall i | 0 <= i < |r| ensures LineOk(r[i]) && (WithinStock(cart) ==> r[i].quantity <= r[i].product.stock) {
      assert r[i] in cart;
    }
  }

  // ---------------------------------------------------------------------
  // Totals

  function LineBase(item: CartItem): real {
    item.product.price * item.quantity as real
  }

  function LineDiscount(item: CartItem): real {
    LineBase(item) * item.discount / 100.0
  }

  function LineTaxable(item: CartItem): real {
    LineBase(item) - LineDiscount(item)
  }

  function LineTax(item: CartItem): real {
    LineTaxable(item) * item.product.gstPercent / 100.0
  }

  /** The sum of `f` over the lines, accumulated left to right. */
  function SumLines(cart: seq<CartItem>, f: CartItem -> real): real {
    if cart == [] then 0.0 else SumLines(cart[..|cart| - 1], f) + f(cart[|cart| - 1])
  }

  /** `Math.round(x)`: the nearest integer, halves going up. */
  function Round(x: real): (r: int)
    ensures x - 0.5 < r as real <= x + 0.5
  {
    (x + 0.5).Floor
  }

  /** The two bounds of Round pin down its value. */
  lemma RoundUnique(x: real, n: int)
    requires x - 0.5 < n as real <= x + 0.5
    ensures n == Round(x)
  {
  }

  /** Halves go toward positive infinity, not away from zero. */
  lemma RoundHalves()
    ensures Round(2.5) == 3 && Round(-2.5) == -2 && Round(-0.5) == 0
  {
    RoundUnique(2.5, 3);
    RoundUnique(-2.5, -2);
    RoundUnique(-0.5, 0);
  }

  datatype Totals = Totals(
    subtotal: real,
    totalTax: real,
    totalDiscount: real,
    netTotal: real,
    roundOff: real,
    grandTotal: int)

  /** The value of the `totals` memo for a cart. */
  function TotalsOf(cart: seq<CartItem>): (t: Totals)
    ensures t.subtotal + t.totalDiscount == SumLines(cart, LineBase)
    ensures t.grandTotal as real == t.netTotal + t.roundOff && -0.5 < t.roundOff <= 0.5
  {
    var subtotal := SumLines(cart, LineTaxable);
    var tax := SumLines(cart, LineTax);
    var net := subtotal + tax;
    var grand := Round(net);
    GrossSplits(cart);
    Totals(subtotal, tax, SumLines(cart, LineDiscount), net, grand as real - net, grand)
  }

  /** The `forEach` accumulation of `totals`. */
  method ComputeTotals(cart: seq<CartItem>) returns (t: Totals)
    ensures t == TotalsOf(cart)
  {
    var subtotal, totalTax, totalDiscount := 0.0, 0.0, 0.0;
    var i := 0;
    while i < |cart|
      invariant 0 <= i <= |cart|
      invariant subtotal == SumLines(cart[..i], LineTaxable)
      invariant totalTax == SumLines(cart[..i], LineTax)
      invariant totalDiscount == SumLines(cart[..i], LineDiscount)
    {
      var item := cart[i];
      var basePrice := item.product.price * item.quantity as real;
      var discountAmount := (basePrice * item.discount) / 100.0;
      var taxableValue := basePrice - discountAmount;
      var taxAmount := (taxableValue * item.product.gstPercent) / 100.0;
      assert cart[..i + 1][..i] == cart[..i];
      subtotal := subtotal + taxableValue;
      totalDiscount := totalDiscount + discountAmount;
      totalTax := totalTax + taxAmount;
      i := i + 1;
    }
    assert cart[..i] == cart;
    var netTotal := subtotal + totalTax;
    var roundedTotal := (netTotal + 0.5).Floor;
    t := Totals(subtotal, totalTax, totalDiscount, netTotal, roundedTotal as real - netTotal, roundedTotal);
  }

  lemma {:induction false} GrossSplits(cart: seq<CartItem>)
    ensures SumLines(cart, LineTaxable) + SumLines(cart, LineDiscount) == SumLines(cart, LineBase)
  {
    if cart != [] {
      GrossSplits(cart[..|cart| - 1]);
    }
  }

  /** The totals identities: the discounted subtotal and the discount make up
      the gross value; the net total is subtotal plus tax; the grand total is
      the net total rounded, with the signed round-off in (-1/2, 1/2]. */
  lemma TotalsIdentities(cart: seq<CartItem>)
    ensures var t := TotalsOf(cart);
      && t.subtotal + t.totalDiscount == SumLines(cart, LineBase)
      && t.netTotal == t.subtotal + t.totalTax
      && t.grandTotal == Round(t.netTotal)
      && t.grandTotal as real == t.netTotal + t.roundOff
      && -0.5 < t.roundOff <= 0.5
  {
    GrossSplits(cart);
  }

  predicate NonNegativeRates(item: CartItem) {
    item.product.price >= 0.0 && item.product.gstPercent >= 0.0
  }

  lemma {:induction false} TotalsBounds(cart: seq<CartItem>)
    requires ValidLines(cart)
    requires forall i :: 0 <= i < |cart| ==> NonNegativeRates(cart[i])
    ensures 0.0 <= SumLines(cart, LineDiscount) <= SumLines(cart, LineBase)
    ensures 0.0 <= SumLines(cart, LineTaxable)
    ensures 0.0 <= SumLines(cart, LineTax)
  {
    if cart != [] {
      var last := cart[|cart| - 1];
      TotalsBounds(cart[..|cart| - 1]);
      assert LineOk(last) && NonNegativeRates(last);
      assert 0.0 <= LineBase(last);
      assert 0.0 <= LineDiscount(last) <= LineBase(last);
      assert 0.0 <= LineTaxable(last);
      assert 0.0 <= LineTax(last);
    }
  }

  /** With clamped discounts and non-negative prices and rates, no amount on
      the bill is negative and the discount never exceeds the gross value. */
  lemma TotalsNonNegative(cart: seq<CartItem>)
    requires ValidLines(cart)
    requires forall i :: 0 <= i < |cart| ==> NonNegativeRates(cart[i])
    ensures var t := TotalsOf(cart);
      && 0.0 <= t.totalDiscount <= SumLines(cart, LineBase)
      && 0.0 <= t.subtotal && 0.0 <= t.totalTax
      && 0 <= t.grandTotal
  {
    TotalsBounds(cart);
  }

  function SampleProduct(price: real, stock: int): Product {
    Product("p", "item", "brand", "cat", "0000", price, 0.0, 18.0, stock, "pcs", None, None)
  }

  /** One phone at 79900 with 18% GST: no discount, tax 14382, total 94282, no round-off. */
  lemma ScenarioPhone()
    ensures var t := TotalsOf([CartItem(SampleProduct(79900.0, 2), "c1", 1, 0.0, None)]);
      t.subtotal == 79900.0 && t.totalTax == 14382.0 && t.netTotal == 94282.0
      && t.grandTotal == 94282 && t.roundOff == 0.0
  {
    var c := [CartItem(SampleProduct(79900.0, 2), "c1", 1, 0.0, None)];
    assert c[..0] == [];
  }

  /** Three cables at 999 with 10% discount and 18% GST: discount 299.7,
      taxable 2697.3, tax 485.514, net 3182.814, charged 3183. */
  lemma ScenarioCable()
    ensures var t := TotalsOf([CartItem(SampleProduct(999.0, 50), "c1", 3, 10.0, None)]);
      t.totalDiscount == 299.7 && t.subtotal == 2697.3 && t.totalTax == 485.514
      && t.netTotal == 3182.814 && t.grandTotal == 3183 && t.roundOff == 0.186
  {
    var c := [CartItem(SampleProduct(999.0, 50), "c1", 3, 10.0, None)];
    assert c[..0] == [];
    assert Round(3182.814) == 3183 by { RoundUnique(3182.814, 3183); }
  }

  // ---------------------------------------------------------------------
  // Product search and the Enter key

  predicate SomeImeiContains(imeis: Option<seq<string>>, t: string) {
    imeis.Some? && exists i :: 0 <= i < |imeis.value| && Contains(imeis.value[i], t)
  }

  /** The predicate of `filteredProducts`: name, id, barcode or brand contains
      the lower-cased query ignoring case, or some serial contains the
      lower-cased query literally. */
  predicate SearchMatches(p: Product, query: string)
    ensures query == "" ==> SearchMatches(p, query)
    ensures p.barcode == Some(query) || p.id == query ==> SearchMatches(p, query)
  {
    ContainsEmpty(Lower(p.name));
    var lower := Lower(query);
    || Contains(Lower(p.name), lower)
    || Contains(Lower(p.id), lower)
    || (p.barcode.Some? && Contains(Lower(p.barcode.value), lower))
    || Contains(Lower(p.brand), lower)
    || SomeImeiContains(p.availableImeis, lower)
  }

  /** The letter case of the query does not matter to the suggestion test. */
  lemma SearchIgnoresQueryCase(p: Product, query: string)
    ensures SearchMatches(p, query) <==> SearchMatches(p, Lower(query))
  {
    LowerIdempotent(query);
  }

  /** The suggestion list under the search box: nothing for an empty query,
      otherwise the first ten matching products in catalogue order. */
  function FilteredProducts(products: seq<Product>, query: string): (r: seq<Product>)
    ensures query == "" ==> r == []
    ensures |r| <= 10
    ensures IsSubsequence(r, products)
    ensures forall p :: p in r ==> p in products && SearchMatches(p, query)
    ensures query != "" && |r| < 10 ==> forall p :: p in products && SearchMatches(p, query) ==> p in r
  {
    if query == "" then []
    else
      var all := Filter(products, (p: Product) => SearchMatches(p, query));
      var r := if |all| <= 10 then all else all[..10];
      PrefixSubsequence(all, |r|);
      assert r == all[..|r|];
      SubsequenceMembers(r, all);
      SubsequenceTransitive(r, all, products);
      r
  }

  predicate OwnsImei(p: Product, imei: string) {
    p.availableImeis.Some? && imei in p.availableImeis.value
  }

  predicate IsExactMatch(p: Product, query: string) {
    p.barcode == Some(query) || p.id == query
  }

  /** What pressing Enter in the search box asks `addToCart` to do. */
  datatype AddRequest = AddRequest(product: Product, imei: Option<string>)

  /** `handleSearchKeyDown` on Enter: an exact serial match first, then an
      exact barcode or id match, then a single suggestion; otherwise nothing. */
  function ResolveEnter(products: seq<Product>, query: string): (r: Option<AddRequest>)
    ensures r.Some? ==> r.value.product in products
    ensures r.Some? && r.value.imei.Some? ==> r.value.imei == Some(query) && OwnsImei(r.value.product, query)
  {
    var i := FirstIndex(products, (p: Product) => OwnsImei(p, query));
    if i >= 0 then Some(AddRequest(products[i], Some(query)))
    else
      var j := FirstIndex(products, (p: Product) => IsExactMatch(p, query));
      if j >= 0 then Some(AddRequest(products[j], None))
      else
        var f := FilteredProducts(products, query);
        if |f| == 1 then
          Some(AddRequest(f[0], if OwnsImei(f[0], query) then Some(query) else None))
        else None
  }

  /** Enter resolves to a catalogue product; it carries a serial exactly when
      some product's pool holds the query, and then the serial is the query
      itself and the product the first such one. The single-suggestion step
      therefore never contributes a serial. */
  lemma {:induction false} ResolveEnterSerial(products: seq<Product>, query: string)
    ensures var r := ResolveEnter(products, query);
      && (r.Some? ==> r.value.product in products)
      && ((r.Some? && r.value.imei.Some?) <==> exists p :: p in products && OwnsImei(p, query))
      && (r.Some? && r.value.imei.Some? ==>
            r.value.imei == Some(query) && OwnsImei(r.value.product, query)
            && forall k :: 0 <= k < |products| && products[k] != r.value.product ==>
                 OwnsImei(products[k], query) ==> exists m :: 0 <= m < k && products[m] == r.value.product)
  {
    var owns := (p: Product) => OwnsImei(p, query);
    var i := FirstIndex(products, owns);
    if i < 0 {
      forall p | p in products ensures !OwnsImei(p, query) {
        var k :| 0 <= k < |products| && products[k] == p;
        assert !owns(products[k]);
      }
    } else {
      assert owns(products[i]);
      forall k | 0 <= k < |products| && products[k] != products[i] && OwnsImei(products[k], query)
        ensures exists m :: 0 <= m < k && products[m] == products[i]
      {
        assert owns(products[k]);
        assert k > i;
      }
    }
  }

  /** When no product owns the query as a serial: the first product whose
      barcode or id equals the query is added without a serial; failing that,
      Enter adds the only suggestion, without a serial, and does nothing
      unless there is exactly one suggestion. */
  lemma ResolveEnterFallbacks(products: seq<Product>, query: string)
    requires forall k :: 0 <= k < |products| ==> !OwnsImei(products[k], query)
    ensures forall k :: 0 <= k < |products| ==>
      (IsExactMatch(products[k], query) && (forall m :: 0 <= m < k ==> !IsExactMatch(products[m], query))
       ==> ResolveEnter(products, query) == Some(AddRequest(products[k], None)))
    ensures (forall k :: 0 <= k < |products| ==> !IsExactMatch(products[k], query)) ==>
      var f := FilteredProducts(products, query);
      ResolveEnter(products, query) == if |f| == 1 then Some(AddRequest(f[0], None)) else None
  {
    var owns := (p: Product) => OwnsImei(p, query);
    var exact := (p: Product) => IsExactMatch(p, query);
    assert FirstIndex(products, owns) < 0;
    var j := FirstIndex(products, exact);
    forall k | 0 <= k < |products| && IsExactMatch(products[k], query)
      && (forall m :: 0 <= m < k ==> !IsExactMatch(products[m], query))
      ensures j == k
    {
      assert exact(products[k]);
    }
    var f := FilteredProducts(products, query);
    if |f| == 1 {
      assert f[0] in products;
    }
  }

  /** A serial typed in full and on sale selects its product and is bound to the new line. */
  lemma EnterOnSerialAddsItsLine(products: seq<Product>, query: string, cart: seq<CartItem>, freshId: string)
    requires query != ""
    requires exists p :: p in products && OwnsImei(p, query)
    requires forall i :: 0 <= i < |cart| ==> cart[i].selectedImei != Some(query)
    ensures var r := ResolveEnter(products, query);
      && r.Some? && r.value.imei == Some(query)
      && (r.value.product.stock > 0 ==>
            AddToCart(cart, r.value.product, r.value.imei, freshId)
              == cart + [CartItem(r.value.product, freshId, 1, 0.0, Some(query))])
  {
    ResolveEnterSerial(products, query);
  }

  // ---------------------------------------------------------------------
  // Checkout snapshot

  /** `INV-` followed by the last six digits of the millisecond clock. */
  function InvoiceId(nowMillis: nat): (r: string)
    ensures StartsWith(r, "INV-")
    ensures 5 <= |r| <= 10
    ensures forall i :: 4 <= i < |r| ==> IsDigit(r[i])
  {
    "INV-" + LastChars(Decimal(nowMillis), 6)
  }

  /** The digits of an invoice id denote the clock reading modulo 10^6. */
  lemma InvoiceIdValue(nowMillis: nat)
    ensures NumeralValue(InvoiceId(nowMillis)[4..]) == nowMillis % 1000000
  {
    var digits := Decimal(nowMillis);
    assert InvoiceId(nowMillis)[4..] == LastChars(digits, 6);
    LastDigits(digits, 6);
    DecimalValue(nowMillis);
    assert Pow10(6) == 1000000;
  }

  /** Invoice ids are not unique: clock readings a multiple of 10^6 ms apart
      (about 16.7 minutes) give the same id. */
  lemma InvoiceIdsCollide()
    ensures InvoiceId(1234567) == InvoiceId(2234567) == "INV-234567"
  {
    DecimalSampleA();
    DecimalSampleB();
    assert LastChars("1234567", 6) == "234567";
    assert LastChars("2234567", 6) == "234567";
  }

  /** The invoice `handleCheckout` builds and saves. */
  function CheckoutInvoice(cart: seq<CartItem>, customer: Customer, mode: PaymentMode,
                           nowMillis: nat, isoNow: string): (inv: Invoice)
    ensures inv.id == InvoiceId(nowMillis) && inv.date == isoNow
    ensures var t := TotalsOf(cart);
      && inv.subtotal == t.subtotal && inv.totalDiscount == t.totalDiscount
      && inv.totalTax == t.totalTax && inv.totalAmount == t.grandTotal
    ensures inv.items == cart && inv.status == Paid && inv.paymentMode == mode
    ensures inv.customerName == customer.name && inv.customerMobile == customer.mobile
    ensures inv.totalAmount == Round(inv.subtotal + inv.totalTax)
    ensures inv.subtotal + inv.totalDiscount == SumLines(cart, LineBase)
  {
    var t := TotalsOf(cart);
    TotalsIdentities(cart);
    Invoice(InvoiceId(nowMillis), isoNow, customer.name, customer.mobile, cart,
            t.subtotal, t.totalDiscount, t.totalTax, t.grandTotal, mode, Paid)
  }

  /** The invoice object of `handleCheckout`, built from the accumulated totals. */
  method CreateInvoice(cart: seq<CartItem>, customer: Customer, mode: PaymentMode,
                       nowMillis: nat, isoNow: string) returns (inv: Invoice)
    ensures inv == CheckoutInvoice(cart, customer, mode, nowMillis, isoNow)
  {
    var totals := ComputeTotals(cart);
    inv := Invoice(InvoiceId(nowMillis), isoNow, customer.name, customer.mobile, cart,
                   totals.subtotal, totals.totalDiscount, totals.totalTax, totals.grandTotal,
                   mode, Paid);
  }

  // ---------------------------------------------------------------------
  // Message placeholders

  /** `replacePlaceholders`: the five tokens are replaced globally, in this
      order, so text put in by an earlier token is scanned by the later ones. */
  function ReplacePlaceholders(template: string, inv: Invoice, shopName: string): (r: string)
    ensures '{' !in template ==> r == template
  {
    var s1 := ReplaceAll(template, "{customer}", inv.customerName);
    var s2 := ReplaceAll(s1, "{id}", inv.id);
    var s3 := ReplaceAll(s2, "{total}", IntText(inv.totalAmount));
    var s4 := ReplaceAll(s3, "{date}", BeforeT(inv.date));
    var r := ReplaceAll(s4, "{shopName}", shopName);
    if '{' in template then r
    else
      // every token starts with '{', so none occurs and each pass is the identity
      ContainsFirstChar(template, "{customer}");
      ContainsFirstChar(template, "{id}");
      ContainsFirstChar(template, "{total}");
      ContainsFirstChar(template, "{date}");
      ContainsFirstChar(template, "{shopName}");
      ReplaceAllAbsent(template, "{customer}", inv.customerName);
      ReplaceAllAbsent(template, "{id}", inv.id);
      ReplaceAllAbsent(template, "{total}", IntText(inv.totalAmount));
      ReplaceAllAbsent(template, "{date}", BeforeT(inv.date));
      ReplaceAllAbsent(template, "{shopName}", shopName);
      r
  }

  const DefaultWhatsappTemplate := "Hello {customer}, your invoice {id} is generated. Total: {total}"
  const DefaultEmailSubject := "Invoice {id}"
  const DefaultEmailBody := "Here is your invoice {id}"

  /** A shared message: `replacePlaceholders(setting || fallback, invoice)`;
      an absent or empty template setting falls back to the default. */
  function ShareText(setting: Option<string>, fallback: string, inv: Invoice, shopName: string): (r: string)
    ensures !Truthy(setting) ==> r == ReplacePlaceholders(fallback, inv, shopName)
    ensures Truthy(setting) ==> r == ReplacePlaceholders(setting.value, inv, shopName)
    ensures Truthy(setting) && '{' !in setting.value ==> r == setting.value
  {
    ReplacePlaceholders(if Truthy(setting) then setting.value else fallback, inv, shopName)
  }

  predicate HasNoToken(s: string) {
    && !Contains(s, "{customer}") && !Contains(s, "{id}") && !Contains(s, "{total}")
    && !Contains(s, "{date}") && !Contains(s, "{shopName}")
  }

  /** The five tokens `replacePlaceholders` fills in. */
  predicate IsPlaceholder(t: string) {
    t == "{customer}" || t == "{id}" || t == "{total}" || t == "{date}" || t == "{shopName}"
  }

  /** Text with no '{' in it. */
  predicate BraceFree(s: string) {
    forall j :: 0 <= j < |s| ==> s[j] != '{'
  }

  /** The characters a token holds after its opening '{'. */
  predicate TokenTailChar(c: char) {
    'a' <= c <= 'z' || 'A' <= c <= 'Z' || c == '}'
  }

  /** A token opens with '{', and its other characters are letters and '}'. */
  predicate TokenShaped(t: string) {
    |t| >= 1 && t[0] == '{' && forall j :: 1 <= j < |t| ==> TokenTailChar(t[j])
  }

  lemma PlaceholderShaped(t: string)
    requires IsPlaceholder(t)
    ensures TokenShaped(t)
  {
  }

  /** No token occurs inside another. */
  lemma PlaceholdersApart(a: string, b: string)
    requires IsPlaceholder(a) && IsPlaceholder(b) && a != b
    ensures !Contains(a, b)
  {
    assert '{' !in a[1..];
    assert a[|a| - 1] == '}' && '}' !in a[..|a| - 1];
    assert b[|b| - 1] == '}';
    assert !StartsWith(a, b);
    ContainsOnlyAtHead(a, b);
  }

  /** A number's text holds no token. */
  lemma IntTextHasNoToken(x: int)
    ensures HasNoToken(IntText(x))
  {
    var r := IntText(x);
    assert '{' !in r by {
      var d := Decimal(if x < 0 then -x else x);
      assert forall i :: 0 <= i < |d| ==> d[i] != '{';
    }
    ContainsFirstChar(r, "{customer}");
    ContainsFirstChar(r, "{id}");
    ContainsFirstChar(r, "{total}");
    ContainsFirstChar(r, "{date}");
    ContainsFirstChar(r, "{shopName}");
  }

  /** What a slot of a template holds after the pass for `token`. */
  function AfterPass(x: string, token: string, value: string): string {
    if x == token then value else x
  }

  /** A slot holding no occurrence of the token is kept. */
  lemma AfterPassKeeps(x: string, token: string, value: string)
    requires !Contains(x, token)
    ensures AfterPass(x, token, value) == x
  {
    assert StartsWith(token, token);
  }

  /** One pass over a brace-free text followed by a slot that is the pass's
      token (and is filled) or holds no occurrence of it (and is kept). */
  lemma SegmentPass(lit: string, x: string, token: string, value: string)
    requires TokenShaped(token) && BraceFree(lit)
    requires x == token || !Contains(x, token)
    ensures ReplaceAll(lit + x, token, value) == lit + AfterPass(x, token, value)
  {
    assert token[0] !in lit;
    if x == token {
      assert lit + x == lit + token + "";
      NoEarlierToken(lit, token);
      ReplaceAllHits(lit, token, "", value);
      assert lit + value + "" == lit + value;
    } else {
      ContainsAfter(lit, x, token);
      ReplaceAllAbsent(lit + x, token, value);
    }
  }

  /** A template with none of the tokens comes back unchanged. */
  lemma PlaceholdersAbsent(template: string, inv: Invoice, shopName: string)
    requires HasNoToken(template)
    ensures ReplacePlaceholders(template, inv, shopName) == template
  {
    ReplaceAllAbsent(template, "{customer}", inv.customerName);
    ReplaceAllAbsent(template, "{id}", inv.id);
    ReplaceAllAbsent(template, "{total}", IntText(inv.totalAmount));
    ReplaceAllAbsent(template, "{date}", BeforeT(inv.date));
    ReplaceAllAbsent(template, "{shopName}", shopName);
  }

  /** The order matters: a customer name spelled `{id}` comes out as the invoice id. */
  lemma PlaceholdersInOrder(inv: Invoice, shopName: string)
    requires inv.customerName == "{id}" && HasNoToken(inv.id)
    ensures ReplacePlaceholders("{customer}", inv, shopName) == inv.id
  {
    assert ReplaceAll("{customer}", "{customer}", "{id}") == "{id}" by {
      assert "{customer}"[..|"{customer}"|] == "{customer}";
      assert "{customer}"[|"{customer}"|..] == "";
    }
    assert ReplaceAll("{id}", "{id}", inv.id) == inv.id by {
      assert "{id}"[..|"{id}"|] == "{id}";
      assert "{id}"[|"{id}"|..] == "";
    }
    ReplaceAllAbsent(inv.id, "{total}", IntText(inv.totalAmount));
    ReplaceAllAbsent(inv.id, "{date}", BeforeT(inv.date));
    ReplaceAllAbsent(inv.id, "{shopName}", shopName);
  }

  /** A template made of brace-free text followed by `{id}` becomes that text
      followed by the invoice id, provided the id holds no token itself. */
  lemma {:induction false} LeadThenId(lead: string, inv: Invoice, shopName: string)
    requires '{' !in lead && HasNoToken(inv.id)
    ensures ReplacePlaceholders(lead + "{id}", inv, shopName) == lead + inv.id
  {
    var t := lead + "{id}";
    ContainsAfter(lead, "{id}", "{customer}");
    ContainsLonger("{id}", "{customer}");
    ReplaceAllAbsent(t, "{customer}", inv.customerName);
    var s2 := ReplaceAll(t, "{id}", inv.id);
    assert t == lead + "{id}" + "";
    NoEarlierToken(lead, "{id}");
    ReplaceAllHits(lead, "{id}", "", inv.id);
    assert s2 == lead + inv.id;
    ContainsAfter(lead, inv.id, "{total}");
    ContainsAfter(lead, inv.id, "{date}");
    ContainsAfter(lead, inv.id, "{shopName}");
    ReplaceAllAbsent(s2, "{total}", IntText(inv.totalAmount));
    ReplaceAllAbsent(s2, "{date}", BeforeT(inv.date));
    ReplaceAllAbsent(s2, "{shopName}", shopName);
  }

  /** A template made of brace-free text followed by `{customer}` becomes that
      text followed by the customer's name, provided the name holds no token. */
  lemma LeadThenCustomer(lead: string, inv: Invoice, shopName: string)
    requires '{' !in lead && HasNoToken(inv.customerName)
    ensures ReplacePlaceholders(lead + "{customer}", inv, shopName) == lead + inv.customerName
  {
    var name := inv.customerName;
    assert lead + "{customer}" == lead + "{customer}" + "";
    NoEarlierToken(lead, "{customer}");
    ReplaceAllHits(lead, "{customer}", "", name);
    var s1 := ReplaceAll(lead + "{customer}", "{customer}", name);
    assert s1 == lead + name;
    ContainsAfter(lead, name, "{id}");
    ContainsAfter(lead, name, "{total}");
    ContainsAfter(lead, name, "{date}");
    ContainsAfter(lead, name, "{shopName}");
    ReplaceAllAbsent(s1, "{id}", inv.id);
    ReplaceAllAbsent(s1, "{total}", IntText(inv.totalAmount));
    ReplaceAllAbsent(s1, "{date}", BeforeT(inv.date));
    ReplaceAllAbsent(s1, "{shopName}", shopName);
  }

  /** A set template wins over the default: "Hi {customer}" reads "Hi " and the name. */
  lemma SetTemplateWins(fallback: string, inv: Invoice, shopName: string)
    requires HasNoToken(inv.customerName)
    ensures ShareText(Some("Hi {customer}"), fallback, inv, shopName) == "Hi " + inv.customerName
  {
    assert "Hi {customer}" == "Hi " + "{customer}";
    LeadThenCustomer("Hi ", inv, shopName);
  }

  /** Without subject and body settings, the e-mail reads "Invoice " and
      "Here is your invoice " followed by the invoice id. */
  lemma DefaultEmail(settings: ShopSettings, inv: Invoice)
    requires !Truthy(settings.emailSubject) && !Truthy(settings.emailBody) && HasNoToken(inv.id)
    ensures ShareText(settings.emailSubject, DefaultEmailSubject, inv, settings.shopName) == "Invoice " + inv.id
    ensures ShareText(settings.emailBody, DefaultEmailBody, inv, settings.shopName) == "Here is your invoice " + inv.id
  {
    assert DefaultEmailSubject == "Invoice " + "{id}";
    assert DefaultEmailBody == "Here is your invoice " + "{id}";
    LeadThenId("Invoice ", inv, settings.shopName);
    LeadThenId("Here is your invoice ", inv, settings.shopName);
  }
}
