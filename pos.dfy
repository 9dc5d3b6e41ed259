/** The state of the billing screen and its event handlers: the cart and the
    selected customer change step by step, each cart handler hands the pure
    updater of module Billing to the cart, and checkout commits the sale to
    the store, clears the cart and reloads the catalogue. */
module PointOfSale {
  import opened Types
  import opened Collections
  import opened Text
  import opened Billing
  import opened Db

  const WalkInName := "Walk-in Customer"

  /** `customers.find(c => c.name === 'Walk-in Customer')`. */
  function FindWalkIn(cs: seq<Customer>): (r: Option<Customer>)
    ensures r.Some? ==> r.value in cs && r.value.name == WalkInName
    ensures r.Some? ==> exists k :: 0 <= k < |cs| && cs[k] == r.value && forall j :: 0 <= j < k ==> cs[j].name != WalkInName
    ensures r.None? ==> forall c :: c in cs ==> c.name != WalkInName
  {
    var walkIn := (c: Customer) => c.name == WalkInName;
    var k := FirstIndex(cs, walkIn);
    if k < 0 then
      assert forall c :: c in cs ==> c.name != WalkInName by {
        forall c | c in cs ensures c.name != WalkInName {
          var j :| 0 <= j < |cs| && cs[j] == c;
          assert !walkIn(cs[j]);
        }
      }
      None
    else
      assert forall j :: 0 <= j < k ==> cs[j].name != WalkInName by {
        forall j | 0 <= j < k ensures cs[j].name != WalkInName {
          assert !walkIn(cs[j]);
        }
      }
      Some(cs[k])
  }

  /** The address of the e-mail share: `customers.find(c => c.mobile === mobile)?.email || ''`,
      the e-mail of the first customer with the invoice's mobile, or empty. */
  function EmailFor(cs: seq<Customer>, mobile: string): (r: string)
    ensures r != "" ==>
      exists k :: 0 <= k < |cs| && cs[k].mobile == mobile && cs[k].email == r && (forall j :: 0 <= j < k ==> cs[j].mobile != mobile)
    ensures forall k :: (0 <= k < |cs| && cs[k].mobile == mobile && (forall j :: 0 <= j < k ==> cs[j].mobile != mobile)) ==> r == cs[k].email
    ensures (forall c :: c in cs ==> c.mobile != mobile) ==> r == ""
  {
    var sameMobile := (c: Customer) => c.mobile == mobile;
    var k := FirstIndex(cs, sameMobile);
    if k < 0 then
      assert forall j :: 0 <= j < |cs| ==> cs[j].mobile != mobile by {
        forall j | 0 <= j < |cs| ensures cs[j].mobile != mobile {
          assert !sameMobile(cs[j]);
        }
      }
      ""
    else
      assert sameMobile(cs[k]);
      assert forall j :: 0 <= j < k ==> cs[j].mobile != mobile by {
        forall j | 0 <= j < k ensures cs[j].mobile != mobile {
          assert !sameMobile(cs[j]);
        }
      }
      cs[k].email
  }

  /** The shape of the stored default WhatsApp template: five slots, for the
      customer, the shop, the invoice id, the total and the date, in that order. */
  function WhatsappText(c: string, s: string, i: string, t: string, d: string): string {
    "Dear " + c + ", thank you for purchasing from " + s + ". Your Invoice #" + i
      + " of Rs. " + t + " is generated on " + d + ". Visit again!"
  }

  /** The fixed pieces of that template hold no '{'. */
  lemma WhatsappPieces()
    ensures BraceFree("Dear ") && BraceFree(", thank you for purchasing from ") && BraceFree(". Your Invoice #")
    ensures BraceFree(" of Rs. ") && BraceFree(" is generated on ") && BraceFree(". Visit again!")
  {
  }

  /** A slot after a text piece: the part before it and the slot are replaced apart. */
  lemma PassStep(x: string, lit: string, slot: string, token: string, value: string)
    requires TokenShaped(token) && BraceFree(lit) && lit != [] && !TokenTailChar(lit[0])
    requires slot == token || !Contains(slot, token)
    ensures ReplaceAll(x + lit + slot, token, value) == ReplaceAll(x, token, value) + lit + AfterPass(slot, token, value)
  {
    assert lit[0] !in token[1..];
    assert x + lit + slot == x + (lit + slot);
    ReplaceAllSplit(x, lit + slot, token, value);
    SegmentPass(lit, slot, token, value);
  }

  /** The first three slots of that shape, for one `replace` pass. */
  lemma WhatsappHeadPass(c: string, s: string, i: string, token: string, value: string)
    requires TokenShaped(token)
    requires (c == token || !Contains(c, token)) && (s == token || !Contains(s, token))
    requires i == token || !Contains(i, token)
    ensures ReplaceAll("Dear " + c + ", thank you for purchasing from " + s + ". Your Invoice #" + i, token, value)
         == "Dear " + AfterPass(c, token, value) + ", thank you for purchasing from " + AfterPass(s, token, value)
              + ". Your Invoice #" + AfterPass(i, token, value)
  {
    var p1 := "Dear " + c;
    var p2 := p1 + ", thank you for purchasing from " + s;
    WhatsappPieces();
    PassStep(p2, ". Your Invoice #", i, token, value);
    PassStep(p1, ", thank you for purchasing from ", s, token, value);
    SegmentPass("Dear ", c, token, value);
  }

  /** One `replace` pass over that shape fills the slots holding its token and
      keeps the others, given that no slot holds the token inside other text. */
  lemma WhatsappPass(c: string, s: string, i: string, t: string, d: string, token: string, value: string)
    requires TokenShaped(token)
    requires (c == token || !Contains(c, token)) && (s == token || !Contains(s, token))
    requires (i == token || !Contains(i, token)) && (t == token || !Contains(t, token))
    requires d == token || !Contains(d, token)
    ensures ReplaceAll(WhatsappText(c, s, i, t, d), token, value)
         == WhatsappText(AfterPass(c, token, value), AfterPass(s, token, value), AfterPass(i, token, value),
                         AfterPass(t, token, value), AfterPass(d, token, value))
  {
    var p3 := "Dear " + c + ", thank you for purchasing from " + s + ". Your Invoice #" + i;
    var p4 := p3 + " of Rs. " + t;
    var p5 := p4 + " is generated on " + d;
    var last := ". Visit again!";
    WhatsappPieces();
    assert last[0] !in token[1..];
    ReplaceAllSplit(p5, last, token, value);
    assert token[0] !in last;
    ContainsFirstChar(last, token);
    ReplaceAllAbsent(last, token, value);
    PassStep(p4, " is generated on ", d, token, value);
    PassStep(p3, " of Rs. ", t, token, value);
    WhatsappHeadPass(c, s, i, token, value);
  }

  /** With the shop's default settings, the WhatsApp message is the stored
      template with all five slots filled, whatever the code's own fallback. */
  lemma DefaultWhatsappMessage(inv: Invoice, shopName: string)
    requires HasNoToken(inv.customerName) && HasNoToken(inv.id) && HasNoToken(BeforeT(inv.date)) && HasNoToken(shopName)
    ensures ShareText(DefaultSettings.whatsappTemplate, DefaultWhatsappTemplate, inv, shopName)
         == WhatsappText(inv.customerName, shopName, inv.id, IntText(inv.totalAmount), BeforeT(inv.date))
  {
    var name, id, total, date := inv.customerName, inv.id, IntText(inv.totalAmount), BeforeT(inv.date);
    IntTextHasNoToken(inv.totalAmount);
    var w0 := WhatsappText("{customer}", "{shopName}", "{id}", "{total}", "{date}");
    assert DefaultSettings.whatsappTemplate == Some(w0);
    PlaceholderShaped("{customer}");
    PlaceholdersApart("{shopName}", "{customer}");
    PlaceholdersApart("{id}", "{customer}");
    PlaceholdersApart("{total}", "{customer}");
    PlaceholdersApart("{date}", "{customer}");
    WhatsappPass("{customer}", "{shopName}", "{id}", "{total}", "{date}", "{customer}", name);
    var w1 := WhatsappText(name, "{shopName}", "{id}", "{total}", "{date}");
    assert ReplaceAll(w0, "{customer}", name) == w1;
    PlaceholderShaped("{id}");
    PlaceholdersApart("{shopName}", "{id}");
    PlaceholdersApart("{total}", "{id}");
    PlaceholdersApart("{date}", "{id}");
    WhatsappPass(name, "{shopName}", "{id}", "{total}", "{date}", "{id}", id);
    AfterPassKeeps(name, "{id}", id);
    var w2 := WhatsappText(name, "{shopName}", id, "{total}", "{date}");
    assert ReplaceAll(w1, "{id}", id) == w2;
    PlaceholderShaped("{total}");
    PlaceholdersApart("{shopName}", "{total}");
    PlaceholdersApart("{date}", "{total}");
    WhatsappPass(name, "{shopName}", id, "{total}", "{date}", "{total}", total);
    AfterPassKeeps(name, "{total}", total);
    AfterPassKeeps(id, "{total}", total);
    var w3 := WhatsappText(name, "{shopName}", id, total, "{date}");
    assert ReplaceAll(w2, "{total}", total) == w3;
    PlaceholderShaped("{date}");
    PlaceholdersApart("{shopName}", "{date}");
    WhatsappPass(name, "{shopName}", id, total, "{date}", "{date}", date);
    AfterPassKeeps(name, "{date}", date);
    AfterPassKeeps(id, "{date}", date);
    AfterPassKeeps(total, "{date}", date);
    var w4 := WhatsappText(name, "{shopName}", id, total, date);
    assert ReplaceAll(w3, "{date}", date) == w4;
    PlaceholderShaped("{shopName}");
    WhatsappPass(name, "{shopName}", id, total, date, "{shopName}", shopName);
    AfterPassKeeps(name, "{shopName}", shopName);
    AfterPassKeeps(id, "{shopName}", shopName);
    AfterPassKeeps(total, "{shopName}", shopName);
    AfterPassKeeps(date, "{shopName}", shopName);
    assert ReplaceAll(w4, "{shopName}", shopName) == WhatsappText(name, shopName, id, total, date);
    assert ReplacePlaceholders(w0, inv, shopName) == WhatsappText(name, shopName, id, total, date);
  }

  class BillingScreen {
    const db: Store
    var products: seq<Product>
    var customers: seq<Customer>
    var settings: ShopSettings
    var cart: seq<CartItem>
    var selectedCustomer: Option<Customer>
    var paymentMode: PaymentMode
    var productSearch: string
    var completedInvoice: Option<Invoice>

    ghost predicate Valid()
      reads this
    {
      WellFormed(cart)
    }

    /** The initial state of the component, before its first `loadData`. */
    constructor (db: Store)
      ensures this.db == db && Valid()
      ensures products == [] && customers == [] && settings == db.GetSettings()
      ensures cart == [] && selectedCustomer.None? && paymentMode == Cash
      ensures productSearch == "" && completedInvoice.None?
    {
      this.db := db;
      products, customers, settings := [], [], db.GetSettings();
      cart, selectedCustomer, paymentMode := [], None, Cash;
      productSearch, completedInvoice := "", None;
    }

    /** `loadData`: reload catalogue, settings and customers; with no customer
        selected, select the walk-in customer if there is one. */
    method LoadData()
      modifies this`products, this`settings, this`customers, this`selectedCustomer
      ensures products == db.GetProducts() && settings == db.GetSettings() && customers == db.GetCustomers()
      ensures selectedCustomer == if old(selectedCustomer).Some? then old(selectedCustomer) else FindWalkIn(customers)
    {
      products := db.GetProducts();
      settings := db.GetSettings();
      customers := db.GetCustomers();
      if selectedCustomer.None? {
        var walkIn := FindWalkIn(customers);
        if walkIn.Some? {
          selectedCustomer := walkIn;
        }
      }
    }

    /** `addToCart(product, scannedImei)`; `freshId` is the new line's UUID.
        The search box is cleared unless the product was out of stock. */
    method AddToCart(product: Product, scannedImei: Option<string>, freshId: string)
      requires Valid() && FreshCartId(cart, freshId)
      modifies this`cart, this`productSearch
      ensures Valid()
      ensures cart == Billing.AddToCart(old(cart), product, scannedImei, freshId)
      ensures productSearch == if product.stock <= 0 then old(productSearch) else ""
      ensures old(WithinStock(cart)) && SnapshotsCover(old(cart), product) ==> WithinStock(cart)
    {
      if product.stock <= 0 {
        return;
      }
      AddPreservesWellFormed(cart, product, scannedImei, freshId);
      if WithinStock(cart) && SnapshotsCover(cart, product) {
        AddPreservesWithinStock(cart, product, scannedImei, freshId);
      }
      cart := Billing.AddToCart(cart, product, scannedImei, freshId);
      productSearch := "";
    }

    method UpdateQuantity(cartId: string, delta: int)
      requires Valid()
      modifies this`cart
      ensures Valid()
      ensures cart == Billing.UpdateQuantity(old(cart), cartId, delta)
      ensures old(WithinStock(cart)) ==> WithinStock(cart)
    {
      UpdateQuantityPreserves(cart, cartId, delta);
      cart := Billing.UpdateQuantity(cart, cartId, delta);
    }

    method UpdateDiscount(cartId: string, discount: real)
      requires Valid()
      modifies this`cart
      ensures Valid()
      ensures cart == Billing.UpdateDiscount(old(cart), cartId, discount)
      ensures old(WithinStock(cart)) ==> WithinStock(cart)
    {
      UpdateDiscountPreserves(cart, cartId, discount);
      cart := Billing.UpdateDiscount(cart, cartId, discount);
    }

    method RemoveFromCart(cartId: string)
      requires Valid()
      modifies this`cart
      ensures Valid()
      ensures cart == Billing.RemoveFromCart(old(cart), cartId)
      ensures old(WithinStock(cart)) ==> WithinStock(cart)
    {
      RemovePreserves(cart, cartId);
      cart := Billing.RemoveFromCart(cart, cartId);
    }

    /** `clearCart`; `confirmed` is the user's answer to the confirmation dialog. */
    method ClearCart(confirmed: bool)
      modifies this`cart
      ensures Valid()
      ensures cart == if confirmed then [] else old(cart)
      requires Valid()
    {
      if confirmed {
        cart := [];
      }
    }

    /** `handleSearchKeyDown` for the Enter key: resolve the search text to an
        add request and run `addToCart` with it. */
    method HandleSearchEnter(freshId: string)
      requires Valid() && FreshCartId(cart, freshId)
      modifies this`cart, this`productSearch
      ensures Valid()
      ensures match ResolveEnter(products, old(productSearch))
        case None => cart == old(cart) && productSearch == old(productSearch)
        case Some(req) =>
          && cart == Billing.AddToCart(old(cart), req.product, req.imei, freshId)
          && productSearch == if req.product.stock <= 0 then old(productSearch) else ""
    {
      var request := ResolveEnter(products, productSearch);
      if request.Some? {
        AddToCart(request.value.product, request.value.imei, freshId);
      }
    }

    /** `handleCheckout`: with an empty cart or no customer nothing happens;
        otherwise the invoice is built from the cart and its totals, saved,
        shown, and the cart emptied and the data reloaded. `nowMillis` and
        `isoNow` are the clock readings `Date.now()` and `new Date().toISOString()`. */
    method HandleCheckout(nowMillis: nat, isoNow: string)
      requires Valid()
      modifies this`cart, this`completedInvoice, this`products, this`settings, this`customers,
               this`selectedCustomer, db`invoices, db`products
      ensures Valid()
      ensures old(cart) == [] || old(selectedCustomer).None? ==>
        && cart == old(cart) && completedInvoice == old(completedInvoice)
        && products == old(products) && settings == old(settings) && customers == old(customers)
        && selectedCustomer == old(selectedCustomer)
        && db.invoices == old(db.invoices) && db.products == old(db.products)
      ensures old(cart) != [] && old(selectedCustomer).Some? ==>
        completedInvoice == Some(CheckoutInvoice(old(cart), old(selectedCustomer).value, paymentMode, nowMillis, isoNow))
      ensures old(cart) != [] && old(selectedCustomer).Some? ==>
        db.invoices == Some([completedInvoice.value] + old(db.GetInvoices()))
      ensures old(cart) != [] && old(selectedCustomer).Some? ==>
        db.products == Some(ApplyLines(old(db.GetProducts()), old(cart)))
      ensures old(cart) != [] && old(selectedCustomer).Some? ==>
        && cart == [] && selectedCustomer == old(selectedCustomer)
        && products == db.GetProducts() && customers == db.GetCustomers() && settings == db.GetSettings()
    {
      if |cart| == 0 || selectedCustomer.None? {
        return;
      }
      var newInvoice := CreateInvoice(cart, selectedCustomer.value, paymentMode, nowMillis, isoNow);
      CompleteSale(newInvoice);
    }

    /** The second half of `handleCheckout`: save the invoice, show it, empty
        the cart and reload the data. */
    method CompleteSale(newInvoice: Invoice)
      requires newInvoice.items == cart
      modifies this`cart, this`completedInvoice, this`products, this`settings, this`customers,
               this`selectedCustomer, db`invoices, db`products
      ensures Valid()
      ensures completedInvoice == Some(newInvoice)
      ensures db.invoices == Some([newInvoice] + old(db.GetInvoices()))
      ensures db.products == Some(ApplyLines(old(db.GetProducts()), old(cart)))
      ensures cart == []
      ensures products == db.GetProducts() && customers == db.GetCustomers() && settings == db.GetSettings()
      ensures selectedCustomer == if old(selectedCustomer).Some? then old(selectedCustomer) else FindWalkIn(customers)
    {
      ghost var history, stock := db.GetInvoices(), db.GetProducts();
      db.SaveInvoice(newInvoice);
      ghost var saved := (db.invoices, db.products);
      assert saved == (Some([newInvoice] + history), Some(ApplyLines(stock, cart)));
      completedInvoice := Some(newInvoice);
      cart := [];
      LoadData();
      assert (db.invoices, db.products) == saved;
    }

    /** `handleAddCustomer`: name and mobile are required; the new customer
        (id `freshId`) is appended to the directory and becomes the selection. */
    method HandleAddCustomer(name: string, mobile: string, email: string, address: string, freshId: string)
      modifies this`customers, this`selectedCustomer, db`customers
      ensures name == "" || mobile == "" ==>
        customers == old(customers) && selectedCustomer == old(selectedCustomer) && db.customers == old(db.customers)
      ensures name != "" && mobile != "" ==>
        var c := Customer(freshId, name, mobile, email, address, None);
        && db.customers == Some(old(db.GetCustomers()) + [c])
        && customers == db.GetCustomers()
        && selectedCustomer == Some(c)
    {
      if name == "" || mobile == "" {
        return;
      }
      var c := Customer(freshId, name, mobile, email, address, None);
      db.AddCustomer(c);
      customers := db.GetCustomers();
      selectedCustomer := Some(c);
    }
  }
}
