/** The persistent store: one slot per storage key (products, customers,
    invoices, settings, session), each holding a value or nothing (the key
    is missing). Reads fall back to seed data; `saveInvoice` prepends the
    invoice and applies the sale to the catalogue; backups copy and restore
    the four collections. JSON encoding is abstract: a slot holds the decoded value. */
module Db {
  import opened Types
  import opened Collections

  const SeedProducts: seq<Product> := [
    Product("1", "iPhone 15 128GB", "Apple", "Mobile", "8517", 79900.0, 72000.0, 18.0, 2, "pcs",
            Some("190199223344"), Some(["354666060011223", "354666060011224"])),
    Product("2", "Galaxy S24 Ultra", "Samsung", "Mobile", "8517", 129999.0, 115000.0, 18.0, 1, "pcs",
            Some("880123456789"), Some(["358889090011222"])),
    Product("3", "USB-C Cable 1m", "Samsung", "Accessories", "8544", 999.0, 400.0, 18.0, 50, "pcs",
            Some("8809988776655"), None),
    Product("4", "AirPods Pro 2", "Apple", "Audio", "8518", 24900.0, 20000.0, 18.0, 5, "pcs",
            Some("190199556677"), Some(["H34K22L99", "H34K22L00", "H34K22L01"])),
    Product("5", "Tempered Glass", "Generic", "Accessories", "7007", 299.0, 50.0, 18.0, 100, "pcs",
            Some("8901122330000"), None)
  ]

  const SeedCustomers: seq<Customer> := [
    Customer("1", "Walk-in Customer", "", "", "", None),
    Customer("2", "Rahul Sharma", "9898989898", "rahul@example.com", "45, MG Road", None)
  ]

  /** The fixed roster of accounts. */
  const Users: seq<User> := [
    User("1", "admin", Admin, "Store Owner"),
    User("2", "staff", Staff, "Sales Executive")
  ]

  const DefaultSettings: ShopSettings := ShopSettings(
    "TechMobile Electronics",
    "Shop 4, Digital Plaza, Main Road",
    "9876543210",
    "29ABCDE1234F1Z5",
    "No warranty on physical damage. Goods once sold not refundable.",
    // the WhatsApp template, written as its text pieces and its tokens
    Some("Dear " + "{customer}" + ", thank you for purchasing from " + "{shopName}" + ". Your Invoice #" + "{id}"
      + " of Rs. " + "{total}" + " is generated on " + "{date}" + ". Visit again!"),
    Some("Invoice #{id} from {shopName}"),
    Some("Dear {customer},\n\nThank you for your purchase.\n\nInvoice No: {id}\nDate: {date}\nTotal Amount: Rs. {total}\n\nPlease visit us again.\n\nRegards,\n{shopName}"))

  /** `USERS.find(u => u.username === username)`: login succeeds for exactly
      the two roster names, and yields the account of that name. */
  function FindUser(username: string): (r: Option<User>)
    ensures r.Some? <==> username == "admin" || username == "staff"
    ensures r.Some? ==> r.value in Users && r.value.username == username
  {
    var k := FirstIndex(Users, (u: User) => u.username == username);
    assert Users[0].username == "admin" && Users[1].username == "staff";
    if k < 0 then None else Some(Users[k])
  }

  // ---------------------------------------------------------------------
  // The effect of a sale on the catalogue

  /** `products.findIndex(p => p.id === id)`. */
  function FindProduct(ps: seq<Product>, id: string): int {
    FirstIndex(ps, (p: Product) => p.id == id)
  }

  /** One line applied to its product: stock goes down by the quantity (no
      clamping at zero) and a bound serial leaves the pool, if there is one. */
  function SellLine(p: Product, item: CartItem): (r: Product)
    ensures SameEntry(p, r) && r.stock == p.stock - item.quantity
    ensures p.availableImeis.None? ==> r.availableImeis.None?
    ensures p.availableImeis.Some? && Truthy(item.selectedImei) ==>
      r.availableImeis == Some(Without(p.availableImeis.value, item.selectedImei.value))
    ensures p.availableImeis.Some? && !Truthy(item.selectedImei) ==> r.availableImeis == p.availableImeis
  {
    var p1 := p.(stock := p.stock - item.quantity);
    if Truthy(item.selectedImei) && p1.availableImeis.Some? then
      p1.(availableImeis := Some(Without(p1.availableImeis.value, item.selectedImei.value)))
    else p1
  }

  /** One iteration of the `forEach` in `saveInvoice`; a line whose product is
      not in the catalogue is skipped. */
  function ApplyLine(ps: seq<Product>, item: CartItem): (r: seq<Product>)
    ensures |r| == |ps|
  {
    var k := FindProduct(ps, item.product.id);
    if k < 0 then ps else ps[k := SellLine(ps[k], item)]
  }

  /** One iteration of the `forEach` in `saveInvoice`, on a copy of the catalogue. */
  method SellFromCatalogue(ps: seq<Product>, item: CartItem) returns (r: seq<Product>)
    ensures r == ApplyLine(ps, item)
  {
    r := ps;
    var productIndex := FindProduct(ps, item.product.id);
    if productIndex != -1 {
      var p := ps[productIndex];
      p := p.(stock := p.stock - item.quantity);
      if Truthy(item.selectedImei) && p.availableImeis.Some? {
        p := p.(availableImeis := Some(Without(p.availableImeis.value, item.selectedImei.value)));
      }
      r := ps[productIndex := p];
    }
  }

  /** The catalogue after all lines of an invoice, in order. */
  function ApplyLines(ps: seq<Product>, items: seq<CartItem>): (r: seq<Product>)
    ensures |r| == |ps|
  {
    if items == [] then ps
    else ApplyLine(ApplyLines(ps, items[..|items| - 1]), items[|items| - 1])
  }

  /** Units of product `id` on the invoice lines. */
  function QuantitySold(items: seq<CartItem>, id: string): int {
    if items == [] then 0
    else
      var last := items[|items| - 1];
      QuantitySold(items[..|items| - 1], id) + (if last.product.id == id then last.quantity else 0)
  }

  /** The serial a line sells of product `id`, if any. */
  function SoldOn(item: CartItem, id: string): seq<string> {
    if item.product.id == id && Truthy(item.selectedImei) then [item.selectedImei.value] else []
  }

  /** The serials of product `id` sold on the invoice lines, in line order. */
  function SoldImeis(items: seq<CartItem>, id: string): seq<string> {
    if items == [] then []
    else SoldImeis(items[..|items| - 1], id) + SoldOn(items[|items| - 1], id)
  }

  /** Only stock and serial pool may differ; everything else about a product stays. */
  predicate SameEntry(p: Product, q: Product) {
    q == p.(stock := q.stock, availableImeis := q.availableImeis)
  }

  /** FindProduct looks only at the ids. */
  lemma {:induction false} FindProductByIds(a: seq<Product>, b: seq<Product>, id: string)
    requires |a| == |b| && forall k :: 0 <= k < |a| ==> a[k].id == b[k].id
    ensures FindProduct(a, id) == FindProduct(b, id)
  {
    if a != [] {
      FindProductByIds(a[1..], b[1..], id);
      assert FindProduct(a, id) == FirstIndex(a, (p: Product) => p.id == id);
    }
  }

  /** The catalogue keeps its length, order and ids; only stock and serial pools change. */
  lemma {:induction false} ApplyLinesShape(ps: seq<Product>, items: seq<CartItem>)
    ensures var r := ApplyLines(ps, items);
      |r| == |ps| && forall k :: 0 <= k < |ps| ==> r[k].id == ps[k].id && SameEntry(ps[k], r[k])
  {
    if items != [] {
      ApplyLinesShape(ps, items[..|items| - 1]);
    }
  }

  /** The whole effect of a sale on entry `k`: if `k` is where `findIndex`
      lands for its id, its stock drops by the units sold of that id and its
      pool (if it has one) loses the serials sold; any other entry is untouched. */
  lemma {:induction false} ApplyLinesEffect(ps: seq<Product>, items: seq<CartItem>, k: nat)
    requires k < |ps|
    ensures var r := ApplyLines(ps, items);
      if FindProduct(ps, ps[k].id) == k then
        && r[k].stock == ps[k].stock - QuantitySold(items, ps[k].id)
        && r[k].availableImeis ==
             (if ps[k].availableImeis.None? then None
              else Some(WithoutAll(ps[k].availableImeis.value, SoldImeis(items, ps[k].id))))
      else r[k] == ps[k]
  {
    ApplyLinesShape(ps, items);
    if items != [] {
      var front := items[..|items| - 1];
      var last := items[|items| - 1];
      ApplyLinesEffect(ps, front, k);
      ApplyLinesShape(ps, front);
      var r' := ApplyLines(ps, front);
      var r := ApplyLines(ps, items);
      var id := ps[k].id;
      FindProductByIds(r', ps, last.product.id);
      var m := FindProduct(ps, last.product.id);
      var fk := FindProduct(ps, id);
      assert m >= 0 ==> ps[m].id == last.product.id;
      assert r == ApplyLine(r', last);
      if m == k {
        assert last.product.id == id && fk == k;
        assert r[k] == SellLine(r'[k], last);
        assert QuantitySold(items, id) == QuantitySold(front, id) + last.quantity;
        if ps[k].availableImeis.Some? && Truthy(last.selectedImei) {
          var sold := SoldImeis(front, id);
          var v := last.selectedImei.value;
          assert SoldImeis(items, id) == sold + [v];
          assert (sold + [v])[..|sold + [v]| - 1] == sold;
          assert WithoutAll(ps[k].availableImeis.value, sold + [v])
              == Without(WithoutAll(ps[k].availableImeis.value, sold), v);
        } else if !Truthy(last.selectedImei) {
          assert SoldOn(last, id) == [];
          assert SoldImeis(front, id) + [] == SoldImeis(front, id);
        }
      } else {
        assert r[k] == r'[k];
        if fk == k {
          assert last.product.id != id;
          assert QuantitySold(items, id) == QuantitySold(front, id);
          assert SoldOn(last, id) == [];
          assert SoldImeis(front, id) + [] == SoldImeis(front, id);
        }
      }
    }
  }

  /** Stock conservation with distinct product ids: every entry loses exactly
      the units sold of it, possibly going below zero. */
  lemma StockConservation(ps: seq<Product>, items: seq<CartItem>, k: nat)
    requires k < |ps|
    requires forall i, j :: 0 <= i < j < |ps| ==> ps[i].id != ps[j].id
    ensures |ApplyLines(ps, items)| == |ps|
    ensures ApplyLines(ps, items)[k].stock == ps[k].stock - QuantitySold(items, ps[k].id)
  {
    ApplyLinesShape(ps, items);
    ApplyLinesEffect(ps, items, k);
    var f := (p: Product) => p.id == ps[k].id;
    var m := FirstIndex(ps, f);
    assert f(ps[k]);
    assert m == k;
  }

  /** A serial sold on a line of product `ps[k]` is gone from its pool; the
      other serials stay, in their order; an entry without a pool keeps none. */
  lemma SoldImeiRemoved(ps: seq<Product>, items: seq<CartItem>, k: nat)
    requires k < |ps| && FindProduct(ps, ps[k].id) == k
    ensures var r := ApplyLines(ps, items);
      && (ps[k].availableImeis.None? ==> r[k].availableImeis.None?)
      && (ps[k].availableImeis.Some? ==>
            && r[k].availableImeis.Some?
            && IsSubsequence(r[k].availableImeis.value, ps[k].availableImeis.value)
            && forall x :: x in r[k].availableImeis.value <==>
                 x in ps[k].availableImeis.value && x !in SoldImeis(items, ps[k].id))
  {
    ApplyLinesShape(ps, items);
    ApplyLinesEffect(ps, items, k);
  }

  /** Every truthy serial on a line of the product is among the serials sold of it. */
  lemma {:induction false} LineImeiIsSold(items: seq<CartItem>, i: nat)
    requires i < |items| && Truthy(items[i].selectedImei)
    ensures items[i].selectedImei.value in SoldImeis(items, items[i].product.id)
  {
    var front := items[..|items| - 1];
    if i < |items| - 1 {
      assert front[i] == items[i];
      LineImeiIsSold(front, i);
    }
  }

  // ---------------------------------------------------------------------
  // Backups

  /** The document `createBackup` serialises. */
  datatype Backup = Backup(
    products: seq<Product>,
    customers: seq<Customer>,
    invoices: seq<Invoice>,
    settings: ShopSettings,
    timestamp: string)

  /** A parsed backup document: each of the four keys present or not. */
  datatype BackupData = BackupData(
    products: Option<seq<Product>>,
    customers: Option<seq<Customer>>,
    invoices: Option<seq<Invoice>>,
    settings: Option<ShopSettings>)

  /** Parsing the text of a backup this program wrote: the JSON encoding is
      taken to round-trip, so every key is present with its value. */
  function ParseOwnBackup(b: Backup): BackupData {
    BackupData(Some(b.products), Some(b.customers), Some(b.invoices), Some(b.settings))
  }

  /** An `if (data.key) setItem(key, ...)` of restoreBackup. */
  function Restored<T>(current: Option<T>, incoming: Option<T>): (r: Option<T>)
    ensures incoming.Some? ==> r == incoming
    ensures incoming.None? ==> r == current
  {
    if incoming.Some? then incoming else current
  }

  class Store {
    var products: Option<seq<Product>>
    var customers: Option<seq<Customer>>
    var invoices: Option<seq<Invoice>>
    var settings: Option<ShopSettings>
    var session: Option<User>

    /** An empty browser store: no key is set. */
    constructor ()
      ensures products.None? && customers.None? && invoices.None? && settings.None? && session.None?
    {
      products, customers, invoices, settings, session := None, None, None, None, None;
    }

    function GetProducts(): (r: seq<Product>)
      reads this
      ensures products.None? ==> r == SeedProducts
      ensures products.Some? ==> r == products.value
    {
      products.GetOr(SeedProducts)
    }

    function GetCustomers(): (r: seq<Customer>)
      reads this
      ensures customers.None? ==> r == SeedCustomers
      ensures customers.Some? ==> r == customers.value
    {
      customers.GetOr(SeedCustomers)
    }

    function GetInvoices(): (r: seq<Invoice>)
      reads this
      ensures invoices.None? ==> r == []
      ensures invoices.Some? ==> r == invoices.value
    {
      invoices.GetOr([])
    }

    function GetSettings(): (r: ShopSettings)
      reads this
      ensures settings.None? ==> r == DefaultSettings
      ensures settings.Some? ==> r == settings.value
    {
      settings.GetOr(DefaultSettings)
    }

    method SaveProducts(ps: seq<Product>)
      modifies this`products
      ensures products == Some(ps)
    {
      products := Some(ps);
    }

    method SaveCustomers(cs: seq<Customer>)
      modifies this`customers
      ensures customers == Some(cs)
    {
      customers := Some(cs);
    }

    method SaveSettings(s: ShopSettings)
      modifies this`settings
      ensures settings == Some(s)
    {
      settings := Some(s);
    }

    /** `addCustomer`: the customer goes to the end; the others stay as they were. */
    method AddCustomer(c: Customer)
      modifies this`customers
      ensures customers == Some(old(GetCustomers()) + [c])
      ensures GetCustomers()[..|GetCustomers()| - 1] == old(GetCustomers())
    {
      var cs := GetCustomers();
      cs := cs + [c];
      SaveCustomers(cs);
    }

    /** `saveInvoice`: the invoice goes to the front of the history (no
        deduplication), then each line is applied to the catalogue in place. */
    method SaveInvoice(invoice: Invoice)
      modifies this`invoices, this`products
      ensures invoices == Some([invoice] + old(GetInvoices()))
      ensures products == Some(ApplyLines(old(GetProducts()), invoice.items))
    {
      var history := GetInvoices();
      history := [invoice] + history;
      invoices := Some(history);

      var ps := GetProducts();
      ghost var original := ps;
      var items := invoice.items;
      var i := 0;
      while i < |items|
        invariant 0 <= i <= |items|
        invariant ps == ApplyLines(original, items[..i])
        invariant invoices == Some(history)
      {
        assert items[..i + 1][..i] == items[..i];
        ps := SellFromCatalogue(ps, items[i]);
        i := i + 1;
      }
      assert items[..i] == items;
      SaveProducts(ps);
    }

    /** The session only ever holds a roster user: it is set by `login` alone. */
    ghost predicate SessionValid()
      reads this
    {
      session.Some? ==> FindUser(session.value.username) == session
    }

    /** `login`: a roster name becomes the session; any other string leaves it. */
    method Login(username: string) returns (user: Option<User>)
      requires SessionValid()
      modifies this`session
      ensures SessionValid()
      ensures user == FindUser(username)
      ensures session == if user.Some? then user else old(session)
      ensures user.Some? ==> GetCurrentUser() == user
    {
      user := FindUser(username);
      if user.Some? {
        session := user;
      }
    }

    /** `getCurrentUser`: the user of the last successful login, if any. */
    function GetCurrentUser(): (r: Option<User>)
      reads this
      requires SessionValid()
      ensures r == session
      ensures r.Some? ==> FindUser(r.value.username) == r
    {
      session
    }

    method Logout()
      modifies this`session
      ensures SessionValid() && GetCurrentUser() == None
    {
      session := None;
    }

    /** `createBackup`: the four collections as the getters see them, seed
        data included, and the time given. */
    function CreateBackup(timestamp: string): (b: Backup)
      reads this
      ensures b.products == GetProducts() && b.customers == GetCustomers()
      ensures b.invoices == GetInvoices() && b.settings == GetSettings()
      ensures b.timestamp == timestamp
    {
      Backup(GetProducts(), GetCustomers(), GetInvoices(), GetSettings(), timestamp)
    }

    /** `restoreBackup`: a parse failure (`None`) writes nothing and reports
        false; otherwise each key present in the document overwrites its slot
        and an absent key keeps the old value. */
    method RestoreBackup(parsed: Option<BackupData>) returns (ok: bool)
      modifies this`products, this`customers, this`invoices, this`settings
      ensures ok == parsed.Some?
      ensures parsed.None? ==>
        products == old(products) && customers == old(customers)
        && invoices == old(invoices) && settings == old(settings)
      ensures parsed.Some? ==>
        && products == Restored(old(products), parsed.value.products)
        && customers == Restored(old(customers), parsed.value.customers)
        && invoices == Restored(old(invoices), parsed.value.invoices)
        && settings == Restored(old(settings), parsed.value.settings)
    {
      if parsed.None? {
        return false;
      }
      var data := parsed.value;
      if data.products.Some? { products := data.products; }
      if data.customers.Some? { customers := data.customers; }
      if data.invoices.Some? { invoices := data.invoices; }
      if data.settings.Some? { settings := data.settings; }
      return true;
    }

    /** `restoreBackup(createBackup())`: succeeds and leaves the four
        collections as the getters saw them. */
    method RestoreOwnBackup(timestamp: string) returns (ok: bool)
      modifies this`products, this`customers, this`invoices, this`settings
      ensures ok
      ensures GetProducts() == old(GetProducts()) && GetCustomers() == old(GetCustomers())
      ensures GetInvoices() == old(GetInvoices()) && GetSettings() == old(GetSettings())
    {
      var backup := CreateBackup(timestamp);
      ok := RestoreBackup(Some(ParseOwnBackup(backup)));
    }
  }
}
