/** The records of the shop: catalogue products, customers, cart lines,
    invoices, shop settings and the two user accounts. */
module Types {

  datatype Option<+T> = None | Some(value: T) {
    function GetOr(default: T): T {
      match this
      case Some(v) => v
      case None => default
    }
  }

  /** JavaScript truthiness of an optional string: absent and "" are both false. */
  predicate Truthy(o: Option<string>) {
    o.Some? && o.value != ""
  }

  /** A catalogue entry. `availableImeis` is the pool of unsold serial numbers
      of a serialised product; money amounts are exact rationals. */
  datatype Product = Product(
    id: string,
    name: string,
    brand: string,
    category: string,
    hsn: string,
    price: real,
    cost: real,
    gstPercent: real,
    stock: int,
    unit: string,
    barcode: Option<string>,
    availableImeis: Option<seq<string>>)

  datatype Customer = Customer(
    id: string,
    name: string,
    mobile: string,
    email: string,
    address: string,
    gstin: Option<string>)

  /** A cart line: a snapshot of the product taken when it was added, plus the
      line's own id, quantity, discount percentage and bound serial number. */
  datatype CartItem = CartItem(
    product: Product,
    cartId: string,
    quantity: int,
    discount: real,
    selectedImei: Option<string>)

  datatype PaymentMode = Cash | UPI | Card | Credit

  datatype InvoiceStatus = Paid | Unpaid | Cancelled

  /** A completed sale. The customer is copied by name and mobile, not referenced. */
  datatype Invoice = Invoice(
    id: string,
    date: string,
    customerName: string,
    customerMobile: string,
    items: seq<CartItem>,
    subtotal: real,
    totalDiscount: real,
    totalTax: real,
    totalAmount: int,
    paymentMode: PaymentMode,
    status: InvoiceStatus)

  datatype ShopSettings = ShopSettings(
    shopName: string,
    address: string,
    phone: string,
    gstin: string,
    footerMessage: string,
    whatsappTemplate: Option<string>,
    emailSubject: Option<string>,
    emailBody: Option<string>)

  datatype Role = Admin | Staff

  datatype User = User(id: string, username: string, role: Role, name: string)
}
