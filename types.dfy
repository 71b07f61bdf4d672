// The storefront's data model: products, cart entries, users and orders.

module Types {

  /** A value that may be absent (JavaScript's `null`/`undefined`). */
  datatype Option<T> = None | Some(value: T)

  /** The product categories, in declaration order. */
  datatype Category =
    | Smartphones
    | Laptops
    | Headphones
    | SmartTvs
    | Accessories
    | Gaming
    | Cameras
    | SmartHome

  /** The string value each category stands for. */
  function CategoryName(c: Category): string
  {
    match c
    case Smartphones => "Smartphones"
    case Laptops => "Laptops"
    case Headphones => "Headphones"
    case SmartTvs => "Smart TVs"
    case Accessories => "Accessories"
    case Gaming => "Gaming"
    case Cameras => "Cameras"
    case SmartHome => "Smart Home"
  }

  /** A catalog entry. Prices are whole currency units. */
  datatype Product = Product(
    id: string,
    brand: string,
    name: string,
    price: int,
    images: seq<string>,
    category: Category,
    stock: int,
    description: string,
    specs: map<string, string>)

  /** A product snapshot together with the quantity in the cart. */
  datatype CartItem = CartItem(product: Product, quantity: int)

  datatype Role = Customer | Admin

  datatype User = User(id: string, email: string, name: string, role: Role)

  datatype OrderStatus = Pending | Paid | Shipped | Delivered

  /** A placed order: the cart lines frozen at checkout and their total. */
  datatype Order = Order(
    id: string,
    userId: string,
    items: seq<CartItem>,
    total: int,
    status: OrderStatus,
    createdAt: string,
    shippingAddress: string)
}
