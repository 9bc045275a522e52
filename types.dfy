/** The storefront's record types (types.ts). Only the fields that some modelled behaviour
    reads are kept; descriptive tea metadata (description, image, origin, ratings, steeping and
    harvest information) is left out. */
module Types {

  /** The tea categories, in declaration order; `Label` is the enum's string value. */
  datatype Category = Green | Black | Oolong | White | Herbal | Wellness | Gifting {
    function Label(): string {
      match this
      case Green => "Green Tea"
      case Black => "Black Tea"
      case Oolong => "Oolong"
      case White => "White Tea"
      case Herbal => "Herbal Infusions"
      case Wellness => "Wellness Blends"
      case Gifting => "Gifting Sets"
    }
  }

  /** `Object.values(Category)`: every category once, in declaration order. */
  const AllCategories: seq<Category> := [Green, Black, Oolong, White, Herbal, Wellness, Gifting]

  /** The pack sizes '250g', '500g' and '1kg'. */
  datatype PackSize = Pack250g | Pack500g | Pack1kg

  /** A catalog product; `price` is the base price, that of the 250g pack. */
  datatype Tea = Tea(id: string, name: string, category: Category, price: real)

  /** A cart line: the product, how many packs, which pack size, and the unit price locked in
      when the line was created. */
  datatype CartItem = CartItem(tea: Tea, quantity: int, selectedSize: PackSize, selectedPrice: real)

  datatype AddressType = Home | Office

  datatype ShippingAddress = ShippingAddress(
    fullName: string, mobile: string, email: string, address: string,
    city: string, state: string, pincode: string, kind: AddressType)

  datatype PaymentMethod = UPI | Card | NetBanking | Wallet | COD

  datatype OrderStatus = Processing | Shipped | Delivered | Cancelled

  /** An order: identifier, display date, the lines bought, the computed amounts, where it
      ships, how it was paid and its status. */
  datatype Order = Order(
    id: string, date: string, items: seq<CartItem>,
    subtotal: real, gst: real, shipping: real, total: real,
    address: ShippingAddress, paymentMethod: PaymentMethod, status: OrderStatus)
}
