/** The cart's record types. */
module CartTypes {

  import opened Wrappers

  /**
   * One line of the cart. `price` is the snapshot taken when the line was first
   * added; `qty` is whatever the store was given (the store itself does not clamp it).
   */
  datatype CartItem = CartItem(
    id: string,
    slug: string,
    title: string,
    price: real,
    qty: int,
    image: Option<string>,
    variantLabel: Option<string>,
    personalization: Option<string>)

  /** What `addItem` receives: a line item without its quantity. */
  datatype NewItem = NewItem(
    id: string,
    slug: string,
    title: string,
    price: real,
    image: Option<string>,
    variantLabel: Option<string>,
    personalization: Option<string>)

  /** `{ ...item, qty }`: the new line built from an added item. */
  function WithQty(item: NewItem, qty: int): (line: CartItem)
    ensures line.id == item.id && line.qty == qty && line.price == item.price
    ensures NewItem(line.id, line.slug, line.title, line.price, line.image, line.variantLabel, line.personalization) == item
  {
    CartItem(item.id, item.slug, item.title, item.price, qty,
             item.image, item.variantLabel, item.personalization)
  }
}
