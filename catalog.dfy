/** The product records shared by every screen. Every field is the string the
    screens display; the price in particular is a label such as "KES 120/kg". */
module Catalog {
  import opened Wrappers

  /** A picked or remote image. Only its presence matters to the logic. */
  datatype ImageRef = ImageRef(uri: string)

  datatype Product = Product(
    id: string,
    name: string,
    price: string,
    farmer: string,
    location: string,
    category: string,
    image: ImageRef,
    description: string,
    quantity: string)

  /** What a "go to cart" or "proceed to checkout" button does: refuse with
      the "Empty Cart" alert, or navigate on with the given route parameters. */
  datatype CartGuard<P> = EmptyCartAlert | Proceed(params: P)

  /** The catalog the home screen starts with. */
  function MockProducts(): seq<Product> {
    [ Product("1", "Fresh Tomatoes", "KES 120/kg", "John Kamau", "Kiambu", "Vegetables",
              ImageRef("https://images.unsplash.com/photo-1592924357228-91a4daadcfea"),
              "Fresh, locally grown tomatoes. Perfect for salads and cooking.", "50 kg available"),
      Product("2", "Green Maize", "KES 50/kg", "Mary Wanjiku", "Nakuru", "Cereals",
              ImageRef("https://images.unsplash.com/photo-1551754655-cd27e38d2076"),
              "Freshly harvested green maize. Sweet and tender.", "100 kg available"),
      Product("3", "Potatoes", "KES 80/kg", "Peter Mwangi", "Nyeri", "Vegetables",
              ImageRef("https://images.unsplash.com/photo-1518977676601-b53f82aba655"),
              "High-quality potatoes from the highlands of Nyeri.", "200 kg available"),
      Product("4", "Fresh Milk", "KES 70/liter", "Sarah Kamau", "Kiambu", "Dairy",
              ImageRef("https://images.unsplash.com/photo-1550583724-b2692b85b150"),
              "Fresh cow milk, delivered daily.", "50 liters available"),
      Product("5", "Bananas", "KES 200/bunch", "James Omondi", "Kisumu", "Fruits",
              ImageRef("https://images.unsplash.com/photo-1603833665858-e61d17a86224"),
              "Sweet bananas, perfect for snacking.", "30 bunches available") ]
  }
}
