/** The home screen: the catalog filter, the cart being filled, the guard in
    front of the cart screen, the farmer's "add product" form, and the reset
    on returning from checkout. */
module Home {
  import opened Wrappers
  import opened Text
  import opened Catalog
  import opened Pricing
  import opened Seqs

  /** The category pill that disables filtering. */
  const AllCategories := "All"

  /** The category a fresh "add product" form starts with. */
  const DefaultCategory := "Vegetables"

  function InCategory(category: string): Product -> bool {
    (p: Product) => p.category == category
  }

  /** `filteredProducts`: the whole catalog under "All", otherwise the
      products whose category is exactly the selected name. */
  function FilterByCategory(products: seq<Product>, selected: string): (r: seq<Product>)
    ensures selected == AllCategories ==> r == products
    ensures forall p :: p in r <==> p in products && (selected == AllCategories || p.category == selected)
  {
    if selected == AllCategories then products else Filter(products, InCategory(selected))
  }

  /** The selected products keep their catalog order. */
  lemma FilterByCategoryAppend(a: seq<Product>, b: seq<Product>, selected: string)
    ensures FilterByCategory(a + b, selected) == FilterByCategory(a, selected) + FilterByCategory(b, selected)
  {
    if selected != AllCategories {
      FilterAppend(a, b, InCategory(selected));
    }
  }

  /** The state of the "add product" modal's form. */
  datatype ProductForm = ProductForm(
    name: string, price: string, quantity: string, category: string, image: Option<ImageRef>)

  function BlankForm(): ProductForm {
    ProductForm("", "", "", DefaultCategory, None)
  }

  /** Which branch of `addNewProduct` is taken. */
  datatype ListingCheck = FillRequiredFields | AddImage | ProductAdded

  /** Empty name, price or quantity is reported before a missing image. */
  function CheckListing(form: ProductForm): (r: ListingCheck)
    ensures r == FillRequiredFields <==> form.name == [] || form.price == [] || form.quantity == []
    ensures r == AddImage <==>
              form.name != [] && form.price != [] && form.quantity != [] && form.image.None?
    ensures r == ProductAdded <==>
              form.name != [] && form.price != [] && form.quantity != [] && form.image.Some?
  {
    if form.name == [] || form.price == [] || form.quantity == [] then FillRequiredFields
    else if form.image.None? then AddImage
    else ProductAdded
  }

  /** The record `addNewProduct` builds from the form when the catalog holds
      `count` products. */
  function NewListing(form: ProductForm, count: nat, farmer: string): (r: Product)
    requires form.image.Some?
    ensures AllDigits(r.id) && DigitsValue(r.id) == count + 1
    ensures |r.price| >= 4 && r.price[..4] == "KES " && r.price[4..] == form.price
    ensures r.name == form.name && r.category == form.category && r.image == form.image.value
    ensures r.farmer == farmer && r.quantity == form.quantity + " available"
  {
    Product(Decimal(count + 1), form.name, "KES " + form.price, farmer, "Your Location",
            form.category, form.image.value, "Newly listed product", form.quantity + " available")
  }

  /** A farmer who types a price starting with digits (such as "120" or
      "120/kg") sells at exactly that amount once the listing is in a cart. */
  lemma ListingPriceRoundTrip(form: ProductForm, count: nat, farmer: string, digits: string, unit: string)
    requires form.image.Some?
    requires form.price == digits + unit
    requires |digits| >= 1 && AllDigits(digits)
    requires unit == [] || !IsDigit(unit[0])
    ensures PriceOf(NewListing(form, count, farmer)) == DigitsValue(digits)
  {
    assert "KES " + form.price == "KES " + digits + unit;
    LabelRoundTrip(digits, unit);
  }

  /** Product ids are the positions 1, 2, 3, ... written in decimal: the
      last record carries the catalog's length, and the rest are numbered
      the same way. */
  ghost predicate SequentialIds(products: seq<Product>)
    decreases |products|
  {
    products == [] ||
    (SequentialIds(products[..|products| - 1]) && products[|products| - 1].id == Decimal(|products|))
  }

  /** The record at position `i` carries the id `i + 1`. */
  lemma {:induction false} SequentialIdAt(products: seq<Product>, i: nat)
    requires SequentialIds(products) && i < |products|
    ensures products[i].id == Decimal(i + 1)
    decreases |products|
  {
    if i < |products| - 1 {
      var front := products[..|products| - 1];
      SequentialIdAt(front, i);
      assert front[i] == products[i];
    }
  }

  /** So no two catalog entries share an id. */
  lemma SequentialIdsAreUnique(products: seq<Product>)
    requires SequentialIds(products)
    ensures forall i, j :: 0 <= i < j < |products| ==> products[i].id != products[j].id
  {
    forall i, j | 0 <= i < j < |products|
      ensures products[i].id != products[j].id
    {
      SequentialIdAt(products, i);
      SequentialIdAt(products, j);
      assert DigitsValue(products[i].id) == i + 1;
    }
  }

  /** Appending the record numbered one past the end keeps the numbering. */
  lemma SequentialIdsAppend(products: seq<Product>, p: Product)
    requires SequentialIds(products) && p.id == Decimal(|products| + 1)
    ensures SequentialIds(products + [p])
  {
    assert (products + [p])[..|products|] == products;
  }

  /** Conversely, a catalog whose record at each position `i` carries the
      id `i + 1` is sequentially numbered. */
  lemma {:induction false} SequentialIdsIntro(products: seq<Product>)
    requires forall i :: 0 <= i < |products| ==> products[i].id == Decimal(i + 1)
    ensures SequentialIds(products)
    decreases |products|
  {
    if products != [] {
      var front := products[..|products| - 1];
      assert forall i :: 0 <= i < |front| ==> front[i] == products[i];
      SequentialIdsIntro(front);
    }
  }

  lemma MockProductsAreSequential()
    ensures SequentialIds(MockProducts())
  {
    var m := MockProducts();
    assert Decimal(1) == "1" && Decimal(2) == "2" && Decimal(3) == "3";
    assert Decimal(4) == "4" && Decimal(5) == "5";
    SequentialIdsIntro(m);
  }

  /** The route parameters of the home screen; each may be absent. */
  datatype HomeParams = HomeParams(userType: Option<string>, userName: Option<string>, cartCleared: Option<bool>)

  class HomeScreen {
    const userName: string
    var cartItems: seq<Product>
    var selectedCategory: string
    var showAddProductModal: bool
    var newProduct: ProductForm
    var products: seq<Product>
    /** The `cartCleared` route parameter as the clearing effect last saw it;
        React re-runs that effect only when this value changes. */
    var cartClearedParam: bool

    ghost predicate Valid()
      reads this
    {
      SequentialIds(products)
    }

    /** `route.params || {}` with the defaults `userName = 'User'` and
        `cartCleared = false`; the cart starts empty whatever `cartCleared`
        says, so the clearing effect's first run changes nothing. */
    constructor (params: Option<HomeParams>)
      ensures Valid()
      ensures userName == (if params.Some? then params.value.userName.GetOr("User") else "User")
      ensures cartClearedParam == (params.Some? && params.value.cartCleared.GetOr(false))
      ensures cartItems == [] && products == MockProducts()
      ensures selectedCategory == AllCategories && !showAddProductModal && newProduct == BlankForm()
    {
      MockProductsAreSequential();
      products := MockProducts();
      userName := if params.Some? then params.value.userName.GetOr("User") else "User";
      cartClearedParam := params.Some? && params.value.cartCleared.GetOr(false);
      cartItems := [];
      selectedCategory := AllCategories;
      showAddProductModal := false;
      newProduct := BlankForm();
    }

    /** The products listed under the selected category pill. */
    function FilteredProducts(): (r: seq<Product>)
      reads this
      ensures selectedCategory == AllCategories ==> r == products
      ensures selectedCategory != AllCategories ==>
                forall p :: p in r <==> p in products && p.category == selectedCategory
      ensures |r| <= |products|
    {
      FilterByCategory(products, selectedCategory)
    }

    /** Checkout navigating back to this mounted screen with `cartCleared`.
        The effect depends on `[cartCleared]`, so it runs only when the value
        differs from the one it last saw; when it runs with true it empties
        the cart. */
    method ReceiveCartCleared(cartCleared: bool)
      modifies this
      ensures cartClearedParam == cartCleared
      ensures cartItems == (if cartCleared && !old(cartClearedParam) then [] else old(cartItems))
      ensures products == old(products) && newProduct == old(newProduct)
      ensures selectedCategory == old(selectedCategory)
      ensures showAddProductModal == old(showAddProductModal)
    {
      if cartCleared != cartClearedParam {
        if cartCleared {
          cartItems := [];
        }
      }
      cartClearedParam := cartCleared;
    }

    /** The same return with the effect also resetting the parameter
        (`navigation.setParams({ cartCleared: false })`) after it runs, so
        that the next return from checkout is a change again. */
    method ReceiveCartClearedAndReset(cartCleared: bool)
      modifies this
      ensures !cartClearedParam
      ensures cartItems == (if cartCleared && !old(cartClearedParam) then [] else old(cartItems))
      ensures products == old(products) && newProduct == old(newProduct)
      ensures selectedCategory == old(selectedCategory)
      ensures showAddProductModal == old(showAddProductModal)
    {
      ReceiveCartCleared(cartCleared);
      cartClearedParam := false;
    }

    /** Tapping a category pill. */
    method SelectCategory(name: string)
      modifies this
      ensures selectedCategory == name
      ensures cartItems == old(cartItems) && products == old(products)
      ensures newProduct == old(newProduct) && showAddProductModal == old(showAddProductModal)
      ensures cartClearedParam == old(cartClearedParam)
    {
      selectedCategory := name;
    }

    /** `addToCart`: append the product as a new line, duplicates included. */
    method AddToCart(product: Product)
      modifies this
      ensures cartItems == old(cartItems) + [product]
      ensures products == old(products) && newProduct == old(newProduct)
      ensures selectedCategory == old(selectedCategory)
      ensures showAddProductModal == old(showAddProductModal)
      ensures cartClearedParam == old(cartClearedParam)
    {
      cartItems := cartItems + [product];
    }

    /** `goToCart`: refuse an empty cart, otherwise pass its lines on unchanged. */
    method GoToCart() returns (nav: CartGuard<seq<Product>>)
      ensures nav.EmptyCartAlert? <==> cartItems == []
      ensures nav.Proceed? ==> nav.params == cartItems
    {
      if |cartItems| == 0 {
        return EmptyCartAlert;
      }
      nav := Proceed(cartItems);
    }

    /** The "+ Add Product" button. */
    method OpenAddProductModal()
      modifies this
      ensures showAddProductModal
      ensures cartItems == old(cartItems) && products == old(products)
      ensures newProduct == old(newProduct) && selectedCategory == old(selectedCategory)
      ensures cartClearedParam == old(cartClearedParam)
    {
      showAddProductModal := true;
    }

    /** Every change handler of the form (`setNewProduct({...newProduct, f: v})`),
        the image pickers' results and "Change Image" included. */
    method EditForm(form: ProductForm)
      modifies this
      ensures newProduct == form
      ensures cartItems == old(cartItems) && products == old(products)
      ensures selectedCategory == old(selectedCategory)
      ensures showAddProductModal == old(showAddProductModal)
      ensures cartClearedParam == old(cartClearedParam)
    {
      newProduct := form;
    }

    /** The modal's "Cancel" button: reset the form and close. */
    method CancelAddProduct()
      modifies this
      ensures newProduct == BlankForm() && !showAddProductModal
      ensures cartItems == old(cartItems) && products == old(products)
      ensures selectedCategory == old(selectedCategory)
      ensures cartClearedParam == old(cartClearedParam)
    {
      newProduct := BlankForm();
      showAddProductModal := false;
    }

    /** `addNewProduct`: on a failed check nothing changes; otherwise the new
        record is appended, the form is reset and the modal closes. */
    method AddNewProduct() returns (check: ListingCheck)
      requires Valid()
      modifies this
      ensures Valid()
      ensures check == CheckListing(old(newProduct))
      ensures check != ProductAdded ==>
                products == old(products) && newProduct == old(newProduct) &&
                showAddProductModal == old(showAddProductModal)
      ensures check == ProductAdded ==>
                products == old(products) + [NewListing(old(newProduct), |old(products)|, userName)] &&
                newProduct == BlankForm() && !showAddProductModal
      ensures cartItems == old(cartItems) && selectedCategory == old(selectedCategory)
      ensures cartClearedParam == old(cartClearedParam)
    {
      if newProduct.name == [] || newProduct.price == [] || newProduct.quantity == [] {
        return FillRequiredFields;
      }
      if newProduct.image.None? {
        return AddImage;
      }
      var newProductObj := NewListing(newProduct, |products|, userName);
      SequentialIdsAppend(products, newProductObj);
      products := products + [newProductObj];
      newProduct := BlankForm();
      showAddProductModal := false;
      check := ProductAdded;
    }
  }
}
