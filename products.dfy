/**
  The product catalogue page: the search filter, adding a product from the
  form, deleting by id, the stock badge and the inventory figures.
  Prices are integer cents.
 */
module Products {
  import opened Text
  import opened Wrappers

  datatype Product = Product(id: int, name: string, category: string, price: int, stock: int, barcode: string)

  /**
    The new-product form. A numeric field is None while empty and holds
    the parsed value (cents for the price) otherwise.
   */
  datatype ProductForm = ProductForm(name: string, category: string, price: Option<int>, stock: Option<int>, barcode: string)

  const EmptyForm := ProductForm([], [], None, None, [])

  /** The six products the page starts with. */
  function Seeds(): seq<Product> {
    [ Product(1, "Vinho Tinto Reserva", "Vinhos Tintos", 8990, 24, "7891234567890"),
      Product(2, "Vinho Branco Seco", "Vinhos Brancos", 6500, 18, "7891234567891"),
      Product(3, "Espumante Brut", "Espumantes", 12500, 12, "7891234567892"),
      Product(4, "Whisky Single Malt", "Destilados", 28000, 8, "7891234567893"),
      Product(5, "Vodka Premium", "Destilados", 9500, 15, "7891234567894"),
      Product(6, "Cerveja Artesanal IPA", "Cervejas", 1850, 48, "7891234567895") ]
  }

  // ---------------------------------------------------------------------
  // Search
  // ---------------------------------------------------------------------

  /**
    The search predicate: name or category contain the term ignoring case,
    or the barcode contains it as typed.
   */
  predicate Matches(p: Product, term: string) {
    || Contains(ToLower(p.name), ToLower(term))
    || Contains(ToLower(p.category), ToLower(term))
    || Contains(p.barcode, term)
  }

  /** `filteredProducts`: the matching products, in catalogue order. */
  function Filtered(products: seq<Product>, term: string): (r: seq<Product>)
    ensures forall p :: p in r <==> p in products && Matches(p, term)
    ensures |r| <= |products|
  {
    if products == [] then []
    else if Matches(products[0], term) then [products[0]] + Filtered(products[1..], term)
    else Filtered(products[1..], term)
  }

  /** Filtering works product by product: the order of the catalogue is kept. */
  lemma {:induction false} FilteredAppend(a: seq<Product>, b: seq<Product>, term: string)
    ensures Filtered(a + b, term) == Filtered(a, term) + Filtered(b, term)
  {
    if a == [] {
      assert a + b == b;
    } else {
      assert (a + b)[1..] == a[1..] + b;
      FilteredAppend(a[1..], b, term);
    }
  }

  /** An empty search shows the whole catalogue. */
  lemma {:induction false} EmptySearchKeepsAll(products: seq<Product>)
    ensures Filtered(products, []) == products
  {
    if products != [] {
      ContainsEmpty(ToLower(products[0].name));
      EmptySearchKeepsAll(products[1..]);
    }
  }

  /** Searching by a product's name in any letter case finds it. */
  lemma SearchByNameIgnoresCase(p: Product, term: string)
    requires ToLower(term) == ToLower(p.name)
    ensures Matches(p, term)
  {
    assert IsPrefix(ToLower(term), ToLower(p.name));
  }

  // ---------------------------------------------------------------------
  // Add and delete
  // ---------------------------------------------------------------------

  /** The required fields of `handleAddProduct`: everything but the barcode. */
  predicate FormComplete(form: ProductForm) {
    form.name != [] && form.category != [] && form.price.Some? && form.stock.Some?
  }

  /**
    The product `handleAddProduct` builds from a complete form: id one past
    the current length, and a barcode of "789" and a random suffix when the
    form leaves it blank.
   */
  function NewProduct(products: seq<Product>, form: ProductForm, randomSuffix: string): (p: Product)
    requires FormComplete(form)
    ensures p.id == |products| + 1
    ensures p.name == form.name && p.category == form.category
    ensures p.price == form.price.value && p.stock == form.stock.value
    ensures form.barcode != [] ==> p.barcode == form.barcode
    ensures form.barcode == [] ==> p.barcode == "789" + randomSuffix
  {
    Product(|products| + 1, form.name, form.category, form.price.value, form.stock.value,
            if form.barcode != [] then form.barcode else "789" + randomSuffix)
  }

  /** `products.filter(p => p.id !== id)`. */
  function WithoutId(products: seq<Product>, id: int): (r: seq<Product>)
    ensures forall p :: p in r <==> p in products && p.id != id
    ensures |r| <= |products|
  {
    if products == [] then []
    else if products[0].id != id then [products[0]] + WithoutId(products[1..], id)
    else WithoutId(products[1..], id)
  }

  lemma {:induction false} WithoutIdAppend(a: seq<Product>, b: seq<Product>, id: int)
    ensures WithoutId(a + b, id) == WithoutId(a, id) + WithoutId(b, id)
  {
    if a == [] {
      assert a + b == b;
    } else {
      assert (a + b)[1..] == a[1..] + b;
      WithoutIdAppend(a[1..], b, id);
    }
  }

  /** Deleting an id that no product has changes nothing. */
  lemma {:induction false} WithoutIdAbsent(products: seq<Product>, id: int)
    requires forall p :: p in products ==> p.id != id
    ensures WithoutId(products, id) == products
  {
    if products != [] {
      WithoutIdAbsent(products[1..], id);
    }
  }

  predicate UniqueIds(products: seq<Product>) {
    forall i, j :: 0 <= i < j < |products| ==> products[i].id != products[j].id
  }

  /** Ids are the positions 1, 2, ..., n: true of the seeds and of every catalogue built by adding only. */
  predicate DenseIds(products: seq<Product>) {
    forall i :: 0 <= i < |products| ==> products[i].id == i + 1
  }

  /** Adding to a catalogue with dense ids keeps them dense, hence unique. */
  lemma AddKeepsDenseIds(products: seq<Product>, form: ProductForm, randomSuffix: string)
    requires DenseIds(products) && FormComplete(form)
    ensures DenseIds(products + [NewProduct(products, form, randomSuffix)])
    ensures UniqueIds(products + [NewProduct(products, form, randomSuffix)])
  {
  }

  /**
    Ids are not unique in general: deleting product 1 from a dense
    catalogue of n products and then adding one gives two products with id n.
   */
  lemma DuplicateIdAfterDelete(products: seq<Product>, form: ProductForm, randomSuffix: string)
    requires DenseIds(products) && |products| >= 2 && FormComplete(form)
    ensures var after := WithoutId(products, 1);
            var next := after + [NewProduct(after, form, randomSuffix)];
            && |next| == |products|
            && next[|products| - 2].id == |products|
            && next[|products| - 1].id == |products|
            && !UniqueIds(next)
  {
    assert products == [products[0]] + products[1..];
    WithoutIdAppend([products[0]], products[1..], 1);
    WithoutIdAbsent(products[1..], 1);
    assert WithoutId([products[0]], 1) == [];
  }

  /** The seeds have ids 1 to 6, so deleting product 1 and adding one repeats id 6. */
  lemma SeedsDuplicateId(form: ProductForm, randomSuffix: string)
    requires FormComplete(form)
    ensures var after := WithoutId(Seeds(), 1);
            var next := after + [NewProduct(after, form, randomSuffix)];
            |next| == 6 && next[4].id == 6 && next[5].id == 6
  {
    SeedsDense();
    DuplicateIdAfterDelete(Seeds(), form, randomSuffix);
  }

  lemma SeedsDense()
    ensures |Seeds()| == 6 && DenseIds(Seeds())
  {
    var s := Seeds();
    assert s[0].id == 1 && s[1].id == 2 && s[2].id == 3;
    assert s[3].id == 4 && s[4].id == 5 && s[5].id == 6;
  }

  // ---------------------------------------------------------------------
  // Stock badge and inventory figures
  // ---------------------------------------------------------------------

  datatype StockBadge = OutOfStock | Low | Available

  /** `getStockBadge`: none at zero, low under ten (negative counts included), available from ten. */
  function GetStockBadge(stock: int): (b: StockBadge)
    ensures b == OutOfStock <==> stock == 0
    ensures b == Low <==> stock != 0 && stock < 10
    ensures b == Available <==> stock >= 10
  {
    if stock == 0 then OutOfStock
    else if stock < 10 then Low
    else Available
  }

  /** For stock that is not negative the badge only improves as stock grows. */
  lemma BadgeMonotone(s: int, t: int)
    requires 0 <= s <= t
    ensures GetStockBadge(s) == Available ==> GetStockBadge(t) == Available
    ensures GetStockBadge(t) == OutOfStock ==> GetStockBadge(s) == OutOfStock
  {
  }

  /** The "items in stock" figure: the sum of the stock counts. */
  function StockTotal(products: seq<Product>): int {
    if products == [] then 0 else products[0].stock + StockTotal(products[1..])
  }

  function StockValue(p: Product): int {
    p.price * p.stock
  }

  /** The "total value" figure: the sum of price × stock, in cents. */
  function InventoryValue(products: seq<Product>): int {
    if products == [] then 0 else StockValue(products[0]) + InventoryValue(products[1..])
  }

  lemma {:induction false} TotalsAppend(a: seq<Product>, b: seq<Product>)
    ensures StockTotal(a + b) == StockTotal(a) + StockTotal(b)
    ensures InventoryValue(a + b) == InventoryValue(a) + InventoryValue(b)
  {
    if a == [] {
      assert a + b == b;
    } else {
      assert (a + b)[1..] == a[1..] + b;
      TotalsAppend(a[1..], b);
    }
  }

  /** With no negative stock or price, neither figure is negative. */
  lemma {:induction false} TotalsNonNegative(products: seq<Product>)
    requires forall p :: p in products ==> p.stock >= 0 && p.price >= 0
    ensures StockTotal(products) >= 0 && InventoryValue(products) >= 0
  {
    if products != [] {
      TotalsNonNegative(products[1..]);
      var p := products[0];
      assert p.price * p.stock >= 0;
    }
  }

  /** The figures the page opens with: six products, 125 bottles, R$ 9380.60. */
  lemma SeedFigures()
    ensures |Seeds()| == 6 && StockTotal(Seeds()) == 125 && InventoryValue(Seeds()) == 938060
  {
    var s := Seeds();
    assert StockTotal(s[5..]) == 48;
    assert StockTotal(s[3..]) == 71;
    assert InventoryValue(s[5..]) == 88800;
    assert InventoryValue(s[3..]) == 455300;
  }

  // ---------------------------------------------------------------------
  // The page's state
  // ---------------------------------------------------------------------

  class ProductsPage {
    var products: seq<Product>
    var searchTerm: string
    var form: ProductForm

    constructor ()
      ensures products == Seeds() && searchTerm == [] && form == EmptyForm
    {
      products := Seeds();
      searchTerm := [];
      form := EmptyForm;
    }

    /** The products the page lists for the current search. */
    function Visible(): (r: seq<Product>)
      reads this
      ensures forall p :: p in r <==> p in products && Matches(p, searchTerm)
    {
      Filtered(products, searchTerm)
    }

    method SetSearchTerm(term: string)
      modifies this
      ensures searchTerm == term && products == old(products) && form == old(form)
    {
      searchTerm := term;
    }

    method SetForm(f: ProductForm)
      modifies this
      ensures form == f && products == old(products) && searchTerm == old(searchTerm)
    {
      form := f;
    }

    /**
      `handleAddProduct`: with a required field empty nothing changes;
      otherwise the new product is appended and the form cleared.
     */
    method AddProduct(randomSuffix: string) returns (added: bool)
      modifies this
      ensures added == FormComplete(old(form))
      ensures !added ==> products == old(products) && form == old(form)
      ensures added ==> products == old(products) + [NewProduct(old(products), old(form), randomSuffix)]
      ensures added ==> form == EmptyForm
      ensures searchTerm == old(searchTerm)
    {
      if form.name == [] || form.category == [] || form.price.None? || form.stock.None? {
        return false;
      }
      var product := Product(|products| + 1, form.name, form.category, form.price.value, form.stock.value,
                             if form.barcode != [] then form.barcode else "789" + randomSuffix);
      products := products + [product];
      form := EmptyForm;
      return true;
    }

    /** `handleDeleteProduct`: every product with the id goes, the rest keep their order. */
    method DeleteProduct(id: int)
      modifies this
      ensures products == WithoutId(old(products), id)
      ensures (forall p :: p in old(products) ==> p.id != id) ==> products == old(products)
      ensures searchTerm == old(searchTerm) && form == old(form)
    {
      if forall p :: p in products ==> p.id != id {
        WithoutIdAbsent(products, id);
      }
      products := WithoutId(products, id);
    }
  }
}
