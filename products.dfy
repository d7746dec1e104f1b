/** The product catalogue: the category buttons and the stock label. */
module Products {
  import opened Text
  import opened Seqs

  /** One product; prices are in cents. */
  datatype Product = Product(id: int, name: string, category: string, priceCents: int, stock: int, status: string)

  const SeededProducts: seq<Product> := [
    Product(1, "Home Security Camera", "Cameras", 19999, 150, "active"),
    Product(2, "Smart Door Lock", "Security", 29999, 89, "active"),
    Product(3, "Wi-Fi Mesh System", "Networking", 39999, 0, "out_of_stock")
  ]

  /** The category buttons, in order. */
  const Categories: seq<string> := ["All", "Cameras", "Security", "Networking", "Accessories"]

  /** `filteredProducts`: "All" is the list itself, any other category keeps
      the products of that category, in order. */
  function FilteredProducts(products: seq<Product>, selectedCategory: string): (r: seq<Product>)
    ensures selectedCategory == "All" ==> r == products
    ensures selectedCategory != "All" ==> forall p :: p in r <==> p in products && p.category == selectedCategory
    ensures selectedCategory != "All" ==> forall p ::
      multiset(r)[p] == if p.category == selectedCategory then multiset(products)[p] else 0
    ensures IsSubsequence(r, products)
  {
    if selectedCategory == "All" then
      SubsequenceOfSelf(products);
      products
    else
      FilterSpec(products, (p: Product) => p.category == selectedCategory);
      Filter(products, (p: Product) => p.category == selectedCategory)
  }

  /** "Accessories" is offered but no seeded product is in it. */
  lemma AccessoriesMatchesNoSeededProduct()
    ensures "Accessories" in Categories
    ensures FilteredProducts(SeededProducts, "Accessories") == []
  {
    FilterKeepsNone(SeededProducts, (p: Product) => p.category == "Accessories");
  }

  const OutOfStock := "Out of stock"

  /** The stock label: driven by the status, not by the stock count. */
  function StockLabel(p: Product): (shown: string)
    ensures shown == OutOfStock <==> p.status == "out_of_stock"
    ensures p.status != "out_of_stock" ==> shown == IntToString(p.stock) + " in stock"
  {
    if p.status == "out_of_stock" then OutOfStock
    else
      var count := IntToString(p.stock);
      assert count[0] == '-' || IsDigit(count[0]);
      assert (count + " in stock")[0] == count[0];
      count + " in stock"
  }

  /** The label ignores the count: an active product with no stock reads
      "0 in stock", and an out-of-stock product with stock left still reads
      "Out of stock". */
  lemma LabelFollowsStatusNotCount()
    ensures StockLabel(Product(9, "", "", 0, 0, "active")) == "0 in stock"
    ensures StockLabel(Product(9, "", "", 0, 5, "out_of_stock")) == OutOfStock
  {
    assert IntToString(0) == "0";
  }

  class ProductsPage {
    var products: seq<Product>
    var selectedCategory: string

    constructor ()
      ensures products == SeededProducts && selectedCategory == "All"
    {
      products := SeededProducts;
      selectedCategory := "All";
    }

    function Shown(): (r: seq<Product>)
      reads this
      ensures IsSubsequence(r, products)
    {
      FilteredProducts(products, selectedCategory)
    }

    /** A category button click. */
    method SelectCategory(c: string)
      modifies this
      ensures selectedCategory == c && products == old(products)
    {
      selectedCategory := c;
    }
  }
}
