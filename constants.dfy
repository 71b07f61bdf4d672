// The built-in catalog: each dataset row becomes a product with a sequential
// id, copied fields, a fixed specification sheet and a random stock level;
// and the list of all categories.

module Constants {
  import opened Types
  import opened Text

  /** One row of the literal dataset. */
  datatype Row = Row(cat: Category, brand: string, name: string, price: int, img: string)

  /** `ep-<n>`. */
  function ProductId(n: nat): string
  {
    "ep-" + NatToString(n)
  }

  lemma ProductIdInjective(m: nat, n: nat)
    requires m != n
    ensures ProductId(m) != ProductId(n)
  {
    NatToStringInjective(m, n);
    assert ProductId(m)[3..] == NatToString(m);
    assert ProductId(n)[3..] == NatToString(n);
  }

  /** `Math.floor(random * 20) + 5` for a draw `random` in [0, 1). */
  function Stock(random: real): (s: int)
    requires 0.0 <= random < 1.0
    ensures 5 <= s <= 24
  {
    (random * 20.0).Floor + 5
  }

  function Description(row: Row): string
  {
    "Official " + row.brand + " " + row.name + ". Engineered for premium performance in the "
    + Lower(CategoryName(row.cat)) + " space. Experience industry-leading technology and build quality."
  }

  const SpecKeys: set<string> := {"Brand", "Warranty", "Availability", "Condition"}

  function Specs(brand: string): (m: map<string, string>)
    ensures m.Keys == SpecKeys
    ensures m["Brand"] == brand
    ensures m["Warranty"] == "2-Year Manufacturer"
    ensures m["Availability"] == "Immediate Dispatch"
    ensures m["Condition"] == "Brand New"
  {
    map["Brand" := brand, "Warranty" := "2-Year Manufacturer",
        "Availability" := "Immediate Dispatch", "Condition" := "Brand New"]
  }

  /** The product built from the row at position `index`. */
  function MakeProduct(row: Row, index: nat, random: real): Product
    requires 0.0 <= random < 1.0
  {
    Product(ProductId(index + 1), row.brand, row.name, row.price, [row.img], row.cat,
            Stock(random), Description(row), Specs(row.brand))
  }

  /**
   * Walks the dataset in order and pushes one product per row. `randoms`
   * holds the successive draws of the random generator, one per row.
   */
  method GenerateProducts(dataset: seq<Row>, randoms: seq<real>) returns (products: seq<Product>)
    requires |randoms| == |dataset|
    requires forall k | 0 <= k < |randoms| :: 0.0 <= randoms[k] < 1.0
    ensures |products| == |dataset|
    ensures forall i | 0 <= i < |products| ::
      && products[i].id == ProductId(i + 1)
      && products[i].brand == dataset[i].brand
      && products[i].name == dataset[i].name
      && products[i].price == dataset[i].price
      && products[i].category == dataset[i].cat
      && products[i].images == [dataset[i].img]
      && 5 <= products[i].stock <= 24
      && products[i].description == Description(dataset[i])
      && products[i].specs == Specs(dataset[i].brand)
    ensures forall i, j | 0 <= i < j < |products| :: products[i].id != products[j].id
  {
    products := [];
    var index := 0;
    while index < |dataset|
      invariant 0 <= index <= |dataset|
      invariant |products| == index
      invariant forall i | 0 <= i < index :: products[i] == MakeProduct(dataset[i], i, randoms[i])
    {
      products := products + [MakeProduct(dataset[index], index, randoms[index])];
      index := index + 1;
    }
    forall i, j | 0 <= i < j < |products| ensures products[i].id != products[j].id {
      ProductIdInjective(i + 1, j + 1);
    }
  }

  /** The categories in declaration order. */
  const Categories: seq<Category> :=
    [Smartphones, Laptops, Headphones, SmartTvs, Accessories, Gaming, Cameras, SmartHome]

  /** Position of a category in its declaration. */
  function Ordinal(c: Category): nat
  {
    match c
    case Smartphones => 0
    case Laptops => 1
    case Headphones => 2
    case SmartTvs => 3
    case Accessories => 4
    case Gaming => 5
    case Cameras => 6
    case SmartHome => 7
  }

  /** Every category is listed exactly once, in declaration order. */
  lemma CategoriesComplete()
    ensures forall c: Category :: c in Categories
    ensures |Categories| == 8
    ensures forall i | 0 <= i < |Categories| :: Ordinal(Categories[i]) == i
  {
    forall c: Category ensures c in Categories {
      assert Categories[Ordinal(c)] == c;
    }
  }
}
