/** The product entities and catalogue constants of the storefront
    (`src/types/products.ts`). */
module Catalog {
  import opened Wrappers

  /** A product as the remote API returns it. Prices and stock are whole taka
      and whole units. */
  datatype Product = Product(
    id: string,
    name: string,
    slug: string,
    description: string,
    price: int,
    discountPrice: Option<int>,
    category: string,
    gender: string,
    material: Option<string>,
    sizes: seq<string>,
    colors: seq<string>,
    images: seq<string>,
    stock: int,
    isFeatured: bool,
    tags: seq<string>)

  /** The listing response of `GET /api/products`. */
  datatype ProductsResponse = ProductsResponse(
    success: bool,
    products: seq<Product>,
    total: int,
    page: int,
    totalPages: int,
    limit: int)

  /** The listing query. Every field is an optional string; `sortBy` and
      `sortOrder` are typed as enumerations but hold whatever the URL held. */
  datatype ProductQuery = ProductQuery(
    page: Option<string>,
    limit: Option<string>,
    sortBy: Option<string>,
    sortOrder: Option<string>,
    category: Option<string>,
    gender: Option<string>,
    minPrice: Option<string>,
    maxPrice: Option<string>,
    size: Option<string>,
    color: Option<string>,
    search: Option<string>)

  /** The field names of a query, in the order the listing page builds it. */
  const QueryKeys: seq<string> :=
    ["page", "limit", "sortBy", "sortOrder", "category", "gender",
     "minPrice", "maxPrice", "size", "color", "search"]

  lemma QueryKeysDistinct()
    ensures forall a, b | 0 <= a < b < |QueryKeys| :: QueryKeys[a] != QueryKeys[b]
  {
  }

  /** The fields of `q`, in the order of `QueryKeys`. */
  function Values(q: ProductQuery): (vs: seq<Option<string>>)
    ensures |vs| == |QueryKeys|
  {
    [q.page, q.limit, q.sortBy, q.sortOrder, q.category, q.gender,
     q.minPrice, q.maxPrice, q.size, q.color, q.search]
  }

  const Categories: seq<string> := ["Panjabi", "Shirt", "T-Shirt", "Kurta", "Dress", "Salwar", "Saree"]
  const Genders: seq<string> := ["Men", "Women", "Kids", "Unisex"]
  const Sizes: seq<string> := ["XS", "S", "M", "L", "XL", "XXL", "XXXL"]

  datatype SortOption = SortOption(caption: string, value: string, order: string)

  const SortOptions: seq<SortOption> := [
    SortOption("Newest", "createdAt", "desc"),
    SortOption("Price: Low to High", "price", "asc"),
    SortOption("Price: High to Low", "price", "desc"),
    SortOption("Top Rated", "rating", "desc"),
    SortOption("Best Selling", "sold", "desc")
  ]
}
